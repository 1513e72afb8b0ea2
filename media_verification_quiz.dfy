/** The real-or-fake quiz (interactives/MediaVerificationQuiz.jsx): five questions answered in turn,
    each answer recorded as right or wrong, a running score, and a results screen once all five are
    answered. The footer unlocks once the quiz is finished, whatever the score. */
module MediaVerificationQuiz {
  import opened Common
  import opened Content
  import InteractiveSlide
  import LessonNavigation
  import GameNav

  /** A question's id, media type and whether what it shows is real. */
  datatype Question = Question(id: int, kind: string, isReal: bool)

  /** `QUIZ_QUESTIONS`, with the fields that decide the game. */
  const Questions: seq<Question> := [
    Question(1, "video", true),
    Question(2, "audio", false),
    Question(3, "video", false),
    Question(4, "text", false),
    Question(5, "audio", true)
  ]

  datatype QuizState = QuizState(current: int, answers: seq<bool>, showExplanation: bool, score: int)

  /** The first render; a completed quiz has every answer marked right but a score of 0. */
  function Initial(isCompleted: bool): (s: QuizState)
    ensures s.current == 0 && s.score == 0 && !s.showExplanation
    ensures isCompleted ==> |s.answers| == |Questions| && forall i :: 0 <= i < |s.answers| ==> s.answers[i]
    ensures !isCompleted ==> s.answers == []
  {
    QuizState(0, if isCompleted then seq(|Questions|, _ => true) else [], false, 0)
  }

  /** `hasAnswered`: an answer is recorded for the current question. */
  predicate HasAnswered(s: QuizState) { 0 <= s.current < |s.answers| }

  /** `quizFinished`. */
  predicate Finished(s: QuizState) { |s.answers| == |Questions| }

  /** The answer buttons are shown only while the quiz runs and the current question is open. */
  predicate CanAnswer(s: QuizState) { !Finished(s) && !HasAnswered(s) }

  /** The "next" button is shown only in the explanation of an answered question of a running quiz. */
  predicate CanGoNext(s: QuizState) { !Finished(s) && HasAnswered(s) }

  /** `handleAnswer`: record whether the answer matched, and count it if it did. */
  function Answer(s: QuizState, userAnswer: bool): QuizState
    requires 0 <= s.current < |Questions|
  {
    var isCorrect := userAnswer == Questions[s.current].isReal;
    s.(answers := s.answers + [isCorrect], showExplanation := true,
       score := if isCorrect then s.score + 1 else s.score)
  }

  /** `handleNext`: on to the next question, except on the last one. */
  function Next(s: QuizState): QuizState
  {
    if s.current == |Questions| - 1 then s else s.(current := s.current + 1, showExplanation := false)
  }

  /** The invariant of a quiz started fresh: the cursor is on a question, at most one answer ahead of
      it, and the score counts the right answers. */
  predicate Fresh(s: QuizState)
  {
    && 0 <= s.current < |Questions|
    && s.current <= |s.answers| <= s.current + 1
    && s.score == CountTrue(s.answers)
  }

  lemma FreshInitial()
    ensures Fresh(Initial(false))
  {
  }

  lemma {:induction false} AnswerKeepsFresh(s: QuizState, userAnswer: bool)
    requires Fresh(s) && CanAnswer(s)
    ensures Fresh(Answer(s, userAnswer))
    ensures |Answer(s, userAnswer).answers| == s.current + 1
  {
    var t := Answer(s, userAnswer);
    assert t.answers[..|t.answers| - 1] == s.answers;
  }

  lemma NextKeepsFresh(s: QuizState)
    requires Fresh(s) && CanGoNext(s)
    ensures Fresh(Next(s))
    ensures Next(s).current == s.current + 1
  {
  }

  /** The score is never more than the number of questions, and is full exactly when every answer
      was right. */
  lemma ScoreBounds(s: QuizState)
    requires Fresh(s) && Finished(s)
    ensures 0 <= s.score <= |Questions|
    ensures s.score == |Questions| <==> forall i :: 0 <= i < |s.answers| ==> s.answers[i]
  {
  }

  /** Answering every question wrong still finishes the quiz, so it still unlocks the footer. */
  lemma AllWrongFinishes()
    ensures var s1 := Answer(Initial(false), false);
            var s2 := Answer(Next(s1), true);
            var s3 := Answer(Next(s2), true);
            var s4 := Answer(Next(s3), true);
            var s5 := Answer(Next(s4), false);
            Finished(s5) && s5.score == 0
  {
  }

  class Quiz {
    const props: InteractiveSlide.GameProps
    var current: int
    var answers: seq<bool>
    var showExplanation: bool
    var score: int

    function State(): QuizState
      reads this
    {
      QuizState(current, answers, showExplanation, score)
    }

    constructor (props: InteractiveSlide.GameProps)
      ensures this.props == props && State() == Initial(GameNav.Truthy(props.isCompleted))
    {
      this.props := props;
      current := 0;
      answers := if GameNav.Truthy(props.isCompleted) then seq(|Questions|, _ => true) else [];
      showExplanation := false;
      score := 0;
    }

    /** A click on "real" (`true`) or "fake" (`false`). */
    method HandleAnswer(userAnswer: bool)
      requires CanAnswer(State()) && 0 <= current < |Questions|
      modifies this
      ensures State() == Answer(old(State()), userAnswer)
    {
      var isCorrect := userAnswer == Questions[current].isReal;
      answers := answers + [isCorrect];
      showExplanation := true;
      if isCorrect {
        score := score + 1;
      }
    }

    method HandleNext()
      requires CanGoNext(State())
      modifies this
      ensures State() == Next(old(State()))
    {
      if current == |Questions| - 1 {
      } else {
        current := current + 1;
        showExplanation := false;
      }
    }

    /** The footer unlocks for a completed game or a finished quiz, whatever the score. */
    function Nav(): (v: LessonNavigation.NavView)
      reads this
      ensures v.next.onClick == Some(props.onComplete) <==> GameNav.Truthy(props.isCompleted) || Finished(State())
    {
      GameNav.Footer(props, GameNav.Truthy(props.isCompleted) || Finished(State()))
    }
  }
}
