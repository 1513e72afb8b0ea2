/** The single-question picture quiz (interactives/ImageQuiz.jsx): options to pick from; the first pick
    shows its feedback and freezes the options, and the footer unlocks only when that pick was right.
    The component defines a retry handler but wires it to no element, so a wrong pick can never be
    taken back. */
module ImageQuiz {
  import opened Common
  import opened Content
  import InteractiveSlide
  import LessonNavigation
  import GameNav

  datatype QuizOption = QuizOption(id: string, text: string, correct: bool, feedback: string)

  /** The game's `data`; it is read without a guard, so it is required. */
  datatype QuizData = QuizData(title: string, description: string, image: Option<string>, options: seq<QuizOption>)

  /** `options.find((opt) => opt.correct)`. */
  function FirstCorrect(options: seq<QuizOption>): (r: Option<QuizOption>)
    ensures r.None? <==> forall i :: 0 <= i < |options| ==> !options[i].correct
    ensures r.Some? ==> exists i :: (&& 0 <= i < |options| && options[i] == r.value && r.value.correct
                                     && forall j :: 0 <= j < i ==> !options[j].correct)
  {
    if options == [] then None
    else if options[0].correct then Some(options[0])
    else
      var r := FirstCorrect(options[1..]);
      if r.Some? then
        var i :| 0 <= i < |options[1..]| && options[1..][i] == r.value && r.value.correct
                 && forall j :: 0 <= j < i ==> !options[1..][j].correct;
        assert options[i + 1] == r.value;
        assert forall j :: 0 <= j < i + 1 ==> !options[j].correct by {
          forall j | 0 <= j < i + 1 ensures !options[j].correct {
            if j > 0 { assert options[j] == options[1..][j - 1]; }
          }
        }
        r
      else
        assert forall i :: 0 <= i < |options| ==> !options[i].correct by {
          forall i | 0 <= i < |options| ensures !options[i].correct {
            if i > 0 { assert options[i] == options[1..][i - 1]; }
          }
        }
        r
  }

  datatype QuizState = QuizState(selected: Option<QuizOption>, showFeedback: bool, isCorrect: bool)

  /** The first render; a completed game shows the first right option as picked (none if there is
      none) with its feedback. */
  function Initial(options: seq<QuizOption>, isCompleted: bool): (s: QuizState)
    ensures isCompleted ==> s == QuizState(FirstCorrect(options), true, true)
    ensures !isCompleted ==> s == QuizState(None, false, false)
  {
    QuizState(if isCompleted then FirstCorrect(options) else None, isCompleted, isCompleted)
  }

  /** A click on an option: only while no feedback is shown, and then the pick is final. */
  function Select(s: QuizState, option: QuizOption): (t: QuizState)
    ensures s.showFeedback ==> t == s
    ensures !s.showFeedback ==> t == QuizState(Some(option), true, option.correct)
  {
    if s.showFeedback then s else QuizState(Some(option), true, option.correct)
  }

  /** The footer's forward step is open. */
  predicate Unlocked(s: QuizState)
  {
    s.isCorrect && s.showFeedback
  }

  function Selects(s: QuizState, picks: seq<QuizOption>): QuizState
    decreases |picks|
  {
    if picks == [] then s else Selects(Select(s, picks[0]), picks[1..])
  }

  /** The first pick decides the game for good: after any further clicks the state is the one the
      first pick made, and the footer is open exactly when that pick was right. */
  lemma {:induction false} FirstPickDecides(options: seq<QuizOption>, picks: seq<QuizOption>)
    requires picks != []
    ensures Selects(Initial(options, false), picks) == QuizState(Some(picks[0]), true, picks[0].correct)
    ensures Unlocked(Selects(Initial(options, false), picks)) <==> picks[0].correct
  {
    FrozenStaysFrozen(Select(Initial(options, false), picks[0]), picks[1..]);
  }

  /** Once feedback shows, no click changes anything. */
  lemma {:induction false} FrozenStaysFrozen(s: QuizState, picks: seq<QuizOption>)
    requires s.showFeedback
    ensures Selects(s, picks) == s
    decreases |picks|
  {
    if picks != [] {
      FrozenStaysFrozen(Select(s, picks[0]), picks[1..]);
    }
  }

  /** A completed game opens unlocked, whether or not the options hold a right one. */
  lemma CompletedOpensUnlocked(options: seq<QuizOption>)
    ensures Unlocked(Initial(options, true)) && !Unlocked(Initial(options, false))
  {
  }

  class Quiz {
    const props: InteractiveSlide.GameProps
    const data: QuizData
    var selected: Option<QuizOption>
    var showFeedback: bool
    var isCorrect: bool

    function State(): QuizState
      reads this
    {
      QuizState(selected, showFeedback, isCorrect)
    }

    constructor (props: InteractiveSlide.GameProps, data: QuizData)
      ensures this.props == props && this.data == data
      ensures State() == Initial(data.options, GameNav.Truthy(props.isCompleted))
    {
      this.props := props;
      this.data := data;
      var c := GameNav.Truthy(props.isCompleted);
      selected := if c then FirstCorrect(data.options) else None;
      showFeedback := c;
      isCorrect := c;
    }

    /** A click on option `i`; the buttons are disabled, and the handler guarded, once feedback shows. */
    method HandleOptionClick(i: int)
      requires 0 <= i < |data.options|
      modifies this
      ensures State() == Select(old(State()), data.options[i])
    {
      if !showFeedback {
        var option := data.options[i];
        selected := Some(option);
        isCorrect := option.correct;
        showFeedback := true;
      }
    }

    /** Next is given `onComplete` and unlocked only after a right pick. */
    function Nav(): (v: LessonNavigation.NavView)
      reads this
      ensures v.next.onClick == Some(props.onComplete) <==> Unlocked(State())
      ensures v.next.disabled <==> !Unlocked(State())
    {
      GameNav.Footer(props, Unlocked(State()))
    }
  }
}
