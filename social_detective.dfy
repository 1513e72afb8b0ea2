/** The oversharing game (interactives/SocialDetective.jsx): a social-media photo with clickable clues
    that leak personal data; clicking one records it and opens its warning, and the footer unlocks
    once as many clues are recorded as there are clues. */
module SocialDetective {
  import opened Common
  import opened Content
  import InteractiveSlide
  import LessonNavigation
  import GameNav

  datatype Clue = Clue(id: string, feedback: string)

  /** The game's `data`; it is destructured, so it is required. */
  datatype DetectiveData = DetectiveData(image: string, clues: seq<Clue>)

  function ClueIds(clues: seq<Clue>): (ids: seq<string>)
    ensures |ids| == |clues| && forall i :: 0 <= i < |clues| ==> ids[i] == clues[i].id
  {
    if clues == [] then [] else [clues[0].id] + ClueIds(clues[1..])
  }

  datatype DetectiveState = DetectiveState(found: seq<string>, active: Option<Clue>)

  /** The first render; a completed game has every clue recorded. */
  function Initial(clues: seq<Clue>, isCompleted: bool): (s: DetectiveState)
    ensures s.active.None? && s.found == if isCompleted then ClueIds(clues) else []
  {
    DetectiveState(if isCompleted then ClueIds(clues) else [], None)
  }

  /** `handleClueClick`: the clue is recorded if new and its warning is opened. */
  function Click(s: DetectiveState, clue: Clue): (t: DetectiveState)
    ensures t.found == AppendIfAbsent(s.found, clue.id) && t.active == Some(clue)
  {
    DetectiveState(AppendIfAbsent(s.found, clue.id), Some(clue))
  }

  /** Closing the warning, by its button or by a click on it. */
  function Close(s: DetectiveState): (t: DetectiveState)
    ensures t == s.(active := None)
  {
    s.(active := None)
  }

  /** `allFound`: a comparison of counts. */
  predicate AllFound(s: DetectiveState, clues: seq<Clue>)
  {
    |s.found| == |clues|
  }

  /** `isFinished`. */
  predicate IsFinished(s: DetectiveState, clues: seq<Clue>, isCompleted: bool)
  {
    isCompleted || AllFound(s, clues)
  }

  /** Only the photo's own clues can be clicked, so only their ids are recorded, and each once when
      the clue ids are distinct. */
  predicate Inv(s: DetectiveState, clues: seq<Clue>)
  {
    && (forall x :: x in s.found ==> x in ClueIds(clues))
    && (NoDup(ClueIds(clues)) ==> NoDup(s.found))
  }

  lemma InitialInv(clues: seq<Clue>, isCompleted: bool)
    ensures Inv(Initial(clues, isCompleted), clues)
  {
  }

  lemma ClickKeepsInv(s: DetectiveState, clues: seq<Clue>, i: int)
    requires Inv(s, clues) && 0 <= i < |clues|
    ensures Inv(Click(s, clues[i]), clues)
    ensures forall x :: x in s.found ==> x in Click(s, clues[i]).found
  {
    assert ClueIds(clues)[i] == clues[i].id;
  }

  /** Every clue of the photo was clicked. */
  predicate EveryFound(s: DetectiveState, clues: seq<Clue>)
  {
    forall i :: 0 <= i < |clues| ==> clues[i].id in s.found
  }

  /** With distinct clue ids, the count is reached exactly when every clue was clicked. */
  lemma AllFoundMeansEvery(s: DetectiveState, clues: seq<Clue>)
    requires Inv(s, clues) && NoDup(ClueIds(clues))
    ensures AllFound(s, clues) <==> EveryFound(s, clues)
  {
    CountMeansAll(s.found, ClueIds(clues));
    if EveryFound(s, clues) {
      forall x | x in ClueIds(clues) ensures x in s.found {
        var i :| 0 <= i < |ClueIds(clues)| && ClueIds(clues)[i] == x;
      }
    }
  }

  /** A completed game opens finished, and with every clue recorded. */
  lemma CompletedOpensFinished(clues: seq<Clue>)
    ensures var s := Initial(clues, true);
            AllFound(s, clues) && IsFinished(s, clues, true)
            && EveryFound(s, clues)
  {
  }

  class Detective {
    const props: InteractiveSlide.GameProps
    const data: DetectiveData
    var found: seq<string>
    var active: Option<Clue>

    function State(): DetectiveState
      reads this
    {
      DetectiveState(found, active)
    }

    ghost predicate Valid()
      reads this
    {
      Inv(State(), data.clues)
    }

    constructor (props: InteractiveSlide.GameProps, data: DetectiveData)
      ensures this.props == props && this.data == data
      ensures State() == Initial(data.clues, GameNav.Truthy(props.isCompleted)) && Valid()
    {
      this.props := props;
      this.data := data;
      found := if GameNav.Truthy(props.isCompleted) then ClueIds(data.clues) else [];
      active := None;
    }

    /** A click on the marker of clue `i`. */
    method HandleClueClick(i: int)
      requires Valid() && 0 <= i < |data.clues|
      modifies this
      ensures State() == Click(old(State()), data.clues[i]) && Valid()
    {
      ClickKeepsInv(State(), data.clues, i);
      var clue := data.clues[i];
      if clue.id !in found {
        found := found + [clue.id];
      }
      active := Some(clue);
    }

    method CloseClue()
      modifies this
      ensures State() == Close(old(State()))
    {
      active := None;
    }

    function Nav(): (v: LessonNavigation.NavView)
      reads this
      ensures v.next.onClick == Some(props.onComplete) <==>
                IsFinished(State(), data.clues, GameNav.Truthy(props.isCompleted))
    {
      GameNav.Footer(props, IsFinished(State(), data.clues, GameNav.Truthy(props.isCompleted)))
    }
  }
}
