/** The data-broker game (interactives/DataBroker.jsx): traces of a person's online life stream in one
    by one, and the player picks which advertising profile a broker would build from them. The right
    profile wins and stops the stream; a wrong one is highlighted for a second and can be followed by
    another try. The 1.5-second stream interval is the method `Tick`, the one-second reset of a wrong
    pick is the method `ClearSelection`, and `clears` counts the resets still pending. */
module DataBroker {
  import opened Common
  import opened Content
  import InteractiveSlide
  import LessonNavigation
  import GameNav

  datatype StreamItem = StreamItem(kind: string, content: string, time: string)

  datatype Profile = Profile(id: string, labelText: string, description: string, icon: string)

  /** The game's `data`; it is destructured, so it is required. */
  datatype BrokerData = BrokerData(streamItems: seq<StreamItem>, correctProfileId: string, profiles: seq<Profile>)

  datatype BrokerState = BrokerState(visible: seq<StreamItem>, streamIndex: int, selected: Option<string>,
                                     isSuccess: bool, isFinished: bool, clears: nat)

  /** The first render; a completed game is finished and won, with an empty, stopped stream. */
  function Initial(isCompleted: bool): (s: BrokerState)
    ensures s.visible == [] && s.streamIndex == 0 && s.selected.None? && s.clears == 0
    ensures s.isSuccess == isCompleted && s.isFinished == isCompleted
  {
    BrokerState([], 0, None, isCompleted, isCompleted, 0)
  }

  /** One beat of the stream: while the game runs and items remain, the next one appears. */
  function Stream(s: BrokerState, items: seq<StreamItem>): BrokerState
    requires 0 <= s.streamIndex
  {
    if !s.isFinished && s.streamIndex < |items| then
      s.(visible := s.visible + [items[s.streamIndex]], streamIndex := s.streamIndex + 1)
    else s
  }

  /** `handleProfileSelect`: ignored once finished; the right profile wins, a wrong one schedules the
      reset of the selection. */
  function Select(s: BrokerState, data: BrokerData, id: string): (t: BrokerState)
    ensures s.isFinished ==> t == s
    ensures !s.isFinished && id == data.correctProfileId ==>
              t == s.(selected := Some(id), isSuccess := true, isFinished := true)
    ensures !s.isFinished && id != data.correctProfileId ==>
              t == s.(selected := Some(id), clears := s.clears + 1)
  {
    if s.isFinished then s
    else if id == data.correctProfileId then s.(selected := Some(id), isSuccess := true, isFinished := true)
    else s.(selected := Some(id), clears := s.clears + 1)
  }

  /** The end of a wrong pick's second: the selection is cleared, whatever it is by then. */
  function Reset(s: BrokerState): BrokerState
    requires s.clears > 0
  {
    s.(selected := None, clears := s.clears - 1)
  }

  /** What a game can look like: the visible items are exactly the first `streamIndex` of the stream,
      and a game is won exactly when it is finished. */
  predicate Inv(s: BrokerState, items: seq<StreamItem>)
  {
    && 0 <= s.streamIndex <= |items|
    && s.visible == items[..s.streamIndex]
    && (s.isSuccess <==> s.isFinished)
  }

  lemma InitialInv(items: seq<StreamItem>, isCompleted: bool)
    ensures Inv(Initial(isCompleted), items)
  {
  }

  /** The stream shows the items in their order and one more per beat, until all are shown or the
      game is finished. */
  lemma StreamKeepsInv(s: BrokerState, items: seq<StreamItem>)
    requires Inv(s, items)
    ensures Inv(Stream(s, items), items)
    ensures Stream(s, items).streamIndex == if s.isFinished || s.streamIndex == |items| then s.streamIndex
                                          else s.streamIndex + 1
  {
    if !s.isFinished && s.streamIndex < |items| {
      assert items[..s.streamIndex + 1] == items[..s.streamIndex] + [items[s.streamIndex]];
    }
  }

  /** A pick keeps the invariant, and winning is sticky: a pick wins a game that was won or that it
      finds the right profile for, and no other. */
  lemma SelectKeepsInv(s: BrokerState, data: BrokerData, id: string)
    requires Inv(s, data.streamItems)
    ensures Inv(Select(s, data, id), data.streamItems)
    ensures s.isSuccess ==> Select(s, data, id).isSuccess
    ensures Select(s, data, id).isSuccess <==> s.isSuccess || id == data.correctProfileId
  {
  }

  /** A reset keeps the invariant and never undoes a win. */
  lemma ResetKeepsInv(s: BrokerState, items: seq<StreamItem>)
    requires Inv(s, items) && s.clears > 0
    ensures Inv(Reset(s), items) && Reset(s).isSuccess == s.isSuccess
  {
  }

  /** A finished game's stream stands still. */
  lemma FinishedStreamStops(s: BrokerState, items: seq<StreamItem>)
    requires 0 <= s.streamIndex && s.isFinished
    ensures Stream(s, items) == s
  {
  }

  /** A wrong pick followed at once by the right one: the late reset still clears the winning
      selection, so the winning profile loses its highlight while the game stays won. */
  lemma LateResetClearsWin(data: BrokerData, wrong: string)
    requires wrong != data.correctProfileId
    ensures var s := Reset(Select(Select(Initial(false), data, wrong), data, data.correctProfileId));
            s.isSuccess && s.isFinished && s.selected.None?
  {
  }

  /** A profile card: disabled once the game is finished unless it is the chosen one, which then
      shows its verdict. */
  datatype Card = Card(id: string, disabled: bool, showResult: bool, correct: bool)

  function Cards(s: BrokerState, data: BrokerData): (cs: seq<Card>)
    ensures |cs| == |data.profiles|
    ensures forall i :: 0 <= i < |cs| ==>
              && cs[i].id == data.profiles[i].id
              && (cs[i].disabled <==> s.isFinished && s.selected != Some(data.profiles[i].id))
              && (cs[i].showResult <==> s.isFinished && s.selected == Some(data.profiles[i].id))
              && (cs[i].correct <==> data.profiles[i].id == data.correctProfileId)
  {
    seq(|data.profiles|, i requires 0 <= i < |data.profiles| =>
      var p := data.profiles[i];
      var isSelected := s.selected == Some(p.id);
      Card(p.id, s.isFinished && !isSelected, s.isFinished && isSelected, p.id == data.correctProfileId))
  }

  class Broker {
    const props: InteractiveSlide.GameProps
    const data: BrokerData
    var visible: seq<StreamItem>
    var streamIndex: int
    var selected: Option<string>
    var isSuccess: bool
    var isFinished: bool
    var clears: nat

    function State(): BrokerState
      reads this
    {
      BrokerState(visible, streamIndex, selected, isSuccess, isFinished, clears)
    }

    ghost predicate Valid()
      reads this
    {
      Inv(State(), data.streamItems)
    }

    constructor (props: InteractiveSlide.GameProps, data: BrokerData)
      ensures this.props == props && this.data == data
      ensures State() == Initial(GameNav.Truthy(props.isCompleted)) && Valid()
    {
      this.props := props;
      this.data := data;
      visible := [];
      streamIndex := 0;
      selected := None;
      isSuccess := GameNav.Truthy(props.isCompleted);
      isFinished := GameNav.Truthy(props.isCompleted);
      clears := 0;
    }

    method Tick()
      requires Valid()
      modifies this
      ensures State() == Stream(old(State()), data.streamItems) && Valid()
    {
      StreamKeepsInv(State(), data.streamItems);
      if !isFinished && streamIndex < |data.streamItems| {
        visible := visible + [data.streamItems[streamIndex]];
        streamIndex := streamIndex + 1;
      }
    }

    method HandleProfileSelect(id: string)
      requires Valid()
      modifies this
      ensures State() == Select(old(State()), data, id) && Valid()
    {
      if isFinished {
        return;
      }
      selected := Some(id);
      if id == data.correctProfileId {
        isSuccess := true;
        isFinished := true;
      } else {
        clears := clears + 1;
      }
    }

    method ClearSelection()
      requires Valid() && clears > 0
      modifies this
      ensures State() == Reset(old(State())) && Valid()
    {
      selected := None;
      clears := clears - 1;
    }

    /** The footer unlocks exactly once the right profile is chosen (or the game was completed). */
    function Nav(): (v: LessonNavigation.NavView)
      reads this
      ensures v.next.onClick == Some(props.onComplete) <==> isSuccess
    {
      GameNav.Footer(props, isSuccess)
    }
  }
}
