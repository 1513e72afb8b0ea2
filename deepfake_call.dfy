/** The deepfake video-call game (interactives/DeepfakeCall.jsx): an incoming call from a "boss" who
    asks for money. The player may answer, ask the caller to turn their head (the deepfake then
    glitches), obey (and lose), or hang up (and win, which calls `onComplete` at once). An answered
    call lasts 45 seconds, after which it ends as lost. The one-second interval is the method `Tick`;
    the video element is reduced to the source it shows. A click is only possible on a button the
    current screen shows, so any other click leaves the state as it is. */
module DeepfakeCall {
  import opened Common
  import opened Content
  import InteractiveSlide
  import LessonNavigation
  import GameNav

  datatype ActionOption = ActionOption(text: string, action: string)  // `label` in the source

  datatype Dialogue = Dialogue(options: seq<ActionOption>)

  /** The game's `data`; it is destructured, so it is required. */
  datatype CallData = CallData(callerName: string, callerRole: string, videoIdle: string, videoGlitch: string,
                               poster: string, scenario: seq<Dialogue>)

  /** The options of `scenario[0]`; none when the scenario is empty. */
  function Options(data: CallData): (opts: seq<ActionOption>)
    ensures data.scenario != [] ==> opts == data.scenario[0].options
    ensures data.scenario == [] ==> opts == []
  {
    if data.scenario == [] then [] else data.scenario[0].options
  }

  const CallLength := 45

  datatype Status = Incoming | Active | Ended

  datatype CallResult = Won | Lost

  /** `calls` counts the game's own calls of `onComplete`. */
  datatype CallState = CallState(status: Status, video: string, timeLeft: int, result: Option<CallResult>,
                                 muted: bool, calls: nat)

  /** The first render; a completed game opens on a call already ended, with no result. */
  function Initial(data: CallData, isCompleted: bool): (s: CallState)
    ensures s.status == (if isCompleted then Ended else Incoming)
    ensures s.video == data.videoIdle && s.timeLeft == CallLength && s.result.None? && s.calls == 0
  {
    CallState(if isCompleted then Ended else Incoming, data.videoIdle, CallLength, None, false, 0)
  }

  datatype Reason = HungUpSafe | Failed | Timeout

  /** `handleEndCall`: the call ends; hanging up wins and calls `onComplete`, the rest lose. */
  function EndCall(s: CallState, reason: Reason): (t: CallState)
    ensures t.status == Ended
    ensures t.result == Some(if reason == HungUpSafe then Won else Lost)
    ensures t.calls == if reason == HungUpSafe then s.calls + 1 else s.calls
    ensures t.video == s.video && t.timeLeft == s.timeLeft && t.muted == s.muted
  {
    if reason == HungUpSafe then s.(status := Ended, result := Some(Won), calls := s.calls + 1)
    else s.(status := Ended, result := Some(Lost))
  }

  /** `handleAction`: "verify_turn" switches to the glitching video, "obey" loses the game, any other
      action does nothing. */
  function Act(s: CallState, data: CallData, option: ActionOption): CallState
  {
    if option.action == "verify_turn" then s.(video := data.videoGlitch)
    else if option.action == "obey" then EndCall(s, Failed)
    else s
  }

  /** One second of an answered call: the time left goes down, and when it reaches zero the call
      ends as lost at once. Outside an answered call with time left, nothing happens. */
  function Tick(s: CallState): (t: CallState)
    ensures s.status == Active && s.timeLeft > 1 ==> t == s.(timeLeft := s.timeLeft - 1)
    ensures s.status == Active && s.timeLeft == 1 ==> t == EndCall(s.(timeLeft := 0), Timeout)
    ensures !(s.status == Active && s.timeLeft > 0) ==> t == s
  {
    if s.status == Active && s.timeLeft > 0 then
      var u := s.(timeLeft := s.timeLeft - 1);
      if u.timeLeft == 0 then EndCall(u, Timeout) else u
    else s
  }

  datatype Event = Answer | HangUp | Choose(option: ActionOption) | ToggleMute | Second

  /** The buttons of each screen: answer and decline while ringing; the options, mute and hang up
      during the call; none once it ended. */
  predicate Enabled(s: CallState, data: CallData, e: Event)
  {
    match e
    case Answer => s.status == Incoming
    case HangUp => s.status == Incoming || s.status == Active
    case Choose(option) => s.status == Active && option in Options(data)
    case ToggleMute => s.status == Active
    case Second => true
  }

  function Apply(s: CallState, data: CallData, e: Event): CallState
  {
    if !Enabled(s, data, e) then s
    else match e
      case Answer => s.(status := Active)
      case HangUp => EndCall(s, HungUpSafe)
      case Choose(option) => Act(s, data, option)
      case ToggleMute => s.(muted := !s.muted)
      case Second => Tick(s)
  }

  function Run(s: CallState, data: CallData, events: seq<Event>): CallState
    decreases |events|
  {
    if events == [] then s else Run(Apply(s, data, events[0]), data, events[1..])
  }

  /** The order of the call's phases. */
  function Rank(st: Status): (r: int)
    ensures 0 <= r <= 2
  {
    match st
    case Incoming => 0
    case Active => 1
    case Ended => 2
  }

  /** What a game can look like: a result only once ended, at most one call of `onComplete`, made
      exactly by a won game, and the time left within the call length, all of it before the call is
      answered. */
  predicate Inv(s: CallState)
  {
    && (s.status != Ended ==> s.result.None?)
    && s.calls == (if s.result == Some(Won) then 1 else 0)
    && 0 <= s.timeLeft <= CallLength
    && (s.status == Incoming ==> s.timeLeft == CallLength)
    && (s.status == Active ==> s.timeLeft > 0)
  }

  /** Every event keeps the invariant and never moves the call back to an earlier phase. */
  lemma ApplyStep(s: CallState, data: CallData, e: Event)
    requires Inv(s)
    ensures Inv(Apply(s, data, e))
    ensures Rank(Apply(s, data, e).status) >= Rank(s.status)
    ensures s.status == Ended ==> Apply(s, data, e) == s
  {
  }

  /** Whatever happens, `onComplete` is called at most once, and only by a won game; an ended call
      stays ended. */
  lemma {:induction false} RunStep(s: CallState, data: CallData, events: seq<Event>)
    requires Inv(s)
    ensures var t := Run(s, data, events);
            Inv(t) && t.calls <= 1 && (t.calls == 1 <==> t.result == Some(Won))
            && Rank(t.status) >= Rank(s.status)
    decreases |events|
  {
    if events != [] {
      ApplyStep(s, data, events[0]);
      RunStep(Apply(s, data, events[0]), data, events[1..]);
    }
  }

  lemma InitialInv(data: CallData, isCompleted: bool)
    ensures Inv(Initial(data, isCompleted))
  {
  }

  /** Asking the caller to turn only changes the video. */
  lemma VerifyOnlyChangesVideo(s: CallState, data: CallData, option: ActionOption)
    requires s.status == Active && option in Options(data) && option.action == "verify_turn"
    ensures Apply(s, data, Choose(option)) == s.(video := data.videoGlitch)
  {
  }

  /** An answered call with no other move ends lost once its time left has run out, 45 seconds for a
      call just answered. */
  lemma {:induction false} SilenceLoses(s: CallState, data: CallData, n: nat)
    requires s.status == Active && Inv(s) && n == s.timeLeft
    ensures Run(s, data, seq(n, _ => Second)) == EndCall(s.(timeLeft := 0), Timeout)
    decreases n
  {
    var evs := seq(n, _ => Second);
    if n == 1 {
      assert evs[1..] == [];
    } else {
      var t := Apply(s, data, Second);
      assert t == s.(timeLeft := n - 1);
      assert evs[1..] == seq(n - 1, _ => Second);
      SilenceLoses(t, data, n - 1);
    }
  }

  /** What the bottom area shows once the call ended: a win panel or a loss panel. A completed game
      has no result and so shows the loss panel. */
  datatype Panel = Ringing | InCall(options: seq<ActionOption>) | WinPanel | LossPanel

  function Render(s: CallState, data: CallData): (p: Panel)
    ensures p.Ringing? <==> s.status == Incoming
    ensures p.InCall? <==> s.status == Active
    ensures p.InCall? ==> p.options == Options(data)
    ensures p == WinPanel <==> s.status == Ended && s.result == Some(Won)
  {
    match s.status
    case Incoming => Ringing
    case Active => InCall(Options(data))
    case Ended => if s.result == Some(Won) then WinPanel else LossPanel
  }

  lemma CompletedShowsLoss(data: CallData)
    ensures Render(Initial(data, true), data) == LossPanel
  {
  }

  class Call {
    const props: InteractiveSlide.GameProps
    const data: CallData
    var status: Status
    var video: string
    var timeLeft: int
    var result: Option<CallResult>
    var muted: bool
    var calls: nat

    function State(): CallState
      reads this
    {
      CallState(status, video, timeLeft, result, muted, calls)
    }

    ghost predicate Valid()
      reads this
    {
      Inv(State())
    }

    constructor (props: InteractiveSlide.GameProps, data: CallData)
      ensures this.props == props && this.data == data
      ensures State() == Initial(data, GameNav.Truthy(props.isCompleted)) && Valid()
    {
      this.props := props;
      this.data := data;
      status := if GameNav.Truthy(props.isCompleted) then Ended else Incoming;
      video := data.videoIdle;
      timeLeft := CallLength;
      result := None;
      muted := false;
      calls := 0;
    }

    /** The answer button of the ringing screen. */
    method HandleAnswer()
      requires Valid() && status == Incoming
      modifies this
      ensures State() == Apply(old(State()), data, Answer) && Valid()
    {
      status := Active;
    }

    /** Either hang-up button; the game calls `onComplete` itself. */
    method HandleHangUp() returns (fired: Callback)
      requires Valid() && (status == Incoming || status == Active)
      modifies this
      ensures fired == props.onComplete
      ensures State() == Apply(old(State()), data, HangUp) && Valid()
    {
      status := Ended;
      result := Some(Won);
      calls := calls + 1;
      fired := props.onComplete;
    }

    /** Option `i` of the first dialogue, during the call. */
    method HandleAction(i: int)
      requires Valid() && status == Active && 0 <= i < |Options(data)|
      modifies this
      ensures State() == Apply(old(State()), data, Choose(Options(data)[i])) && Valid()
    {
      var option := Options(data)[i];
      if option.action == "verify_turn" {
        video := data.videoGlitch;
      } else if option.action == "obey" {
        status := Ended;
        result := Some(Lost);
      }
    }

    method HandleToggleMute()
      requires Valid() && status == Active
      modifies this
      ensures State() == Apply(old(State()), data, ToggleMute) && Valid()
    {
      muted := !muted;
    }

    /** One second passes. */
    method Tick()
      requires Valid()
      modifies this
      ensures State() == Apply(old(State()), data, Second) && Valid()
    {
      if status == Active && timeLeft > 0 {
        timeLeft := timeLeft - 1;
        if timeLeft == 0 {
          status := Ended;
          result := Some(Lost);
        }
      }
    }

    /** The footer unlocks only through the `isCompleted` prop, never through the game's own result. */
    function Nav(): (v: LessonNavigation.NavView)
      reads this
      ensures v.next.onClick == Some(props.onComplete) <==> GameNav.Truthy(props.isCompleted)
    {
      GameNav.Footer(props, GameNav.Truthy(props.isCompleted))
    }
  }
}
