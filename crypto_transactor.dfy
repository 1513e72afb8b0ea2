/** The clipboard-hijacking game (interactives/CryptoTransactor.jsx): the player copies the recipient's
    wallet address, but the "malware" puts a look-alike address in the clipboard. Pasting and sending
    loses the money; reporting the pasted address restores the true one, and sending that wins. */
module CryptoTransactor {
  import opened Common
  import opened Content
  import InteractiveSlide
  import LessonNavigation
  import GameNav

  datatype Step = Start | Input | Success | Fail | Fixed

  /** The game's optional `data`, each field optional. */
  datatype TxData = TxData(targetAddress: Option<string>, spoofedAddress: Option<string>, amount: Option<string>)

  const DefaultTarget := "0x71C...9A2"
  const DefaultSpoofed := "0x71C...8B1"
  const DefaultAmount := "0.5 ETH"

  datatype Config = Config(target: string, spoofed: string, amount: string)

  /** `data?.field || default` for each field. */
  function ConfigOf(data: Option<TxData>): (c: Config)
    ensures data.None? ==> c == Config(DefaultTarget, DefaultSpoofed, DefaultAmount)
    ensures data.Some? ==> c == Config(OrElse(data.value.targetAddress, DefaultTarget),
                                       OrElse(data.value.spoofedAddress, DefaultSpoofed),
                                       OrElse(data.value.amount, DefaultAmount))
    ensures c.target != "" && c.spoofed != ""
  {
    if data.None? then Config(DefaultTarget, DefaultSpoofed, DefaultAmount)
    else Config(OrElse(data.value.targetAddress, DefaultTarget),
                OrElse(data.value.spoofedAddress, DefaultSpoofed),
                OrElse(data.value.amount, DefaultAmount))
  }

  datatype TxState = TxState(step: Step, inputAddress: string, clipboard: string, hasPasted: bool)

  const Initial := TxState(Start, "", "", false)

  /** `handleCopy`: whatever was meant, the clipboard receives the spoofed address. */
  function Copy(s: TxState, c: Config): TxState
  {
    s.(clipboard := c.spoofed, step := Input)
  }

  /** `handlePasteClick`: nothing on an empty clipboard, else its content becomes the recipient. */
  function Paste(s: TxState): TxState
  {
    if s.clipboard == "" then s else s.(inputAddress := s.clipboard, hasPasted := true)
  }

  /** A click on the recipient field: it pastes only until something has been pasted. */
  function ClickInput(s: TxState): TxState
  {
    if s.hasPasted then s else Paste(s)
  }

  /** `handleSend`. */
  function Send(s: TxState, c: Config): (t: TxState)
    ensures t.step == Success <==> s.inputAddress == c.target
    ensures t.step == Fail <==> s.inputAddress != c.target
    ensures t == s.(step := t.step)
  {
    if s.inputAddress == c.target then s.(step := Success) else s.(step := Fail)
  }

  /** `handleReport`: reporting the spoofed address swaps in the true one. */
  function Report(s: TxState, c: Config): (t: TxState)
    ensures s.inputAddress == c.spoofed ==> t == s.(inputAddress := c.target, step := Fixed)
    ensures s.inputAddress != c.spoofed ==> t == s.(step := Fail)
  {
    if s.inputAddress == c.spoofed then s.(inputAddress := c.target, step := Fixed) else s.(step := Fail)
  }

  /** The "try again" button: everything back to the start. */
  function Retry(s: TxState): TxState
  {
    Initial
  }

  datatype Action = CopyAction | ClickInputAction | SendAction | ReportAction | RetryAction

  function Apply(s: TxState, c: Config, a: Action): TxState
  {
    match a
    case CopyAction => Copy(s, c)
    case ClickInputAction => ClickInput(s)
    case SendAction => Send(s, c)
    case ReportAction => Report(s, c)
    case RetryAction => Retry(s)
  }

  /** Which screen offers the control: the copy button on the start screen; the field, clickable
      until a paste, on the input and fixed screens; report and send once pasted, on the input screen
      only; the safe send on the fixed screen; "try again" on the fail screen. The success screen
      offers none. */
  predicate Enabled(s: TxState, a: Action)
  {
    match a
    case CopyAction => s.step == Start
    case ClickInputAction => (s.step == Input || s.step == Fixed) && !s.hasPasted
    case SendAction => (s.step == Input && s.hasPasted) || s.step == Fixed
    case ReportAction => s.step == Input && s.hasPasted
    case RetryAction => s.step == Fail
  }

  /** A click: a control the screen does not show does nothing. */
  function Act(s: TxState, c: Config, a: Action): (t: TxState)
    ensures Enabled(s, a) ==> t == Apply(s, c, a)
    ensures !Enabled(s, a) ==> t == s
  {
    if Enabled(s, a) then Apply(s, c, a) else s
  }

  function Run(s: TxState, c: Config, actions: seq<Action>): TxState
    decreases |actions|
  {
    if actions == [] then s else Run(Act(s, c, actions[0]), c, actions[1..])
  }

  /** What a game can look like: the clipboard is empty or holds the spoofed address; the field is
      empty until a paste and then holds the spoofed or the true address; the start screen has
      nothing pasted; on the input screen a pasted field holds the spoofed address; a fixed game was
      pasted, and a fixed or won game holds the true address. Both addresses of a game are
      non-empty. */
  predicate Inv(s: TxState, c: Config)
  {
    && c.target != "" && c.spoofed != ""
    && (s.clipboard == "" || s.clipboard == c.spoofed)
    && (!s.hasPasted ==> s.inputAddress == "")
    && (s.hasPasted ==> s.inputAddress == c.spoofed || s.inputAddress == c.target)
    && (s.step == Start ==> !s.hasPasted)
    && (s.step == Input && s.hasPasted ==> s.inputAddress == c.spoofed)
    && (s.step == Fixed ==> s.hasPasted)
    && (s.step == Fixed || s.step == Success ==> s.inputAddress == c.target)
  }

  lemma StepKeepsInv(s: TxState, c: Config, a: Action)
    requires Inv(s, c)
    ensures Inv(Act(s, c, a), c)
  {
  }

  /** Every game, whatever was clicked, satisfies the invariant; in particular a transfer counts as
      a success only when it went to the true address. */
  lemma {:induction false} RunKeepsInv(s: TxState, c: Config, actions: seq<Action>)
    requires Inv(s, c)
    ensures Inv(Run(s, c, actions), c)
    ensures Run(s, c, actions).step == Success ==> Run(s, c, actions).inputAddress == c.target
    decreases |actions|
  {
    if actions != [] {
      StepKeepsInv(s, c, actions[0]);
      RunKeepsInv(Act(s, c, actions[0]), c, actions[1..]);
    }
  }

  lemma InitialInv(data: Option<TxData>)
    ensures Inv(Initial, ConfigOf(data))
  {
  }

  /** The report button is shown only while the field holds the pasted, spoofed address, so a report
      always catches the malware: the fail branch of `handleReport` is never taken. */
  lemma ReportAlwaysFixes(s: TxState, c: Config)
    requires Inv(s, c) && Enabled(s, ReportAction)
    ensures Act(s, c, ReportAction) == s.(inputAddress := c.target, step := Fixed)
  {
  }

  /** The success screen has no control: a won game stays won, whatever is clicked. */
  lemma {:induction false} SuccessIsFinal(s: TxState, c: Config, actions: seq<Action>)
    requires s.step == Success
    ensures Run(s, c, actions) == s
    decreases |actions|
  {
    if actions != [] {
      assert Act(s, c, actions[0]) == s;
      SuccessIsFinal(s, c, actions[1..]);
    }
  }

  /** Copy, paste, send: the trusting player sends to the spoofed address, and loses exactly when
      the two addresses differ. */
  lemma TrustingPlayerLoses(c: Config)
    requires c.spoofed != ""
    ensures var s := Run(Initial, c, [CopyAction, ClickInputAction, SendAction]);
            s.inputAddress == c.spoofed && (s.step == Fail <==> c.spoofed != c.target)
  {
    var acts := [CopyAction, ClickInputAction, SendAction];
    assert acts[1..] == [ClickInputAction, SendAction];
    assert acts[1..][1..] == [SendAction];
    assert acts[1..][1..][1..] == [];
  }

  /** Copy, paste, report, send: the careful player always wins. */
  lemma CarefulPlayerWins(c: Config)
    requires c.spoofed != ""
    ensures Run(Initial, c, [CopyAction, ClickInputAction, ReportAction]).step == Fixed
    ensures Run(Initial, c, [CopyAction, ClickInputAction, ReportAction, SendAction]).step == Success
  {
    var acts := [CopyAction, ClickInputAction, ReportAction, SendAction];
    assert acts[1..] == [ClickInputAction, ReportAction, SendAction];
    assert acts[1..][1..] == [ReportAction, SendAction];
    assert acts[1..][1..][1..] == [SendAction];
    assert acts[1..][1..][1..][1..] == [];
    var three := [CopyAction, ClickInputAction, ReportAction];
    assert three[1..] == [ClickInputAction, ReportAction];
    assert three[1..][1..] == [ReportAction];
    assert three[1..][1..][1..] == [];
  }

  /** Once a report has put the true address in the field, sending always wins. */
  lemma FixedSendWins(s: TxState, c: Config)
    requires Inv(s, c) && s.step == Fixed
    ensures Enabled(s, SendAction) && Act(s, c, SendAction).step == Success
  {
  }

  /** When the two addresses differ, a game that never reports never wins: without a report the
      field never holds the true address, whatever else is clicked and however often. */
  lemma {:induction false} SuccessNeedsReport(s: TxState, c: Config, actions: seq<Action>)
    requires Inv(s, c) && c.spoofed != c.target && s.inputAddress != c.target
    requires forall i :: 0 <= i < |actions| ==> actions[i] != ReportAction
    ensures Run(s, c, actions).inputAddress != c.target
    ensures Run(s, c, actions).step != Success
    decreases |actions|
  {
    if actions != [] {
      StepKeepsInv(s, c, actions[0]);
      assert forall i :: 0 <= i < |actions[1..]| ==> actions[1..][i] != ReportAction by {
        forall i | 0 <= i < |actions[1..]| ensures actions[1..][i] != ReportAction {
          assert actions[1..][i] == actions[i + 1];
        }
      }
      SuccessNeedsReport(Act(s, c, actions[0]), c, actions[1..]);
    }
  }

  /** With the built-in addresses the trap is real. */
  lemma DefaultsDiffer()
    ensures ConfigOf(None).spoofed != ConfigOf(None).target
  {
    assert DefaultSpoofed[9] != DefaultTarget[9];
  }

  class Transactor {
    const props: InteractiveSlide.GameProps
    const config: Config
    var step: Step
    var inputAddress: string
    var clipboard: string
    var hasPasted: bool

    function State(): TxState
      reads this
    {
      TxState(step, inputAddress, clipboard, hasPasted)
    }

    ghost predicate Valid()
      reads this
    {
      Inv(State(), config)
    }

    constructor (props: InteractiveSlide.GameProps, data: Option<TxData>)
      ensures this.props == props && config == ConfigOf(data)
      ensures State() == Initial && Valid()
    {
      this.props := props;
      config := ConfigOf(data);
      step := Start;
      inputAddress := "";
      clipboard := "";
      hasPasted := false;
    }

    method HandleCopy()
      requires Valid() && Enabled(State(), CopyAction)
      modifies this
      ensures State() == Copy(old(State()), config) && Valid()
    {
      clipboard := config.spoofed;
      step := Input;
    }

    method HandleInputClick()
      requires Valid() && Enabled(State(), ClickInputAction)
      modifies this
      ensures State() == ClickInput(old(State())) && Valid()
    {
      if !hasPasted && clipboard != "" {
        inputAddress := clipboard;
        hasPasted := true;
      }
    }

    method HandleSend()
      requires Valid() && Enabled(State(), SendAction)
      modifies this
      ensures State() == Send(old(State()), config) && Valid()
    {
      if inputAddress == config.target {
        step := Success;
      } else {
        step := Fail;
      }
    }

    /** The report button shows only while the field holds the pasted, spoofed address, so the
        source's fail branch ("reported a valid address") cannot be reached from it. */
    method HandleReport()
      requires Valid() && Enabled(State(), ReportAction)
      modifies this
      ensures State() == Report(old(State()), config) && Valid()
    {
      if inputAddress == config.spoofed {
        inputAddress := config.target;
        step := Fixed;
      } else {
        assert false;
      }
    }

    method HandleRetry()
      requires Valid() && Enabled(State(), RetryAction)
      modifies this
      ensures State() == Retry(old(State())) && Valid()
    {
      step := Start;
      inputAddress := "";
      clipboard := "";
      hasPasted := false;
    }

    /** A click anywhere on the wallet: what the screen shows runs, anything else does nothing. */
    method Click(a: Action)
      requires Valid()
      modifies this
      ensures State() == Act(old(State()), config, a) && Valid()
    {
      StepKeepsInv(State(), config, a);
      if Enabled(State(), a) {
        match a
        case CopyAction => HandleCopy();
        case ClickInputAction => HandleInputClick();
        case SendAction => HandleSend();
        case ReportAction => HandleReport();
        case RetryAction => HandleRetry();
      }
    }

    /** The footer unlocks only on a successful transfer; the game takes no `isCompleted`. */
    function Nav(): (v: LessonNavigation.NavView)
      reads this
      ensures v.next.onClick == Some(props.onComplete) <==> step == Success
    {
      GameNav.Footer(props, step == Success)
    }
  }
}
