/** The public Wi-Fi game (interactives/WifiSimulator.jsx): four networks in a cafe, two of them open
    traps (one an "evil twin" of a secured network), a VPN switch and a scanner switch. With the VPN on
    any connection is safe; without it an open network is an error and a secured one a warning, and
    both a success and a warning unlock the next step. The game draws its own footer, of the same
    shape as the shared one. */
module WifiSimulator {
  import opened Common
  import opened Content
  import InteractiveSlide
  import LessonNavigation
  import GameNav

  datatype Kind = Trap | SafeNetwork

  datatype Network = Network(id: int, ssid: string, secured: bool, kind: Kind, bssid: string, security: string)

  const Networks: seq<Network> := [
    Network(1, "Cafe_Summer_Free", false, Trap, "02:00:00:00:01", "OPEN"),
    Network(2, "Cafe_Summer_Official", true, SafeNetwork, "AA:BB:CC:DD:EE", "WPA2"),
    Network(3, "Free_Fast_WiFi", true, SafeNetwork, "11:22:33:44:55", "WPA2"),
    Network(4, "Free_Fast_WiFi", false, Trap, "DE:AD:BE:EF:00", "OPEN")
  ]

  /** In the list a trap is exactly an open, unsecured network, and the evil twin shares its name
      with a safe network. */
  lemma TrapIffOpen()
    ensures forall i :: 0 <= i < |Networks| ==>
              (Networks[i].kind == Trap <==> Networks[i].security == "OPEN")
              && (Networks[i].kind == Trap <==> !Networks[i].secured)
    ensures Networks[2].ssid == Networks[3].ssid && Networks[2].kind != Networks[3].kind
  {
  }

  datatype Feedback = Success | Error | Warning

  datatype WifiState = WifiState(vpn: bool, selected: Option<int>, feedback: Option<Feedback>, scanMode: bool)

  /** The first render; a completed game opens on a success. */
  function Initial(isCompleted: bool): (s: WifiState)
    ensures !s.vpn && s.selected.None? && !s.scanMode
    ensures s.feedback == if isCompleted then Some(Success) else None
  {
    WifiState(false, None, if isCompleted then Some(Success) else None, false)
  }

  /** `handleConnect`. */
  function Connect(s: WifiState, net: Network): (t: WifiState)
    ensures t.selected == Some(net.id) && t.vpn == s.vpn && t.scanMode == s.scanMode
    ensures s.vpn ==> t.feedback == Some(Success)
    ensures !s.vpn && net.kind == Trap ==> t.feedback == Some(Error)
    ensures !s.vpn && net.kind == SafeNetwork ==> t.feedback == Some(Warning)
  {
    s.(selected := Some(net.id),
       feedback := Some(if s.vpn then Success else if net.kind == Trap then Error else Warning))
  }

  function ToggleVpn(s: WifiState): WifiState
  {
    s.(vpn := !s.vpn)
  }

  function ToggleScan(s: WifiState): WifiState
  {
    s.(scanMode := !s.scanMode)
  }

  /** The "try again" button of the error screen. */
  function TryAgain(s: WifiState): WifiState
  {
    s.(feedback := None)
  }

  /** `isSuccess`: a success or a warning. */
  predicate IsSuccess(s: WifiState)
  {
    s.feedback == Some(Success) || s.feedback == Some(Warning)
  }

  /** A connection unlocks the next step exactly when the VPN is on or the network is not a trap. */
  lemma ConnectUnlocks(s: WifiState, net: Network)
    ensures IsSuccess(Connect(s, net)) <==> s.vpn || net.kind != Trap
  {
  }

  /** The switches never change the verdict; only a connection or "try again" does. */
  lemma SwitchesKeepFeedback(s: WifiState)
    ensures ToggleVpn(s).feedback == s.feedback && ToggleScan(s).feedback == s.feedback
    ensures IsSuccess(ToggleVpn(s)) == IsSuccess(s) && IsSuccess(ToggleScan(s)) == IsSuccess(s)
  {
  }

  /** With the VPN on, every network of the list is a success. */
  lemma VpnMakesAllSafe(s: WifiState)
    requires s.vpn
    ensures forall i :: 0 <= i < |Networks| ==> Connect(s, Networks[i]).feedback == Some(Success)
  {
  }

  /** The clicks on the phone: a network of the list, the VPN card, the scanner switch, and the
      "try again" button of the error screen. */
  datatype Action = ConnectTo(i: int) | VpnSwitch | ScanSwitch | TryAgainButton

  /** Every feedback screen is an overlay over the whole phone screen, so the list and both switches
      take clicks only while no feedback is shown; "try again" exists only on the error screen. */
  predicate Enabled(s: WifiState, a: Action)
  {
    match a
    case ConnectTo(i) => s.feedback.None? && 0 <= i < |Networks|
    case VpnSwitch => s.feedback.None?
    case ScanSwitch => s.feedback.None?
    case TryAgainButton => s.feedback == Some(Error)
  }

  /** A click: a covered or missing control does nothing. */
  function Step(s: WifiState, a: Action): (t: WifiState)
    ensures !Enabled(s, a) ==> t == s
    ensures Enabled(s, a) && a.ConnectTo? ==> t == Connect(s, Networks[a.i])
    ensures Enabled(s, a) && a == VpnSwitch ==> t == ToggleVpn(s)
    ensures Enabled(s, a) && a == ScanSwitch ==> t == ToggleScan(s)
    ensures Enabled(s, a) && a == TryAgainButton ==> t == TryAgain(s)
  {
    if !Enabled(s, a) then s
    else match a
      case ConnectTo(i) => Connect(s, Networks[i])
      case VpnSwitch => ToggleVpn(s)
      case ScanSwitch => ToggleScan(s)
      case TryAgainButton => TryAgain(s)
  }

  function Run(s: WifiState, acts: seq<Action>): WifiState
    decreases |acts|
  {
    if acts == [] then s else Run(Step(s, acts[0]), acts[1..])
  }

  /** A success or a warning covers the phone for good: no click changes the state again, so the
      next step stays unlocked. */
  lemma {:induction false} UnlockedIsFinal(s: WifiState, acts: seq<Action>)
    requires IsSuccess(s)
    ensures Run(s, acts) == s
    decreases |acts|
  {
    if acts != [] {
      assert Step(s, acts[0]) == s;
      UnlockedIsFinal(s, acts[1..]);
    }
  }

  /** On the error screen only "try again" does anything: the VPN cannot be switched on after the
      fact. The way out is to try again, switch the VPN on and connect anew, which succeeds even on
      the same trap. */
  lemma TrapNeedsTryAgain()
    ensures var e := Step(Initial(false), ConnectTo(0));
            && e.feedback == Some(Error)
            && (forall a :: a != TryAgainButton ==> Step(e, a) == e)
            && Run(e, [TryAgainButton, VpnSwitch, ConnectTo(0)]).feedback == Some(Success)
  {
    var e := Step(Initial(false), ConnectTo(0));
    var t1 := Step(e, TryAgainButton);
    var t2 := Step(t1, VpnSwitch);
    var t3 := Step(t2, ConnectTo(0));
    assert Run(t3, []) == t3;
    assert [TryAgainButton, VpnSwitch, ConnectTo(0)][1..] == [VpnSwitch, ConnectTo(0)];
    assert [VpnSwitch, ConnectTo(0)][1..] == [ConnectTo(0)];
    assert [ConnectTo(0)][1..] == [];
  }

  lemma CompletedStartsUnlocked()
    ensures IsSuccess(Initial(true)) && !IsSuccess(Initial(false))
  {
  }

  class Wifi {
    const props: InteractiveSlide.GameProps
    var vpn: bool
    var selected: Option<int>
    var feedback: Option<Feedback>
    var scanMode: bool

    function State(): WifiState
      reads this
    {
      WifiState(vpn, selected, feedback, scanMode)
    }

    constructor (props: InteractiveSlide.GameProps)
      ensures this.props == props && State() == Initial(GameNav.Truthy(props.isCompleted))
    {
      this.props := props;
      vpn := false;
      selected := None;
      feedback := if GameNav.Truthy(props.isCompleted) then Some(Success) else None;
      scanMode := false;
    }

    /** A click on network `i` of the list, which no feedback screen covers. */
    method HandleConnect(i: int)
      requires 0 <= i < |Networks| && Enabled(State(), ConnectTo(i))
      modifies this
      ensures State() == Connect(old(State()), Networks[i])
    {
      var net := Networks[i];
      selected := Some(net.id);
      if vpn {
        feedback := Some(Success);
      } else if net.kind == Trap {
        feedback := Some(Error);
      } else {
        feedback := Some(Warning);
      }
    }

    /** A click on the VPN card, which no feedback screen covers. */
    method HandleToggleVpn()
      requires Enabled(State(), VpnSwitch)
      modifies this
      ensures State() == ToggleVpn(old(State()))
    {
      vpn := !vpn;
    }

    /** A click on the scanner switch, which no feedback screen covers. */
    method HandleToggleScan()
      requires Enabled(State(), ScanSwitch)
      modifies this
      ensures State() == ToggleScan(old(State()))
    {
      scanMode := !scanMode;
    }

    /** Shown only on the error screen. */
    method HandleTryAgain()
      requires Enabled(State(), TryAgainButton)
      modifies this
      ensures State() == TryAgain(old(State()))
    {
      feedback := None;
    }

    /** A click anywhere on the phone: what the click reaches runs, a covered control does nothing. */
    method Click(a: Action)
      modifies this
      ensures State() == Step(old(State()), a)
    {
      if Enabled(State(), a) {
        match a
        case ConnectTo(i) => HandleConnect(i);
        case VpnSwitch => HandleToggleVpn();
        case ScanSwitch => HandleToggleScan();
        case TryAgainButton => HandleTryAgain();
      }
    }

    /** Previous as `canGoPrevious` says; next calls `onComplete` only on a success or a warning. */
    function Nav(): (v: LessonNavigation.NavView)
      reads this
      ensures v.next.onClick == Some(props.onComplete) <==> IsSuccess(State())
      ensures v.next.disabled <==> !IsSuccess(State())
    {
      GameNav.Footer(props, IsSuccess(State()))
    }
  }
}
