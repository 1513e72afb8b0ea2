/** The token-scanner game (interactives/CryptoScanner.jsx): two look-alike USDT contracts, one real and
    one a scam; choosing the real one completes the game and, after a delay, calls `onComplete`. The
    game has no footer. Each delayed call is counted in `timers` until the method that models the end
    of its delay fires it. */
module CryptoScanner {
  import opened Common
  import opened Content

  datatype Token = Token(id: int, symbol: string, name: string, address: string, holders: string, isReal: bool)

  const Tokens: seq<Token> := [
    Token(1, "USDT", "Tether USD", "0xdAC17F958D2ee523a2206206994597C13D831ec7", "5,000,000+", true),
    Token(2, "USDT", "Tether USD (Promo)", "0xFaKe...8821", "124", false)
  ]

  /** One token is real and the other is not, and their ids differ. */
  lemma ExactlyOneReal()
    ensures |Tokens| == 2 && Tokens[0].isReal && !Tokens[1].isReal && Tokens[0].id != Tokens[1].id
    ensures forall i :: 0 <= i < |Tokens| ==> (Tokens[i].isReal <==> i == 0)
  {
  }

  /** `selectedIndex` (a token id despite its name), `complete`, and the delayed calls not yet made. */
  datatype ScanState = ScanState(selected: Option<int>, complete: bool, timers: nat)

  const Initial := ScanState(None, false, 0)

  /** `handleSelect`: the token is highlighted; the real one completes the game and schedules one
      more call of `onComplete`, on every click. */
  function Select(s: ScanState, token: Token): (t: ScanState)
    ensures t.selected == Some(token.id)
    ensures t.complete <==> s.complete || token.isReal
    ensures t.timers == if token.isReal then s.timers + 1 else s.timers
  {
    ScanState(Some(token.id), s.complete || token.isReal, if token.isReal then s.timers + 1 else s.timers)
  }

  /** The end of the oldest delay: one call of `onComplete`. */
  function Fire(s: ScanState): ScanState
    requires s.timers > 0
  {
    s.(timers := s.timers - 1)
  }

  /** A pending call exists only in a completed game. */
  predicate Inv(s: ScanState)
  {
    s.timers > 0 ==> s.complete
  }

  lemma SelectKeepsInv(s: ScanState, token: Token)
    requires Inv(s)
    ensures Inv(Select(s, token))
  {
  }

  lemma FireKeepsInv(s: ScanState)
    requires Inv(s) && s.timers > 0
    ensures Inv(Fire(s))
  {
  }

  /** Completion is never taken back, whatever token is clicked next. */
  lemma CompleteSticks(s: ScanState, token: Token)
    requires s.complete
    ensures Select(s, token).complete
  {
  }

  /** Clicking the real token twice schedules `onComplete` twice. */
  lemma RealTwiceCallsTwice()
    ensures Select(Select(Initial, Tokens[0]), Tokens[0]).timers == 2
  {
  }

  /** The token shown under the selected id. */
  function FindToken(id: int): (r: Option<Token>)
    ensures r.Some? ==> r.value in Tokens && r.value.id == id
    ensures r.None? <==> forall i :: 0 <= i < |Tokens| ==> Tokens[i].id != id
  {
    if Tokens[0].id == id then Some(Tokens[0]) else if Tokens[1].id == id then Some(Tokens[1]) else None
  }

  /** The success banner and the scam warning; both at once after the real token and then the fake. */
  datatype Banners = Banners(success: bool, warning: bool)

  function Render(s: ScanState): (b: Banners)
    ensures b.success <==> s.complete
    ensures b.warning <==> s.selected == Some(2)
  {
    var w := s.selected.Some? && s.selected.value != 0 && FindToken(s.selected.value).Some?
             && !FindToken(s.selected.value).value.isReal;
    Banners(s.complete, w)
  }

  lemma RealThenFakeShowsBoth()
    ensures Render(Select(Select(Initial, Tokens[0]), Tokens[1])) == Banners(true, true)
  {
  }

  class Scanner {
    const onComplete: Callback
    var selected: Option<int>
    var complete: bool
    var timers: nat

    function State(): ScanState
      reads this
    {
      ScanState(selected, complete, timers)
    }

    ghost predicate Valid()
      reads this
    {
      Inv(State())
    }

    /** The game reads only `onComplete`. */
    constructor (onComplete: Callback)
      ensures this.onComplete == onComplete && State() == Initial && Valid()
    {
      this.onComplete := onComplete;
      selected := None;
      complete := false;
      timers := 0;
    }

    /** A click on token `i` of the list. */
    method HandleSelect(i: int)
      requires Valid() && 0 <= i < |Tokens|
      modifies this
      ensures State() == Select(old(State()), Tokens[i]) && Valid()
    {
      var token := Tokens[i];
      selected := Some(token.id);
      if token.isReal {
        complete := true;
        timers := timers + 1;
      }
    }

    /** The delay of one scheduled call runs out: `onComplete` is called. */
    method TimerFires() returns (fired: Callback)
      requires Valid() && timers > 0
      modifies this
      ensures fired == onComplete
      ensures State() == Fire(old(State())) && Valid()
    {
      timers := timers - 1;
      fired := onComplete;
    }
  }
}
