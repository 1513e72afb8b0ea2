/** The one-time-code game (interactives/TotpSimulator.jsx): a server code that is redrawn every 30
    ticks, an input box that keeps at most six digits, and success once the six digits typed equal
    the code in force. The interval tick is the method `Tick`; the value `Math.random()` supplies is
    the parameter `draw`. */
module TotpSimulator {
  import opened Common
  import opened Content
  import InteractiveSlide
  import LessonNavigation
  import GameNav

  /** Seconds a code stays valid. */
  const Period := 30

  /** Digits a code has, and the most the input box keeps. */
  const CodeLength := 6

  const WrongCodeMessage := "Неверный код! Возможно, он уже успел обновиться?"

  predicate IsDigit(c: char) { '0' <= c <= '9' }

  predicate AllDigits(s: string) { forall i :: 0 <= i < |s| ==> IsDigit(s[i]) }

  /** `s.replace(/\D/g, "")`: the ASCII digits of `s`, in order. */
  function Digits(s: string): (r: string)
    ensures |r| <= |s| && AllDigits(r)
    ensures AllDigits(s) ==> r == s
  {
    if s == [] then []
    else (if IsDigit(s[0]) then [s[0]] else []) + Digits(s[1..])
  }

  /** `handleChange`'s sanitiser: the digits of the input, cut to six. */
  function Sanitize(s: string): (r: string)
    ensures |r| <= CodeLength && AllDigits(r)
    ensures |r| == if |Digits(s)| < CodeLength then |Digits(s)| else CodeLength
    ensures r == Digits(s)[..|r|]
  {
    var d := Digits(s);
    if |d| <= CodeLength then d else d[..CodeLength]
  }

  /** A sanitised value is left as it is, so sanitising twice is sanitising once. */
  lemma SanitizeFixes(s: string)
    requires |s| <= CodeLength && AllDigits(s)
    ensures Sanitize(s) == s
  {
  }

  lemma SanitizeIdempotent(s: string)
    ensures Sanitize(Sanitize(s)) == Sanitize(s)
  {
    SanitizeFixes(Sanitize(s));
  }

  function Pow10(k: nat): (p: nat)
    ensures p >= 1
  {
    if k == 0 then 1 else 10 * Pow10(k - 1)
  }

  /** `n.toString()` for a natural number. */
  function ToDecimal(n: nat): (s: string)
    ensures s != [] && AllDigits(s)
  {
    var d := [(('0' as int) + n % 10) as char];
    if n < 10 then d else ToDecimal(n / 10) + d
  }

  lemma {:induction false} DecimalLength(n: nat, k: nat)
    requires Pow10(k) <= n < Pow10(k + 1)
    ensures |ToDecimal(n)| == k + 1
    decreases k
  {
    if k > 0 {
      assert Pow10(k) == 10 * Pow10(k - 1);
      DecimalLength(n / 10, k - 1);
    }
  }

  /** `generateCode`: `Math.floor(100000 + Math.random() * 900000)` written out, where `draw` is the
      integer part of `Math.random() * 900000`. */
  function GenerateCode(draw: int): (code: string)
    requires 0 <= draw < 900000
    ensures |code| == CodeLength && AllDigits(code)
  {
    assert Pow10(5) == 100000 && Pow10(6) == 1000000;
    DecimalLength(100000 + draw, 5);
    ToDecimal(100000 + draw)
  }

  /** The countdown's step: one second less, or a fresh period once the last second is gone. */
  function NextTime(t: int): (u: int)
    ensures t <= 1 ==> u == Period
    ensures t > 1 ==> u == t - 1
  {
    if t <= 1 then Period else t - 1
  }

  class Totp {
    const props: InteractiveSlide.GameProps
    var timeLeft: int
    var serverCode: string
    var input: string
    var isSuccess: bool
    var error: Option<string>

    ghost predicate Valid()
      reads this
    {
      && 1 <= timeLeft <= Period
      && |serverCode| == CodeLength && AllDigits(serverCode)
      && |input| <= CodeLength && AllDigits(input)
    }

    /** The first render: a full period, a fresh code and an empty box; already solved when the game
        is marked completed. */
    constructor (props: InteractiveSlide.GameProps, draw: int)
      requires 0 <= draw < 900000
      ensures this.props == props && timeLeft == Period && serverCode == GenerateCode(draw)
      ensures input == "" && isSuccess == GameNav.Truthy(props.isCompleted) && error == None
      ensures Valid()
    {
      this.props := props;
      timeLeft := Period;
      serverCode := GenerateCode(draw);
      input := "";
      isSuccess := GameNav.Truthy(props.isCompleted);
      error := None;
    }

    /** The interval runs only until the code is entered, and not at all for a completed game. */
    predicate Ticking()
      reads this
    {
      !(isSuccess || GameNav.Truthy(props.isCompleted))
    }

    /** One second of the interval; `draw` feeds the new code when the period runs out. */
    method Tick(draw: int)
      requires Valid() && 0 <= draw < 900000
      modifies this
      ensures timeLeft == if old(Ticking()) then NextTime(old(timeLeft)) else old(timeLeft)
      ensures serverCode == if old(Ticking()) && old(timeLeft) <= 1 then GenerateCode(draw) else old(serverCode)
      ensures input == old(input) && isSuccess == old(isSuccess) && error == old(error)
      ensures Valid()
    {
      if Ticking() {
        if timeLeft <= 1 {
          serverCode := GenerateCode(draw);
          timeLeft := Period;
        } else {
          timeLeft := timeLeft - 1;
        }
      }
    }

    /** A change of the input box: the error is cleared; six digits either solve the game or set the
        error; fewer do neither. A solved game stays solved. */
    method HandleChange(value: string)
      requires Valid()
      modifies this
      ensures input == Sanitize(value)
      ensures error == if |input| == CodeLength && input != serverCode then Some(WrongCodeMessage) else None
      ensures isSuccess == (old(isSuccess) || (|input| == CodeLength && input == serverCode))
      ensures timeLeft == old(timeLeft) && serverCode == old(serverCode)
      ensures Valid()
    {
      var val := Sanitize(value);
      input := val;
      error := None;
      if |val| == CodeLength {
        if val == serverCode {
          isSuccess := true;
        } else {
          error := Some(WrongCodeMessage);
        }
      }
    }

    /** The footer: next is unlocked exactly when the code was entered. */
    function Nav(): (v: LessonNavigation.NavView)
      reads this
      ensures v.next.onClick == Some(props.onComplete) <==> isSuccess
    {
      GameNav.Footer(props, isSuccess)
    }
  }

  /** Typing the code in force, digits mixed with anything else, solves the game. */
  lemma TypingTheCodeSolves(code: string, noise: string)
    requires |code| == CodeLength && AllDigits(code) && Digits(noise) == []
    ensures Sanitize(noise + code) == code
  {
    DigitsAppend(noise, code);
  }

  lemma {:induction false} DigitsAppend(a: string, b: string)
    ensures Digits(a + b) == Digits(a) + Digits(b)
    decreases |a|
  {
    if a == [] {
      assert a + b == b;
    } else {
      assert (a + b)[0] == a[0] && (a + b)[1..] == a[1..] + b;
      DigitsAppend(a[1..], b);
    }
  }
}
