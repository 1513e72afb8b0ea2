/** The password-strength game (interactives/PasswordBuilder.jsx): `calculateStrength` scores the
    typed password, and the check button is enabled only at full strength. */
module PasswordBuilder {
  import opened Common
  import opened Content
  import LessonNavigation

  predicate IsUpper(c: char) { 'A' <= c <= 'Z' }
  predicate IsDigit(c: char) { '0' <= c <= '9' }
  predicate IsLetter(c: char) { 'a' <= c <= 'z' || 'A' <= c <= 'Z' }

  /** The class `[!@#$%^&*]`. */
  const Specials: set<char> := {'!', '@', '#', '$', '%', '^', '&', '*'}

  /** `/[A-Z]/.test(s)`. */
  predicate HasUpper(s: string) { exists i :: 0 <= i < |s| && IsUpper(s[i]) }
  /** `/[0-9]/.test(s)`. */
  predicate HasDigit(s: string) { exists i :: 0 <= i < |s| && IsDigit(s[i]) }
  /** `/[!@#$%^&*]/.test(s)`. */
  predicate HasSpecial(s: string) { exists i :: 0 <= i < |s| && s[i] in Specials }

  /** The number of places where a letter is directly followed by a non-letter. The pattern
      `([a-zA-Z]+[^a-zA-Z]+){3,}` occurs in `s` exactly when there are at least three of them: the
      three letter runs ending at the first three such places, each with the non-letters after it,
      form a match, and every match ends three letter runs at such places. */
  function WordBreaks(s: string): (n: nat)
    ensures n <= |s|
  {
    if |s| < 2 then 0
    else WordBreaks(s[..|s| - 1]) + (if IsLetter(s[|s| - 2]) && !IsLetter(s[|s| - 1]) then 1 else 0)
  }

  /** `/([a-zA-Z]+[^a-zA-Z]+){3,}/.test(s)`. */
  predicate LooksLikePassphrase(s: string) { WordBreaks(s) >= 3 }

  /** The length bonuses: +5 for a non-empty password, +10 from 8 characters, +20 from 12, +40 from 20,
      each added on top of the ones before. */
  function LengthBonus(n: nat): (b: int)
    ensures n == 0 ==> b == 0
    ensures 0 < n < 8 ==> b == 5
    ensures 8 <= n < 12 ==> b == 15
    ensures 12 <= n < 20 ==> b == 35
    ensures 20 <= n ==> b == 75
  {
    (if n > 0 then 5 else 0) + (if n >= 8 then 10 else 0) + (if n >= 12 then 20 else 0)
    + (if n >= 20 then 40 else 0)
  }

  /** `pwd.length`: the number of UTF-16 code units, two for a character outside the Basic
      Multilingual Plane. */
  function JsLength(s: string): (n: nat)
    ensures |s| <= n <= 2 * |s|
    ensures n == 0 <==> s == []
    ensures (forall i :: 0 <= i < |s| ==> s[i] as int <= 0xFFFF) ==> n == |s|
  {
    if s == [] then 0
    else JsLength(s[..|s| - 1]) + (if s[|s| - 1] as int > 0xFFFF then 2 else 1)
  }

  /** The score before the cap. */
  function RawScore(s: string): int
  {
    LengthBonus(JsLength(s)) + (if HasUpper(s) then 10 else 0) + (if HasDigit(s) then 10 else 0)
    + (if HasSpecial(s) then 10 else 0) + (if LooksLikePassphrase(s) && JsLength(s) > 15 then 30 else 0)
  }

  /** `calculateStrength`: the capped score, a percentage, zero exactly for the empty password. */
  function Strength(s: string): (r: int)
    ensures 0 <= r <= 100
    ensures r == 0 <==> s == []
    ensures r == 100 <==> RawScore(s) >= 100
  {
    if RawScore(s) < 100 then RawScore(s) else 100
  }

  /** Typing one more character never lowers the strength: every bonus condition survives it. */
  lemma {:induction false} StrengthMonotone(s: string, c: char)
    ensures Strength(s) <= Strength(s + [c])
  {
    var t := s + [c];
    assert t[..|t| - 1] == s;
    if HasUpper(s) { var i :| 0 <= i < |s| && IsUpper(s[i]); assert t[i] == s[i]; }
    if HasDigit(s) { var i :| 0 <= i < |s| && IsDigit(s[i]); assert t[i] == s[i]; }
    if HasSpecial(s) { var i :| 0 <= i < |s| && s[i] in Specials; assert t[i] == s[i]; }
    assert WordBreaks(s) <= WordBreaks(t);
  }

  /** Any extension keeps the strength at least where it was. */
  lemma {:induction false} StrengthMonotonePrefix(s: string, t: string)
    ensures Strength(s) <= Strength(s + t)
    decreases |t|
  {
    if t == [] {
      assert s + t == s;
    } else {
      var u := s + t[..|t| - 1];
      StrengthMonotonePrefix(s, t[..|t| - 1]);
      StrengthMonotone(u, t[|t| - 1]);
      assert u + [t[|t| - 1]] == s + t;
    }
  }

  /** Without an upper-case letter, a digit, a special character or the passphrase pattern only the
      length counts, and it tops out at 75: no length alone completes the game. */
  lemma LengthAloneIsNotEnough(s: string)
    requires !HasUpper(s) && !HasDigit(s) && !HasSpecial(s) && !LooksLikePassphrase(s)
    ensures Strength(s) == LengthBonus(JsLength(s)) && Strength(s) <= 75
  {
  }

  /** What the game shows: the strength and the check button, which calls `onComplete`. */
  datatype View = View(strength: int, check: LessonNavigation.Button)

  function Render(password: string, onComplete: Callback): (v: View)
    ensures v.strength == Strength(password)
    ensures v.check.onClick == Some(onComplete)
    ensures v.check.disabled <==> Strength(password) != 100
  {
    View(Strength(password), LessonNavigation.Button(Some(onComplete), Strength(password) != 100))
  }

  /** A 20-character password with an upper-case letter, a digit and a special character reaches
      full strength, but without the special character it stops at 95. */
  lemma LongMixedIsComplete(s: string)
    requires |s| >= 20 && IsUpper(s[0]) && IsDigit(s[1])
    ensures s[2] in Specials ==> !Render(s, OnComplete).check.disabled
    ensures !HasSpecial(s) && !LooksLikePassphrase(s) ==> Strength(s) == 95
  {
    assert HasUpper(s) && HasDigit(s);
    if s[2] in Specials { assert HasSpecial(s); }
  }

  /** An emoji counts as two characters: six letters and one emoji make a password of length 8,
      which earns the bonus from 8 characters although it has seven. */
  lemma EmojiCountsTwice()
    ensures JsLength("abcdef\U{1F600}") == 8
    ensures Strength("abcdef\U{1F600}") == 15
  {
    var s := "abcdef\U{1F600}";
    assert s[..6] == "abcdef";
    assert JsLength("abcdef") == 6;
    assert !HasUpper(s) && !HasDigit(s) && !HasSpecial(s);
    assert WordBreaks(s) <= 1 by {
      assert s[..6] == "abcdef";
      assert WordBreaks(s[..6]) == 0 by {
        assert forall k :: 0 <= k < 6 ==> IsLetter(s[k]);
        assert "abcdef"[..5] == "abcde";
        assert "abcde"[..4] == "abcd";
        assert "abcd"[..3] == "abc";
        assert "abc"[..2] == "ab";
        assert "ab"[..1] == "a";
      }
    }
  }
}
