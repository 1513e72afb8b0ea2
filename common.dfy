/** Small value types and sequence helpers shared by the rest of the model. */
module Common {

  /** A JavaScript value that may be `undefined`/`null`. */
  datatype Option<+T> = None | Some(value: T)

  /** No element occurs twice in `s`. */
  predicate NoDup<T(==)>(s: seq<T>)
  {
    forall i, j :: 0 <= i < j < |s| ==> s[i] != s[j]
  }

  /** Number of `true` entries of a list of booleans. */
  function CountTrue(s: seq<bool>): (n: nat)
    ensures n <= |s|
    ensures n == |s| <==> forall i :: 0 <= i < |s| ==> s[i]
  {
    if s == [] then 0
    else (if s[|s| - 1] then 1 else 0) + CountTrue(s[..|s| - 1])
  }

  /** `xs.includes(x)` followed by an append when absent: the list grows by `x` at the end,
      and only if it did not hold `x` already. */
  function AppendIfAbsent<T(==)>(xs: seq<T>, x: T): (r: seq<T>)
    ensures x in r
    ensures x in xs ==> r == xs
    ensures x !in xs ==> r == xs + [x]
    ensures NoDup(xs) ==> NoDup(r)
  {
    if x in xs then xs else xs + [x]
  }

  /** `value || fallback` for an optional string: absent and empty both fall back. */
  function OrElse(value: Option<string>, fallback: string): (s: string)
    ensures value.Some? && value.value != "" ==> s == value.value
    ensures value.None? || value.value == "" ==> s == fallback
  {
    if value.Some? && value.value != "" then value.value else fallback
  }

  /** A list without repetitions has as many elements as its set. */
  lemma {:induction false} DistinctCard<T>(s: seq<T>)
    requires NoDup(s)
    ensures |set x | x in s| == |s|
    decreases |s|
  {
    if s != [] {
      var t := s[1..];
      assert NoDup(t) by {
        forall i, j | 0 <= i < j < |t| ensures t[i] != t[j] { assert t[i] == s[i + 1] && t[j] == s[j + 1]; }
      }
      DistinctCard(t);
      assert s[0] !in t by {
        forall j | 0 <= j < |t| ensures t[j] != s[0] { assert t[j] == s[j + 1]; }
      }
      assert (set x | x in s) == (set x | x in t) + {s[0]} by {
        assert s == [s[0]] + t;
      }
    }
  }

  lemma SubsetSameSize<T>(a: set<T>, b: set<T>)
    requires a <= b && |a| == |b|
    ensures a == b
  {
    assert b == a + (b - a);
  }

  /** When only ids of `ids` can be recorded and neither list repeats, recording as many ids as
      there are in `ids` is the same as recording every one of them. */
  lemma CountMeansAll<T>(found: seq<T>, ids: seq<T>)
    requires NoDup(found) && NoDup(ids)
    requires forall x :: x in found ==> x in ids
    ensures |found| == |ids| <==> forall x :: x in ids ==> x in found
  {
    var f := set x | x in found;
    var all := set x | x in ids;
    DistinctCard(found);
    DistinctCard(ids);
    assert f <= all;
    if |found| == |ids| {
      SubsetSameSize(f, all);
      forall x | x in ids ensures x in found {
        assert x in all;
      }
    }
    if forall x :: x in ids ==> x in found {
      assert f == all;
    }
  }
}
