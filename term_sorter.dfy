/** The term-sorting game (interactives/TermSorter.jsx): the head of a stack of terms is dragged onto
    the "safe" or "unsafe" bucket; a drop on the bucket of the term's own category moves it there, any
    other drop only flashes "wrong". A drag-and-drop event is modelled by the dragged id and the bucket
    under the pointer, if any. */
module TermSorter {
  import opened Common
  import opened Content

  datatype Bucket = Safe | Unsafe

  /** The droppable id of a bucket, compared with a term's `category`. */
  function BucketId(b: Bucket): (id: string)
    ensures id == "safe" <==> b == Safe
    ensures id == "unsafe" <==> b == Unsafe
  {
    match b
    case Safe => "safe"
    case Unsafe => "unsafe"
  }

  /** The built-in terms, used when the slide gives no `data`. */
  const DefaultItems: seq<TermItem> := [
    TermItem("1", "123456", "unsafe"),
    TermItem("2", "P@sw0rd!", "unsafe"),
    TermItem("3", "Tr0ub4dor&3", "safe"),
    TermItem("4", "MyNameIsLukon", "unsafe"),
    TermItem("5", "X7#m_9$pL2", "safe")
  ]

  const DefaultSafeTitle := "Сильный Пароль"
  const DefaultUnsafeTitle := "Слабый Пароль"

  function Ids(items: seq<TermItem>): (ids: seq<string>)
    ensures |ids| == |items| && forall i :: 0 <= i < |items| ==> ids[i] == items[i].id
  {
    if items == [] then [] else [items[0].id] + Ids(items[1..])
  }

  /** `items.find((i) => i.id === id)`. */
  function Find(items: seq<TermItem>, id: string): (r: Option<TermItem>)
    ensures r.None? <==> id !in Ids(items)
    ensures r.Some? ==> r.value.id == id && r.value in items
  {
    if items == [] then None
    else if items[0].id == id then Some(items[0])
    else
      var r := Find(items[1..], id);
      assert Ids(items) == [items[0].id] + Ids(items[1..]);
      r
  }

  /** `items.filter((i) => i.id !== id)`. */
  function Without(items: seq<TermItem>, id: string): (r: seq<TermItem>)
    ensures |r| <= |items|
  {
    if items == [] then []
    else (if items[0].id != id then [items[0]] else []) + Without(items[1..], id)
  }

  /** The filter keeps exactly the terms with another id. */
  lemma {:induction false} WithoutMembers(items: seq<TermItem>, id: string, x: TermItem)
    ensures x in Without(items, id) <==> x in items && x.id != id
    decreases |items|
  {
    if items != [] {
      WithoutMembers(items[1..], id, x);
      assert x in items <==> x == items[0] || x in items[1..];
    }
  }

  /** With distinct ids, removing the one term carrying `id` removes exactly that term. */
  lemma {:induction false} WithoutOne(items: seq<TermItem>, id: string)
    requires NoDup(Ids(items)) && id in Ids(items)
    ensures Find(items, id).Some?
    ensures multiset(Without(items, id)) + multiset{Find(items, id).value} == multiset(items)
    decreases |items|
  {
    var ids := Ids(items);
    assert ids == [items[0].id] + Ids(items[1..]);
    NoDupTail(ids);
    assert items == [items[0]] + items[1..];
    if items[0].id == id {
      assert Without(items, id) == Without(items[1..], id);
      WithoutAbsent(items[1..], id);
    } else {
      assert Without(items, id) == [items[0]] + Without(items[1..], id);
      WithoutOne(items[1..], id);
    }
  }

  lemma NoDupTail(s: seq<string>)
    requires s != [] && NoDup(s)
    ensures NoDup(s[1..]) && s[0] !in s[1..]
  {
    forall i, j | 0 <= i < j < |s[1..]| ensures s[1..][i] != s[1..][j] {
      assert s[1..][i] == s[i + 1] && s[1..][j] == s[j + 1];
    }
  }

  lemma {:induction false} WithoutAbsent(items: seq<TermItem>, id: string)
    requires id !in Ids(items) && NoDup(Ids(items))
    ensures Without(items, id) == items
    decreases |items|
  {
    if items != [] {
      assert Ids(items) == [items[0].id] + Ids(items[1..]);
      NoDupTail(Ids(items));
      WithoutAbsent(items[1..], id);
      assert items == [items[0]] + items[1..];
    }
  }

  lemma {:induction false} WithoutKeepsNoDup(items: seq<TermItem>, id: string)
    requires NoDup(Ids(items))
    ensures NoDup(Ids(Without(items, id)))
    decreases |items|
  {
    if items != [] {
      var ids := Ids(items);
      assert ids == [items[0].id] + Ids(items[1..]);
      NoDupTail(ids);
      WithoutKeepsNoDup(items[1..], id);
      var rest := Without(items[1..], id);
      if items[0].id != id {
        var r := [items[0]] + rest;
        assert Ids(r) == [items[0].id] + Ids(rest) by { assert r[1..] == rest; }
        forall j | 0 <= j < |rest| ensures Ids(rest)[j] != items[0].id {
          WithoutMembers(items[1..], id, rest[j]);
          var k :| 0 <= k < |items[1..]| && items[1..][k] == rest[j];
          assert Ids(items[1..])[k] == rest[j].id;
        }
      }
    }
  }

  /** Every term of a bucket belongs to that bucket's category. */
  predicate AllOf(items: seq<TermItem>, b: Bucket)
  {
    forall i :: 0 <= i < |items| ==> items[i].category == BucketId(b)
  }

  /** The sorter's lists, its "wrong" flash, and `clears`, the number of delayed calls that will hide
      the flash and have not run yet. */
  datatype Piles = Piles(items: seq<TermItem>, safe: seq<TermItem>, unsafe: seq<TermItem>, wrong: bool, clears: nat)

  /** Every term, wherever it lies. */
  function Terms(p: Piles): multiset<TermItem>
  {
    multiset(p.items) + multiset(p.safe) + multiset(p.unsafe)
  }

  /** Both buckets hold only terms of their own category. */
  predicate Sorted(p: Piles)
  {
    AllOf(p.safe, Safe) && AllOf(p.unsafe, Unsafe)
  }

  /** `handleDragEnd` on the lists: no target changes nothing; the bucket of the term's category
      takes the term at its end and the stack loses it; another bucket only raises the flash and
      schedules its end. */
  function Drop(p: Piles, id: string, over: Option<Bucket>): (q: Piles)
    requires id in Ids(p.items)
  {
    if over.None? then p
    else
      var item := Find(p.items, id).value;
      if item.category != BucketId(over.value) then p.(wrong := true, clears := p.clears + 1)
      else if over.value == Safe then p.(items := Without(p.items, id), safe := p.safe + [item])
      else p.(items := Without(p.items, id), unsafe := p.unsafe + [item])
  }

  /** The end of the oldest delay: the flash goes off, whichever wrong drop raised it. */
  function Clear(p: Piles): (q: Piles)
    requires p.clears > 0
    ensures !q.wrong && q.clears == p.clears - 1
    ensures q.items == p.items && q.safe == p.safe && q.unsafe == p.unsafe
  {
    p.(wrong := false, clears := p.clears - 1)
  }

  /** A flash on screen always has a delayed call pending that will hide it. */
  predicate Inv(p: Piles)
  {
    p.wrong ==> p.clears > 0
  }

  lemma DropKeepsInv(p: Piles, id: string, over: Option<Bucket>)
    requires id in Ids(p.items) && Inv(p)
    ensures Inv(Drop(p, id, over))
    ensures Drop(p, id, over).clears >= p.clears
  {
  }

  lemma ClearKeepsInv(p: Piles)
    requires p.clears > 0
    ensures Inv(Clear(p))
  {
  }

  /** The delays are not tied to the flash that scheduled them: after a wrong drop, a new drag and a
      second wrong drop, the first delay ends the second flash early while another call is still
      pending. */
  lemma EarlyClear(p: Piles, id: string, b: Bucket)
    requires id in Ids(p.items) && Find(p.items, id).value.category != BucketId(b)
    ensures var first := Drop(p, id, Some(b));
            var second := Drop(first.(wrong := false), id, Some(b));
            second.wrong && !Clear(second).wrong && Clear(second).clears == p.clears + 1
  {
  }

  /** No drop loses or duplicates a term, as long as ids are distinct, and distinct they stay. */
  lemma DropConserves(p: Piles, id: string, over: Option<Bucket>)
    requires id in Ids(p.items) && NoDup(Ids(p.items))
    ensures Terms(Drop(p, id, over)) == Terms(p)
    ensures NoDup(Ids(Drop(p, id, over).items))
  {
    WithoutOne(p.items, id);
    WithoutKeepsNoDup(p.items, id);
  }

  /** No drop puts a term into the wrong bucket. */
  lemma DropKeepsSorted(p: Piles, id: string, over: Option<Bucket>)
    requires id in Ids(p.items) && Sorted(p)
    ensures Sorted(Drop(p, id, over))
  {
  }

  /** A right drop moves the dragged term, and only it, from the stack to the end of its bucket; a
      wrong drop changes no list. */
  lemma DropMoves(p: Piles, id: string, b: Bucket)
    requires id in Ids(p.items)
    ensures var item := Find(p.items, id).value;
            var q := Drop(p, id, Some(b));
            if item.category == BucketId(b) then
              && q.items == Without(p.items, id) && (forall x :: x in q.items <==> x in p.items && x.id != id)
              && (b == Safe ==> q.safe == p.safe + [item] && q.unsafe == p.unsafe)
              && (b == Unsafe ==> q.unsafe == p.unsafe + [item] && q.safe == p.safe)
              && q.wrong == p.wrong && q.clears == p.clears
            else
              q == p.(wrong := true, clears := p.clears + 1)
  {
    forall x { WithoutMembers(p.items, id, x); }
  }

  /** The stack area: the head term to drag and how many remain, or the finish button. */
  datatype Stack = Remaining(count: int, headId: string, headContent: string) | Finished(onClick: Callback)

  class Sorter {
    const onComplete: Callback
    const safeTitle: string
    const unsafeTitle: string
    var items: seq<TermItem>
    var safe: seq<TermItem>
    var unsafe: seq<TermItem>
    var activeId: Option<string>
    var wrong: bool
    var clears: nat

    function State(): Piles
      reads this
    {
      Piles(items, safe, unsafe, wrong, clears)
    }

    /** Both buckets hold only terms of their own category, and a flash on screen is still to be
        hidden. */
    ghost predicate Valid()
      reads this
    {
      Sorted(State()) && Inv(State())
    }

    constructor (onComplete: Callback, data: Option<seq<TermItem>>, labels: Option<Labels>)
      ensures this.onComplete == onComplete
      ensures State() == Piles(if data.Some? then data.value else DefaultItems, [], [], false, 0)
      ensures activeId == None
      ensures safeTitle == OrElse(if labels.Some? then labels.value.safe else None, DefaultSafeTitle)
      ensures unsafeTitle == OrElse(if labels.Some? then labels.value.unsafe else None, DefaultUnsafeTitle)
      ensures Valid()
    {
      this.onComplete := onComplete;
      items := if data.Some? then data.value else DefaultItems;
      safeTitle := OrElse(if labels.Some? then labels.value.safe else None, DefaultSafeTitle);
      unsafeTitle := OrElse(if labels.Some? then labels.value.unsafe else None, DefaultUnsafeTitle);
      safe := [];
      unsafe := [];
      activeId := None;
      wrong := false;
      clears := 0;
    }

    method DragStart(id: string)
      requires Valid()
      modifies this
      ensures activeId == Some(id)
      ensures State() == old(State()).(wrong := false)
      ensures Valid()
    {
      activeId := Some(id);
      wrong := false;
    }

    /** The end of a drag of the term `id` (always one on the stack) over `over`. */
    method DragEnd(id: string, over: Option<Bucket>)
      requires Valid() && id in Ids(items)
      modifies this
      ensures activeId == None
      ensures State() == Drop(old(State()), id, over)
      ensures Valid()
    {
      DropKeepsSorted(State(), id, over);
      DropKeepsInv(State(), id, over);
      activeId := None;
      if over.None? {
        return;
      }
      var item := Find(items, id).value;
      if item.category == BucketId(over.value) {
        if over.value == Safe {
          safe := safe + [item];
        } else {
          unsafe := unsafe + [item];
        }
        items := Without(items, id);
      } else {
        wrong := true;
        clears := clears + 1;
      }
    }

    /** One delayed call that hides the "wrong" flash runs. */
    method ClearFeedback()
      requires Valid() && clears > 0
      modifies this
      ensures State() == Clear(old(State())) && activeId == old(activeId)
      ensures Valid()
    {
      wrong := false;
      clears := clears - 1;
    }

    /** `allSorted`. */
    predicate AllSorted()
      reads this
    {
      items == []
    }

    /** Only the head of the stack is draggable; the button that calls `onComplete` is there exactly
        when every term is sorted. */
    function View(): (s: Stack)
      reads this
      ensures s.Finished? <==> AllSorted()
      ensures s.Finished? ==> s.onClick == onComplete
      ensures s.Remaining? ==> s.count == |items| && s.headId == items[0].id
    {
      if items == [] then Finished(onComplete) else Remaining(|items|, items[0].id, items[0].content)
    }
  }

  /** The built-in terms have distinct ids and each belongs to one of the two buckets, so every one of
      them can be sorted. */
  lemma DefaultItemsSortable()
    ensures NoDup(Ids(DefaultItems))
    ensures forall i :: 0 <= i < |DefaultItems| ==> DefaultItems[i].category in {"safe", "unsafe"}
  {
    assert Ids(DefaultItems) == ["1", "2", "3", "4", "5"];
  }

  /** A drop on the right bucket of the head term shrinks the stack by one. */
  lemma RightDropShrinks(items: seq<TermItem>)
    requires items != [] && NoDup(Ids(items))
    ensures |Without(items, items[0].id)| == |items| - 1
  {
    assert Ids(items)[0] == items[0].id;
    WithoutOne(items, items[0].id);
    assert |multiset(Without(items, items[0].id))| + 1 == |multiset(items)|;
  }
}
