/** The skill tree (src/pages/SkillTreePage.jsx): topics grouped into difficulty tiers, a tier opened
    by starting some topic of the tier before it, a status per node and the one topic marked as the
    next to take. The store queries the page calls, `getTopicProgress(id)` and `isTopicStarted(id)`,
    are parameters `progress` and `started`. */
module SkillTree {
  import opened Common
  import opened Content
  import opened Topics

  /** `tierOrder`. */
  const TierOrder: seq<string> := ["easy", "medium", "hard"]

  /** `topics.filter((t) => t.difficulty === d)`. */
  function Tier(topics: seq<Topic>, d: string): (r: seq<Topic>)
    ensures |r| <= |topics|
    ensures forall t :: t in r <==> t in topics && t.difficulty == d
  {
    if topics == [] then []
    else (if topics[0].difficulty == d then [topics[0]] else []) + Tier(topics[1..], d)
  }

  /** The filter keeps `TOPICS` order: filtering a concatenation concatenates the filtered parts. */
  lemma {:induction false} TierAppend(a: seq<Topic>, b: seq<Topic>, d: string)
    ensures Tier(a + b, d) == Tier(a, d) + Tier(b, d)
    decreases |a|
  {
    if a == [] {
      assert a + b == b;
    } else {
      assert (a + b)[0] == a[0];
      assert (a + b)[1..] == a[1..] + b;
      TierAppend(a[1..], b, d);
    }
  }

  /** `tiers` listed in `tierOrder`. */
  function Tiers(topics: seq<Topic>): (ts: seq<seq<Topic>>)
    ensures |ts| == |TierOrder|
    ensures forall k :: 0 <= k < |ts| ==> ts[k] == Tier(topics, TierOrder[k])
  {
    [Tier(topics, "easy"), Tier(topics, "medium"), Tier(topics, "hard")]
  }

  /** Every topic whose difficulty is one of the three lands in exactly one tier. */
  lemma TiersPartition(topics: seq<Topic>, t: Topic)
    requires t in topics && t.difficulty in TierOrder
    ensures forall k :: 0 <= k < 3 ==> (t in Tiers(topics)[k] <==> TierOrder[k] == t.difficulty)
  {
  }

  /** `ts.some((t) => started(t.id))`. */
  function AnyStarted(ts: seq<Topic>, started: string -> bool): (b: bool)
    ensures b <==> exists i :: 0 <= i < |ts| && started(ts[i].id)
  {
    if ts == [] then false
    else if started(ts[0].id) then true
    else
      var b := AnyStarted(ts[1..], started);
      assert b ==> exists i :: 0 <= i < |ts| && started(ts[i].id) by {
        if b {
          var i :| 0 <= i < |ts[1..]| && started(ts[1..][i].id);
          assert ts[i + 1] == ts[1..][i];
        }
      }
      b
  }

  /** `isTierUnlocked` for the tier at position `k`: the first tier always, a later one when some
      topic of the tier before it is started. */
  function TierUnlocked(tiers: seq<seq<Topic>>, k: nat, started: string -> bool): (u: bool)
    requires k < |tiers|
    ensures u <==> k == 0 || exists t :: t in tiers[k - 1] && started(t.id)
  {
    k == 0 || AnyStarted(tiers[k - 1], started)
  }

  /** An empty tier before a tier keeps it locked: nobody can start a topic of an empty tier. */
  lemma EmptyTierBlocks(tiers: seq<seq<Topic>>, k: nat, started: string -> bool)
    requires 0 < k < |tiers| && tiers[k - 1] == []
    ensures !TierUnlocked(tiers, k, started)
  {
  }

  datatype Status = Locked | Active | Completed

  /** `status`: locked, raised to active in an unlocked tier, and completed at 100 whatever the tier. */
  function NodeStatus(unlocked: bool, progress: int): (s: Status)
    ensures s == Completed <==> progress == 100
    ensures s == Active <==> unlocked && progress != 100
    ensures s == Locked <==> !unlocked && progress != 100
  {
    if progress == 100 then Completed else if unlocked then Active else Locked
  }

  /** `tierTopics.find((t) => progress(t.id) < 100)`. */
  function FirstIncomplete(ts: seq<Topic>, progress: string -> int): (r: Option<Topic>)
    ensures r.None? <==> forall i :: 0 <= i < |ts| ==> progress(ts[i].id) >= 100
    ensures r.Some? ==> r.value in ts && progress(r.value.id) < 100
  {
    if ts == [] then None
    else if progress(ts[0].id) < 100 then Some(ts[0])
    else
      var r := FirstIncomplete(ts[1..], progress);
      assert r.None? ==> forall i :: 0 <= i < |ts| ==> progress(ts[i].id) >= 100 by {
        if r.None? {
          forall i | 0 <= i < |ts| ensures progress(ts[i].id) >= 100 {
            if i > 0 { assert ts[i] == ts[1..][i - 1]; }
          }
        }
      }
      r
  }

  /** The search of `nextUnlockId` from tier `k` on: empty tiers are skipped, the first locked tier
      ends the search with nothing, and an unlocked tier answers with its first incomplete topic. */
  function NextFrom(tiers: seq<seq<Topic>>, k: nat, started: string -> bool, progress: string -> int): Option<string>
    requires k <= |tiers|
    decreases |tiers| - k
  {
    if k == |tiers| then None
    else if tiers[k] == [] then NextFrom(tiers, k + 1, started, progress)
    else if !TierUnlocked(tiers, k, started) then None
    else match FirstIncomplete(tiers[k], progress)
      case Some(t) => Some(t.id)
      case None => NextFrom(tiers, k + 1, started, progress)
  }

  function NextUnlockId(topics: seq<Topic>, started: string -> bool, progress: string -> int): Option<string>
  {
    NextFrom(Tiers(topics), 0, started, progress)
  }

  /** What the search answers is a topic of an unlocked tier that is not complete. */
  lemma {:induction false} NextFromSound(tiers: seq<seq<Topic>>, k: nat, started: string -> bool,
                                         progress: string -> int, id: string)
    requires k <= |tiers| && NextFrom(tiers, k, started, progress) == Some(id)
    ensures exists j, t :: k <= j < |tiers| && t in tiers[j] && t.id == id
                           && TierUnlocked(tiers, j, started) && progress(id) < 100
    decreases |tiers| - k
  {
    if tiers[k] == [] {
      NextFromSound(tiers, k + 1, started, progress, id);
    } else {
      match FirstIncomplete(tiers[k], progress)
      case Some(t) =>
        assert t in tiers[k] && t.id == id;
      case None =>
        NextFromSound(tiers, k + 1, started, progress, id);
    }
  }

  /** When the search answers nothing, every incomplete topic sits at or after a non-empty locked
      tier. */
  lemma {:induction false} NextFromNone(tiers: seq<seq<Topic>>, k: nat, started: string -> bool,
                                        progress: string -> int, j: nat, t: Topic)
    requires k <= j < |tiers| && t in tiers[j] && progress(t.id) < 100
    requires NextFrom(tiers, k, started, progress) == None
    ensures exists m :: k <= m <= j && tiers[m] != [] && !TierUnlocked(tiers, m, started)
    decreases |tiers| - k
  {
    if tiers[k] == [] {
      NextFromNone(tiers, k + 1, started, progress, j, t);
    } else if TierUnlocked(tiers, k, started) {
      assert FirstIncomplete(tiers[k], progress).None?;
      assert j != k;
      NextFromNone(tiers, k + 1, started, progress, j, t);
    }
  }

  lemma NextUnlockSound(topics: seq<Topic>, started: string -> bool, progress: string -> int, id: string)
    requires NextUnlockId(topics, started, progress) == Some(id)
    ensures exists k, t :: 0 <= k < 3 && t in Tier(topics, TierOrder[k]) && t.id == id
                           && TierUnlocked(Tiers(topics), k, started) && progress(id) < 100
  {
    NextFromSound(Tiers(topics), 0, started, progress, id);
  }

  /** With the store as written, whose `getTopicProgress` answers 0, no node is ever completed and
      the topic marked next is the first easy topic, when there is one. */
  lemma ZeroProgress(topics: seq<Topic>, started: string -> bool)
    requires Tier(topics, "easy") != []
    ensures NextUnlockId(topics, started, (id: string) => 0) == Some(Tier(topics, "easy")[0].id)
  {
  }

  /** A rendered skill node. */
  datatype Node = Node(id: string, status: Status, progress: int, isNext: bool, onClick: Callback)

  /** A rendered tier; an empty tier renders nothing. */
  datatype TierView = TierView(key: string, unlocked: bool, nodes: seq<Node>)

  function RenderNodes(ts: seq<Topic>, unlocked: bool, next: Option<string>, progress: string -> int): (ns: seq<Node>)
    ensures |ns| == |ts|
    ensures forall i :: 0 <= i < |ts| ==>
      ns[i] == Node(ts[i].id, NodeStatus(unlocked, progress(ts[i].id)), progress(ts[i].id),
                    next == Some(ts[i].id), Navigate("/topic/" + ts[i].id))
  {
    if ts == [] then []
    else
      [Node(ts[0].id, NodeStatus(unlocked, progress(ts[0].id)), progress(ts[0].id),
            next == Some(ts[0].id), Navigate("/topic/" + ts[0].id))]
      + RenderNodes(ts[1..], unlocked, next, progress)
  }

  /** The page: one entry per tier of `tierOrder`, absent for an empty tier. */
  function Render(topics: seq<Topic>, started: string -> bool, progress: string -> int): (v: seq<Option<TierView>>)
    ensures |v| == 3
    ensures forall k :: 0 <= k < 3 ==> (v[k].None? <==> Tier(topics, TierOrder[k]) == [])
    ensures forall k :: 0 <= k < 3 && v[k].Some? ==>
      && v[k].value.key == TierOrder[k]
      && v[k].value.unlocked == TierUnlocked(Tiers(topics), k, started)
      && v[k].value.nodes == RenderNodes(Tier(topics, TierOrder[k]), v[k].value.unlocked,
                                         NextUnlockId(topics, started, progress), progress)
  {
    var tiers := Tiers(topics);
    var next := NextUnlockId(topics, started, progress);
    seq(3, k requires 0 <= k < 3 =>
      if tiers[k] == [] then None
      else Some(TierView(TierOrder[k], TierUnlocked(tiers, k, started),
                         RenderNodes(tiers[k], TierUnlocked(tiers, k, started), next, progress))))
  }

  /** Topic ids are unique in the list. */
  predicate UniqueIds(topics: seq<Topic>)
  {
    forall a, b :: a in topics && b in topics && a.id == b.id ==> a == b
  }

  /** The topic marked next, looked up in the tier at position `k`, is not complete and, when topic
      ids are unique, that tier is unlocked. */
  lemma NextInUnlockedTier(topics: seq<Topic>, started: string -> bool, progress: string -> int,
                           k: nat, t: Topic)
    requires k < 3 && t in Tier(topics, TierOrder[k])
    requires NextUnlockId(topics, started, progress) == Some(t.id)
    ensures progress(t.id) < 100
    ensures UniqueIds(topics) ==> TierUnlocked(Tiers(topics), k, started)
  {
    NextUnlockSound(topics, started, progress, t.id);
    var j, t' :| 0 <= j < 3 && t' in Tier(topics, TierOrder[j]) && t'.id == t.id
                 && TierUnlocked(Tiers(topics), j, started) && progress(t.id) < 100;
    if UniqueIds(topics) {
      assert t in topics && t' in topics;
      assert t' == t;
      TierOrderDistinct(j, k);
    }
  }

  lemma TierOrderDistinct(j: nat, k: nat)
    requires j < 3 && k < 3 && TierOrder[j] == TierOrder[k]
    ensures j == k
  {
    assert TierOrder[0][0] != TierOrder[2][0];
    assert |TierOrder[1]| != |TierOrder[0]| && |TierOrder[1]| != |TierOrder[2]|;
  }

  /** A node marked next is never completed and, when topic ids are unique, it is active: it sits in
      an unlocked tier. */
  lemma NextIsActive(topics: seq<Topic>, started: string -> bool, progress: string -> int, k: nat, i: nat)
    requires k < 3 && Render(topics, started, progress)[k].Some?
    requires i < |Render(topics, started, progress)[k].value.nodes|
    requires Render(topics, started, progress)[k].value.nodes[i].isNext
    ensures Render(topics, started, progress)[k].value.nodes[i].status != Completed
    ensures UniqueIds(topics) ==> Render(topics, started, progress)[k].value.nodes[i].status == Active
  {
    var v := Render(topics, started, progress);
    var ts := Tier(topics, TierOrder[k]);
    var u := TierUnlocked(Tiers(topics), k, started);
    var next := NextUnlockId(topics, started, progress);
    assert v[k].value.nodes == RenderNodes(ts, u, next, progress);
    var t := ts[i];
    assert v[k].value.nodes[i] == Node(t.id, NodeStatus(u, progress(t.id)), progress(t.id),
                                       next == Some(t.id), Navigate("/topic/" + t.id));
    NextInUnlockedTier(topics, started, progress, k, t);
  }
}
