/** The learner-progress store (src/store/useProgressStore.js): completed lessons, XP and level.
    The store is a mutable record; `StoreState` is its value and the pure functions below are the
    reducers the store's actions apply, so that whole sequences of actions can be reasoned about. */
module ProgressStore {
  import opened Common

  /** XP awarded for a newly completed lesson. */
  const LessonXp: int := 50
  /** XP needed per level. */
  const XpPerLevel: int := 100

  /** `Math.floor(xp / 100) + 1`. Dafny's `/` is Euclidean, which for the positive divisor 100 is
      floor division, so this agrees with the source for negative totals too. */
  function LevelOf(xp: int): (level: int)
    ensures (level - 1) * XpPerLevel <= xp < level * XpPerLevel
    ensures xp >= 0 ==> level >= 1
  {
    xp / XpPerLevel + 1
  }

  datatype StoreState = StoreState(
    topicProgress: map<string, int>,
    completedLessons: seq<string>,
    xp: int,
    level: int)

  /** The initial (and reset) state. */
  const Initial: StoreState := StoreState(map[], [], 0, 1)

  /** The level is the one the curve gives for the XP, and no lesson is recorded twice. */
  predicate Coherent(s: StoreState)
  {
    s.level == LevelOf(s.xp) && NoDup(s.completedLessons)
  }

  /** `addXp(amount)`: only xp and level change. */
  function ApplyAddXp(s: StoreState, amount: int): (r: StoreState)
    ensures r.xp == s.xp + amount && r.level == LevelOf(s.xp + amount)
    ensures r.completedLessons == s.completedLessons && r.topicProgress == s.topicProgress
  {
    s.(xp := s.xp + amount, level := LevelOf(s.xp + amount))
  }

  /** `completeLesson(topicId, lessonId)`; the topic id plays no part. */
  function ApplyCompleteLesson(s: StoreState, lessonId: string): (r: StoreState)
    ensures lessonId in s.completedLessons ==> r == s
    ensures lessonId !in s.completedLessons ==>
      && r.completedLessons == s.completedLessons + [lessonId]
      && r.xp == s.xp + LessonXp
      && r.level == LevelOf(s.xp + LessonXp)
      && r.topicProgress == s.topicProgress
    ensures lessonId in r.completedLessons
  {
    if lessonId in s.completedLessons then s
    else s.(completedLessons := s.completedLessons + [lessonId],
            xp := s.xp + LessonXp,
            level := LevelOf(s.xp + LessonXp))
  }

  /** `resetProgress()`: every field back to its initial value. */
  function ApplyReset(s: StoreState): (r: StoreState)
    ensures r.topicProgress == map[] && r.completedLessons == [] && r.xp == 0 && r.level == 1
  {
    Initial
  }

  /** `getTopicProgress(topicId, totalLessons)`. With `totalLessons` missing or 0 the guard answers 0;
      otherwise the count of completed lessons of the topic is computed and discarded, and the
      placeholder answer is again 0. `totalLessons == None` stands for `undefined`. */
  function TopicProgressOf(s: StoreState, topicId: string, totalLessons: Option<int>): (p: int)
    ensures (totalLessons == None || totalLessons == Some(0)) ==> p == 0
    ensures p == 0
  {
    if totalLessons == None || totalLessons == Some(0) then 0
    else
      var _ := CountPrefixed(s.completedLessons, topicId);
      0
  }

  /** The discarded count in getTopicProgress: completed ids that start with the topic id. */
  function CountPrefixed(ids: seq<string>, prefix: string): (n: nat)
    ensures n <= |ids|
  {
    if ids == [] then 0
    else (if prefix <= ids[0] then 1 else 0) + CountPrefixed(ids[1..], prefix)
  }

  /** One store action. */
  datatype Op = AddXpOp(amount: int) | CompleteOp(topicId: string, lessonId: string) | ResetOp

  function Apply(s: StoreState, op: Op): StoreState
  {
    match op
    case AddXpOp(a) => ApplyAddXp(s, a)
    case CompleteOp(_, l) => ApplyCompleteLesson(s, l)
    case ResetOp => ApplyReset(s)
  }

  /** The state after a sequence of actions, applied in order. */
  function Run(s: StoreState, ops: seq<Op>): StoreState
    decreases |ops|
  {
    if ops == [] then s else Run(Apply(s, ops[0]), ops[1..])
  }

  /** Only lesson completions and resets. */
  predicate LessonOpsOnly(ops: seq<Op>)
  {
    forall i :: 0 <= i < |ops| ==> !ops[i].AddXpOp?
  }

  /** No reset and no negative XP award. */
  predicate GrowingOps(ops: seq<Op>)
  {
    forall i :: 0 <= i < |ops| ==> !ops[i].ResetOp? && (ops[i].AddXpOp? ==> ops[i].amount >= 0)
  }

  // ---------------------------------------------------------------- properties

  /** Completing a lesson twice is the same as completing it once. */
  lemma CompleteLessonIdempotent(s: StoreState, lessonId: string)
    ensures ApplyCompleteLesson(ApplyCompleteLesson(s, lessonId), lessonId) == ApplyCompleteLesson(s, lessonId)
  {
  }

  /** Resetting is idempotent and reaches the initial state from anywhere. */
  lemma ResetIdempotent(s: StoreState)
    ensures ApplyReset(ApplyReset(s)) == ApplyReset(s) == Initial
  {
  }

  /** Every action keeps the level on the curve and the completed list duplicate-free. */
  lemma ApplyKeepsCoherent(s: StoreState, op: Op)
    requires Coherent(s)
    ensures Coherent(Apply(s, op))
  {
    match op
    case AddXpOp(a) =>
    case CompleteOp(_, l) =>
      if l !in s.completedLessons {
        var r := ApplyCompleteLesson(s, l);
        forall i, j | 0 <= i < j < |r.completedLessons|
          ensures r.completedLessons[i] != r.completedLessons[j]
        {
          if j == |s.completedLessons| {
            assert r.completedLessons[i] == s.completedLessons[i];
          }
        }
      }
    case ResetOp =>
  }

  /** From the initial state, any sequence of actions (any amounts) keeps `level == xp/100 + 1`
      and a duplicate-free `completedLessons`. */
  lemma {:induction false} RunKeepsCoherent(s: StoreState, ops: seq<Op>)
    requires Coherent(s)
    ensures Coherent(Run(s, ops))
    decreases |ops|
  {
    if ops != [] {
      ApplyKeepsCoherent(s, ops[0]);
      RunKeepsCoherent(Apply(s, ops[0]), ops[1..]);
    }
  }

  lemma InitialCoherent()
    ensures Coherent(Initial)
  {
  }

  /** Without `addXp`, XP is exactly 50 per recorded lesson. */
  lemma {:induction false} LessonOnlyXp(s: StoreState, ops: seq<Op>)
    requires s.xp == LessonXp * |s.completedLessons|
    requires LessonOpsOnly(ops)
    ensures Run(s, ops).xp == LessonXp * |Run(s, ops).completedLessons|
    decreases |ops|
  {
    if ops != [] {
      assert !ops[0].AddXpOp?;
      var t := Apply(s, ops[0]);
      assert t.xp == LessonXp * |t.completedLessons|;
      assert LessonOpsOnly(ops[1..]) by {
        forall i | 0 <= i < |ops[1..]| ensures !ops[1..][i].AddXpOp? { assert ops[1..][i] == ops[i + 1]; }
      }
      LessonOnlyXp(t, ops[1..]);
    }
  }

  /** Between resets, with non-negative awards, XP never decreases and no completed lesson is lost. */
  lemma {:induction false} GrowingRunMonotone(s: StoreState, ops: seq<Op>)
    requires GrowingOps(ops)
    ensures Run(s, ops).xp >= s.xp
    ensures forall l :: l in s.completedLessons ==> l in Run(s, ops).completedLessons
    decreases |ops|
  {
    if ops != [] {
      var t := Apply(s, ops[0]);
      assert t.xp >= s.xp;
      assert GrowingOps(ops[1..]) by {
        forall i | 0 <= i < |ops[1..]|
          ensures !ops[1..][i].ResetOp? && (ops[1..][i].AddXpOp? ==> ops[1..][i].amount >= 0)
        {
          assert ops[1..][i] == ops[i + 1];
        }
      }
      GrowingRunMonotone(t, ops[1..]);
    }
  }

  /** The lesson id is the only argument of completeLesson that matters. */
  lemma CompleteIgnoresTopic(s: StoreState, t1: string, t2: string, l: string)
    ensures Apply(s, CompleteOp(t1, l)) == Apply(s, CompleteOp(t2, l))
  {
  }

  /** The store object: its four fields, replaced as a whole by each action's `set()`. */
  class Store {
    var topicProgress: map<string, int>
    var completedLessons: seq<string>
    var xp: int
    var level: int

    function State(): StoreState
      reads this
    {
      StoreState(topicProgress, completedLessons, xp, level)
    }

    ghost predicate Valid()
      reads this
    {
      Coherent(State())
    }

    /** The store as first created: no progress, xp 0, level 1. */
    constructor ()
      ensures State() == Initial && Valid()
    {
      topicProgress := map[];
      completedLessons := [];
      xp := 0;
      level := 1;
    }

    method AddXp(amount: int)
      requires Valid()
      modifies this
      ensures State() == ApplyAddXp(old(State()), amount) && Valid()
      ensures completedLessons == old(completedLessons)
    {
      var newXp := xp + amount;
      xp, level := newXp, LevelOf(newXp);
      ApplyKeepsCoherent(old(State()), AddXpOp(amount));
    }

    method CompleteLesson(topicId: string, lessonId: string)
      requires Valid()
      modifies this
      ensures State() == ApplyCompleteLesson(old(State()), lessonId) && Valid()
    {
      ApplyKeepsCoherent(State(), CompleteOp(topicId, lessonId));
      if lessonId in completedLessons {
        return;
      }
      var newXp := xp + LessonXp;
      completedLessons, xp, level := completedLessons + [lessonId], newXp, LevelOf(newXp);
    }

    method ResetProgress()
      modifies this
      ensures State() == Initial && Valid()
    {
      topicProgress, completedLessons, xp, level := map[], [], 0, 1;
    }

    function GetTopicProgress(topicId: string, totalLessons: Option<int>): (p: int)
      reads this
    {
      TopicProgressOf(State(), topicId, totalLessons)
    }
  }
}
