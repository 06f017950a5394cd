/**
 The slots of a connection pool.  Every critical section is one step; between them a thread pings,
 closes and creates handles on its own.  Both the MySQL and the Redis pool are this machine.
 */
module ConnectionPools {
  import opened Basics

  type Handle = nat
  type Thread = nat

  /**
   `busy` has the handle, or the slot without one, of each thread inside an acquisition or a health
   check, `health` the threads that are in the latter, and `held` what clients have been given.
   `freeCount` and `current` are the counters that the MySQL pool keeps.
   */
  datatype Pool = Pool(
    size: nat,
    free: seq<Handle>,
    lost: nat,
    held: set<Handle>,
    busy: map<Thread, Option<Handle>>,
    health: set<Thread>,
    freeCount: int,
    current: int)

  predicate Live(p: Pool, h: Handle) {
    h in p.free || h in p.held || (exists t | t in p.busy :: p.busy[t] == Some(h))
  }

  /** Every slot of the pool is in exactly one place. */
  ghost predicate SlotsAddUp(p: Pool) {
    |p.free| + p.lost + |p.held| + |p.busy| == p.size
  }

  /** No handle is in two places. */
  ghost predicate OnePlace(free: seq<Handle>, held: set<Handle>, busy: map<Thread, Option<Handle>>) {
    && Distinct(free)
    && (forall h :: h in held ==> h !in free)
    && (forall t :: t in busy && busy[t].Some? ==> busy[t].value !in free && busy[t].value !in held)
    && (forall t, u :: t in busy && u in busy && t != u && busy[t].Some? ==> busy[t] != busy[u])
  }

  ghost predicate Counted(p: Pool) {
    && p.health <= p.busy.Keys
    && p.freeCount == |p.free|
    && p.current == |p.held| + |p.health|
  }

  ghost predicate Good(p: Pool) {
    SlotsAddUp(p) && OnePlace(p.free, p.held, p.busy) && Counted(p)
  }

  // ---------- critical sections ----------

  function Init(created: seq<Handle>): Pool {
    Pool(|created|, created, 0, {}, map[], {}, |created|, 0)
  }

  predicate CanTake(p: Pool, t: Thread) {
    t !in p.busy && (p.free != [] || p.lost > 0)
  }

  /** The wait is over: the oldest free handle, or else a lost slot. */
  function Take(p: Pool, t: Thread): Pool
    requires CanTake(p, t)
  {
    if p.free != []
    then p.(free := p.free[1..], freeCount := p.freeCount - 1, busy := p.busy[t := Some(p.free[0])])
    else p.(lost := p.lost - 1, busy := p.busy[t := None])
  }

  /** What ping, reconnect and create leave a thread with: its handle, a new one, or none. */
  predicate Outcome(p: Pool, t: Thread, h: Option<Handle>) {
    t in p.busy && (h.None? || h == p.busy[t] || !Live(p, h.value))
  }

  function Rebuild(p: Pool, t: Thread, h: Option<Handle>): Pool
    requires t in p.busy
  {
    p.(busy := p.busy[t := h])
  }

  function FinishGet(p: Pool, t: Thread): Pool
    requires t in p.busy && t !in p.health
  {
    match p.busy[t]
    case Some(h) => p.(busy := p.busy - {t}, held := p.held + {h}, current := p.current + 1)
    case None => p.(busy := p.busy - {t}, lost := p.lost + 1)
  }

  function Release(p: Pool, h: Handle): Pool {
    p.(free := p.free + [h], freeCount := p.freeCount + 1, held := p.held - {h},
       current := if p.current > 0 then p.current - 1 else p.current)
  }

  function HealthTake(p: Pool, t: Thread): Pool
    requires t !in p.busy && p.free != []
  {
    p.(free := p.free[1..], freeCount := p.freeCount - 1, current := p.current + 1,
       busy := p.busy[t := Some(p.free[0])], health := p.health + {t})
  }

  function HealthGive(p: Pool, t: Thread): Pool
    requires t in p.busy && t in p.health
  {
    var q := p.(busy := p.busy - {t}, health := p.health - {t}, current := p.current - 1);
    match p.busy[t]
    case Some(h) => q.(free := q.free + [h], freeCount := q.freeCount + 1)
    case None => q.(lost := q.lost + 1)
  }

  // ---------- what every step keeps ----------

  lemma Cardinality<K, V>(m: map<K, V>, k: K, v: V)
    ensures |m[k := v]| == if k in m then |m| else |m| + 1
    ensures |m - {k}| == if k in m then |m| - 1 else |m|
  {
  }

  lemma DistinctPush(free: seq<Handle>, h: Handle)
    ensures Distinct(free + [h]) <==> Distinct(free) && h !in free
    ensures forall g :: g in free + [h] <==> g in free || g == h
  {
    var more := free + [h];
    assert forall i :: 0 <= i < |free| ==> more[i] == free[i];
    assert more[|free|] == h;
    if Distinct(more) {
      assert forall i, j :: 0 <= i < j < |free| ==> more[i] != more[j];
    }
  }

  lemma PopKeepsPlaces(free: seq<Handle>, held: set<Handle>, busy: map<Thread, Option<Handle>>, t: Thread)
    requires OnePlace(free, held, busy) && free != [] && t !in busy
    ensures OnePlace(free[1..], held, busy[t := Some(free[0])])
  {
  }

  lemma TakeKeeps(p: Pool, t: Thread)
    requires Good(p) && CanTake(p, t)
    ensures Good(Take(p, t))
  {
  }

  lemma RebuildKeeps(p: Pool, t: Thread, h: Option<Handle>)
    requires Good(p) && Outcome(p, t, h)
    ensures Good(Rebuild(p, t, h))
  {
  }

  lemma FinishGetKeeps(p: Pool, t: Thread)
    requires Good(p) && t in p.busy && t !in p.health
    ensures Good(FinishGet(p, t))
  {
  }

  /** A release keeps the accounts exactly when the handle is one that a client holds. */
  lemma ReleaseExactly(p: Pool, h: Handle)
    requires Good(p)
    ensures Good(Release(p, h)) <==> h in p.held
  {
  }

  /** The guard before the decrement never fails for such a handle. */
  lemma ReleaseCounts(p: Pool, h: Handle)
    requires Good(p) && h in p.held
    ensures p.current > 0
  {
  }

  lemma HealthTakeKeeps(p: Pool, t: Thread)
    requires Good(p) && t !in p.busy && p.free != []
    ensures Good(HealthTake(p, t))
  {
    hide OnePlace;
    PopKeepsPlaces(p.free, p.held, p.busy, t);
    Cardinality(p.busy, t, Some(p.free[0]));
  }

  lemma HealthGiveKeeps(p: Pool, t: Thread)
    requires Good(p) && t in p.busy && t in p.health
    ensures Good(HealthGive(p, t))
  {
  }

  // ---------- runs ----------

  datatype Step =
    | DoTake(t: Thread)
    | DoRebuild(t: Thread, left: Option<Handle>)
    | DoFinishGet(t: Thread)
    | DoRelease(h: Handle)
    | DoHealthTake(t: Thread)
    | DoHealthGive(t: Thread)

  predicate Enabled(p: Pool, s: Step) {
    match s
    case DoTake(t) => CanTake(p, t)
    case DoRebuild(t, left) => Outcome(p, t, left)
    case DoFinishGet(t) => t in p.busy && t !in p.health
    case DoRelease(h) => h in p.held
    case DoHealthTake(t) => t !in p.busy && p.free != []
    case DoHealthGive(t) => t in p.busy && t in p.health
  }

  function Apply(p: Pool, s: Step): Pool
    requires Enabled(p, s)
  {
    match s
    case DoTake(t) => Take(p, t)
    case DoRebuild(t, left) => Rebuild(p, t, left)
    case DoFinishGet(t) => FinishGet(p, t)
    case DoRelease(h) => Release(p, h)
    case DoHealthTake(t) => HealthTake(p, t)
    case DoHealthGive(t) => HealthGive(p, t)
  }

  lemma StepKeeps(p: Pool, s: Step)
    requires Good(p) && Enabled(p, s)
    ensures Good(Apply(p, s)) && Apply(p, s).size == p.size
  {
    hide Good;
    match s
    case DoTake(t) => TakeKeeps(p, t);
    case DoRebuild(t, left) => RebuildKeeps(p, t, left);
    case DoFinishGet(t) => FinishGetKeeps(p, t);
    case DoRelease(h) => ReleaseExactly(p, h);
    case DoHealthTake(t) => HealthTakeKeeps(p, t);
    case DoHealthGive(t) => HealthGiveKeeps(p, t);
  }

  /** The thread whose step it is; a client may release in any thread. */
  predicate By(s: Step, t: Thread) {
    !s.DoRelease? && s.t == t
  }

  /** The steps of other threads leave a thread's own slot alone. */
  lemma OthersLeave(p: Pool, s: Step, t: Thread)
    requires Enabled(p, s) && !By(s, t)
    ensures
      var q := Apply(p, s);
      (t in q.busy <==> t in p.busy) && (t in p.busy ==> q.busy[t] == p.busy[t]) && (t in q.health <==> t in p.health)
  {
  }

  ghost predicate Possible(p: Pool, steps: seq<Step>)
    decreases |steps|
  {
    steps != [] ==> Enabled(p, steps[0]) && Possible(Apply(p, steps[0]), steps[1..])
  }

  ghost function Run(p: Pool, steps: seq<Step>): Pool
    requires Possible(p, steps)
    decreases |steps|
  {
    if steps == [] then p else Run(Apply(p, steps[0]), steps[1..])
  }

  lemma {:induction false} RunKeeps(p: Pool, steps: seq<Step>)
    requires Good(p) && Possible(p, steps)
    ensures Good(Run(p, steps)) && Run(p, steps).size == p.size
    decreases |steps|
  {
    hide Good, Enabled, Apply;
    if steps != [] {
      StepKeeps(p, steps[0]);
      RunKeeps(Apply(p, steps[0]), steps[1..]);
    }
  }

  /**
   Whatever the threads do, free, lost, held and in-between slots make up the pool, the counters are
   right and no handle is in two places.
   */
  lemma SlotsConserved(created: seq<Handle>, steps: seq<Step>)
    requires Distinct(created) && Possible(Init(created), steps)
    ensures
      var p := Run(Init(created), steps);
      && |p.free| + p.lost + |p.held| + |p.busy| == |created|
      && p.freeCount == |p.free| && p.current == |p.held| + |p.health|
      && OnePlace(p.free, p.held, p.busy)
  {
    RunKeeps(Init(created), steps);
  }

  // ---------- round trips ----------

  /** A thread that gets a connection that answers is given the oldest; returned, it becomes the youngest. */
  lemma GetThenRelease(p: Pool, t: Thread)
    requires Good(p) && t !in p.busy && p.free != []
    ensures
      var got := FinishGet(Take(p, t), t);
      && p.free[0] in got.held && got.held == p.held + {p.free[0]} && got.free == p.free[1..]
      && Release(got, p.free[0]) == p.(free := p.free[1..] + [p.free[0]])
  {
    var h := p.free[0];
    assert h in p.free;
    assert p.busy[t := Some(h)] - {t} == p.busy;
    assert (p.held + {h}) - {h} == p.held;
  }

  /** With no idle connection left, a lost slot that can be filled again gives the pool a connection more. */
  lemma LostSlotIsFilled(p: Pool, t: Thread, h: Handle)
    requires Good(p) && t !in p.busy && p.free == [] && p.lost > 0 && !Live(p, h)
    ensures
      var got := FinishGet(Rebuild(Take(p, t), t, Some(h)), t);
      && got.held == p.held + {h} && got.lost == p.lost - 1
      && Release(got, h) == p.(free := [h], lost := p.lost - 1, freeCount := p.freeCount + 1)
  {
    assert (p.busy[t := None][t := Some(h)]) - {t} == p.busy;
    assert (p.held + {h}) - {h} == p.held;
    assert [] + [h] == [h];
  }

  /** One that cannot be filled is lost as before, and a connection that is gone leaves a lost slot. */
  lemma NothingToGet(p: Pool, t: Thread)
    requires Good(p) && CanTake(p, t) && t !in p.health
    ensures
      FinishGet(Rebuild(Take(p, t), t, None), t) ==
        if p.free == [] then p
        else p.(free := p.free[1..], freeCount := p.freeCount - 1, lost := p.lost + 1)
  {
    assert Take(p, t).busy[t := None] - {t} == p.busy;
  }
}
