/**
 The MySQL and the Redis connection pool, with their fields updated in place.  Where a method does not
 hold the mutex, `Interleave` lets other threads go through critical sections of their own; `Fate` is how
 pings and connection attempts come out.
 */
module ConnectionPoolObject {
  import opened Basics
  import opened ConnectionPools

  /** A connection answers, or answers again; or there is a new one in its place; or there is none to be had. */
  datatype Fate = Answers | Replaced | Gone

  /** The addresses in use. */
  function LiveHandles(p: Pool): (s: set<Handle>)
    ensures forall h :: h in s <==> Live(p, h)
  {
    (set h | h in p.free) + p.held + (set t | t in p.busy && p.busy[t].Some? :: p.busy[t].value)
  }

  /** A new connection at an address that is not in use, or none. */
  method CreateConnection(p: Pool, connected: bool) returns (con: Option<Handle>)
    ensures con.Some? <==> connected
    ensures con.Some? ==> !Live(p, con.value)
  {
    if !connected { return None; }
    var live := LiveHandles(p);
    var h: Handle := *;
    ghost var above := live;
    while h in live
      invariant forall x :: x in live && x >= h ==> x in above
      decreases above
    {
      above := above - {h};
      h := h + 1;
    }
    return Some(h);
  }

  /** What other threads do to the pool while `me` is on its own. */
  method Interleave(p: Pool, me: Thread, withHealth: bool, steps: seq<Step>) returns (q: Pool)
    requires Good(p) && (!withHealth ==> p.health == {})
    ensures Good(q) && q.size == p.size && (!withHealth ==> q.health == {})
    ensures (me in q.busy <==> me in p.busy) && (me in p.busy ==> q.busy[me] == p.busy[me])
    ensures me in q.health <==> me in p.health
    ensures steps == [] ==> q == p
  {
    hide Good, Apply, Enabled;
    q := p;
    for i := 0 to |steps|
      invariant Good(q) && q.size == p.size && (!withHealth ==> q.health == {})
      invariant (me in q.busy <==> me in p.busy) && (me in p.busy ==> q.busy[me] == p.busy[me])
      invariant (me in q.health <==> me in p.health) && (steps == [] ==> q == p)
    {
      if Enabled(q, steps[i]) && !By(steps[i], me) && (withHealth || !steps[i].DoHealthTake?) {
        StepKeeps(q, steps[i]);
        OthersLeave(q, steps[i], me);
        if !withHealth { NoHealth(q, steps[i]); }
        q := Apply(q, steps[i]);
      }
    }
  }

  lemma NoHealth(p: Pool, s: Step)
    requires Enabled(p, s) && !s.DoHealthTake? && p.health == {}
    ensures Apply(p, s).health == {}
  {
  }

  class ConnectionPool {
    var connList: seq<Handle>
    var freeConn: int
    var curConn: int
    var lostConn: nat
    var maxConn: nat
    // in the hands of clients and of other threads
    var held: set<Handle>
    var busy: map<Thread, Option<Handle>>
    var health: set<Thread>

    function State(): Pool
      reads this
    {
      Pool(maxConn, connList, lostConn, held, busy, health, freeConn, curConn)
    }

    method Become(p: Pool)
      modifies this
      ensures State() == p
    {
      maxConn, connList, lostConn, held, busy, health, freeConn, curConn :=
        p.size, p.free, p.lost, p.held, p.busy, p.health, p.freeCount, p.current;
    }

    constructor ()
      ensures State() == ConnectionPools.Init([])
    {
      connList, freeConn, curConn, lostConn, maxConn := [], 0, 0, 0, 0;
      held, busy, health := {}, map[], {};
    }

    /** All connections or none: a failure closes those already made. */
    method Init(maxconn: nat, connects: seq<bool>) returns (ok: bool)
      requires State() == ConnectionPools.Init([])
      modifies this
      ensures Good(State())
      ensures State() == ConnectionPools.Init(connList) && |connList| == if ok then maxconn else 0
      ensures ok <==> forall i :: 0 <= i < maxconn ==> i < |connects| && connects[i]
    {
      var created: seq<Handle> := [];
      for i := 0 to maxconn
        invariant State() == old(State())
        invariant |created| == i && Good(ConnectionPools.Init(created))
        invariant forall j :: 0 <= j < i ==> j < |connects| && connects[j]
      {
        var con := CreateConnection(ConnectionPools.Init(created), i < |connects| && connects[i]);
        if con.None? { return false; }
        DistinctPush(created, con.value);
        created := created + [con.value];
      }
      connList := created;
      freeConn := |connList|;
      curConn, lostConn := 0, 0;
      maxConn := freeConn;
      return true;
    }

    /** The first critical section of an acquisition. */
    method TakeSlot(me: Thread) returns (con: Option<Handle>)
      requires Good(State()) && CanTake(State(), me)
      modifies this
      ensures Good(State()) && State() == Take(old(State()), me) && busy[me] == con
    {
      hide Good, Live;
      TakeKeeps(State(), me);
      con := None;
      if connList != [] {
        con := Some(connList[0]);
        connList := connList[1..];
        freeConn := freeConn - 1;
      } else {
        lostConn := lostConn - 1;
      }
      busy := busy[me := con];
    }

    /** Without the mutex: a handle that does not answer, or a lost slot, gets a new connection or none. */
    method Repair(me: Thread, fate: Fate, others: seq<Step>) returns (con: Option<Handle>)
      requires Good(State()) && me in busy
      modifies this
      ensures Good(State()) && me in busy && busy[me] == con && maxConn == old(maxConn)
      ensures me in health <==> me in old(health)
      ensures con.None? <==> fate.Gone?
      ensures fate.Answers? && old(busy[me]).Some? ==> con == old(busy[me])
      ensures others == [] ==> State() == Rebuild(old(State()), me, con)
    {
      hide Good, Live;
      var p := Interleave(State(), me, true, others);
      Become(p);
      con := busy[me];
      if con.None? || !fate.Answers? {
        con := CreateConnection(State(), !fate.Gone?);
      }
      RebuildKeeps(State(), me, con);
      busy := busy[me := con];
      var q := Interleave(State(), me, true, others);
      Become(q);
    }

    /** The last critical section of an acquisition. */
    method FinishSlot(me: Thread, con: Option<Handle>)
      requires Good(State()) && me in busy && me !in health && busy[me] == con
      modifies this
      ensures Good(State()) && State() == FinishGet(old(State()), me)
    {
      hide Good, Live;
      FinishGetKeeps(State(), me);
      busy := busy - {me};
      if con.None? {
        lostConn := lostConn + 1;
      } else {
        curConn := curConn + 1;
        held := held + {con.value};
      }
    }

    /**
     A client gets a handle that nobody else has, or nothing: exactly when there is still none and no lost slot
     at the end of the wait, or when the connection is gone and no new one can be made.
     */
    method GetConnectionWithTimeout(me: Thread, fate: Fate, before: seq<Step>, during: seq<Step>)
        returns (con: Option<Handle>, ghost waited: Pool, ghost last: Pool)
      requires Good(State()) && me !in busy
      modifies this
      ensures Good(State()) && maxConn == old(maxConn) && me !in busy
      ensures before == [] ==> waited == old(State())
      ensures waited.free == [] && waited.lost == 0 ==> con.None? && State() == waited
      ensures waited.free != [] || waited.lost > 0 ==>
        && (con.None? <==> fate.Gone?) && (fate.Answers? && waited.free != [] ==> con == Some(waited.free[0]))
        && me in last.busy && me !in last.health && last.busy[me] == con && State() == FinishGet(last, me)
        && (during == [] ==> CanTake(waited, me) && last == Rebuild(Take(waited, me), me, con))
      ensures con.Some? ==> con.value in held && con.value !in last.held && con.value !in last.free
    {
      hide Good, Live;
      var afterWait := Interleave(State(), me, true, before);
      Become(afterWait);
      waited, last := State(), State();
      if connList == [] && lostConn == 0 { return None, waited, last; }
      Checking(State());
      con := TakeSlot(me);
      con := Repair(me, fate, during);
      last := State();
      NotShared(last, me);
      FinishSlot(me, con);
    }

    method ReleaseConnection(con: Option<Handle>) returns (ok: bool)
      requires Good(State())
      modifies this
      ensures ok <==> con.Some?
      ensures con.None? ==> State() == old(State())
      ensures con.Some? ==> State() == Release(old(State()), con.value) && (Good(State()) <==> con.value in old(held))
    {
      hide Good;
      if con.None? { return false; }
      ReleaseExactly(State(), con.value);
      connList := connList + [con.value];
      freeConn := freeConn + 1;
      if curConn > 0 { curConn := curConn - 1; }
      held := held - {con.value};
      return true;
    }

    /**
     Takes each idle connection out, replaces it if it is dead, and puts it back at the end.  Undisturbed, the
     connections that answer stay in their order, and the slots of those that are gone are lost.
     */
    method HealthCheck(me: Thread, fates: seq<Fate>, others: seq<Step>)
      requires Good(State()) && me !in busy
      modifies this
      ensures Good(State()) && maxConn == old(maxConn) && me !in busy
      ensures others == [] && Replaced !in fates ==>
        && connList == Kept(old(connList), fates, |old(connList)|)
        && lostConn == old(lostConn) + |old(connList)| - |connList| && held == old(held)
    {
      hide Good;
      ghost var was := connList;
      var idleCount := |connList|;
      for i := 0 to idleCount
        invariant Good(State()) && maxConn == old(maxConn) && me !in busy
        invariant others == [] && Replaced !in fates ==>
          && connList == was[i..] + Kept(was, fates, i)
          && lostConn == old(lostConn) + idleCount - |connList| && held == old(held)
      {
        var p := Interleave(State(), me, true, others);
        Become(p);
        if connList == [] { break; }
        CheckOne(me, FateOf(fates, i), others);
      }
    }

    method CheckOne(me: Thread, fate: Fate, others: seq<Step>)
      requires Good(State()) && me !in busy && connList != []
      modifies this
      ensures Good(State()) && maxConn == old(maxConn) && me !in busy
      ensures others == [] && !fate.Replaced? ==>
        && connList == old(connList)[1..] + (if fate.Gone? then [] else [old(connList)[0]])
        && lostConn == old(lostConn) + (if fate.Gone? then 1 else 0) && held == old(held)
    {
      hide Good, Live;
      HealthTakeKeeps(State(), me);
      var conn := Some(connList[0]);
      connList := connList[1..];
      freeConn := freeConn - 1;
      curConn := curConn + 1;
      busy, health := busy[me := conn], health + {me};
      conn := Repair(me, fate, others);
      PutBack(me, conn);
    }

    method PutBack(me: Thread, conn: Option<Handle>)
      requires Good(State()) && me in busy && me in health && busy[me] == conn
      modifies this
      ensures Good(State()) && State() == HealthGive(old(State()), me)
    {
      hide Good, Live;
      HealthGiveKeeps(State(), me);
      curConn := curConn - 1;
      busy, health := busy - {me}, health - {me};
      if conn.Some? {
        connList := connList + [conn.value];
        freeConn := freeConn + 1;
      } else {
        lostConn := lostConn + 1;
      }
    }
  }

  function FateOf(fates: seq<Fate>, i: nat): Fate {
    if i < |fates| then fates[i] else Answers
  }

  /** Those of the first n connections that are not gone. */
  function Kept(list: seq<Handle>, fates: seq<Fate>, n: nat): seq<Handle>
    requires n <= |list|
  {
    if n == 0 then [] else Kept(list, fates, n - 1) + (if FateOf(fates, n - 1).Gone? then [] else [list[n - 1]])
  }

  /** What a thread has on its way to a client, no client has and no other can take. */
  lemma NotShared(p: Pool, t: Thread)
    requires Good(p) && t in p.busy
    ensures p.busy[t].Some? ==> p.busy[t].value !in p.held && p.busy[t].value !in p.free
  {
  }

  lemma Checking(p: Pool)
    requires Good(p)
    ensures p.health <= p.busy.Keys
  {
  }

  /** The Redis pool keeps no counters and has no health check. */
  class RedisConnPool {
    const poolSize: nat
    var connList: seq<Handle>
    var lostSlots: nat
    // in the hands of clients and of other threads
    var held: set<Handle>
    var busy: map<Thread, Option<Handle>>

    function State(): Pool
      reads this
    {
      Pool(poolSize, connList, lostSlots, held, busy, {}, |connList|, |held|)
    }

    method Become(p: Pool)
      requires p.size == poolSize && p.health == {} && p.freeCount == |p.free| && p.current == |p.held|
      modifies this
      ensures State() == p
    {
      connList, lostSlots, held, busy := p.free, p.lost, p.held, p.busy;
    }

    constructor (created: seq<Handle>)
      requires Distinct(created)
      ensures State() == Init(created) && Good(State())
    {
      poolSize, connList, lostSlots, held, busy := |created|, created, 0, {}, map[];
    }

    method TakeSlot(me: Thread) returns (ctx: Option<Handle>)
      requires Good(State()) && CanTake(State(), me)
      modifies this`connList, this`lostSlots, this`busy
      ensures Good(State()) && State() == Take(old(State()), me) && busy[me] == ctx
    {
      hide Good, Live;
      TakeKeeps(State(), me);
      ctx := None;
      if connList != [] {
        ctx := Some(connList[0]);
        connList := connList[1..];
      } else {
        lostSlots := lostSlots - 1;
      }
      busy := busy[me := ctx];
    }

    /** A handle that answers, or answers after reconnecting, is kept; else there is a new one or none. */
    method Repair(me: Thread, fate: Fate, others: seq<Step>) returns (ctx: Option<Handle>)
      requires Good(State()) && me in busy
      modifies this
      ensures Good(State()) && me in busy && busy[me] == ctx
      ensures ctx.None? <==> fate.Gone?
      ensures fate.Answers? && old(busy[me]).Some? ==> ctx == old(busy[me])
      ensures others == [] ==> State() == Rebuild(old(State()), me, ctx)
    {
      hide Good, Live;
      var p := Interleave(State(), me, false, others);
      Counts(p);
      Become(p);
      ctx := busy[me];
      if ctx.None? || !fate.Answers? {
        ctx := CreateConnection(State(), !fate.Gone?);
      }
      RebuildKeeps(State(), me, ctx);
      busy := busy[me := ctx];
      var q := Interleave(State(), me, false, others);
      Counts(q);
      Become(q);
    }

    method FinishSlot(me: Thread, ctx: Option<Handle>)
      requires Good(State()) && me in busy && busy[me] == ctx
      modifies this`lostSlots, this`busy, this`held
      ensures Good(State()) && State() == FinishGet(old(State()), me)
    {
      hide Good, Live;
      FinishGetKeeps(State(), me);
      NotShared(State(), me);
      busy := busy - {me};
      if ctx.None? {
        lostSlots := lostSlots + 1;
      } else {
        held := held + {ctx.value};
      }
    }

    /** As in the MySQL pool; where the code throws, there is nothing. */
    method GetConnection(me: Thread, fate: Fate, before: seq<Step>, during: seq<Step>)
        returns (ctx: Option<Handle>, ghost waited: Pool, ghost last: Pool)
      requires Good(State()) && me !in busy
      modifies this
      ensures Good(State()) && me !in busy
      ensures before == [] ==> waited == old(State())
      ensures waited.free == [] && waited.lost == 0 ==> ctx.None? && State() == waited
      ensures waited.free != [] || waited.lost > 0 ==>
        && (ctx.None? <==> fate.Gone?) && (fate.Answers? && waited.free != [] ==> ctx == Some(waited.free[0]))
        && me in last.busy && me !in last.health && last.busy[me] == ctx && State() == FinishGet(last, me)
        && (during == [] ==> CanTake(waited, me) && last == Rebuild(Take(waited, me), me, ctx))
      ensures ctx.Some? ==> ctx.value in held && ctx.value !in last.held && ctx.value !in last.free
    {
      hide Good, Live;
      var afterWait := Interleave(State(), me, false, before);
      Counts(afterWait);
      Become(afterWait);
      waited, last := State(), State();
      if connList == [] && lostSlots == 0 { return None, waited, last; }
      ctx := TakeSlot(me);
      ctx := Repair(me, fate, during);
      last := State();
      NotShared(last, me);
      FinishSlot(me, ctx);
    }

    method ReleaseConnection(ctx: Option<Handle>)
      requires Good(State()) && (ctx.Some? ==> ctx.value in held)
      modifies this
      ensures Good(State()) && State() == if ctx.None? then old(State()) else Release(old(State()), ctx.value)
    {
      if ctx.None? { return; }
      ReleaseExactly(State(), ctx.value);
      ReleaseCounts(State(), ctx.value);
      connList := connList + [ctx.value];
      held := held - {ctx.value};
    }
  }

  lemma Counts(p: Pool)
    requires Good(p) && p.health == {}
    ensures p.freeCount == |p.free| && p.current == |p.held|
  {
  }
}
