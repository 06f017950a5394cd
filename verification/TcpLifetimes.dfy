/**
 The end of a connection.  The destructor asserts that the connection is disconnected; it runs when the
 owner has let go, no functor of the connection is queued and no thread is inside a call.  The timer of
 a delayed close refers to the connection weakly and does not keep it alive.
 */
module TcpLifetimes {
  import opened Basics
  import opened Endian
  import opened TcpConnections
  import opened TcpRuns

  predicate Destructible(c: Conn) {
    c.disowned && c.tasks == [] && c.calls == []
  }

  /** What still happens when nobody begins a call any more. */
  predicate Finishing(e: Event) {
    || e.OtherStores? || e.OtherOverwritten? || e.OtherPushes?
    || e.DelayEnds? || e.Pop? || e.Writable? || e.ReadEnds? || e.Hangup?
  }

  predicate AllFinishing(events: seq<Event>) {
    forall i :: 0 <= i < |events| ==> Finishing(events[i])
  }

  /** However the connection comes to its end from here, the assert of the destructor holds. */
  ghost predicate EndsDisconnected(c: Conn) {
    forall rest :: AllFinishing(rest) && Run(c, rest).Some? && Destructible(Run(c, rest).value) ==>
      Run(c, rest).value.state.Disconnected?
  }

  predicate StoresOnly(p: Progress) {
    p == Tested(ShutdownCall) || p == Tested(DelayCall)
  }

  /** Some thread is about to store kDisconnecting and will queue no close after it. */
  predicate Reopens(calls: seq<Progress>) {
    exists i :: 0 <= i < |calls| && StoresOnly(calls[i])
  }

  predicate CloseToCome(tasks: seq<Task>, calls: seq<Progress>) {
    CloseTask in tasks || exists i :: 0 <= i < |calls| && calls[i].call.CloseCall?
  }

  predicate Safe(c: Conn) {
    && !Reopens(c.calls)
    && (c.state.Disconnected? || CloseToCome(c.tasks, c.calls) || (c.state.Connected? && DestroyTask in c.tasks))
  }

  // ---------- safe connections end disconnected ----------

  /** What a send or a write event leaves alone. */
  predicate SameEnds(c: Conn, d: Conn) {
    && d.state == c.state && d.calls == c.calls && d.disowned == c.disowned
    && (forall t :: t in c.tasks ==> t in d.tasks)
    && (CloseTask in d.tasks ==> CloseTask in c.tasks)
  }

  lemma KeepSameEnds(c: Conn, rest: seq<Byte>)
    ensures SameEnds(c, Keep(c, rest))
    ensures Weight(Keep(c, rest).tasks) <= Weight(c.tasks) + 1
  {
    hide Weight;
    WeightMore(c.tasks, HighWaterTask(|c.out| + |rest|));
  }

  lemma DrainedSameEnds(c: Conn)
    ensures SameEnds(c, Drained(c))
  {
  }

  lemma WriteSameEnds(c: Conn, r: WriteResult)
    ensures SameEnds(c, HandleWrite(c, r))
  {
    hide Kernel, Drained;
    var k := Kernel(c.fin.Some?, |c.out|, r);
    if k.Wrote? {
      DrainedSameEnds(c.(wire := c.wire + c.out[..k.n], out := c.out[k.n..]));
    }
  }

  lemma SendSameEnds(c: Conn, data: seq<Byte>, r: WriteResult)
    ensures SameEnds(c, SendInLoop(c, data, r))
  {
    hide Keep, Kernel;
    var k := Kernel(c.fin.Some?, |data|, r);
    KeepSameEnds(c.(accepted := c.accepted + data), data);
    KeepSameEnds(Offered(c, data, k), Untaken(data, k));
  }

  lemma CallsAfterStore(calls: seq<Progress>, i: nat)
    requires i < |calls| && calls[i].Tested?
    ensures
      var after := calls[i := Stored(calls[i].call)];
      && (Reopens(after) ==> Reopens(calls))
      && (forall tasks :: CloseToCome(tasks, calls) ==> CloseToCome(tasks, after))
      && (calls[i].call.CloseCall? ==> forall tasks :: CloseToCome(tasks, after))
  {
    var after := calls[i := Stored(calls[i].call)];
    assert forall j :: 0 <= j < |calls| ==> after[j].call == calls[j].call;
    if Reopens(after) {
      var j :| 0 <= j < |after| && StoresOnly(after[j]);
      assert StoresOnly(calls[j]);
    }
    forall tasks | CloseToCome(tasks, calls) && CloseTask !in tasks ensures CloseToCome(tasks, after) {
      var j :| 0 <= j < |calls| && calls[j].call.CloseCall?;
      assert after[j].call.CloseCall?;
    }
    if calls[i].call.CloseCall? { assert after[i].call.CloseCall?; }
  }

  lemma CallsAfterPush(calls: seq<Progress>, tasks: seq<Task>, i: nat)
    requires i < |calls|
    ensures Reopens(Without(calls, i)) ==> Reopens(calls)
    ensures CloseToCome(tasks, calls) <==> CloseToCome(tasks + Queues(calls[i].call), Without(calls, i))
  {
    var after := Without(calls, i);
    assert forall j :: 0 <= j < |after| ==> after[j] == calls[if j < i then j else j + 1];
    if Reopens(after) {
      var j :| 0 <= j < |after| && StoresOnly(after[j]);
      assert StoresOnly(calls[if j < i then j else j + 1]);
    }
    if CloseToCome(tasks, calls) && CloseTask !in tasks {
      var j :| 0 <= j < |calls| && calls[j].call.CloseCall?;
      if j != i { assert after[if j < i then j else j - 1].call.CloseCall?; }
    }
    if CloseToCome(tasks + Queues(calls[i].call), after) && CloseTask !in tasks + Queues(calls[i].call) {
      var j :| 0 <= j < |after| && after[j].call.CloseCall?;
      assert calls[if j < i then j else j + 1].call.CloseCall?;
    }
  }

  lemma PopSafe(c: Conn, r: WriteResult)
    requires Safe(c) && c.tasks != [] && !c.state.Connecting?
    ensures Safe(RunTask(c, r)) && !RunTask(c, r).state.Connecting?
  {
    hide SendInLoop, Reopens;
    var rest := c.(tasks := c.tasks[1..]);
    assert c.tasks == [c.tasks[0]] + c.tasks[1..];
    match c.tasks[0]
    case SendTask(data) => SendSameEnds(rest, data, r);
    case _ =>
  }

  lemma StepSafe(c: Conn, e: Event)
    requires Safe(c) && Finishing(e) && Asserted(c, e) && !c.state.Connecting?
    ensures Safe(Next(c, e)) && !Next(c, e).state.Connecting?
  {
    hide RunTask, HandleWrite, Reopens, CloseToCome, Without, Push, Store, ForceClose;
    match e
    case OtherStores(i) => if MayStore(c, i) { StoreSafe(c, i); }
    case OtherOverwritten(i) => if MayStore(c, i) { CallsAfterStore(c.calls, i); }
    case OtherPushes(i) => if MayPush(c, i) { PushSafe(c, i); }
    case DelayEnds => if c.delayed > 0 { TimerSafe(c); }
    case Pop(r) => if c.tasks != [] { PopSafe(c, r); }
    case Writable(r) => WriteSameEnds(c, r); TasksToCome(c, HandleWrite(c, r));
    case _ =>
  }

  lemma TasksToCome(c: Conn, d: Conn)
    requires SameEnds(c, d)
    ensures CloseToCome(c.tasks, c.calls) ==> CloseToCome(d.tasks, d.calls)
  {
  }

  lemma StoreSafe(c: Conn, i: nat)
    requires Safe(c) && MayStore(c, i)
    ensures Safe(Store(c, i)) && !Store(c, i).state.Connecting?
  {
    assert StoresOnly(c.calls[i]) || c.calls[i].call.CloseCall?;
    CallsAfterStore(c.calls, i);
    hide Reopens, CloseToCome;
    assert CloseToCome(Store(c, i).tasks, Store(c, i).calls);
  }

  lemma PushSafe(c: Conn, i: nat)
    requires Safe(c) && MayPush(c, i)
    ensures Safe(Push(c, i)) && Push(c, i).state == c.state
  {
    hide Reopens, CloseToCome, Without;
    CallsAfterPush(c.calls, c.tasks, i);
  }

  lemma TimerSafe(c: Conn)
    requires Safe(c) && c.delayed > 0
    ensures
      var d := ForceClose(c.(delayed := c.delayed - 1));
      Safe(d) && (d.state.Connecting? ==> c.state.Connecting?)
  {
    hide Reopens;
    assert (c.tasks + [CloseTask])[|c.tasks|] == CloseTask;
  }

  lemma {:induction false} SafeEnds(c: Conn, rest: seq<Event>)
    requires Safe(c) && AllFinishing(rest) && !c.state.Connecting?
    ensures Run(c, rest).Some? && Destructible(Run(c, rest).value) ==> Run(c, rest).value.state.Disconnected?
    decreases |rest|
  {
    hide Next, Reopens;
    if rest != [] && Asserted(c, rest[0]) {
      StepSafe(c, rest[0]);
      assert forall i :: 0 <= i < |rest[1..]| ==> rest[1..][i] == rest[i + 1];
      SafeEnds(Next(c, rest[0]), rest[1..]);
    }
  }

  // ---------- others have a way to end otherwise ----------

  /** How many functors can still run; a send may queue one more. */
  function Weight(tasks: seq<Task>): nat {
    if tasks == [] then 0 else (if tasks[0].SendTask? then 2 else 1) + Weight(tasks[1..])
  }

  lemma {:induction false} WeightMore(tasks: seq<Task>, t: Task)
    ensures Weight(tasks + [t]) == Weight(tasks) + (if t.SendTask? then 2 else 1)
    decreases |tasks|
  {
    if tasks == [] {
      assert [] + [t] == [t] && [t][1..] == [];
    } else {
      assert (tasks + [t])[1..] == tasks[1..] + [t];
      WeightMore(tasks[1..], t);
    }
  }

  const BLOCKED := WriteError(WouldBlock)

  /** A way to finish, from c to d. */
  ghost predicate Leads(c: Conn, rest: seq<Event>, d: Conn) {
    AllFinishing(rest) && Run(c, rest) == Some(d)
  }

  lemma LeadsNext(c: Conn, e: Event)
    requires Finishing(e) && Asserted(c, e)
    ensures Leads(c, [e], Next(c, e))
  {
    Single(c, e);
  }

  lemma LeadsOn(c: Conn, a: seq<Event>, d: Conn, b: seq<Event>, e: Conn)
    requires Leads(c, a, d) && Leads(d, b, e)
    ensures Leads(c, a + b, e)
  {
    RunSplits(c, a, b);
  }

  /** A blocked socket, and no close to run: the functors run out and a closing connection stays so. */
  lemma PopLeaves(c: Conn)
    requires c.tasks != [] && CloseTask !in c.tasks
    ensures
      var d := RunTask(c, BLOCKED);
      && Weight(d.tasks) < Weight(c.tasks) && CloseTask !in d.tasks
      && d.calls == c.calls && d.disowned == c.disowned
      && (c.state.Disconnecting? ==> d.state.Disconnecting?)
  {
    hide SendInLoop;
    var rest := c.(tasks := c.tasks[1..]);
    assert c.tasks == [c.tasks[0]] + c.tasks[1..];
    match c.tasks[0]
    case SendTask(data) => BlockedSend(rest, data);
    case _ =>
  }

  lemma BlockedSend(c: Conn, data: seq<Byte>)
    ensures SameEnds(c, SendInLoop(c, data, BLOCKED))
    ensures Weight(SendInLoop(c, data, BLOCKED).tasks) <= Weight(c.tasks) + 1
  {
    hide Keep;
    KeepSameEnds(c.(accepted := c.accepted + data), data);
  }

  lemma {:induction false} Drain(c: Conn) returns (rest: seq<Event>, d: Conn)
    ensures Leads(c, rest, d)
    ensures d.tasks == [] && d.calls == c.calls && d.disowned == c.disowned
    ensures c.state.Disconnecting? && CloseTask !in c.tasks ==> d.state.Disconnecting?
    decreases Weight(c.tasks)
  {
    hide RunTask;
    if c.tasks == [] {
      NoEvents(c);
      rest, d := [], c;
    } else {
      LeadsNext(c, Pop(BLOCKED));
      var next := RunTask(c, BLOCKED);
      PopAny(c);
      if CloseTask !in c.tasks { PopLeaves(c); }
      rest, d := Drain(next);
      LeadsOn(c, [Pop(BLOCKED)], next, rest, d);
      rest := [Pop(BLOCKED)] + rest;
    }
  }

  lemma PopAny(c: Conn)
    requires c.tasks != []
    ensures
      var d := RunTask(c, BLOCKED);
      Weight(d.tasks) < Weight(c.tasks) && d.calls == c.calls && d.disowned == c.disowned
  {
    hide SendInLoop;
    if c.tasks[0].SendTask? { BlockedSend(c.(tasks := c.tasks[1..]), c.tasks[0].data); }
  }

  lemma StoreThenPush(c: Conn, i: nat)
    requires MayStore(c, i)
    ensures MayPush(Store(c, i), i)
    ensures
      var d := Push(Store(c, i), i);
      && d.calls == Without(c.calls, i) && d.disowned == c.disowned && d.state.Disconnecting?
      && d.tasks == c.tasks + Queues(c.calls[i].call)
  {
    WithoutIgnores(c.calls, i, Stored(c.calls[i].call));
    StoreFields(c, i);
    hide Without, Store;
  }

  lemma StoreFields(c: Conn, i: nat)
    requires MayStore(c, i)
    ensures
      var d := Store(c, i);
      && d.calls == c.calls[i := Stored(c.calls[i].call)] && d.tasks == c.tasks
      && d.disowned == c.disowned && d.state.Disconnecting?
  {
  }

  lemma WithoutIgnores(calls: seq<Progress>, i: nat, p: Progress)
    requires i < |calls|
    ensures Without(calls[i := p], i) == Without(calls, i)
  {
  }

  /** One thread goes through the rest of its call. */
  lemma FinishCall(c: Conn, i: nat) returns (rest: seq<Event>, d: Conn)
    requires i < |c.calls|
    ensures Leads(c, rest, d)
    ensures d.calls == Without(c.calls, i) && d.disowned == c.disowned
    ensures d.tasks == c.tasks + Queues(c.calls[i].call)
    ensures !MayStore(c, i) ==> d.state == c.state
    ensures MayStore(c, i) ==> d.state.Disconnecting?
  {
    hide Leads, Without;
    if MayStore(c, i) {
      StoreThenPush(c, i);
      hide Store, Push;
      LeadsNext(c, OtherStores(i));
      var stored := Store(c, i);
      LeadsNext(stored, OtherPushes(i));
      d := Push(stored, i);
      LeadsOn(c, [OtherStores(i)], stored, [OtherPushes(i)], d);
      rest := [OtherStores(i)] + [OtherPushes(i)];
    } else {
      LeadsNext(c, OtherPushes(i));
      rest, d := [OtherPushes(i)], Push(c, i);
    }
  }

  /** All threads but one finish. */
  lemma {:induction false} FinishOthers(c: Conn, i: nat) returns (rest: seq<Event>, d: Conn)
    requires i < |c.calls|
    ensures Leads(c, rest, d) && d.calls == [c.calls[i]] && d.disowned == c.disowned
    decreases |c.calls|
  {
    if |c.calls| == 1 {
      NoEvents(c);
      rest, d := [], c;
    } else {
      var j := if i == 0 then 1 else 0;
      var a, next := FinishCall(c, j);
      var b;
      b, d := FinishOthers(next, if j < i then i - 1 else i);
      LeadsOn(c, a, next, b, d);
      rest := a + b;
    }
  }

  /** All threads finish; without a close among them, a closing connection stays so. */
  lemma {:induction false} FinishAll(c: Conn) returns (rest: seq<Event>, d: Conn)
    requires c.state.Disconnecting? && !CloseToCome(c.tasks, c.calls)
    ensures Leads(c, rest, d) && d.calls == [] && d.disowned == c.disowned
    ensures d.state.Disconnecting? && CloseTask !in d.tasks
    decreases |c.calls|
  {
    if c.calls == [] {
      NoEvents(c);
      rest, d := [], c;
    } else {
      var a, next := FinishCall(c, 0);
      CallsAfterPush(c.calls, c.tasks, 0);
      var b;
      b, d := FinishAll(next);
      LeadsOn(c, a, next, b, d);
      rest := a + b;
    }
  }

  /** The last thread stores kDisconnecting after everything else is over. */
  lemma StoresLast(c: Conn, i: nat) returns (rest: seq<Event>, d: Conn)
    requires c.disowned && i < |c.calls| && StoresOnly(c.calls[i])
    ensures Leads(c, rest, d) && Destructible(d) && d.state.Disconnecting?
  {
    var c1, c2, c3, a, b;
    rest, c1 := FinishOthers(c, i);
    a, c2 := Drain(c1);
    LeadsOn(c, rest, c1, a, c2);
    rest := rest + a;
    assert c2.calls[0] == c.calls[i];
    a, c3 := FinishCall(c2, 0);
    LeadsOn(c, rest, c2, a, c3);
    rest := rest + a;
    b, d := Drain(c3);
    LeadsOn(c, rest, c3, b, d);
    rest := rest + b;
  }

  lemma UnsafeEnds(c: Conn) returns (rest: seq<Event>, d: Conn)
    requires Good(c) && c.disowned && !Safe(c)
    ensures Leads(c, rest, d) && Destructible(d) && !d.state.Disconnected?
  {
    if Reopens(c.calls) {
      var i :| 0 <= i < |c.calls| && StoresOnly(c.calls[i]);
      rest, d := StoresLast(c, i);
    } else {
      assert Owned(c.state, c.disowned, c.tasks);
      hide Good;
      var c1, a;
      rest, c1 := FinishAll(c);
      a, d := Drain(c1);
      LeadsOn(c, rest, c1, a, d);
      rest := rest + a;
    }
  }

  /**
   From any moment of any run at which the owner has let go and nobody calls any more, the assert of the
   destructor is sure to hold exactly when no thread is still to store kDisconnecting without queueing a
   close, and the connection is disconnected, has a close to come, or is connected with its
   `connectDestroyed` to run.
   */
  lemma DestructorHoldsExactly(c: Conn, settings: Settings, events: seq<Event>)
    requires Reachable(c, settings, events) && c.disowned
    ensures EndsDisconnected(c) <==> Safe(c)
  {
    ReachableIsGood(c, settings, events);
    assert Owned(c.state, c.disowned, c.tasks);
    hide Good, Run;
    if Safe(c) {
      forall rest | AllFinishing(rest) && Run(c, rest).Some? && Destructible(Run(c, rest).value)
        ensures Run(c, rest).value.state.Disconnected?
      {
        SafeEnds(c, rest);
      }
    } else {
      var rest, d := UnsafeEnds(c);
      assert Run(c, rest) == Some(d);
    }
  }

  /**
   As `connectDestroyed` is about to run and no thread is about to store: the assert of the destructor is
   sure to hold exactly when the connection is connected or disconnected, or a close is still to run.
   */
  lemma DestroyedExactly(c: Conn, settings: Settings, events: seq<Event>)
    requires Reachable(c, settings, events) && c.disowned && c.tasks != [] && c.tasks[0] == DestroyTask
    requires forall i :: 0 <= i < |c.calls| ==> !MayStore(c, i)
    ensures EndsDisconnected(c) <==> !c.state.Disconnecting? || CloseToCome(c.tasks, c.calls)
  {
    ReachableIsGood(c, settings, events);
    assert Owned(c.state, c.disowned, c.tasks);
    hide Good, EndsDisconnected;
    DestructorHoldsExactly(c, settings, events);
    assert forall i :: 0 <= i < |c.calls| && StoresOnly(c.calls[i]) ==> MayStore(c, i);
  }

  /** A run in which it fails: a connection that is shutting down when its server is destroyed. */
  lemma DestructorFails() returns (events: seq<Event>)
    ensures Run(Fresh(PLAIN), events).Some?
    ensures Destructible(Run(Fresh(PLAIN), events).value) && !Run(Fresh(PLAIN), events).value.state.Disconnected?
  {
    events := [Establish] + ([CallShutdown] + ([Disowns(true)] + ([Pop(BLOCKED)] + [])));
    var c1 := ConnectEstablished(Fresh(PLAIN));
    FirstEvent(Fresh(PLAIN), Establish, [CallShutdown] + ([Disowns(true)] + ([Pop(BLOCKED)] + [])));
    var c2 := Shutdown(c1);
    FirstEvent(c1, CallShutdown, [Disowns(true)] + ([Pop(BLOCKED)] + []));
    var c3 := c2.(disowned := true, tasks := [DestroyTask]);
    FirstEvent(c2, Disowns(true), [Pop(BLOCKED)] + []);
    FirstEvent(c3, Pop(BLOCKED), []);
    NoEvents(RunTask(c3, BLOCKED));
  }
}
