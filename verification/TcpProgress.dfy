/**
 What a connection gets done, over every run: it reads exactly when it has been told to, it writes what
 the socket takes, it calls back when it is drained, and it does not forget a close.
 */
module TcpProgress {
  import opened Basics
  import opened Endian
  import opened TcpConnections
  import opened TcpRuns
  import opened TcpLifetimes

  // ---------- reading ----------

  /** By the events alone: the last of establishing, starting and stopping to read was not the stop. */
  function Listening(events: seq<Event>, before: bool): bool
    decreases |events|
  {
    if events == [] then before
    else
      Listening(events[1..],
                match events[0]
                case Establish => true
                case StartRead => true
                case StopRead => false
                case _ => before)
  }

  lemma TurnsReading(c: Conn, e: Event)
    requires Asserted(c, e) && (e.Establish? || e.StartRead? || e.StopRead?) && Next(c, e).state.Connected?
    ensures e.Establish? || c.state.Connected?
    ensures Next(c, e).readInterest <==> !e.StopRead?
  {
  }

  lemma TestListens(c: Conn, call: Call)
    ensures Test(c, call).state == c.state && Test(c, call).readInterest == c.readInterest
  {
  }

  lemma StoreListens(c: Conn, i: nat)
    requires MayStore(c, i)
    ensures Store(c, i).state.Disconnecting? && Store(c, i).readInterest == c.readInterest
    ensures c.state.Disconnected? ==>
      Overwritten(c, i).state == c.state && Overwritten(c, i).readInterest == c.readInterest
  {
  }

  lemma PushListens(c: Conn, i: nat)
    requires MayPush(c, i)
    ensures Push(c, i).state == c.state && Push(c, i).readInterest == c.readInterest
  {
    hide Without;
  }

  lemma StepListens(c: Conn, e: Event)
    requires Asserted(c, e) && !e.Establish? && !e.StartRead? && !e.StopRead? && Next(c, e).state.Connected?
    ensures c.state.Connected? && Next(c, e).readInterest == c.readInterest
  {
    hide SendInLoop, HandleWrite, RunTask, Test, Store, Overwritten, Push, MayStore, MayPush, ShutdownInLoop;
    match e
    case CallSend(data, r) => SendLeavesCloses(c, data, r);
    case CallShutdown => ShutdownListens(c);
    case Pop(r) => if c.tasks != [] { PopListens(c, r); }
    case Writable(r) => WriteLeavesCloses(c, r);
    case OtherTests(call) => TestListens(c, call);
    case OtherStores(i) => if MayStore(c, i) { StoreListens(c, i); }
    case OtherOverwritten(i) => if MayStore(c, i) { StoreListens(c, i); }
    case OtherPushes(i) => if MayPush(c, i) { PushListens(c, i); }
    case _ =>
  }

  lemma ShutdownListens(c: Conn)
    ensures Shutdown(c).state == (if c.state.Connected? then Disconnecting else c.state)
    ensures Shutdown(c).readInterest == c.readInterest
  {
  }

  lemma PopListens(c: Conn, r: WriteResult)
    requires c.tasks != [] && RunTask(c, r).state.Connected?
    ensures c.state.Connected? && RunTask(c, r).readInterest == c.readInterest
  {
    hide SendInLoop;
    var rest := c.(tasks := c.tasks[1..]);
    match c.tasks[0]
    case SendTask(data) => SendLeavesCloses(rest, data, r);
    case _ =>
  }

  lemma {:induction false} ListeningFrom(c: Conn, events: seq<Event>, before: bool)
    requires c.state.Connected? ==> c.readInterest == before
    ensures
      var end := Run(c, events);
      end.Some? && end.value.state.Connected? ==> end.value.readInterest == Listening(events, before)
    decreases |events|
  {
    hide Next;
    if events != [] && Asserted(c, events[0]) {
      var d := Next(c, events[0]);
      if d.state.Connected? {
        if events[0].Establish? || events[0].StartRead? || events[0].StopRead? {
          TurnsReading(c, events[0]);
        } else {
          StepListens(c, events[0]);
        }
      }
      var now := match events[0]
        case Establish => true
        case StartRead => true
        case StopRead => false
        case _ => before;
      ListeningFrom(d, events[1..], now);
    }
  }

  /** A connected connection has read interest exactly when it has not been told to stop reading since. */
  lemma ReadsExactly(c: Conn, settings: Settings, events: seq<Event>)
    requires Reachable(c, settings, events) && c.state.Connected?
    ensures c.readInterest <==> Listening(events, false)
  {
    ListeningFrom(Fresh(settings), events, false);
  }

  /** So what arrives on it is read, and the end of the stream is noticed, exactly then. */
  lemma InputIsRead(c: Conn, settings: Settings, events: seq<Event>, ready: Ready, readEnds: bool, r: WriteResult)
    requires Reachable(c, settings, events) && c.state.Connected?
    ensures ReadEnds in Callbacks(c, ready, readEnds, r) <==>
      readEnds && (ready.input || ready.priority) && Listening(events, false)
  {
    ReadsExactly(c, settings, events);
    var input, priority := ready.input && c.readInterest, ready.priority && c.readInterest;
    var hang: seq<Event> := if ready.hup && !input then [Hangup] else [];
    var read: seq<Event> := if (input || priority) && readEnds then [ReadEnds] else [];
    var write: seq<Event> := if ready.output && c.writeInterest then [Writable(r)] else [];
    assert ReadEnds !in hang && ReadEnds !in write;
    assert ReadEnds in hang + read + write <==> ReadEnds in read;
  }

  /** A connection that is shutting down goes on reading as before; one that has been closed does not. */
  lemma HalfClosedStillReads(c: Conn, e: Event)
    requires Good(c) && Asserted(c, e) && !e.StartRead? && !e.StopRead? && !e.Establish?
    ensures Next(c, e).readInterest == (c.readInterest && Next(c, e).closes == c.closes)
  {
    hide SendInLoop, HandleWrite, RunTask, InOrder, Armed, Ended, Closing, Entered, Owned;
    match e
    case CallSend(data, r) => SendLeavesCloses(c, data, r);
    case Pop(r) => if c.tasks != [] { PopStillReads(c, r); }
    case Writable(r) => WriteLeavesCloses(c, r);
    case _ =>
  }

  lemma PopStillReads(c: Conn, r: WriteResult)
    requires c.tasks != []
    ensures RunTask(c, r).readInterest == (c.readInterest && RunTask(c, r).closes == c.closes)
  {
    hide SendInLoop;
    var rest := c.(tasks := c.tasks[1..]);
    match c.tasks[0]
    case SendTask(data) => SendLeavesCloses(rest, data, r);
    case _ =>
  }

  // ---------- writing ----------

  /** A write event moves exactly the octets that the socket takes from the queue to the wire. */
  lemma WritesWhatIsTaken(c: Conn, n: nat)
    requires Good(c) && c.writeInterest && c.fin.None? && n <= |c.out|
    ensures
      var d := HandleWrite(c, Wrote(n));
      d.wire == c.wire + c.out[..n] && d.out == c.out[n..] && d.accepted == c.accepted
  {
    hide Good;
    if n == 0 {
      assert c.wire + c.out[..0] == c.wire && c.out[0..] == c.out;
    } else if n == |c.out| {
      DrainedWritesNothing(c.(wire := c.wire + c.out[..n], out := c.out[n..]));
    }
  }

  lemma DrainedWritesNothing(c: Conn)
    ensures Drained(c).wire == c.wire && Drained(c).out == c.out && Drained(c).accepted == c.accepted
  {
  }

  function Writes(n: nat, r: WriteResult): (events: seq<Event>)
    ensures |events| == n
  {
    if n == 0 then [] else [Writable(r)] + Writes(n - 1, r)
  }

  /** As long as the socket takes one octet at a time, a connection that waits to write drains its queue. */
  lemma {:induction false} Drains(c: Conn) returns (d: Conn)
    requires Good(c) && !c.state.Disconnected? && c.writeInterest && c.fin.None?
    ensures Run(c, Writes(|c.out|, Wrote(1))) == Some(d)
    ensures d.out == [] && d.wire == d.accepted == c.accepted && !d.writeInterest
    ensures c.state.Disconnecting? ==> d.fin.Some? && d.fin.value.wire == c.accepted
    decreases |c.out|
  {
    hide Run, HandleWrite;
    var next := HandleWrite(c, Wrote(1));
    HandleWriteKeeps(c, Wrote(1));
    WaitsOverUnsent(c);
    WritesWhatIsTaken(c, 1);
    WritesOn(c);
    FirstEvent(c, Writable(Wrote(1)), Writes(|c.out| - 1, Wrote(1)));
    if |c.out| == 1 {
      d := next;
      NoEvents(d);
      DrainEnds(c);
    } else {
      d := Drains(next);
    }
  }

  lemma WaitsOverUnsent(c: Conn)
    requires Good(c) && !c.state.Disconnected? && c.writeInterest
    ensures c.out != []
  {
  }

  lemma WritesOn(c: Conn)
    requires Good(c) && c.writeInterest && c.fin.None? && c.out != []
    ensures
      var d := HandleWrite(c, Wrote(1));
      && d.state == c.state && (|c.out| > 1 ==> d.writeInterest && d.fin.None?)
  {
    WriteLeavesCloses(c, Wrote(1));
  }

  lemma DrainEnds(c: Conn)
    requires Good(c) && !c.state.Disconnected? && c.writeInterest && c.fin.None? && |c.out| == 1
    ensures
      var d := HandleWrite(c, Wrote(1));
      && !d.writeInterest && d.wire == d.accepted == c.accepted
      && (c.state.Disconnecting? ==> d.fin.Some? && d.fin.value.wire == c.accepted)
  {
    assert c.out[..1] == c.out;
  }

  /** An idle connection hands a message to the socket at once, and keeps exactly what it does not take. */
  lemma SendsAtOnce(c: Conn, data: seq<Byte>, n: nat)
    requires c.state.Connected? && !c.writeInterest && c.out == [] && c.fin.None? && n <= |data|
    ensures
      var d := Send(c, data, Wrote(n));
      && d.wire == c.wire + data[..n] && d.out == data[n..] && d.accepted == c.accepted + data
      && (d.writeInterest <==> n < |data|)
  {
    assert [] + data[n..] == data[n..];
  }

  // ---------- callbacks of the user ----------

  /** A write event queues the write-complete callback exactly when it empties the queue. */
  lemma WriteCompleteExactly(c: Conn, r: WriteResult)
    requires Good(c)
    ensures
      var d := HandleWrite(c, r);
      d.tasks ==
        if c.settings.hasWriteComplete && c.out != [] && d.out == [] then c.tasks + [WriteCompleteTask] else c.tasks
  {
  }

  /** A send queues it exactly when the socket takes the whole message at once. */
  lemma SendCompleteExactly(c: Conn, data: seq<Byte>, r: WriteResult)
    requires Good(c)
    ensures
      var d := SendInLoop(c, data, r);
      d.tasks == c.tasks + [WriteCompleteTask] <==>
        && c.settings.hasWriteComplete && !c.state.Disconnected? && c.out == [] && !c.writeInterest
        && d.wire == c.wire + data && Kernel(c.fin.Some?, |data|, r).Wrote?
  {
    hide Good, Keep;
    var k := Kernel(c.fin.Some?, |data|, r);
    LastTask(c.tasks, WriteCompleteTask, HighWaterTask(|SendInLoop(c, data, r).out|));
    KeepCrosses(c.(accepted := c.accepted + data), data);
    KeepCrosses(Offered(c, data, k), Untaken(data, k));
    if k.Wrote? { TakenWhole(c.wire, data, k.n); }
  }

  lemma TakenWhole(wire: seq<Byte>, data: seq<Byte>, n: nat)
    requires n <= |data|
    ensures wire + data[..n] == wire + data <==> n == |data|
  {
    if n == |data| {
      assert data[..n] == data;
    } else {
      assert |wire + data[..n]| < |wire + data|;
    }
  }

  // ---------- closing ----------

  predicate Closes(call: Call) { call.CloseCall? || call.DelayCall? }

  /** Another thread is inside forceClose or forceCloseWithDelay. */
  predicate CloserInside(calls: seq<Progress>) {
    exists i :: 0 <= i < |calls| && Closes(calls[i].call)
  }

  predicate CloseAhead(tasks: seq<Task>, delayed: nat, calls: seq<Progress>) {
    CloseTask in tasks || delayed > 0 || CloserInside(calls)
  }

  /** Since there were n closes, one more has come, or is still to come. */
  predicate OneMoreClose(c: Conn, n: nat) {
    c.closes > n || (c.closes == n && Live(c.state) && CloseAhead(c.tasks, c.delayed, c.calls))
  }

  lemma CloserStores(calls: seq<Progress>, i: nat)
    requires i < |calls| && CloserInside(calls)
    ensures CloserInside(calls[i := Stored(calls[i].call)])
  {
    var j :| 0 <= j < |calls| && Closes(calls[j].call);
    assert Closes(calls[i := Stored(calls[i].call)][j].call);
  }

  lemma CloserTests(calls: seq<Progress>, call: Call)
    requires CloserInside(calls)
    ensures CloserInside(calls + [Tested(call)])
  {
    var j :| 0 <= j < |calls| && Closes(calls[j].call);
    assert Closes((calls + [Tested(call)])[j].call);
  }

  lemma CloserPushes(tasks: seq<Task>, delayed: nat, calls: seq<Progress>, i: nat)
    requires i < |calls| && CloseAhead(tasks, delayed, calls)
    ensures CloseAhead(tasks + Queues(calls[i].call), if calls[i].call.DelayCall? then delayed + 1 else delayed,
                       Without(calls, i))
  {
    if CloseTask !in tasks && delayed == 0 {
      var j :| 0 <= j < |calls| && Closes(calls[j].call);
      var rest := Without(calls, i);
      if j != i {
        assert Closes(rest[if j < i then j else j - 1].call);
      } else if calls[i].call.CloseCall? {
        assert (tasks + [CloseTask])[|tasks|] == CloseTask;
      }
    }
  }

  lemma PopCloses(c: Conn, r: WriteResult, n: nat)
    requires OneMoreClose(c, n) && c.tasks != []
    ensures OneMoreClose(RunTask(c, r), n)
  {
    hide SendInLoop, CloserInside;
    var rest := c.(tasks := c.tasks[1..]);
    assert c.tasks == [c.tasks[0]] + c.tasks[1..];
    match c.tasks[0]
    case SendTask(data) =>
      SendLeavesCloses(rest, data, r);
      SendSameEnds(rest, data, r);
    case _ =>
  }

  lemma TestCloses(c: Conn, call: Call, n: nat)
    requires OneMoreClose(c, n)
    ensures OneMoreClose(Test(c, call), n)
  {
    hide CloserInside;
    if CloserInside(c.calls) { CloserTests(c.calls, call); }
  }

  lemma StoreCloses(c: Conn, i: nat, n: nat)
    requires OneMoreClose(c, n) && MayStore(c, i)
    ensures OneMoreClose(Store(c, i), n)
    ensures c.state.Disconnected? ==> OneMoreClose(Overwritten(c, i), n)
  {
    hide CloserInside;
    if CloserInside(c.calls) { CloserStores(c.calls, i); }
  }

  lemma PushCloses(c: Conn, i: nat, n: nat)
    requires OneMoreClose(c, n) && MayPush(c, i)
    ensures OneMoreClose(Push(c, i), n)
  {
    hide CloseAhead, Without;
    if CloseAhead(c.tasks, c.delayed, c.calls) { CloserPushes(c.tasks, c.delayed, c.calls, i); }
  }

  lemma StepCloses(c: Conn, e: Event, n: nat)
    requires OneMoreClose(c, n) && Asserted(c, e)
    ensures OneMoreClose(Next(c, e), n)
  {
    hide SendInLoop, HandleWrite, RunTask, CloserInside, Test, Store, Overwritten, Push;
    match e
    case CallSend(data, r) => SendLeavesCloses(c, data, r); SendSameEnds(c, data, r);
    case Pop(r) => if c.tasks != [] { PopCloses(c, r, n); }
    case Writable(r) => WriteLeavesCloses(c, r); WriteSameEnds(c, r);
    case OtherTests(call) => TestCloses(c, call, n);
    case OtherStores(i) => if MayStore(c, i) { StoreCloses(c, i, n); }
    case OtherOverwritten(i) => if MayStore(c, i) { StoreCloses(c, i, n); }
    case OtherPushes(i) => if MayPush(c, i) { PushCloses(c, i, n); }
    case DelayEnds => assert CloseTask in c.tasks + [CloseTask];
    case _ =>
  }

  lemma {:induction false} RunCloses(c: Conn, events: seq<Event>, n: nat)
    requires OneMoreClose(c, n)
    ensures Run(c, events).Some? ==> OneMoreClose(Run(c, events).value, n)
    decreases |events|
  {
    hide OneMoreClose, Next;
    if events != [] && Asserted(c, events[0]) {
      StepCloses(c, events[0], n);
      RunCloses(Next(c, events[0]), events[1..], n);
    }
  }

  /**
   A close is not forgotten: once user code of the loop has asked a live connection to close, at once or
   later, or another thread is past its test of doing so, the connection is closed by the time that no
   close is queued, no delay is left and no such thread is inside.
   */
  lemma CloseIsNotForgotten(c: Conn, e: Event, events: seq<Event>)
    requires Good(c) && Live(c.state)
    requires e.CallForceClose? || e.CallForceCloseWithDelay? || (e.OtherTests? && Closes(e.call))
    ensures
      var end := Run(c, [e] + events);
      end.Some? && !CloseAhead(end.value.tasks, end.value.delayed, end.value.calls) ==>
        end.value.closes > c.closes && (end.value.late == 0 ==> end.value.state.Disconnected?)
  {
    hide Good, Run;
    FirstEvent(c, e, events);
    AsksToClose(c, e);
    StepKeeps(c, e);
    RunCloses(Next(c, e), events, c.closes);
    RunKeeps(Next(c, e), events);
    if Run(c, [e] + events).Some? { ClosedIsDisconnected(Run(c, [e] + events).value); }
  }

  lemma ClosedIsDisconnected(c: Conn)
    requires Good(c)
    ensures c.closes > 0 && c.late == 0 ==> c.state.Disconnected?
  {
  }

  lemma AsksToClose(c: Conn, e: Event)
    requires Live(c.state)
    requires e.CallForceClose? || e.CallForceCloseWithDelay? || (e.OtherTests? && Closes(e.call))
    ensures OneMoreClose(Next(c, e), c.closes)
  {
    assert CloseTask in c.tasks + [CloseTask];
    if e.OtherTests? { assert Closes((c.calls + [Tested(e.call)])[|c.calls|].call); }
  }

  /**
   A call does nothing in a state it is not for: a send or a shutdown unless the connection is connected, a close
   unless it is connected or closing; from another thread it then ends at its test.
   */
  lemma CallsOutOfStateIgnored(c: Conn, call: Call, r: WriteResult)
    requires if call.SendCall? || call.ShutdownCall? then !c.state.Connected? else !Live(c.state)
    ensures Next(c, OtherTests(call)) == c
    ensures Next(c, match call
                    case SendCall(data) => CallSend(data, r)
                    case ShutdownCall => CallShutdown
                    case CloseCall => CallForceClose
                    case DelayCall => CallForceCloseWithDelay) == c
  {
  }

  // ---------- calls from another thread ----------

  lemma TestsMore(c: Conn, call: Call)
    requires Passes(c, call)
    ensures Next(c, OtherTests(call)) == c.(calls := c.calls + [Tested(call)])
  {
  }

  lemma StoresMore(c: Conn, calls: seq<Progress>, call: Call)
    requires c.calls == calls + [Tested(call)] && !call.SendCall? && !c.state.Disconnected?
    ensures Next(c, OtherStores(|calls|)) == c.(state := Disconnecting, calls := calls + [Stored(call)])
  {
    assert c.calls[|calls| := Stored(call)] == calls + [Stored(call)];
  }

  lemma PushesMore(c: Conn, calls: seq<Progress>, p: Progress)
    requires c.calls == calls + [p] && (p.Stored? || p.call.SendCall?)
    ensures Next(c, OtherPushes(|calls|)) ==
      c.(calls := calls, tasks := c.tasks + Queues(p.call),
         delayed := if p.call.DelayCall? then c.delayed + 1 else c.delayed)
  {
    assert Without(c.calls, |calls|) == calls;
  }

  /** The actions of a thread that nothing comes between. */
  function Alone(c: Conn, call: Call): seq<Event> {
    if call.SendCall? then [OtherTests(call)] + ([OtherPushes(|c.calls|)] + [])
    else [OtherTests(call)] + ([OtherStores(|c.calls|)] + ([OtherPushes(|c.calls|)] + []))
  }

  /**
   A call from another thread that nothing comes between does what the call in the loop does, with what
   remains of it queued as a functor.
   */
  lemma OutsideLikeInside(c: Conn, call: Call)
    requires if call.SendCall? || call.ShutdownCall? then c.state.Connected? else Live(c.state)
    ensures Run(c, Alone(c, call)) == Some(
      match call
      case SendCall(data) => c.(tasks := c.tasks + [SendTask(data)])
      case ShutdownCall => c.(state := Disconnecting, tasks := c.tasks + [ShutdownTask])
      case CloseCall => c.(state := Disconnecting, tasks := c.tasks + [CloseTask])
      case DelayCall => c.(state := Disconnecting, delayed := c.delayed + 1))
  {
    hide Run, Next;
    var n := |c.calls|;
    var c1 := c.(calls := c.calls + [Tested(call)]);
    TestsMore(c, call);
    assert c.tasks + [] == c.tasks;
    if call.SendCall? {
      FirstEvent(c, OtherTests(call), [OtherPushes(n)] + []);
      FirstEvent(c1, OtherPushes(n), []);
      PushesMore(c1, c.calls, Tested(call));
      NoEvents(Next(c1, OtherPushes(n)));
    } else {
      var c2 := c1.(state := Disconnecting, calls := c.calls + [Stored(call)]);
      FirstEvent(c, OtherTests(call), [OtherStores(n)] + ([OtherPushes(n)] + []));
      FirstEvent(c1, OtherStores(n), [OtherPushes(n)] + []);
      StoresMore(c1, c.calls, call);
      FirstEvent(c2, OtherPushes(n), []);
      PushesMore(c2, c.calls, Stored(call));
      NoEvents(Next(c2, OtherPushes(n)));
    }
  }

  /** Then the functor finishes the call, if nothing was queued before it. */
  lemma FunctorFinishes(c: Conn, call: Call, r: WriteResult)
    requires c.state.Connected? && c.tasks == [] && (call.SendCall? || call.ShutdownCall?)
    ensures Run(c, Alone(c, call) + [Pop(r)]) ==
      Some(if call.SendCall? then Send(c, call.data, r) else Shutdown(c))
  {
    hide Run, SendInLoop, ShutdownInLoop;
    OutsideLikeInside(c, call);
    RunSplits(c, Alone(c, call), [Pop(r)]);
    var task := if call.SendCall? then SendTask(call.data) else ShutdownTask;
    assert [] + [task] == [task] && [task][1..] == [];
    Single(Run(c, Alone(c, call)).value, Pop(r));
  }
}
