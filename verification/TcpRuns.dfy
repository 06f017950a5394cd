/** The theorems about every run of a connection: delivery, half-close, callbacks and closes. */
module TcpRuns {
  import opened Basics
  import opened Endian
  import opened TcpConnections

  ghost predicate Reachable(c: Conn, settings: Settings, events: seq<Event>) {
    Run(Fresh(settings), events) == Some(c)
  }

  lemma FreshIsGood(settings: Settings)
    ensures Good(Fresh(settings))
  {
  }

  lemma ReachableIsGood(c: Conn, settings: Settings, events: seq<Event>)
    requires Reachable(c, settings, events)
    ensures Good(c)
  {
    FreshIsGood(settings);
    hide Good;
    RunKeeps(Fresh(settings), events);
  }

  // ---------- delivery ----------

  /**
   What the peer can read, followed by what waits, is exactly the accepted messages in order.  Write
   interest is on exactly when something waits, exactly unless a late store stranded it.
   */
  lemma DeliveredInOrder(c: Conn, settings: Settings, events: seq<Event>)
    requires Reachable(c, settings, events)
    ensures c.wire + c.out == c.accepted
    ensures !c.state.Disconnected? ==> ((c.writeInterest <==> c.out != []) <==> !c.stranded)
    ensures c.late == 0 ==> !c.stranded
    ensures c.state.Disconnected? ==> !c.writeInterest && !c.readInterest && !c.registered
  {
    ReachableIsGood(c, settings, events);
  }

  /** A message is given up exactly on a closed connection or on a broken pipe or reset of its own write. */
  lemma GivenUpExactly(c: Conn, data: seq<Byte>, r: WriteResult)
    ensures
      var gone := c.state.Disconnected? || (!c.writeInterest && c.out == [] && Fault(Kernel(c.fin.Some?, |data|, r)));
      && SendInLoop(c, data, r).accepted == (if gone then c.accepted else c.accepted + data)
      && (gone ==> SendInLoop(c, data, r) == c)
  {
    hide Keep, HighWater;
    var k := Kernel(c.fin.Some?, |data|, r);
    KeepCrosses(c.(accepted := c.accepted + data), data);
    KeepCrosses(Offered(c, data, k), Untaken(data, k));
  }

  // ---------- late stores ----------

  /** A store of kDisconnecting by another thread that lands on a connection closed since its test. */
  predicate StoresLate(c: Conn, e: Event) {
    e.OtherStores? && MayStore(c, e.i) && c.state.Disconnected?
  }

  ghost predicate NeverLate(c: Conn, events: seq<Event>)
    decreases |events|
  {
    events != [] && Asserted(c, events[0]) ==> !StoresLate(c, events[0]) && NeverLate(Next(c, events[0]), events[1..])
  }

  /** At every moment of the run, a connection that has been closed is disconnected. */
  ghost predicate ClosedForGood(c: Conn, events: seq<Event>)
    decreases |events|
  {
    && (c.closes > 0 ==> c.state.Disconnected?)
    && (events != [] && Asserted(c, events[0]) ==> ClosedForGood(Next(c, events[0]), events[1..]))
  }

  ghost predicate NeverLateOverUnsent(c: Conn, events: seq<Event>)
    decreases |events|
  {
    events != [] && Asserted(c, events[0]) ==>
      !(StoresLate(c, events[0]) && c.out != []) && NeverLateOverUnsent(Next(c, events[0]), events[1..])
  }

  /** At every moment of the run, write interest is on exactly when something waits, unless disconnected. */
  ghost predicate AlwaysArmed(c: Conn, events: seq<Event>)
    decreases |events|
  {
    && (!c.state.Disconnected? ==> (c.writeInterest <==> c.out != []))
    && (events != [] && Asserted(c, events[0]) ==> AlwaysArmed(Next(c, events[0]), events[1..]))
  }

  /** The fields that only closes, the reading side and the actions of other threads change. */
  predicate SameCloses(c: Conn, d: Conn) {
    && d.state == c.state && d.closes == c.closes && d.late == c.late && (d.stranded ==> c.stranded)
    && d.readInterest == c.readInterest && d.reading == c.reading && d.delayed == c.delayed && d.calls == c.calls
  }

  lemma KeepLeavesCloses(c: Conn, rest: seq<Byte>)
    ensures SameCloses(c, Keep(c, rest))
  {
  }

  lemma DirectLeavesCloses(c: Conn, data: seq<Byte>, r: WriteResult)
    requires r.Wrote? ==> r.n <= |data|
    ensures SameCloses(c, SendDirectly(c, data, r))
  {
    hide Keep;
    KeepLeavesCloses(Offered(c, data, r), Untaken(data, r));
  }

  lemma SendLeavesCloses(c: Conn, data: seq<Byte>, r: WriteResult)
    ensures SameCloses(c, SendInLoop(c, data, r))
  {
    hide Keep, SendDirectly;
    DirectLeavesCloses(c, data, Kernel(c.fin.Some?, |data|, r));
    KeepLeavesCloses(c.(accepted := c.accepted + data), data);
  }

  lemma DrainedLeavesCloses(c: Conn)
    ensures SameCloses(c, Drained(c))
  {
  }

  lemma WriteLeavesCloses(c: Conn, r: WriteResult)
    ensures SameCloses(c, HandleWrite(c, r))
  {
    hide Kernel, Drained;
    var k := Kernel(c.fin.Some?, |c.out|, r);
    if k.Wrote? {
      DrainedLeavesCloses(c.(wire := c.wire + c.out[..k.n], out := c.out[k.n..]));
    }
  }

  lemma StepReopens(c: Conn, e: Event)
    requires Good(c) && Asserted(c, e) && (c.closes > 0 ==> c.state.Disconnected?)
    ensures
      var d := Next(c, e);
      (d.closes > 0 ==> d.state.Disconnected?) <==> !StoresLate(c, e)
  {
    hide InOrder, Armed, Quiet, Ended, Closing, Entered, Owned, SendInLoop, HandleWrite;
    match e
    case CallSend(data, r) => SendLeavesCloses(c, data, r);
    case Pop(r) => if c.tasks != [] { PopReopens(c, r); }
    case Writable(r) => WriteLeavesCloses(c, r);
    case _ =>
  }

  lemma PopReopens(c: Conn, r: WriteResult)
    requires c.tasks != []
    ensures (c.closes > 0 ==> c.state.Disconnected?) ==>
      var d := RunTask(c, r);
      d.closes > 0 ==> d.state.Disconnected?
    ensures RunTask(c, r).stranded ==> c.stranded
  {
    hide SendInLoop;
    var rest := c.(tasks := c.tasks[1..]);
    match c.tasks[0]
    case SendTask(data) => SendLeavesCloses(rest, data, r);
    case _ =>
  }

  lemma StepStrands(c: Conn, e: Event)
    requires Good(c) && Asserted(c, e) && !c.stranded
    ensures Next(c, e).stranded <==> StoresLate(c, e) && c.out != []
  {
    hide Good, SendInLoop, HandleWrite, RunTask;
    match e
    case CallSend(data, r) => SendLeavesCloses(c, data, r);
    case Pop(r) => if c.tasks != [] { PopReopens(c, r); }
    case Writable(r) => WriteLeavesCloses(c, r);
    case _ =>
  }

  lemma {:induction false} ReopenedFrom(c: Conn, events: seq<Event>)
    requires Good(c) && (c.closes > 0 ==> c.state.Disconnected?)
    ensures ClosedForGood(c, events) <==> NeverLate(c, events)
    decreases |events|
  {
    hide Good, Next, StoresLate;
    if events != [] && Asserted(c, events[0]) {
      StepKeeps(c, events[0]);
      StepReopens(c, events[0]);
      var d := Next(c, events[0]);
      if d.closes > 0 ==> d.state.Disconnected? { ReopenedFrom(d, events[1..]); }
    }
  }

  lemma {:induction false} StrandedFrom(c: Conn, events: seq<Event>)
    requires Good(c) && !c.stranded
    ensures AlwaysArmed(c, events) <==> NeverLateOverUnsent(c, events)
    decreases |events|
  {
    hide Good, Next, StoresLate;
    ArmedUnlessStranded(c);
    if events != [] && Asserted(c, events[0]) {
      var d := Next(c, events[0]);
      StepKeeps(c, events[0]);
      StepStrands(c, events[0]);
      ArmedUnlessStranded(d);
      if !d.stranded { StrandedFrom(d, events[1..]); }
    }
  }

  lemma ArmedUnlessStranded(c: Conn)
    requires Good(c)
    ensures (!c.state.Disconnected? ==> (c.writeInterest <==> c.out != [])) <==> !c.stranded
  {
  }

  /** A close is for good in a run exactly when no other thread's store lands after one. */
  lemma ClosedForGoodExactly(settings: Settings, events: seq<Event>)
    ensures ClosedForGood(Fresh(settings), events) <==> NeverLate(Fresh(settings), events)
  {
    FreshIsGood(settings);
    hide Good, Next;
    ReopenedFrom(Fresh(settings), events);
  }

  /**
   Write interest follows what waits all through a run exactly when no other thread's store lands
   after a close over unsent octets.
   */
  lemma AlwaysArmedExactly(settings: Settings, events: seq<Event>)
    ensures AlwaysArmed(Fresh(settings), events) <==> NeverLateOverUnsent(Fresh(settings), events)
  {
    FreshIsGood(settings);
    hide Good, Next;
    StrandedFrom(Fresh(settings), events);
  }

  // ---------- half-close ----------

  /**
   Nothing follows the half-close.  On a connection that was not disconnected it came when every
   accepted octet was on the wire, exactly unless a late store had stranded the rest.
   */
  lemma HalfCloseAfterDrain(c: Conn, settings: Settings, events: seq<Event>)
    requires Reachable(c, settings, events) && c.fin.Some?
    ensures c.wire == c.fin.value.wire
    ensures !c.fin.value.state.Disconnected? ==> (c.fin.value.accepted == c.wire <==> !c.fin.value.stranded)
    ensures c.fin.value.accepted == c.wire ==> c.accepted == c.wire && c.out == []
  {
    ReachableIsGood(c, settings, events);
    assert c.out == [] ==> c.wire + c.out == c.wire;
  }

  /** The write half is shut over unsent octets exactly when the connection was closed or stranded over them. */
  lemma CutExactly(c: Conn, settings: Settings, events: seq<Event>)
    requires Reachable(c, settings, events) && c.fin.None?
    ensures ShutdownInLoop(c).fin.Some? && c.out != [] <==> c.out != [] && (c.state.Disconnected? || c.stranded)
    ensures ShutdownInLoop(c).fin.Some? ==> (ShutdownInLoop(c).fin.value.wire == c.accepted <==> c.out == [])
  {
    ReachableIsGood(c, settings, events);
    assert c.out == [] ==> c.wire + c.out == c.wire;
    assert c.out != [] ==> |c.wire + c.out| > |c.wire|;
  }

  /** A shutdown is never forgotten: once nothing can end a closing connection any more, it has ended. */
  lemma ShutdownIsNotForgotten(c: Conn, settings: Settings, events: seq<Event>)
    requires Reachable(c, settings, events) && c.state.Disconnecting? && !c.writeInterest
    requires c.tasks == [] && c.delayed == 0 && c.calls == []
    ensures c.fin.Some? && c.fin.value.wire == c.wire
    ensures c.out == [] ==> c.fin.value.wire == c.accepted
  {
    ReachableIsGood(c, settings, events);
    assert c.out == [] ==> c.wire + c.out == c.wire;
  }

  // ---------- callbacks of the user ----------

  lemma KeepCrosses(c: Conn, rest: seq<Byte>)
    ensures
      var d := Keep(c, rest);
      && d.out == c.out + rest && d.wire == c.wire && d.accepted == c.accepted
      && (if c.settings.hasHighWater && |c.out| < c.settings.highWaterMark <= |d.out|
          then d.tasks == c.tasks + [HighWaterTask(|d.out|)]
          else d.tasks == c.tasks)
  {
  }

  lemma LastTask(tasks: seq<Task>, a: Task, b: Task)
    ensures tasks + [a] != tasks && (tasks + [a] == tasks + [b] ==> a == b)
  {
    assert (tasks + [a])[|tasks|] == a && (tasks + [b])[|tasks|] == b;
    assert |tasks + [a]| == |tasks| + 1;
  }

  /** The high-water callback is queued by the send that takes the queue from below the mark to it or above. */
  lemma HighWaterOnCrossing(c: Conn, data: seq<Byte>, r: WriteResult)
    ensures
      var d := SendInLoop(c, data, r);
      c.settings.hasHighWater && |c.out| < c.settings.highWaterMark <= |d.out| <==>
        d.tasks == c.tasks + [HighWaterTask(|d.out|)]
  {
    hide Keep;
    var k := Kernel(c.fin.Some?, |data|, r);
    LastTask(c.tasks, HighWaterTask(|SendInLoop(c, data, r).out|), WriteCompleteTask);
    KeepCrosses(c.(accepted := c.accepted + data), data);
    KeepCrosses(Offered(c, data, k), Untaken(data, k));
  }

  /** The write-complete callback is queued only when everything accepted is on the wire. */
  lemma WriteCompleteMeansDrained(c: Conn, r: WriteResult)
    requires Good(c) && HandleWrite(c, r).tasks != c.tasks
    ensures
      var d := HandleWrite(c, r);
      d.tasks == c.tasks + [WriteCompleteTask] && d.out == [] && d.wire == d.accepted
  {
  }

  lemma SendCompleteMeansDrained(c: Conn, data: seq<Byte>, r: WriteResult)
    requires Good(c) && SendInLoop(c, data, r).tasks == c.tasks + [WriteCompleteTask]
    ensures var d := SendInLoop(c, data, r); d.out == [] && d.wire == d.accepted
  {
    hide Keep;
    SendInLoopKeeps(c, data, r);
    var k := Kernel(c.fin.Some?, |data|, r);
    var d := SendInLoop(c, data, r);
    LastTask(c.tasks, WriteCompleteTask, HighWaterTask(|d.out|));
    KeepCrosses(c.(accepted := c.accepted + data), data);
    KeepCrosses(Offered(c, data, k), Untaken(data, k));
    assert InOrder(d.wire, d.out, d.accepted);
  }

  // ---------- runs that show it ----------

  lemma NoEvents(c: Conn)
    ensures Run(c, []) == Some(c)
  {
  }

  lemma FirstEvent(c: Conn, e: Event, events: seq<Event>)
    requires Asserted(c, e)
    ensures Run(c, [e] + events) == Run(Next(c, e), events)
  {
    assert ([e] + events)[1..] == events;
  }

  const PLAIN := Settings(false, false, 0)

  /** A connection with one message unsent. */
  function Unsent(): Conn {
    ConnectEstablished(Fresh(PLAIN)).(out := [7], accepted := [7], writeInterest := true)
  }

  lemma UnsentIsReached(events: seq<Event>)
    ensures Run(Fresh(PLAIN), [Establish] + ([CallSend([7], Wrote(0))] + events)) == Run(Unsent(), events)
  {
    var c := ConnectEstablished(Fresh(PLAIN));
    FirstEvent(Fresh(PLAIN), Establish, [CallSend([7], Wrote(0))] + events);
    FirstEvent(c, CallSend([7], Wrote(0)), events);
    var data: seq<Byte> := [7];
    assert data[..0] == [] && data[0..] == data && [] + data == data;
    assert Next(c, CallSend([7], Wrote(0))) == Unsent();
  }

  /** The actions of a single thread in a call. */
  lemma Tests(c: Conn, call: Call)
    requires c.calls == [] && Passes(c, call)
    ensures Next(c, OtherTests(call)) == c.(calls := [Tested(call)])
  {
    assert [] + [Tested(call)] == [Tested(call)];
  }

  lemma Stores(c: Conn, call: Call)
    requires c.calls == [Tested(call)] && !call.SendCall? && !c.state.Disconnected?
    ensures Next(c, OtherStores(0)) == c.(state := Disconnecting, calls := [Stored(call)])
  {
    assert [Tested(call)][0 := Stored(call)] == [Stored(call)];
  }

  lemma StoresAfterClose(c: Conn, call: Call)
    requires c.calls == [Tested(call)] && !call.SendCall? && c.state.Disconnected?
    ensures Next(c, OtherStores(0)) ==
      c.(state := Disconnecting, calls := [Stored(call)], late := c.late + 1, stranded := c.out != [])
  {
    assert [Tested(call)][0 := Stored(call)] == [Stored(call)];
  }

  lemma Pushes(c: Conn, call: Call)
    requires c.calls == [Stored(call)] && !call.DelayCall? && c.tasks == []
    ensures Next(c, OtherPushes(0)) == c.(calls := [], tasks := Queues(call))
  {
    assert Without([Stored(call)], 0) == [] && [] + Queues(call) == Queues(call);
  }

  /** A shutdown of another thread that is still queued when the peer hangs up cuts the message off. */
  lemma CutHappens() returns (events: seq<Event>)
    ensures Run(Fresh(PLAIN), events).Some?
    ensures Run(Fresh(PLAIN), events).value.fin == Some(Fin(Disconnected, false, [], [7]))
  {
    hide Next, Run;
    var end: seq<Event> := [Pop(Wrote(0))] + [];
    var hung, pushed := [Hangup] + end, [OtherPushes(0)] + ([Hangup] + end);
    var stored := [OtherStores(0)] + pushed;
    events := [Establish] + ([CallSend([7], Wrote(0))] + ([OtherTests(ShutdownCall)] + stored));
    UnsentIsReached([OtherTests(ShutdownCall)] + stored);
    var c := Unsent();
    FirstEvent(c, OtherTests(ShutdownCall), stored);
    Tests(c, ShutdownCall);
    var c1 := c.(calls := [Tested(ShutdownCall)]);
    FirstEvent(c1, OtherStores(0), pushed);
    Stores(c1, ShutdownCall);
    var c2 := c1.(state := Disconnecting, calls := [Stored(ShutdownCall)]);
    FirstEvent(c2, OtherPushes(0), hung);
    Pushes(c2, ShutdownCall);
    var c3 := c2.(calls := [], tasks := [ShutdownTask]);
    FirstEvent(c3, Hangup, end);
    Closes(c3);
    FirstEvent(HandleClose(c3), Pop(Wrote(0)), []);
    PopsShutdown(HandleClose(c3));
    NoEvents(ShutdownWrite(HandleClose(c3).(tasks := [])));
  }

  lemma Closes(c: Conn)
    requires Live(c.state)
    ensures Next(c, Hangup) == HandleClose(c)
  {
  }

  lemma PopsShutdown(c: Conn)
    requires c.tasks == [ShutdownTask] && !c.writeInterest
    ensures Next(c, Pop(Wrote(0))) == ShutdownWrite(c.(tasks := []))
  {
    assert [ShutdownTask][1..] == [];
  }

  lemma PopsClose(c: Conn)
    requires c.tasks == [CloseTask] && Live(c.state)
    ensures Next(c, Pop(Wrote(0))) == HandleClose(c.(tasks := []))
  {
    assert [CloseTask][1..] == [];
  }

  /** What follows when a thread has passed the test of its call, and the peer hangs up before it stores. */
  function Late(call: Call): Conn {
    HandleClose(Unsent()).(state := Disconnecting, tasks := Queues(call), late := 1, stranded := true)
  }

  lemma LateIsReached(call: Call, rest: seq<Event>) returns (events: seq<Event>)
    requires call.ShutdownCall? || call.CloseCall?
    ensures Run(Fresh(PLAIN), events) == Run(Late(call), rest)
  {
    hide Next, Run;
    var pushed, stored := [OtherPushes(0)] + rest, [OtherStores(0)] + ([OtherPushes(0)] + rest);
    var hung := [Hangup] + stored;
    events := [Establish] + ([CallSend([7], Wrote(0))] + ([OtherTests(call)] + hung));
    UnsentIsReached([OtherTests(call)] + hung);
    var c := Unsent();
    FirstEvent(c, OtherTests(call), hung);
    Tests(c, call);
    var c1 := c.(calls := [Tested(call)]);
    FirstEvent(c1, Hangup, stored);
    Closes(c1);
    var c2 := HandleClose(c1);
    FirstEvent(c2, OtherStores(0), pushed);
    StoresAfterClose(c2, call);
    var c3 := c2.(state := Disconnecting, calls := [Stored(call)], late := 1, stranded := true);
    FirstEvent(c3, OtherPushes(0), rest);
    Pushes(c3, call);
  }

  /** With shutdown, the write half is shut over the message in the state kDisconnecting. */
  lemma LateStoreCuts() returns (events: seq<Event>)
    ensures Run(Fresh(PLAIN), events).Some?
    ensures Run(Fresh(PLAIN), events).value.fin == Some(Fin(Disconnecting, true, [], [7]))
  {
    hide Next, Run;
    events := LateIsReached(ShutdownCall, [Pop(Wrote(0))] + []);
    FirstEvent(Late(ShutdownCall), Pop(Wrote(0)), []);
    PopsShutdown(Late(ShutdownCall));
    NoEvents(ShutdownWrite(Late(ShutdownCall).(tasks := [])));
  }

  /** With forceClose, the connection is closed twice, and the assert of `handleClose` holds both times. */
  lemma LateStoreClosesTwice() returns (events: seq<Event>)
    ensures Run(Fresh(PLAIN), events).Some? && Run(Fresh(PLAIN), events).value.closes == 2
  {
    hide Next, Run;
    events := LateIsReached(CloseCall, [Pop(Wrote(0))] + []);
    FirstEvent(Late(CloseCall), Pop(Wrote(0)), []);
    PopsClose(Late(CloseCall));
    NoEvents(HandleClose(Late(CloseCall).(tasks := [])));
  }

  // ---------- one poll event of the channel ----------

  /** What the kernel could report of the socket. */
  datatype Ready = Ready(hup: bool, input: bool, priority: bool, output: bool)

  /**
   The callbacks of `handleEventWithGuard`.  Of input, priority data and output only what the channel
   has registered is reported; input and priority data are registered together, and a hang-up is always
   reported.  `readEnds` tells whether the read would find the end of the stream.
   */
  function Callbacks(c: Conn, ready: Ready, readEnds: bool, r: WriteResult): seq<Event> {
    var input, priority := ready.input && c.readInterest, ready.priority && c.readInterest;
    (if ready.hup && !input then [Hangup] else [])
    + (if (input || priority) && readEnds then [ReadEnds] else [])
    + (if ready.output && c.writeInterest then [Writable(r)] else [])
  }

  lemma Single(c: Conn, e: Event)
    ensures Run(c, [e]) == if Asserted(c, e) then Some(Next(c, e)) else None
  {
    if Asserted(c, e) {
      FirstEvent(c, e, []);
      NoEvents(Next(c, e));
      assert [e] + [] == [e];
    }
  }

  /**
   The callbacks of one event run `handleClose` twice exactly on a hang-up with priority data but no
   input on a channel that is reading, when the read finds the end.
   */
  lemma ClosedTwiceExactly(c: Conn, ready: Ready, readEnds: bool, r: WriteResult)
    requires Live(c.state)
    ensures Run(c, Callbacks(c, ready, readEnds, r)).None? <==>
      ready.hup && !ready.input && ready.priority && c.readInterest && readEnds
  {
    hide Next, Run;
    var input, priority := ready.input && c.readInterest, ready.priority && c.readInterest;
    var hang: seq<Event> := if ready.hup && !input then [Hangup] else [];
    var read: seq<Event> := if (input || priority) && readEnds then [ReadEnds] else [];
    var write: seq<Event> := if ready.output && c.writeInterest then [Writable(r)] else [];
    RunSplits(c, hang + read, write);
    RunSplits(c, hang, read);
    NoEvents(c);
    Single(c, Hangup);
    Single(c, ReadEnds);
    Closes(c);
    NoEvents(HandleClose(c));
    Single(HandleClose(c), ReadEnds);
    if Run(c, hang + read).Some? {
      NoEvents(Run(c, hang + read).value);
      Single(Run(c, hang + read).value, Writable(r));
    }
  }

  /** A TCP socket that reports a hang-up has input too, the end of the stream: no event closes twice. */
  lemma ClosedOncePerEvent(c: Conn, ready: Ready, readEnds: bool, r: WriteResult)
    requires Live(c.state) && (ready.hup ==> ready.input)
    ensures Run(c, Callbacks(c, ready, readEnds, r)).Some?
  {
    ClosedTwiceExactly(c, ready, readEnds, r);
  }
}
