/**
 One connection of the server: its state machine, its output queue and what has reached the
 socket.  A run interleaves calls in the loop thread, the single atomic actions of calls in other
 threads, functors that the loop runs, and the callbacks of the channel; the socket may take any
 part of a write or fail it.
 */
module TcpConnections {
  import opened Basics
  import opened Endian

  datatype State = Disconnected | Connecting | Connected | Disconnecting

  datatype Errno = WouldBlock | BrokenPipe | ConnReset | OtherErrno

  /** What the socket is willing to do with one write. */
  datatype WriteResult = Wrote(n: nat) | WriteError(errno: Errno)

  /** A functor in the queue of the connection's loop. */
  datatype Task =
    | SendTask(data: seq<Byte>)
    | ShutdownTask
    | CloseTask
    | WriteCompleteTask
    | HighWaterTask(size: nat)
    | DestroyTask

  /** A call of user code. */
  datatype Call = SendCall(data: seq<Byte>) | ShutdownCall | CloseCall | DelayCall

  /** Where another thread is in a call: past its test of `state_`, or past its store to it as well. */
  datatype Progress = Tested(call: Call) | Stored(call: Call)

  /** The moment the write half was shut down. */
  datatype Fin = Fin(state: State, stranded: bool, wire: seq<Byte>, accepted: seq<Byte>)

  datatype Settings = Settings(hasWriteComplete: bool, hasHighWater: bool, highWaterMark: nat)

  /**
   `delayed` counts the timers of delayed closes, `calls` has the other threads inside a call, and
   `disowned` tells that the owner of the connection has let go of it.

   The rest is history: `wire` is what the socket has taken, `accepted` the concatenation of the
   messages that were not given up, and `fin` the first half-close.  `closes` counts the closes and
   `late` the stores of kDisconnecting that came after one; `stranded` tells that such a store came
   over unsent octets for which write interest has not been turned on since.
   */
  datatype Conn = Conn(
    state: State,
    reading: bool,
    readInterest: bool,
    writeInterest: bool,
    registered: bool,
    out: seq<Byte>,
    tasks: seq<Task>,
    delayed: nat,
    calls: seq<Progress>,
    disowned: bool,
    settings: Settings,
    wire: seq<Byte>,
    accepted: seq<Byte>,
    fin: Option<Fin>,
    closes: nat,
    late: nat,
    stranded: bool)

  function Fresh(settings: Settings): Conn {
    Conn(Connecting, true, false, false, false, [], [], 0, [], false, settings, [], [], None, 0, 0, false)
  }

  predicate Live(s: State) { s.Connected? || s.Disconnecting? }

  /** The socket takes at most what it is given, and after the half-close it fails with EPIPE. */
  function Kernel(shut: bool, len: nat, r: WriteResult): (r': WriteResult)
    ensures r'.Wrote? ==> r'.n <= len && !shut
    ensures !shut && (r.Wrote? ==> r.n <= len) ==> r' == r
  {
    if shut then WriteError(BrokenPipe)
    else if r.Wrote? && r.n > len then Wrote(len)
    else r
  }

  predicate Fault(r: WriteResult) {
    r.WriteError? && (r.errno.BrokenPipe? || r.errno.ConnReset?)
  }

  // ---------- sending ----------

  function Queue(c: Conn, when: bool, task: Task): Conn {
    if when then c.(tasks := c.tasks + [task]) else c
  }

  function HighWater(c: Conn, more: nat): Conn {
    var size := |c.out|;
    Queue(c, size + more >= c.settings.highWaterMark && size < c.settings.highWaterMark && c.settings.hasHighWater,
          HighWaterTask(size + more))
  }

  /** Keeps what the socket has not taken, and asks to be told when it will take more. */
  function Keep(c: Conn, rest: seq<Byte>): Conn {
    if rest == [] then c
    else
      var c := HighWater(c, |rest|);
      c.(out := c.out + rest, writeInterest := true, registered := c.registered || !c.writeInterest, stranded := false)
  }

  /** One write is tried; a message that the socket does not refuse for good is accepted. */
  function Offered(c: Conn, data: seq<Byte>, r: WriteResult): Conn
    requires r.Wrote? ==> r.n <= |data|
  {
    match r
    case Wrote(n) =>
      Queue(c.(wire := c.wire + data[..n], accepted := c.accepted + data),
            n == |data| && c.settings.hasWriteComplete, WriteCompleteTask)
    case WriteError(_) =>
      if Fault(r) then c else c.(accepted := c.accepted + data)
  }

  function Untaken(data: seq<Byte>, r: WriteResult): seq<Byte>
    requires r.Wrote? ==> r.n <= |data|
  {
    if r.Wrote? then data[r.n..] else data
  }

  function SendDirectly(c: Conn, data: seq<Byte>, r: WriteResult): Conn
    requires r.Wrote? ==> r.n <= |data|
  {
    if Fault(r) then c else Keep(Offered(c, data, r), Untaken(data, r))
  }

  function SendInLoop(c: Conn, data: seq<Byte>, r: WriteResult): Conn {
    if c.state.Disconnected? then c
    else if !c.writeInterest && c.out == [] then SendDirectly(c, data, Kernel(c.fin.Some?, |data|, r))
    else Keep(c.(accepted := c.accepted + data), data)
  }

  function Send(c: Conn, data: seq<Byte>, r: WriteResult): Conn {
    if c.state.Connected? then SendInLoop(c, data, r) else c
  }

  // ---------- half-close and close, in the loop thread ----------

  function ShutdownWrite(c: Conn): Conn {
    if c.fin.None? then c.(fin := Some(Fin(c.state, c.stranded, c.wire, c.accepted))) else c
  }

  function ShutdownInLoop(c: Conn): Conn {
    if c.writeInterest then c else ShutdownWrite(c)
  }

  function Shutdown(c: Conn): Conn {
    if c.state.Connected? then ShutdownInLoop(c.(state := Disconnecting)) else c
  }

  function ForceClose(c: Conn): Conn {
    if Live(c.state) then Queue(c.(state := Disconnecting), true, CloseTask) else c
  }

  function ForceCloseWithDelay(c: Conn): Conn {
    if Live(c.state) then c.(state := Disconnecting, delayed := c.delayed + 1) else c
  }

  function HandleClose(c: Conn): Conn
    requires Live(c.state)
  {
    c.(state := Disconnected, readInterest := false, writeInterest := false, registered := false,
       closes := c.closes + 1, stranded := false)
  }

  function ForceCloseInLoop(c: Conn): Conn {
    if Live(c.state) then HandleClose(c) else c
  }

  // ---------- calls in other threads, action by action ----------

  predicate Passes(c: Conn, call: Call) {
    match call
    case SendCall(_) => c.state.Connected?
    case ShutdownCall => c.state.Connected?
    case CloseCall => Live(c.state)
    case DelayCall => Live(c.state)
  }

  /** The test of `state_`; a thread that fails it is out of the call. */
  function Test(c: Conn, call: Call): Conn {
    if Passes(c, call) then c.(calls := c.calls + [Tested(call)]) else c
  }

  /** Thread i is about to store kDisconnecting. */
  predicate MayStore(c: Conn, i: nat) {
    i < |c.calls| && c.calls[i].Tested? && !c.calls[i].call.SendCall?
  }

  function Store(c: Conn, i: nat): Conn
    requires MayStore(c, i)
  {
    var d := c.(state := Disconnecting, calls := c.calls[i := Stored(c.calls[i].call)]);
    if c.state.Disconnected? then d.(late := c.late + 1, stranded := c.out != []) else d
  }

  /** A store that came between the test and the store of a close, and so was overwritten. */
  function Overwritten(c: Conn, i: nat): Conn
    requires MayStore(c, i) && c.state.Disconnected?
  {
    c.(calls := c.calls[i := Stored(c.calls[i].call)])
  }

  predicate MayPush(c: Conn, i: nat) {
    i < |c.calls| && (c.calls[i].Stored? || c.calls[i].call.SendCall?)
  }

  function Without(calls: seq<Progress>, i: nat): seq<Progress>
    requires i < |calls|
  {
    calls[..i] + calls[i + 1..]
  }

  function Queues(call: Call): seq<Task> {
    match call
    case SendCall(data) => [SendTask(data)]
    case ShutdownCall => [ShutdownTask]
    case CloseCall => [CloseTask]
    case DelayCall => []
  }

  /** The last action: the functor is queued, or the timer started. */
  function Push(c: Conn, i: nat): Conn
    requires MayPush(c, i)
  {
    c.(calls := Without(c.calls, i), tasks := c.tasks + Queues(c.calls[i].call),
       delayed := if c.calls[i].call.DelayCall? then c.delayed + 1 else c.delayed)
  }

  // ---------- the other callbacks ----------

  /** What follows the write that empties the queue. */
  function Drained(c: Conn): Conn {
    var c := c.(writeInterest := false, registered := true);
    var c := Queue(c, c.settings.hasWriteComplete, WriteCompleteTask);
    if c.state.Disconnecting? then ShutdownInLoop(c) else c
  }

  function HandleWrite(c: Conn, r: WriteResult): Conn {
    if !c.writeInterest then c
    else match Kernel(c.fin.Some?, |c.out|, r)
      case WriteError(_) => c
      case Wrote(n) =>
        if n == 0 then c
        else
          var c := c.(wire := c.wire + c.out[..n], out := c.out[n..]);
          if c.out != [] then c else Drained(c)
  }

  function ConnectEstablished(c: Conn): Conn
    requires c.state.Connecting?
  {
    c.(state := Connected, readInterest := true, registered := true)
  }

  function ConnectDestroyed(c: Conn): Conn {
    if c.state.Connected? then HandleClose(c) else c
  }

  /**
   The owner lets go: a server that is destroyed, or a client, queues `connectDestroyed`, and a
   server that has been told of the close does not.
   */
  function Disown(c: Conn, queues: bool): Conn {
    if c.disowned || c.state.Connecting? || (!queues && c.closes == 0) then c
    else Queue(c.(disowned := true), queues, DestroyTask)
  }

  function StartReadInLoop(c: Conn): Conn {
    if c.state.Connected? && (!c.reading || !c.readInterest)
    then c.(readInterest := true, reading := true, registered := true)
    else c
  }

  function StopReadInLoop(c: Conn): Conn {
    if !c.state.Disconnected? && (c.reading || c.readInterest)
    then c.(readInterest := false, reading := false, registered := true)
    else c
  }

  /** What one functor does. */
  function Perform(c: Conn, task: Task, r: WriteResult): Conn {
    match task
    case SendTask(data) => SendInLoop(c, data, r)
    case ShutdownTask => ShutdownInLoop(c)
    case CloseTask => ForceCloseInLoop(c)
    case DestroyTask => ConnectDestroyed(c)
    case _ => c
  }

  function RunTask(c: Conn, r: WriteResult): Conn
    requires c.tasks != []
  {
    Perform(c.(tasks := c.tasks[1..]), c.tasks[0], r)
  }

  // ---------- runs ----------

  datatype Event =
    | Establish
    | Disowns(queues: bool)
    | CallSend(data: seq<Byte>, r: WriteResult)
    | CallShutdown
    | CallForceClose
    | CallForceCloseWithDelay
    | DelayEnds
    | OtherTests(call: Call)
    | OtherStores(i: nat)
    | OtherOverwritten(i: nat)
    | OtherPushes(i: nat)
    | Pop(r: WriteResult)
    | Writable(r: WriteResult)
    | ReadEnds          // the channel reads 0 octets
    | Hangup            // POLLHUP without POLLIN
    | StartRead
    | StopRead

  /** The assert at the head of `connectEstablished` and of `handleClose`. */
  predicate Asserted(c: Conn, e: Event) {
    match e
    case Establish => c.state.Connecting?
    case ReadEnds => Live(c.state)
    case Hangup => Live(c.state)
    case _ => true
  }

  function Next(c: Conn, e: Event): Conn
    requires Asserted(c, e)
  {
    match e
    case Establish => ConnectEstablished(c)
    case Disowns(queues) => Disown(c, queues)
    case CallSend(data, r) => Send(c, data, r)
    case CallShutdown => Shutdown(c)
    case CallForceClose => ForceClose(c)
    case CallForceCloseWithDelay => ForceCloseWithDelay(c)
    case DelayEnds => if c.delayed > 0 then ForceClose(c.(delayed := c.delayed - 1)) else c
    case OtherTests(call) => Test(c, call)
    case OtherStores(i) => if MayStore(c, i) then Store(c, i) else c
    case OtherOverwritten(i) => if MayStore(c, i) && c.state.Disconnected? then Overwritten(c, i) else c
    case OtherPushes(i) => if MayPush(c, i) then Push(c, i) else c
    case Pop(r) => if c.tasks != [] then RunTask(c, r) else c
    case Writable(r) => HandleWrite(c, r)
    case ReadEnds => HandleClose(c)
    case Hangup => HandleClose(c)
    case StartRead => StartReadInLoop(c)
    case StopRead => StopReadInLoop(c)
  }

  /** None when an assert fails on the way. */
  function Run(c: Conn, events: seq<Event>): Option<Conn>
    decreases |events|
  {
    if events == [] then Some(c)
    else if Asserted(c, events[0]) then Run(Next(c, events[0]), events[1..])
    else None
  }

  lemma {:induction false} RunSplits(c: Conn, before: seq<Event>, after: seq<Event>)
    ensures Run(c, before + after) == (if Run(c, before).Some? then Run(Run(c, before).value, after) else None)
    decreases |before|
  {
    if before == [] {
      assert before + after == after;
    } else {
      assert (before + after)[1..] == before[1..] + after;
      if Asserted(c, before[0]) { RunSplits(Next(c, before[0]), before[1..], after); }
    }
  }

  // ---------- what every step keeps ----------

  /** Nothing accepted is lost, repeated or reordered on its way to the socket. */
  ghost predicate InOrder(wire: seq<Byte>, out: seq<Byte>, accepted: seq<Byte>) {
    wire + out == accepted
  }

  ghost predicate Armed(state: State, writeInterest: bool, out: seq<Byte>, stranded: bool) {
    && (!state.Disconnected? ==> (writeInterest <==> out != [] && !stranded))
    && (stranded ==> !state.Disconnected? && out != [])
  }

  ghost predicate Quiet(state: State, readInterest: bool, writeInterest: bool, registered: bool, late: nat) {
    && (state.Disconnected? ==> !readInterest && !writeInterest && !registered)
    && (Live(state) && late == 0 ==> registered)
  }

  /**
   The stream ends at the half-close.  What was accepted by then had been written, unless the
   connection was closed or stranded over the rest.
   */
  ghost predicate Ended(fin: Option<Fin>, wire: seq<Byte>, out: seq<Byte>) {
    fin.Some? ==>
      && fin.value.wire == wire && fin.value.wire <= fin.value.accepted
      && (fin.value.accepted == wire ==> out == [])
      && (fin.value.stranded ==> fin.value.accepted != wire)
      && (!fin.value.state.Disconnected? && !fin.value.stranded ==> fin.value.accepted == wire)
  }

  ghost predicate Pushing(calls: seq<Progress>) {
    exists i :: 0 <= i < |calls| && calls[i].Stored?
  }

  /** A connection that is closing has something left that will end it. */
  ghost predicate Closing(
      state: State, fin: Option<Fin>, tasks: seq<Task>, delayed: nat, calls: seq<Progress>, writeInterest: bool) {
    state.Disconnecting? ==>
      fin.Some? || ShutdownTask in tasks || CloseTask in tasks || delayed > 0 || Pushing(calls) || writeInterest
  }

  /** A close is for good, but for late stores. */
  ghost predicate Aged(state: State, closes: nat, late: nat, stranded: bool) {
    && (state.Disconnected? ==> closes > 0)
    && (closes > 0 ==> state.Disconnected? || state.Disconnecting?)
    && (closes > 0 && late == 0 ==> state.Disconnected?)
    && (stranded ==> late > 0) && (late > 0 ==> closes > 0)
  }

  /** A thread does not store to a state it cannot have tested; a send stores nothing. */
  ghost predicate Entered(state: State, calls: seq<Progress>) {
    && (state.Connecting? ==> calls == [])
    && (forall i :: 0 <= i < |calls| && calls[i].Stored? ==> !calls[i].call.SendCall?)
  }

  ghost predicate Owned(state: State, disowned: bool, tasks: seq<Task>) {
    disowned ==> !state.Connecting? && (state.Connected? ==> DestroyTask in tasks)
  }

  ghost predicate Good(c: Conn) {
    && InOrder(c.wire, c.out, c.accepted)
    && Armed(c.state, c.writeInterest, c.out, c.stranded)
    && Quiet(c.state, c.readInterest, c.writeInterest, c.registered, c.late)
    && Ended(c.fin, c.wire, c.out)
    && Closing(c.state, c.fin, c.tasks, c.delayed, c.calls, c.writeInterest)
    && Aged(c.state, c.closes, c.late, c.stranded)
    && Entered(c.state, c.calls)
    && Owned(c.state, c.disowned, c.tasks)
  }

  /** What is kept of a connection that has been given `rest` to keep, before it is kept. */
  ghost predicate AboutToKeep(c: Conn, rest: seq<Byte>) {
    && InOrder(c.wire, c.out + rest, c.accepted)
    && Armed(c.state, c.writeInterest, c.out, c.stranded)
    && Quiet(c.state, c.readInterest, c.writeInterest, c.registered, c.late)
    && Closing(c.state, c.fin, c.tasks, c.delayed, c.calls, c.writeInterest)
    && Aged(c.state, c.closes, c.late, c.stranded) && Entered(c.state, c.calls)
    && Owned(c.state, c.disowned, c.tasks)
    && !c.state.Disconnected?
    && (c.fin.Some? ==> Ended(c.fin, c.wire, c.out) && (c.out != [] || rest == []))
  }

  lemma KeepKeeps(c: Conn, rest: seq<Byte>)
    requires AboutToKeep(c, rest)
    ensures Good(Keep(c, rest))
  {
    if rest == [] { assert c.out + rest == c.out; }
  }

  lemma OfferedInOrder(wire: seq<Byte>, out: seq<Byte>, accepted: seq<Byte>, data: seq<Byte>, n: nat)
    requires InOrder(wire, out, accepted) && out == [] && n <= |data|
    ensures InOrder(wire + data[..n], out + data[n..], accepted + data) && InOrder(wire, out + data, accepted + data)
  {
    assert data == data[..n] + data[n..];
    assert wire + out == wire && out + data == data;
  }

  lemma QueueOnlyAdds(c: Conn, when: bool, task: Task)
    ensures forall t :: t in c.tasks ==> t in Queue(c, when, task).tasks
  {
  }

  lemma OfferedKeeps(c: Conn, data: seq<Byte>, r: WriteResult)
    requires Good(c) && !c.state.Disconnected? && c.out == [] && c.fin.None?
    requires !Fault(r) && (r.Wrote? ==> r.n <= |data|)
    ensures AboutToKeep(Offered(c, data, r), Untaken(data, r))
  {
    hide InOrder, Pushing, Entered;
    OfferedInOrder(c.wire, c.out, c.accepted, data, if r.Wrote? then r.n else 0);
    if r.Wrote? {
      var d := c.(wire := c.wire + data[..r.n], accepted := c.accepted + data);
      QueueOnlyAdds(d, r.n == |data| && c.settings.hasWriteComplete, WriteCompleteTask);
    }
  }

  lemma SendDirectlyKeeps(c: Conn, data: seq<Byte>, r: WriteResult)
    requires Good(c) && !c.state.Disconnected? && c.out == []
    requires r.Wrote? ==> r.n <= |data|
    requires c.fin.None? || Fault(r)
    ensures Good(SendDirectly(c, data, r))
  {
    hide Good, Keep, AboutToKeep, Offered, Untaken;
    if !Fault(r) {
      OfferedKeeps(c, data, r);
      KeepKeeps(Offered(c, data, r), Untaken(data, r));
    }
  }

  lemma SendInLoopKeeps(c: Conn, data: seq<Byte>, r: WriteResult)
    requires Good(c)
    ensures Good(SendInLoop(c, data, r))
  {
    hide Keep, SendDirectly;
    if !c.state.Disconnected? {
      if !c.writeInterest && c.out == [] {
        SendDirectlyKeeps(c, data, Kernel(c.fin.Some?, |data|, r));
      } else {
        assert (c.wire + c.out) + data == c.wire + (c.out + data);
        KeepKeeps(c.(accepted := c.accepted + data), data);
      }
    }
  }

  lemma ShutdownInLoopKeeps(c: Conn)
    requires InOrder(c.wire, c.out, c.accepted) && Armed(c.state, c.writeInterest, c.out, c.stranded)
    requires Quiet(c.state, c.readInterest, c.writeInterest, c.registered, c.late)
    requires Ended(c.fin, c.wire, c.out) && Aged(c.state, c.closes, c.late, c.stranded)
    requires Entered(c.state, c.calls) && Owned(c.state, c.disowned, c.tasks)
    ensures Good(ShutdownInLoop(c))
  {
    assert c.out == [] ==> c.wire + c.out == c.wire;
    assert c.out != [] ==> |c.wire + c.out| > |c.wire|;
  }

  lemma HandleWriteKeeps(c: Conn, r: WriteResult)
    requires Good(c)
    ensures Good(HandleWrite(c, r))
  {
    hide Pushing, Owned, Entered, Drained;
    if c.writeInterest {
      var k := Kernel(c.fin.Some?, |c.out|, r);
      if k.Wrote? && k.n > 0 {
        var d := c.(wire := c.wire + c.out[..k.n], out := c.out[k.n..]);
        assert c.out == c.out[..k.n] + c.out[k.n..];
        assert InOrder(d.wire, d.out, d.accepted);
        if d.out == [] { DrainKeeps(d); }
      }
    }
  }

  lemma DrainKeeps(c: Conn)
    requires InOrder(c.wire, c.out, c.accepted) && c.out == [] && c.fin.None?
    requires Quiet(c.state, c.readInterest, c.writeInterest, c.registered, c.late) && !c.state.Disconnected?
    requires Aged(c.state, c.closes, c.late, c.stranded) && !c.stranded
    requires Entered(c.state, c.calls) && Owned(c.state, c.disowned, c.tasks)
    ensures Good(Drained(c))
  {
    hide Pushing, Entered;
    var off := c.(writeInterest := false, registered := true);
    var idle := Queue(off, off.settings.hasWriteComplete, WriteCompleteTask);
    if idle.state.Disconnecting? { ShutdownInLoopKeeps(idle); }
  }

  lemma PopKeeps(c: Conn)
    requires Good(c) && c.tasks != []
    ensures
      var rest := c.(tasks := c.tasks[1..]);
      && (!c.tasks[0].ShutdownTask? && !c.tasks[0].CloseTask? && !c.tasks[0].DestroyTask? ==> Good(rest))
      && (!c.tasks[0].DestroyTask? ==> Owned(rest.state, rest.disowned, rest.tasks))
  {
    assert c.tasks == [c.tasks[0]] + c.tasks[1..];
  }

  lemma RunTaskKeeps(c: Conn, r: WriteResult)
    requires Good(c) && c.tasks != []
    ensures Good(RunTask(c, r))
  {
    hide Pushing, SendInLoop, ShutdownInLoop;
    PopKeeps(c);
    var rest := c.(tasks := c.tasks[1..]);
    match c.tasks[0]
    case SendTask(data) => SendInLoopKeeps(rest, data, r);
    case ShutdownTask => ShutdownInLoopKeeps(rest);
    case _ =>
  }

  lemma StoreKeeps(c: Conn, i: nat)
    requires Good(c) && MayStore(c, i)
    ensures Good(Store(c, i))
    ensures c.state.Disconnected? ==> Good(Overwritten(c, i))
  {
    var d := Store(c, i);
    assert d.calls[i].Stored? && Pushing(d.calls);
  }

  /** A thread that leaves takes only itself along. */
  lemma WithoutKeeps(state: State, calls: seq<Progress>, i: nat)
    requires Entered(state, calls) && i < |calls|
    ensures Entered(state, Without(calls, i))
    ensures Pushing(calls) && !calls[i].Stored? ==> Pushing(Without(calls, i))
  {
    var rest := Without(calls, i);
    assert forall j :: 0 <= j < |rest| ==> rest[j] == calls[if j < i then j else j + 1];
    if Pushing(calls) && !calls[i].Stored? {
      var j :| 0 <= j < |calls| && calls[j].Stored?;
      assert rest[if j < i then j else j - 1].Stored?;
    }
  }

  lemma PushKeeps(c: Conn, i: nat)
    requires Good(c) && MayPush(c, i)
    ensures Good(Push(c, i))
  {
    hide Pushing, Without, Entered, InOrder, Armed, Quiet, Ended, Aged;
    WithoutKeeps(c.state, c.calls, i);
    SendsStoreNothing(c, i);
  }

  lemma SendsStoreNothing(c: Conn, i: nat)
    requires Entered(c.state, c.calls) && MayPush(c, i)
    ensures c.calls[i].Stored? <==> !c.calls[i].call.SendCall?
  {
  }

  lemma TestKeeps(c: Conn, call: Call)
    requires Good(c)
    ensures Good(Test(c, call))
  {
    if Pushing(c.calls) {
      var j :| 0 <= j < |c.calls| && c.calls[j].Stored?;
      assert (c.calls + [Tested(call)])[j].Stored?;
    }
  }

  lemma ShutdownKeeps(c: Conn)
    requires Good(c)
    ensures Good(Shutdown(c))
  {
    hide Pushing, ShutdownInLoop;
    if c.state.Connected? { ShutdownInLoopKeeps(c.(state := Disconnecting)); }
  }

  lemma HandleCloseKeeps(c: Conn)
    requires Good(c) && Live(c.state)
    ensures Good(HandleClose(c))
  {
    hide Pushing, InOrder, Ended;
  }

  /** A close from user code, and one at the end of a delay. */
  lemma ForceCloseKeeps(c: Conn)
    requires Good(c)
    ensures Good(ForceClose(c))
    ensures c.delayed > 0 ==> Good(ForceClose(c.(delayed := c.delayed - 1)))
  {
    hide Pushing, InOrder, Ended;
    assert CloseTask in c.tasks + [CloseTask];
  }

  lemma DisownKeeps(c: Conn, queues: bool)
    requires Good(c)
    ensures Good(Disown(c, queues))
  {
    hide Pushing, InOrder, Ended;
    assert DestroyTask in c.tasks + [DestroyTask];
  }

  /** The start of a connection, a delay begun, and the reading side. */
  lemma PlainKeeps(c: Conn, e: Event)
    requires Good(c) && Asserted(c, e)
    requires e.Establish? || e.CallForceCloseWithDelay? || e.StartRead? || e.StopRead?
    ensures Good(Next(c, e))
  {
    hide Pushing, InOrder, Ended;
  }

  lemma StepKeeps(c: Conn, e: Event)
    requires Good(c) && Asserted(c, e)
    ensures Good(Next(c, e))
  {
    hide Good, SendInLoop, Shutdown, RunTask, HandleWrite, HandleClose, ForceClose, Disown;
    hide Store, Overwritten, Push, Test;
    match e
    case Disowns(queues) => DisownKeeps(c, queues);
    case CallSend(data, r) => SendInLoopKeeps(c, data, r);
    case CallShutdown => ShutdownKeeps(c);
    case CallForceClose => ForceCloseKeeps(c);
    case DelayEnds => ForceCloseKeeps(c);
    case OtherTests(call) => TestKeeps(c, call);
    case OtherStores(i) => if MayStore(c, i) { StoreKeeps(c, i); }
    case OtherOverwritten(i) => if MayStore(c, i) { StoreKeeps(c, i); }
    case OtherPushes(i) => if MayPush(c, i) { PushKeeps(c, i); }
    case Pop(r) => if c.tasks != [] { RunTaskKeeps(c, r); }
    case Writable(r) => HandleWriteKeeps(c, r);
    case ReadEnds => HandleCloseKeeps(c);
    case Hangup => HandleCloseKeeps(c);
    case _ => PlainKeeps(c, e);
  }

  lemma {:induction false} RunKeeps(c: Conn, events: seq<Event>)
    requires Good(c)
    ensures Run(c, events).Some? ==> Good(Run(c, events).value)
    decreases |events|
  {
    hide Good, Next;
    if events != [] && Asserted(c, events[0]) {
      StepKeeps(c, events[0]);
      RunKeeps(Next(c, events[0]), events[1..]);
    }
  }
}
