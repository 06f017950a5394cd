/**
 The connection as the object it is: interest bits of its channel, an output buffer, a socket, all
 updated in place.  Each method is tied to the operation on `Conn` that it carries out; `model` is
 the state the object stands for, and its history.  The asserts of the C++ code are asserts here.
 */
module TcpConnectionObject {
  import opened Basics
  import opened Endian
  import opened Buffers
  import opened TcpConnections
  import opened TcpRuns

  const NONE_EVENT: bv16 := 0
  const READ_EVENT: bv16 := 3   // POLLIN | POLLPRI
  const WRITE_EVENT: bv16 := 4  // POLLOUT

  class Channel {
    var events: bv16
    var addedToLoop: bool

    constructor ()
      ensures !IsReading() && !IsWriting() && !addedToLoop
    {
      events, addedToLoop := NONE_EVENT, false;
    }

    predicate IsReading()
      reads this
    {
      events & READ_EVENT != 0
    }

    predicate IsWriting()
      reads this
    {
      events & WRITE_EVENT != 0
    }

    method EnableReading()
      modifies this
      ensures IsReading() && IsWriting() == old(IsWriting()) && addedToLoop
    {
      events, addedToLoop := events | READ_EVENT, true;
    }

    method DisableReading()
      modifies this
      ensures !IsReading() && IsWriting() == old(IsWriting()) && addedToLoop
    {
      events, addedToLoop := events & !READ_EVENT, true;
    }

    method EnableWriting()
      modifies this
      ensures IsWriting() && IsReading() == old(IsReading()) && addedToLoop
    {
      events, addedToLoop := events | WRITE_EVENT, true;
    }

    method DisableWriting()
      modifies this
      ensures !IsWriting() && IsReading() == old(IsReading()) && addedToLoop
    {
      events, addedToLoop := events & !WRITE_EVENT, true;
    }

    method DisableAll()
      modifies this
      ensures !IsReading() && !IsWriting() && addedToLoop && events == NONE_EVENT
    {
      events, addedToLoop := NONE_EVENT, true;
    }

    method Remove()
      requires events == NONE_EVENT
      modifies this`addedToLoop
      ensures !addedToLoop && !IsReading() && !IsWriting()
    {
      addedToLoop := false;
    }
  }

  class Socket {
    var wire: seq<Byte>
    var shut: bool

    constructor ()
      ensures wire == [] && !shut
    {
      wire, shut := [], false;
    }

    method Write(data: seq<Byte>, r: WriteResult) returns (n: int, errno: Errno)
      modifies this`wire
      ensures
        match Kernel(shut, |data|, r)
        case Wrote(k) => n == k && wire == old(wire) + data[..k]
        case WriteError(e) => n == -1 && errno == e && wire == old(wire)
    {
      errno := OtherErrno;
      match Kernel(shut, |data|, r) {
        case Wrote(k) => n := k; wire := wire + data[..k];
        case WriteError(e) => n := -1; errno := e;
      }
    }

    method ShutdownWrite()
      modifies this`shut
      ensures shut
    {
      shut := true;
    }
  }

  class TcpConnection {
    var state: State
    var reading: bool
    const channel: Channel
    const socket: Socket
    const inputBuffer: Buffer
    const outputBuffer: Buffer
    var tasks: seq<Task>  // this connection's functors in the queue of its loop
    var delayed: nat
    var calls: seq<Progress>  // the other threads inside a call
    var disowned: bool
    const settings: Settings
    ghost var model: Conn

    ghost predicate Apart()
      reads this, inputBuffer, outputBuffer
    {
      && inputBuffer != outputBuffer && inputBuffer.buffer != outputBuffer.buffer
      && inputBuffer.Valid() && outputBuffer.Valid()
    }

    /** The fields other than the buffers are those of the model. */
    ghost predicate Mirrors()
      reads this, channel, socket
    {
      && model.state == state && model.reading == reading && model.tasks == tasks
      && model.delayed == delayed && model.settings == settings
      && model.calls == calls && model.disowned == disowned
      && model.readInterest == channel.IsReading() && model.writeInterest == channel.IsWriting()
      && model.registered == channel.addedToLoop
      && model.wire == socket.wire && model.fin.Some? == socket.shut
    }

    ghost predicate Represents()
      reads this, channel, socket, inputBuffer, outputBuffer, outputBuffer.buffer
    {
      Apart() && Mirrors() && model.out == outputBuffer.Contents()
    }

    ghost predicate Valid()
      reads this, channel, socket, inputBuffer, outputBuffer, outputBuffer.buffer
    {
      Represents() && Good(model)
    }

    constructor (settings: Settings)
      ensures Valid() && model == Fresh(settings)
    {
      state, reading := Connecting, true;
      channel := new Channel();
      socket := new Socket();
      inputBuffer := new Buffer(INITIAL_SIZE);
      outputBuffer := new Buffer(INITIAL_SIZE);
      tasks, delayed, calls, disowned := [], 0, [], false;
      this.settings := settings;
      model := Fresh(settings);
    }

    /** Stores what the socket did not take, and turns write interest on if it is off. */
    method KeepRest(rest: seq<Byte>)
      requires Represents() && rest != []
      modifies this`tasks, this`model, channel, outputBuffer, outputBuffer.buffer
      ensures Represents() && model == Keep(old(model), rest)
      ensures outputBuffer.buffer == old(outputBuffer.buffer) || fresh(outputBuffer.buffer)
    {
      hide Channel.IsReading, Channel.IsWriting;
      var size := outputBuffer.ReadableBytes();
      if size + |rest| >= settings.highWaterMark && size < settings.highWaterMark && settings.hasHighWater {
        tasks := tasks + [HighWaterTask(size + |rest|)];
      }
      outputBuffer.Append(rest);
      if !channel.IsWriting() {
        channel.EnableWriting();
      }
      model := Keep(model, rest);
    }

    /** The write that is tried before anything is queued. */
    method WriteDirectly(data: seq<Byte>, r: WriteResult) returns (nwrote: nat, faultError: bool)
      requires Mirrors()
      modifies this`tasks, this`model, socket`wire
      ensures Mirrors() && model.out == old(model).out
      ensures
        var k := Kernel(old(model).fin.Some?, |data|, r);
        && model == Offered(old(model), data, k) && faultError == Fault(k)
        && (faultError ==> model == old(model))
        && nwrote <= |data| && data[nwrote..] == Untaken(data, k)
    {
      hide Good, Kernel, Buffer.Contents, Channel.IsReading, Channel.IsWriting;
      ghost var k := Kernel(socket.shut, |data|, r);
      var remaining := |data|;
      faultError := false;
      var n, errno := socket.Write(data, r);
      if n >= 0 {
        nwrote := n;
        remaining := |data| - nwrote;
        if remaining == 0 && settings.hasWriteComplete {
          tasks := tasks + [WriteCompleteTask];
        }
      } else {
        nwrote := 0;
        if errno != WouldBlock {
          if errno == BrokenPipe || errno == ConnReset {
            faultError := true;
          }
        }
      }
      model := Offered(model, data, k);
    }

    method SendInLoop(data: seq<Byte>, r: WriteResult)
      requires Represents()
      modifies this`tasks, this`model, channel, socket`wire, outputBuffer, outputBuffer.buffer
      ensures Represents() && model == TcpConnections.SendInLoop(old(model), data, r)
      ensures outputBuffer.buffer == old(outputBuffer.buffer) || fresh(outputBuffer.buffer)
    {
      hide Good, Keep, Offered, Kernel, Fault, Channel.IsReading, Channel.IsWriting;
      if state.Disconnected? { return; }
      ghost var was := model;
      var nwrote, faultError := 0, false;
      if !channel.IsWriting() && outputBuffer.ReadableBytes() == 0 {
        nwrote, faultError := WriteDirectly(data, r);
      } else {
        model := model.(accepted := model.accepted + data);
      }
      var remaining := |data| - nwrote;
      assert remaining <= |data|;
      NothingToKeep(model);
      if !faultError && remaining > 0 {
        KeepRest(data[nwrote..]);
      }
      assert model == TcpConnections.SendInLoop(was, data, r);
    }

    /** `send` in the loop thread. */
    method Send(message: seq<Byte>, r: WriteResult)
      requires Valid()
      modifies this`tasks, this`model, channel, socket`wire, outputBuffer, outputBuffer.buffer
      ensures Valid() && model == TcpConnections.Send(old(model), message, r)
      ensures outputBuffer.buffer == old(outputBuffer.buffer) || fresh(outputBuffer.buffer)
    {
      hide Good, TcpConnections.SendInLoop, Channel.IsReading, Channel.IsWriting;
      StepKeeps(model, CallSend(message, r));
      if state == Connected {
        SendInLoop(message, r);
      }
    }

    /** `send` of a buffer in the loop thread; it is emptied only when the connection takes it. */
    method SendBuffer(buf: Buffer, r: WriteResult)
      requires Valid() && buf.Valid() && buf != outputBuffer && buf != inputBuffer && buf.buffer != outputBuffer.buffer
      modifies this`tasks, this`model, channel, socket`wire, outputBuffer, outputBuffer.buffer
      modifies buf`readerIndex, buf`writerIndex
      ensures Valid() && model == TcpConnections.Send(old(model), old(buf.Contents()), r)
      ensures buf.Valid() && buf.Contents() == if old(state) == Connected then [] else old(buf.Contents())
    {
      hide Good, TcpConnections.SendInLoop, Channel.IsReading, Channel.IsWriting;
      StepKeeps(model, CallSend(buf.Contents(), r));
      if state == Connected {
        SendInLoop(buf.Peek(), r);
        buf.RetrieveAll();
      }
    }

    // ---------- calls in other threads ----------

    /** Another thread enters a call: the test of `state_`, which is one atomic read. */
    method TestFromOutside(call: Call) returns (passed: bool)
      requires Valid()
      modifies this`calls, this`model
      ensures Valid() && model == Test(old(model), call) && passed == Passes(old(model), call)
    {
      hide Good, Channel.IsReading, Channel.IsWriting;
      StepKeeps(model, OtherTests(call));
      passed := match call
        case SendCall(_) => state == Connected
        case ShutdownCall => state == Connected
        case CloseCall => state == Connected || state == Disconnecting
        case DelayCall => state == Connected || state == Disconnecting;
      if passed {
        calls := calls + [Tested(call)];
      }
      model := Test(model, call);
    }

    /** Another thread sends a buffer; it is emptied as soon as the test is passed. */
    method SendBufferFromOutside(buf: Buffer)
      requires Valid() && buf.Valid() && buf != outputBuffer && buf != inputBuffer
      modifies this`calls, this`model, buf`readerIndex, buf`writerIndex
      ensures Valid() && model == Test(old(model), SendCall(old(buf.Contents())))
      ensures buf.Valid() && buf.Contents() == if old(state) == Connected then [] else old(buf.Contents())
    {
      hide Good, Channel.IsReading, Channel.IsWriting;
      StepKeeps(model, OtherTests(SendCall(buf.Contents())));
      if state == Connected {
        var message := buf.RetrieveAllAsString();
        calls := calls + [Tested(SendCall(message))];
        model := Test(model, SendCall(message));
      }
    }

    /** A thread past its test stores kDisconnecting, whatever the state has become meanwhile. */
    method StoreFromOutside(i: nat)
      requires Valid() && MayStore(model, i)
      modifies this`state, this`calls, this`model
      ensures Valid() && model == Store(old(model), i)
    {
      hide Good, Channel.IsReading, Channel.IsWriting;
      StoreKeeps(model, i);
      state := Disconnecting;
      calls := calls[i := Stored(calls[i].call)];
      model := Store(model, i);
    }

    /** The last action of a call: the functor is queued, or the timer started. */
    method PushFromOutside(i: nat)
      requires Valid() && MayPush(model, i)
      modifies this`tasks, this`delayed, this`calls, this`model
      ensures Valid() && model == Push(old(model), i)
    {
      hide Good, Without, Channel.IsReading, Channel.IsWriting;
      PushKeeps(model, i);
      var call := calls[i].call;
      calls := Without(calls, i);
      tasks := tasks + Queues(call);
      if call == DelayCall { delayed := delayed + 1; }
      model := Push(model, i);
    }

    // ---------- half-close and close ----------

    method ShutdownInLoop()
      requires Mirrors()
      modifies this`model, socket`shut
      ensures Mirrors() && model == TcpConnections.ShutdownInLoop(old(model))
    {
      if !channel.IsWriting() {
        socket.ShutdownWrite();
      }
      model := TcpConnections.ShutdownInLoop(model);
    }

    method Shutdown()
      requires Valid()
      modifies this`state, this`model, socket`shut
      ensures Valid() && model == TcpConnections.Shutdown(old(model))
    {
      hide Good, Channel.IsReading, Channel.IsWriting;
      StepKeeps(model, CallShutdown);
      if state == Connected {
        state := Disconnecting;
        model := model.(state := Disconnecting);
        ShutdownInLoop();
      }
    }

    method CloseSoon()
      requires Mirrors()
      modifies this`state, this`tasks, this`model
      ensures Mirrors() && model == TcpConnections.ForceClose(old(model))
    {
      hide Good, Channel.IsReading, Channel.IsWriting;
      if state == Connected || state == Disconnecting {
        state := Disconnecting;
        tasks := tasks + [CloseTask];
      }
      model := TcpConnections.ForceClose(model);
    }

    method ForceClose()
      requires Valid()
      modifies this
      ensures Valid() && model == TcpConnections.ForceClose(old(model))
    {
      hide Good, Channel.IsReading, Channel.IsWriting;
      StepKeeps(model, CallForceClose);
      CloseSoon();
    }

    method ForceCloseWithDelay()
      requires Valid()
      modifies this
      ensures Valid() && model == TcpConnections.ForceCloseWithDelay(old(model))
    {
      hide Good, Channel.IsReading, Channel.IsWriting;
      StepKeeps(model, CallForceCloseWithDelay);
      if state == Connected || state == Disconnecting {
        state := Disconnecting;
        delayed := delayed + 1;
      }
      model := TcpConnections.ForceCloseWithDelay(model);
    }

    /** The timer of a delayed close. */
    method DelayOver()
      requires Valid() && delayed > 0
      modifies this
      ensures Valid() && model == Next(old(model), DelayEnds)
    {
      hide Good, Channel.IsReading, Channel.IsWriting;
      StepKeeps(model, DelayEnds);
      delayed := delayed - 1;
      model := model.(delayed := delayed);
      CloseSoon();
    }

    method Disconnect()
      requires Mirrors() && Live(state)
      modifies this`state, this`model, channel
      ensures Mirrors() && model == TcpConnections.HandleClose(old(model))
    {
      hide Good, Channel.IsReading, Channel.IsWriting;
      state := Disconnected;
      channel.DisableAll();
      channel.Remove();
      model := TcpConnections.HandleClose(model);
    }

    method HandleClose()
      requires Valid() && (state == Connected || state == Disconnecting)
      modifies this, channel
      ensures Valid() && model == TcpConnections.HandleClose(old(model))
    {
      hide Good, Channel.IsReading, Channel.IsWriting;
      StepKeeps(model, Hangup);
      Disconnect();
    }

    method ForceCloseInLoop()
      requires Mirrors()
      modifies this`state, this`model, channel
      ensures Mirrors() && model == TcpConnections.ForceCloseInLoop(old(model))
    {
      hide Good, Channel.IsReading, Channel.IsWriting;
      if state == Connected || state == Disconnecting {
        Disconnect();
      }
    }

    /** `message` tells whether the message callback is to run on the input buffer. */
    method HandleRead(result: ReadResult) returns (message: bool)
      requires Valid()
      requires result.Bytes? ==> |result.data| <= inputBuffer.ReadRoom()
      requires result == Bytes([]) ==> state == Connected || state == Disconnecting
      modifies this, channel, inputBuffer, inputBuffer.buffer
      ensures Valid() && message == (result.Bytes? && result.data != [])
      ensures model == if result == Bytes([]) then TcpConnections.HandleClose(old(model)) else old(model)
      ensures inputBuffer.Contents() == old(inputBuffer.Contents()) + (if result.Bytes? then result.data else [])
    {
      hide Good, Channel.IsReading, Channel.IsWriting;
      var n, savedErrno := inputBuffer.ReadFd(result);
      assert old(inputBuffer.Contents()) + [] == old(inputBuffer.Contents());
      message := n > 0;
      if n == 0 {
        HandleClose();
      }
    }

    method Drained()
      requires Mirrors()
      modifies this`tasks, this`model, channel, socket`shut
      ensures Mirrors() && model == TcpConnections.Drained(old(model)) && model.out == old(model).out
    {
      hide Good, Channel.IsReading, Channel.IsWriting;
      channel.DisableWriting();
      if settings.hasWriteComplete {
        tasks := tasks + [WriteCompleteTask];
      }
      model := model.(writeInterest := false, registered := true, tasks := tasks);
      if state == Disconnecting {
        ShutdownInLoop();
      }
    }

    method HandleWrite(r: WriteResult)
      requires Valid()
      modifies this`tasks, this`model, channel, socket, outputBuffer
      ensures Valid() && model == TcpConnections.HandleWrite(old(model), r)
    {
      hide Good, Kernel, TcpConnections.Drained, Channel.IsReading, Channel.IsWriting;
      HandleWriteKeeps(model, r);
      ghost var was := model;
      if channel.IsWriting() {
        var n, errno := socket.Write(outputBuffer.Peek(), r);
        if n > 0 {
          outputBuffer.Retrieve(n);
          model := model.(wire := socket.wire, out := model.out[n..]);
          if outputBuffer.ReadableBytes() == 0 {
            Drained();
          }
        }
      }
      assert model == TcpConnections.HandleWrite(was, r);
    }

    method ConnectEstablished()
      requires Valid() && state == Connecting
      modifies this, channel
      ensures Valid() && model == TcpConnections.ConnectEstablished(old(model))
      ensures state == Connected && channel.IsReading()
    {
      hide Good, Channel.IsReading, Channel.IsWriting;
      StepKeeps(model, Establish);
      state := Connected;
      channel.EnableReading();
      model := TcpConnections.ConnectEstablished(model);
    }

    method ConnectDestroyed()
      requires Mirrors()
      modifies this`state, this`model, channel
      ensures Mirrors() && model == TcpConnections.ConnectDestroyed(old(model))
    {
      hide Good, Channel.IsReading, Channel.IsWriting;
      if state == Connected {
        Disconnect();
      }
    }

    /** The owner lets go of the connection, and may queue its destruction. */
    method LetGo(queues: bool)
      requires Valid() && !disowned && state != Connecting && (queues || model.closes > 0)
      modifies this`disowned, this`tasks, this`model
      ensures Valid() && model == Disown(old(model), queues)
    {
      hide Good, Channel.IsReading, Channel.IsWriting;
      StepKeeps(model, Disowns(queues));
      disowned := true;
      if queues { tasks := tasks + [DestroyTask]; }
      model := Disown(model, queues);
    }

    method StartReadInLoop()
      requires Valid()
      modifies this, channel
      ensures Valid() && model == TcpConnections.StartReadInLoop(old(model))
    {
      hide Good, Channel.IsReading, Channel.IsWriting;
      StepKeeps(model, StartRead);
      model := TcpConnections.StartReadInLoop(model);
      if state != Connected { return; }
      if !reading || !channel.IsReading() {
        channel.EnableReading();
        reading := true;
      }
    }

    method StopReadInLoop()
      requires Valid()
      modifies this, channel
      ensures Valid() && model == TcpConnections.StopReadInLoop(old(model))
    {
      hide Good, Channel.IsReading, Channel.IsWriting;
      StepKeeps(model, StopRead);
      model := TcpConnections.StopReadInLoop(model);
      if state == Disconnected { return; }
      if reading || channel.IsReading() {
        channel.DisableReading();
        reading := false;
      }
    }

    /** The loop runs the first of the connection's functors. */
    method RunFirst(r: WriteResult)
      requires Valid() && tasks != []
      modifies this, channel, socket, outputBuffer, outputBuffer.buffer
      ensures Valid() && model == RunTask(old(model), r)
    {
      hide Good, TcpConnections.Perform, Channel.IsReading, Channel.IsWriting;
      RunTaskKeeps(model, r);
      var task := tasks[0];
      tasks := tasks[1..];
      model := model.(tasks := tasks);
      Perform(task, r);
    }

    method Perform(task: Task, r: WriteResult)
      requires Represents()
      modifies this, channel, socket, outputBuffer, outputBuffer.buffer
      ensures Represents() && model == TcpConnections.Perform(old(model), task, r)
    {
      hide Good, TcpConnections.SendInLoop, Mirrors;
      match task {
        case SendTask(data) => SendInLoop(data, r);
        case ShutdownTask => ShutdownInLoop();
        case CloseTask => ForceCloseInLoop();
        case DestroyTask => ConnectDestroyed();
        case _ =>
      }
    }
  }

  lemma NothingToKeep(c: Conn)
    ensures Keep(c, []) == c
  {
  }
}
