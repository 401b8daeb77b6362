/** The connection object: its methods, statement by statement, against the state it is
  * specified by. */
module TcpConnections {
  import opened Prelude
  import opened Connections
  import opened ConnectionTheorems
  import B = Buffers
  import P = Pollers

  class TcpConnection {
    var state: State
    var channel: Chan
    const outputBuffer: B.Buffer
    const inputBuffer: B.Buffer
    const cfg: Config
    // What the loop holds for this connection, and the callbacks called or queued.
    var queue: Loop
    var notes: seq<Note>
    // The socket as the kernel sees it, and what passed through the connection.
    ghost var wire: seq<Byte>
    ghost var fin: bool
    ghost var sent: seq<Sent>
    ghost var received: seq<Byte>
    ghost var consumed: seq<Byte>
    var aborted: bool

    ghost predicate Valid()
      reads this, outputBuffer, inputBuffer
    {
      && outputBuffer.Valid() && inputBuffer.Valid()
      && outputBuffer != inputBuffer && outputBuffer.buffer != inputBuffer.buffer
    }

    ghost function View(): Conn
      requires Valid()
      reads this, outputBuffer, inputBuffer, outputBuffer.buffer, inputBuffer.buffer
    {
      Conn(state, channel, Output(outputBuffer.View().readable, wire, fin, sent),
           Input(inputBuffer.View().readable, received, consumed), queue, cfg, notes, aborted)
    }

    /** Made by an owner on this loop or another, with the callbacks the user has set. */
    constructor (config: Config)
      ensures Valid() && fresh(outputBuffer) && fresh(inputBuffer)
      ensures fresh(outputBuffer.buffer) && fresh(inputBuffer.buffer)
      ensures View() == Fresh(config)
    {
      state, channel := Connecting, Chan(false, false, P.New, true);
      cfg := config;
      outputBuffer := new B.Buffer();
      inputBuffer := new B.Buffer();
      queue, notes := Loop([], [], [], Handling(None), Untouched), [];
      wire, fin, sent, received, consumed := [], false, [], [], [];
      aborted := false;
    }

    // ---------------------------------------------------------- channel

    method EnableReading()
      modifies this`channel
      ensures channel == old(channel).(reading := true, index := P.NextIndex(old(channel).index, true))
    {
      channel := channel.(reading := true);
      channel := channel.(index := P.NextIndex(channel.index, channel.reading || channel.writing));
    }

    method EnableWriting()
      modifies this`channel
      ensures channel == old(channel).(writing := true, index := P.NextIndex(old(channel).index, true))
    {
      channel := channel.(writing := true);
      channel := channel.(index := P.NextIndex(channel.index, channel.reading || channel.writing));
    }

    method DisableWriting()
      modifies this`channel
      ensures channel == old(channel).(writing := false, index := P.NextIndex(old(channel).index, old(channel).reading))
    {
      channel := channel.(writing := false);
      channel := channel.(index := P.NextIndex(channel.index, channel.reading || channel.writing));
    }

    method DisableReading()
      modifies this`channel
      ensures channel == old(channel).(reading := false, index := P.NextIndex(old(channel).index, old(channel).writing))
    {
      channel := channel.(reading := false);
      channel := channel.(index := P.NextIndex(channel.index, channel.reading || channel.writing));
    }

    method DisableAllEvents()
      modifies this`channel
      ensures channel == DisableAll(old(channel))
    {
      channel := channel.(reading := false, writing := false);
      channel := channel.(index := P.NextIndex(channel.index, channel.reading || channel.writing));
    }

    method QueueInLoop(t: Task)
      modifies this`queue
      ensures queue == old(queue).(tasks := old(queue).tasks + [t])
    {
      queue := queue.(tasks := queue.tasks + [t]);
    }

    method Notify(n: Note)
      modifies this`notes
      ensures notes == old(notes) + [n]
    {
      notes := notes + [n];
    }

    // ----------------------------------------------------------- output

    method SendInLoop(data: seq<Byte>, r: WriteResult, ghost remote: bool)
      requires Valid() && WriteOk(View(), |data|, r)
      modifies this, outputBuffer, outputBuffer.buffer
      ensures Valid()
      ensures outputBuffer.buffer == old(outputBuffer.buffer) || fresh(outputBuffer.buffer)
      ensures View() == Connections.SendInLoop(old(View()), data, r, remote)
    {
      if state.Disconnected? {
        sent := sent + [Sent(data, GaveUp, remote)];
      } else {
        SendLive(data, r, remote);
      }
    }

    method SendLive(data: seq<Byte>, r: WriteResult, ghost remote: bool)
      requires Valid() && WriteOk(View(), |data|, r) && !state.Disconnected?
      modifies this, outputBuffer, outputBuffer.buffer
      ensures Valid()
      ensures outputBuffer.buffer == old(outputBuffer.buffer) || fresh(outputBuffer.buffer)
      ensures View() == Connections.SendInLoop(old(View()), data, r, remote)
    {
      ghost var c := View();
      SendCases(c, data, r, remote);
      hide Connections.SendInLoop, Keep, Drop, SendNotes, IsFault, Taken, TakenWhole, WriteOk;
      var nwrote, faultError := WriteDirectly(data, r);
      var remaining := |data| - nwrote;
      sent := sent + [Sent(data, if faultError then Faulted else Kept, remote)];
      ghost var d := View();
      if !faultError && remaining > 0 {
        BufferRest(data[nwrote..]);
      }
      KeptIs(c, d, View(), data, nwrote, TakenWhole(c, |data|, r), remote, faultError);
    }

    /** The pieces of a send put together: c before, d after the direct write, x after
      * the rest has been buffered. */
    static lemma KeptIs(c: Conn, d: Conn, x: Conn, data: seq<Byte>, n: nat, done: bool, remote: bool, fault: bool)
      requires n <= |data| && (done ==> n == |data|) && (fault ==> n == 0 && !done)
      requires d == c.(tx := c.tx.(wire := c.tx.wire + data[..n],
                                   sent := c.tx.sent + [Sent(data, if fault then Faulted else Kept, remote)]),
                       notes := c.notes + (if done && c.cfg.onComplete then [WriteComplete] else []))
      requires if fault || n == |data| then x == d else
                 x == d.(tx := d.tx.(out := d.tx.out + data[n..]),
                         ch := if d.ch.writing then d.ch
                               else d.ch.(writing := true, index := P.NextIndex(d.ch.index, true)),
                         notes := d.notes + SendNotes(d, false, |data| - n))
      ensures x == if fault then Drop(c, data, Faulted, remote) else Keep(c, data, n, done, remote)
    {
      assert data[..0] == [] && c.tx.wire + [] == c.tx.wire && c.tx.out + [] == c.tx.out;
      assert c.notes + [] == c.notes;
      if n == |data| {
        assert data[n..] == [];
      }
    }

    static lemma SendCases(c: Conn, data: seq<Byte>, r: WriteResult, remote: bool)
      requires !c.state.Disconnected? && WriteOk(c, |data|, r)
      ensures c.CanWriteDirectly() && IsFault(r) ==>
                Connections.SendInLoop(c, data, r, remote) == Drop(c, data, Faulted, remote)
      ensures !(c.CanWriteDirectly() && IsFault(r)) ==>
                Connections.SendInLoop(c, data, r, remote)
                == Keep(c, data, Taken(c, |data|, r), TakenWhole(c, |data|, r), remote)
      ensures TakenWhole(c, |data|, r) ==> Taken(c, |data|, r) == |data| && !IsFault(r)
    {
    }

    /** The first half of sendInLoop: straight to the kernel, when nothing waits. */
    method WriteDirectly(data: seq<Byte>, r: WriteResult) returns (nwrote: nat, faultError: bool)
      requires Valid() && WriteOk(View(), |data|, r) && !state.Disconnected?
      modifies this`wire, this`notes
      ensures Valid()
      ensures faultError == (old(View()).CanWriteDirectly() && IsFault(r))
      ensures nwrote == Taken(old(View()), |data|, r) && (faultError ==> nwrote == 0)
      ensures View() == old(View()).(
                          tx := old(View()).tx.(wire := old(wire) + data[..nwrote]),
                          notes := old(notes) + (if TakenWhole(old(View()), |data|, r) && cfg.onComplete
                                                 then [WriteComplete] else []))
    {
      nwrote, faultError := 0, false;
      if !channel.writing && outputBuffer.ReadableBytes() == 0 {
        match r {
          case Wrote(n) =>
            nwrote := n;
            wire := wire + data[..n];
            if |data| - nwrote == 0 && cfg.onComplete {
              Notify(WriteComplete);
            }
          case WriteFailed(errno) =>
            if errno.BrokenPipe? || errno.ConnReset? {
              faultError := true;
            }
        }
      }
    }

    /** The second half of sendInLoop: what the kernel has not taken. */
    method BufferRest(rest: seq<Byte>)
      requires Valid() && |rest| > 0
      modifies this`channel, this`notes, outputBuffer, outputBuffer.buffer
      ensures Valid() && (outputBuffer.buffer == old(outputBuffer.buffer) || fresh(outputBuffer.buffer))
      ensures View() == old(View()).(
                          tx := old(View()).tx.(out := old(View()).tx.out + rest),
                          ch := if old(channel).writing then old(channel)
                                else old(channel).(writing := true, index := P.NextIndex(old(channel).index, true)),
                          notes := old(notes) + SendNotes(old(View()), false, |rest|))
    {
      ghost var d := View();
      var oldLen := outputBuffer.ReadableBytes();
      assert oldLen == |d.tx.out|;
      if oldLen + |rest| >= cfg.mark && oldLen < cfg.mark && cfg.onHigh {
        Notify(HighWater(oldLen + |rest|));
      }
      assert notes == d.notes + SendNotes(d, false, |rest|);
      hide SendNotes;
      outputBuffer.Append(rest);
      if !channel.writing {
        EnableWriting();
      }
    }

    method HandleWrite(r: WriteResult)
      requires Valid() && WriteOk(View(), |View().tx.out|, r)
      modifies this, outputBuffer
      ensures Valid()
      ensures View() == Connections.HandleWrite(old(View()), r)
    {
      if channel.writing {
        if r.Wrote? && r.n > 0 {
          ghost var out := outputBuffer.View().readable;
          wire := wire + out[..r.n];
          outputBuffer.Retrieve(r.n);
          assert r.n == |out| ==> out[..r.n] == out;
          assert outputBuffer.View().readable == out[r.n..];
          if outputBuffer.ReadableBytes() == 0 {
            DisableWriting();
            if cfg.onComplete {
              Notify(WriteComplete);
            }
            if state.Disconnecting? {
              ShutdownInLoop();
            }
          }
        }
      }
    }

    method ShutdownInLoop()
      requires Valid()
      modifies this`fin
      ensures Valid() && View() == Connections.ShutdownInLoop(old(View()))
    {
      if !channel.writing {
        fin := true;  // socket_->shutdownWrite()
      }
    }

    /** send(), from the loop's own thread or from another one. */
    method Send(message: seq<Byte>, inLoopThread: bool, r: WriteResult)
      requires Valid() && WriteOk(View(), |message|, r) && !aborted
      modifies this, outputBuffer, outputBuffer.buffer
      ensures Valid()
      ensures outputBuffer.buffer == old(outputBuffer.buffer) || fresh(outputBuffer.buffer)
      ensures View() == Step(old(View()), if inLoopThread then SendLocal(message, r) else SendRemote(message))
    {
      if |message| > 0 && state.Connected? {
        if inLoopThread {
          SendInLoop(message, r, false);
        } else {
          QueueInLoop(SendTask(message));
          queue := queue.(offered := queue.offered + [message]);
        }
      }
    }

    method Shutdown(inLoopThread: bool)
      requires Valid() && !aborted
      modifies this
      ensures Valid() && View() == Step(old(View()), if inLoopThread then ShutdownLocal else ShutdownRemote)
    {
      if state.Connected? {
        state := Disconnecting;
        if inLoopThread {
          ShutdownInLoop();
        } else {
          QueueInLoop(ShutdownTask);
        }
      }
    }

    method ForceClose()
      requires Valid() && !aborted
      modifies this
      ensures Valid() && View() == Step(old(View()), Event.ForceClose)
    {
      if state.Connected? || state.Disconnecting? {
        state := Disconnecting;
        QueueInLoop(ForceCloseTask);
      }
    }

    /** The timer that later calls ForceClose is the loop's. */
    method ForceCloseWithDelay()
      requires Valid() && !aborted
      modifies this
      ensures Valid() && View() == Step(old(View()), DelayForceClose)
    {
      if state.Connected? || state.Disconnecting? {
        state := Disconnecting;
      }
    }

    // ------------------------------------------------- input and closing

    method HandleRead(r: ReadResult)
      requires Valid() && (r.Got? ==> 0 < |r.data| <= inputBuffer.View().ReadCapacity())
      modifies this, inputBuffer, inputBuffer.buffer
      ensures Valid()
      ensures inputBuffer.buffer == old(inputBuffer.buffer) || fresh(inputBuffer.buffer)
      ensures View() == Connections.HandleRead(old(View()), r)
      ensures r.Got? ==> inputBuffer.View().readable == old(inputBuffer.View().readable) + r.data
    {
      var n := inputBuffer.ReadFd(
        match r case Got(data) => Some(data) case Eof => Some([]) case ReadFailed => None);
      if n > 0 {
        received := received + r.data;
        Notify(Message);
      } else if n == 0 {
        assert inputBuffer.View().readable + [] == inputBuffer.View().readable;
        HandleClose();
      }
    }

    /** retrieve(), by the user's message callback. */
    method Consume(len: int)
      requires Valid() && !aborted
      modifies this, inputBuffer
      ensures Valid()
      ensures View() == Step(old(View()), Event.Consume(len))
    {
      var input := inputBuffer.View().readable;
      consumed := consumed + (if 0 <= len < |input| then input[..len] else input);
      inputBuffer.Retrieve(len);
    }

    method HandleClose()
      requires Valid()
      modifies this
      ensures Valid() && View() == Connections.HandleClose(old(View()))
    {
      if !(state.Disconnecting? || state.Connected?) {
        aborted := true;
        return;
      }
      state := Disconnected;
      DisableAllEvents();
      Notify(Down);
      Notify(CloseNotified);
      assert old(notes) + [Down] + [CloseNotified] == old(notes) + [Down, CloseNotified];
      if cfg.ownerHere {
        OwnerEnds();
      }
    }

    /** The owner, on this loop, has connectDestroyed queued from the close callback. */
    method OwnerEnds()
      modifies this`queue
      ensures queue == Ending(old(queue))
    {
      QueueInLoop(DestroyTask);
      queue := queue.(owner := Ended);
    }

    method ForceCloseInLoop()
      requires Valid()
      modifies this
      ensures Valid() && View() == Connections.ForceCloseInLoop(old(View()))
    {
      if state.Connected? || state.Disconnecting? {
        HandleClose();
      }
    }

    method ConnectEstablished()
      requires Valid()
      modifies this
      ensures Valid() && View() == Connections.ConnectEstablished(old(View()))
    {
      if !state.Connecting? {
        aborted := true;
        return;
      }
      state := Connected;
      EnableReading();
      Notify(Up);
    }

    method ConnectDestroyed()
      requires Valid()
      modifies this
      ensures Valid() && View() == Connections.ConnectDestroyed(old(View()))
    {
      if state.Connected? {
        state := Disconnected;
        DisableAllEvents();
        Notify(Down);
      }
      if channel.reading || channel.writing || channel.index.New? {
        aborted := true;
        return;
      }
      channel := channel.(index := P.New);
    }

    method StartReadInLoop()
      requires Valid()
      modifies this
      ensures Valid() && View() == Connections.StartReadInLoop(old(View()))
    {
      if !channel.readFlag || !channel.reading {
        EnableReading();
        channel := channel.(readFlag := true);
      }
    }

    method StopReadInLoop()
      requires Valid()
      modifies this
      ensures Valid() && View() == Connections.StopReadInLoop(old(View()))
    {
      if channel.readFlag || channel.reading {
        DisableReading();
        channel := channel.(readFlag := true);
      }
    }

    // ---------------------------------------------- events and functors

    /** Channel::handleEventWithGuard with this connection's callbacks; handleError does
      * nothing. */
    method HandleEvent(flags: set<P.Flag>, rr: ReadResult, wr: WriteResult)
      requires Valid() && WriteOk(View(), |View().tx.out|, wr)
      requires rr.Got? ==> 0 < |rr.data| <= inputBuffer.View().ReadCapacity()
      requires !aborted
      modifies this, outputBuffer, inputBuffer, inputBuffer.buffer
      ensures Valid()
      ensures inputBuffer.buffer == old(inputBuffer.buffer) || fresh(inputBuffer.buffer)
      ensures View() == Deliver(old(View()), Handlers(flags), rr, wr)
    {
      DeliverInOrder(View(), flags, rr, wr);
      ReadsIff(flags);
      hide Handlers, Deliver, Reads, Connections.HandleClose, Connections.HandleRead, Connections.HandleWrite;
      InputSideKeepsOutput(View(), rr);
      if P.Hup in flags && P.In !in flags {
        HandleClose();
        InputSideKeepsOutput(View(), rr);
      }
      if !aborted && flags * {P.In, P.Pri, P.RdHup} != {} {
        HandleRead(rr);
      }
      if !aborted && P.Out in flags {
        HandleWrite(wr);
      }
    }

    /** One functor off the head of the loop's queue. */
    method RunFunctor(wr: WriteResult)
      requires Valid() && !aborted && |queue.tasks| > 0
      requires queue.tasks[0].SendTask? ==> WriteOk(View(), |queue.tasks[0].msg|, wr)
      modifies this, outputBuffer, outputBuffer.buffer
      ensures Valid()
      ensures outputBuffer.buffer == old(outputBuffer.buffer) || fresh(outputBuffer.buffer)
      ensures View() == Step(old(View()), Event.RunFunctor(wr))
    {
      var task := queue.tasks[0];
      TakeFunctor();
      match task {
        case SendTask(m) => SendInLoop(m, wr, true);
        case ShutdownTask => ShutdownInLoop();
        case ForceCloseTask => ForceCloseInLoop();
        case StartReadTask => StartReadInLoop();
        case StopReadTask => StopReadInLoop();
        case EstablishTask => ConnectEstablished();
        case DestroyTask => ConnectDestroyed();
      }
    }

    method TakeFunctor()
      requires Valid() && |queue.tasks| > 0
      modifies this`queue
      ensures Valid() && View() == Popped(old(View()))
    {
      queue := queue.(tasks := queue.tasks[1..]);
      if queue.phase.Functors? && queue.phase.left > 0 {
        queue := queue.(phase := Functors(queue.phase.left - 1));
      }
    }
  }
}
