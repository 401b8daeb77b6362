/** The connector and its client as objects, in the source's own steps. Each method is proved
  * to be the step of ConnectorSpec.dfy that the whole-run theorems are about. */
module ConnectorObjects {
  import opened Prelude
  import opened Connectors

  /** The loop, the poller and the kernel as these two see them. */
  class Host {
    // EventLoop and TimerQueue: what is queued, how much of it is the batch being run, and
    // the retry timers set before this round and in it.
    var pendingFunctors: seq<Task>
    var batch: nat
    var callingPendingFunctors: bool
    var justMade: bool
    var ripe: nat
    var unripe: nat
    // The poller's channels, and the sockets opened.
    var channels: map<nat, Owner>
    var sockets: map<nat, Fate>
    var nextFd: nat
    var delays: seq<int>
    var aborted: bool

    function Q(): Loop
      reads this
    {
      Loop(pendingFunctors, batch, callingPendingFunctors, justMade, ripe, unripe)
    }

    function K(): Kernel
      reads this
    {
      Kernel(sockets, channels, nextFd)
    }

    /** Before anything is started, in the loop's own functors or handlers. */
    constructor (inFunctor: bool)
      ensures Q() == Idle(true, inFunctor).q && K() == Idle(true, inFunctor).k && delays == [] && !aborted
    {
      pendingFunctors, batch, callingPendingFunctors, justMade := [], 0, inFunctor, false;
      ripe, unripe, delays, aborted := 0, 0, [], false;
      channels, sockets, nextFd := map[], map[], 0;
    }

    method QueueInLoop(t: Task)
      modifies `pendingFunctors
      ensures pendingFunctors == old(pendingFunctors) + [t]
    {
      pendingFunctors := pendingFunctors + [t];
    }

    method RunAfter(delay: int)
      modifies `unripe, `delays
      ensures unripe == old(unripe) + 1 && delays == old(delays) + [delay]
    {
      unripe := unripe + 1;
      delays := delays + [delay];
    }

    method OpenSocket() returns (s: nat)
      modifies `sockets, `nextFd
      ensures s == old(nextFd) && sockets == old(sockets)[s := Held] && nextFd == s + 1
    {
      s := nextFd;
      sockets := sockets[s := Held];
      nextFd := s + 1;
    }

    /** The next functor of the batch leaves the queue. */
    method TakeFunctor() returns (t: Task)
      requires |pendingFunctors| > 0 && batch > 0
      modifies `pendingFunctors, `batch
      ensures t == old(pendingFunctors)[0]
      ensures pendingFunctors == old(pendingFunctors)[1..] && batch == old(batch) - 1
    {
      t := pendingFunctors[0];
      pendingFunctors, batch := pendingFunctors[1..], batch - 1;
    }
  }

  /** TcpClient. */
  class TcpClient {
    const host: Host
    var connect: bool
    var retry: bool
    var connection: Option<nat>
    /** Between removeConnection's check and its call of restart(). */
    var restarting: bool
    /** Connections whose shutdown() has been called. */
    var told: seq<nat>

    constructor (h: Host, enableRetry: bool)
      ensures host == h && View() == Init(enableRetry).client
    {
      host := h;
      connect, retry, connection, restarting, told := true, enableRetry, None, false, [];
    }

    function View(): Client
      reads this
    {
      Client(connect, retry, connection, restarting, told)
    }

    /** The connection object takes the socket and registers a channel of its own. */
    method NewConnection(sock: nat)
      modifies `connection, host`justMade, host`sockets, host`channels, host`aborted
      ensures connection == Some(sock) && host.justMade
      ensures host.sockets == old(host.sockets)[sock := Handed]
      ensures host.channels == if sock in old(host.channels) then old(host.channels)
                               else old(host.channels)[sock := ByConnection]
      ensures host.aborted == (old(host.aborted) || sock in old(host.channels))
    {
      connection := Some(sock);
      host.justMade := true;
      host.sockets := host.sockets[sock := Handed];
      if sock in host.channels {
        host.aborted := true;
      } else {
        host.channels := host.channels[sock := ByConnection];
      }
    }

    method Disconnect()
      modifies `connect, `told
      ensures View() == Connectors.Disconnecting(old(View()))
    {
      connect := false;
      if connection.Some? {
        told := told + [connection.value];
      }
    }

    method NoMore()
      modifies `connect
      ensures View() == old(View()).(connect := false)
    {
      connect := false;
    }
  }

  /** Connector. */
  class Connector {
    const host: Host
    const client: TcpClient
    var state: State
    var connect: bool
    var channel: Option<nat>
    var retryDelayMs: int

    constructor (h: Host, c: TcpClient)
      requires c.host == h
      ensures host == h && client == c
      ensures Core(state, connect, channel, retryDelayMs) == Init(c.retry).core.(connect := false)
    {
      host, client := h, c;
      state, connect, channel, retryDelayMs := Disconnected, false, None, INIT_RETRY_DELAY_MS;
    }

    predicate Valid()
      reads this
    {
      client.host == host
    }

    function View(): Sys
      reads this, host, client
    {
      Sys(Core(state, connect, channel, retryDelayMs), client.View(), host.Q(), host.K(), host.delays, host.aborted)
    }

    /** A failed assertion: nothing after it counts, so the state stays as it was there. */
    method Fail()
      modifies host`aborted
      ensures View() == Abort(old(View()))
    {
      host.aborted := true;
    }

    method CloseSocket(s: nat)
      modifies host`sockets, host`aborted
      ensures View() == Close(old(View()), s)
    {
      if s in host.sockets && host.sockets[s].Held? && s !in host.channels {
        host.sockets := host.sockets[s := Closed];
      } else {
        host.aborted := true;
      }
    }

    method EnableWriting(s: nat)
      modifies host`channels, host`aborted
      ensures View() == Register(old(View()), s, ByConnector)
    {
      if s in host.channels {
        host.aborted := true;
      } else {
        host.channels := host.channels[s := ByConnector];
      }
    }

    method RemoveFromPoller(s: nat)
      modifies host`channels, host`aborted
      ensures View() == Unregister(old(View()), s, ByConnector)
    {
      if s in host.channels && host.channels[s].ByConnector? {
        host.channels := host.channels - {s};
      } else {
        host.aborted := true;
      }
    }

    method SetState(s: State)
      modifies `state
      ensures state == s
    {
      state := s;
    }

    method ScheduleRetry()
      modifies host`unripe, host`delays, `retryDelayMs
      ensures var e := old(View());
              View() == e.(q := e.q.(unripe := e.q.unripe + 1), delays := e.delays + [e.core.delay],
                           core := e.core.(delay := Min(e.core.delay * 2, MAX_RETRY_DELAY_MS)))
    {
      host.RunAfter(retryDelayMs);
      retryDelayMs := Min(retryDelayMs * 2, MAX_RETRY_DELAY_MS);
    }

    method RetryLater(s: nat)
      modifies this, host
      ensures View() == Retry(old(View()), s)
    {
      CloseSocket(s);
      SetState(Disconnected);
      if connect {
        ScheduleRetry();
      }
    }

    method Connecting(s: nat)
      modifies this, host
      ensures View() == BeginConnecting(old(View()), s)
    {
      SetState(State.Connecting);
      if channel.Some? {
        Fail();
      } else {
        channel := Some(s);
        EnableWriting(s);
      }
    }

    method Connect(res: ConnectResult)
      modifies this, host
      ensures View() == Connectors.Connect(old(View()), res)
    {
      hide BeginConnecting, Connectors.Retry, Connectors.Close;
      var s := host.OpenSocket();
      match res {
        case Underway => Connecting(s);
        case Refused => RetryLater(s);
        case Fatal => CloseSocket(s);
      }
    }

    method StartInLoop(res: ConnectResult)
      modifies this, host
      ensures View() == Connectors.StartInLoop(old(View()), res)
    {
      hide Connectors.Connect;
      if !state.Disconnected? {
        Fail();
      } else if connect {
        Connect(res);
      }
    }

    /** The channel leaves the poller now and dies later: it is inside its own handler. */
    method RemoveAndResetChannel() returns (sock: nat)
      modifies host
      ensures View() == Connectors.RemoveAndResetChannel(old(View()))
      ensures channel.Some? ==> sock == channel.value
    {
      sock := 0;
      if channel.None? {
        Fail();
      } else {
        sock := channel.value;
        RemoveFromPoller(sock);
        host.QueueInLoop(ResetTask);
      }
    }

    method ResetChannel()
      modifies this, host`aborted
      ensures View() == Connectors.ResetChannel(old(View()))
    {
      if channel.Some? && channel.value in host.channels && host.channels[channel.value].ByConnector? {
        Fail();
      } else {
        channel := None;
      }
    }

    method HandOver(sock: nat)
      requires Valid()
      modifies host, client
      ensures View() == Connectors.NewConnection(old(View()), sock)
    {
      client.NewConnection(sock);
    }

    method HandleWrite(soError: bool)
      requires Valid()
      modifies this, host, client
      ensures View() == Connectors.HandleWrite(old(View()), soError)
    {
      hide Connectors.Retry, Connectors.Close, Connectors.NewConnection, Connectors.RemoveAndResetChannel;
      if state.Connecting? && channel.Some? {
        var sock := RemoveAndResetChannel();
        if soError {
          RetryLater(sock);
        } else {
          SetState(Connected);
          if connect {
            HandOver(sock);
          } else {
            CloseSocket(sock);
          }
        }
      } else if !state.Disconnected? {
        Fail();
      }
    }

    method HandleError()
      modifies this, host
      ensures View() == Connectors.HandleError(old(View()))
    {
      hide Connectors.Retry, Connectors.RemoveAndResetChannel;
      if state.Connecting? {
        if channel.Some? {
          var sock := RemoveAndResetChannel();
          RetryLater(sock);
        } else {
          Fail();
        }
      }
    }

    /** Channel::handleEventWithGuard for the two callbacks set: error, then write. */
    method HandleEvent(err: bool, writable: bool, soError: bool)
      requires Valid()
      modifies this, host, client
      ensures View() == ChannelEvent(old(View()), err, writable, soError)
    {
      hide Connectors.HandleWrite, Connectors.HandleError;
      if err {
        HandleError();
      }
      if writable {
        HandleWrite(soError);
      }
    }

    /** At once in the loop's own thread, by a functor from another. */
    method Start(inLoopThread: bool, res: ConnectResult)
      modifies this, host
      ensures var c := old(View()).(core := old(View()).core.(connect := true));
              View() == if inLoopThread then Connectors.StartInLoop(c, res) else Queue(c, StartTask)
    {
      hide Connectors.StartInLoop;
      SetWanted();
      if inLoopThread {
        StartInLoop(res);
      } else {
        host.QueueInLoop(StartTask);
      }
    }

    method SetWanted()
      modifies `connect
      ensures connect
    {
      connect := true;
    }

    method Stop()
      modifies this, host
      ensures View() == Queue(old(View()).(core := old(View()).core.(connect := false)), StopTask)
    {
      connect := false;
      host.QueueInLoop(StopTask);
    }

    method StopInLoop()
      modifies this, host
      ensures View() == Connectors.StopInLoop(old(View()))
    {
      hide Connectors.Retry, Connectors.RemoveAndResetChannel;
      if state.Connecting? {
        if channel.None? {
          Fail();
        } else {
          SetState(Disconnected);
          var sock := RemoveAndResetChannel();
          RetryLater(sock);
        }
      }
    }

    method Restart(res: ConnectResult)
      requires Valid()
      modifies this, host, client
      ensures View() == Connectors.Restart(old(View()), res)
    {
      hide Connectors.StartInLoop;
      Forget();
      StartInLoop(res);
    }

    /** What restart() resets before it starts again. */
    method Forget()
      requires Valid()
      modifies this, host`delays, client`restarting
      ensures View() == old(View()).(core := old(View()).core.(state := Disconnected, delay := INIT_RETRY_DELAY_MS,
                                                               connect := true),
                                     delays := [], client := old(View()).client.(restarting := false))
    {
      state := Disconnected;
      retryDelayMs := INIT_RETRY_DELAY_MS;
      connect := true;
      host.delays := [];
      client.restarting := false;
    }

    // ------------------------------------------ what the client does with it

    /** TcpClient::removeConnection as far as its check. */
    method ConnectionClosed()
      requires Valid()
      modifies client, host
      ensures View() == Connectors.ConnectionClosed(old(View()))
    {
      if client.connection.None? {
        Fail();
      } else {
        var sock := client.connection.value;
        client.connection := None;
        host.QueueInLoop(DestroyTask(sock));
        client.restarting := client.retry && client.connect;
      }
    }

    /** TcpClient::removeConnection, with no other thread between its check and restart(). */
    method RemoveConnection(res: ConnectResult)
      requires Valid() && !client.restarting
      modifies this, client, host
      ensures var d := Connectors.ConnectionClosed(old(View()));
              View() == if d.client.restarting then Connectors.Restart(d, res) else d
    {
      hide Connectors.ConnectionClosed, Connectors.Restart;
      ConnectionClosed();
      if client.restarting {
        Restart(res);
      }
    }

    method ClientStop()
      requires Valid()
      modifies this, client, host
      ensures !old(View()).aborted ==> View() == Step(old(View()), Event.Stop)
    {
      client.NoMore();
      Stop();
    }

    /** TcpConnection::connectDestroyed and the end of the object that owns the socket. */
    method ConnectDestroyed(s: nat)
      modifies host
      ensures View() == Connectors.ConnectDestroyed(old(View()), s)
    {
      if s in host.channels && host.channels[s].ByConnection? {
        host.channels := host.channels - {s};
      } else {
        host.aborted := true;
      }
      host.sockets := host.sockets[s := Released];
    }

    /** One functor of doPendingFunctors. */
    method RunFunctor(res: ConnectResult)
      requires Valid() && |host.pendingFunctors| > 0 && host.batch > 0 && !host.aborted
      modifies this, client, host
      ensures View() == Step(old(View()), Event.RunFunctor(res))
    {
      hide Connectors.StartInLoop, Connectors.StopInLoop, Connectors.ResetChannel, Connectors.ConnectionClosed,
           Connectors.ConnectDestroyed;
      var t := host.TakeFunctor();
      match t {
        case StartTask => StartInLoop(res);
        case StopTask => StopInLoop();
        case ResetTask => ResetChannel();
        case ForceCloseTask(s) => if client.connection == Some(s) { ConnectionClosed(); }
        case DestroyTask(s) => ConnectDestroyed(s);
      }
    }
  }
}
