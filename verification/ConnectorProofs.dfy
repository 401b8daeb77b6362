/** One attempt at a time, sockets conserved, and the old channel gone before the next. */
module ConnectorProofs {
  import opened Prelude
  import opened Connectors

  function Bit(b: bool): nat { if b then 1 else 0 }

  /** Everything that is, or may lead to, an attempt or a connection. */
  function Attempts(c: Sys): nat {
    Bit(StartTask in c.q.tasks) + c.q.ripe + c.q.unripe + Bit(c.core.state.Connecting?)
    + Bit(c.client.connection.Some?) + Bit(c.client.restarting)
  }

  /** Only stops and forced closes are queued more than once. */
  ghost predicate Unique(tasks: seq<Task>) {
    forall i, j :: 0 <= i < j < |tasks| && tasks[i] == tasks[j] ==> tasks[i].StopTask? || tasks[i].ForceCloseTask?
  }

  /** The channel is the one being connected, or is waiting to be reset. */
  ghost predicate ChannelOk(c: Sys) {
    && (c.core.state.Connecting? ==> c.core.channel.Some?)
    && (ResetTask in c.q.tasks <==> c.core.channel.Some? && !c.core.state.Connecting?)
  }

  ghost predicate StateOk(c: Sys) {
    && (c.core.state.Connected? ==> StartTask !in c.q.tasks && c.q.ripe == 0 && c.q.unripe == 0)
    && (c.client.connection.Some? || c.client.restarting ==> c.core.state.Connected?)
  }

  /** Where each socket is. */
  ghost predicate SocketsOk(c: Sys) {
    && (forall s :: s in c.k.fates <==> 0 <= s < c.k.next)
    && (forall s :: s in c.k.fates ==>
          (c.k.fates[s].Held? <==> c.core.state.Connecting? && c.core.channel == Some(s)))
    && (forall s :: s in c.k.fates ==>
          (c.k.fates[s].Handed? <==> c.client.connection == Some(s) || DestroyTask(s) in c.q.tasks))
    && (forall s :: c.client.connection == Some(s) ==> DestroyTask(s) !in c.q.tasks && s in c.k.fates)
    && (forall s :: DestroyTask(s) in c.q.tasks ==> s in c.k.fates)
    && (forall s :: ForceCloseTask(s) in c.q.tasks ==>
          s in c.k.fates && (c.k.fates[s].Handed? || c.k.fates[s].Released?))
    && (c.core.channel.Some? ==> c.core.channel.value in c.k.fates)
  }

  /** What the poller knows: the channel being connected, and each connection's own. */
  ghost predicate TableOk(c: Sys) {
    && (forall s :: s in c.k.table ==> s in c.k.fates)
    && (forall s :: s in c.k.fates ==>
          (s in c.k.table <==> c.k.fates[s].Held? || c.k.fates[s].Handed?)
          && (c.k.fates[s].Held? ==> c.k.table[s].ByConnector?)
          && (c.k.fates[s].Handed? ==> c.k.table[s].ByConnection?))
  }

  /** The queued reset comes before all that may start again: before any forced close of
    * the connection just made, and before the next round's events. */
  ghost predicate ResetFirst(c: Sys) {
    ResetTask in c.q.tasks ==>
      && c.q.ripe == 0 && StartTask !in c.q.tasks && !c.client.restarting
      && (c.client.connection.Some? || c.q.unripe > 0 ==>
            !c.q.functors || (c.q.batch <= |c.q.tasks| && ResetTask in c.q.tasks[..c.q.batch]))
      && (c.client.connection.Some? ==>
            && (!c.q.functors ==> c.q.justMade)
            && forall i, j :: 0 <= i < j < |c.q.tasks| && c.q.tasks[j].ResetTask? ==>
                 c.q.tasks[i] != ForceCloseTask(c.client.connection.value))
  }

  /** A stop still queued is still in force. */
  ghost predicate StopsHold(c: Sys) {
    StopTask in c.q.tasks ==> !c.core.connect && !c.client.connect && !c.client.restarting
  }

  ghost predicate Inv(c: Sys) {
    && c.q.batch <= |c.q.tasks| && Unique(c.q.tasks)
    && Attempts(c) <= 1 && ChannelOk(c) && StateOk(c) && SocketsOk(c) && TableOk(c)
    && ResetFirst(c) && StopsHold(c)
  }

  // ------------------------------------------------------------- the queue

  lemma Push(tasks: seq<Task>, t: Task)
    requires Unique(tasks) && (t in tasks ==> t.StopTask? || t.ForceCloseTask?)
    ensures Unique(tasks + [t])
    ensures forall x :: x in tasks + [t] <==> x in tasks || x == t
  {
    var u := tasks + [t];
    forall i, j | 0 <= i < j < |u| && u[i] == u[j]
      ensures u[i].StopTask? || u[i].ForceCloseTask?
    {
      if j < |tasks| { assert tasks[i] == tasks[j]; } else { assert tasks[i] == t; }
    }
  }

  lemma Pop(tasks: seq<Task>)
    requires Unique(tasks) && |tasks| > 0
    ensures Unique(tasks[1..])
    ensures forall x :: x in tasks <==> x in tasks[1..] || x == tasks[0]
    ensures tasks[0] in tasks[1..] ==> tasks[0].StopTask? || tasks[0].ForceCloseTask?
  {
    var u := tasks[1..];
    forall i, j | 0 <= i < j < |u| && u[i] == u[j]
      ensures u[i].StopTask? || u[i].ForceCloseTask?
    {
      assert tasks[i + 1] == tasks[j + 1];
    }
    assert tasks == [tasks[0]] + u;
    if tasks[0] in u {
      var j :| 0 <= j < |u| && u[j] == tasks[0];
      assert tasks[0] == tasks[j + 1];
    }
  }

  // ------------------------------------------------- what the steps are made of

  lemma InitInv(retry: bool)
    ensures Inv(Init(retry))
  {
  }

  lemma BeginInv(retry: bool, caller: Caller)
    ensures Inv(Begin(retry, caller)) && !Begin(retry, caller).aborted
  {
    match caller
    case OtherThread => InitInv(retry);
    case LoopThread(inFunctor, res) => StartInv(Idle(retry, inFunctor), res);
  }

  lemma NextRoundInv(c: Sys)
    requires Inv(c) && !c.aborted && Legal(c, NextRound)
    ensures Inv(Step(c, NextRound))
  {
  }

  lemma SwapInv(c: Sys)
    requires Inv(c) && !c.aborted && Legal(c, SwapBatch)
    ensures Inv(Step(c, SwapBatch))
  {
    assert c.q.tasks[..|c.q.tasks|] == c.q.tasks;
  }

  /** A start with nothing else under way. */
  lemma StartInv(c: Sys, res: ConnectResult)
    requires Inv(c) && !c.aborted && Attempts(c) == 0 && c.core.state.Disconnected? && ResetTask !in c.q.tasks
    ensures Inv(StartInLoop(c, res)) && !StartInLoop(c, res).aborted
  {
    if c.core.connect {
      match res
      case Underway =>
      case Refused =>
      case Fatal =>
    }
  }

  /** Giving up the attempt under way: the channel goes, the socket is closed. */
  lemma RetireInv(c: Sys)
    requires Inv(c) && !c.aborted && c.core.state.Connecting? && (c.q.functors ==> !c.core.connect)
    ensures c.core.channel.Some?
    ensures var d := Retry(RemoveAndResetChannel(c), c.core.channel.value);
            Inv(d) && !d.aborted && d.core.state.Disconnected?
  {
    Push(c.q.tasks, ResetTask);
  }

  /** The attempt succeeded and is still wanted: the socket becomes the connection's. */
  lemma HandedOverInv(c: Sys)
    requires Inv(c) && !c.aborted && c.core.state.Connecting? && !c.q.functors && c.core.connect
    ensures Inv(HandleWrite(c, false)) && !HandleWrite(c, false).aborted
  {
    Push(c.q.tasks, ResetTask);
    var d := HandleWrite(c, false);
    var s := c.core.channel.value;
    assert d.q.tasks == c.q.tasks + [ResetTask];
    assert d.k.fates == c.k.fates[s := Handed];
    assert d.k.table == (c.k.table - {s})[s := ByConnection];
    assert SocketsOk(d);
    assert TableOk(d);
  }

  /** The attempt succeeded after stop(): the socket is closed. */
  lemma UnwantedInv(c: Sys)
    requires Inv(c) && !c.aborted && c.core.state.Connecting? && !c.q.functors && !c.core.connect
    ensures Inv(HandleWrite(c, false)) && !HandleWrite(c, false).aborted
  {
    Push(c.q.tasks, ResetTask);
    var d := HandleWrite(c, false);
    var s := c.core.channel.value;
    assert d.q.tasks == c.q.tasks + [ResetTask];
    assert d.k.fates == c.k.fates[s := Closed];
    assert d.k.table == c.k.table - {s};
    assert SocketsOk(d);
  }

  lemma ClosedInv(c: Sys)
    requires Inv(c) && !c.aborted && c.client.connection.Some? && ResetTask !in c.q.tasks
    ensures Inv(ConnectionClosed(c)) && !ConnectionClosed(c).aborted
  {
    Push(c.q.tasks, DestroyTask(c.client.connection.value));
  }

  // -------------------------------------------------------- running one functor

  function Popped(c: Sys): Sys
    requires |c.q.tasks| > 0 && c.q.batch > 0
  {
    c.(q := c.q.(tasks := c.q.tasks[1..], batch := c.q.batch - 1))
  }

  ghost predicate Running(c: Sys) {
    Inv(c) && !c.aborted && c.q.functors && c.q.batch > 0
  }

  lemma PopOrder(c: Sys)
    requires Running(c) && !c.q.tasks[0].ResetTask?
    ensures ResetFirst(Popped(c))
  {
    hide Attempts, ChannelOk, StateOk, SocketsOk, TableOk, StopsHold;
    Pop(c.q.tasks);
    var d := Popped(c);
    assert c.q.tasks[..c.q.batch] == [c.q.tasks[0]] + d.q.tasks[..d.q.batch];
    assert forall i :: 0 <= i < |d.q.tasks| ==> d.q.tasks[i] == c.q.tasks[i + 1];
  }

  lemma PopInv(c: Sys)
    requires Running(c) && !c.q.tasks[0].ResetTask? && !c.q.tasks[0].DestroyTask?
    ensures Inv(Popped(c))
    ensures c.q.tasks[0].StartTask? ==>
              Attempts(Popped(c)) == 0 && c.core.state.Disconnected? && ResetTask !in Popped(c).q.tasks
  {
    Pop(c.q.tasks);
    PopOrder(c);
  }

  lemma RunStartInv(c: Sys, res: ConnectResult)
    requires Running(c) && c.q.tasks[0].StartTask?
    ensures Inv(RunTask(Popped(c), c.q.tasks[0], res)) && !RunTask(Popped(c), c.q.tasks[0], res).aborted
  {
    hide StartInLoop, Unique, ChannelOk, StateOk, SocketsOk, TableOk, ResetFirst, StopsHold;
    PopInv(c);
    StartInv(Popped(c), res);
  }

  lemma RunStopInv(c: Sys, res: ConnectResult)
    requires Running(c) && c.q.tasks[0].StopTask?
    ensures Inv(RunTask(Popped(c), c.q.tasks[0], res)) && !RunTask(Popped(c), c.q.tasks[0], res).aborted
  {
    PopInv(c);
    var d := Popped(c);
    if d.core.state.Connecting? {
      RetireInv(d);
    }
  }

  lemma RunForceCloseInv(c: Sys, res: ConnectResult)
    requires Running(c) && c.q.tasks[0].ForceCloseTask?
    ensures Inv(RunTask(Popped(c), c.q.tasks[0], res)) && !RunTask(Popped(c), c.q.tasks[0], res).aborted
  {
    PopInv(c);
    if c.client.connection == Some(c.q.tasks[0].sock) {
      assert ResetTask !in Popped(c).q.tasks;
      ClosedInv(Popped(c));
    }
  }

  /** What the order of the queue is for: when a forced close reaches its connection the old
    * channel is gone and no reset waits, so the restart it leads to may connect at once. */
  lemma ResetBeforeClose(c: Sys)
    requires Running(c) && c.q.tasks[0].ForceCloseTask? && c.client.connection == Some(c.q.tasks[0].sock)
    ensures ResetTask !in c.q.tasks && c.core.channel.None? && StartTask !in c.q.tasks
    ensures c.q.ripe == 0 && c.q.unripe == 0
  {
  }

  lemma RunResetInv(c: Sys, res: ConnectResult)
    requires Running(c) && c.q.tasks[0].ResetTask?
    ensures Inv(RunTask(Popped(c), c.q.tasks[0], res)) && !RunTask(Popped(c), c.q.tasks[0], res).aborted
  {
    Pop(c.q.tasks);
  }

  /** The socket being released is the connection's, and the poller knows it as such. */
  lemma DestroyedFacts(c: Sys, s: nat)
    requires Running(c) && c.q.tasks[0] == DestroyTask(s)
    ensures var d := ConnectDestroyed(Popped(c), s);
      && !d.aborted && d.k == Kernel(c.k.fates[s := Released], c.k.table - {s}, c.k.next)
      && s in c.k.fates && c.k.fates[s].Handed? && s in c.k.table && DestroyTask(s) in c.q.tasks
  {
    hide Unique, Attempts, ResetFirst, StopsHold, ChannelOk, StateOk;
    assert DestroyTask(s) in c.q.tasks;
  }

  lemma DestroyedSockets(c: Sys, s: nat)
    requires Running(c) && c.q.tasks[0] == DestroyTask(s)
    ensures SocketsOk(ConnectDestroyed(Popped(c), s))
  {
    DestroyedFacts(c, s);
    Pop(c.q.tasks);
    hide Unique, Attempts, ResetFirst, StopsHold, ChannelOk, StateOk, TableOk, ConnectDestroyed;
    var d := ConnectDestroyed(Popped(c), s);
    DestroyedFrame(c, s);
  }

  lemma DestroyedFrame(c: Sys, s: nat)
    requires |c.q.tasks| > 0 && c.q.batch > 0
    ensures var d := ConnectDestroyed(Popped(c), s);
      d.core == c.core && d.client == c.client && d.q.tasks == c.q.tasks[1..]
  {
  }

  lemma DestroyedTable(c: Sys, s: nat)
    requires Running(c) && c.q.tasks[0] == DestroyTask(s)
    ensures TableOk(ConnectDestroyed(Popped(c), s))
  {
    DestroyedFacts(c, s);
    hide Unique, Attempts, ResetFirst, StopsHold, ChannelOk, StateOk, SocketsOk, ConnectDestroyed;
  }

  lemma RunDestroyInv(c: Sys, res: ConnectResult)
    requires Running(c) && c.q.tasks[0].DestroyTask?
    ensures Inv(RunTask(Popped(c), c.q.tasks[0], res)) && !RunTask(Popped(c), c.q.tasks[0], res).aborted
  {
    DestroyedFacts(c, c.q.tasks[0].sock);
    DestroyedSockets(c, c.q.tasks[0].sock);
    DestroyedTable(c, c.q.tasks[0].sock);
    PopOrder(c);
    Pop(c.q.tasks);
    hide SocketsOk, TableOk;
    assert ResetFirst(ConnectDestroyed(Popped(c), c.q.tasks[0].sock));
    hide ResetFirst;
  }

  lemma RunFunctorInv(c: Sys, res: ConnectResult)
    requires Inv(c) && !c.aborted && Legal(c, RunFunctor(res))
    ensures Inv(Step(c, RunFunctor(res))) && !Step(c, RunFunctor(res)).aborted
  {
    hide RunTask, Attempts, Unique, ChannelOk, StateOk, SocketsOk, TableOk, ResetFirst, StopsHold;
    assert |c.q.tasks| > 0 && Running(c);
    match c.q.tasks[0]
    case StartTask => RunStartInv(c, res);
    case StopTask => RunStopInv(c, res);
    case ResetTask => RunResetInv(c, res);
    case ForceCloseTask(_) => RunForceCloseInv(c, res);
    case DestroyTask(_) => RunDestroyInv(c, res);
  }

  // ----------------------------------------------------------- the other events

  /** A start is about to be made, and nothing else is under way. */
  ghost predicate Ready(c: Sys) {
    Inv(c) && !c.aborted && Attempts(c) == 0 && c.core.state.Disconnected? && ResetTask !in c.q.tasks
  }

  /** The retry timer has rung. */
  function Rung(c: Sys): Sys
    requires c.q.ripe > 0
  {
    c.(q := c.q.(ripe := c.q.ripe - 1))
  }

  /** What restart() clears before it starts. */
  function Forgiven(c: Sys): Sys {
    c.(core := c.core.(state := Disconnected, delay := INIT_RETRY_DELAY_MS, connect := true),
       delays := [], client := c.client.(restarting := false))
  }

  lemma TimerReady(c: Sys, res: ConnectResult)
    requires Inv(c) && !c.aborted && Legal(c, TimerFires(res))
    ensures Ready(Rung(c))
  {
  }

  lemma RestartReady(c: Sys, res: ConnectResult)
    requires Inv(c) && !c.aborted && Legal(c, DoRestart(res))
    ensures Ready(Forgiven(c))
  {
  }

  lemma FirstReady(c: Sys, res: ConnectResult)
    requires Inv(c) && !c.aborted && Legal(c, RunFunctor(res)) && |c.q.tasks| > 0 && c.q.tasks[0].StartTask?
    ensures Ready(Popped(c))
  {
    hide Unique, ChannelOk, StateOk, SocketsOk, TableOk, ResetFirst, StopsHold;
    PopInv(c);
  }

  lemma TimerInv(c: Sys, res: ConnectResult)
    requires Inv(c) && !c.aborted && Legal(c, TimerFires(res))
    ensures Inv(Step(c, TimerFires(res))) && !Step(c, TimerFires(res)).aborted
  {
    hide StartInLoop, Inv, Attempts;
    TimerReady(c, res);
    StartInv(Rung(c), res);
  }

  lemma RestartInv(c: Sys, res: ConnectResult)
    requires Inv(c) && !c.aborted && Legal(c, DoRestart(res))
    ensures Inv(Step(c, DoRestart(res))) && !Step(c, DoRestart(res)).aborted
  {
    hide StartInLoop, Inv, Attempts;
    RestartReady(c, res);
    StartInv(Forgiven(c), res);
  }

  lemma HandleErrorInv(c: Sys)
    requires Inv(c) && !c.aborted && c.core.state.Connecting? && !c.q.functors
    ensures Inv(HandleError(c)) && !HandleError(c).aborted && HandleError(c).core.state.Disconnected?
  {
    hide Inv;
    RetireInv(c);
  }

  lemma HandleWriteInv(c: Sys, failed: bool)
    requires Inv(c) && !c.aborted && c.core.state.Connecting? && !c.q.functors
    ensures Inv(HandleWrite(c, failed)) && !HandleWrite(c, failed).aborted
  {
    hide Inv;
    if failed {
      RetireInv(c);
    } else if c.core.connect {
      HandedOverInv(c);
    } else {
      UnwantedInv(c);
    }
  }

  lemma ChannelEventInv(c: Sys, err: bool, writable: bool, failed: bool)
    requires Inv(c) && !c.aborted && Legal(c, OnChannel(err, writable, failed))
    ensures Inv(Step(c, OnChannel(err, writable, failed))) && !Step(c, OnChannel(err, writable, failed)).aborted
  {
    assert c.core.state.Connecting?;
    hide Inv, HandleError;
    if err {
      HandleErrorInv(c);
      hide Retry, RemoveAndResetChannel;
    } else if writable {
      hide HandleWrite;
      HandleWriteInv(c, failed);
    }
  }

  lemma ConnectionEventInv(c: Sys)
    requires Inv(c) && !c.aborted && Legal(c, ConnectionEvent)
    ensures Inv(Step(c, ConnectionEvent)) && !Step(c, ConnectionEvent).aborted
  {
    hide ConnectionClosed;
    ClosedInv(c);
  }

  lemma ForceCloseInv(c: Sys)
    requires Inv(c) && !c.aborted
    ensures Inv(Step(c, ForceClose)) && !Step(c, ForceClose).aborted
  {
    if c.client.connection.Some? {
      Push(c.q.tasks, ForceCloseTask(c.client.connection.value));
    }
  }

  lemma StopInv(c: Sys)
    requires Inv(c) && !c.aborted && !c.client.restarting
    ensures Inv(Step(c, Stop)) && !Step(c, Stop).aborted
  {
    Push(c.q.tasks, StopTask);
  }

  lemma StepInv(c: Sys, e: Event)
    requires Inv(c) && !c.aborted && Legal(c, e) && Tame(c, e)
    ensures Inv(Step(c, e)) && !Step(c, e).aborted
  {
    match e
    case NextRound => NextRoundInv(c);
    case SwapBatch => SwapInv(c);
    case RunFunctor(res) => RunFunctorInv(c, res);
    case TimerFires(res) => TimerInv(c, res);
    case OnChannel(err, writable, failed) => ChannelEventInv(c, err, writable, failed);
    case ConnectionEvent => ConnectionEventInv(c);
    case DoRestart(res) => RestartInv(c, res);
    case ForceClose => ForceCloseInv(c);
    case Stop => StopInv(c);
    case Disconnect => DisconnectInv(c);
  }

  lemma DisconnectInv(c: Sys)
    requires Inv(c) && !c.aborted
    ensures Inv(Step(c, Disconnect)) && !Step(c, Disconnect).aborted
  {
  }

  lemma {:induction false} RunInv(c: Sys, evs: seq<Event>)
    requires Inv(c) && !c.aborted && TameRun(c, evs)
    ensures Inv(Run(c, evs)) && !Run(c, evs).aborted
    decreases evs
  {
    hide Step, Inv, Legal;
    if evs != [] {
      StepInv(c, evs[0]);
      RunInv(Step(c, evs[0]), evs[1..]);
    }
  }
}
