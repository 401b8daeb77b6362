/** What the connector and its client promise over whole runs, and where scheduling breaks it. */
module ConnectorTheorems {
  import opened Prelude
  import opened Connectors
  import opened ConnectorProofs

  // ------------------------------------------------------- one attempt at a time

  /** No assertion fails: startInLoop() always sees kDisconnected, connecting() always finds
    * the old channel gone, no descriptor is registered twice and no socket closed twice. */
  lemma SingleAttempt(retry: bool, caller: Caller, evs: seq<Event>)
    requires TameRun(Begin(retry, caller), evs)
    ensures var c := Run(Begin(retry, caller), evs);
            && !c.aborted && Attempts(c) <= 1
            && (c.core.channel.Some? <==> c.core.state.Connecting? || ResetTask in c.q.tasks)
            && (StartTask in c.q.tasks || c.q.ripe > 0 ==> c.core.state.Disconnected? && c.core.channel.None?)
  {
    BeginInv(retry, caller);
    RunInv(Begin(retry, caller), evs);
  }

  /** A retry timer firing in the round that set it finds the old channel unless it was
    * never made or the new attempt makes no channel. */
  lemma EarlyTimerAbortsIff(c: Sys, res: ConnectResult)
    requires Inv(c) && !c.aborted && Legal(c, TimerFiresEarly(res))
    ensures Step(c, TimerFiresEarly(res)).aborted <==> ResetTask in c.q.tasks && c.core.connect && res.Underway?
  {
    var d := c.(q := c.q.(unripe := c.q.unripe - 1));
    assert c.core.state.Disconnected?;
    assert c.k.next !in c.k.fates && c.k.next !in c.k.table;
    if c.core.connect {
      match res
      case Underway =>
      case Refused =>
      case Fatal =>
    }
  }

  // ------------------------------------------------------ how an attempt ends

  /** The retry timer: set exactly when asked, for the delay that was next. */
  predicate RetriedIff(c: Sys, d: Sys, retried: bool) {
    && d.q.ripe == c.q.ripe && d.q.unripe == c.q.unripe + (if retried then 1 else 0)
    && d.delays == c.delays + (if retried then [c.core.delay] else [])
  }

  /** One event, in error, writable or both, ends the attempt once: the socket is handed
    * over if and only if the event is a clean success still wanted, and closed otherwise;
    * a retry is set if and only if the attempt failed and is still wanted. */
  lemma AttemptEnds(c: Sys, err: bool, writable: bool, failed: bool)
    requires Inv(c) && !c.aborted && Legal(c, OnChannel(err, writable, failed)) && (err || writable)
    ensures c.core.channel.Some? && c.core.channel.value in c.k.fates
    ensures var s := c.core.channel.value; var d := Step(c, OnChannel(err, writable, failed));
      var won := !err && !failed && c.core.connect;
      && d.k.fates == c.k.fates[s := if won then Handed else Closed]
      && (d.client.connection == if won then Some(s) else None)
      && RetriedIff(c, d, (err || failed) && c.core.connect)
      && d.core.state == (if err || failed then Disconnected else Connected)
      && d.q.tasks == c.q.tasks + [ResetTask] && d.k.next == c.k.next
  {
    hide Unique, ResetFirst, StopsHold;
    if err {
    } else if failed {
    } else if c.core.connect {
    } else {
    }
  }

  /** The three ways a start happens in a run: the queued first one, a retry timer, and
    * the restart of a lost connection, which wants one whatever was wanted before. */
  predicate Starts(c: Sys, e: Event, res: ConnectResult) {
    || e == TimerFires(res) || e == DoRestart(res)
    || (e == RunFunctor(res) && |c.q.tasks| > 0 && c.q.tasks[0].StartTask?)
  }

  predicate Wanted(c: Sys, e: Event) { e.DoRestart? || c.core.connect }

  /** What a start leaves: a socket opened if it is wanted and none if not; an attempt under
    * way holds it, and otherwise it is closed, to be retried only after a refusal. */
  ghost predicate Opened(c: Sys, d: Sys, wanted: bool, res: ConnectResult) {
    var s := c.k.next;
    && d.k.next == s + (if wanted then 1 else 0)
    && d.k.fates == (if wanted then c.k.fates[s := if res.Underway? then Held else Closed] else c.k.fates)
    && d.core.channel == (if wanted && res.Underway? then Some(s) else None)
    && d.core.state == (if wanted && res.Underway? then Connecting else Disconnected)
    && d.q.unripe == (if wanted && res.Refused? then 1 else 0) && d.q.ripe == 0
  }

  lemma OpensOne(c: Sys, res: ConnectResult)
    requires Ready(c)
    ensures Opened(c, StartInLoop(c, res), c.core.connect, res)
  {
    hide Unique, StopsHold;
    if c.core.connect {
      match res
      case Underway =>
      case Refused =>
      case Fatal =>
    }
  }

  /** Every start, the first, a retry or a restart, opens one socket if it is wanted and
    * none if not. */
  lemma StartOpens(c: Sys, e: Event, res: ConnectResult)
    requires Inv(c) && !c.aborted && Legal(c, e) && Tame(c, e) && Starts(c, e, res)
    ensures Opened(c, Step(c, e), Wanted(c, e), res)
  {
    hide StartInLoop, Inv, Attempts;
    match e
    case TimerFires(_) =>
      TimerReady(c, res);
      OpensOne(Rung(c), res);
    case DoRestart(_) =>
      RestartReady(c, res);
      OpensOne(Forgiven(c), res);
    case RunFunctor(_) =>
      FirstReady(c, res);
      OpensOne(Popped(c), res);
  }

  /** And so does a start() on the loop's own thread. */
  lemma BeginOpens(retry: bool, inFunctor: bool, res: ConnectResult)
    ensures Opened(Idle(retry, inFunctor), Begin(retry, LoopThread(inFunctor, res)), true, res)
  {
    OpensOne(Idle(retry, inFunctor), res);
  }

  /** stop()'s functor, met by an attempt, closes its socket and sets no retry. */
  lemma StopEndsAttempt(c: Sys, res: ConnectResult)
    requires Running(c) && c.q.tasks[0].StopTask?
    ensures var d := Step(c, RunFunctor(res));
      && !d.core.state.Connecting? && RetriedIff(c, d, false) && d.k.next == c.k.next
      && (c.core.state.Connecting? ==>
            c.core.channel.value in c.k.fates && d.k.fates == c.k.fates[c.core.channel.value := Closed])
      && (!c.core.state.Connecting? ==> d.k.fates == c.k.fates)
  {
    assert c.q.tasks[0] in c.q.tasks;
    hide Unique, ResetFirst;
  }

  /** EventLoop::removeChannel's assertion: while handlers run, a channel leaves the poller
    * only inside its own handler, so no channel still to be handled in the round is lost. */
  lemma LeavesInOwnHandler(c: Sys, e: Event, s: nat)
    requires Inv(c) && !c.aborted && Legal(c, e) && Tame(c, e)
    requires s in c.k.table && s !in Step(c, e).k.table
    ensures (e.RunFunctor? && c.q.functors) || (e.OnChannel? && c.core.channel == Some(s))
  {
    hide Unique, ResetFirst, StopsHold;
    match e
    case OnChannel(err, writable, failed) => if err { } else if writable { }
    case TimerFires(res) => match res { case _ => }
    case DoRestart(res) => match res { case _ => }
    case _ =>
  }

  // ---------------------------------------------------------- sockets conserved

  /** Each socket opened is at every moment held by the connecting channel, closed, with the
    * one connection that got it, or released by it; the poller agrees. */
  lemma SocketsConserved(retry: bool, caller: Caller, evs: seq<Event>, s: nat)
    requires TameRun(Begin(retry, caller), evs) && s < Run(Begin(retry, caller), evs).k.next
    ensures var c := Run(Begin(retry, caller), evs);
            && s in c.k.fates
            && (c.k.fates[s].Held? <==> c.core.state.Connecting? && c.core.channel == Some(s))
            && (c.k.fates[s].Handed? <==> c.client.connection == Some(s) || DestroyTask(s) in c.q.tasks)
            && (s in c.k.table <==> c.k.fates[s].Held? || c.k.fates[s].Handed?)
            && (s in c.k.table ==> (c.k.table[s].ByConnector? <==> c.k.fates[s].Held?))
  {
    BeginInv(retry, caller);
    RunInv(Begin(retry, caller), evs);
  }

  predicate IsOpen(c: Sys, s: nat) { s in c.k.fates && (c.k.fates[s].Held? || c.k.fates[s].Handed?) }

  /** No open socket has this number, so the kernel may give it to the next one. */
  ghost predicate Free(c: Sys, fd: nat -> nat, n: nat) { forall t :: IsOpen(c, t) ==> fd(t) != n }

  /** Descriptor numbers may come back: fd gives each socket its number, and only sockets
    * open at the same time need have different ones. A number the kernel may give next is
    * registered to nobody, and a registered one to the socket that has it now. */
  lemma DescriptorsMayRecur(retry: bool, caller: Caller, evs: seq<Event>, fd: nat -> nat, n: nat)
    requires TameRun(Begin(retry, caller), evs)
    requires var c := Run(Begin(retry, caller), evs);
      forall s, t :: IsOpen(c, s) && IsOpen(c, t) && s != t ==> fd(s) != fd(t)
    ensures var c := Run(Begin(retry, caller), evs);
      && (Free(c, fd, n) <==> forall s :: s in c.k.table ==> fd(s) != n)
      && forall s, t :: s in c.k.table && IsOpen(c, t) && fd(s) == fd(t) ==> s == t
  {
    BeginInv(retry, caller);
    RunInv(Begin(retry, caller), evs);
    var c := Run(Begin(retry, caller), evs);
    assert forall s :: IsOpen(c, s) <==> s in c.k.table;
  }

  /** The only moves a socket makes. */
  predicate Moves(a: Fate, b: Fate) {
    a == b || (a.Held? && (b.Closed? || b.Handed?)) || (a.Handed? && b.Released?)
  }

  ghost predicate FatesMove(c: Sys, d: Sys) {
    forall s :: s in c.k.fates ==> s in d.k.fates && Moves(c.k.fates[s], d.k.fates[s])
  }

  lemma StartMoves(c: Sys, res: ConnectResult)
    requires c.k.next !in c.k.fates
    ensures FatesMove(c, StartInLoop(c, res))
  {
    if c.core.state.Disconnected? && c.core.connect {
      match res
      case Underway =>
      case Refused =>
      case Fatal =>
    }
  }

  lemma ChannelMoves(c: Sys, err: bool, writable: bool, failed: bool)
    requires SocketsOk(c) && Legal(c, OnChannel(err, writable, failed)) && c.core.state.Connecting?
    ensures FatesMove(c, ChannelEvent(c, err, writable, failed))
  {
    if err {
      assert HandleError(c).core.state.Disconnected?;
    } else if writable {
      if failed {
      } else if c.core.connect {
      }
    }
  }

  lemma FunctorMoves(c: Sys, t: Task, res: ConnectResult)
    requires c.k.next !in c.k.fates && (forall s :: t == DestroyTask(s) ==> s in c.k.fates && c.k.fates[s].Handed?)
    ensures FatesMove(c, RunTask(c, t, res))
  {
    match t
    case StartTask => StartMoves(c, res);
    case StopTask =>
    case ResetTask =>
    case ForceCloseTask(s) =>
    case DestroyTask(s) =>
  }

  lemma StepMoves(c: Sys, e: Event)
    requires Inv(c) && !c.aborted && Legal(c, e) && Tame(c, e)
    ensures FatesMove(c, Step(c, e))
  {
    match e
    case RunFunctor(res) => RunFunctorMoves(c, res);
    case TimerFires(res) => StartMoves(c.(q := c.q.(ripe := c.q.ripe - 1)), res);
    case OnChannel(err, writable, failed) => ChannelMoves(c, err, writable, failed);
    case DoRestart(res) =>
      StartMoves(c.(core := c.core.(state := Disconnected, delay := INIT_RETRY_DELAY_MS, connect := true),
                    delays := [], client := c.client.(restarting := false)), res);
    case _ =>
  }

  lemma RunFunctorMoves(c: Sys, res: ConnectResult)
    requires Inv(c) && !c.aborted && Legal(c, RunFunctor(res))
    ensures FatesMove(c, Step(c, RunFunctor(res)))
  {
    hide RunTask;
    FunctorMoves(Popped(c), c.q.tasks[0], res);
  }

  /** Closed or released once is closed or released for good, and what was handed over never
    * comes back to the connector. */
  lemma {:induction false} RunMoves(c: Sys, evs: seq<Event>, s: nat)
    requires Inv(c) && !c.aborted && TameRun(c, evs) && s in c.k.fates
    ensures s in Run(c, evs).k.fates
    ensures var a, b := c.k.fates[s], Run(c, evs).k.fates[s];
            && (a.Closed? ==> b.Closed?) && (a.Released? ==> b.Released?)
            && (a.Handed? ==> b.Handed? || b.Released?)
    decreases evs
  {
    hide Step, Inv, Legal;
    if evs != [] {
      StepInv(c, evs[0]);
      StepMoves(c, evs[0]);
      RunMoves(Step(c, evs[0]), evs[1..], s);
    }
  }

  // ------------------------------------------------------------------- backoff

  /** The k-th delay since construction or restart: doubling, then capped. */
  function Power(k: nat): nat { if k == 0 then 1 else 2 * Power(k - 1) }

  function Backoff(k: nat): int { Min(INIT_RETRY_DELAY_MS * Power(k), MAX_RETRY_DELAY_MS) }

  ghost predicate BackoffOk(c: Sys) {
    && c.core.delay == Backoff(|c.delays|)
    && forall k :: 0 <= k < |c.delays| ==> c.delays[k] == Backoff(k)
  }

  /** Doubling a capped delay and capping again is capping the doubled one. */
  lemma BackoffStep(k: nat)
    ensures Backoff(k + 1) == Min(Backoff(k) * 2, MAX_RETRY_DELAY_MS)
  {
    assert Power(k + 1) == 2 * Power(k);
  }

  lemma RetryBackoff(c: Sys, s: nat)
    requires BackoffOk(c)
    ensures BackoffOk(Retry(c, s))
  {
    BackoffStep(|c.delays|);
  }

  lemma StartBackoff(c: Sys, res: ConnectResult)
    requires BackoffOk(c)
    ensures BackoffOk(StartInLoop(c, res))
  {
    hide Retry;
    RetryBackoff(Open(c), c.k.next);
  }

  lemma ChannelBackoff(c: Sys, err: bool, writable: bool, failed: bool)
    requires BackoffOk(c)
    ensures BackoffOk(ChannelEvent(c, err, writable, failed))
  {
    hide Retry, BackoffOk;
    var d := if err then HandleError(c) else c;
    assert BackoffOk(d) by { ErrorBackoff(c); }
    WriteBackoff(d, failed);
  }

  lemma ErrorBackoff(c: Sys)
    requires BackoffOk(c)
    ensures BackoffOk(HandleError(c))
  {
    hide Retry;
    if c.core.channel.Some? { RetryBackoff(RemoveAndResetChannel(c), c.core.channel.value); }
  }

  lemma WriteBackoff(c: Sys, failed: bool)
    requires BackoffOk(c)
    ensures BackoffOk(HandleWrite(c, failed))
  {
    hide Retry;
    if c.core.channel.Some? { RetryBackoff(RemoveAndResetChannel(c), c.core.channel.value); }
  }

  lemma StopBackoff(c: Sys)
    requires BackoffOk(c)
    ensures BackoffOk(StopInLoop(c))
  {
    hide Retry;
    if c.core.channel.Some? {
      RetryBackoff(RemoveAndResetChannel(c.(core := c.core.(state := Disconnected))), c.core.channel.value);
    }
  }

  lemma FunctorBackoff(c: Sys, t: Task, res: ConnectResult)
    requires BackoffOk(c)
    ensures BackoffOk(RunTask(c, t, res))
  {
    hide StartInLoop, StopInLoop;
    match t
    case StartTask => StartBackoff(c, res);
    case StopTask => StopBackoff(c);
    case ResetTask =>
    case ForceCloseTask(s) =>
    case DestroyTask(s) =>
  }

  lemma RestartBackoff(c: Sys, res: ConnectResult)
    ensures BackoffOk(Restart(c, res))
  {
    hide StartInLoop;
    StartBackoff(c.(core := c.core.(state := Disconnected, delay := INIT_RETRY_DELAY_MS, connect := true),
                    delays := [], client := c.client.(restarting := false)), res);
  }

  lemma StepBackoff(c: Sys, e: Event)
    requires BackoffOk(c)
    ensures BackoffOk(Step(c, e))
  {
    hide RunTask, StartInLoop, Restart, ChannelEvent;
    match e
    case RunFunctor(res) =>
      if |c.q.tasks| > 0 && c.q.batch > 0 { FunctorBackoff(Popped(c), c.q.tasks[0], res); }
    case TimerFires(res) => if c.q.ripe > 0 { StartBackoff(c.(q := c.q.(ripe := c.q.ripe - 1)), res); }
    case TimerFiresEarly(res) => if c.q.unripe > 0 { StartBackoff(c.(q := c.q.(unripe := c.q.unripe - 1)), res); }
    case OnChannel(err, writable, failed) => ChannelBackoff(c, err, writable, failed);
    case DoRestart(res) => RestartBackoff(c, res);
    case _ =>
  }

  /** In every run whatever, the k-th retry since construction or restart waits
    * min(500 * 2^k, 30000) milliseconds. */
  lemma {:induction false} RunBackoff(c: Sys, evs: seq<Event>)
    requires BackoffOk(c)
    ensures BackoffOk(Run(c, evs))
    decreases evs
  {
    hide Step, BackoffOk;
    if evs != [] {
      StepBackoff(c, evs[0]);
      RunBackoff(Step(c, evs[0]), evs[1..]);
    }
  }

  lemma BeginBackoff(retry: bool, caller: Caller)
    ensures BackoffOk(Begin(retry, caller))
  {
    match caller
    case OtherThread =>
    case LoopThread(inFunctor, res) => StartBackoff(Idle(retry, inFunctor), res);
  }

  lemma RetryDelays(retry: bool, caller: Caller, evs: seq<Event>, k: nat)
    requires k < |Run(Begin(retry, caller), evs).delays|
    ensures Run(Begin(retry, caller), evs).delays[k] == Min(500 * Power(k), 30_000)
    ensures k >= 6 ==> Run(Begin(retry, caller), evs).delays[k] == 30_000
  {
    BeginBackoff(retry, caller);
    RunBackoff(Begin(retry, caller), evs);
    if k >= 6 { PowerGrows(6, k); assert Power(6) == 64; }
  }

  lemma {:induction false} PowerGrows(j: nat, k: nat)
    requires j <= k
    ensures Power(j) <= Power(k)
  {
    if j < k { PowerGrows(j, k - 1); }
  }

  // ---------------------------------------------------- stopping, and giving up

  /** Nothing under way and nothing pending, or nothing wanted. */
  predicate Over(c: Sys) {
    Attempts(c) == 0 || (!c.core.connect && !c.client.connect && !c.client.restarting)
  }

  lemma StepOver(c: Sys, e: Event)
    requires Inv(c) && !c.aborted && Legal(c, e) && Over(c)
    ensures Over(Step(c, e)) && Step(c, e).k.next == c.k.next
    ensures Attempts(c) == 0 ==> Attempts(Step(c, e)) == 0
    ensures Step(c, e).client.connection.Some? ==> Step(c, e).client.connection == c.client.connection
  {
    match e
    case RunFunctor(res) => FunctorOver(c, res);
    case OnChannel(err, writable, failed) =>
      if err { } else if writable { if failed { } else { } }
    case _ =>
  }

  lemma FunctorOver(c: Sys, res: ConnectResult)
    requires Inv(c) && !c.aborted && Legal(c, RunFunctor(res)) && Over(c)
    ensures var d := Step(c, RunFunctor(res));
      && Over(d) && d.k.next == c.k.next && (Attempts(c) == 0 ==> Attempts(d) == 0)
      && (d.client.connection.Some? ==> d.client.connection == c.client.connection)
  {
    hide SocketsOk, TableOk, ResetFirst;
    assert c.q.tasks[0] in c.q.tasks;
    match c.q.tasks[0]
    case StartTask =>
    case StopTask =>
    case ResetTask =>
    case ForceCloseTask(s) =>
    case DestroyTask(s) =>
  }

  lemma {:induction false} RunOver(c: Sys, evs: seq<Event>)
    requires Inv(c) && !c.aborted && TameRun(c, evs) && Over(c)
    ensures var d := Run(c, evs);
      && d.k.next == c.k.next && !d.aborted
      && (d.client.connection.Some? ==> d.client.connection == c.client.connection)
    decreases evs
  {
    hide Step, Inv, Legal, Over;
    if evs != [] {
      StepInv(c, evs[0]);
      StepOver(c, evs[0]);
      RunOver(Step(c, evs[0]), evs[1..]);
    }
  }

  lemma StopOver(c: Sys)
    requires !c.aborted && !c.client.restarting
    ensures Over(Step(c, Stop))
    ensures Step(c, Stop).k == c.k && Step(c, Stop).client.connection == c.client.connection
  {
  }

  /** After stop() no socket is opened and no connection made, whatever was pending. */
  lemma StopIsFinal(retry: bool, caller: Caller, before: seq<Event>, after: seq<Event>)
    requires TameRun(Begin(retry, caller), before) && !Run(Begin(retry, caller), before).client.restarting
    requires TameRun(Step(Run(Begin(retry, caller), before), Stop), after)
    ensures var c := Run(Begin(retry, caller), before); var d := Run(Step(c, Stop), after);
      && d.k.next == c.k.next && !d.aborted
      && (d.client.connection.Some? ==> d.client.connection == c.client.connection)
  {
    hide Step, Inv, Begin, Over, Run, TameRun;
    var c := Run(Begin(retry, caller), before);
    BeginInv(retry, caller);
    RunInv(Begin(retry, caller), before);
    StopInv(c);
    StopOver(c);
    RunOver(Step(c, Stop), after);
  }

  /** stop() keeps its word exactly when it does not fall between removeConnection's check
    * and the restart that follows. */
  lemma StopIsFinalIff(c: Sys)
    requires Inv(c) && !c.aborted
    ensures (forall evs :: TameRun(Step(c, Stop), evs) ==> Run(Step(c, Stop), evs).k.next == c.k.next)
            <==> !c.client.restarting
  {
    var d := Step(c, Stop);
    if c.client.restarting {
      var e := DoRestart(Refused);
      var evs := [e];
      assert evs[1..] == [];
      assert Run(d, evs) == Step(d, e) && TameRun(d, evs);
      assert Run(d, evs).k.next == c.k.next + 1;
    } else {
      StopInv(c);
      forall evs | TameRun(d, evs) ensures Run(d, evs).k.next == c.k.next {
        RunOver(d, evs);
      }
    }
  }

  predicate Restarts(evs: seq<Event>) { exists k :: 0 <= k < |evs| && evs[k].DoRestart? }

  ghost predicate CanRestart(c: Sys) { exists evs :: TameRun(c, evs) && Restarts(evs) }

  /** disconnect() keeps a lost connection from being restarted exactly when it does not fall
    * between removeConnection's check and the restart that follows. */
  lemma DisconnectIsHeeded(c: Sys)
    requires Inv(c) && !c.aborted
    ensures !CanRestart(Step(c, Disconnect)) <==> !c.client.restarting
  {
    var d := Step(c, Disconnect);
    if c.client.restarting {
      var evs := [DoRestart(Refused)];
      assert evs[1..] == [] && evs[0].DoRestart?;
      assert TameRun(d, evs) && Restarts(evs);
    } else {
      DisconnectInv(c);
      hide Step;
      forall evs | TameRun(d, evs) ensures !Restarts(evs) {
        NoRestart(d, evs);
      }
    }
  }

  lemma {:induction false} NoRestart(c: Sys, evs: seq<Event>)
    requires Inv(c) && !c.aborted && !c.client.connect && !c.client.restarting && TameRun(c, evs)
    ensures !Restarts(evs)
    decreases evs
  {
    if evs != [] {
      StepInv(c, evs[0]);
      StepUnwanted(c, evs[0]);
      assert !evs[0].DoRestart?;
      hide Step, Inv, Legal;
      NoRestart(Step(c, evs[0]), evs[1..]);
      assert forall k :: 1 <= k < |evs| ==> evs[k] == evs[1..][k - 1];
    }
  }

  /** Whenever it is called, the client goes on wanting no connection, and the connection
    * there was stays told to shut down. */
  lemma {:induction false} DisconnectIsKept(c: Sys, evs: seq<Event>)
    requires !c.client.connect
    ensures !Run(c, evs).client.connect && c.client.told <= Run(c, evs).client.told
    decreases evs
  {
    if evs != [] {
      StepUnwanted(c, evs[0]);
      hide Step;
      DisconnectIsKept(Step(c, evs[0]), evs[1..]);
    }
  }

  lemma StepUnwanted(c: Sys, e: Event)
    requires !c.client.connect
    ensures !Step(c, e).client.connect && c.client.told <= Step(c, e).client.told
    ensures !c.client.restarting ==> !Step(c, e).client.restarting
  {
    hide StartInLoop, ChannelEvent, RunTask;
    match e
    case RunFunctor(res) =>
      if |c.q.tasks| > 0 && c.q.batch > 0 {
        TaskUnwanted(c.(q := c.q.(tasks := c.q.tasks[1..], batch := c.q.batch - 1)), c.q.tasks[0], res);
      }
    case TimerFires(res) => if c.q.ripe > 0 { StartUnwanted(c.(q := c.q.(ripe := c.q.ripe - 1)), res); }
    case TimerFiresEarly(res) => if c.q.unripe > 0 { StartUnwanted(c.(q := c.q.(unripe := c.q.unripe - 1)), res); }
    case OnChannel(err, writable, failed) => EventUnwanted(c, err, writable, failed);
    case DoRestart(res) =>
      StartUnwanted(c.(core := c.core.(state := Disconnected, delay := INIT_RETRY_DELAY_MS, connect := true),
                       delays := [], client := c.client.(restarting := false)), res);
    case _ =>
  }

  lemma TaskUnwanted(c: Sys, t: Task, res: ConnectResult)
    requires !c.client.connect
    ensures var d := RunTask(c, t, res).client;
      !d.connect && d.told == c.client.told && (!c.client.restarting ==> !d.restarting)
  {
    hide StartInLoop;
    match t
    case StartTask => StartUnwanted(c, res);
    case _ =>
  }

  lemma StartUnwanted(c: Sys, res: ConnectResult)
    ensures StartInLoop(c, res).client == c.client
  {
    match res { case _ => }
  }

  lemma EventUnwanted(c: Sys, err: bool, writable: bool, failed: bool)
    ensures var d := ChannelEvent(c, err, writable, failed).client;
      d.connect == c.client.connect && d.restarting == c.client.restarting && d.told == c.client.told
  {
    if err { }
    if writable { if failed { } }
  }

  /** An errno of the third group ends the connector's attempts for good, at whichever start
    * it is met. */
  lemma FatalIsFinal(c: Sys, e: Event, evs: seq<Event>)
    requires Inv(c) && !c.aborted && Legal(c, e) && Tame(c, e) && Starts(c, e, Fatal)
    requires TameRun(Step(c, e), evs)
    ensures var d := Run(Step(c, e), evs);
      d.k.next == Step(c, e).k.next && d.client.connection.None? && !d.aborted
  {
    FatalLeavesNothing(c, e);
    StepInv(c, e);
    hide Step, Inv, Run, TameRun;
    RunOver(Step(c, e), evs);
  }

  lemma FatalLeavesNothing(c: Sys, e: Event)
    requires Inv(c) && !c.aborted && Legal(c, e) && Tame(c, e) && Starts(c, e, Fatal)
    ensures Over(Step(c, e)) && Step(c, e).client.connection.None?
  {
    hide SocketsOk, TableOk;
    match e
    case TimerFires(_) =>
    case DoRestart(_) =>
    case RunFunctor(_) => Pop(c.q.tasks);
  }

  lemma BeginFatal(retry: bool, inFunctor: bool, evs: seq<Event>)
    requires TameRun(Begin(retry, LoopThread(inFunctor, Fatal)), evs)
    ensures var d := Run(Begin(retry, LoopThread(inFunctor, Fatal)), evs);
      d.k.next == 1 && d.client.connection.None? && !d.aborted
  {
    BeginInv(retry, LoopThread(inFunctor, Fatal));
    RunOver(Begin(retry, LoopThread(inFunctor, Fatal)), evs);
  }

  // ----------------------------------------- a stop overtaken by a restart

  /** A run that goes on tamely ends in a failed assertion. */
  ghost predicate Doomed(c: Sys) { exists evs :: TameRun(c, evs) && Run(c, evs).aborted }

  lemma DoomedCons(c: Sys, e: Event)
    requires Legal(c, e) && Tame(c, e) && Doomed(Step(c, e))
    ensures Doomed(c)
  {
    hide Step, Legal, Tame;
    var evs :| TameRun(Step(c, e), evs) && Run(Step(c, e), evs).aborted;
    assert ([e] + evs)[1..] == evs;
    assert TameRun(c, [e] + evs) && Run(c, [e] + evs).aborted;
  }

  lemma AbortedIsDoomed(c: Sys)
    requires c.aborted
    ensures Doomed(c)
  {
    assert TameRun(c, []) && Run(c, []).aborted;
  }

  /** A new attempt is under way and wanted, and the overtaken stop waits behind nothing but
    * closes and ends of old connections. */
  ghost predicate Overtaken(c: Sys) {
    && !c.aborted && c.q.batch <= |c.q.tasks| && |c.q.tasks| > 0
    && c.q.tasks[|c.q.tasks| - 1].StopTask?
    && (forall i :: 0 <= i < |c.q.tasks| - 1 ==> c.q.tasks[i].DestroyTask? || c.q.tasks[i].ForceCloseTask?)
    && Unique(c.q.tasks)
    && (forall s :: DestroyTask(s) in c.q.tasks ==> s in c.k.table && c.k.table[s].ByConnection?)
    && c.core.state.Connecting? && c.core.connect && c.core.channel.Some?
    && c.core.channel.value in c.k.fates && c.k.fates[c.core.channel.value].Held?
    && c.core.channel.value in c.k.table && c.k.table[c.core.channel.value].ByConnector?
    && c.client.connection.None? && !c.client.restarting && c.q.ripe == 0 && c.q.unripe == 0
  }

  /** The stop kills the attempt and schedules a retry, which finds the dead channel. */
  lemma StopThenRetry(c: Sys)
    requires Overtaken(c) && c.q.functors && c.q.batch == 1 && |c.q.tasks| == 1
    ensures Doomed(c)
  {
    hide Unique;
    var r := RunFunctor(Underway);
    var d := Step(c, r);
    assert c.q.tasks[0].StopTask?;
    assert d.core.channel.Some? && d.core.state.Disconnected? && d.core.connect && !d.aborted;
    assert d.q.batch == 0 && d.q.unripe == 1 && d.q.ripe == 0 && d.q.functors && !d.client.restarting;
    var e := Step(d, NextRound);
    AbortedIsDoomed(Step(e, TimerFires(Underway)));
    DoomedCons(e, TimerFires(Underway));
    DoomedCons(d, NextRound);
    DoomedCons(c, r);
  }

  lemma PastOne(c: Sys)
    requires Overtaken(c) && c.q.functors && c.q.batch > 0 && |c.q.tasks| > 1
    ensures var d := Step(c, RunFunctor(Underway));
      Overtaken(d) && |d.q.tasks| == |c.q.tasks| - 1 && d.q.functors && d.q.batch == c.q.batch - 1
  {
    var t := c.q.tasks[0];
    Pop(c.q.tasks);
    hide Unique;
    assert t.DestroyTask? || t.ForceCloseTask?;
    assert forall i :: 0 <= i < |c.q.tasks| - 1 ==> c.q.tasks[1..][i] == c.q.tasks[i + 1];
    match t
    case DestroyTask(s) =>
    case ForceCloseTask(s) =>
  }

  lemma {:induction false} OvertakenIsDoomed(c: Sys)
    requires Overtaken(c)
    ensures Doomed(c)
    decreases |c.q.tasks|, if c.q.functors then (if c.q.batch > 0 then 0 else 2) else 1
  {
    if !c.q.functors {
      SwapKeepsOvertaken(c);
      OvertakenIsDoomed(Step(c, SwapBatch));
      DoomedCons(c, SwapBatch);
    } else if c.q.batch == 0 {
      RoundKeepsOvertaken(c);
      OvertakenIsDoomed(Step(c, NextRound));
      DoomedCons(c, NextRound);
    } else if |c.q.tasks| == 1 {
      StopThenRetry(c);
    } else {
      PastOne(c);
      OvertakenIsDoomed(Step(c, RunFunctor(Underway)));
      DoomedCons(c, RunFunctor(Underway));
    }
  }

  lemma SwapKeepsOvertaken(c: Sys)
    requires Overtaken(c) && !c.q.functors
    ensures var d := Step(c, SwapBatch);
      Overtaken(d) && d.q.tasks == c.q.tasks && d.q.functors && d.q.batch > 0 && Legal(c, SwapBatch)
  {
  }

  lemma RoundKeepsOvertaken(c: Sys)
    requires Overtaken(c) && c.q.functors && c.q.batch == 0
    ensures var d := Step(c, NextRound);
      Overtaken(d) && d.q.tasks == c.q.tasks && !d.q.functors && Legal(c, NextRound)
  {
  }

  /** What a pending restart says of the rest. */
  lemma RestartPending(c: Sys)
    requires Inv(c) && c.client.restarting
    ensures c.core.channel.None? && c.client.connection.None? && c.q.ripe == 0 && c.q.unripe == 0
    ensures c.k.next !in c.k.table && c.q.batch <= |c.q.tasks| && Unique(c.q.tasks)
    ensures forall i :: 0 <= i < |c.q.tasks| ==> c.q.tasks[i].DestroyTask? || c.q.tasks[i].ForceCloseTask?
    ensures forall s :: DestroyTask(s) in c.q.tasks ==> s in c.k.table && c.k.table[s].ByConnection? && s != c.k.next
  {
    assert StopTask !in c.q.tasks && StartTask !in c.q.tasks && ResetTask !in c.q.tasks;
    assert forall i :: 0 <= i < |c.q.tasks| ==> c.q.tasks[i] in c.q.tasks;
  }

  lemma RestartOvertakes(c: Sys)
    requires Inv(c) && !c.aborted && c.client.restarting
    ensures Overtaken(Step(Step(c, Stop), DoRestart(Underway)))
  {
    RestartPending(c);
    hide Inv;
    Push(c.q.tasks, StopTask);
    hide Unique;
    var d := Step(Step(c, Stop), DoRestart(Underway));
    assert d.q.tasks == c.q.tasks + [StopTask];
    assert d.k.table == c.k.table[c.k.next := ByConnector];
  }

  /** A stop() ends in connecting() finding the old channel, in some run with no early timer
    * and no other such stop, if and only if it falls between removeConnection's check and
    * the restart that follows. */
  lemma OvertakenStopAbortsIff(c: Sys)
    requires Inv(c) && !c.aborted
    ensures Doomed(Step(c, Stop)) <==> c.client.restarting
  {
    var d := Step(c, Stop);
    if c.client.restarting {
      RestartOvertakes(c);
      OvertakenIsDoomed(Step(d, DoRestart(Underway)));
      assert Legal(d, DoRestart(Underway)) && Tame(d, DoRestart(Underway));
      DoomedCons(d, DoRestart(Underway));
    } else {
      StopInv(c);
      hide Step, Inv;
      if Doomed(d) {
        var evs :| TameRun(d, evs) && Run(d, evs).aborted;
        RunInv(d, evs);
        assert false;
      }
    }
  }

  // --------------------------------------------------- and such a stop can come

  predicate Goes(c: Sys, x: Event, y: Event, z: Event) {
    && Legal(c, x) && Tame(c, x) && Legal(Step(c, x), y) && Tame(Step(c, x), y)
    && Legal(Step(Step(c, x), y), z) && Tame(Step(Step(c, x), y), z)
  }

  lemma RunThree(c: Sys, x: Event, y: Event, z: Event, rest: seq<Event>)
    requires Goes(c, x, y, z) && TameRun(Step(Step(Step(c, x), y), z), rest)
    ensures TameRun(c, [x, y, z] + rest) && Run(c, [x, y, z] + rest) == Run(Step(Step(Step(c, x), y), z), rest)
  {
    hide Step, Legal, Tame;
    var d := Step(c, x);
    var e := Step(d, y);
    assert ([x, y, z] + rest)[1..] == [y, z] + rest && ([y, z] + rest)[1..] == [z] + rest && ([z] + rest)[1..] == rest;
    assert TameRun(e, [z] + rest) && Run(e, [z] + rest) == Run(Step(e, z), rest);
    assert TameRun(d, [y, z] + rest) && Run(d, [y, z] + rest) == Run(e, [z] + rest);
  }

  function Connecting0(): Sys {
    Sys(Core(Connecting, true, Some(0), 500), Client(true, true, None, false, []),
        Loop([], 0, true, false, 0, 0), Kernel(map[0 := Held], map[0 := ByConnector], 1), [], false)
  }

  function Connected0(): Sys {
    Sys(Core(Connected, true, Some(0), 500), Client(true, true, Some(0), false, []),
        Loop([ResetTask], 1, true, true, 0, 0), Kernel(map[0 := Handed], map[0 := ByConnection], 1), [], false)
  }

  lemma FirstThree()
    ensures Goes(Init(true), NextRound, SwapBatch, RunFunctor(Underway))
    ensures Step(Step(Step(Init(true), NextRound), SwapBatch), RunFunctor(Underway)) == Connecting0()
  {
    var f := Step(Step(Step(Init(true), NextRound), SwapBatch), RunFunctor(Underway));
    assert f.q.tasks == [] && f.k.fates == map[0 := Held];
  }

  lemma NextThree()
    ensures Goes(Connecting0(), NextRound, OnChannel(false, true, false), SwapBatch)
    ensures Step(Step(Step(Connecting0(), NextRound), OnChannel(false, true, false)), SwapBatch) == Connected0()
  {
    var e := Step(Step(Connecting0(), NextRound), OnChannel(false, true, false));
    assert e.q.tasks == [ResetTask] && map[0 := ByConnector] - {0} == map[];
    assert e.k.fates == map[0 := Handed] && e.k.table == map[0 := ByConnection];
  }

  lemma LastThree()
    ensures Goes(Connected0(), RunFunctor(Underway), NextRound, ConnectionEvent)
    ensures Step(Step(Step(Connected0(), RunFunctor(Underway)), NextRound), ConnectionEvent).client.restarting
  {
    var d := Step(Connected0(), RunFunctor(Underway));
    assert d.q.tasks == [];
  }

  /** The gap exists: a tame run ends between removeConnection's check and the restart. */
  lemma RestartIsReached() returns (evs: seq<Event>)
    ensures TameRun(Init(true), evs) && Run(Init(true), evs).client.restarting
  {
    hide Step, Goes, Connecting0, Connected0, Init;
    var ok := OnChannel(false, true, false);
    var r := RunFunctor(Underway);
    FirstThree();
    NextThree();
    LastThree();
    var last := [r, NextRound, ConnectionEvent] + [];
    RunThree(Connected0(), r, NextRound, ConnectionEvent, []);
    RunThree(Connecting0(), NextRound, ok, SwapBatch, last);
    RunThree(Init(true), NextRound, SwapBatch, r, [NextRound, ok, SwapBatch] + last);
    evs := [NextRound, SwapBatch, r] + ([NextRound, ok, SwapBatch] + last);
  }
}
