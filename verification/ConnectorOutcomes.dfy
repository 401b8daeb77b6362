/** What the calls and functors of connector and client come to, told from the events. */
module ConnectorOutcomes {
  import opened Prelude
  import opened Connectors
  import opened ConnectorProofs
  import T = ConnectorTheorems

  // ------------------------------------------------------- reconnecting or not

  lemma {:induction false} TaskKeepsRetry(c: Sys, t: Task, res: ConnectResult)
    ensures var d := RunTask(c, t, res);
      && d.client.retry == c.client.retry
      && (!c.client.retry && !c.client.restarting ==> !d.client.restarting)
  {
    hide StartInLoop;
    match t
    case StartTask => T.StartUnwanted(c, res);
    case _ =>
  }

  lemma EventKeepsRetry(c: Sys, err: bool, writable: bool, failed: bool)
    ensures var d := ChannelEvent(c, err, writable, failed);
      d.client.retry == c.client.retry && d.client.restarting == c.client.restarting
  {
    if err { }
    if writable { if failed { } }
  }

  /** retry_ is the client's own to set: no event changes it, and without it no restart is
    * ever decided. */
  lemma {:induction false} StepKeepsRetry(c: Sys, e: Event)
    ensures Step(c, e).client.retry == c.client.retry
    ensures !c.client.retry && !c.client.restarting ==> !Step(c, e).client.restarting
  {
    hide StartInLoop, ChannelEvent, RunTask;
    match e
    case RunFunctor(res) =>
      if |c.q.tasks| > 0 && c.q.batch > 0 {
        TaskKeepsRetry(Popped(c), c.q.tasks[0], res);
      }
    case TimerFires(res) => if c.q.ripe > 0 { T.StartUnwanted(Rung(c), res); }
    case TimerFiresEarly(res) => if c.q.unripe > 0 { T.StartUnwanted(c.(q := c.q.(unripe := c.q.unripe - 1)), res); }
    case OnChannel(err, writable, failed) => EventKeepsRetry(c, err, writable, failed);
    case DoRestart(res) =>
      T.StartUnwanted(Forgiven(c), res);
    case _ =>
  }

  lemma BeginKeepsRetry(retry: bool, caller: Caller)
    ensures Begin(retry, caller).client.retry == retry && !Begin(retry, caller).client.restarting
  {
    match caller
    case OtherThread =>
    case LoopThread(inFunctor, res) =>
      T.StartUnwanted(Idle(retry, inFunctor), res);
  }

  lemma {:induction false} StaysUnretried(c: Sys, evs: seq<Event>)
    requires LegalRun(c, evs) && !c.client.retry && !c.client.restarting
    ensures !Run(c, evs).client.restarting && !T.Restarts(evs)
    decreases evs
  {
    if evs != [] {
      StepKeepsRetry(c, evs[0]);
      assert !evs[0].DoRestart?;
      hide Step, Legal;
      StaysUnretried(Step(c, evs[0]), evs[1..]);
      assert forall k :: 1 <= k < |evs| ==> evs[k] == evs[1..][k - 1];
    }
  }

  /** A client that was not asked to retry never reconnects: in every legal run, wherever
    * start() was called, no restart is decided and none is made. */
  lemma NeverRetried(caller: Caller, evs: seq<Event>)
    requires LegalRun(Begin(false, caller), evs)
    ensures !Run(Begin(false, caller), evs).client.restarting && !T.Restarts(evs)
  {
    BeginKeepsRetry(false, caller);
    hide Begin;
    StaysUnretried(Begin(false, caller), evs);
  }

  /** The connection ends: by its own doing, or by the functor of a forced close. */
  predicate Ends(c: Sys, e: Event) {
    && c.client.connection.Some?
    && (e.ConnectionEvent? ||
        (e.RunFunctor? && |c.q.tasks| > 0 && c.q.tasks[0] == ForceCloseTask(c.client.connection.value)))
  }

  /** A lost connection leads to a restart if and only if the client retries and still wants
    * a connection; either way it is forgotten, and its end queued. */
  lemma RestartsIff(c: Sys, e: Event)
    requires Inv(c) && !c.aborted && Legal(c, e) && Ends(c, e)
    ensures var d := Step(c, e);
      && (d.client.restarting <==> c.client.retry && c.client.connect)
      && d.client.connection.None? && DestroyTask(c.client.connection.value) in d.q.tasks && !d.aborted
  {
    hide Inv;
    var d := Step(c, e);
    assert d.q.tasks[|d.q.tasks| - 1] == DestroyTask(c.client.connection.value);
  }

  // --------------------------------------------------------- the loop's queue

  /** The functors a step queues. */
  function Queues(c: Sys, e: Event): seq<Task> {
    if e.Stop? then [StopTask]
    else if e.ForceClose? && c.client.connection.Some? then [ForceCloseTask(c.client.connection.value)]
    else if Ends(c, e) then [DestroyTask(c.client.connection.value)]
    else if e.OnChannel? && (e.err || e.writable) then [ResetTask]
    else if e.RunFunctor? && |c.q.tasks| > 0 && c.q.tasks[0].StopTask? && c.core.state.Connecting? then [ResetTask]
    else []
  }

  function Taken(c: Sys, e: Event): seq<Task> {
    if e.RunFunctor? && |c.q.tasks| > 0 then [c.q.tasks[0]] else []
  }

  lemma {:induction false} StartQueuesNothing(c: Sys, res: ConnectResult)
    ensures StartInLoop(c, res).q.tasks == c.q.tasks
  {
    match res { case _ => }
  }

  lemma {:induction false} FunctorQueues(c: Sys, e: Event)
    requires Inv(c) && !c.aborted && Legal(c, e) && e.RunFunctor?
    ensures Step(c, e).q.tasks == c.q.tasks[1..] + Queues(c, e)
  {
    var p := Popped(c);
    assert c.q.tasks[1..] + [] == c.q.tasks[1..];
    assert ChannelOk(c);
    hide Inv, StartInLoop;
    match c.q.tasks[0] {
      case StartTask => StartQueuesNothing(p, e.res);
      case _ =>
    }
  }

  lemma {:induction false} EventQueues(c: Sys, e: Event)
    requires Inv(c) && !c.aborted && Legal(c, e) && e.OnChannel?
    ensures Step(c, e).q.tasks == c.q.tasks + Queues(c, e)
  {
    assert c.q.tasks + [] == c.q.tasks;
    assert ChannelOk(c) && c.core.state.Connecting? by { WatchedIsConnecting(c); }
    hide Inv;
    if e.err { } else if e.writable { if e.failed { } }
  }

  lemma WatchedIsConnecting(c: Sys)
    requires Inv(c) && c.core.channel.Some? && c.core.channel.value in c.k.table
    requires c.k.table[c.core.channel.value].ByConnector?
    ensures c.core.state.Connecting? && ChannelOk(c)
  {
    hide Unique, ResetFirst, StopsHold;
  }

  /** Each step takes at most the functor at the head, and adds those called for. */
  lemma {:induction false} StepQueues(c: Sys, e: Event)
    requires Inv(c) && !c.aborted && Legal(c, e)
    ensures Taken(c, e) + Step(c, e).q.tasks == c.q.tasks + Queues(c, e)
  {
    if e.RunFunctor? {
      FunctorQueues(c, e);
      hide Inv, Step, Queues;
      var t, more := c.q.tasks, Queues(c, e);
      assert t == [t[0]] + t[1..] && [t[0]] + (t[1..] + more) == ([t[0]] + t[1..]) + more;
    } else {
      OtherQueues(c, e);
      hide Inv, Step, Queues;
      assert [] + Step(c, e).q.tasks == Step(c, e).q.tasks;
    }
  }

  lemma {:induction false} OtherQueues(c: Sys, e: Event)
    requires Inv(c) && !c.aborted && Legal(c, e) && !e.RunFunctor?
    ensures Step(c, e).q.tasks == c.q.tasks + Queues(c, e)
  {
    assert c.q.tasks + [] == c.q.tasks;
    if e.OnChannel? {
      EventQueues(c, e);
    } else {
      hide Inv, StartInLoop;
      match e {
        case TimerFires(res) => StartQueuesNothing(Rung(c), res);
        case TimerFiresEarly(res) => StartQueuesNothing(c.(q := c.q.(unripe := c.q.unripe - 1)), res);
        case DoRestart(res) => StartQueuesNothing(Forgiven(c), res);
        case _ =>
      }
    }
  }

  function TakenAlong(c: Sys, evs: seq<Event>): seq<Task>
    decreases evs
  {
    if evs == [] then [] else Taken(c, evs[0]) + TakenAlong(Step(c, evs[0]), evs[1..])
  }

  function QueuedAlong(c: Sys, evs: seq<Event>): seq<Task>
    decreases evs
  {
    if evs == [] then [] else Queues(c, evs[0]) + QueuedAlong(Step(c, evs[0]), evs[1..])
  }

  lemma Then(x: seq<Task>, y: seq<Task>, z: seq<Task>, g: seq<Task>, h: seq<Task>, r: seq<Task>, s: seq<Task>)
    requires g + y == x + r && h + z == y + s
    ensures (g + h) + z == x + (r + s)
  {
    assert (g + h) + z == g + (h + z) && g + (y + s) == (g + y) + s && (x + r) + s == x + (r + s);
  }

  /** In every tame run the functors run, and then those queued, are those queued before and
    * those called for since, each once and in order. */
  lemma {:induction false} QueueInOrder(c: Sys, evs: seq<Event>)
    requires Inv(c) && !c.aborted && TameRun(c, evs)
    ensures TakenAlong(c, evs) + Run(c, evs).q.tasks == c.q.tasks + QueuedAlong(c, evs)
    decreases evs
  {
    assert [] + c.q.tasks == c.q.tasks + [];
    if evs != [] {
      var e, d := evs[0], Step(c, evs[0]);
      StepInv(c, e);
      StepQueues(c, e);
      hide Inv, Step, Legal, Taken, Queues;
      QueueInOrder(d, evs[1..]);
      Then(c.q.tasks, d.q.tasks, Run(c, evs).q.tasks, Taken(c, e), TakenAlong(d, evs[1..]),
           Queues(c, e), QueuedAlong(d, evs[1..]));
    }
  }

  // ------------------------------------------------------------ calls that last

  /** disconnect() tells the connection there is, and no other, and wants no more. */
  lemma DisconnectTells(c: Sys)
    requires !c.aborted
    ensures var d := Step(c, Disconnect);
      && !d.client.connect && d.client.connection == c.client.connection
      && d.client.told == c.client.told + (if c.client.connection.Some? then [c.client.connection.value] else [])
      && d.core == c.core && d.q == c.q && d.k == c.k
  {
  }

  function Told(c: Sys, e: Event): seq<nat> {
    if e.Disconnect? && !c.aborted && c.client.connection.Some? then [c.client.connection.value] else []
  }

  function ToldAlong(c: Sys, evs: seq<Event>): seq<nat>
    decreases evs
  {
    if evs == [] then [] else Told(c, evs[0]) + ToldAlong(Step(c, evs[0]), evs[1..])
  }

  lemma {:induction false} TaskTellsNone(c: Sys, t: Task, res: ConnectResult)
    ensures RunTask(c, t, res).client.told == c.client.told
  {
    hide StartInLoop;
    match t
    case StartTask => T.StartUnwanted(c, res);
    case _ =>
  }

  lemma {:induction false} StepTells(c: Sys, e: Event)
    ensures Step(c, e).client.told == c.client.told + Told(c, e)
  {
    hide StartInLoop, ChannelEvent, RunTask;
    assert c.client.told + [] == c.client.told;
    match e
    case RunFunctor(res) =>
      if |c.q.tasks| > 0 && c.q.batch > 0 {
        TaskTellsNone(Popped(c), c.q.tasks[0], res);
      }
    case TimerFires(res) => if c.q.ripe > 0 { T.StartUnwanted(Rung(c), res); }
    case TimerFiresEarly(res) => if c.q.unripe > 0 { T.StartUnwanted(c.(q := c.q.(unripe := c.q.unripe - 1)), res); }
    case OnChannel(err, writable, failed) => T.EventUnwanted(c, err, writable, failed);
    case DoRestart(res) =>
      T.StartUnwanted(Forgiven(c), res);
    case _ =>
  }

  /** Over any run exactly the connections there were at each disconnect() are told. */
  lemma {:induction false} RunTells(c: Sys, evs: seq<Event>)
    ensures Run(c, evs).client.told == c.client.told + ToldAlong(c, evs)
    decreases evs
  {
    if evs == [] {
      assert c.client.told + [] == c.client.told;
    } else {
      StepTells(c, evs[0]);
      hide Step, Told;
      RunTells(Step(c, evs[0]), evs[1..]);
      var a, b, x := c.client.told, Told(c, evs[0]), ToldAlong(Step(c, evs[0]), evs[1..]);
      assert (a + b) + x == a + (b + x);
    }
  }

  /** Stopped: nothing is wanted, and an attempt still under way has stop's functor coming. */
  ghost predicate Stopped(c: Sys) {
    && !c.core.connect && !c.client.connect && !c.client.restarting
    && (c.core.state.Connecting? ==> StopTask in c.q.tasks)
  }

  lemma {:induction false} StepStopped(c: Sys, e: Event)
    requires Inv(c) && !c.aborted && Legal(c, e) && Tame(c, e) && Stopped(c)
    ensures Stopped(Step(c, e))
  {
    StepQueues(c, e);
    hide Inv, Queues;
    match e {
      case RunFunctor(res) => FunctorStopped(c, e);
      case OnChannel(err, writable, failed) => if err { } else if writable { if failed { } }
      case Stop => assert Step(c, e).q.tasks[|c.q.tasks|] == StopTask;
      case ForceClose => assert forall t :: t in c.q.tasks ==> t in Step(c, e).q.tasks;
      case _ =>
    }
  }

  lemma {:induction false} FunctorStopped(c: Sys, e: Event)
    requires Inv(c) && !c.aborted && Legal(c, e) && e.RunFunctor? && Stopped(c)
    ensures Stopped(Step(c, e))
  {
    assert ChannelOk(c);
    assert c.q.tasks == [c.q.tasks[0]] + c.q.tasks[1..];
    FunctorQueues(c, e);
    hide Inv, Queues;
    match c.q.tasks[0] {
      case _ =>
    }
  }

  /** stop() is carried out: in every tame run from it, an attempt is under way only while
    * stop's functor is still to come. */
  lemma {:induction false} RunStopped(c: Sys, evs: seq<Event>)
    requires Inv(c) && !c.aborted && TameRun(c, evs) && Stopped(c)
    ensures Stopped(Run(c, evs))
    decreases evs
  {
    if evs != [] {
      StepInv(c, evs[0]);
      StepStopped(c, evs[0]);
      hide Inv, Step, Legal, Stopped;
      RunStopped(Step(c, evs[0]), evs[1..]);
    }
  }

  lemma StopIsCarriedOut(c: Sys, evs: seq<Event>)
    requires Inv(c) && !c.aborted && !c.client.restarting && TameRun(Step(c, Stop), evs)
    ensures var d := Run(Step(c, Stop), evs);
      d.core.state.Connecting? ==> StopTask in d.q.tasks
  {
    StopInv(c);
    assert Step(c, Stop).q.tasks[|c.q.tasks|] == StopTask;
    assert Stopped(Step(c, Stop));
    hide Step, Inv;
    RunStopped(Step(c, Stop), evs);
  }

  /** A forced close of socket s is on its way, or s has no connection any more. */
  ghost predicate Forced(c: Sys, s: nat) {
    && s in c.k.fates && (c.k.fates[s].Handed? || c.k.fates[s].Released?)
    && (c.client.connection == Some(s) ==> ForceCloseTask(s) in c.q.tasks)
  }

  /** The connection is made with the socket being connected, held until then. */
  lemma {:induction false} StepForced(c: Sys, e: Event, s: nat)
    requires Inv(c) && !c.aborted && Legal(c, e) && Tame(c, e) && Forced(c, s)
    ensures Forced(Step(c, e), s)
  {
    StepInv(c, e);
    StepQueues(c, e);
    T.StepMoves(c, e);
    ConnectionStays(c, e, s);
    hide Inv, Step, Legal, Queues;
    var d := Step(c, e);
    assert T.Moves(c.k.fates[s], d.k.fates[s]);
    if d.client.connection == Some(s) {
      StillQueued(Taken(c, e), d.q.tasks, c.q.tasks, Queues(c, e), ForceCloseTask(s));
    }
  }

  lemma StillQueued(run: seq<Task>, rest: seq<Task>, tasks: seq<Task>, more: seq<Task>, t: Task)
    requires run + rest == tasks + more && t in tasks && t !in run && |run| <= 1
    ensures t in rest
  {
    var k :| 0 <= k < |tasks| && tasks[k] == t;
    assert (run + rest)[k] == t;
    if k >= |run| { assert rest[k - |run|] == t; }
  }

  lemma {:induction false} ConnectionStays(c: Sys, e: Event, s: nat)
    requires Inv(c) && !c.aborted && Legal(c, e) && Forced(c, s)
    ensures Step(c, e).client.connection == Some(s) ==>
              c.client.connection == Some(s) && ForceCloseTask(s) in c.q.tasks && ForceCloseTask(s) !in Taken(c, e)
  {
    hide Unique, ResetFirst, StopsHold, StartInLoop;
    match e {
      case TimerFires(res) => T.StartUnwanted(Rung(c), res);
      case TimerFiresEarly(res) => T.StartUnwanted(c.(q := c.q.(unripe := c.q.unripe - 1)), res);
      case DoRestart(res) =>
        T.StartUnwanted(Forgiven(c), res);
      case OnChannel(err, writable, failed) => if err { } else if writable { if failed { } }
      case RunFunctor(res) =>
        T.StartUnwanted(Popped(c), res);
        match c.q.tasks[0] { case _ => }
      case _ =>
    }
  }

  lemma {:induction false} RunForced(c: Sys, evs: seq<Event>, s: nat)
    requires Inv(c) && !c.aborted && TameRun(c, evs) && Forced(c, s)
    ensures Forced(Run(c, evs), s)
    decreases evs
  {
    if evs != [] {
      StepInv(c, evs[0]);
      StepForced(c, evs[0], s);
      hide Inv, Step, Legal, Forced;
      RunForced(Step(c, evs[0]), evs[1..], s);
    }
  }

  /** forceClose() of the client's connection is not forgotten: in every tame run from it
    * that connection is gone, or its functor still waits. */
  lemma ForceCloseEnds(c: Sys, evs: seq<Event>, s: nat)
    requires Inv(c) && !c.aborted && c.client.connection == Some(s) && TameRun(Step(c, ForceClose), evs)
    ensures var d := Run(Step(c, ForceClose), evs);
      d.client.connection == Some(s) ==> ForceCloseTask(s) in d.q.tasks
  {
    ForceCloseInv(c);
    var d := Step(c, ForceClose);
    assert d.q.tasks[|c.q.tasks|] == ForceCloseTask(s);
    hide Step;
    assert Forced(d, s);
    RunForced(d, evs, s);
  }

  // -------------------------------------------------------------------- timers

  /** A retry after a restart that is refused waits half a second again, whatever waits came
    * before; an attempt under way has none set. */
  lemma RestartWaitsAfresh(c: Sys, res: ConnectResult)
    requires Inv(c) && !c.aborted && Legal(c, DoRestart(res))
    ensures var d := Step(c, DoRestart(res));
      && d.delays == (if res.Refused? then [500] else []) && d.q.unripe == (if res.Refused? then 1 else 0)
      && d.core.delay == (if res.Refused? then 1000 else 500) && d.core.connect && !d.client.restarting
  {
    hide Unique, ResetFirst, StopsHold;
    match res
    case Underway =>
    case Refused =>
    case Fatal =>
  }

  /** A round makes the timers set in the last one ripe, and each fires once. */
  lemma RoundRipens(c: Sys)
    requires !c.aborted
    ensures var d := Step(c, NextRound); d.q.ripe == c.q.ripe + c.q.unripe && d.q.unripe == 0 && d.q.tasks == c.q.tasks
    ensures Step(c, SwapBatch).q.batch == |c.q.tasks|
  {
  }
}
