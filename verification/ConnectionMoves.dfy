/** What each step of a connection does to its state, its queue, the handlers due and its
  * channel, told from the events alone. */
module ConnectionMoves {
  import opened Prelude
  import opened Connections
  import opened ConnectionProofs
  import opened ConnectionTheorems
  import O = ConnectionOutcomes
  import P = Pollers

  // ------------------------------------------------------------ which step

  predicate Runs(c: Conn, e: Event, t: Task) { e.RunFunctor? && |c.q.tasks| > 0 && c.q.tasks[0] == t }

  predicate Handles(c: Conn, e: Event, h: Handler) { e.Dispatch? && |c.q.due| > 0 && c.q.due[0] == h }

  predicate Establishes(c: Conn, e: Event) { e.Establish? || Runs(c, e, EstablishTask) }

  predicate Destroys(c: Conn, e: Event) { Runs(c, e, DestroyTask) }

  /** handleClose is called, which wants a live connection. */
  predicate Closes(c: Conn, e: Event) { Handles(c, e, DoClose) || (Handles(c, e, DoRead) && e.rr.Eof?) }

  /** A live connection goes down by handleClose. */
  predicate Downs(c: Conn, e: Event) { c.Live() && (Closes(c, e) || Runs(c, e, ForceCloseTask)) }

  // --------------------------------------------------------------- state

  /** The assertions of connectEstablished, handleClose and Channel::remove. */
  predicate Fails(c: Conn, e: Event) {
    || (Establishes(c, e) && !c.state.Connecting?)
    || (Closes(c, e) && !c.Live())
    || (Destroys(c, e) && !c.state.Connected? && (c.ch.reading || c.ch.writing || c.ch.index.New?))
  }

  function Becomes(c: Conn, e: Event): State {
    if Establishes(c, e) && c.state.Connecting? then Connected
    else if Downs(c, e) || (Destroys(c, e) && c.state.Connected?) then Disconnected
    else if (e.ShutdownLocal? || e.ShutdownRemote?) && c.state.Connected? then Disconnecting
    else if (e.ForceClose? || e.DelayForceClose?) && c.Live() then Disconnecting
    else c.state
  }

  /** The functors a step queues. */
  function Queues(c: Conn, e: Event): seq<Task> {
    if e.SendRemote? && c.state.Connected? && |e.msg| > 0 then [SendTask(e.msg)]
    else if e.ShutdownRemote? && c.state.Connected? then [ShutdownTask]
    else if e.ForceClose? && c.Live() then [ForceCloseTask]
    else if e.StartReadRemote? then [StartReadTask]
    else if e.StopReadRemote? then [StopReadTask]
    else if e.QueueEstablish? then [EstablishTask]
    else if e.QueueDestroy? then [DestroyTask]
    else if Downs(c, e) && c.cfg.ownerHere then [DestroyTask]
    else []
  }

  /** The functor a step takes off the queue. */
  function Ran(c: Conn, e: Event): seq<Task> {
    if e.RunFunctor? && |c.q.tasks| > 0 then [c.q.tasks[0]] else []
  }

  /** The handlers a step finds reported: close, then read, then write. */
  function Reports(c: Conn, e: Event): seq<Handler> {
    if e.TakeEvent? && c.q.phase.Handling? && c.q.phase.report.Some? then
      var flags := c.q.phase.report.value;
      (if P.Hup in flags && P.In !in flags then [DoClose] else []) +
      (if P.In in flags || P.Pri in flags || P.RdHup in flags then [DoRead] else []) +
      (if P.Out in flags then [DoWrite] else [])
    else []
  }

  function Handled(c: Conn, e: Event): seq<Handler> {
    if e.Dispatch? && |c.q.due| > 0 then [c.q.due[0]] else []
  }

  ghost predicate Moved(c: Conn, d: Conn, fails: bool, state: State, run: seq<Task>, queued: seq<Task>,
                        handled: seq<Handler>, reported: seq<Handler>) {
    && d.aborted == fails && d.state == state
    && run + d.q.tasks == c.q.tasks + queued
    && handled + d.q.due == c.q.due + reported
  }

  lemma Stays(c: Conn, d: Conn)
    requires !c.aborted && !d.aborted && d.state == c.state && d.q.tasks == c.q.tasks && d.q.due == c.q.due
    ensures Moved(c, d, false, c.state, [], [], [], [])
  {
    assert [] + c.q.tasks == c.q.tasks && c.q.tasks + [] == c.q.tasks;
    assert [] + c.q.due == c.q.due && c.q.due + [] == c.q.due;
  }

  lemma {:induction false} CallMoves(c: Conn, e: Event)
    requires IsCall(e) && !c.aborted
    ensures Moved(c, Call(c, e), false, Becomes(c, e), [], Queues(c, e), [], [])
  {
    assert [] + c.q.due == c.q.due && c.q.due + [] == c.q.due && c.q.tasks + [] == c.q.tasks;
    match e {
      case ShutdownLocal => if c.state.Connected? { if c.ch.writing { } }
      case StartReadLocal => if !c.ch.readFlag || !c.ch.reading { }
      case StopReadLocal => if c.ch.readFlag || c.ch.reading { }
      case _ =>
    }
  }

  lemma {:induction false} DispatchMoves(c: Conn, e: Event)
    requires !c.aborted && e.Dispatch? && |c.q.due| > 0
    ensures Moved(c, Step(c, e), Fails(c, e), Becomes(c, e), [], Queues(c, e), [c.q.due[0]], [])
  {
    hide HandleWrite;
    var d := Undue(c);
    assert [c.q.due[0]] + c.q.due[1..] == c.q.due && c.q.due + [] == c.q.due && c.q.tasks + [] == c.q.tasks;
    match c.q.due[0] {
      case DoClose => if c.Live() { }
      case DoRead => match e.rr { case Got(_) => case Eof => if c.Live() { } case ReadFailed => }
      case DoWrite => WriteStays(d, e.wr);
    }
  }

  lemma {:induction false} WriteStays(c: Conn, wr: WriteResult)
    ensures var d := HandleWrite(c, wr); d.aborted == c.aborted && d.state == c.state && d.q == c.q
  {
    if !c.ch.writing || !wr.Wrote? || wr.n == 0 { } else if wr.n < |c.tx.out| { } else { }
  }

  lemma {:induction false} FunctorMoves(c: Conn, e: Event)
    requires !c.aborted && e.RunFunctor? && |c.q.tasks| > 0
    ensures Moved(c, Step(c, e), Fails(c, e), Becomes(c, e), [c.q.tasks[0]], Queues(c, e), [], [])
  {
    hide SendInLoop;
    var d := Popped(c);
    assert [c.q.tasks[0]] + c.q.tasks[1..] == c.q.tasks && c.q.tasks + [] == c.q.tasks;
    assert [] + c.q.due == c.q.due && c.q.due + [] == c.q.due;
    match c.q.tasks[0] {
      case SendTask(m) =>
        SendPlace(d, m, e.wr, true);
        O.SendLives(d, m, e.wr, true);
      case ShutdownTask => if c.ch.writing { }
      case ForceCloseTask =>
        if c.Live() { assert [c.q.tasks[0]] + (c.q.tasks[1..] + [DestroyTask]) == c.q.tasks + [DestroyTask]; }
      case StartReadTask => if !c.ch.readFlag || !c.ch.reading { }
      case StopReadTask => if c.ch.readFlag || c.ch.reading { }
      case EstablishTask => if c.state.Connecting? { }
      case DestroyTask => if c.state.Connected? { }
    }
  }

  /** Every step, from any legal state: when an assertion fails and which state follows;
    * one functor at most leaves the queue, from the front, and those called for join it at
    * the end; one handler at most is taken, and those an event calls for are due, in the
    * order close, read, write. */
  lemma {:induction false} StepMoves(c: Conn, e: Event)
    requires Rounds(c) && !c.aborted && Legal(c, e)
    ensures Moved(c, Step(c, e), Fails(c, e), Becomes(c, e), Ran(c, e), Queues(c, e), Handled(c, e), Reports(c, e))
  {
    hide SendInLoop, Handle, RunTask, Call, Moved;
    if IsCall(e) {
      CallMoves(c, e);
      StepCalls(c, e);
    } else if e.Dispatch? {
      DispatchMoves(c, e);
    } else if e.RunFunctor? {
      FunctorMoves(c, e);
    } else if e.SendLocal? {
      SendPlace(c, e.msg, e.wr, false);
      O.SendLives(c, e.msg, e.wr, false);
      Stays(c, Step(c, e));
    } else if e.TakeEvent? {
      TakeMoves(c);
    } else if e.QueueEstablish? || e.QueueDestroy? {
      OwnerMoves(c, e);
    } else {
      OtherMoves(c, e);
    }
  }

  lemma TakeMoves(c: Conn)
    requires !c.aborted && Legal(c, TakeEvent)
    ensures Moved(c, Step(c, TakeEvent), false, c.state, [], [], [], Reports(c, TakeEvent))
  {
    HandlersAre(c.q.phase.report.value);
    hide Handlers;
    assert [] + c.q.tasks == c.q.tasks && c.q.tasks + [] == c.q.tasks && c.q.due == [];
  }

  lemma OwnerMoves(c: Conn, e: Event)
    requires !c.aborted && (e.QueueEstablish? || e.QueueDestroy?)
    ensures Moved(c, Step(c, e), false, c.state, [], Queues(c, e), [], [])
  {
    assert [] + c.q.due == c.q.due && c.q.due + [] == c.q.due;
  }

  lemma OtherMoves(c: Conn, e: Event)
    requires !c.aborted && (e.Establish? || e.Poll? || e.Swap? || e.EndRound?)
    ensures Moved(c, Step(c, e), Fails(c, e), Becomes(c, e), [], [], [], [])
  {
    assert [] + c.q.tasks == c.q.tasks && c.q.tasks + [] == c.q.tasks;
    assert [] + c.q.due == c.q.due && c.q.due + [] == c.q.due;
    if e.Establish? { if c.state.Connecting? { } }
  }

  // ------------------------------------------------------- along a run

  function RunAlong(c: Conn, evs: seq<Event>): seq<Task>
    decreases evs
  {
    if evs == [] || c.aborted then [] else Ran(c, evs[0]) + RunAlong(Step(c, evs[0]), evs[1..])
  }

  function QueuedAlong(c: Conn, evs: seq<Event>): seq<Task>
    decreases evs
  {
    if evs == [] || c.aborted then [] else Queues(c, evs[0]) + QueuedAlong(Step(c, evs[0]), evs[1..])
  }

  function HandledAlong(c: Conn, evs: seq<Event>): seq<Handler>
    decreases evs
  {
    if evs == [] || c.aborted then [] else Handled(c, evs[0]) + HandledAlong(Step(c, evs[0]), evs[1..])
  }

  function ReportedAlong(c: Conn, evs: seq<Event>): seq<Handler>
    decreases evs
  {
    if evs == [] || c.aborted then [] else Reports(c, evs[0]) + ReportedAlong(Step(c, evs[0]), evs[1..])
  }

  lemma Then<T>(x: seq<T>, y: seq<T>, z: seq<T>, g: seq<T>, h: seq<T>, r: seq<T>, s: seq<T>)
    requires g + y == x + r && h + z == y + s
    ensures (g + h) + z == x + (r + s)
  {
    assert (g + h) + z == g + (h + z) && g + (y + s) == (g + y) + s && (x + r) + s == x + (r + s);
  }

  /** Over every run: the functors run, followed by those queued, are those queued before
    * and those called for since, in order, each once; and so are the handlers. */
  lemma {:induction false} InOrder(c: Conn, evs: seq<Event>)
    requires Rounds(c) && LegalRun(c, evs)
    ensures RunAlong(c, evs) + Run(c, evs).q.tasks == c.q.tasks + QueuedAlong(c, evs)
    ensures HandledAlong(c, evs) + Run(c, evs).q.due == c.q.due + ReportedAlong(c, evs)
    decreases evs
  {
    assert [] + c.q.tasks == c.q.tasks && c.q.tasks + [] == c.q.tasks;
    assert [] + c.q.due == c.q.due && c.q.due + [] == c.q.due;
    if c.aborted {
      AbortedStays(c, evs);
    } else if evs != [] {
      var e, d := evs[0], Step(c, evs[0]);
      StepRounds(c, e);
      StepMoves(c, e);
      hide Step, Legal, Rounds, Ran, Queues, Handled, Reports;
      InOrder(d, evs[1..]);
      Then(c.q.tasks, d.q.tasks, Run(c, evs).q.tasks, Ran(c, e), RunAlong(d, evs[1..]),
           Queues(c, e), QueuedAlong(d, evs[1..]));
      Then(c.q.due, d.q.due, Run(c, evs).q.due, Handled(c, e), HandledAlong(d, evs[1..]),
           Reports(c, e), ReportedAlong(d, evs[1..]));
    }
  }

  function CountRuns(evs: seq<Event>): nat {
    if evs == [] then 0 else (if evs[0].RunFunctor? then 1 else 0) + CountRuns(evs[1..])
  }

  /** In a batch each functor run brings the end of the batch one nearer, whatever else is
    * called, and nothing else does. */
  lemma {:induction false} StepBatch(c: Conn, e: Event)
    requires Rounds(c) && !c.aborted && Legal(c, e) && c.q.phase.Functors? && !e.EndRound?
    ensures Step(c, e).q.phase == Functors(c.q.phase.left - if e.RunFunctor? then 1 else 0)
  {
    hide SendInLoop, RunTask, Call, Handlers;
    if IsCall(e) {
      CallPhase(c, e);
      StepCalls(c, e);
    } else if e.RunFunctor? {
      TaskPlace(Popped(c), c.q.tasks[0], e.wr);
    } else if e.SendLocal? {
      SendPlace(c, e.msg, e.wr, false);
    } else if e.Establish? {
      if c.state.Connecting? { }
    }
  }

  lemma {:induction false} CallPhase(c: Conn, e: Event)
    requires IsCall(e)
    ensures Call(c, e).q.phase == c.q.phase
  {
    match e {
      case ShutdownLocal => if c.state.Connected? { if c.ch.writing { } }
      case StartReadLocal => if !c.ch.readFlag || !c.ch.reading { }
      case StopReadLocal => if c.ch.readFlag || c.ch.reading { }
      case _ =>
    }
  }

  lemma {:induction false} BatchRuns(c: Conn, evs: seq<Event>)
    requires Rounds(c) && c.q.phase.Functors? && LegalRun(c, evs) && !Run(c, evs).aborted
    requires forall k :: 0 <= k < |evs| ==> !evs[k].EndRound?
    ensures CountRuns(evs) <= c.q.phase.left && Run(c, evs).q.phase == Functors(c.q.phase.left - CountRuns(evs))
    decreases evs
  {
    if c.aborted { AbortedStays(c, evs); }
    if evs != [] {
      var d := Step(c, evs[0]);
      StepRounds(c, evs[0]);
      StepBatch(c, evs[0]);
      assert evs[0].RunFunctor? ==> c.q.phase.left > 0;
      hide Step, Legal, Rounds;
      BatchRuns(d, evs[1..]);
    }
  }

  /** A round runs the whole queue as it stood at the swap, and nothing queued since: before
    * that the loop is still in its functors, and it can end the round exactly then. */
  lemma RoundRunsAll(c: Conn, evs: seq<Event>)
    requires Rounds(c) && !c.aborted && Legal(c, Swap)
    requires LegalRun(Step(c, Swap), evs) && !Run(Step(c, Swap), evs).aborted
    requires forall k :: 0 <= k < |evs| ==> !evs[k].EndRound?
    ensures var d := Run(Step(c, Swap), evs);
      && CountRuns(evs) <= |c.q.tasks| && d.q.phase.Functors?
      && (Legal(d, EndRound) <==> CountRuns(evs) == |c.q.tasks|)
  {
    var d := Step(c, Swap);
    SwapTakesAll(c);
    hide Step, Run, LegalRun, Rounds, CountRuns, Legal;
    BatchRuns(d, evs);
    EndsWhenDone(Run(d, evs));
  }

  lemma SwapTakesAll(c: Conn)
    requires Rounds(c) && !c.aborted && Legal(c, Swap)
    ensures Step(c, Swap).q.phase == Functors(|c.q.tasks|) && Rounds(Step(c, Swap))
  {
  }

  /** The other turns of a round: a poll brings its report, an event taken is no longer
    * reported, and a round that ends is followed by a poll. */
  lemma RoundTurns(c: Conn, report: Option<set<P.Flag>>)
    requires !c.aborted
    ensures Step(c, Poll(report)).q.phase == Handling(report) && Step(c, EndRound).q.phase == AtPoll
    ensures c.q.phase.Handling? && c.q.phase.report.Some? ==> Step(c, TakeEvent).q.phase == Handling(None)
  {
  }

  lemma EndsWhenDone(d: Conn)
    requires d.q.phase.Functors?
    ensures Legal(d, EndRound) <==> d.q.phase.left == 0
  {
  }

  // --------------------------------------------------------- the channel

  /** The events a channel asks for. */
  function Mask(ch: Chan): set<P.Flag> {
    (if ch.reading then {P.In, P.Pri} else {}) + (if ch.writing then {P.Out} else {})
  }

  /** The poller's side of a connection: one channel, as Pollers keeps it. */
  function PollerOf(ch: Chan): P.Poll<nat> {
    P.Poll(map[0 := P.Chan(0, Mask(ch), ch.index)], if ch.index.New? then map[] else map[0 := 0],
           if ch.index.Added? then map[0 := P.Interest(0, Mask(ch))] else map[], 0)
  }

  /** What a step asks of its channel. */
  function Asks(c: Conn, e: Event): seq<P.ChannelOp<nat>> {
    if Establishes(c, e) then (if c.state.Connecting? then [P.Enable(0, {P.In, P.Pri})] else [])
    else if Downs(c, e) then [P.DisableAll(0)]
    else if Destroys(c, e) then (if c.state.Connected? then [P.DisableAll(0)] else []) + [P.RemoveFrom(0)]
    else if e.StartReadLocal? || Runs(c, e, StartReadTask) then
      (if c.ch.readFlag && c.ch.reading then [] else [P.Enable(0, {P.In, P.Pri})])
    else if e.StopReadLocal? || Runs(c, e, StopReadTask) then
      (if c.ch.readFlag || c.ch.reading then [P.Disable(0, {P.In, P.Pri})] else [])
    else if |O.Accepts(c, e)| > |O.Takes(c, e)| && !c.ch.writing then [P.Enable(0, {P.Out})]
    else if Handles(c, e, DoWrite) && O.Takes(c, e) != [] && O.Takes(c, e) == c.tx.out then [P.Disable(0, {P.Out})]
    else []
  }

  ghost predicate Follows(a: Chan, b: Chan, ops: seq<P.ChannelOp<nat>>) {
    P.Run(PollerOf(a), ops) == Some(PollerOf(b))
  }

  lemma NoOps(a: Chan, b: Chan)
    requires Mask(a) == Mask(b) && a.index == b.index
    ensures Follows(a, b, [])
  {
  }

  /** A mask change handed to the poller, with the index it leaves. */
  lemma OneOp(a: Chan, b: Chan, op: P.ChannelOp<nat>)
    requires op.c == 0 && (op.Enable? || op.Disable? || op.DisableAll?)
    requires Mask(b) == (if op.Enable? then Mask(a) + op.flags else if op.Disable? then Mask(a) - op.flags else {})
    requires b.index == P.NextIndex(a.index, Mask(b) != {})
    ensures Follows(a, b, [op])
  {
    var p := PollerOf(a);
    assert P.Enabled(p, op) && [op][1..] == [];
    var q := P.Apply(p, op);
    assert q.Some? && q.value == PollerOf(b);
    assert P.Run(q.value, []) == q;
  }

  lemma RunOne<C>(p: P.Poll<C>, op: P.ChannelOp<C>, ops: seq<P.ChannelOp<C>>)
    requires P.Enabled(p, op)
    ensures P.Run(p, [op] + ops) == if P.Apply(p, op).None? then None else P.Run(P.Apply(p, op).value, ops)
  {
    assert ([op] + ops)[1..] == ops;
  }

  /** Removal, which wants an empty mask and a channel the poller knows. */
  lemma RemoveOp(a: Chan)
    requires Mask(a) != {} ==> a.index.Added?
    ensures P.Run(PollerOf(a), [P.RemoveFrom(0)]) ==
              if a.reading || a.writing || a.index.New? then None else Some(PollerOf(a.(index := P.New)))
  {
    var p := PollerOf(a);
    assert P.In in Mask(a) <==> a.reading;
    assert P.Out in Mask(a) <==> a.writing;
    assert [P.RemoveFrom(0)] + [] == [P.RemoveFrom(0)];
    RunOne(p, P.RemoveFrom(0), []);
    if Mask(a) == {} && !a.index.New? {
      var q := P.Apply(p, P.RemoveFrom(0));
      assert q.Some? && q.value == PollerOf(a.(index := P.New));
    }
  }

  lemma MaskIs(ch: Chan)
    ensures Mask(ch) != {} <==> ch.reading || ch.writing
    ensures Mask(ch.(reading := true)) == Mask(ch) + {P.In, P.Pri}
    ensures Mask(ch.(reading := false)) == Mask(ch) - {P.In, P.Pri}
    ensures Mask(ch.(writing := true)) == Mask(ch) + {P.Out}
    ensures Mask(ch.(writing := false)) == Mask(ch) - {P.Out}
    ensures Mask(ch.(reading := false, writing := false)) == {}
  {
    assert P.In in Mask(ch) <==> ch.reading;
    assert P.Out in Mask(ch) <==> ch.writing;
  }

  /** A channel that has changed one of its two interests and told the poller. */
  lemma ReadingOp(a: Chan, b: Chan)
    requires b == a.(reading := b.reading, readFlag := b.readFlag,
                     index := P.NextIndex(a.index, b.reading || b.writing))
    ensures Follows(a, b, [if b.reading then P.Enable(0, {P.In, P.Pri}) else P.Disable(0, {P.In, P.Pri})])
  {
    MaskIs(a);
    MaskIs(b);
    hide Mask;
    assert Mask(b) == Mask(a.(reading := b.reading)) by { SameMask(b, a.(reading := b.reading)); }
    OneOp(a, b, if b.reading then P.Enable(0, {P.In, P.Pri}) else P.Disable(0, {P.In, P.Pri}));
  }

  lemma SameMask(a: Chan, b: Chan)
    requires a.reading == b.reading && a.writing == b.writing
    ensures Mask(a) == Mask(b)
  {
  }

  lemma WritingOp(a: Chan, b: Chan)
    requires b == a.(writing := b.writing, index := P.NextIndex(a.index, b.reading || b.writing))
    ensures Follows(a, b, [if b.writing then P.Enable(0, {P.Out}) else P.Disable(0, {P.Out})])
  {
    MaskIs(a);
    MaskIs(b);
    SameMask(b, a.(writing := b.writing));
    hide Mask;
    OneOp(a, b, if b.writing then P.Enable(0, {P.Out}) else P.Disable(0, {P.Out}));
  }

  lemma ClosingOp(a: Chan)
    ensures Follows(a, DisableAll(a), [P.DisableAll(0)])
  {
    MaskIs(a);
    SameMask(DisableAll(a), a.(reading := false, writing := false));
    hide Mask;
    OneOp(a, DisableAll(a), P.DisableAll(0));
  }

  lemma DestroyOps(a: Chan)
    ensures Follows(a, DisableAll(a).(index := P.New), [P.DisableAll(0)] + [P.RemoveFrom(0)])
  {
    var b := DisableAll(a);
    ClosingOp(a);
    MaskIs(b);
    SameMask(b, b.(index := P.New));
    RemoveOp(b);
    assert [P.DisableAll(0)] + [] == [P.DisableAll(0)];
    RunOne(PollerOf(a), P.DisableAll(0), []);
    RunOne(PollerOf(a), P.DisableAll(0), [P.RemoveFrom(0)]);
    hide PollerOf, Mask, P.Apply;
  }

  lemma {:induction false} DispatchFollows(c: Conn, e: Event)
    requires WriteInterest(c) && !c.aborted && Legal(c, e) && e.Dispatch?
    ensures Follows(c.ch, Step(c, e).ch, Asks(c, e))
  {
    hide Follows, Mask, P.NextIndex;
    NoOps(c.ch, c.ch);
    if Downs(c, e) {
      ClosingOp(c.ch);
    } else if c.q.due[0].DoWrite? {
      DispatchWrites(c, e);
      hide Step;
      if c.ch.writing && e.wr.Wrote? && e.wr.n == |c.tx.out| {
        assert c.tx.out[..|c.tx.out|] == c.tx.out;
        WritingOp(c.ch, HandleWrite(Undue(c), e.wr).ch);
      }
    }
  }

  lemma {:induction false} SendFollows(c: Conn, m: seq<Byte>, r: WriteResult, remote: bool)
    requires WriteInterest(c) && WriteOk(c, |m|, r)
    ensures var kept := O.FateOf(c, r).Kept?; var n := if kept && c.tx.out == [] && r.Wrote? then r.n else 0;
      Follows(c.ch, SendInLoop(c, m, r, remote).ch,
              if kept && n < |m| && !c.ch.writing then [P.Enable(0, {P.Out})] else [])
  {
    hide Follows, Mask, P.NextIndex;
    NoOps(c.ch, c.ch);
    var d := SendInLoop(c, m, r, remote);
    if c.state.Disconnected? {
    } else if c.CanWriteDirectly() && IsFault(r) {
    } else if Taken(c, |m|, r) < |m| && !c.ch.writing {
      NextOfWanted(c.ch.index);
      WritingOp(c.ch, d.ch);
    }
  }

  lemma NextOfWanted(i: P.Index)
    ensures P.NextIndex(i, true) == P.Added
  {
  }

  lemma {:induction false} SwitchFollows(c: Conn)
    requires c.ch.reading || c.ch.writing ==> c.ch.index.Added?
    ensures Follows(c.ch, StartReadInLoop(c).ch,
                    if c.ch.readFlag && c.ch.reading then [] else [P.Enable(0, {P.In, P.Pri})])
    ensures Follows(c.ch, StopReadInLoop(c).ch,
                    if c.ch.readFlag || c.ch.reading then [P.Disable(0, {P.In, P.Pri})] else [])
  {
    hide Follows, Mask, P.NextIndex;
    NoOps(c.ch, c.ch);
    if !c.ch.readFlag || !c.ch.reading { ReadingOp(c.ch, StartReadInLoop(c).ch); }
    if c.ch.readFlag || c.ch.reading { ReadingOp(c.ch, StopReadInLoop(c).ch); }
  }

  /** Nothing is asked, and the channel stays as it is. */
  lemma {:induction false} Untouched(c: Conn, e: Event)
    requires !c.aborted && Legal(c, e) && !e.Dispatch? && !e.RunFunctor? && !e.SendLocal? && !e.Establish?
    requires !e.StartReadLocal? && !e.StopReadLocal?
    ensures Step(c, e).ch == c.ch && Asks(c, e) == []
  {
    hide Handlers;
    match e {
      case ShutdownLocal => if c.state.Connected? { if c.ch.writing { } }
      case _ =>
    }
  }

  lemma EstablishFollows(c: Conn)
    requires c.state.Connecting?
    requires c.ch.reading || c.ch.writing ==> c.ch.index.Added?
    ensures Follows(c.ch, ConnectEstablished(c).ch, [P.Enable(0, {P.In, P.Pri})])
  {
    hide Follows, Mask;
    ReadingOp(c.ch, ConnectEstablished(c).ch);
  }

  /** A failed assertion before the channel is touched. */
  lemma {:induction false} OpeningFollows(c: Conn, e: Event)
    requires WriteInterest(c) && !c.aborted && Establishes(c, e)
    ensures Follows(c.ch, Step(c, e).ch, Asks(c, e))
  {
    hide Follows, Mask;
    NoOps(c.ch, c.ch);
    var d := if e.Establish? then c.(q := c.q.(owner := Begun)) else Popped(c);
    if c.state.Connecting? { EstablishFollows(d); }
  }

  lemma {:induction false} EndingFollows(c: Conn, e: Event)
    requires WriteInterest(c) && !c.aborted && Destroys(c, e)
    ensures P.Run(PollerOf(c.ch), Asks(c, e)) ==
              if Fails(c, e) then None else Some(PollerOf(Step(c, e).ch))
  {
    hide Follows, PollerOf, P.Run, P.NextIndex, Mask;
    if c.state.Connected? {
      DestroyFollows(c.ch);
    } else {
      assert [] + [P.RemoveFrom(0)] == [P.RemoveFrom(0)];
      MaskIs(c.ch);
      RemoveOp(c.ch);
    }
  }

  lemma DestroyFollows(a: Chan)
    ensures P.Run(PollerOf(a), [P.DisableAll(0)] + [P.RemoveFrom(0)]) == Some(PollerOf(DisableAll(a).(index := P.New)))
    ensures !DisableAll(a).index.New?
  {
    DestroyOps(a);
  }

  lemma {:induction false} SwitchStep(c: Conn, e: Event)
    requires WriteInterest(c) && !c.aborted && Legal(c, e)
    requires e.StartReadLocal? || e.StopReadLocal? || Runs(c, e, StartReadTask) || Runs(c, e, StopReadTask)
    ensures Follows(c.ch, Step(c, e).ch, Asks(c, e))
  {
    hide Follows;
    var d := if e.RunFunctor? then Popped(c) else c;
    SwitchFollows(d);
    hide StartReadInLoop, StopReadInLoop;
  }

  /** What a send asks of its channel: to be told when the socket is writable, if the
    * message is kept and not taken whole. */
  lemma {:induction false} SendAsks(c: Conn, e: Event)
    requires e.SendLocal? || (e.RunFunctor? && |c.q.tasks| > 0 && c.q.tasks[0].SendTask?)
    requires O.Handed(c, e) != [] ==> WriteOk(c, |O.Handed(c, e)|, e.wr)
    ensures var m := O.Handed(c, e); var r := e.wr; var kept := m != [] && O.FateOf(c, r).Kept?;
      var n := if kept && c.tx.out == [] && r.Wrote? then r.n else 0;
      Asks(c, e) == if kept && n < |m| && !c.ch.writing then [P.Enable(0, {P.Out})] else []
  {
    hide O.FateOf, WriteOk;
    if O.Handed(c, e) != [] { TakenIs(c, |O.Handed(c, e)|, e.wr); }
  }

  lemma TakenIs(c: Conn, len: nat, r: WriteResult)
    requires WriteOk(c, len, r)
    ensures r.Wrote? ==> r.n <= len
  {
  }

  lemma {:induction false} SendStep(c: Conn, e: Event)
    requires Inv(c) && !c.aborted && Legal(c, e)
    requires e.SendLocal? || (e.RunFunctor? && c.q.tasks[0].SendTask?)
    ensures Follows(c.ch, Step(c, e).ch, Asks(c, e))
  {
    O.WritesAreWatched(c);
    SendAsks(c, e);
    hide Inv, Follows, SendInLoop, Asks, O.FateOf;
    if e.SendLocal? {
      if c.state.Connected? && |e.msg| > 0 {
        SendFollows(c, e.msg, e.wr, false);
      } else {
        NoOps(c.ch, c.ch);
      }
    } else {
      O.SendRuns(c, e.wr);
      hide Step, Popped;
      var d := Popped(c);
      SendFollows(d, c.q.tasks[0].msg, e.wr, true);
      SameFate(c, d, e.wr);
    }
  }

  lemma SameFate(c: Conn, d: Conn, r: WriteResult)
    requires d == c.(q := d.q)
    ensures O.FateOf(d, r) == O.FateOf(c, r)
  {
  }

  lemma {:induction false} PlainFollows(c: Conn, e: Event)
    requires !c.aborted && e.RunFunctor? && |c.q.tasks| > 0
    requires c.q.tasks[0].ShutdownTask? || c.q.tasks[0].ForceCloseTask?
    ensures Follows(c.ch, Step(c, e).ch, Asks(c, e))
  {
    hide Follows;
    NoOps(c.ch, c.ch);
    if c.q.tasks[0].ShutdownTask? {
      if c.ch.writing { }
    } else if c.Live() {
      ClosingOp(c.ch);
    }
  }

  lemma {:induction false} FunctorFollows(c: Conn, e: Event)
    requires Inv(c) && !c.aborted && Legal(c, e) && e.RunFunctor?
    ensures P.Run(PollerOf(c.ch), Asks(c, e)) ==
              if Destroys(c, e) && Fails(c, e) then None else Some(PollerOf(Step(c, e).ch))
  {
    O.WritesAreWatched(c);
    hide Inv, PollerOf, P.Run, Asks, Fails, Step;
    match c.q.tasks[0] {
      case SendTask(_) => SendStep(c, e);
      case ShutdownTask => PlainFollows(c, e);
      case ForceCloseTask => PlainFollows(c, e);
      case StartReadTask => SwitchStep(c, e);
      case StopReadTask => SwitchStep(c, e);
      case EstablishTask => OpeningFollows(c, e);
      case DestroyTask => EndingFollows(c, e);
    }
  }

  /** Every step leaves the poller where the calls the source makes in it leave it: the two
    * models of a channel, here and in Poller.dfy, are one. */
  lemma {:induction false} StepFollows(c: Conn, e: Event)
    requires Inv(c) && !c.aborted && Legal(c, e)
    ensures P.Run(PollerOf(c.ch), Asks(c, e)) ==
              if Destroys(c, e) && Fails(c, e) then None else Some(PollerOf(Step(c, e).ch))
  {
    O.WritesAreWatched(c);
    NoOps(c.ch, c.ch);
    hide Inv, PollerOf, P.Run, Step, Asks, Fails;
    if e.RunFunctor? {
      FunctorFollows(c, e);
    } else if e.Dispatch? {
      DispatchFollows(c, e);
    } else if e.SendLocal? {
      SendStep(c, e);
    } else if e.StartReadLocal? || e.StopReadLocal? {
      SwitchStep(c, e);
    } else if e.Establish? {
      OpeningFollows(c, e);
    } else {
      Untouched(c, e);
    }
  }

  function AskedAlong(c: Conn, evs: seq<Event>): seq<P.ChannelOp<nat>>
    decreases evs
  {
    if evs == [] || c.aborted then [] else Asks(c, evs[0]) + AskedAlong(Step(c, evs[0]), evs[1..])
  }

  lemma {:induction false} RunConcat<C>(p: P.Poll<C>, a: seq<P.ChannelOp<C>>, b: seq<P.ChannelOp<C>>)
    ensures P.Run(p, a + b) == if P.Run(p, a).None? then None else P.Run(P.Run(p, a).value, b)
    decreases a
  {
    if a == [] {
      assert a + b == b;
    } else {
      assert (a + b)[1..] == a[1..] + b && (a + b)[0] == a[0];
      if !P.Enabled(p, a[0]) {
        RunConcat(p, a[1..], b);
      } else if P.Apply(p, a[0]).Some? {
        RunConcat(P.Apply(p, a[0]).value, a[1..], b);
      }
    }
  }

  /** Over every run in which no assertion fails: the poller, given the calls the connection
    * makes, in order, ends with the channel as the connection has it. */
  lemma {:induction false} RunFollows(c: Conn, evs: seq<Event>)
    requires Inv(c) && !c.aborted && LegalRun(c, evs) && !Run(c, evs).aborted
    ensures P.Run(PollerOf(c.ch), AskedAlong(c, evs)) == Some(PollerOf(Run(c, evs).ch))
    decreases evs
  {
    if evs == [] {
      NoOps(c.ch, c.ch);
    } else {
      var d := Step(c, evs[0]);
      StepInv(c, evs[0]);
      if d.aborted { AbortedStays(d, evs[1..]); }
      StepFollows(c, evs[0]);
      hide Inv, Step, Legal, Asks, PollerOf, P.Run, Fails, Destroys;
      if Destroys(c, evs[0]) && Fails(c, evs[0]) { FailsAborts(c, evs[0]); }
      RunFollows(d, evs[1..]);
      RunConcat(PollerOf(c.ch), Asks(c, evs[0]), AskedAlong(d, evs[1..]));
    }
  }

  lemma FailsAborts(c: Conn, e: Event)
    requires !c.aborted && Destroys(c, e) && Fails(c, e)
    ensures Step(c, e).aborted
  {
  }

  // ------------------------------------------------------------ callbacks

  /** The callbacks of a step, in order. */
  function Calls(c: Conn, e: Event): seq<Note> {
    var rest := |c.tx.out| + |O.Accepts(c, e)| - |O.Takes(c, e)|;
    if Establishes(c, e) && c.state.Connecting? then [Up]
    else if Downs(c, e) then [Down, CloseNotified]
    else if Destroys(c, e) && c.state.Connected? then [Down]
    else if Handles(c, e, DoRead) && e.rr.Got? then [Message]
    else if rest == 0 && O.Takes(c, e) != [] then (if c.cfg.onComplete then [WriteComplete] else [])
    else if O.Accepts(c, e) != [] && rest > 0 && |c.tx.out| < c.cfg.mark <= rest && c.cfg.onHigh then [HighWater(rest)]
    else []
  }

  /** Those of a message of which n bytes were written at once. */
  function SentCalls(c: Conn, len: nat, kept: bool, n: int): seq<Note> {
    var rest := |c.tx.out| + (if kept then len else 0) - n;
    if rest == 0 && n > 0 then (if c.cfg.onComplete then [WriteComplete] else [])
    else if kept && rest > 0 && |c.tx.out| < c.cfg.mark <= rest && c.cfg.onHigh then [HighWater(rest)] else []
  }

  lemma {:induction false} SendCalls(c: Conn, m: seq<Byte>, r: WriteResult, remote: bool)
    requires WriteInterest(c) && WriteOk(c, |m|, r) && |m| > 0
    ensures var kept := O.FateOf(c, r).Kept?; var n := if kept && c.tx.out == [] && r.Wrote? then r.n else 0;
      SendInLoop(c, m, r, remote).notes == c.notes + SentCalls(c, |m|, kept, n)
  {
    assert c.notes + [] == c.notes;
    if c.state.Disconnected? {
    } else if c.CanWriteDirectly() && IsFault(r) {
    } else {
    }
  }

  lemma {:induction false} SendCallsAre(c: Conn, e: Event)
    requires e.SendLocal? || (e.RunFunctor? && |c.q.tasks| > 0 && c.q.tasks[0].SendTask?)
    requires O.Handed(c, e) != [] && WriteOk(c, |O.Handed(c, e)|, e.wr)
    ensures var kept := O.FateOf(c, e.wr).Kept?; var n := if kept && c.tx.out == [] && e.wr.Wrote? then e.wr.n else 0;
      Calls(c, e) == SentCalls(c, |O.Handed(c, e)|, kept, n)
  {
    TakenIs(c, |O.Handed(c, e)|, e.wr);
    hide O.FateOf, WriteOk;
  }

  lemma NothingCalled(c: Conn, e: Event)
    requires e.SendLocal? && O.Handed(c, e) == []
    ensures Calls(c, e) == []
  {
  }

  lemma {:induction false} SendStepCalls(c: Conn, e: Event)
    requires Inv(c) && !c.aborted && Legal(c, e)
    requires e.SendLocal? || (e.RunFunctor? && c.q.tasks[0].SendTask?)
    ensures Step(c, e).notes == c.notes + Calls(c, e)
  {
    O.WritesAreWatched(c);
    assert c.notes + [] == c.notes;
    hide Inv, SendInLoop, O.FateOf, Calls, SentCalls;
    if O.Handed(c, e) == [] {
      NothingCalled(c, e);
    } else if e.SendLocal? {
      SendCallsAre(c, e);
      SendCalls(c, e.msg, e.wr, false);
    } else {
      SendCallsAre(c, e);
      O.SendRuns(c, e.wr);
      hide Step, Popped;
      var d := Popped(c);
      SendCalls(d, c.q.tasks[0].msg, e.wr, true);
      SameFate(c, d, e.wr);
      SameCalls(c, d);
    }
  }

  lemma SameCalls(c: Conn, d: Conn)
    requires d == c.(q := d.q)
    ensures forall len, kept, n :: SentCalls(d, len, kept, n) == SentCalls(c, len, kept, n)
  {
  }

  lemma {:induction false} DispatchCalls(c: Conn, e: Event)
    requires WriteInterest(c) && !c.aborted && Legal(c, e) && e.Dispatch?
    ensures Step(c, e).notes == c.notes + Calls(c, e)
  {
    assert c.notes + [] == c.notes;
    if c.q.due[0].DoWrite? {
      DispatchWrites(c, e);
      hide Step;
      if c.ch.writing && e.wr.Wrote? { assert e.wr.n <= |c.tx.out|; }
    } else {
      match c.q.due[0] {
        case DoClose => if c.Live() { }
        case DoRead => match e.rr { case Got(_) => case Eof => if c.Live() { } case ReadFailed => }
      }
    }
  }

  lemma {:induction false} OtherCalls(c: Conn, e: Event)
    requires !c.aborted && Legal(c, e) && !e.Dispatch? && !e.SendLocal?
    requires !(e.RunFunctor? && c.q.tasks[0].SendTask?)
    ensures Step(c, e).notes == c.notes + Calls(c, e)
  {
    assert c.notes + [] == c.notes;
    hide Handlers;
    if IsCall(e) {
      CallFrame(c, e);
      StepCalls(c, e);
      hide Call;
    } else if e.RunFunctor? {
      TaskCalls(c, e);
    } else if e.Establish? {
      if c.state.Connecting? { }
    }
  }

  lemma {:induction false} TaskCalls(c: Conn, e: Event)
    requires !c.aborted && Legal(c, e) && e.RunFunctor? && !c.q.tasks[0].SendTask?
    ensures Step(c, e).notes == c.notes + Calls(c, e)
  {
    assert c.notes + [] == c.notes;
    match c.q.tasks[0] {
      case ShutdownTask => if c.ch.writing { }
      case ForceCloseTask => if c.Live() { }
      case StartReadTask => if !c.ch.readFlag || !c.ch.reading { }
      case StopReadTask => if c.ch.readFlag || c.ch.reading { }
      case EstablishTask => if c.state.Connecting? { }
      case DestroyTask => if c.state.Connected? { }
    }
  }

  /** Every step calls exactly these, and nothing else is ever called. */
  lemma {:induction false} StepNotes(c: Conn, e: Event)
    requires Inv(c) && !c.aborted && Legal(c, e)
    ensures Step(c, e).notes == c.notes + Calls(c, e)
  {
    O.WritesAreWatched(c);
    hide Step, Calls, Inv;
    if e.Dispatch? {
      DispatchCalls(c, e);
    } else if e.SendLocal? || (e.RunFunctor? && c.q.tasks[0].SendTask?) {
      SendStepCalls(c, e);
    } else {
      OtherCalls(c, e);
    }
  }

  // ------------------------------------------------- what users may rely on

  /** A connection just established is up, and its channel asks for what is to be read. */
  lemma EstablishedReads(c: Conn, e: Event)
    requires Inv(c) && !c.aborted && Legal(c, e) && Establishes(c, e) && c.state.Connecting?
    ensures var d := Step(c, e);
      && !d.aborted && d.state.Connected? && d.notes == c.notes + [Up]
      && {P.In, P.Pri} <= Mask(d.ch) && d.ch.index.Added?
  {
    hide Inv;
    if e.RunFunctor? { assert c.q.tasks[0] == EstablishTask; }
  }

  /** A forced close is on its way, or done. */
  ghost predicate Forced(c: Conn) {
    c.aborted || (Whole(c) && (c.state.Disconnected? || ForceCloseTask in c.q.tasks))
  }

  lemma StillQueued(run: seq<Task>, rest: seq<Task>, tasks: seq<Task>, more: seq<Task>, t: Task)
    requires run + rest == tasks + more && t in tasks && t !in run && |run| <= 1
    ensures t in rest
  {
    var k :| 0 <= k < |tasks| && tasks[k] == t;
    assert (run + rest)[k] == t;
    if k >= |run| { assert rest[k - |run|] == t; }
  }

  lemma {:induction false} StepForced(c: Conn, e: Event)
    requires Forced(c) && Legal(c, e)
    ensures Forced(Step(c, e))
  {
    if !c.aborted {
      var d := Step(c, e);
      StepWhole(c, e);
      RoundsOf(c);
      StepMoves(c, e);
      hide Whole, Step, Legal, Queues, Fails;
      if !d.aborted && !d.state.Disconnected? {
        assert !c.state.Disconnected?;
        NotConnecting(c);
        assert ForceCloseTask !in Ran(c, e);
        StillQueued(Ran(c, e), d.q.tasks, c.q.tasks, Queues(c, e), ForceCloseTask);
      }
    }
  }

  lemma RoundsOf(c: Conn)
    requires Whole(c)
    ensures Rounds(c)
  {
    hide Inv, Owned;
  }

  lemma NotConnecting(c: Conn)
    requires Whole(c) && ForceCloseTask in c.q.tasks
    ensures !c.state.Connected? && !c.state.Connecting?
  {
  }

  lemma {:induction false} RunForced(c: Conn, evs: seq<Event>)
    requires Forced(c) && LegalRun(c, evs)
    ensures Forced(Run(c, evs))
    decreases evs
  {
    hide Forced, Step, Legal;
    if evs != [] {
      StepForced(c, evs[0]);
      RunForced(Step(c, evs[0]), evs[1..]);
    }
  }

  /** And that functor, whenever it runs, leaves the connection closed. */
  lemma ForcedCloses(d: Conn, wr: WriteResult)
    requires Whole(d) && !d.aborted && Legal(d, RunFunctor(wr)) && d.q.tasks[0].ForceCloseTask?
    ensures Step(d, RunFunctor(wr)).state.Disconnected?
  {
    NotConnecting(d);
    RoundsOf(d);
    hide Whole, Step, Legal, Queues, Fails;
    StepMoves(d, RunFunctor(wr));
  }

  lemma ForceQueues(c: Conn)
    requires Whole(c) && c.Live() && !c.aborted
    ensures Forced(Step(c, ForceClose))
  {
    StepWhole(c, ForceClose);
    RoundsOf(c);
    StepMoves(c, ForceClose);
    hide Step, Whole, Fails;
    assert ([] + Step(c, ForceClose).q.tasks)[|c.q.tasks|] == ForceCloseTask;
  }

  /** forceClose() is not forgotten: in every run from it, whatever else is called, the
    * connection is closed or its functor still waits. */
  lemma ForceCloseEnds(c: Conn, evs: seq<Event>)
    requires Whole(c) && c.Live() && !c.aborted && LegalRun(Step(c, ForceClose), evs)
    ensures var d := Run(Step(c, ForceClose), evs);
      d.aborted || d.state.Disconnected? || ForceCloseTask in d.q.tasks
  {
    ForceQueues(c);
    hide Step, Legal;
    RunForced(Step(c, ForceClose), evs);
  }
}
