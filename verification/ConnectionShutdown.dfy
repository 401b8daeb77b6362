/** Which messages a graceful shutdown can lose, and exactly when. */
module ConnectionShutdown {
  import opened Prelude
  import opened Connections
  import opened ConnectionProofs
  import opened ConnectionTheorems
  import P = Pollers

  /** The connection is half-closed while messages accepted from other threads still wait
    * in the loop's queue: by NothingAfterFin none of them will reach the wire. */
  ghost predicate Loses(c: Conn) {
    !c.aborted && c.tx.fin && c.state.Disconnecting? && |Waiting(c.q.tasks)| > 0
  }

  // ---------------------------------------------------- what can still be lost

  /** The handlers still to come in this round. */
  function Upcoming(c: Conn): seq<Handler> {
    if c.q.phase.Handling? && c.q.phase.report.Some? then Handlers(c.q.phase.report.value) else c.q.due
  }

  /** The backlog is drained in this round's handlers, before any functor. */
  predicate DrainsFirst(c: Conn) {
    c.q.phase.Handling? && c.ch.writing && DoWrite in Upcoming(c) && DoClose !in Upcoming(c)
  }

  /** What is buffered, or will be by the functors ahead, may all be written while a message
    * still waits: one that waits behind the next poll, or behind this round's handlers. */
  predicate WriteOvertakes(c: Conn) {
    || (|Waiting(Behind(c))| > 0 && (c.ch.writing || |Waiting(Ahead(c))| > 0))
    || (|Waiting(c.q.tasks)| > 0 && DrainsFirst(c))
  }

  /** No state from which messages can be lost by the half-close of a shutdown. */
  ghost predicate Safe(c: Conn) {
    || c.aborted || c.state.Disconnected?
    || (c.state.Disconnecting? && (|Waiting(c.q.tasks)| == 0 || (!c.tx.fin && !WriteOvertakes(c))))
  }

  lemma {:induction false} WaitingConcat(a: seq<Task>, b: seq<Task>)
    ensures Waiting(a + b) == Waiting(a) + Waiting(b)
  {
    if a == [] {
      assert a + b == b;
    } else {
      assert (a + b)[1..] == a[1..] + b && (a + b)[0] == a[0];
      WaitingConcat(a[1..], b);
      Reassociate(if a[0].SendTask? then [a[0].msg] else [], Waiting(a[1..]), Waiting(b));
    }
  }

  lemma Split(c: Conn)
    ensures |Waiting(c.q.tasks)| == |Waiting(Ahead(c))| + |Waiting(Behind(c))|
  {
    WaitingConcat(Ahead(c), Behind(c));
    match c.q.phase
    case AtPoll => assert [] + c.q.tasks == c.q.tasks;
    case Handling(_) => assert c.q.tasks + [] == c.q.tasks;
    case Functors(left) =>
      var k := Min(left, |c.q.tasks|);
      assert c.q.tasks[..k] + c.q.tasks[k..] == c.q.tasks;
  }

  lemma {:induction false} HeadWaits(tasks: seq<Task>)
    requires |tasks| > 0
    ensures tasks[0].SendTask? ==> |Waiting(tasks)| == 1 + |Waiting(tasks[1..])|
    ensures !tasks[0].SendTask? ==> Waiting(tasks) == Waiting(tasks[1..])
    ensures SendsBeforeShutdown(tasks) && tasks[0].ShutdownTask? ==> |Waiting(tasks)| == 0
  {
    if SendsBeforeShutdown(tasks) && tasks[0].ShutdownTask? {
      NoSendWaits(tasks[1..]);
    }
  }

  lemma {:induction false} NoSendWaits(tasks: seq<Task>)
    requires forall k :: 0 <= k < |tasks| ==> !tasks[k].SendTask?
    ensures |Waiting(tasks)| == 0
  {
    if |tasks| > 0 {
      NoSendWaits(tasks[1..]);
    }
  }

  lemma {:induction false} ReadSwitchKeeps(c: Conn)
    ensures StartReadInLoop(c) == c.(ch := StartReadInLoop(c).ch) && StartReadInLoop(c).ch.writing == c.ch.writing
    ensures StopReadInLoop(c) == c.(ch := StopReadInLoop(c).ch) && StopReadInLoop(c).ch.writing == c.ch.writing
  {
    if !c.ch.readFlag || !c.ch.reading { }
    if c.ch.readFlag || c.ch.reading { }
  }

  lemma {:induction false} SendKeepsState(c: Conn, m: seq<Byte>, wr: WriteResult, remote: bool)
    ensures var d := SendInLoop(c, m, wr, remote); d.state == c.state && d.q == c.q && d.tx.fin == c.tx.fin
  {
    if c.state.Disconnected? {
    } else if c.CanWriteDirectly() && IsFault(wr) {
    } else {
    }
  }

  // ------------------------------------------------------ safe states stay safe

  /** Appending what is not a message changes nothing that matters. */
  lemma {:induction false} Appended(c: Conn, t: Task)
    requires Rounds(c) && !t.SendTask?
    ensures WriteOvertakes(Queue(c, t)) == WriteOvertakes(c) && |Waiting(Queue(c, t).q.tasks)| == |Waiting(c.q.tasks)|
  {
    var d := Queue(c, t);
    WaitingSnoc(c.q.tasks, t);
    match c.q.phase
    case AtPoll =>
    case Handling(_) =>
    case Functors(left) =>
      assert Ahead(d) == Ahead(c) && Behind(d) == Behind(c) + [t];
      WaitingSnoc(Behind(c), t);
  }

  lemma {:induction false} AheadPops(c: Conn)
    requires Rounds(c) && c.q.phase.Functors? && c.q.phase.left > 0 && |c.q.tasks| > 0
    ensures Ahead(c) == [c.q.tasks[0]] + Ahead(Popped(c)) && Behind(Popped(c)) == Behind(c)
    ensures |Waiting(Ahead(c))| == |Waiting(Ahead(Popped(c)))| + (if c.q.tasks[0].SendTask? then 1 else 0)
  {
    assert Ahead(c)[1..] == Ahead(Popped(c));
  }

  lemma {:induction false} SafeFunctor(c: Conn, wr: WriteResult)
    requires Whole(c) && Safe(c) && !c.aborted && Legal(c, RunFunctor(wr))
    ensures Step(c, RunFunctor(wr)).aborted || Safe(Step(c, RunFunctor(wr)))
  {
    hide Whole, Safe, Step;
    if c.q.tasks[0].SendTask? {
      SendSafe(c, c.q.tasks[0].msg, wr);
    } else if c.q.tasks[0].StartReadTask? || c.q.tasks[0].StopReadTask? {
      SwitchFunctorSafe(c, wr);
    } else {
      PlainFunctorSafe(c, wr);
    }
  }

  lemma {:induction false} PopSafe(c: Conn)
    requires Whole(c) && Safe(c) && c.q.phase.Functors? && c.q.phase.left > 0 && |c.q.tasks| > 0
    requires !c.q.tasks[0].SendTask?
    ensures Safe(Popped(c)) && |Waiting(Popped(c).q.tasks)| == |Waiting(c.q.tasks)|
    ensures c.q.tasks[0].ShutdownTask? ==> |Waiting(c.q.tasks)| == 0
    ensures c.q.tasks[0].EstablishTask? ==> c.aborted || !c.state.Connecting?
    ensures c.q.tasks[0].DestroyTask? ==> c.state.Disconnected?
  {
    HeadWaits(c.q.tasks);
    AheadPops(c);
    Split(c);
    Split(Popped(c));
    assert c.q.tasks[0] in c.q.tasks;
    hide Ahead, Behind, Waiting, WriteInterest, Streams, Lifecycle, Owned;
  }

  lemma {:induction false} SwitchFunctorSafe(c: Conn, wr: WriteResult)
    requires Whole(c) && Safe(c) && !c.aborted && Legal(c, RunFunctor(wr))
    requires c.q.tasks[0].StartReadTask? || c.q.tasks[0].StopReadTask?
    ensures Safe(Step(c, RunFunctor(wr)))
  {
    PopSafe(c);
    SwitchedIs(c, wr);
    hide Whole, Waiting, Popped, Safe, Step, Legal, StartReadInLoop, StopReadInLoop;
    SwitchedSafe(Popped(c));
  }

  lemma SwitchedIs(c: Conn, wr: WriteResult)
    requires !c.aborted && |c.q.tasks| > 0
    ensures c.q.tasks[0].StartReadTask? ==> Step(c, RunFunctor(wr)) == StartReadInLoop(Popped(c))
    ensures c.q.tasks[0].StopReadTask? ==> Step(c, RunFunctor(wr)) == StopReadInLoop(Popped(c))
  {
    hide StartReadInLoop, StopReadInLoop, Popped;
  }

  lemma SwitchedSafe(c: Conn)
    requires Safe(c)
    ensures Safe(StartReadInLoop(c)) && Safe(StopReadInLoop(c))
  {
    ReadSwitchKeeps(c);
    SwitchSafe(c);
    hide StartReadInLoop, StopReadInLoop, WriteOvertakes, Waiting;
  }

  lemma {:induction false} PlainFunctorSafe(c: Conn, wr: WriteResult)
    requires Whole(c) && Safe(c) && !c.aborted && Legal(c, RunFunctor(wr))
    requires !c.q.tasks[0].SendTask? && !c.q.tasks[0].StartReadTask? && !c.q.tasks[0].StopReadTask?
    ensures Step(c, RunFunctor(wr)).aborted || Safe(Step(c, RunFunctor(wr)))
  {
    PopSafe(c);
    hide Whole, WriteOvertakes, Waiting;
    match c.q.tasks[0] {
      case ShutdownTask => if c.ch.writing { }
      case ForceCloseTask => if Popped(c).Live() { }
      case EstablishTask => if c.state.Connecting? { }
      case DestroyTask =>
    }
  }

  lemma {:induction false} SendSafe(c: Conn, m: seq<Byte>, wr: WriteResult)
    requires Whole(c) && Safe(c) && !c.aborted && Legal(c, RunFunctor(wr)) && c.q.tasks[0] == SendTask(m)
    ensures Safe(Step(c, RunFunctor(wr)))
  {
    hide SendInLoop, WriteInterest, Streams, Lifecycle, Owned, Inv;
    SendKeepsState(Popped(c), m, wr, true);
    HeadWaits(c.q.tasks);
    AheadPops(c);
    Split(c);
    Split(Popped(c));
    var d := Step(c, RunFunctor(wr));
    assert Ahead(d) == Ahead(Popped(c)) && Behind(d) == Behind(Popped(c));
    assert d.q.tasks == Popped(c).q.tasks && d.q.phase == Popped(c).q.phase;
  }

  /** Reading switched on or off. */
  lemma {:induction false} SwitchSafe(c: Conn)
    ensures WriteOvertakes(StartReadInLoop(c)) == WriteOvertakes(c)
    ensures WriteOvertakes(StopReadInLoop(c)) == WriteOvertakes(c)
  {
    ReadSwitchKeeps(c);
    OvertakesBy(c, StartReadInLoop(c));
    OvertakesBy(c, StopReadInLoop(c));
  }

  lemma {:induction false} SafeDispatch(c: Conn, rr: ReadResult, wr: WriteResult)
    requires Whole(c) && Safe(c) && !c.aborted && Legal(c, Dispatch(rr, wr))
    ensures Safe(Step(c, Dispatch(rr, wr)))
  {
    hide Streams, Lifecycle, Closing, Owned;
    assert forall h :: h in c.q.due[1..] ==> h in c.q.due;
    assert c.q.due == [c.q.due[0]] + c.q.due[1..];
    match c.q.due[0] {
      case DoClose => if c.Live() { }
      case DoRead => if rr.Eof? && c.Live() { }
      case DoWrite =>
        if !c.ch.writing || !wr.Wrote? || wr.n == 0 {
        } else if wr.n < |c.tx.out| {
        } else {
        }
    }
  }

  lemma {:induction false} SafeCall(c: Conn, e: Event)
    requires Rounds(c) && Safe(c) && !c.state.Connected? && !c.state.Connecting? && IsCall(e)
    ensures Call(c, e).aborted || Safe(Call(c, e))
  {
    hide ShutdownInLoop, StartReadInLoop, StopReadInLoop, Waiting, WriteOvertakes;
    ReadSwitchKeeps(c);
    SwitchSafe(c);
    match e {
      case ForceClose =>
        if c.Live() {
          Appended(c, ForceCloseTask);
          SameButState(Queue(c, ForceCloseTask));
        }
      case StartReadRemote => Appended(c, StartReadTask);
      case StopReadRemote => Appended(c, StopReadTask);
      case DelayForceClose => if c.Live() { SameButState(c); }
      case Consume(len) => SameButRead(c, len);
      case _ =>
    }
  }

  lemma SameButState(c: Conn)
    ensures WriteOvertakes(c.(state := Disconnecting)) == WriteOvertakes(c)
  {
    OvertakesBy(c, c.(state := Disconnecting));
  }

  lemma SameButRead(c: Conn, len: int)
    ensures var d := Call(c, Consume(len));
      && WriteOvertakes(d) == WriteOvertakes(c)
      && d.q == c.q && d.state == c.state && d.tx == c.tx && d.aborted == c.aborted
  {
    if 0 <= len < |c.rx.input| { }
    OvertakesBy(c, Call(c, Consume(len)));
  }

  /** A poll without a backlog reports no room to write. */
  lemma {:induction false} SafePoll(c: Conn, report: Option<set<P.Flag>>)
    requires Rounds(c) && Safe(c) && !c.aborted && Legal(c, Poll(report)) && !c.state.Connecting?
    ensures Safe(Step(c, Poll(report)))
  {
    var d := Step(c, Poll(report));
    assert Ahead(d) == c.q.tasks && Behind(d) == [];
    if report.Some? {
      HandlersAre(report.value);
    }
  }

  lemma {:induction false} SafeTake(c: Conn)
    requires Rounds(c) && Safe(c) && !c.aborted && Legal(c, TakeEvent)
    ensures Safe(Step(c, TakeEvent))
  {
    var d := Step(c, TakeEvent);
    assert Ahead(d) == Ahead(c) && Behind(d) == Behind(c) && Upcoming(d) == Upcoming(c);
  }

  lemma {:induction false} SafeSwap(c: Conn)
    requires Rounds(c) && Safe(c) && !c.aborted && Legal(c, Swap)
    ensures Safe(Step(c, Swap))
  {
    var d := Step(c, Swap);
    assert Behind(d) == [];
  }

  lemma {:induction false} SafeEnd(c: Conn)
    requires Rounds(c) && Safe(c) && !c.aborted && Legal(c, EndRound)
    ensures Safe(Step(c, EndRound))
  {
    var d := Step(c, EndRound);
    assert Ahead(c) == [] && Ahead(d) == [] && Behind(c) == c.q.tasks && Behind(d) == c.q.tasks;
  }

  lemma {:induction false} SafeRound(c: Conn, e: Event)
    requires Whole(c) && Safe(c) && !c.aborted && Legal(c, e) && !c.state.Connecting?
    requires e.Poll? || e.TakeEvent? || e.Swap? || e.EndRound? || e.QueueDestroy?
    ensures Safe(Step(c, e))
  {
    ClosedIsDown(c);
    hide Safe, Inv, Owned, Rounds;
    match e {
      case Poll(report) => SafePoll(c, report);
      case TakeEvent => SafeTake(c);
      case Swap => SafeSwap(c);
      case EndRound => SafeEnd(c);
      case QueueDestroy => SafeDown(Step(c, e));
    }
  }

  lemma SafeDown(c: Conn)
    requires c.state.Disconnected?
    ensures Safe(c)
  {
  }

  lemma {:induction false} SafeStep(c: Conn, e: Event)
    requires Whole(c) && Safe(c) && Legal(c, e)
    ensures Step(c, e).aborted || Safe(Step(c, e))
  {
    UntouchedConnects(c);
    hide Step, Inv, Owned, WriteOvertakes, Rounds;
    if c.aborted {
      AbortedStep(c, e);
    } else if e.Dispatch? {
      SafeDispatch(c, e.rr, e.wr);
    } else if e.RunFunctor? {
      SafeFunctor(c, e.wr);
    } else if IsCall(e) {
      SafeCall(c, e);
      StepCalls(c, e);
    } else if e.SendLocal? {
      SendRefused(c, e);
    } else {
      SafeRound(c, e);
    }
  }

  lemma UntouchedConnects(c: Conn)
    requires Owned(c)
    ensures c.q.owner.Untouched? ==> c.state.Connecting?
  {
  }

  lemma SendRefused(c: Conn, e: Event)
    requires !c.state.Connected? && !c.aborted && e.SendLocal?
    ensures Step(c, e) == c
  {
  }

  /** From a safe state no run loses a message. */
  lemma {:induction false} SafeRun(c: Conn, evs: seq<Event>)
    requires c.aborted || (Whole(c) && Safe(c))
    requires LegalRun(c, evs)
    ensures !Loses(Run(c, evs))
    decreases evs
  {
    if evs != [] {
      if c.aborted {
        AbortedStep(c, evs[0]);
      } else {
        SafeStep(c, evs[0]);
        StepWhole(c, evs[0]);
      }
      hide Step, Whole, Safe;
      SafeRun(Step(c, evs[0]), evs[1..]);
    }
  }

  // ---------------------------------------------------- the others can lose one

  /** Some continuation of the run from c loses a message. */
  ghost predicate CanLose(c: Conn) {
    exists evs :: LegalRun(c, evs) && Loses(Run(c, evs))
  }

  lemma LoseCons(c: Conn, e: Event)
    requires Legal(c, e) && CanLose(Step(c, e))
    ensures CanLose(c)
  {
    hide Step, Legal;
    var evs :| LegalRun(Step(c, e), evs) && Loses(Run(Step(c, e), evs));
    RunCons(c, e, evs);
  }

  lemma LostAlready(c: Conn)
    requires Loses(c)
    ensures CanLose(c)
  {
    assert LegalRun(c, []) && Run(c, []) == c;
  }

  /** A closing connection with messages waiting that a complete write can overtake, and
    * nothing queued that would close it first. */
  ghost predicate Overtakable(c: Conn) {
    && Whole(c) && !c.aborted && c.state.Disconnecting? && !c.tx.fin && WriteOvertakes(c)
    && forall t :: t in c.q.tasks ==> !t.ForceCloseTask?
  }

  function Blocked(): WriteResult { WriteFailed(WouldBlock) }

  /** No shutdown runs while a message waits behind it, and nothing else is queued. */
  lemma HeadKinds(c: Conn)
    requires Overtakable(c) && |c.q.tasks| > 0
    ensures c.q.tasks[0].SendTask? || c.q.tasks[0].StartReadTask? || c.q.tasks[0].StopReadTask?
    ensures c.q.tasks[0].SendTask? ==> |c.q.tasks[0].msg| > 0
  {
    Split(c);
    HeadWaits(c.q.tasks);
    NotConnecting(c);
    assert c.q.tasks[0] in c.q.tasks;
    hide Ahead, Behind, Waiting;
  }

  lemma {:induction false} QuietFunctor(c: Conn)
    requires !c.aborted && |c.q.tasks| > 0 && (c.q.tasks[0].StartReadTask? || c.q.tasks[0].StopReadTask?)
    ensures var d := Step(c, RunFunctor(Blocked()));
      && d.state == c.state && d.tx == c.tx && d.q == Popped(c).q && !d.aborted && d.ch.writing == c.ch.writing
  {
    hide StartReadInLoop, StopReadInLoop;
    ReadSwitchKeeps(Popped(c));
  }

  /** Taking anything but a message off the batch. */
  lemma {:induction false} PopOvertakes(c: Conn)
    requires Rounds(c) && c.q.phase.Functors? && c.q.phase.left > 0 && |c.q.tasks| > 0 && !c.q.tasks[0].SendTask?
    ensures WriteOvertakes(Popped(c)) == WriteOvertakes(c)
  {
    HeadWaits(c.q.tasks);
    AheadPops(c);
    hide Ahead, Behind, Waiting;
  }

  /** Running the batch: whatever is sent blocks, so it is buffered. */
  lemma {:induction false} BatchOvertakes(c: Conn)
    requires Overtakable(c) && c.q.phase.Functors? && c.q.phase.left > 0
    ensures Legal(c, RunFunctor(Blocked())) && Overtakable(Step(c, RunFunctor(Blocked())))
    ensures Step(c, RunFunctor(Blocked())).q.phase == Functors(c.q.phase.left - 1)
  {
    var e := RunFunctor(Blocked());
    assert |c.q.tasks| > 0 && Rounds(c);
    HeadKinds(c);
    assert Legal(c, e);
    assert forall t :: t in c.q.tasks[1..] ==> t in c.q.tasks;
    if c.q.tasks[0].SendTask? {
      BlockedSend(c, c.q.tasks[0].msg);
    } else {
      PopOvertakes(c);
      QuietFunctor(c);
      OvertakesBy(Popped(c), Step(c, e));
    }
    hide Step, Legal, WriteOvertakes, Whole;
    StepWhole(c, e);
  }

  /** Only the place in the round, the queue and the write interest matter. */
  lemma OvertakesBy(c: Conn, d: Conn)
    requires d.q == c.q && d.ch.writing == c.ch.writing
    ensures WriteOvertakes(d) == WriteOvertakes(c)
  {
    hide Waiting;
    assert Ahead(d) == Ahead(c) && Behind(d) == Behind(c) && Upcoming(d) == Upcoming(c);
  }

  lemma NotConnecting(c: Conn)
    requires Whole(c) && c.Live()
    ensures EstablishTask !in c.q.tasks && DestroyTask !in c.q.tasks
  {
  }

  lemma {:induction false} BlockedSend(c: Conn, m: seq<Byte>)
    requires Overtakable(c) && c.q.phase.Functors? && c.q.phase.left > 0 && c.q.tasks[0] == SendTask(m)
    ensures var d := Step(c, RunFunctor(Blocked()));
      && d.state == c.state && d.tx.fin == c.tx.fin && d.q == Popped(c).q && !d.aborted && WriteOvertakes(d)
  {
    var d := Step(c, RunFunctor(Blocked()));
    assert c.q.tasks[0] in c.q.tasks;
    AheadPops(c);
    SendKeepsState(Popped(c), m, Blocked(), true);
    assert d == Keep(Popped(c), m, 0, false, true);
    assert Ahead(d) == Ahead(Popped(c)) && Behind(d) == Behind(Popped(c));
  }

  /** The batch is done: the next poll can report room to write. */
  lemma {:induction false} RoundOvertakes(c: Conn)
    requires Overtakable(c) && c.q.phase == Functors(0)
    ensures Legal(c, EndRound) && Overtakable(Step(c, EndRound))
  {
    StepWhole(c, EndRound);
    assert c.q.tasks[..0] == [] && c.q.tasks[0..] == c.q.tasks;
  }

  lemma {:induction false} PollOvertakes(c: Conn)
    requires Overtakable(c) && c.q.phase.AtPoll?
    ensures Legal(c, Poll(Some({P.Out}))) && Overtakable(Step(c, Poll(Some({P.Out}))))
  {
    StepWhole(c, Poll(Some({P.Out})));
    HandlersAre({P.Out});
  }

  lemma {:induction false} TakeOvertakes(c: Conn)
    requires Overtakable(c) && c.q.phase.Handling? && c.q.phase.report.Some?
    ensures Legal(c, TakeEvent) && Overtakable(Step(c, TakeEvent))
  {
    StepWhole(c, TakeEvent);
  }

  /** A read that finds nothing, until the write that takes everything. */
  lemma {:induction false} ReadOvertakes(c: Conn)
    requires Overtakable(c) && c.q.phase == Handling(None) && |c.q.due| > 0 && !c.q.due[0].DoWrite?
    ensures var e := Dispatch(ReadFailed, Blocked());
      Legal(c, e) && Overtakable(Step(c, e)) && Step(c, e) == Undue(c)
  {
    var e := Dispatch(ReadFailed, Blocked());
    StepWhole(c, e);
    assert c.q.due == [c.q.due[0]] + c.q.due[1..] && c.q.due[0] in c.q.due;
    assert forall h :: h in c.q.due[1..] ==> h in c.q.due;
  }

  lemma {:induction false} WriteLoses(c: Conn)
    requires Overtakable(c) && c.q.phase == Handling(None) && |c.q.due| > 0 && c.q.due[0].DoWrite?
    ensures var e := Dispatch(ReadFailed, Wrote(|c.tx.out|)); Legal(c, e) && Loses(Step(c, e))
  {
    assert c.ch.writing && |Waiting(c.q.tasks)| > 0;
  }

  lemma {:induction false} OvertakenLoses(c: Conn)
    requires Overtakable(c)
    ensures CanLose(c)
    decreases match c.q.phase {
                case Functors(left) => 4 + left
                case AtPoll => 3
                case Handling(r) => if r.Some? then 2 else 1
              },
              |c.q.due|
  {
    assert !c.aborted;
    hide Step, Overtakable, Whole, Loses, Legal, CanLose;
    match c.q.phase {
      case Functors(left) =>
        if left > 0 {
          BatchOvertakes(c);
          OvertakenLoses(Step(c, RunFunctor(Blocked())));
          LoseCons(c, RunFunctor(Blocked()));
        } else {
          RoundOvertakes(c);
          PhaseOf(c, EndRound);
          OvertakenLoses(Step(c, EndRound));
          LoseCons(c, EndRound);
        }
      case AtPoll =>
        PollOvertakes(c);
        PhaseOf(c, Poll(Some({P.Out})));
        OvertakenLoses(Step(c, Poll(Some({P.Out}))));
        LoseCons(c, Poll(Some({P.Out})));
      case Handling(report) =>
        if report.Some? {
          TakeOvertakes(c);
          PhaseOf(c, TakeEvent);
          OvertakenLoses(Step(c, TakeEvent));
          LoseCons(c, TakeEvent);
        } else {
          SomeDue(c);
          if c.q.due[0].DoWrite? {
            WriteLoses(c);
            LostAlready(Step(c, Dispatch(ReadFailed, Wrote(|c.tx.out|))));
            LoseCons(c, Dispatch(ReadFailed, Wrote(|c.tx.out|)));
          } else {
            ReadOvertakes(c);
            OvertakenLoses(Step(c, Dispatch(ReadFailed, Blocked())));
            LoseCons(c, Dispatch(ReadFailed, Blocked()));
          }
        }
    }
  }

  lemma SomeDue(c: Conn)
    requires Overtakable(c) && c.q.phase == Handling(None)
    ensures |c.q.due| > 0
  {
  }

  lemma PhaseOf(c: Conn, e: Event)
    requires !c.aborted && Legal(c, e) && IsRound(e)
    ensures Step(c, e).q == Round(c.q, e)
  {
  }

  /** shutdown() called in the loop's own thread overtakes the sends other threads have
    * already been promised. With nothing buffered it half-closes at once, and one can be
    * lost if and only if one is waiting; otherwise if and only if the backlog can be
    * written out first: one waits beyond the running batch, or, while events are handled,
    * one waits and this connection's writability is still to be handled this round. */
  lemma LocalShutdownLosesIff(c: Conn)
    requires Whole(c) && c.state.Connected? && !c.aborted && Legal(c, ShutdownLocal)
    ensures CanLose(Step(c, ShutdownLocal)) <==>
              |Waiting(c.q.tasks)| > 0 && (!c.ch.writing || WriteOvertakes(c))
  {
    var d := Step(c, ShutdownLocal);
    StepWhole(c, ShutdownLocal);
    ShutdownCloses(c, ShutdownLocal);
    NoneClosing(c);
    OvertakesBy(c, d);
    Split(c);
    hide Step, Whole, Waiting, Ahead, Behind, WriteOvertakes;
    if |Waiting(c.q.tasks)| > 0 && !c.ch.writing {
      LostAlready(d);
    } else if |Waiting(c.q.tasks)| > 0 && WriteOvertakes(c) {
      OvertakenLoses(d);
    } else {
      NeverLoses(d);
    }
  }

  lemma NoneClosing(c: Conn)
    requires Whole(c) && c.state.Connected?
    ensures !c.tx.fin && forall t :: t in c.q.tasks ==> !t.ForceCloseTask?
  {
  }

  lemma NeverLoses(d: Conn)
    requires Whole(d) && Safe(d)
    ensures !CanLose(d)
  {
    forall evs | LegalRun(d, evs) ensures !Loses(Run(d, evs)) {
      SafeRun(d, evs);
    }
  }

  /** shutdown() called from another thread queues behind those sends, but draining what
    * is buffered half-closes at once: a message can be lost if and only if the backlog, or
    * what the running batch still adds to it, can be written out before that message's
    * functor runs. At the poll that means a message waiting behind a backlog; in a batch,
    * one waiting beyond it, with bytes buffered or a send left in the batch. */
  lemma RemoteShutdownLosesIff(c: Conn)
    requires Whole(c) && c.state.Connected? && !c.aborted
    ensures CanLose(Step(c, ShutdownRemote)) <==> WriteOvertakes(c)
  {
    var d := Step(c, ShutdownRemote);
    StepWhole(c, ShutdownRemote);
    ShutdownCloses(c, ShutdownRemote);
    NoneClosing(c);
    Appended(c, ShutdownTask);
    OvertakesBy(Queue(c, ShutdownTask), d);
    assert forall t :: t in d.q.tasks ==> t in c.q.tasks || t == ShutdownTask;
    hide Step, Whole, Waiting, WriteOvertakes;
    if WriteOvertakes(c) {
      OvertakenLoses(d);
    } else {
      NeverLoses(d);
    }
  }

  /** Where the loop is, spelled out. */
  lemma WriteOvertakesIff(c: Conn)
    requires Rounds(c)
    ensures WriteOvertakes(c) <==>
      match c.q.phase
      case AtPoll => |Waiting(c.q.tasks)| > 0 && c.ch.writing
      case Handling(_) => |Waiting(c.q.tasks)| > 0 && DrainsFirst(c)
      case Functors(left) =>
        |Waiting(c.q.tasks[left..])| > 0 && (c.ch.writing || |Waiting(c.q.tasks[..left])| > 0)
  {
  }

  // ------------------------------------------------ shutdown keeps its word

  /** A closing connection has been half-closed, or will be: bytes are being drained, or
    * the shutdown's functor waits. */
  ghost predicate Promised(c: Conn) {
    c.state.Disconnecting? ==> c.tx.fin || c.ch.writing || ShutdownTask in c.q.tasks
  }

  /** A forced close of a connected connection with nothing to drain: it is then closing
    * with no half-close to come. */
  predicate Abandons(c: Conn, e: Event) {
    (e.ForceClose? || e.DelayForceClose?) && c.state.Connected? && !c.ch.writing
  }

  lemma {:induction false} SendPromised(c: Conn, m: seq<Byte>, r: WriteResult, remote: bool)
    ensures var d := SendInLoop(c, m, r, remote);
      d.state == c.state && d.tx.fin == c.tx.fin && d.q.tasks == c.q.tasks && (c.ch.writing ==> d.ch.writing)
  {
    if c.state.Disconnected? {
    } else if c.CanWriteDirectly() && IsFault(r) {
    } else {
    }
  }

  lemma {:induction false} CallPromised(c: Conn, e: Event)
    requires Inv(c) && Promised(c) && !c.aborted && IsCall(e)
    ensures Promised(Call(c, e)) <==> !Abandons(c, e)
  {
    hide StartReadInLoop, StopReadInLoop, Streams, Lifecycle;
    ReadSwitchKeeps(c);
    match e {
      case SendRemote(m) => if c.state.Connected? && |m| > 0 { }
      case ShutdownLocal => if c.state.Connected? { if c.ch.writing { } }
      case ShutdownRemote => if c.state.Connected? { }
      case ForceClose =>
        if c.Live() { assert ShutdownTask in c.q.tasks ==> ShutdownTask in c.q.tasks + [ForceCloseTask]; }
      case DelayForceClose => if c.Live() { }
      case Consume(len) => if 0 <= len < |c.rx.input| { }
      case _ =>
    }
  }

  lemma {:induction false} DispatchPromised(c: Conn, rr: ReadResult, wr: WriteResult)
    requires Promised(c) && !c.aborted && |c.q.due| > 0
    ensures Promised(Step(c, Dispatch(rr, wr))) || Step(c, Dispatch(rr, wr)).aborted
  {
    match c.q.due[0] {
      case DoClose => if c.Live() { }
      case DoRead => match rr { case Got(_) => case Eof => if c.Live() { } case ReadFailed => }
      case DoWrite =>
        if !c.ch.writing || !wr.Wrote? || wr.n == 0 {
        } else if wr.n < |c.tx.out| {
        } else {
        }
    }
  }

  lemma {:induction false} FunctorPromised(c: Conn, wr: WriteResult)
    requires Promised(c) && !c.aborted && |c.q.tasks| > 0
    ensures Step(c, RunFunctor(wr)).aborted || Promised(Step(c, RunFunctor(wr)))
  {
    hide SendInLoop, StartReadInLoop, StopReadInLoop;
    var d := Popped(c);
    assert c.q.tasks == [c.q.tasks[0]] + d.q.tasks;
    ReadSwitchKeeps(d);
    match c.q.tasks[0] {
      case SendTask(m) => SendPromised(d, m, wr, true);
      case ShutdownTask => if c.ch.writing { }
      case ForceCloseTask => if c.Live() { }
      case _ =>
    }
  }

  /** Every step keeps the promise but one: a forced close of a connected connection that
    * has nothing to drain breaks it, and nothing else does. */
  lemma {:induction false} StepPromised(c: Conn, e: Event)
    requires Inv(c) && Promised(c) && !c.aborted && Legal(c, e)
    ensures Step(c, e).aborted || (Promised(Step(c, e)) <==> !Abandons(c, e))
  {
    hide Inv, Promised, SendInLoop;
    if IsCall(e) {
      CallPromised(c, e);
      StepCalls(c, e);
    } else if e.Dispatch? {
      DispatchPromised(c, e.rr, e.wr);
    } else if e.RunFunctor? {
      FunctorPromised(c, e.wr);
    } else {
      OtherPromised(c, e);
    }
  }

  lemma {:induction false} OtherPromised(c: Conn, e: Event)
    requires Inv(c) && Promised(c) && !c.aborted && Legal(c, e)
    requires e.Establish? || e.SendLocal? || IsRound(e)
    ensures Step(c, e).aborted || Promised(Step(c, e))
  {
    hide SendInLoop, Handlers;
    if e.SendLocal? {
      SendPromised(c, e.msg, e.wr, false);
    } else if e.Establish? {
      if c.state.Connecting? { }
    }
  }

  lemma {:induction false} StaysClosing(c: Conn, e: Event)
    requires Inv(c) && !c.aborted && Legal(c, e) && (c.state.Disconnecting? || c.state.Disconnected?)
    ensures Step(c, e).aborted || Step(c, e).state.Disconnecting? || Step(c, e).state.Disconnected?
  {
    hide SendInLoop, StartReadInLoop, StopReadInLoop, Handlers, Streams, Lifecycle, WriteInterest;
    ReadSwitchKeeps(c);
    match e {
      case SendLocal(m, wr) => SendPromised(c, m, wr, false);
      case RunFunctor(wr) =>
        ReadSwitchKeeps(Popped(c));
        if c.q.tasks[0].SendTask? { SendPromised(Popped(c), c.q.tasks[0].msg, wr, true); }
      case _ =>
    }
  }

  lemma {:induction false} RunPromised(c: Conn, evs: seq<Event>)
    requires c.aborted || (Inv(c) && Promised(c) && !c.state.Connected? && !c.state.Connecting?)
    requires LegalRun(c, evs)
    ensures var d := Run(c, evs);
      d.aborted || (Inv(d) && Promised(d) && !d.state.Connected? && !d.state.Connecting?)
    decreases evs
  {
    hide Step, Inv, Promised, Legal;
    if evs != [] {
      if c.aborted {
        AbortedStep(c, evs[0]);
      } else {
        StepInv(c, evs[0]);
        StepPromised(c, evs[0]);
        StaysClosing(c, evs[0]);
      }
      RunPromised(Step(c, evs[0]), evs[1..]);
    }
  }

  /** shutdown() keeps its word: in every run from it, whatever else is called, as long as
    * the connection is not closed it is half-closed, or draining, or about to run the
    * shutdown; so once nothing is queued and nothing buffered the half-close has happened,
    * and every message accepted is on the wire. */
  lemma ShutdownKeepsItsWord(c: Conn, local: bool, evs: seq<Event>)
    requires Inv(c) && c.state.Connected? && !c.aborted && (local ==> !c.q.phase.AtPoll?)
    requires LegalRun(Step(c, if local then ShutdownLocal else ShutdownRemote), evs)
    ensures var d := Run(Step(c, if local then ShutdownLocal else ShutdownRemote), evs);
      !d.aborted && !d.state.Disconnected? ==>
      && (d.tx.fin || d.ch.writing || ShutdownTask in d.q.tasks)
      && (|d.tx.out| == 0 && |d.q.tasks| == 0 ==> d.tx.fin && d.tx.wire == Accepted(d.tx.sent))
  {
    var e := if local then ShutdownLocal else ShutdownRemote;
    StepInv(c, e);
    StepPromised(c, e);
    ShutdownCloses(c, e);
    hide Step, Inv, Promised;
    RunPromised(Step(c, e), evs);
    if !Run(Step(c, e), evs).aborted {
      KeptIfDone(Run(Step(c, e), evs));
    }
  }

  lemma ShutdownCloses(c: Conn, e: Event)
    requires c.state.Connected? && !c.aborted && (e.ShutdownLocal? || e.ShutdownRemote?)
    ensures var d := Step(c, e);
      d.state.Disconnecting? && !d.aborted && d.q.phase == c.q.phase && d.q.due == c.q.due && d.ch == c.ch
    ensures e.ShutdownLocal? ==> Step(c, e).q == c.q && (Step(c, e).tx.fin <==> c.tx.fin || !c.ch.writing)
    ensures e.ShutdownRemote? ==> Step(c, e).q == Queue(c, ShutdownTask).q && Step(c, e).tx == c.tx
  {
    if c.ch.writing { }
  }

  lemma KeptIfDone(d: Conn)
    requires Inv(d) && Promised(d) && !d.state.Connected? && !d.state.Connecting?
    ensures !d.state.Disconnected? ==> d.tx.fin || d.ch.writing || ShutdownTask in d.q.tasks
    ensures !d.state.Disconnected? && |d.tx.out| == 0 && |d.q.tasks| == 0 ==>
              d.tx.fin && d.tx.wire == Accepted(d.tx.sent)
  {
    assert |d.tx.out| == 0 ==> d.tx.wire + d.tx.out == d.tx.wire;
  }
}
