/** When a connection's assertions can fail: never in ordinary use, and exactly when
  * outside it. */
module ConnectionAborts {
  import opened Prelude
  import opened Connections
  import opened ConnectionProofs
  import opened ConnectionTheorems
  import P = Pollers

  // ------------------------------------------------------------ healing

  /** Whether a connection that is watched though not up is rid of that by the functors
    * ahead: reading is stopped, or it comes up, or its channel is removed while it asks for
    * nothing. */
  predicate Heals(reading: bool, ts: seq<Task>)
    decreases ts
  {
    ts != [] &&
    match ts[0]
    case StopReadTask => true
    case EstablishTask => true
    case DestroyTask => !reading
    case StartReadTask => Heals(true, ts[1..])
    case _ => Heals(reading, ts[1..])
  }

  /** The same, one functor at a time. */
  predicate HealsHead(reading: bool, t: Task, rest: seq<Task>) {
    match t
    case StopReadTask => true
    case EstablishTask => true
    case DestroyTask => !reading
    case StartReadTask => Heals(true, rest)
    case _ => Heals(reading, rest)
  }

  lemma HealsUnfold(reading: bool, ts: seq<Task>)
    requires |ts| > 0
    ensures Heals(reading, ts) == HealsHead(reading, ts[0], ts[1..])
  {
  }

  lemma {:induction false} HealsAppend(reading: bool, ts: seq<Task>, t: Task)
    requires Heals(reading, ts)
    ensures Heals(reading, ts + [t])
    decreases ts
  {
    assert (ts + [t])[1..] == ts[1..] + [t] && (ts + [t])[0] == ts[0];
    match ts[0] {
      case StartReadTask => HealsAppend(true, ts[1..], t);
      case StopReadTask =>
      case EstablishTask =>
      case DestroyTask =>
      case _ => HealsAppend(reading, ts[1..], t);
    }
  }

  // --------------------------------------------------------- calm and sound

  predicate Starts(c: Conn, e: Event) {
    e.StartReadLocal? || (e.RunFunctor? && |c.q.tasks| > 0 && c.q.tasks[0].StartReadTask?)
  }

  predicate Stops(c: Conn, e: Event) {
    e.StopReadLocal? || (e.RunFunctor? && |c.q.tasks| > 0 && c.q.tasks[0].StopReadTask?)
  }

  /** A step that closes a live connection. */
  predicate TakesDown(c: Conn, e: Event) {
    && c.Live()
    && (|| (e.Dispatch? && |c.q.due| > 0 && (c.q.due[0].DoClose? || (c.q.due[0].DoRead? && e.rr.Eof?)))
        || (e.RunFunctor? && |c.q.tasks| > 0 && c.q.tasks[0].ForceCloseTask?))
  }

  predicate Urgent(flags: set<P.Flag>) { P.Hup in flags && P.In !in flags && P.Pri in flags }

  /** The functors ahead once the step is done; a close in a handler may queue the owner's
    * connectDestroyed among them. */
  function Rest(c: Conn, e: Event): seq<Task> {
    if e.RunFunctor? then (if |Ahead(c)| > 0 then Ahead(c)[1..] else [])
    else if TakesDown(c, e) && c.cfg.ownerHere then Ahead(c) + [DestroyTask]
    else Ahead(c)
  }

  /** What keeps a connection's assertions from failing, to be seen before each step.
    * Reading is switched while the connection is up, and it is closed while watched, or
    * what that leaves behind is healed before the next poll; and a hang-up is not reported
    * together with urgent but no ordinary data. */
  predicate Calm(c: Conn, e: Event) {
    && (Starts(c, e) && !c.Live() ==> Heals(true, Rest(c, e)))
    && (Stops(c, e) && !c.Live() && !c.ch.index.Added? ==> Heals(false, Rest(c, e)))
    && (TakesDown(c, e) && !c.ch.index.Added? ==> Heals(false, Rest(c, e)))
    && (e.Poll? && e.report.Some? ==> !Urgent(e.report.value))
  }

  predicate CalmRun(c: Conn, evs: seq<Event>)
    decreases evs
  {
    evs == [] || (Legal(c, evs[0]) && Calm(c, evs[0]) && CalmRun(Step(c, evs[0]), evs[1..]))
  }

  /** Of the handlers due or reported only the first can close, and only a live connection. */
  ghost predicate HandlersOk(c: Conn) {
    && (forall k :: (if c.Live() then 1 else 0) <= k < |c.q.due| ==> c.q.due[k].DoWrite?)
    && (c.q.phase.Handling? && c.q.phase.report.Some? ==>
          c.Live() && !Urgent(c.q.phase.report.value) && P.RdHup !in c.q.phase.report.value)
  }

  /** A connection that is not up is not watched, unless it is healed in time. */
  ghost predicate Sound(c: Conn) {
    && Whole(c) && !c.aborted && c.ch.readFlag && HandlersOk(c)
    && (c.state.Connecting? ==> !c.ch.writing)
    && (!c.Live() && c.ch.index.Added? ==> Heals(c.ch.reading, Ahead(c)))
  }

  lemma FreshSound(cfg: Config)
    ensures Sound(Fresh(cfg))
  {
  }

  // --------------------------------------------------- calm steps stay sound

  /** Queueing a functor, in whatever part of the queue it lands. */
  lemma {:induction false} AheadAppends(c: Conn, t: Task)
    requires Rounds(c)
    ensures Ahead(Queue(c, t)) == Ahead(c) || Ahead(Queue(c, t)) == Ahead(c) + [t]
    ensures Heals(c.ch.reading, Ahead(c)) ==> Heals(c.ch.reading, Ahead(Queue(c, t)))
    ensures c.q.phase.Handling? ==> Ahead(Queue(c, t)) == Ahead(c) + [t]
  {
    if c.q.phase.Functors? {
      assert (c.q.tasks + [t])[..c.q.phase.left] == c.q.tasks[..c.q.phase.left];
    }
    if Heals(c.ch.reading, Ahead(c)) { HealsAppend(c.ch.reading, Ahead(c), t); }
  }

  /** All of Sound but Whole, for the step lemmas below. */
  ghost predicate Settled(c: Conn) {
    && !c.aborted && c.ch.readFlag && HandlersOk(c)
    && (c.state.Connecting? ==> !c.ch.writing)
    && (!c.Live() && c.ch.index.Added? ==> Heals(c.ch.reading, Ahead(c)))
  }

  lemma {:induction false} QueueSettled(c: Conn, t: Task)
    requires Rounds(c) && Settled(c)
    ensures Settled(Queue(c, t))
  {
    AheadAppends(c, t);
    hide Heals, Ahead;
  }

  /** What switching does to a channel. */
  lemma {:induction false} Switched(c: Conn)
    ensures var d := StartReadInLoop(c);
      && d == c.(ch := d.ch) && d.ch.writing == c.ch.writing && d.ch.readFlag
      && (c.ch.readFlag && c.ch.reading ==> d.ch == c.ch)
      && (!(c.ch.readFlag && c.ch.reading) ==> d.ch.reading && d.ch.index.Added?)
    ensures var d := StopReadInLoop(c);
      && d == c.(ch := d.ch) && d.ch.writing == c.ch.writing
      && (c.ch.readFlag ==> d.ch.readFlag && !d.ch.reading)
      && (c.ch.readFlag ==> (d.ch.index.Added? <==> c.ch.writing || !c.ch.index.Added?))
  {
    if !c.ch.readFlag || !c.ch.reading { }
    if c.ch.readFlag || c.ch.reading { }
  }

  /** Reading switched in the loop's own thread. */
  lemma {:induction false} SwitchSettled(c: Conn, e: Event)
    requires Settled(c) && Calm(c, e) && (e.StartReadLocal? || e.StopReadLocal?)
    requires (c.ch.reading ==> c.ch.index.Added?) && (!c.Live() ==> !c.ch.writing)
    ensures Settled(Step(c, e))
  {
    Switched(c);
    hide Heals;
    assert Rest(c, e) == Ahead(c);
    var d := Step(c, e);
    assert d == if e.StartReadLocal? then StartReadInLoop(c) else StopReadInLoop(c);
    hide StartReadInLoop, StopReadInLoop, Step, Rest;
    assert Ahead(d) == Ahead(c);
    hide Ahead;
  }

  /** Only the channel, the round, the queue, and whether it is up matter. */
  lemma SameSettled(c: Conn, d: Conn)
    requires Settled(c) && d.ch == c.ch && d.q == c.q && d.aborted == c.aborted
    requires d.state == c.state || (c.Live() && d.Live())
    ensures Settled(d)
  {
    hide Heals;
    assert Ahead(d) == Ahead(c);
  }

  lemma {:induction false} CallSettled(c: Conn, e: Event)
    requires Settled(c) && Rounds(c) && IsCall(e) && Calm(c, e)
    requires (c.ch.reading ==> c.ch.index.Added?) && (!c.Live() ==> !c.ch.writing)
    ensures Settled(Call(c, e))
  {
    assert !c.aborted;
    StepCalls(c, e);
    hide Settled, Heals, Ahead, Calm;
    match e {
      case StartReadLocal => SwitchSettled(c, e);
      case StopReadLocal => SwitchSettled(c, e);
      case SendRemote(m) =>
        if c.state.Connected? && |m| > 0 {
          QueueSettled(c, SendTask(m));
          OfferedSettled(Queue(c, SendTask(m)), Call(c, e));
        }
      case ShutdownLocal => if c.state.Connected? { SameSettled(c, Call(c, e)); }
      case ShutdownRemote => if c.state.Connected? { ClosingSettled(c, ShutdownTask); }
      case ForceClose => if c.Live() { ClosingSettled(c, ForceCloseTask); }
      case DelayForceClose => if c.Live() { SameSettled(c, Call(c, e)); }
      case StartReadRemote => QueueSettled(c, StartReadTask);
      case StopReadRemote => QueueSettled(c, StopReadTask);
      case Consume(len) => SameSettled(c, Call(c, e));
    }
  }

  lemma ClosingSettled(c: Conn, t: Task)
    requires Settled(c) && Rounds(c) && c.Live()
    ensures Settled(Queue(c.(state := Disconnecting), t))
  {
    hide Settled, Heals, Ahead;
    SameSettled(c, c.(state := Disconnecting));
    QueueSettled(c.(state := Disconnecting), t);
  }

  lemma OfferedSettled(c: Conn, d: Conn)
    requires Settled(c) && d == c.(q := c.q.(offered := d.q.offered))
    ensures Settled(d)
  {
    hide Heals;
    assert Ahead(d) == Ahead(c);
  }

  lemma {:induction false} SendSettled(c: Conn, m: seq<Byte>, r: WriteResult, remote: bool)
    requires Settled(c) && !c.state.Connecting?
    ensures Settled(SendInLoop(c, m, r, remote))
  {
    var d := SendInLoop(c, m, r, remote);
    SendPlace(c, m, r, remote);
    assert Ahead(d) == Ahead(c);
    if c.state.Disconnected? {
    } else if c.CanWriteDirectly() && IsFault(r) {
    } else {
    }
  }

  /** The connection goes down, watched before or healed after. */
  lemma {:induction false} CloseSettled(c: Conn, rest: seq<Task>)
    requires Rounds(c) && c.Live() && !c.aborted && c.ch.readFlag
    requires forall h :: h in c.q.due ==> h.DoWrite?
    requires c.q.phase.Functors? || c.q.phase == Handling(None)
    requires rest == Ahead(c) + (if c.cfg.ownerHere && c.q.phase.Handling? then [DestroyTask] else [])
    requires c.ch.index.Added? || Heals(false, rest)
    ensures Settled(HandleClose(c))
  {
    var d := HandleClose(c);
    AheadAppends(c, DestroyTask);
    assert Ahead(c) + [] == Ahead(c);
    if c.cfg.ownerHere {
      assert Ahead(d) == Ahead(Queue(c, DestroyTask));
      if c.q.phase.Functors? {
        assert (c.q.tasks + [DestroyTask])[..c.q.phase.left] == c.q.tasks[..c.q.phase.left];
      }
    } else {
      assert Ahead(d) == Ahead(c);
    }
    hide Heals;
  }

  lemma {:induction false} DispatchSettled(c: Conn, e: Event)
    requires Sound(c) && e.Dispatch? && Legal(c, e) && Calm(c, e)
    ensures Settled(Step(c, e))
  {
    var d := Undue(c);
    assert Ahead(d) == Ahead(c) && c.q.due == [c.q.due[0]] + c.q.due[1..];
    assert forall k :: 0 <= k < |d.q.due| ==> d.q.due[k] == c.q.due[k + 1];
    assert Rounds(d) && (!c.Live() ==> c.q.due[0].DoWrite?);
    hide Inv, Owned, Heals;
    if TakesDown(c, e) {
      assert Ahead(c) + [] == Ahead(c);
      CloseSettled(d, Rest(c, e));
    } else {
      KeepUpSettled(d, c.q.due[0], e.rr, e.wr);
    }
  }

  /** A handler that does not close. */
  lemma {:induction false} KeepUpSettled(c: Conn, h: Handler, rr: ReadResult, wr: WriteResult)
    requires Settled(c) && (!c.Live() ==> !c.ch.writing) && !h.DoClose? && !(h.DoRead? && rr.Eof?)
    ensures Settled(Handle(c, h, rr, wr))
  {
    var d := Handle(c, h, rr, wr);
    HandlePlace(c, h, rr, wr);
    match h {
      case DoRead => match rr { case Got(_) => assert Ahead(d) == Ahead(c); case ReadFailed => }
      case DoWrite =>
        if !c.ch.writing || !wr.Wrote? || wr.n == 0 {
        } else if wr.n < |c.tx.out| {
          assert Ahead(d) == Ahead(c);
        } else {
          assert Ahead(d) == Ahead(c);
        }
    }
  }

  /** The head taken off the batch. */
  lemma {:induction false} AheadPops(c: Conn)
    requires Rounds(c) && c.q.phase.Functors? && c.q.phase.left > 0 && |c.q.tasks| > 0
    ensures Ahead(c) == [c.q.tasks[0]] + Ahead(Popped(c)) && Ahead(Popped(c)) == Ahead(c)[1..]
    ensures Heals(c.ch.reading, Ahead(c)) == HealsHead(c.ch.reading, c.q.tasks[0], Ahead(Popped(c)))
  {
    HealsUnfold(c.ch.reading, Ahead(c));
    hide Heals;
  }

  /** What the functors leave alone: the rest of the batch, and all but the channel. */
  lemma {:induction false} PlainFunctor(c: Conn, e: Event)
    requires e.RunFunctor? && Legal(c, e)
    requires c.q.tasks[0].SendTask? || c.q.tasks[0].ShutdownTask? || (c.q.tasks[0].ForceCloseTask? && !c.Live())
    requires Sound(c)
    ensures Settled(Step(c, e))
  {
    AheadPops(c);
    if c.state.Connecting? { NoSendYet(c); }
    hide Inv, Owned, Heals, SendInLoop, Ahead;
    var d := Popped(c);
    assert Settled(d);
    match c.q.tasks[0] {
      case SendTask(m) => SendSettled(d, m, e.wr, true);
      case ShutdownTask => SameSettled(d, Step(c, e));
      case ForceCloseTask =>
    }
  }

  /** No message is queued before the connection is up. */
  lemma NoSendYet(c: Conn)
    requires Inv(c) && |c.q.tasks| > 0 && c.state.Connecting?
    ensures !c.q.tasks[0].SendTask?
  {
    assert |Arrived(c.tx.sent) + Waiting(c.q.tasks)| == 0;
  }

  lemma {:induction false} SwitchFunctor(c: Conn, e: Event)
    requires e.RunFunctor? && Legal(c, e) && (c.q.tasks[0].StartReadTask? || c.q.tasks[0].StopReadTask?)
    requires Sound(c) && Calm(c, e)
    ensures Settled(Step(c, e))
  {
    SoundIs(c);
    SwitchesAreWatched(c);
    hide Sound, Whole, Settled, Rounds, Heals;
    SwitchTaskSettled(c, e);
  }

  lemma {:induction false} SwitchTaskSettled(c: Conn, e: Event)
    requires e.RunFunctor? && Legal(c, e) && (c.q.tasks[0].StartReadTask? || c.q.tasks[0].StopReadTask?)
    requires Settled(c) && Rounds(c) && Calm(c, e)
    requires (c.ch.reading ==> c.ch.index.Added?) && (!c.Live() ==> !c.ch.writing)
    ensures Settled(Step(c, e))
  {
    AheadPops(c);
    Switched(Popped(c));
    hide Heals, StartReadInLoop, StopReadInLoop;
    assert Ahead(Step(c, e)) == Ahead(Popped(c));
    assert Rest(c, e) == Ahead(Popped(c));
    hide Ahead, Rest, Rounds;
  }

  lemma {:induction false} OwnersFunctorSettled(c: Conn, e: Event)
    requires e.RunFunctor? && Legal(c, e) && OwnersTask(c.q.tasks[0])
    requires Sound(c)
    ensures Settled(Step(c, e))
  {
    AheadPops(c);
    OwnersHead(c);
    hide Sound, Whole, Heals, Settled;
    SoundIs(c);
    OwnersTaskSettled(c, c.q.tasks[0], e.wr);
  }

  lemma OwnersHead(c: Conn)
    requires |c.q.tasks| > 0 && OwnersTask(c.q.tasks[0])
    requires Whole(c)
    ensures c.q.tasks[0].EstablishTask? ==> c.state.Connecting?
    ensures c.q.tasks[0].DestroyTask? ==> c.state.Disconnected? && !c.ch.index.New? && !c.ch.writing
    ensures c.ch.reading ==> c.ch.index.Added?
  {
    assert c.q.tasks[0] in c.q.tasks;
  }

  lemma {:induction false} OwnersTaskSettled(c: Conn, t: Task, wr: WriteResult)
    requires |c.q.tasks| > 0 && t == c.q.tasks[0] && OwnersTask(t) && Settled(c)
    requires t.EstablishTask? ==> c.state.Connecting?
    requires t.DestroyTask? ==> c.state.Disconnected? && !c.ch.index.New? && !c.ch.writing
    requires c.ch.reading ==> c.ch.index.Added?
    requires Heals(c.ch.reading, Ahead(c)) == HealsHead(c.ch.reading, t, Ahead(Popped(c)))
    ensures Settled(RunTask(Popped(c), t, wr))
  {
    hide Heals;
    assert Ahead(RunTask(Popped(c), t, wr)) == Ahead(Popped(c));
    hide Ahead;
  }

  lemma {:induction false} FunctorSettled(c: Conn, e: Event)
    requires Sound(c) && e.RunFunctor? && Legal(c, e) && Calm(c, e)
    ensures Settled(Step(c, e))
  {
    hide Step, Sound, Settled, Calm;
    if c.q.tasks[0].StartReadTask? || c.q.tasks[0].StopReadTask? {
      SwitchFunctor(c, e);
    } else if OwnersTask(c.q.tasks[0]) {
      OwnersFunctorSettled(c, e);
    } else if c.q.tasks[0].ForceCloseTask? && c.Live() {
      ForcedSettled(c, e);
    } else {
      PlainFunctor(c, e);
    }
  }

  lemma {:induction false} ForcedSettled(c: Conn, e: Event)
    requires e.RunFunctor? && Legal(c, e) && c.Live() && c.q.tasks[0].ForceCloseTask?
    requires Sound(c) && Calm(c, e)
    ensures Settled(Step(c, e))
  {
    SoundIs(c);
    SwitchesAreWatched(c);
    hide Sound, Whole, Settled, Rounds, Heals;
    ForcedTaskSettled(c, e);
  }

  lemma {:induction false} ForcedTaskSettled(c: Conn, e: Event)
    requires e.RunFunctor? && Legal(c, e) && c.Live() && c.q.tasks[0].ForceCloseTask?
    requires Settled(c) && Rounds(c) && Calm(c, e)
    ensures Settled(Step(c, e))
  {
    AheadPops(c);
    var d := Popped(c);
    assert Ahead(d) + [] == Ahead(d) && Rounds(d);
    assert Rest(c, e) == Ahead(d) && |c.q.due| == 0;
    hide Heals, HandleClose, Ahead, Rest, Rounds;
    CloseSettled(d, Ahead(d));
    hide Settled;
  }

  lemma OneCloser(flags: set<P.Flag>)
    requires P.RdHup !in flags && !Urgent(flags)
    ensures forall k :: 1 <= k < |Handlers(flags)| ==> Handlers(flags)[k].DoWrite?
  {
    HandlersAre(flags);
    hide Handlers;
  }

  lemma {:induction false} RoundSettled(c: Conn, e: Event)
    requires Sound(c) && Legal(c, e) && Calm(c, e) && IsRound(e)
    ensures Settled(Step(c, e))
  {
    var d := Step(c, e);
    match e {
      case Poll(report) => assert Ahead(c) == [];
      case TakeEvent =>
        OneCloser(c.q.phase.report.value);
        assert Ahead(d) == Ahead(c);
      case Swap => assert Ahead(d) == Ahead(c);
      case EndRound => assert Ahead(c) == [] && Ahead(d) == [];
      case QueueEstablish => OwnerSettled(c, EstablishTask, d);
      case QueueDestroy => OwnerSettled(c, DestroyTask, d);
    }
  }

  lemma {:induction false} OwnerSettled(c: Conn, t: Task, d: Conn)
    requires Rounds(c) && Settled(c) && d == Queue(c, t).(q := Queue(c, t).q.(owner := d.q.owner))
    ensures Settled(d)
  {
    QueueSettled(c, t);
    assert Ahead(d) == Ahead(Queue(c, t));
    hide Heals;
  }

  lemma {:induction false} OtherSettled(c: Conn, e: Event)
    requires Sound(c) && Legal(c, e) && (e.SendLocal? || e.Establish?)
    ensures Settled(Step(c, e))
  {
    if e.SendLocal? {
      if c.state.Connected? && |e.msg| > 0 { SendSettled(c, e.msg, e.wr, false); }
    } else {
      assert Ahead(Step(c, e)) == Ahead(c);
    }
  }

  lemma SwitchesAreWatched(c: Conn)
    requires Sound(c)
    ensures (c.ch.reading ==> c.ch.index.Added?) && (!c.Live() ==> !c.ch.writing) && Rounds(c) && !c.aborted
  {
    hide Heals, Ahead;
  }

  lemma SoundIs(c: Conn)
    ensures Sound(c) <==> Whole(c) && Settled(c)
  {
  }

  lemma {:induction false} StepSound(c: Conn, e: Event)
    requires Sound(c) && Legal(c, e) && Calm(c, e)
    ensures Sound(Step(c, e)) && !Step(c, e).aborted
  {
    hide Step, Whole, Sound, Calm, Legal;
    SoundIs(c);
    if IsCall(e) {
      SwitchesAreWatched(c);
      CallSettled(c, e);
      StepCalls(c, e);
    } else if e.Dispatch? {
      DispatchSettled(c, e);
    } else if e.RunFunctor? {
      FunctorSettled(c, e);
    } else if IsRound(e) {
      RoundSettled(c, e);
    } else {
      OtherSettled(c, e);
    }
    StepWhole(c, e);
    SoundIs(Step(c, e));
  }

  /** As long as every step is calm no assertion of a connection fails, in any run: the
    * handlers that close meet a live connection, and connectDestroyed an empty mask. */
  lemma {:induction false} NeverAborts(c: Conn, evs: seq<Event>)
    requires Sound(c) && CalmRun(c, evs)
    ensures Sound(Run(c, evs)) && !Run(c, evs).aborted
    decreases evs
  {
    assert !c.aborted;
    hide Step, Whole, Calm, Legal, Sound;
    if evs != [] {
      StepSound(c, evs[0]);
      NeverAborts(Step(c, evs[0]), evs[1..]);
    }
  }

  // -------------------------------------------------- each condition is needed

  /** Nothing but the loop and the kernel moves, and no sound connection takes a step that
    * is not calm: whatever then fails was already under way. */
  ghost predicate Blameless(c: Conn, evs: seq<Event>)
    decreases evs
  {
    evs == [] ||
    (FromLoop(evs[0]) && Legal(c, evs[0]) && (Sound(c) ==> Calm(c, evs[0])) && Blameless(Step(c, evs[0]), evs[1..]))
  }

  ghost predicate Doomed(c: Conn) { exists evs :: Blameless(c, evs) && Run(c, evs).aborted }

  lemma DoomedCons(c: Conn, e: Event)
    requires FromLoop(e) && Legal(c, e) && !Sound(c) && Doomed(Step(c, e))
    ensures Doomed(c)
  {
    hide Step, Legal, Calm, Sound;
    var evs :| Blameless(Step(c, e), evs) && Run(Step(c, e), evs).aborted;
    assert ([e] + evs)[1..] == evs;
    assert Blameless(c, [e] + evs) && Run(c, [e] + evs).aborted;
  }

  lemma AbortedIsDoomed(c: Conn)
    requires c.aborted
    ensures Doomed(c)
  {
    assert Blameless(c, []) && Run(c, []).aborted;
  }

  lemma {:induction false} BlamelessIsCalm(c: Conn, evs: seq<Event>)
    requires Sound(c) && Blameless(c, evs)
    ensures CalmRun(c, evs)
    decreases evs
  {
    hide Step, Whole, Calm, Legal, Sound;
    if evs != [] {
      StepSound(c, evs[0]);
      BlamelessIsCalm(Step(c, evs[0]), evs[1..]);
    }
  }

  /** A handler due, and a kernel that takes nothing. */
  function Failing(rr: ReadResult): Event { Dispatch(rr, WriteFailed(BrokenPipe)) }

  /** Not up, watched, and not healed before the next poll. */
  ghost predicate Lost(c: Conn) { Whole(c) && Adrift(c) }

  ghost predicate Adrift(c: Conn) {
    && !c.aborted && c.ch.readFlag && !c.Live() && c.ch.index.Added? && !c.ch.writing
    && !Heals(c.ch.reading, Ahead(c))
    && (forall h :: h in c.q.due ==> h.DoWrite?)
    && !(c.q.phase.Handling? && c.q.phase.report.Some?)
  }

  lemma LostIsUnsound(c: Conn)
    requires Lost(c)
    ensures !Sound(c) && !c.aborted
  {
  }

  lemma {:induction false} LostDispatch(c: Conn)
    requires Lost(c) && |c.q.due| > 0
    ensures Legal(c, Failing(ReadFailed)) && Step(c, Failing(ReadFailed)) == Undue(c) && Lost(Undue(c))
  {
    hide Whole, Heals;
    assert c.q.due[0] in c.q.due && forall h :: h in c.q.due[1..] ==> h in c.q.due;
    assert Ahead(Undue(c)) == Ahead(c);
    assert Legal(c, Failing(ReadFailed)) && Step(c, Failing(ReadFailed)) == Undue(c);
    hide Step, Legal;
    StepWhole(c, Failing(ReadFailed));
  }

  lemma {:induction false} LostSwap(c: Conn)
    requires Lost(c) && c.q.phase.Handling? && |c.q.due| == 0
    ensures Legal(c, Swap) && Lost(Step(c, Swap)) && Step(c, Swap).q.phase == Functors(|c.q.tasks|)
  {
    hide Whole, Heals;
    var d := Step(c, Swap);
    assert d == c.(q := c.q.(phase := Functors(|c.q.tasks|))) && Legal(c, Swap);
    assert Ahead(d) == Ahead(c);
    hide Step, Legal, Ahead;
    StepWhole(c, Swap);
  }

  lemma {:induction false} LostEnd(c: Conn)
    requires Lost(c) && c.q.phase == Functors(0)
    ensures Legal(c, EndRound) && Lost(Step(c, EndRound)) && Step(c, EndRound).q.phase == AtPoll
  {
    hide Whole, Heals;
    var d := Step(c, EndRound);
    assert d == c.(q := c.q.(phase := AtPoll)) && Legal(c, EndRound);
    assert Ahead(d) == Ahead(c);
    hide Step, Legal, Ahead;
    StepWhole(c, EndRound);
  }

  /** A functor of the batch: none of those that heal, so the connection stays lost, or
    * connectDestroyed meets a mask that is not empty. */
  lemma {:induction false} LostFunctor(c: Conn)
    requires Lost(c) && c.q.phase.Functors? && c.q.phase.left > 0
    ensures var e := RunFunctor(WriteFailed(BrokenPipe)); var d := Step(c, e);
      && Legal(c, e) && (d.aborted || (Lost(d) && d.q.phase == Functors(c.q.phase.left - 1)))
  {
    var e := RunFunctor(WriteFailed(BrokenPipe));
    assert |c.q.tasks| > 0 && Legal(c, e);
    StepWhole(c, e);
    AheadPops(c);
    if c.state.Connecting? { NoSendYet(c); }
    var t, d := c.q.tasks[0], Step(c, e);
    assert t in c.q.tasks;
    hide Inv, Owned, Heals, SendInLoop;
    if t.SendTask? {
      DeadSend(c, t.msg);
    } else {
      LostOther(c);
    }
  }

  /** The other functors, on a connection that is not up. */
  lemma {:induction false} LostOther(c: Conn)
    requires c.q.phase.Functors? && c.q.phase.left > 0 && |c.q.tasks| > 0 && !c.q.tasks[0].SendTask?
    requires Whole(c) && Lost(c)
    ensures var d := Step(c, RunFunctor(WriteFailed(BrokenPipe)));
      d.aborted || (Whole(d) ==> Lost(d) && d.q.phase == Functors(c.q.phase.left - 1))
  {
    AheadPops(c);
    Switched(Popped(c));
    assert c.q.tasks[0] in c.q.tasks;
    hide Inv, Owned, Heals, StartReadInLoop, StopReadInLoop;
    var d := Step(c, RunFunctor(WriteFailed(BrokenPipe)));
    match c.q.tasks[0] {
      case StartReadTask => assert Ahead(d) == Ahead(Popped(c));
      case ShutdownTask => assert Ahead(d) == Ahead(Popped(c));
      case DestroyTask =>
      case _ =>
    }
  }

  lemma DeadSend(c: Conn, m: seq<Byte>)
    requires !c.aborted && |c.q.tasks| > 0 && c.q.tasks[0] == SendTask(m) && c.state.Disconnected?
    ensures var d := Step(c, RunFunctor(WriteFailed(BrokenPipe)));
      d.q == Popped(c).q && d.ch == c.ch && d.state == c.state && !d.aborted && Ahead(d) == Ahead(Popped(c))
  {
  }

  /** At the poll the hang-up is reported, and handleClose meets a connection that is not up. */
  lemma {:induction false} LostPoll(c: Conn)
    requires Lost(c) && c.q.phase.AtPoll?
    ensures Doomed(c)
  {
    hide Inv, Owned, Heals;
    var p := Poll(Some({P.Hup}));
    var d := Step(c, p);
    assert Legal(c, p) && d == c.(q := c.q.(phase := Handling(Some({P.Hup}))));
    var x := Step(d, TakeEvent);
    assert Handlers({P.Hup}) == [DoClose];
    assert x == d.(q := d.q.(phase := Handling(None), due := [DoClose]));
    AbortedIsDoomed(Step(x, Failing(ReadFailed)));
    DoomedCons(x, Failing(ReadFailed));
    DoomedCons(d, TakeEvent);
    LostIsUnsound(c);
    DoomedCons(c, p);
  }

  /** A connection that is not up, but watched and not healed in time, fails at the latest
    * at the next hang-up. */
  lemma {:induction false} WatchedIsDoomed(c: Conn)
    requires Lost(c)
    ensures Doomed(c)
    decreases match c.q.phase { case Handling(_) => 2 case Functors(_) => 1 case AtPoll => 0 },
              match c.q.phase { case Functors(left) => left case _ => |c.q.due| }
  {
    LostIsUnsound(c);
    assert |c.q.due| > 0 ==> c.q.phase == Handling(None);
    hide Lost, Sound, Step, Legal;
    if c.q.phase.AtPoll? {
      LostPoll(c);
    } else if |c.q.due| > 0 {
      LostDispatch(c);
      WatchedIsDoomed(Undue(c));
      DoomedCons(c, Failing(ReadFailed));
    } else if c.q.phase.Handling? {
      LostSwap(c);
      WatchedIsDoomed(Step(c, Swap));
      DoomedCons(c, Swap);
    } else if c.q.phase.left == 0 {
      LostEnd(c);
      WatchedIsDoomed(Step(c, EndRound));
      DoomedCons(c, EndRound);
    } else {
      var e := RunFunctor(WriteFailed(BrokenPipe));
      LostFunctor(c);
      if Step(c, e).aborted { AbortedIsDoomed(Step(c, e)); } else { WatchedIsDoomed(Step(c, e)); }
      DoomedCons(c, e);
    }
  }

  // ---------------------------------------------- what the other steps leave

  lemma {:induction false} LocalSwitchLoses(c: Conn, e: Event)
    requires Sound(c) && Legal(c, e) && !Calm(c, e) && (e.StartReadLocal? || e.StopReadLocal?)
    ensures Lost(Step(c, e))
  {
    assert !c.Live();
    DeadIsQuiet(c);
    SoundIs(c);
    hide Sound, Whole, Calm, Step, Legal, Adrift, Settled;
    LocalSwitchDrifts(c, e);
    StepWhole(c, e);
    DriftIsSound(Step(c, e));
  }

  lemma DriftIsSound(c: Conn)
    requires Adrift(c)
    ensures !c.aborted
  {
  }

  lemma {:induction false} LocalSwitchDrifts(c: Conn, e: Event)
    requires Settled(c) && !c.Live() && !Calm(c, e) && (e.StartReadLocal? || e.StopReadLocal?)
    requires !c.ch.writing && (c.ch.reading ==> c.ch.index.Added?)
    requires (forall h :: h in c.q.due ==> h.DoWrite?) && !(c.q.phase.Handling? && c.q.phase.report.Some?)
    ensures Adrift(Step(c, e))
  {
    Switched(c);
    hide Heals;
    assert Rest(c, e) == Ahead(c);
    var d := Step(c, e);
    assert d == if e.StartReadLocal? then StartReadInLoop(c) else StopReadInLoop(c);
    hide StartReadInLoop, StopReadInLoop, Step, Rest;
    assert Ahead(d) == Ahead(c);
    hide Ahead;
  }

  /** Nothing is to be written, and nothing but writes is due, on a connection not up. */
  lemma DeadIsQuiet(c: Conn)
    requires Sound(c) && !c.Live()
    ensures !c.ch.writing && (c.ch.reading ==> c.ch.index.Added?)
    ensures (forall h :: h in c.q.due ==> h.DoWrite?) && !(c.q.phase.Handling? && c.q.phase.report.Some?)
  {
    hide Heals, Ahead;
  }

  lemma {:induction false} FunctorSwitchLoses(c: Conn, e: Event)
    requires e.RunFunctor? && Legal(c, e) && !c.q.tasks[0].ForceCloseTask?
    requires Sound(c) && !Calm(c, e)
    ensures Lost(Step(c, e))
  {
    StepWhole(c, e);
    AheadPops(c);
    Switched(Popped(c));
    DeadIsQuiet(c);
    assert |c.q.due| == 0;
    hide Inv, Owned, Heals, StartReadInLoop, StopReadInLoop;
    assert Ahead(Step(c, e)) == Ahead(Popped(c)) && Rest(c, e) == Ahead(Popped(c));
    hide Ahead, Rest, Rounds;
  }

  lemma {:induction false} CloseLoses(c: Conn, e: Event)
    requires Sound(c) && Legal(c, e) && TakesDown(c, e) && !Calm(c, e)
    ensures Lost(Step(c, e))
  {
    CloseRest(c, e);
    hide Sound, Whole, Calm, Step, Legal, Adrift, Rest, Heals;
    SoundIs(c);
    StepWhole(c, e);
    DriftIsSound(Step(c, e));
  }

  /** A close from a sound state, in the part of it that matters here. */
  lemma {:induction false} CloseRest(c: Conn, e: Event)
    requires Sound(c) && Legal(c, e) && TakesDown(c, e) && !Calm(c, e)
    ensures Adrift(Step(c, e))
  {
    assert Rounds(c) && c.ch.readFlag && !c.aborted && HandlersOk(c);
    assert !c.ch.index.Added? && !Heals(false, Rest(c, e));
    hide Whole, Sound, Heals, Calm;
    if e.Dispatch? {
      CloseDrifts(c, e);
    } else {
      ForceDrifts(c, e);
    }
  }

  lemma {:induction false} CloseDrifts(c: Conn, e: Event)
    requires Rounds(c) && Legal(c, e) && c.ch.readFlag && !c.aborted && HandlersOk(c)
    requires e.Dispatch? && TakesDown(c, e) && !c.ch.index.Added? && !Heals(false, Rest(c, e))
    ensures Adrift(Step(c, e))
  {
    hide Heals;
    var d := Step(c, e);
    assert forall k :: 0 <= k < |c.q.due[1..]| ==> c.q.due[1..][k] == c.q.due[k + 1];
    assert d == HandleClose(Undue(c));
    assert Ahead(d) == Rest(c, e);
    hide Ahead, Rest, Step;
  }

  lemma {:induction false} ForceDrifts(c: Conn, e: Event)
    requires Rounds(c) && Legal(c, e) && c.ch.readFlag && !c.aborted
    requires e.RunFunctor? && TakesDown(c, e) && !c.ch.index.Added? && !Heals(false, Rest(c, e))
    ensures Adrift(Step(c, e))
  {
    AheadPops(c);
    hide Heals;
    var d := Step(c, e);
    assert d == HandleClose(Popped(c)) && d.q.phase == Functors(c.q.phase.left - 1);
    if c.cfg.ownerHere {
      assert (c.q.tasks[1..] + [DestroyTask])[..c.q.phase.left - 1] == c.q.tasks[1..][..c.q.phase.left - 1];
    }
    assert Ahead(d) == Rest(c, e);
    hide Ahead, Rest, Step;
  }

  lemma {:induction false} UrgentDooms(c: Conn, flags: set<P.Flag>)
    requires Sound(c) && Legal(c, Poll(Some(flags))) && Urgent(flags)
    ensures Doomed(Step(c, Poll(Some(flags))))
  {
    WatchedIsLive(c);
    HandlersAre(flags);
    var writes := if P.Out in flags then [DoWrite] else [];
    var d := Step(c, Poll(Some(flags)));
    assert d == c.(q := c.q.(phase := Handling(Some(flags)))) && !d.aborted && d.q.due == [];
    hide Whole, Heals, Ahead, Handlers;
    UrgentEventDooms(d, flags, writes);
  }

  lemma WatchedIsLive(c: Conn)
    requires Sound(c) && c.q.phase.AtPoll? && c.ch.index.Added?
    ensures c.Live() && c.q.due == []
  {
    assert Ahead(c) == [] && !Heals(c.ch.reading, []);
  }

  lemma {:induction false} UrgentEventDooms(d: Conn, flags: set<P.Flag>, writes: seq<Handler>)
    requires d.Live() && !d.aborted && d.q.phase == Handling(Some(flags)) && d.q.due == [] && Urgent(flags)
    requires Handlers(flags) == [DoClose, DoRead] + writes
    ensures Doomed(d)
  {
    hide Whole, Heals, Ahead, Handlers;
    var x := Step(d, TakeEvent);
    assert x == d.(q := d.q.(phase := Handling(None), due := [DoClose, DoRead] + writes));
    assert x.q.due[1] == DoRead;
    TwiceDooms(x);
    DoomedCons(d, TakeEvent);
  }

  /** A close due and then a read: the read finds the end of the stream. */
  lemma {:induction false} TwiceDooms(x: Conn)
    requires x.Live() && !x.aborted && |x.q.due| >= 2 && x.q.due[0] == DoClose && x.q.due[1] == DoRead
    ensures Doomed(x)
  {
    hide Whole, Heals, Ahead;
    var y := Step(x, Failing(ReadFailed));
    assert y == HandleClose(Undue(x)) && |y.q.due| > 0 && y.q.due[0] == DoRead && !y.Live() && !y.aborted;
    AbortedIsDoomed(Step(y, Failing(Eof)));
    DoomedCons(y, Failing(Eof));
    DoomedCons(x, Failing(ReadFailed));
  }

  lemma UncalmDooms(c: Conn, e: Event)
    requires Sound(c) && Legal(c, e) && !Calm(c, e)
    ensures Doomed(Step(c, e))
  {
    hide Sound, Step, Doomed, Lost, Heals, Rest;
    if TakesDown(c, e) {
      CloseLoses(c, e);
      WatchedIsDoomed(Step(c, e));
    } else if e.StartReadLocal? || e.StopReadLocal? {
      LocalSwitchLoses(c, e);
      WatchedIsDoomed(Step(c, e));
    } else if e.RunFunctor? {
      FunctorSwitchLoses(c, e);
      WatchedIsDoomed(Step(c, e));
    } else {
      UrgentDooms(c, e.report.value);
    }
  }

  /** The conditions are exact, in the rounds of the connection's own loop and with its
    * owner's functors in the same queue: a step is calm if and only if nothing that the
    * loop and the kernel then do can fail an assertion. An owner on another loop may be as
    * slow as it likes to queue connectDestroyed. */
  lemma CalmIff(c: Conn, e: Event)
    requires Sound(c) && Legal(c, e)
    ensures Calm(c, e) <==> !Doomed(Step(c, e))
  {
    hide Step, Sound, Calm, Legal;
    if Calm(c, e) {
      StepSound(c, e);
      SoundIsSafe(Step(c, e));
    } else {
      UncalmDooms(c, e);
    }
  }

  lemma SoundIsSafe(c: Conn)
    requires Sound(c)
    ensures !Doomed(c)
  {
    hide Step, Sound, Calm, Legal;
    forall evs | Blameless(c, evs) ensures !Run(c, evs).aborted {
      BlamelessIsCalm(c, evs);
      NeverAborts(c, evs);
    }
  }

  /** A close dooms the connection if and only if it was not watched before, reading stopped
    * and nothing left to write, and nothing ahead in its loop's queue heals it. */
  lemma CloseExposesIff(c: Conn, e: Event)
    requires Sound(c) && Legal(c, e) && TakesDown(c, e)
    ensures Doomed(Step(c, e)) <==> !c.ch.index.Added? && !Heals(false, Rest(c, e))
  {
    CalmIff(c, e);
    hide Doomed, Step, Sound, Heals, Rest;
  }

  /** connectDestroyed, as the server's destructor runs it on a connection in any state,
    * fails if and only if the connection is not connected and still asks for events or is
    * unknown to the poller. */
  lemma DestroyAbortsIff(c: Conn)
    requires !c.aborted
    ensures ConnectDestroyed(c).aborted <==> !c.state.Connected? && (c.ch.reading || c.ch.writing || c.ch.index.New?)
  {
  }

  /** One event on a live connection fails an assertion if and only if it closes twice:
    * hang-up without ordinary data, urgent data or a peer's half-close beside it, and a
    * read that finds the end of the stream. */
  lemma DeliverAbortsIff(c: Conn, flags: set<P.Flag>, rr: ReadResult, wr: WriteResult)
    requires c.Live() && !c.aborted
    ensures Deliver(c, Handlers(flags), rr, wr).aborted <==>
              P.Hup in flags && P.In !in flags && (P.Pri in flags || P.RdHup in flags) && rr.Eof?
  {
    DeliverInOrder(c, flags, rr, wr);
    hide Handlers, Deliver;
    var d := if Closes(flags) then HandleClose(c) else c;
    var x := if !d.aborted && Reads(flags) then HandleRead(d, rr) else d;
    WriteNeverAborts(x, wr);
  }

  lemma WriteNeverAborts(c: Conn, wr: WriteResult)
    ensures HandleWrite(c, wr).aborted == c.aborted
  {
    if !c.ch.writing || !wr.Wrote? || wr.n == 0 {
    } else if wr.n < |c.tx.out| {
    } else {
    }
  }

  /** A run that gets there: reading is stopped, the connection is force-closed, and the
    * peer hangs up before its owner, on another loop, has connectDestroyed queued. */
  lemma StopReadExposes() returns (evs: seq<Event>)
    ensures LegalRun(Fresh(Config(DEFAULT_MARK, false, false, false)), evs)
    ensures Run(Fresh(Config(DEFAULT_MARK, false, false, false)), evs).aborted
  {
    var c0 := Fresh(Config(DEFAULT_MARK, false, false, false));
    var run := RunFunctor(WriteFailed(WouldBlock));
    StoppedIs();
    StoppedIsDoomed();
    var rest :| Blameless(Step(Stopped(), run), rest) && Run(Step(Stopped(), run), rest).aborted;
    BlamelessIsLegal(Step(Stopped(), run), rest);
    RunCons(Stopped(), run, rest);
    RunFour(c0, Establish, StopReadLocal, ForceClose, Swap, [run] + rest);
    evs := [Establish, StopReadLocal, ForceClose, Swap] + ([run] + rest);
    hide Step, Blameless;
  }

  lemma RunFour(c: Conn, w: Event, x: Event, y: Event, z: Event, rest: seq<Event>)
    ensures var d := Step(Step(Step(Step(c, w), x), y), z);
      && Run(c, [w, x, y, z] + rest) == Run(d, rest)
      && (LegalRun(c, [w, x, y, z]) && LegalRun(d, rest) ==> LegalRun(c, [w, x, y, z] + rest))
  {
    hide Step, Legal, Run, LegalRun;
    RunTwo(c, w, x, [y, z]);
    RunTwo(Step(Step(c, w), x), y, z, []);
    RunTwo(c, w, x, [y, z] + rest);
    RunTwo(Step(Step(c, w), x), y, z, rest);
    assert [w, x] + [y, z] == [w, x, y, z] && [y, z] + [] == [y, z];
    assert [w, x] + ([y, z] + rest) == [w, x, y, z] + rest;
  }

  lemma RunTwo(c: Conn, w: Event, x: Event, rest: seq<Event>)
    ensures Run(c, [w, x] + rest) == Run(Step(Step(c, w), x), rest)
    ensures LegalRun(c, [w, x] + rest) <==> Legal(c, w) && Legal(Step(c, w), x) && LegalRun(Step(Step(c, w), x), rest)
  {
    hide Step, Legal, Run, LegalRun;
    assert [w, x] + rest == [w] + ([x] + rest);
    RunCons(c, w, [x] + rest);
    RunCons(Step(c, w), x, rest);
  }

  /** Reading stopped, a forced close about to be run. */
  function Stopped(): Conn {
    Step(Step(Step(Step(Fresh(Config(DEFAULT_MARK, false, false, false)), Establish), StopReadLocal), ForceClose), Swap)
  }

  lemma StoppedIs()
    ensures Stopped() == Conn(Disconnecting, Chan(false, false, P.Deleted, true), Output([], [], false, []),
                              Input([], [], []), Loop([ForceCloseTask], [], [], Functors(1), Begun),
                              Config(DEFAULT_MARK, false, false, false), [Up], false)
    ensures LegalRun(Fresh(Config(DEFAULT_MARK, false, false, false)), [Establish, StopReadLocal, ForceClose, Swap])
  {
    var c0 := Fresh(Config(DEFAULT_MARK, false, false, false));
    var c1 := Step(c0, Establish);
    var c2 := Step(c1, StopReadLocal);
    var c3 := Step(c2, ForceClose);
    assert c3.q.tasks == [ForceCloseTask] && c1.notes == [Up];
    assert [Establish, StopReadLocal, ForceClose, Swap]
        == [Establish] + ([StopReadLocal] + ([ForceClose] + ([Swap] + [])));
    RunCons(c3, Swap, []);
    RunCons(c2, ForceClose, [Swap] + []);
    RunCons(c1, StopReadLocal, [ForceClose] + ([Swap] + []));
    RunCons(c0, Establish, [StopReadLocal] + ([ForceClose] + ([Swap] + [])));
  }

  lemma StoppedIsSound()
    ensures Sound(Stopped())
  {
    StoppedIs();
    hide Stopped, Step;
    assert Accepted([]) == [] && Arrived([]) == [];
    assert Waiting([ForceCloseTask]) == Waiting([]);
  }

  lemma StoppedIsDoomed()
    ensures var run := RunFunctor(WriteFailed(WouldBlock)); Legal(Stopped(), run) && Doomed(Step(Stopped(), run))
  {
    StoppedIs();
    StoppedIsSound();
    hide Stopped, Sound, Whole, Step, Doomed;
    var run := RunFunctor(WriteFailed(WouldBlock));
    assert Ahead(Stopped()) == [ForceCloseTask] && Rest(Stopped(), run) == [] && !Heals(false, []);
    CloseExposesIff(Stopped(), run);
  }

  lemma {:induction false} BlamelessIsLegal(c: Conn, evs: seq<Event>)
    requires Blameless(c, evs)
    ensures LegalRun(c, evs)
    decreases evs
  {
    hide Step, Sound, Legal, Calm;
    if evs != [] { BlamelessIsLegal(Step(c, evs[0]), evs[1..]); }
  }
}
