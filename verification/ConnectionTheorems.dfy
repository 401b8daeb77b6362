/** What users of a connection may rely on, and exactly where they may not. */
module ConnectionTheorems {
  import opened Prelude
  import opened Connections
  import opened ConnectionProofs
  import P = Pollers

  /** The output stream, in every run from construction: the wire followed by the output
    * buffer is the concatenation of the messages kept, in the order sent, with no gap,
    * repeat or change of order; write interest is on exactly while bytes wait; and a
    * half-close on a connection still up finds every kept byte on the wire. */
  lemma StreamIntegrity(cfg: Config, evs: seq<Event>)
    requires LegalRun(Fresh(cfg), evs)
    ensures var c := Run(Fresh(cfg), evs);
            !c.aborted ==>
              && c.tx.wire + c.tx.out == Accepted(c.tx.sent)
              && Arrived(c.tx.sent) + Waiting(c.q.tasks) == c.q.offered
              && c.rx.consumed + c.rx.input == c.rx.received
              && (!c.state.Disconnected? ==> (c.ch.writing <==> c.tx.out != []))
              && (c.tx.fin && !c.state.Disconnected? ==> c.tx.wire == Accepted(c.tx.sent))
              && multiset(c.notes)[Down] == multiset(c.notes)[CloseNotified] <= multiset(c.notes)[Up] <= 1
  {
    FreshInv(cfg);
    RunInv(Fresh(cfg), evs);
    var c := Run(Fresh(cfg), evs);
    assert |c.tx.out| == 0 <==> c.tx.out == [];
    assert c.tx.out == [] ==> c.tx.wire + c.tx.out == c.tx.wire;
  }

  // ----------------------------------------------------- after half-close

  lemma {:induction false} FinIsQuiet(c: Conn, e: Event)
    requires Inv(c) && c.tx.fin && Legal(c, e)
    ensures !c.state.Connected? && !c.state.Connecting? && !c.ch.writing
    ensures (e.Dispatch? ==> |c.q.due| > 0) && (e.RunFunctor? ==> |c.q.tasks| > 0)
  {
  }

  lemma {:induction false} StepAfterFin(c: Conn, e: Event)
    requires Inv(c) && c.tx.fin && Legal(c, e)
    ensures Step(c, e).tx.fin && Step(c, e).tx.wire == c.tx.wire && Accepted(Step(c, e).tx.sent) == Accepted(c.tx.sent)
  {
    hide SendInLoop, Inv, Legal;
    FinIsQuiet(c, e);
    if c.aborted {
    } else if e.RunFunctor? && c.q.tasks[0].SendTask? {
      FunctorAfterFin(c, e.wr);
    } else if e.RunFunctor? {
      match c.q.tasks[0] {
        case ForceCloseTask => if c.Live() { }
        case EstablishTask => if c.state.Connecting? { }
        case DestroyTask => RemovedSilent(Popped(c));
        case _ =>
      }
    } else if e.Dispatch? {
      match c.q.due[0] {
        case DoClose => if c.Live() { }
        case DoRead => if e.rr.Eof? && c.Live() { }
        case DoWrite =>
      }
    } else {
      match e { case _ => }
    }
  }

  lemma {:induction false} FunctorAfterFin(c: Conn, wr: WriteResult)
    requires Inv(c) && c.tx.fin && Legal(c, RunFunctor(wr)) && c.q.tasks[0].SendTask? && !c.aborted
    ensures var d := Step(c, RunFunctor(wr));
            && d.tx.fin && d.tx.wire == c.tx.wire && d.state == c.state
            && d.tx.sent == c.tx.sent
                            + [Sent(c.q.tasks[0].msg, if c.state.Disconnected? then GaveUp else Faulted, true)]
            && Accepted(d.tx.sent) == Accepted(c.tx.sent)
  {
    var m := c.q.tasks[0].msg;
    Snoc(c.tx.sent, Sent(m, GaveUp, true));
    Snoc(c.tx.sent, Sent(m, Faulted, true));
    if c.state.Disconnected? {
    } else {
      assert c.CanWriteDirectly() && IsFault(wr);
    }
  }

  /** Once the write half is shut down nothing more reaches the wire, and every message
    * that still gets to sendInLoop is dropped whole. */
  lemma {:induction false} NothingAfterFin(c: Conn, evs: seq<Event>)
    requires Inv(c) && c.tx.fin && LegalRun(c, evs)
    ensures Run(c, evs).tx.wire == c.tx.wire && Accepted(Run(c, evs).tx.sent) == Accepted(c.tx.sent)
    decreases evs
  {
    if evs != [] {
      StepAfterFin(c, evs[0]);
      StepInv(c, evs[0]);
      if Step(c, evs[0]).aborted {
        AbortedStays(Step(c, evs[0]), evs[1..]);
      } else {
        NothingAfterFin(Step(c, evs[0]), evs[1..]);
      }
    }
  }

  lemma RunCons(c: Conn, e: Event, evs: seq<Event>)
    ensures Run(c, [e] + evs) == Run(Step(c, e), evs)
    ensures LegalRun(c, [e] + evs) <==> Legal(c, e) && LegalRun(Step(c, e), evs)
  {
    assert ([e] + evs)[1..] == evs;
  }

  lemma AbortedStep(c: Conn, e: Event)
    requires c.aborted
    ensures Step(c, e) == c
  {
  }

  lemma {:induction false} AbortedStays(c: Conn, evs: seq<Event>)
    requires c.aborted
    ensures Run(c, evs) == c
    decreases evs
  {
    if evs != [] {
      AbortedStays(c, evs[1..]);
    }
  }

  // ------------------------------------------------------------ callbacks

  /** Nothing that concerns the output side has changed. */
  ghost predicate SameOutput(c: Conn, d: Conn) {
    && d.tx.out == c.tx.out && d.tx.wire == c.tx.wire && d.tx.sent == c.tx.sent && d.notes == c.notes
    && d.cfg.mark == c.cfg.mark && d.cfg.onHigh == c.cfg.onHigh && d.cfg.onComplete == c.cfg.onComplete
  }

  lemma {:induction false} SwitchFrame(c: Conn)
    ensures SameOutput(c, StartReadInLoop(c)) && SameOutput(c, StopReadInLoop(c)) && SameOutput(c, ShutdownInLoop(c))
  {
    if !c.ch.readFlag || !c.ch.reading { }
    if c.ch.readFlag || c.ch.reading { }
    if c.ch.writing { }
  }

  /** A user's call, other than a send that is run at once, only changes state and queue. */
  lemma {:induction false} CallFrame(c: Conn, e: Event)
    requires IsCall(e)
    ensures SameOutput(c, Call(c, e))
  {
    hide StartReadInLoop, StopReadInLoop, ShutdownInLoop;
    match e {
      case StartReadLocal => SwitchFrame(c);
      case StopReadLocal => SwitchFrame(c);
      case ShutdownLocal => SwitchFrame(c.(state := Disconnecting));
      case SendRemote(m) => if c.state.Connected? && |m| > 0 { }
      case ShutdownRemote => if c.state.Connected? { }
      case ForceClose => if c.Live() { }
      case DelayForceClose => if c.Live() { }
      case Consume(len) => if 0 <= len < |c.rx.input| { }
      case StartReadRemote =>
      case StopReadRemote =>
    }
  }

  lemma StepCalls(c: Conn, e: Event)
    requires IsCall(e) && !c.aborted
    ensures Step(c, e) == Call(c, e)
  {
  }

  function Highs(notes: seq<Note>): nat {
    if notes == [] then 0
    else Highs(notes[..|notes| - 1]) + (if notes[|notes| - 1].HighWater? then 1 else 0)
  }

  lemma HighsSnoc(notes: seq<Note>, n: Note)
    ensures Highs(notes + [n]) == Highs(notes) + (if n.HighWater? then 1 else 0)
  {
    assert (notes + [n])[..|notes|] == notes;
  }

  /** The backlog goes from below the mark to the mark or above. */
  predicate Rises(c: Conn, e: Event) {
    |c.tx.out| < c.cfg.mark <= |Step(c, e).tx.out|
  }

  /** How often that happens along a run. */
  function Rising(c: Conn, evs: seq<Event>): nat
    decreases evs
  {
    if evs == [] then 0 else (if Rises(c, evs[0]) then 1 else 0) + Rising(Step(c, evs[0]), evs[1..])
  }

  lemma {:induction false} SendNotesOnly(c: Conn, m: seq<Byte>, r: WriteResult, remote: bool)
    ensures var d := SendInLoop(c, m, r, remote);
            && (d.notes == c.notes ||
                d.notes == c.notes + [HighWater(|d.tx.out|)] || d.notes == c.notes + [WriteComplete])
            && (d.notes == c.notes + [HighWater(|d.tx.out|)] <==> c.cfg.onHigh && |c.tx.out| < c.cfg.mark <= |d.tx.out|)
            && d.cfg.onHigh == c.cfg.onHigh && d.cfg.mark == c.cfg.mark
  {
    if c.state.Disconnected? {
    } else if c.CanWriteDirectly() && IsFault(r) {
    } else {
      assert c.notes + [] == c.notes;
      var d := SendInLoop(c, m, r, remote);
      assert |d.tx.out| == |c.tx.out| + |m| - Taken(c, |m|, r);
      assert (c.notes + [WriteComplete])[|c.notes|] == WriteComplete;
      if TakenWhole(c, |m|, r) { } else { }
    }
  }

  /** No high-water callback, and the backlog no longer than before. */
  ghost predicate Calmer(c: Conn, d: Conn) {
    && Highs(d.notes) == Highs(c.notes) && |d.tx.out| <= |c.tx.out|
    && d.cfg.onHigh == c.cfg.onHigh && d.cfg.mark == c.cfg.mark
  }

  lemma {:induction false} CloseCalmer(c: Conn)
    ensures Calmer(c, HandleClose(c))
  {
    HighsSnoc(c.notes, Down);
    HighsSnoc(c.notes + [Down], CloseNotified);
    assert c.notes + [Down] + [CloseNotified] == c.notes + [Down, CloseNotified];
    if c.Live() {
    }
  }

  lemma {:induction false} WriteCalmer(c: Conn, r: WriteResult)
    ensures Calmer(c, HandleWrite(c, r))
  {
    HighsSnoc(c.notes, WriteComplete);
    assert c.notes + [] == c.notes;
    if !c.ch.writing || !r.Wrote? || r.n == 0 {
    } else if r.n < |c.tx.out| {
    } else {
    }
  }

  lemma {:induction false} EstablishCalmer(c: Conn)
    ensures Calmer(c, ConnectEstablished(c))
  {
    HighsSnoc(c.notes, Up);
    if c.state.Connecting? { }
  }

  lemma {:induction false} RemovedCalmer(c: Conn)
    ensures Calmer(c, Removed(c))
  {
    hide Highs;
    if c.ch.reading || c.ch.writing || c.ch.index.New? {
    }
  }

  lemma {:induction false} DestroyCalmer(c: Conn)
    ensures Calmer(c, ConnectDestroyed(c))
  {
    HighsSnoc(c.notes, Down);
    hide Highs, Removed;
    if c.state.Connected? {
      var d := c.(state := Disconnected, ch := DisableAll(c.ch), notes := c.notes + [Down]);
      RemovedCalmer(d);
    } else {
      RemovedCalmer(c);
    }
  }

  lemma {:induction false} HandlerCalmer(c: Conn, h: Handler, rr: ReadResult, wr: WriteResult)
    ensures Calmer(c, Handle(c, h, rr, wr))
  {
    hide HandleClose, HandleWrite;
    CloseCalmer(c);
    WriteCalmer(c, wr);
    match h {
      case DoRead => match rr { case _ => }
      case _ =>
    }
  }

  lemma {:induction false} TaskCalmer(c: Conn, t: Task, wr: WriteResult)
    requires !t.SendTask?
    ensures Calmer(c, RunTask(c, t, wr))
  {
    hide HandleClose, StartReadInLoop, StopReadInLoop, ShutdownInLoop;
    CloseCalmer(c);
    SwitchFrame(c);
    hide ConnectDestroyed, ConnectEstablished, Highs;
    match t {
      case EstablishTask => EstablishCalmer(c);
      case DestroyTask => DestroyCalmer(c);
      case _ =>
    }
  }

  /** Every step but a send. */
  lemma {:induction false} OtherCalmer(c: Conn, e: Event)
    requires !c.aborted && !e.SendLocal?
    requires e.RunFunctor? ==> |c.q.tasks| > 0 && !c.q.tasks[0].SendTask?
    ensures Calmer(c, Step(c, e))
  {
    if IsCall(e) {
      CallFrame(c, e);
      StepCalls(c, e);
    } else {
      LoopCalmer(c, e);
    }
  }

  lemma {:induction false} LoopCalmer(c: Conn, e: Event)
    requires !c.aborted && !IsCall(e) && !e.SendLocal?
    requires e.RunFunctor? ==> |c.q.tasks| > 0 && !c.q.tasks[0].SendTask?
    ensures Calmer(c, Step(c, e))
  {
    hide Highs, ConnectEstablished, ConnectDestroyed, Handle, RunTask, Handlers, Call, SendInLoop;
    match e {
      case Establish => EstablishCalmer(c.(q := c.q.(owner := Begun)));
      case Dispatch(rr, wr) => if |c.q.due| > 0 { HandlerCalmer(Undue(c), c.q.due[0], rr, wr); }
      case RunFunctor(wr) => TaskCalmer(Popped(c), c.q.tasks[0], wr);
      case _ =>
    }
  }

  lemma {:induction false} StepHighs(c: Conn, e: Event)
    requires Legal(c, e)
    ensures var d := Step(c, e);
            && d.cfg.onHigh == c.cfg.onHigh && d.cfg.mark == c.cfg.mark
            && Highs(d.notes) == Highs(c.notes) + (if c.cfg.onHigh && Rises(c, e) then 1 else 0)
  {
    if c.aborted {
      AbortedStep(c, e);
    } else if e.SendLocal? {
      SendHighs(c, c, e);
    } else if e.RunFunctor? && c.q.tasks[0].SendTask? {
      SendHighs(c, Popped(c), e);
    } else {
      hide Step;
      OtherCalmer(c, e);
    }
  }

  /** d is c with the functor being run already taken off the queue. */
  lemma {:induction false} SendHighs(c: Conn, d: Conn, e: Event)
    requires !c.aborted && Legal(c, e)
    requires (e.SendLocal? && d == c) ||
             (e.RunFunctor? && c.q.tasks[0].SendTask? && d == Popped(c))
    ensures var x := Step(c, e);
            && x.cfg.onHigh == c.cfg.onHigh && x.cfg.mark == c.cfg.mark
            && Highs(x.notes) == Highs(c.notes) + (if c.cfg.onHigh && Rises(c, e) then 1 else 0)
  {
    hide SendInLoop, Highs;
    HighsSnoc(c.notes, HighWater(|Step(c, e).tx.out|));
    HighsSnoc(c.notes, WriteComplete);
    if e.SendLocal? {
      SendNotesOnly(d, e.msg, e.wr, false);
    } else {
      SendNotesOnly(d, c.q.tasks[0].msg, e.wr, true);
    }
  }

  /** Over a whole run the high-water callback is queued exactly as often as the backlog
    * rises to the mark from below; so it falls below the mark between any two. */
  lemma {:induction false} HighWaterCountsRises(c: Conn, evs: seq<Event>)
    requires LegalRun(c, evs) && c.cfg.onHigh
    ensures Highs(Run(c, evs).notes) == Highs(c.notes) + Rising(c, evs)
    decreases evs
  {
    if evs != [] {
      StepHighs(c, evs[0]);
      HighWaterCountsRises(Step(c, evs[0]), evs[1..]);
    }
  }


  lemma {:induction false} SendComplete(c: Conn, m: seq<Byte>, r: WriteResult, remote: bool)
    requires WriteInterest(c) && c.cfg.onComplete && |m| > 0 && WriteOk(c, |m|, r)
    ensures var d := SendInLoop(c, m, r, remote);
            d.notes == c.notes + [WriteComplete] <==> |d.tx.wire| > |c.tx.wire| && |d.tx.out| == 0
  {
    if c.state.Disconnected? {
    } else if c.CanWriteDirectly() && IsFault(r) {
    } else {
      var d := SendInLoop(c, m, r, remote);
      var n := Taken(c, |m|, r);
      assert |d.tx.out| == |c.tx.out| + |m| - n && |d.tx.wire| == |c.tx.wire| + n;
      assert c.notes + [] == c.notes;
      assert (c.notes + [HighWater(|c.tx.out| + |m| - n)])[|c.notes|] != WriteComplete;
      if TakenWhole(c, |m|, r) { } else { }
    }
  }

  lemma {:induction false} DrainComplete(c: Conn, r: WriteResult)
    requires WriteInterest(c) && c.cfg.onComplete
    ensures var d := HandleWrite(c, r);
            d.notes == c.notes + [WriteComplete] <==> |d.tx.wire| > |c.tx.wire| && |d.tx.out| == 0
  {
    if !c.ch.writing || !r.Wrote? || r.n == 0 {
    } else if r.n < |c.tx.out| {
    } else {
    }
  }

  /** The wire untouched, and no write-complete callback. */
  ghost predicate Silent(c: Conn, d: Conn) {
    d.tx.wire == c.tx.wire && d.notes != c.notes + [WriteComplete]
  }

  lemma {:induction false} SilentStep(c: Conn, e: Event)
    requires !c.aborted && !e.SendLocal?
    requires e.RunFunctor? ==> |c.q.tasks| > 0 && !c.q.tasks[0].SendTask?
    requires e.Dispatch? ==> |c.q.due| > 0 && !c.q.due[0].DoWrite?
    ensures Silent(c, Step(c, e))
  {
    hide SendInLoop, HandleWrite, Handlers, ConnectDestroyed, StartReadInLoop, StopReadInLoop, ShutdownInLoop, Call;
    assert (c.notes + [Up])[|c.notes|] == Up && (c.notes + [Down])[|c.notes|] == Down;
    assert (c.notes + [Message])[|c.notes|] == Message;
    assert (c.notes + [Down, CloseNotified])[|c.notes|] == Down;
    if e.Establish? {
      if c.state.Connecting? { }
    } else if e.Dispatch? {
      match c.q.due[0] {
        case DoClose => if c.Live() { }
        case DoRead => match e.rr { case Got(_) => case Eof => if c.Live() { } case ReadFailed => }
      }
    } else if e.RunFunctor? {
      SwitchFrame(Popped(c));
      if c.q.tasks[0].ForceCloseTask? {
        if c.Live() { }
      } else if c.q.tasks[0].DestroyTask? {
        DestroySilent(Popped(c));
      } else if c.q.tasks[0].EstablishTask? {
        if c.state.Connecting? { }
      }
    } else if IsCall(e) {
      CallFrame(c, e);
    }
  }

  lemma {:induction false} DestroySilent(c: Conn)
    ensures Silent(c, ConnectDestroyed(c))
  {
    assert (c.notes + [Down])[|c.notes|] == Down;
    hide Removed;
    RemovedSilent(c);
    RemovedSilent(c.(state := Disconnected, ch := DisableAll(c.ch), notes := c.notes + [Down]));
    if c.state.Connected? { }
  }

  lemma {:induction false} RemovedSilent(c: Conn)
    ensures Removed(c).tx.wire == c.tx.wire && Removed(c).notes == c.notes
  {
    if c.ch.reading || c.ch.writing || c.ch.index.New? { }
  }

  /** The write-complete callback is queued by exactly the steps that bring the last byte
    * owed to the wire; the wire then holds everything kept. */
  lemma {:induction false} WriteCompleteIff(c: Conn, e: Event)
    requires Inv(c) && !c.aborted && c.cfg.onComplete && Legal(c, e)
    ensures var d := Step(c, e);
            && (d.notes == c.notes + [WriteComplete] <==> |d.tx.wire| > |c.tx.wire| && |d.tx.out| == 0)
            && (d.notes == c.notes + [WriteComplete] ==> d.aborted || d.tx.wire == Accepted(d.tx.sent))
  {
    hide SendInLoop, HandleWrite, Handle;
    var d := Step(c, e);
    StepInv(c, e);
    assert |d.tx.out| == 0 ==> d.tx.wire + d.tx.out == d.tx.wire;
    if e.SendLocal? {
      if c.state.Connected? && |e.msg| > 0 {
        SendComplete(c, e.msg, e.wr, false);
      }
    } else if e.RunFunctor? && c.q.tasks[0].SendTask? {
      assert c.q.tasks[0] in c.q.tasks;
      SendComplete(Popped(c), c.q.tasks[0].msg, e.wr, true);
    } else if e.Dispatch? && c.q.due[0].DoWrite? {
      DrainComplete(Undue(c), e.wr);
      DispatchWrites(c, e);
    } else {
      hide Step;
      SilentStep(c, e);
    }
  }

  lemma DispatchWrites(c: Conn, e: Event)
    requires !c.aborted && e.Dispatch? && |c.q.due| > 0 && c.q.due[0].DoWrite?
    ensures Step(c, e) == HandleWrite(Undue(c), e.wr)
  {
  }

  // --------------------------------------------------------------- events

  predicate Closes(flags: set<P.Flag>) { P.Hup in flags && P.In !in flags }

  predicate Reads(flags: set<P.Flag>) { P.In in flags || P.Pri in flags || P.RdHup in flags }

  lemma ReadsIff(flags: set<P.Flag>)
    ensures flags * {P.In, P.Pri, P.RdHup} != {} <==> Reads(flags)
  {
    var asked := flags * {P.In, P.Pri, P.RdHup};
    if Reads(flags) {
      assert P.In in asked || P.Pri in asked || P.RdHup in asked;
    } else {
      assert asked == {};
    }
  }

  lemma HandlersAre(flags: set<P.Flag>)
    ensures Handlers(flags) == (if Closes(flags) then [DoClose] else []) + (if Reads(flags) then [DoRead] else [])
                               + (if P.Out in flags then [DoWrite] else [])
  {
    ReadsIff(flags);
  }

  lemma {:induction false} InputSideKeepsOutput(c: Conn, rr: ReadResult)
    ensures HandleClose(c).tx == c.tx && HandleRead(c, rr).tx == c.tx
  {
    if c.Live() {
    }
  }

  /** An event closes, then reads, then writes, and stops at a failed assertion. */
  lemma {:induction false} DeliverInOrder(c: Conn, flags: set<P.Flag>, rr: ReadResult, wr: WriteResult)
    requires !c.aborted
    ensures var d := if Closes(flags) then HandleClose(c) else c;
            var x := if !d.aborted && Reads(flags) then HandleRead(d, rr) else d;
            Deliver(c, Handlers(flags), rr, wr) == if !x.aborted && P.Out in flags then HandleWrite(x, wr) else x
  {
    HandlersAre(flags);
    hide HandleClose, HandleRead, HandleWrite, Handlers;
    var d := if Closes(flags) then HandleClose(c) else c;
    var x := if !d.aborted && Reads(flags) then HandleRead(d, rr) else d;
    var writes := if P.Out in flags then [DoWrite] else [];
    var rest := (if Reads(flags) then [DoRead] else []) + writes;
    DeliverHead(x, DoWrite, [], rr, wr);
    DeliverHead(d, DoRead, writes, rr, wr);
    DeliverHead(c, DoClose, rest, rr, wr);
    assert [DoClose] + rest == [DoClose] + (if Reads(flags) then [DoRead] else []) + writes;
    assert [] + rest == rest && [] + writes == writes && [DoWrite] + [] == [DoWrite];
  }

  lemma {:induction false} DeliverHead(c: Conn, h: Handler, hs: seq<Handler>, rr: ReadResult, wr: WriteResult)
    ensures Deliver(c, [h] + hs, rr, wr) == if c.aborted then c else Deliver(Handle(c, h, rr, wr), hs, rr, wr)
    ensures Deliver(c, [], rr, wr) == c
  {
    assert ([h] + hs)[1..] == hs;
  }
}
