/** What every run of a connection keeps. */
module ConnectionProofs {
  import opened Prelude
  import opened Connections

  // -------------------------------------------------- reference functions

  /** The bytes of all messages that were not dropped, in the order they were sent. */
  function Accepted(sent: seq<Sent>): seq<Byte> {
    if sent == [] then []
    else
      var last := sent[|sent| - 1];
      Accepted(sent[..|sent| - 1]) + (if last.fate.Kept? then last.msg else [])
  }

  /** The messages that other threads' calls have brought as far as sendInLoop. */
  function Arrived(sent: seq<Sent>): seq<seq<Byte>> {
    if sent == [] then []
    else
      var last := sent[|sent| - 1];
      Arrived(sent[..|sent| - 1]) + (if last.remote then [last.msg] else [])
  }

  /** The messages still waiting in the loop's queue. */
  function Waiting(tasks: seq<Task>): seq<seq<Byte>> {
    if tasks == [] then []
    else (if tasks[0].SendTask? then [tasks[0].msg] else []) + Waiting(tasks[1..])
  }

  lemma Snoc(sent: seq<Sent>, s: Sent)
    ensures Accepted(sent + [s]) == Accepted(sent) + (if s.fate.Kept? then s.msg else [])
    ensures Arrived(sent + [s]) == Arrived(sent) + (if s.remote then [s.msg] else [])
  {
    assert (sent + [s])[..|sent|] == sent;
  }

  lemma Reassociate<T>(a: seq<T>, b: seq<T>, c: seq<T>)
    ensures a + (b + c) == a + b + c
  {
  }

  lemma {:induction false} WaitingSnoc(tasks: seq<Task>, t: Task)
    ensures Waiting(tasks + [t]) == Waiting(tasks) + (if t.SendTask? then [t.msg] else [])
  {
    if tasks == [] {
      assert tasks + [t] == [t];
    } else {
      assert (tasks + [t])[1..] == tasks[1..] + [t];
      WaitingSnoc(tasks[1..], t);
      var head := if tasks[0].SendTask? then [tasks[0].msg] else [];
      var last := if t.SendTask? then [t.msg] else [];
      Reassociate(head, Waiting(tasks[1..]), last);
    }
  }

  // ----------------------------------------------------------- invariant

  /** No send waits behind a shutdown: once shutdown is called, send refuses. */
  ghost predicate SendsBeforeShutdown(tasks: seq<Task>) {
    forall i, j :: 0 <= i < j < |tasks| && tasks[i].ShutdownTask? ==> !tasks[j].SendTask?
  }

  ghost predicate Streams(c: Conn) {
    && c.tx.wire + c.tx.out == Accepted(c.tx.sent)
    && c.rx.received == c.rx.consumed + c.rx.input
    && Arrived(c.tx.sent) + Waiting(c.q.tasks) == c.q.offered
  }

  ghost predicate WriteInterest(c: Conn) {
    && (!c.state.Disconnected? ==> (c.ch.writing <==> |c.tx.out| > 0))
    && (c.state.Disconnected? ==> !c.ch.writing)
    && (c.tx.fin && !c.state.Disconnected? ==> |c.tx.out| == 0)
    && (c.ch.reading || c.ch.writing ==> c.ch.index.Added?)
  }

  ghost predicate Closing(c: Conn) {
    && SendsBeforeShutdown(c.q.tasks)
    && (c.state.Connected? || c.state.Connecting? ==>
          !c.tx.fin && forall t :: t in c.q.tasks ==> !t.ShutdownTask? && !t.ForceCloseTask?)
    && (c.state.Connecting? ==> |c.q.offered| == 0)
    && (forall t :: t in c.q.tasks && t.SendTask? ==> |t.msg| > 0)
    && (DestroyTask in c.q.tasks ==> c.state.Disconnected?)
  }

  /** Up, down and close notifications so far, by state. */
  ghost predicate Lifecycle(c: Conn) {
    var n := multiset(c.notes);
    var up := if c.state.Connecting? then 0 else 1;
    var down := if c.state.Disconnected? then 1 else 0;
    n[Up] == up && n[Down] == down && n[CloseNotified] == down
  }

  ghost predicate Inv(c: Conn) {
    Streams(c) && WriteInterest(c) && Closing(c) && Lifecycle(c)
  }

  lemma FreshInv(cfg: Config)
    ensures Inv(Fresh(cfg))
  {
  }

  lemma {:induction false} KeepNotes(c: Conn, msg: seq<Byte>, n: nat, done: bool, remote: bool)
    requires n <= |msg| && Lifecycle(c)
    ensures Lifecycle(Keep(c, msg, n, done, remote))
  {
    var more := SendNotes(c, done, |msg| - n);
    assert multiset(c.notes + more) == multiset(c.notes) + multiset(more);
  }

  lemma {:induction false} KeepInterest(c: Conn, msg: seq<Byte>, n: nat, done: bool, remote: bool)
    requires n <= |msg| && (n == 0 || |c.tx.out| == 0) && WriteInterest(c)
    requires !c.state.Disconnected? && !(c.tx.fin && n < |msg|)
    ensures WriteInterest(Keep(c, msg, n, done, remote))
  {
    hide SendNotes;
  }

  lemma {:induction false} KeepInv(c: Conn, msg: seq<Byte>, n: nat, done: bool, remote: bool)
    requires n <= |msg| && (n == 0 || |c.tx.out| == 0)
    requires c.tx.wire + c.tx.out == Accepted(c.tx.sent) && WriteInterest(c) && Lifecycle(c)
    requires !c.state.Disconnected? && !(c.tx.fin && n < |msg|)
    ensures var d := Keep(c, msg, n, done, remote);
            d.tx.wire + d.tx.out == Accepted(d.tx.sent) && WriteInterest(d) && Lifecycle(d)
  {
    KeepNotes(c, msg, n, done, remote);
    KeepInterest(c, msg, n, done, remote);
    hide Accepted, Arrived, WriteInterest, Lifecycle, SendNotes;
    Snoc(c.tx.sent, Sent(msg, Kept, remote));
    SplitMessage(c.tx.wire, c.tx.out, msg, n);
  }

  lemma SplitMessage(wire: seq<Byte>, out: seq<Byte>, msg: seq<Byte>, n: nat)
    requires n <= |msg| && (n == 0 || |out| == 0)
    ensures (wire + msg[..n]) + (out + msg[n..]) == (wire + out) + msg
  {
    if n == 0 {
      assert msg[..0] == [] && msg[0..] == msg && wire + [] == wire;
    } else {
      assert out == [] && msg[..n] + msg[n..] == msg && wire + [] == wire && [] + msg[n..] == msg[n..];
    }
  }

  lemma {:induction false} SendInv(c: Conn, msg: seq<Byte>, r: WriteResult, remote: bool)
    requires c.tx.wire + c.tx.out == Accepted(c.tx.sent) && WriteInterest(c) && Lifecycle(c) && WriteOk(c, |msg|, r)
    ensures var d := SendInLoop(c, msg, r, remote);
            && d.tx.wire + d.tx.out == Accepted(d.tx.sent) && WriteInterest(d) && Lifecycle(d)
            && Arrived(d.tx.sent) == Arrived(c.tx.sent) + (if remote then [msg] else [])
            && d.q.tasks == c.q.tasks && d.q.offered == c.q.offered && d.state == c.state && d.tx.fin == c.tx.fin
            && d.rx.received == c.rx.received && d.rx.consumed == c.rx.consumed && d.rx.input == c.rx.input
  {
    if c.state.Disconnected? {
      Snoc(c.tx.sent, Sent(msg, GaveUp, remote));
    } else if c.CanWriteDirectly() && IsFault(r) {
      Snoc(c.tx.sent, Sent(msg, Faulted, remote));
    } else {
      Snoc(c.tx.sent, Sent(msg, Kept, remote));
      KeepInv(c, msg, Taken(c, |msg|, r), TakenWhole(c, |msg|, r), remote);
    }
  }

  lemma {:induction false} WriteInv(c: Conn, r: WriteResult)
    requires Inv(c)
    ensures Inv(HandleWrite(c, r))
    ensures var d := HandleWrite(c, r); var drained := c.ch.writing && r.Wrote? && r.n >= |c.tx.out|;
            && (d.tx.fin <==> c.tx.fin || (drained && c.state.Disconnecting?))
            && (drained ==> d.tx.wire == Accepted(d.tx.sent) && !d.ch.writing)
  {
    if !c.ch.writing || !r.Wrote? || r.n == 0 {
    } else if r.n < |c.tx.out| {
      assert (c.tx.wire + c.tx.out[..r.n]) + c.tx.out[r.n..] == c.tx.wire + c.tx.out;
    } else {
      assert (c.tx.wire + c.tx.out) + [] == c.tx.wire + c.tx.out;
    }
  }

  /** What handleClose does before it calls the close callback. */
  function WentDown(c: Conn): Conn {
    c.(state := Disconnected, ch := DisableAll(c.ch), notes := c.notes + [Down, CloseNotified])
  }

  lemma {:induction false} WentDownInv(c: Conn)
    requires Inv(c) && c.Live()
    ensures Inv(WentDown(c))
  {
  }

  lemma {:induction false} CloseInv(c: Conn)
    requires Inv(c)
    ensures HandleClose(c).aborted || Inv(HandleClose(c))
  {
    if c.Live() {
      WentDownInv(c);
      hide Inv;
      if c.cfg.ownerHere {
        OwnerInv(WentDown(c), DestroyTask, Ended);
      }
    }
  }

  lemma {:induction false} ReadInv(c: Conn, r: ReadResult)
    requires Inv(c)
    ensures HandleRead(c, r).aborted || Inv(HandleRead(c, r))
  {
    match r {
      case Got(data) => GotInv(c, data);
      case Eof => CloseInv(c);
      case ReadFailed =>
    }
  }

  lemma {:induction false} GotInv(c: Conn, data: seq<Byte>)
    requires Inv(c)
    ensures Inv(HandleRead(c, Got(data)))
  {
    Reassociate(c.rx.consumed, c.rx.input, data);
    assert multiset(c.notes + [Message]) == multiset(c.notes) + multiset{Message};
    hide Accepted, Arrived, Waiting, SendsBeforeShutdown;
  }

  lemma {:induction false} ReadSwitchInv(c: Conn)
    requires Inv(c)
    ensures Inv(StartReadInLoop(c)) && Inv(StopReadInLoop(c))
  {
    if !c.ch.readFlag || !c.ch.reading {
    } else {
    }
    if c.ch.readFlag || c.ch.reading {
    } else {
    }
  }

  lemma {:induction false} QueueClosing(c: Conn, t: Task)
    requires Closing(c) && !c.state.Connecting? && (t.SendTask? ==> c.state.Connected? && |t.msg| > 0)
    requires t.ShutdownTask? || t.ForceCloseTask? ==> !c.state.Connected?
    requires t.DestroyTask? ==> c.state.Disconnected?
    ensures Closing(Queue(c, t))
  {
    assert forall x :: x in c.q.tasks + [t] ==> x in c.q.tasks || x == t;
    if t.SendTask? {
      assert forall x :: x in c.q.tasks ==> !x.ShutdownTask?;
    }
  }

  lemma {:induction false} QueueInv(c: Conn, t: Task)
    requires Inv(c) && !t.SendTask?
    requires t.ShutdownTask? || t.ForceCloseTask? ==> !c.state.Connected? && !c.state.Connecting?
    requires t.DestroyTask? ==> c.state.Disconnected?
    ensures Inv(Queue(c, t))
  {
    WaitingSnoc(c.q.tasks, t);
    if !c.state.Connecting? {
      QueueClosing(c, t);
    }
  }

  lemma {:induction false} SendRemoteInv(c: Conn, m: seq<Byte>)
    requires Inv(c) && c.state.Connected? && |m| > 0
    ensures Inv(c.(q := c.q.(tasks := c.q.tasks + [SendTask(m)], offered := c.q.offered + [m])))
  {
    var d := c.(q := c.q.(tasks := c.q.tasks + [SendTask(m)], offered := c.q.offered + [m]));
    assert Streams(d) by {
      WaitingSnoc(c.q.tasks, SendTask(m));
      assert Arrived(c.tx.sent) + (Waiting(c.q.tasks) + [m]) == (Arrived(c.tx.sent) + Waiting(c.q.tasks)) + [m];
    }
    assert Closing(d) by {
      QueueClosing(c, SendTask(m));
    }
  }

  /** Taking the functor at the head leaves everything but the messages still waiting. */
  lemma {:induction false} PopInv(c: Conn)
    requires Inv(c) && |c.q.tasks| > 0
    ensures var d := Popped(c);
            && c.tx.wire + c.tx.out == Accepted(c.tx.sent) && WriteInterest(d) && Lifecycle(d) && Closing(d)
            && (c.q.tasks[0].SendTask? ==> Arrived(c.tx.sent) + [c.q.tasks[0].msg] + Waiting(d.q.tasks) == c.q.offered)
            && (!c.q.tasks[0].SendTask? ==> Inv(d))
            && (c.q.tasks[0].ShutdownTask? ==> !c.state.Connected? && !c.state.Connecting?)
  {
    assert c.q.tasks[0] in c.q.tasks;
    if c.q.tasks[0].SendTask? {
      assert Arrived(c.tx.sent) + ([c.q.tasks[0].msg] + Waiting(c.q.tasks[1..]))
          == Arrived(c.tx.sent) + [c.q.tasks[0].msg] + Waiting(c.q.tasks[1..]);
    } else {
      assert Waiting(c.q.tasks) == Waiting(c.q.tasks[1..]);
    }
  }

  lemma {:induction false} FinInv(c: Conn)
    requires Inv(c) && !c.state.Connected? && !c.state.Connecting?
    ensures Inv(ShutdownInLoop(c))
  {
    if c.ch.writing {
    }
  }

  lemma {:induction false} FunctorInv(c: Conn, wr: WriteResult)
    requires Inv(c) && !c.aborted && Legal(c, RunFunctor(wr))
    ensures Step(c, RunFunctor(wr)).aborted || Inv(Step(c, RunFunctor(wr)))
  {
    hide SendInLoop, HandleClose, ShutdownInLoop, StartReadInLoop, StopReadInLoop, WriteInterest, Lifecycle;
    PopInv(c);
    var d := Popped(c);
    match c.q.tasks[0] {
      case SendTask(m) => SendInv(d, m, wr, true);
      case ShutdownTask => FinInv(d);
      case ForceCloseTask => if d.Live() { CloseInv(d); }
      case StartReadTask => ReadSwitchInv(d);
      case StopReadTask => ReadSwitchInv(d);
      case EstablishTask => EstablishInv(d);
      case DestroyTask =>
        assert c.q.tasks[0] in c.q.tasks;
        DestroyInv(d);
    }
  }

  lemma {:induction false} DestroyInv(c: Conn)
    requires Inv(c) && c.state.Disconnected?
    ensures ConnectDestroyed(c).aborted || Inv(ConnectDestroyed(c))
  {
  }

  lemma {:induction false} EstablishInv(c: Conn)
    requires Inv(c)
    ensures ConnectEstablished(c).aborted || Inv(ConnectEstablished(c))
  {
  }

  lemma {:induction false} SendLocalInv(c: Conn, m: seq<Byte>, wr: WriteResult)
    requires Inv(c) && !c.aborted && Legal(c, SendLocal(m, wr))
    ensures Inv(Step(c, SendLocal(m, wr)))
  {
    hide SendInLoop, WriteInterest, Lifecycle;
    if c.state.Connected? && |m| > 0 {
      SendInv(c, m, wr, false);
    }
  }

  lemma {:induction false} ShutdownInv(c: Conn, e: Event)
    requires Inv(c) && !c.aborted
    requires e in {ShutdownLocal, ShutdownRemote, ForceClose, DelayForceClose}
    ensures Inv(Step(c, e))
  {
    if c.Live() { DisconnectingInv(c); }
    hide Inv;
    match e {
      case ShutdownLocal => if c.state.Connected? { FinInv(c.(state := Disconnecting)); }
      case ShutdownRemote => if c.state.Connected? { QueueInv(c.(state := Disconnecting), ShutdownTask); }
      case ForceClose => if c.Live() { QueueInv(c.(state := Disconnecting), ForceCloseTask); }
      case DelayForceClose => if c.Live() { }
    }
  }

  lemma {:induction false} DisconnectingInv(c: Conn)
    requires Inv(c) && c.Live()
    ensures Inv(c.(state := Disconnecting))
  {
  }

  lemma {:induction false} ConsumeInv(c: Conn, len: int)
    requires Inv(c) && !c.aborted
    ensures Inv(Step(c, Consume(len)))
  {
    hide WriteInterest, Lifecycle, Closing;
    if 0 <= len < |c.rx.input| {
      assert c.rx.input[..len] + c.rx.input[len..] == c.rx.input;
      Reassociate(c.rx.consumed, c.rx.input[..len], c.rx.input[len..]);
    } else {
      assert (c.rx.consumed + c.rx.input) + [] == c.rx.consumed + c.rx.input;
    }
    SameButInput(c, Step(c, Consume(len)));
  }

  lemma SameButInput(c: Conn, d: Conn)
    requires Inv(c) && d == c.(rx := d.rx) && d.rx.received == d.rx.consumed + d.rx.input
    ensures Inv(d)
  {
  }

  lemma {:induction false} DispatchInv(c: Conn, rr: ReadResult, wr: WriteResult)
    requires Inv(c) && !c.aborted && Legal(c, Dispatch(rr, wr))
    ensures Step(c, Dispatch(rr, wr)).aborted || Inv(Step(c, Dispatch(rr, wr)))
  {
    hide HandleClose, HandleRead, HandleWrite;
    var d := Undue(c);
    match c.q.due[0] {
      case DoClose => CloseInv(d);
      case DoRead => ReadInv(d, rr);
      case DoWrite => WriteInv(d, wr);
    }
  }

  /** Every step of every run keeps the invariant, up to a failed assertion. */
  lemma {:induction false} StepInv(c: Conn, e: Event)
    requires Inv(c) && Legal(c, e)
    ensures Step(c, e).aborted || Inv(Step(c, e))
  {
    if c.aborted { return; }
    hide Inv, Legal, SendInLoop, HandleRead, HandleWrite, HandleClose, ConnectEstablished, ConnectDestroyed, RunTask,
      StartReadInLoop, StopReadInLoop, ShutdownInLoop;
    match e {
      case Establish =>
        SameButPlace(c, c.(q := c.q.(owner := Begun)));
        EstablishInv(c.(q := c.q.(owner := Begun)));
      case SendLocal(m, wr) => SendLocalInv(c, m, wr);
      case SendRemote(m) => if c.state.Connected? && |m| > 0 { SendRemoteInv(c, m); }
      case StartReadLocal => ReadSwitchInv(c);
      case StopReadLocal => ReadSwitchInv(c);
      case StartReadRemote => QueueInv(c, StartReadTask);
      case StopReadRemote => QueueInv(c, StopReadTask);
      case Consume(len) => ConsumeInv(c, len);
      case Poll(_) => SameButPlace(c, Step(c, e));
      case TakeEvent => SameButPlace(c, Step(c, e));
      case Swap => SameButPlace(c, Step(c, e));
      case EndRound => SameButPlace(c, Step(c, e));
      case QueueEstablish => OwnerInv(c, EstablishTask, Begun);
      case QueueDestroy =>
        ClosedIsDown(c);
        OwnerInv(c, DestroyTask, Ended);
      case Dispatch(rr, wr) => DispatchInv(c, rr, wr);
      case RunFunctor(wr) => FunctorInv(c, wr);
      case _ => ShutdownInv(c, e);
    }
  }

  /** The invariant does not look at where the loop is in its round. */
  lemma {:induction false} SameButPlace(c: Conn, d: Conn)
    requires Inv(c) && d == c.(q := d.q) && d.q.tasks == c.q.tasks && d.q.offered == c.q.offered
    ensures Inv(d)
  {
  }

  lemma {:induction false} OwnerInv(c: Conn, t: Task, owner: Owner)
    requires Inv(c) && (t.EstablishTask? || (t.DestroyTask? && c.state.Disconnected?))
    ensures Inv(c.(q := c.q.(tasks := c.q.tasks + [t], owner := owner)))
  {
    QueueInv(c, t);
    SameButPlace(Queue(c, t), c.(q := c.q.(tasks := c.q.tasks + [t], owner := owner)));
  }

  lemma ClosedIsDown(c: Conn)
    requires Inv(c)
    ensures CloseNotified in c.notes <==> c.state.Disconnected?
  {
  }

  lemma {:induction false} RunInv(c: Conn, evs: seq<Event>)
    requires (c.aborted || Inv(c)) && LegalRun(c, evs)
    ensures Run(c, evs).aborted || Inv(Run(c, evs))
    decreases evs
  {
    if evs != [] {
      if !c.aborted { StepInv(c, evs[0]); }
      RunInv(Step(c, evs[0]), evs[1..]);
    }
  }

  // ------------------------------------------------------------- the round

  /** A batch is part of the queue, handlers are due only while events are handled, and
    * none but the first of them closes. */
  ghost predicate Rounds(c: Conn) {
    && (c.q.phase.Functors? ==> c.q.phase.left <= |c.q.tasks|)
    && (|c.q.due| > 0 ==> c.q.phase == Handling(None))
    && (forall k :: 1 <= k < |c.q.due| ==> !c.q.due[k].DoClose?)
  }

  /** The functors that run before the loop polls again, and those that do not. */
  function Ahead(c: Conn): seq<Task> {
    match c.q.phase
    case AtPoll => []
    case Handling(_) => c.q.tasks
    case Functors(left) => c.q.tasks[..Min(left, |c.q.tasks|)]
  }

  function Behind(c: Conn): seq<Task> {
    match c.q.phase
    case AtPoll => c.q.tasks
    case Handling(_) => []
    case Functors(left) => c.q.tasks[Min(left, |c.q.tasks|)..]
  }

  lemma {:induction false} CallRounds(c: Conn, e: Event)
    requires Rounds(c) && IsCall(e)
    ensures Rounds(Call(c, e))
  {
    match e {
      case ShutdownLocal => if c.state.Connected? { if c.ch.writing { } }
      case StartReadLocal => if !c.ch.readFlag || !c.ch.reading { }
      case StopReadLocal => if c.ch.readFlag || c.ch.reading { }
      case _ =>
    }
  }

  /** A handler or functor leaves its own place as it was, and may add to the queue's end. */
  ghost predicate SamePlace(c: Conn, d: Conn) {
    d.q.phase == c.q.phase && d.q.due == c.q.due && c.q.tasks <= d.q.tasks
  }

  lemma {:induction false} HandlePlace(c: Conn, h: Handler, rr: ReadResult, wr: WriteResult)
    ensures SamePlace(c, Handle(c, h, rr, wr))
  {
    match h {
      case DoClose => if c.Live() { }
      case DoRead => match rr { case Got(_) => case Eof => if c.Live() { } case ReadFailed => }
      case DoWrite =>
        if !c.ch.writing || !wr.Wrote? || wr.n == 0 {
        } else if wr.n < |c.tx.out| {
        } else {
        }
    }
  }

  lemma {:induction false} SendPlace(c: Conn, m: seq<Byte>, wr: WriteResult, remote: bool)
    ensures SendInLoop(c, m, wr, remote).q == c.q
  {
    if c.state.Disconnected? {
    } else if c.CanWriteDirectly() && IsFault(wr) {
    } else {
    }
  }

  lemma {:induction false} TaskPlace(c: Conn, t: Task, wr: WriteResult)
    ensures SamePlace(c, RunTask(c, t, wr))
  {
    hide SendInLoop;
    match t {
      case SendTask(m) => SendPlace(c, m, wr, true);
      case ShutdownTask => if c.ch.writing { }
      case ForceCloseTask => if c.Live() { }
      case StartReadTask => if !c.ch.readFlag || !c.ch.reading { }
      case StopReadTask => if c.ch.readFlag || c.ch.reading { }
      case EstablishTask => if c.state.Connecting? { }
      case DestroyTask => if c.state.Connected? { }
    }
  }

  lemma {:induction false} StepRounds(c: Conn, e: Event)
    requires Rounds(c) && Legal(c, e)
    ensures Rounds(Step(c, e))
  {
    hide Handle, RunTask, Call, SendInLoop;
    if c.aborted {
    } else if IsCall(e) {
      CallRounds(c, e);
    } else if e.Dispatch? {
      HandlePlace(Undue(c), c.q.due[0], e.rr, e.wr);
    } else if e.RunFunctor? {
      TaskPlace(Popped(c), c.q.tasks[0], e.wr);
    } else if e.SendLocal? {
      SendPlace(c, e.msg, e.wr, false);
    } else if e.Establish? {
      if c.state.Connecting? { }
    }
  }

  // ------------------------------------------------------------- the owner

  predicate OwnersTask(t: Task) { t.EstablishTask? || t.DestroyTask? }

  /** The owner establishes once and destroys once; until it has, the poller knows the
    * channel of a connection that was up. */
  ghost predicate Owned(c: Conn) {
    && (c.q.owner.Untouched? ==> c.state.Connecting?)
    && (EstablishTask in c.q.tasks <==> c.q.owner.Begun? && c.state.Connecting?)
    && (DestroyTask in c.q.tasks ==> c.q.owner.Ended?)
    && (c.q.owner.Ended? ==> c.state.Disconnected?)
    && (c.cfg.ownerHere && c.state.Disconnected? ==> c.q.owner.Ended?)
    && (!c.state.Connecting? && (!c.q.owner.Ended? || DestroyTask in c.q.tasks) ==> !c.ch.index.New?)
    && (forall i, j :: 0 <= i < j < |c.q.tasks| && OwnersTask(c.q.tasks[i]) ==> c.q.tasks[i] != c.q.tasks[j])
  }

  lemma AppendOwned(tasks: seq<Task>, t: Task)
    requires OwnersTask(t) ==> t !in tasks
    requires forall i, j :: 0 <= i < j < |tasks| && OwnersTask(tasks[i]) ==> tasks[i] != tasks[j]
    ensures var u := tasks + [t];
      forall i, j :: 0 <= i < j < |u| && OwnersTask(u[i]) ==> u[i] != u[j]
    ensures forall x :: x in tasks + [t] <==> x in tasks || x == t
  {
  }

  lemma {:induction false} PopOwned(c: Conn)
    requires Owned(c) && |c.q.tasks| > 0 && !OwnersTask(c.q.tasks[0])
    ensures Owned(Popped(c))
  {
    assert c.q.tasks == [c.q.tasks[0]] + c.q.tasks[1..];
    assert forall i :: 0 <= i < |c.q.tasks[1..]| ==> c.q.tasks[1..][i] == c.q.tasks[i + 1];
  }

  lemma {:induction false} CallOwned(c: Conn, e: Event)
    requires Owned(c) && IsCall(e)
    ensures Owned(Call(c, e))
  {
    match e {
      case SendRemote(m) => if c.state.Connected? && |m| > 0 { AppendOwned(c.q.tasks, SendTask(m)); }
      case ShutdownLocal => if c.state.Connected? { if c.ch.writing { } }
      case ShutdownRemote => if c.state.Connected? { AppendOwned(c.q.tasks, ShutdownTask); }
      case ForceClose => if c.Live() { AppendOwned(c.q.tasks, ForceCloseTask); }
      case DelayForceClose => if c.Live() { }
      case StartReadLocal => if !c.ch.readFlag || !c.ch.reading { }
      case StopReadLocal => if c.ch.readFlag || c.ch.reading { }
      case StartReadRemote => AppendOwned(c.q.tasks, StartReadTask);
      case StopReadRemote => AppendOwned(c.q.tasks, StopReadTask);
      case _ =>
    }
  }

  lemma {:induction false} CloseOwned(c: Conn)
    requires Owned(c)
    ensures HandleClose(c).aborted || Owned(HandleClose(c))
  {
    if c.Live() && c.cfg.ownerHere { AppendOwned(c.q.tasks, DestroyTask); }
  }

  lemma {:induction false} HandleOwned(c: Conn, h: Handler, rr: ReadResult, wr: WriteResult)
    requires Owned(c)
    ensures Handle(c, h, rr, wr).aborted || Owned(Handle(c, h, rr, wr))
  {
    hide HandleClose;
    match h {
      case DoClose => CloseOwned(c);
      case DoRead => match rr { case Got(_) => case Eof => CloseOwned(c); case ReadFailed => }
      case DoWrite =>
        if !c.ch.writing || !wr.Wrote? || wr.n == 0 {
        } else if wr.n < |c.tx.out| {
        } else {
        }
    }
  }

  lemma {:induction false} SendOwned(c: Conn, m: seq<Byte>, wr: WriteResult, remote: bool)
    requires Owned(c)
    ensures Owned(SendInLoop(c, m, wr, remote))
  {
    if c.state.Disconnected? {
    } else if c.CanWriteDirectly() && IsFault(wr) {
    } else {
    }
  }

  lemma {:induction false} FunctorOwned(c: Conn, wr: WriteResult)
    requires Owned(c) && !c.aborted && |c.q.tasks| > 0
    ensures Step(c, RunFunctor(wr)).aborted || Owned(Step(c, RunFunctor(wr)))
  {
    hide SendInLoop, HandleClose;
    var t, d := c.q.tasks[0], Popped(c);
    if OwnersTask(t) {
      OwnersFunctor(c, wr);
    } else {
      PopOwned(c);
      match t {
        case SendTask(m) => SendOwned(d, m, wr, true);
        case ShutdownTask => if c.ch.writing { }
        case ForceCloseTask => if d.Live() { CloseOwned(d); }
        case StartReadTask => if !c.ch.readFlag || !c.ch.reading { }
        case StopReadTask => if c.ch.readFlag || c.ch.reading { }
      }
    }
  }

  lemma {:induction false} OwnersFunctor(c: Conn, wr: WriteResult)
    requires Owned(c) && !c.aborted && |c.q.tasks| > 0 && OwnersTask(c.q.tasks[0])
    ensures Step(c, RunFunctor(wr)).aborted || Owned(Step(c, RunFunctor(wr)))
  {
    var t := c.q.tasks[0];
    assert t in c.q.tasks && c.q.tasks == [t] + c.q.tasks[1..];
    assert forall i :: 0 <= i < |c.q.tasks[1..]| ==> c.q.tasks[1..][i] == c.q.tasks[i + 1];
    if t.EstablishTask? {
    } else {
    }
  }

  lemma {:induction false} StepOwned(c: Conn, e: Event)
    requires Owned(c) && Inv(c) && Legal(c, e)
    ensures Step(c, e).aborted || Owned(Step(c, e))
  {
    if c.aborted {
      assert Step(c, e) == c;
      return;
    }
    ClosedIsDown(c);
    hide Inv, Step, Owned;
    if IsCall(e) {
      CallStepOwned(c, e);
    } else if e.Dispatch? {
      DispatchOwned(c, e);
    } else if e.RunFunctor? {
      HasFunctor(c, e);
      FunctorOwned(c, e.wr);
    } else if e.SendLocal? {
      SendStepOwned(c, e);
    } else if e.Establish? || e.QueueEstablish? || e.QueueDestroy? {
      OwnerOwned(c, e);
    } else {
      RoundOwned(c, e);
    }
  }

  lemma HasFunctor(c: Conn, e: Event)
    requires e.RunFunctor? && Legal(c, e)
    ensures |c.q.tasks| > 0
  {
  }

  lemma CallStepOwned(c: Conn, e: Event)
    requires Owned(c) && IsCall(e) && !c.aborted
    ensures Owned(Step(c, e))
  {
    CallOwned(c, e);
    hide Owned, Call;
  }

  lemma {:induction false} DispatchOwned(c: Conn, e: Event)
    requires Owned(c) && e.Dispatch? && !c.aborted && Legal(c, e)
    ensures Step(c, e).aborted || Owned(Step(c, e))
  {
    OwnedAnywhere(c, Undue(c));
    hide Owned, Handle;
    HandleOwned(Undue(c), c.q.due[0], e.rr, e.wr);
  }

  lemma {:induction false} SendStepOwned(c: Conn, e: Event)
    requires Owned(c) && e.SendLocal? && !c.aborted
    ensures Owned(Step(c, e))
  {
    hide Owned, SendInLoop;
    SendOwned(c, e.msg, e.wr, false);
  }

  lemma {:induction false} RoundOwned(c: Conn, e: Event)
    requires Owned(c) && !c.aborted && Legal(c, e) && (e.Poll? || e.TakeEvent? || e.Swap? || e.EndRound?)
    ensures Owned(Step(c, e))
  {
    hide Owned, Handlers;
    OwnedAnywhere(c, Step(c, e));
  }

  lemma OwnedAnywhere(c: Conn, d: Conn)
    requires Owned(c) && d == c.(q := d.q) && d.q.tasks == c.q.tasks && d.q.owner == c.q.owner
    ensures Owned(d)
  {
  }

  lemma {:induction false} OwnerOwned(c: Conn, e: Event)
    requires Owned(c) && !c.aborted && Legal(c, e) && (e.Establish? || e.QueueEstablish? || e.QueueDestroy?)
    requires CloseNotified in c.notes ==> c.state.Disconnected?
    ensures Step(c, e).aborted || Owned(Step(c, e))
  {
    if e.QueueEstablish? {
      AppendOwned(c.q.tasks, EstablishTask);
    } else if e.QueueDestroy? {
      AppendOwned(c.q.tasks, DestroyTask);
    }
  }

  /** All that every run keeps. */
  ghost predicate Whole(c: Conn) { Inv(c) && Rounds(c) && Owned(c) }

  lemma FreshWhole(cfg: Config)
    ensures Whole(Fresh(cfg))
  {
  }

  lemma StepWhole(c: Conn, e: Event)
    requires Whole(c) && Legal(c, e)
    ensures Step(c, e).aborted || Whole(Step(c, e))
  {
    hide Inv, Rounds, Owned, Step, Legal;
    StepInv(c, e);
    StepRounds(c, e);
    StepOwned(c, e);
  }

  lemma {:induction false} RunWhole(c: Conn, evs: seq<Event>)
    requires (c.aborted || Whole(c)) && LegalRun(c, evs)
    ensures Run(c, evs).aborted || Whole(Run(c, evs))
    decreases evs
  {
    if evs != [] {
      if !c.aborted { StepWhole(c, evs[0]); }
      RunWhole(Step(c, evs[0]), evs[1..]);
    }
  }
}
