/** What each step of a connection does, told from its events alone, stream by stream:
  * nothing here looks at the histories a connection keeps of itself. */
module ConnectionOutcomes {
  import opened Prelude
  import opened Connections
  import opened ConnectionProofs
  import opened ConnectionTheorems
  import P = Pollers

  function Prefix(s: seq<Byte>, n: nat): seq<Byte> { if n <= |s| then s[..n] else s }

  // ------------------------------------------------------------- output

  /** The message a step hands to the loop: sent in its thread by a connected user, or by a
    * functor. */
  function Handed(c: Conn, e: Event): seq<Byte> {
    match e
    case SendLocal(m, _) => if c.state.Connected? then m else []
    case RunFunctor(_) => if |c.q.tasks| > 0 && c.q.tasks[0].SendTask? then c.q.tasks[0].msg else []
    case _ => []
  }

  /** Nothing was buffered, and the kernel answered EPIPE or ECONNRESET. */
  predicate Fatal(c: Conn, r: WriteResult) {
    c.tx.out == [] && (r == WriteFailed(BrokenPipe) || r == WriteFailed(ConnReset))
  }

  /** What becomes of it: given up once the connection is down, dropped on such an answer,
    * and kept otherwise, EWOULDBLOCK included. */
  function FateOf(c: Conn, r: WriteResult): Fate {
    if c.state.Disconnected? then GaveUp else if Fatal(c, r) then Faulted else Kept
  }

  function Records(c: Conn, e: Event): seq<Sent> {
    if Handed(c, e) == [] then [] else [Sent(Handed(c, e), FateOf(c, e.wr), e.RunFunctor?)]
  }

  /** The bytes a step adds to those owed to the peer. */
  function Accepts(c: Conn, e: Event): seq<Byte> {
    if Handed(c, e) != [] && FateOf(c, e.wr).Kept? then Handed(c, e) else []
  }

  /** The bytes the kernel takes in a step: of the message handed over if nothing was
    * buffered, of what is buffered when it reports the socket writable. */
  function Takes(c: Conn, e: Event): seq<Byte> {
    if Accepts(c, e) != [] then (if c.tx.out == [] && e.wr.Wrote? then Prefix(Handed(c, e), e.wr.n) else [])
    else if e.Dispatch? && |c.q.due| > 0 && c.q.due[0].DoWrite? && c.ch.writing && e.wr.Wrote?
    then Prefix(c.tx.out, e.wr.n)
    else []
  }

  /** send() sends and handleWrite() drains. */
  ghost predicate Delivers(c: Conn, d: Conn, took: seq<Byte>, accepted: seq<Byte>, records: seq<Sent>) {
    && d.tx.wire == c.tx.wire + took
    && d.tx.wire + d.tx.out == c.tx.wire + c.tx.out + accepted
    && d.tx.sent == c.tx.sent + records
  }

  lemma {:induction false} SendDelivers(c: Conn, m: seq<Byte>, r: WriteResult, remote: bool)
    requires WriteInterest(c) && WriteOk(c, |m|, r)
    ensures var kept := FateOf(c, r).Kept?;
      Delivers(c, SendInLoop(c, m, r, remote),
               if kept && c.tx.out == [] && r.Wrote? then Prefix(m, r.n) else [], if kept then m else [],
               [Sent(m, FateOf(c, r), remote)])
  {
    var w, o := c.tx.wire, c.tx.out;
    assert w + [] == w && w + o + [] == w + o;
    if c.state.Disconnected? {
    } else if c.CanWriteDirectly() && IsFault(r) {
    } else {
      assert m[..0] == [] && m[0..] == m;
      SplitMessage(w, o, m, Taken(c, |m|, r));
    }
  }

  lemma {:induction false} WriteDelivers(c: Conn, r: WriteResult)
    requires WriteOk(c, |c.tx.out|, r)
    ensures Delivers(c, HandleWrite(c, r), if c.ch.writing && r.Wrote? then Prefix(c.tx.out, r.n) else [], [], [])
  {
    var w, o := c.tx.wire, c.tx.out;
    assert w + [] == w && w + o + [] == w + o && c.tx.sent + [] == c.tx.sent && o[..0] == [];
    if !c.ch.writing || !r.Wrote? || r.n == 0 {
    } else if r.n < |o| {
      assert o[..r.n] + o[r.n..] == o;
      Reassociate(w, o[..r.n], o[r.n..]);
    } else {
      assert o[..|o|] == o;
    }
  }

  /** The output buffer, the wire and the record of messages are as they were. */
  ghost predicate SameStreams(c: Conn, d: Conn) {
    d.tx.wire == c.tx.wire && d.tx.out == c.tx.out && d.tx.sent == c.tx.sent
  }

  lemma SameDelivers(c: Conn, d: Conn)
    requires SameStreams(c, d)
    ensures Delivers(c, d, [], [], [])
  {
    assert c.tx.wire + [] == c.tx.wire && c.tx.wire + c.tx.out + [] == c.tx.wire + c.tx.out;
  }

  lemma {:induction false} TaskStreams(c: Conn, t: Task, wr: WriteResult)
    requires !t.SendTask?
    ensures SameStreams(c, RunTask(c, t, wr))
  {
    match t {
      case ShutdownTask => if c.ch.writing { }
      case ForceCloseTask => if c.Live() { }
      case StartReadTask => if !c.ch.readFlag || !c.ch.reading { }
      case StopReadTask => if c.ch.readFlag || c.ch.reading { }
      case EstablishTask => if c.state.Connecting? { }
      case DestroyTask => if c.state.Connected? { }
    }
  }

  lemma {:induction false} CloseStreams(c: Conn, rr: ReadResult)
    ensures SameStreams(c, HandleClose(c)) && SameStreams(c, HandleRead(c, rr))
  {
    if c.Live() { }
    match rr { case _ => }
  }

  /** One step of any kind, from any legal state: exactly these bytes reach the wire,
    * exactly these are taken on, and exactly these messages recorded. */
  lemma {:induction false} StepDelivers(c: Conn, e: Event)
    requires Inv(c) && !c.aborted && Legal(c, e)
    ensures Delivers(c, Step(c, e), Takes(c, e), Accepts(c, e), Records(c, e))
  {
    hide Inv, SendInLoop, HandleWrite, Handle, RunTask, Call, Handlers, Delivers;
    WritesAreWatched(c);
    if e.SendLocal? && c.state.Connected? && |e.msg| > 0 {
      SendDelivers(c, e.msg, e.wr, false);
    } else if e.RunFunctor? && c.q.tasks[0].SendTask? {
      SendDelivers(Popped(c), c.q.tasks[0].msg, e.wr, true);
      SendRuns(c, e.wr);
      hide Step, Popped;
      PoppedDelivers(c, Step(c, e), c.q.tasks[0].msg, e.wr);
    } else if e.Dispatch? && c.q.due[0].DoWrite? {
      WriteDelivers(Undue(c), e.wr);
      DispatchWrites(c, e);
      hide Step;
      UndueDelivers(c, Step(c, e), e.wr);
    } else {
      OtherStreams(c, e);
      hide Step;
      SameDelivers(c, Step(c, e));
    }
  }

  lemma WritesAreWatched(c: Conn)
    requires Inv(c)
    ensures WriteInterest(c) && WriteInterest(if |c.q.tasks| > 0 then Popped(c) else c)
    ensures |c.q.tasks| > 0 && c.q.tasks[0].SendTask? ==> |c.q.tasks[0].msg| > 0
  {
    if |c.q.tasks| > 0 { assert c.q.tasks[0] in c.q.tasks; }
  }

  lemma SendRuns(c: Conn, wr: WriteResult)
    requires !c.aborted && |c.q.tasks| > 0 && c.q.tasks[0].SendTask?
    ensures Step(c, RunFunctor(wr)) == SendInLoop(Popped(c), c.q.tasks[0].msg, wr, true)
    ensures Popped(c) == c.(q := Popped(c).q)
  {
    hide SendInLoop;
  }

  lemma PoppedDelivers(c: Conn, d: Conn, m: seq<Byte>, r: WriteResult)
    requires |c.q.tasks| > 0 && c.q.tasks[0] == SendTask(m) && |m| > 0 && Popped(c) == c.(q := Popped(c).q)
    requires var kept := FateOf(Popped(c), r).Kept?;
      Delivers(Popped(c), d, if kept && Popped(c).tx.out == [] && r.Wrote? then Prefix(m, r.n) else [],
               if kept then m else [], [Sent(m, FateOf(Popped(c), r), true)])
    ensures var e := RunFunctor(r); Delivers(c, d, Takes(c, e), Accepts(c, e), Records(c, e))
  {
    hide Popped, Prefix;
  }

  lemma UndueDelivers(c: Conn, d: Conn, r: WriteResult)
    requires |c.q.due| > 0 && c.q.due[0].DoWrite?
    requires Delivers(Undue(c), d, if c.ch.writing && r.Wrote? then Prefix(c.tx.out, r.n) else [], [], [])
    ensures forall rr :: var e := Dispatch(rr, r); Delivers(c, d, Takes(c, e), Accepts(c, e), Records(c, e))
  {
    hide Prefix;
  }

  lemma {:induction false} OtherStreams(c: Conn, e: Event)
    requires !c.aborted && Legal(c, e)
    requires !(e.SendLocal? && c.state.Connected? && |e.msg| > 0) && !(e.RunFunctor? && c.q.tasks[0].SendTask?)
    requires !(e.Dispatch? && c.q.due[0].DoWrite?)
    ensures SameStreams(c, Step(c, e)) && Takes(c, e) == [] && Accepts(c, e) == [] && Records(c, e) == []
  {
    hide SendInLoop, HandleWrite, HandleClose, HandleRead, RunTask, Handlers, Prefix, Call;
    if IsCall(e) {
      CallFrame(c, e);
      StepCalls(c, e);
    } else {
      match e {
        case Establish => if c.state.Connecting? { }
        case Dispatch(rr, wr) => CloseStreams(Undue(c), rr);
        case RunFunctor(wr) => TaskStreams(Popped(c), c.q.tasks[0], wr);
        case _ =>
      }
    }
  }

  /** send() in the loop's thread by a connected user: one record, kept unless the kernel
    * said EPIPE or ECONNRESET with nothing buffered before; a message kept is owed whole,
    * and goes to the wire as far as the kernel takes it, if nothing was buffered. */
  lemma SendSends(c: Conn, m: seq<Byte>, wr: WriteResult)
    requires Inv(c) && c.state.Connected? && !c.aborted && |m| > 0 && Legal(c, SendLocal(m, wr))
    ensures var d := Step(c, SendLocal(m, wr));
      var lost := c.tx.out == [] && (wr == WriteFailed(BrokenPipe) || wr == WriteFailed(ConnReset));
      && d.tx.sent == c.tx.sent + [Sent(m, if lost then Faulted else Kept, false)]
      && d.tx.wire + d.tx.out == c.tx.wire + c.tx.out + (if lost then [] else m)
      && d.tx.wire == c.tx.wire + (if c.tx.out == [] && wr.Wrote? then m[..wr.n] else [])
      && d.state.Connected?
  {
    StepDelivers(c, SendLocal(m, wr));
    hide Inv, SendInLoop;
    SendPlace(c, m, wr, false);
    SendLives(c, m, wr, false);
  }

  lemma {:induction false} SendLives(c: Conn, m: seq<Byte>, r: WriteResult, remote: bool)
    ensures var d := SendInLoop(c, m, r, remote); d.state == c.state && d.aborted == c.aborted && d.rx == c.rx
  {
    if c.state.Disconnected? {
    } else if c.CanWriteDirectly() && IsFault(r) {
    } else {
    }
  }

  /** The same message from another thread, when its functor runs, in any live state. */
  lemma QueuedSendSends(c: Conn, wr: WriteResult)
    requires Inv(c) && c.Live() && !c.aborted && Legal(c, RunFunctor(wr)) && c.q.tasks[0].SendTask?
    ensures var d := Step(c, RunFunctor(wr)); var m := c.q.tasks[0].msg;
      var lost := c.tx.out == [] && (wr == WriteFailed(BrokenPipe) || wr == WriteFailed(ConnReset));
      && d.tx.sent == c.tx.sent + [Sent(m, if lost then Faulted else Kept, true)]
      && d.tx.wire + d.tx.out == c.tx.wire + c.tx.out + (if lost then [] else m)
      && d.tx.wire == c.tx.wire + (if c.tx.out == [] && wr.Wrote? then m[..wr.n] else [])
  {
    StepDelivers(c, RunFunctor(wr));
    WritesAreWatched(c);
    hide Inv, Step;
  }

  /** handleWrite() puts what the kernel takes on the wire, in order, and keeps the rest. */
  lemma WriteDrains(c: Conn, rr: ReadResult, n: nat)
    requires Inv(c) && !c.aborted && Legal(c, Dispatch(rr, Wrote(n))) && c.q.due[0].DoWrite? && c.ch.writing
    ensures var d := Step(c, Dispatch(rr, Wrote(n)));
      d.tx.wire == c.tx.wire + c.tx.out[..n] && d.tx.out == c.tx.out[n..]
  {
    StepDelivers(c, Dispatch(rr, Wrote(n)));
    hide Inv, Step;
    var d := Step(c, Dispatch(rr, Wrote(n)));
    assert c.tx.wire + c.tx.out == c.tx.wire + c.tx.out[..n] + c.tx.out[n..];
    assert d.tx.out == (d.tx.wire + d.tx.out)[|d.tx.wire|..];
  }

  // Along a run, until an assertion fails.

  function TakenAlong(c: Conn, evs: seq<Event>): seq<Byte>
    decreases evs
  {
    if evs == [] || c.aborted then [] else Takes(c, evs[0]) + TakenAlong(Step(c, evs[0]), evs[1..])
  }

  function AcceptedAlong(c: Conn, evs: seq<Event>): seq<Byte>
    decreases evs
  {
    if evs == [] || c.aborted then [] else Accepts(c, evs[0]) + AcceptedAlong(Step(c, evs[0]), evs[1..])
  }

  lemma DeliversThen(c: Conn, d: Conn, x: Conn, t: seq<Byte>, u: seq<Byte>, a: seq<Byte>, b: seq<Byte>)
    requires d.tx.wire == c.tx.wire + t && d.tx.wire + d.tx.out == c.tx.wire + c.tx.out + a
    requires x.tx.wire == d.tx.wire + u && x.tx.wire + x.tx.out == d.tx.wire + d.tx.out + b
    ensures x.tx.wire == c.tx.wire + (t + u) && x.tx.wire + x.tx.out == c.tx.wire + c.tx.out + (a + b)
  {
    Reassociate(c.tx.wire, t, u);
    Reassociate(c.tx.wire + c.tx.out, a, b);
  }

  /** Over every run: the wire grows by exactly what the kernel took, in order, and wire and
    * output buffer together by exactly the messages handed over and not refused. */
  lemma {:induction false} RunDelivers(c: Conn, evs: seq<Event>)
    requires (c.aborted || Inv(c)) && LegalRun(c, evs)
    ensures Run(c, evs).tx.wire == c.tx.wire + TakenAlong(c, evs)
    ensures Run(c, evs).tx.wire + Run(c, evs).tx.out == c.tx.wire + c.tx.out + AcceptedAlong(c, evs)
    decreases evs
  {
    assert c.tx.wire + [] == c.tx.wire && c.tx.wire + c.tx.out + [] == c.tx.wire + c.tx.out;
    if c.aborted {
      AbortedStays(c, evs);
    } else if evs != [] {
      var e, d := evs[0], Step(c, evs[0]);
      StepInv(c, e);
      StepDelivers(c, e);
      hide Inv, Step, Legal, Takes, Accepts, Records;
      RunDelivers(d, evs[1..]);
      DeliversThen(c, d, Run(c, evs), Takes(c, e), TakenAlong(d, evs[1..]), Accepts(c, e), AcceptedAlong(d, evs[1..]));
    }
  }

  /** From construction, in any legal run: the wire is what the kernel took, and with the
    * output buffer behind it, the messages handed over and not refused, in order. */
  lemma WireIsWhatWasSent(cfg: Config, evs: seq<Event>)
    requires LegalRun(Fresh(cfg), evs)
    ensures var c := Run(Fresh(cfg), evs);
      && c.tx.wire == TakenAlong(Fresh(cfg), evs)
      && c.tx.wire + c.tx.out == AcceptedAlong(Fresh(cfg), evs)
      && (!c.aborted ==> AcceptedAlong(Fresh(cfg), evs) == Accepted(c.tx.sent))
  {
    var c := Fresh(cfg);
    FreshInv(cfg);
    RunInv(c, evs);
    RunDelivers(c, evs);
    assert [] + TakenAlong(c, evs) == TakenAlong(c, evs) && [] + AcceptedAlong(c, evs) == AcceptedAlong(c, evs);
    assert c.tx.wire + c.tx.out == [];
  }

  // -------------------------------------------------------------- input

  /** The bytes a step reads from the socket. */
  function Reads(c: Conn, e: Event): seq<Byte> {
    if e.Dispatch? && |c.q.due| > 0 && c.q.due[0].DoRead? && e.rr.Got? then e.rr.data else []
  }

  /** The bytes a step gives the user: a prefix, or all when the length is not inside. */
  function Gives(c: Conn, e: Event): seq<Byte> {
    if !e.Consume? then [] else if 0 <= e.len < |c.rx.input| then c.rx.input[..e.len] else c.rx.input
  }

  ghost predicate Received(c: Conn, d: Conn, got: seq<Byte>, gives: seq<Byte>) {
    && d.rx.received == c.rx.received + got && d.rx.consumed == c.rx.consumed + gives
    && gives + d.rx.input == c.rx.input + got
  }

  lemma SameReceived(c: Conn, d: Conn)
    requires d.rx == c.rx
    ensures Received(c, d, [], [])
  {
    var x := c.rx;
    assert x.received + [] == x.received && x.consumed + [] == x.consumed && [] + x.input == x.input + [];
  }

  lemma {:induction false} TaskInput(c: Conn, t: Task, wr: WriteResult)
    ensures RunTask(c, t, wr).rx == c.rx
  {
    hide SendInLoop;
    match t {
      case SendTask(m) => SendLives(c, m, wr, true);
      case ShutdownTask => if c.ch.writing { }
      case ForceCloseTask => if c.Live() { }
      case StartReadTask => if !c.ch.readFlag || !c.ch.reading { }
      case StopReadTask => if c.ch.readFlag || c.ch.reading { }
      case EstablishTask => if c.state.Connecting? { }
      case DestroyTask => if c.state.Connected? { }
    }
  }

  lemma {:induction false} CallInput(c: Conn, e: Event)
    requires IsCall(e) && !e.Consume?
    ensures Call(c, e).rx == c.rx
  {
    match e {
      case ShutdownLocal => if c.state.Connected? { if c.ch.writing { } }
      case StartReadLocal => if !c.ch.readFlag || !c.ch.reading { }
      case StopReadLocal => if c.ch.readFlag || c.ch.reading { }
      case _ =>
    }
  }

  lemma {:induction false} HandleInput(c: Conn, h: Handler, rr: ReadResult, wr: WriteResult)
    ensures Received(c, Handle(c, h, rr, wr), if h.DoRead? && rr.Got? then rr.data else [], [])
  {
    hide HandleWrite, Received;
    match h {
      case DoClose => SameReceived(c, Handle(c, h, rr, wr));
      case DoRead =>
        if rr.Got? { GotReceived(c, rr.data); } else { SameReceived(c, Handle(c, h, rr, wr)); }
      case DoWrite =>
        WriteInput(c, wr);
        SameReceived(c, Handle(c, h, rr, wr));
    }
  }

  lemma GotReceived(c: Conn, data: seq<Byte>)
    ensures Received(c, HandleRead(c, Got(data)), data, [])
  {
    assert c.rx.consumed + [] == c.rx.consumed && [] + (c.rx.input + data) == c.rx.input + data;
  }

  lemma WriteInput(c: Conn, wr: WriteResult)
    ensures HandleWrite(c, wr).rx == c.rx
  {
    if !c.ch.writing || !wr.Wrote? || wr.n == 0 { } else if wr.n < |c.tx.out| { } else { }
  }

  lemma ConsumeGives(c: Conn, len: int)
    ensures Received(c, Call(c, Consume(len)), [], Gives(c, Consume(len)))
  {
    assert c.rx.received + [] == c.rx.received && c.rx.input + [] == c.rx.input;
    if 0 <= len < |c.rx.input| { assert c.rx.input[..len] + c.rx.input[len..] == c.rx.input; }
  }

  /** One step of any kind: exactly these bytes come in from the socket, and exactly these
    * go out to the user, from the front. */
  lemma {:induction false} StepReceives(c: Conn, e: Event)
    requires !c.aborted && Legal(c, e)
    ensures Received(c, Step(c, e), Reads(c, e), Gives(c, e))
  {
    hide SendInLoop, Handle, RunTask, Call, Handlers, Received;
    if e.Consume? {
      ConsumeGives(c, e.len);
    } else if IsCall(e) {
      CallInput(c, e);
      StepCalls(c, e);
      SameReceived(c, Step(c, e));
    } else if e.Dispatch? {
      HandleInput(Undue(c), c.q.due[0], e.rr, e.wr);
      UndueReceived(c, Step(c, e), Reads(c, e));
    } else if e.RunFunctor? {
      TaskInput(Popped(c), c.q.tasks[0], e.wr);
      SameReceived(c, Step(c, e));
    } else if e.SendLocal? {
      SendLives(c, e.msg, e.wr, false);
      SameReceived(c, Step(c, e));
    } else {
      if e.Establish? { if c.state.Connecting? { } }
      SameReceived(c, Step(c, e));
    }
  }

  lemma UndueReceived(c: Conn, d: Conn, got: seq<Byte>)
    requires |c.q.due| > 0 && Received(Undue(c), d, got, [])
    ensures Received(c, d, got, [])
  {
  }

  function ReadAlong(c: Conn, evs: seq<Event>): seq<Byte>
    decreases evs
  {
    if evs == [] || c.aborted then [] else Reads(c, evs[0]) + ReadAlong(Step(c, evs[0]), evs[1..])
  }

  function GivenAlong(c: Conn, evs: seq<Event>): seq<Byte>
    decreases evs
  {
    if evs == [] || c.aborted then [] else Gives(c, evs[0]) + GivenAlong(Step(c, evs[0]), evs[1..])
  }

  lemma ReceivedThen(x: seq<Byte>, y: seq<Byte>, z: seq<Byte>, g: seq<Byte>, h: seq<Byte>, r: seq<Byte>, s: seq<Byte>)
    requires g + y == x + r && h + z == y + s
    ensures (g + h) + z == x + (r + s)
  {
    assert (g + h) + z == g + (h + z) && g + (y + s) == (g + y) + s && (x + r) + s == x + (r + s);
  }

  /** Over every run from any state: what the user has been given, followed by the input
    * buffer, is what was buffered, followed by everything read, in order; and the
    * connection's own records of both are true. */
  lemma {:induction false} RunReceives(c: Conn, evs: seq<Event>)
    requires LegalRun(c, evs)
    ensures GivenAlong(c, evs) + Run(c, evs).rx.input == c.rx.input + ReadAlong(c, evs)
    ensures Run(c, evs).rx.received == c.rx.received + ReadAlong(c, evs)
    ensures Run(c, evs).rx.consumed == c.rx.consumed + GivenAlong(c, evs)
    decreases evs
  {
    SameReceived(c, c);
    if c.aborted {
      AbortedStays(c, evs);
    } else if evs != [] {
      var e, d := evs[0], Step(c, evs[0]);
      StepReceives(c, e);
      hide Step, Legal, Reads, Gives;
      RunReceives(d, evs[1..]);
      ReceivedThen(c.rx.input, d.rx.input, Run(c, evs).rx.input, Gives(c, e), GivenAlong(d, evs[1..]),
                   Reads(c, e), ReadAlong(d, evs[1..]));
      Reassociate(c.rx.received, Reads(c, e), ReadAlong(d, evs[1..]));
      Reassociate(c.rx.consumed, Gives(c, e), GivenAlong(d, evs[1..]));
    }
  }

  /** A read: the bytes reach the input buffer and the message callback runs. */
  lemma ReadArrives(c: Conn, data: seq<Byte>, wr: WriteResult)
    requires !c.aborted && Legal(c, Dispatch(Got(data), wr)) && c.q.due[0].DoRead?
    ensures var d := Step(c, Dispatch(Got(data), wr));
      && d.rx.received == c.rx.received + data && d.rx.input == c.rx.input + data && d.notes == c.notes + [Message]
      && d.rx.consumed == c.rx.consumed && d.tx == c.tx && d.state == c.state && d.ch == c.ch && !d.aborted
  {
    StepReceives(c, Dispatch(Got(data), wr));
    assert [] + (c.rx.input + data) == c.rx.input + data;
  }
}
