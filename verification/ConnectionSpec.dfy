/** One TCP connection as a state: what the object stores, what its loop has queued for
  * it, what the kernel has taken from it, and the history its users care about. */
module Connections {
  import opened Prelude
  import P = Pollers

  datatype State = Disconnected | Connecting | Connected | Disconnecting

  datatype Errno = WouldBlock | BrokenPipe | ConnReset | OtherError

  datatype WriteResult = Wrote(n: nat) | WriteFailed(err: Errno)

  datatype ReadResult = Got(data: seq<Byte>) | Eof | ReadFailed

  /** What sendInLoop did with a message. */
  datatype Fate = Kept | GaveUp | Faulted

  datatype Sent = Sent(msg: seq<Byte>, fate: Fate, remote: bool)

  /** Functors this connection has in its loop's queue: its own, and its owner's
    * connectEstablished and connectDestroyed. */
  datatype Task =
    | SendTask(msg: seq<Byte>) | ShutdownTask | ForceCloseTask | StartReadTask | StopReadTask
    | EstablishTask | DestroyTask

  datatype Handler = DoClose | DoRead | DoWrite

  /** User callbacks, in the order they are called or queued. */
  datatype Note = Up | Down | CloseNotified | Message | HighWater(backlog: nat) | WriteComplete

  /** The connection's channel: what it asks for, its index, and reading_. */
  datatype Chan = Chan(reading: bool, writing: bool, index: P.Index, readFlag: bool)

  /** Output: the output buffer, the bytes the kernel has taken, whether the write half
    * has been shut down, and every message sendInLoop was given. */
  datatype Output = Output(out: seq<Byte>, wire: seq<Byte>, fin: bool, sent: seq<Sent>)

  /** Input: the input buffer, everything read, everything the user has taken. */
  datatype Input = Input(input: seq<Byte>, received: seq<Byte>, consumed: seq<Byte>)

  /** Where the loop is in its round: in poll; handling events, what it was told about this
    * connection not yet looked at; or running the batch of functors swapped out of its
    * queue, of which so many are this connection's. */
  datatype Phase = AtPoll | Handling(report: Option<set<P.Flag>>) | Functors(left: nat)

  /** Whether the owner has set connectEstablished, and then connectDestroyed, in motion. */
  datatype Owner = Untouched | Begun | Ended

  /** The loop: queued functors, oldest first, handlers due for the current event, and the
    * messages other threads have been promised. */
  datatype Loop = Loop(tasks: seq<Task>, due: seq<Handler>, offered: seq<seq<Byte>>, phase: Phase, owner: Owner)

  /** ownerHere: the owner lives on the connection's own loop, so its close callback queues
    * connectDestroyed at once. */
  datatype Config = Config(mark: nat, onHigh: bool, onComplete: bool, ownerHere: bool)

  datatype Conn = Conn(state: State, ch: Chan, tx: Output, rx: Input, q: Loop,
                       cfg: Config, notes: seq<Note>, aborted: bool)
  {
    predicate Live() { state.Connected? || state.Disconnecting? }

    predicate CanWriteDirectly() { !ch.writing && |tx.out| == 0 }
  }

  const DEFAULT_MARK: nat := 64 * 1024 * 1024

  function Fresh(cfg: Config): Conn {
    Conn(Connecting, Chan(false, false, P.New, true), Output([], [], false, []), Input([], [], []),
         Loop([], [], [], Handling(None), Untouched), cfg, [], false)
  }

  // ------------------------------------------------------------ handlers

  /** The callbacks a send queues: done at once, or the backlog has just reached the mark. */
  function SendNotes(c: Conn, done: bool, rest: nat): seq<Note> {
    if done then (if c.cfg.onComplete then [WriteComplete] else [])
    else if rest > 0 && |c.tx.out| < c.cfg.mark <= |c.tx.out| + rest && c.cfg.onHigh then [HighWater(|c.tx.out| + rest)]
    else []
  }

  predicate IsFault(r: WriteResult) {
    r.WriteFailed? && (r.err.BrokenPipe? || r.err.ConnReset?)
  }

  /** How much of a message a direct write takes; no direct write is made while the
    * channel is writing or the output buffer holds anything. */
  function Taken(c: Conn, len: nat, r: WriteResult): (n: nat)
    ensures n <= len
  {
    if c.CanWriteDirectly() && r.Wrote? then Min(r.n, len) else 0
  }

  predicate TakenWhole(c: Conn, len: nat, r: WriteResult) {
    c.CanWriteDirectly() && r.Wrote? && r.n >= len
  }

  /** The first n bytes go to the wire and the rest to the output buffer. */
  function Keep(c: Conn, msg: seq<Byte>, n: nat, done: bool, remote: bool): Conn
    requires n <= |msg|
  {
    c.(tx := Output(c.tx.out + msg[n..], c.tx.wire + msg[..n], c.tx.fin, c.tx.sent + [Sent(msg, Kept, remote)]),
       ch := if n < |msg| && !c.ch.writing
             then c.ch.(writing := true, index := P.NextIndex(c.ch.index, true)) else c.ch,
       notes := c.notes + SendNotes(c, done, |msg| - n))
  }

  function Drop(c: Conn, msg: seq<Byte>, fate: Fate, remote: bool): Conn {
    c.(tx := c.tx.(sent := c.tx.sent + [Sent(msg, fate, remote)]))
  }

  /** r is what the direct write returns, and is not used where none is made. */
  function SendInLoop(c: Conn, msg: seq<Byte>, r: WriteResult, remote: bool): Conn {
    if c.state.Disconnected? then Drop(c, msg, GaveUp, remote)
    else if c.CanWriteDirectly() && IsFault(r) then Drop(c, msg, Faulted, remote)
    else Keep(c, msg, Taken(c, |msg|, r), TakenWhole(c, |msg|, r), remote)
  }

  function ShutdownInLoop(c: Conn): Conn {
    if c.ch.writing then c else c.(tx := c.tx.(fin := true))
  }

  function HandleWrite(c: Conn, r: WriteResult): Conn {
    if !c.ch.writing || !r.Wrote? || r.n == 0 then c
    else if r.n < |c.tx.out| then c.(tx := c.tx.(wire := c.tx.wire + c.tx.out[..r.n], out := c.tx.out[r.n..]))
    else
      c.(tx := c.tx.(wire := c.tx.wire + c.tx.out, out := [], fin := c.tx.fin || c.state.Disconnecting?),
         ch := c.ch.(writing := false, index := P.NextIndex(c.ch.index, c.ch.reading)),
         notes := c.notes + (if c.cfg.onComplete then [WriteComplete] else []))
  }

  function DisableAll(ch: Chan): Chan {
    ch.(reading := false, writing := false, index := P.NextIndex(ch.index, false))
  }

  /** The owner's connectDestroyed, queued. */
  function Ending(q: Loop): Loop { q.(tasks := q.tasks + [DestroyTask], owner := Ended) }

  function HandleClose(c: Conn): Conn {
    if !c.Live() then c.(aborted := true)
    else
      c.(state := Disconnected, ch := DisableAll(c.ch), notes := c.notes + [Down, CloseNotified],
         q := if c.cfg.ownerHere then Ending(c.q) else c.q)
  }

  function ForceCloseInLoop(c: Conn): Conn {
    if c.Live() then HandleClose(c) else c
  }

  function HandleRead(c: Conn, r: ReadResult): Conn {
    match r
    case Got(data) =>
      c.(rx := c.rx.(input := c.rx.input + data, received := c.rx.received + data), notes := c.notes + [Message])
    case Eof => HandleClose(c)
    case ReadFailed => c
  }

  function StartReadInLoop(c: Conn): Conn {
    if !c.ch.readFlag || !c.ch.reading
    then c.(ch := c.ch.(reading := true, readFlag := true, index := P.NextIndex(c.ch.index, true))) else c
  }

  /** The flag is left true, as in the source. */
  function StopReadInLoop(c: Conn): Conn {
    if c.ch.readFlag || c.ch.reading
    then c.(ch := c.ch.(reading := false, readFlag := true, index := P.NextIndex(c.ch.index, c.ch.writing))) else c
  }

  function ConnectEstablished(c: Conn): Conn {
    if !c.state.Connecting? then c.(aborted := true)
    else
      c.(state := Connected, ch := c.ch.(reading := true, index := P.NextIndex(c.ch.index, true)),
         notes := c.notes + [Up])
  }

  function ConnectDestroyed(c: Conn): Conn {
    if c.state.Connected? then
      Removed(c.(state := Disconnected, ch := DisableAll(c.ch), notes := c.notes + [Down]))
    else Removed(c)
  }

  /** Channel::remove, whose assertions want no event left and a known channel. */
  function Removed(c: Conn): Conn {
    if c.ch.reading || c.ch.writing || c.ch.index.New? then c.(aborted := true) else c.(ch := c.ch.(index := P.New))
  }

  /** Channel::handleEventWithGuard: which handlers a set of flags calls, in order. */
  function Handlers(flags: set<P.Flag>): seq<Handler> {
    (if P.Hup in flags && P.In !in flags then [DoClose] else []) +
    (if flags * {P.In, P.Pri, P.RdHup} != {} then [DoRead] else []) +
    (if P.Out in flags then [DoWrite] else [])
  }

  function Handle(c: Conn, h: Handler, rr: ReadResult, wr: WriteResult): Conn {
    match h
    case DoClose => HandleClose(c)
    case DoRead => HandleRead(c, rr)
    case DoWrite => HandleWrite(c, wr)
  }

  /** One event handled to its end, with no user call in between. */
  function Deliver(c: Conn, hs: seq<Handler>, rr: ReadResult, wr: WriteResult): Conn
    decreases |hs|
  {
    if |hs| == 0 || c.aborted then c else Deliver(Handle(c, hs[0], rr, wr), hs[1..], rr, wr)
  }

  function RunTask(c: Conn, t: Task, wr: WriteResult): Conn {
    match t
    case SendTask(m) => SendInLoop(c, m, wr, true)
    case ShutdownTask => ShutdownInLoop(c)
    case ForceCloseTask => ForceCloseInLoop(c)
    case StartReadTask => StartReadInLoop(c)
    case StopReadTask => StopReadInLoop(c)
    case EstablishTask => ConnectEstablished(c)
    case DestroyTask => ConnectDestroyed(c)
  }

  // --------------------------------------------------------------- steps

  /** Calls by users (in the loop's own thread or another one), by the loop, and by the
    * owner of the connection. A callback runs its user's calls as steps of their own. */
  datatype Event =
    | Establish
    | QueueEstablish
    | QueueDestroy
    | SendLocal(msg: seq<Byte>, wr: WriteResult)
    | SendRemote(msg: seq<Byte>)
    | ShutdownLocal
    | ShutdownRemote
    | ForceClose
    | DelayForceClose
    | StartReadLocal
    | StopReadLocal
    | StartReadRemote
    | StopReadRemote
    | Consume(len: int)
    | Poll(report: Option<set<P.Flag>>)
    | TakeEvent
    | Dispatch(rr: ReadResult, wr: WriteResult)
    | Swap
    | RunFunctor(wr: WriteResult)
    | EndRound

  function Queue(c: Conn, t: Task): Conn { c.(q := c.q.(tasks := c.q.tasks + [t])) }

  /** Calls that write nothing: they change state, the read mask or the queue. */
  function Call(c: Conn, e: Event): Conn {
    match e
    case SendRemote(m) =>
      if c.state.Connected? && |m| > 0
      then c.(q := c.q.(tasks := c.q.tasks + [SendTask(m)], offered := c.q.offered + [m])) else c
    case ShutdownLocal => if c.state.Connected? then ShutdownInLoop(c.(state := Disconnecting)) else c
    case ShutdownRemote => if c.state.Connected? then Queue(c.(state := Disconnecting), ShutdownTask) else c
    case ForceClose => if c.Live() then Queue(c.(state := Disconnecting), ForceCloseTask) else c
    case DelayForceClose => if c.Live() then c.(state := Disconnecting) else c
    case StartReadLocal => StartReadInLoop(c)
    case StopReadLocal => StopReadInLoop(c)
    case StartReadRemote => Queue(c, StartReadTask)
    case StopReadRemote => Queue(c, StopReadTask)
    case Consume(len) =>
      if 0 <= len < |c.rx.input|
      then c.(rx := c.rx.(consumed := c.rx.consumed + c.rx.input[..len], input := c.rx.input[len..]))
      else c.(rx := c.rx.(consumed := c.rx.consumed + c.rx.input, input := []))
    case _ => c
  }

  predicate IsCall(e: Event) {
    !FromLoop(e) && !e.Establish? && !e.SendLocal? && !e.QueueEstablish? && !e.QueueDestroy?
  }

  /** What the loop and the kernel do with no one calling anything. */
  predicate FromLoop(e: Event) {
    e.Poll? || e.TakeEvent? || e.Dispatch? || e.Swap? || e.RunFunctor? || e.EndRound?
  }

  /** The head of the queue taken off, and off the batch. */
  function Popped(c: Conn): Conn
    requires |c.q.tasks| > 0
  {
    var phase := if c.q.phase.Functors? && c.q.phase.left > 0 then Functors(c.q.phase.left - 1) else c.q.phase;
    c.(q := c.q.(tasks := c.q.tasks[1..], phase := phase))
  }

  /** A handler taken off those due. */
  function Undue(c: Conn): Conn
    requires |c.q.due| > 0
  {
    c.(q := c.q.(due := c.q.due[1..]))
  }

  /** The steps of the loop's round that touch nothing but its own place in it. */
  function Round(q: Loop, e: Event): Loop {
    match e
    case Poll(report) => q.(phase := Handling(report))
    case TakeEvent =>
      if q.phase.Handling? && q.phase.report.Some?
      then q.(phase := Handling(None), due := Handlers(q.phase.report.value)) else q
    case Swap => q.(phase := Functors(|q.tasks|))
    case EndRound => q.(phase := AtPoll)
    case QueueEstablish => q.(tasks := q.tasks + [EstablishTask], owner := Begun)
    case QueueDestroy => Ending(q)
    case _ => q
  }

  predicate IsRound(e: Event) {
    e.Poll? || e.TakeEvent? || e.Swap? || e.EndRound? || e.QueueEstablish? || e.QueueDestroy?
  }

  /** A failed assertion ends the process: nothing moves afterwards. */
  function Step(c: Conn, e: Event): Conn {
    if c.aborted then c else
    match e
    case Establish => ConnectEstablished(c.(q := c.q.(owner := Begun)))
    case SendLocal(m, wr) => if c.state.Connected? && |m| > 0 then SendInLoop(c, m, wr, false) else c
    case Dispatch(rr, wr) => if |c.q.due| == 0 then c else Handle(Undue(c), c.q.due[0], rr, wr)
    case RunFunctor(wr) => if |c.q.tasks| == 0 then c else RunTask(Popped(c), c.q.tasks[0], wr)
    case _ => if IsRound(e) then c.(q := Round(c.q, e)) else Call(c, e)
  }

  /** The kernel's side of a write of len bytes: never more than asked for, and EPIPE
    * once this end has been shut down. */
  predicate WriteOk(c: Conn, len: nat, r: WriteResult) {
    match r
    case Wrote(n) => n <= len && !c.tx.fin
    case WriteFailed(err) => c.tx.fin ==> err.BrokenPipe?
  }

  /** Flags the kernel may report: those asked for, and hang-up and error always. */
  function Reportable(c: Conn): set<P.Flag> {
    (if c.ch.reading then P.READ_EVENT else {}) + (if c.ch.writing then P.WRITE_EVENT else {}) + {P.Hup, P.Err}
  }

  /** What the loop and the kernel can do. A round polls, handles what was reported, then runs
    * the whole queue as it stood; only a watched descriptor is reported, with the flags
    * asked for at the poll. Calls in the loop's own thread are made while it is not in poll.
    * The owner establishes once, and destroys once what it has been told is closed. */
  predicate Legal(c: Conn, e: Event) {
    match e
    case Establish => c.q.owner.Untouched? && !c.q.phase.AtPoll?
    case QueueEstablish => c.q.owner.Untouched?
    case QueueDestroy => c.q.owner.Begun? && CloseNotified in c.notes
    case SendLocal(m, wr) => !c.q.phase.AtPoll? && WriteOk(c, |m|, wr)
    case ShutdownLocal => !c.q.phase.AtPoll?
    case StartReadLocal => !c.q.phase.AtPoll?
    case StopReadLocal => !c.q.phase.AtPoll?
    case Poll(report) =>
      c.q.phase.AtPoll? && (report.Some? ==> c.ch.index.Added? && report.value <= Reportable(c))
    case TakeEvent => c.q.phase.Handling? && c.q.phase.report.Some? && |c.q.due| == 0
    case Dispatch(rr, wr) => |c.q.due| > 0 && WriteOk(c, |c.tx.out|, wr) && (rr.Got? ==> |rr.data| > 0)
    case Swap => c.q.phase == Handling(None) && |c.q.due| == 0
    case RunFunctor(wr) =>
      && c.q.phase.Functors? && c.q.phase.left > 0 && |c.q.tasks| > 0
      && (c.q.tasks[0].SendTask? ==> WriteOk(c, |c.q.tasks[0].msg|, wr))
    case EndRound => c.q.phase == Functors(0)
    case _ => true
  }

  function Run(c: Conn, evs: seq<Event>): Conn
    decreases evs
  {
    if evs == [] then c else Run(Step(c, evs[0]), evs[1..])
  }

  predicate LegalRun(c: Conn, evs: seq<Event>)
    decreases evs
  {
    evs == [] || (Legal(c, evs[0]) && LegalRun(Step(c, evs[0]), evs[1..]))
  }
}
