/** The connector and the client that owns it, on one loop: sockets, the connecting
  * channel, retries, and the functors whose order the deferred reset relies on. */
module Connectors {
  import opened Prelude

  const MAX_RETRY_DELAY_MS: int := 30_000
  const INIT_RETRY_DELAY_MS: int := 500

  datatype State = Disconnected | Connecting | Connected

  /** What connect(2) returns, by the branches of the switch. */
  datatype ConnectResult = Underway | Refused | Fatal

  datatype Task = StartTask | StopTask | ResetTask | ForceCloseTask(sock: nat) | DestroyTask(sock: nat)

  /** A socket is held by the connecting channel, closed by the connector, handed to a
    * connection, or released with the connection that had it. */
  datatype Fate = Held | Closed | Handed | Released

  datatype Owner = ByConnector | ByConnection

  /** The Connector's fields; the channel is named by its socket. */
  datatype Core = Core(state: State, connect: bool, channel: Option<nat>, delay: int)

  /** The TcpClient's fields; restarting: between its check of retry_ && connect_ and the
    * call of restart() that follows; told: the connections it has asked to shut down. */
  datatype Client = Client(connect: bool, retry: bool, connection: Option<nat>, restarting: bool, told: seq<nat>)

  /** The loop: queued functors, how many of them form the batch being run, whether the
    * loop is running functors or handling events, whether the connection was made in
    * this round, and retry timers set in earlier rounds and in this one. */
  datatype Loop = Loop(tasks: seq<Task>, batch: nat, functors: bool, justMade: bool, ripe: nat, unripe: nat)

  /** Every socket opened, numbered in order, and the channels the poller knows. */
  datatype Kernel = Kernel(fates: map<nat, Fate>, table: map<nat, Owner>, next: nat)

  /** delays: the retries scheduled since construction or the last restart. */
  datatype Sys = Sys(core: Core, client: Client, q: Loop, k: Kernel, delays: seq<int>, aborted: bool)

  /** After start() from another thread. */
  function Init(retry: bool): Sys {
    Sys(Core(Disconnected, true, None, INIT_RETRY_DELAY_MS), Client(true, retry, None, false, []),
        Loop([StartTask], 0, true, false, 0, 0), Kernel(map[], map[], 0), [], false)
  }

  /** Where start() is called: in another thread, or in the loop's own, in a functor or in
    * a handler, and then what connect(2) says at once. */
  datatype Caller = OtherThread | LoopThread(inFunctor: bool, res: ConnectResult)

  /** After start(): its functor is queued, or has run. */
  function Begin(retry: bool, caller: Caller): Sys {
    match caller
    case OtherThread => Init(retry)
    case LoopThread(inFunctor, res) => StartInLoop(Idle(retry, inFunctor), res)
  }

  function Idle(retry: bool, inFunctor: bool): Sys {
    Init(retry).(q := Loop([], 0, inFunctor, false, 0, 0))
  }

  // ------------------------------------------------------------- handlers

  function Abort(c: Sys): Sys { c.(aborted := true) }

  function Queue(c: Sys, t: Task): Sys { c.(q := c.q.(tasks := c.q.tasks + [t])) }

  /** Closing is right only for a socket held, whose channel the poller has forgotten. */
  function Close(c: Sys, s: nat): Sys {
    if s in c.k.fates && c.k.fates[s].Held? && s !in c.k.table
    then c.(k := c.k.(fates := c.k.fates[s := Closed])) else Abort(c)
  }

  /** updateChannel for a new channel: the descriptor must be free. */
  function Register(c: Sys, s: nat, owner: Owner): Sys {
    if s in c.k.table then Abort(c) else c.(k := c.k.(table := c.k.table[s := owner]))
  }

  /** Channel::remove. */
  function Unregister(c: Sys, s: nat, owner: Owner): Sys {
    if s in c.k.table && c.k.table[s] == owner then c.(k := c.k.(table := c.k.table - {s})) else Abort(c)
  }

  function Retry(c: Sys, s: nat): Sys {
    var d := Close(c, s);
    var e := d.(core := d.core.(state := Disconnected));
    if !e.core.connect then e
    else
      e.(q := e.q.(unripe := e.q.unripe + 1), delays := e.delays + [e.core.delay],
         core := e.core.(delay := Min(e.core.delay * 2, MAX_RETRY_DELAY_MS)))
  }

  function BeginConnecting(c: Sys, s: nat): Sys {
    if c.core.channel.Some? then Abort(c.(core := c.core.(state := Connecting)))
    else Register(c.(core := c.core.(state := Connecting, channel := Some(s))), s, ByConnector)
  }

  function Open(c: Sys): Sys {
    c.(k := c.k.(fates := c.k.fates[c.k.next := Held], next := c.k.next + 1))
  }

  function Connect(c: Sys, res: ConnectResult): Sys {
    match res
    case Underway => BeginConnecting(Open(c), c.k.next)
    case Refused => Retry(Open(c), c.k.next)
    case Fatal => Close(Open(c), c.k.next)
  }

  function StartInLoop(c: Sys, res: ConnectResult): Sys {
    if !c.core.state.Disconnected? then Abort(c)
    else if c.core.connect then Connect(c, res) else c
  }

  function RemoveAndResetChannel(c: Sys): Sys {
    if c.core.channel.None? then Abort(c)
    else Queue(Unregister(c, c.core.channel.value, ByConnector), ResetTask)
  }

  /** TcpClient::newConnection: the connection registers a channel of its own. */
  function NewConnection(c: Sys, s: nat): Sys {
    Register(c.(k := c.k.(fates := c.k.fates[s := Handed]),
                client := c.client.(connection := Some(s)), q := c.q.(justMade := true)), s, ByConnection)
  }

  function HandleWrite(c: Sys, failed: bool): Sys {
    if c.core.state.Connecting? && c.core.channel.Some? then
      var s := c.core.channel.value;
      var d := RemoveAndResetChannel(c);
      if failed then Retry(d, s)
      else
        var e := d.(core := d.core.(state := Connected));
        if e.core.connect then NewConnection(e, s) else Close(e, s)
    else if c.core.state.Disconnected? then c else Abort(c)
  }

  function HandleError(c: Sys): Sys {
    if c.core.state.Connecting? && c.core.channel.Some?
    then Retry(RemoveAndResetChannel(c), c.core.channel.value)
    else if c.core.state.Connecting? then Abort(c) else c
  }

  /** One event on the connecting channel, which may be both in error and writable. */
  function ChannelEvent(c: Sys, err: bool, writable: bool, failed: bool): Sys {
    var d := if err then HandleError(c) else c;
    if writable then HandleWrite(d, failed) else d
  }

  function StopInLoop(c: Sys): Sys {
    if !c.core.state.Connecting? then c
    else if c.core.channel.None? then Abort(c)
    else Retry(RemoveAndResetChannel(c.(core := c.core.(state := Disconnected))), c.core.channel.value)
  }

  function Restart(c: Sys, res: ConnectResult): Sys {
    StartInLoop(c.(core := c.core.(state := Disconnected, delay := INIT_RETRY_DELAY_MS, connect := true),
                   delays := [], client := c.client.(restarting := false)), res)
  }

  /** TcpClient::removeConnection up to its check. */
  function ConnectionClosed(c: Sys): Sys {
    if c.client.connection.None? then Abort(c)
    else
      Queue(c.(client := c.client.(connection := None, restarting := c.client.retry && c.client.connect)),
            DestroyTask(c.client.connection.value))
  }

  /** The old channel object dies; it must not be known to the poller any more. */
  function ResetChannel(c: Sys): Sys {
    if c.core.channel.Some? && c.core.channel.value in c.k.table && c.k.table[c.core.channel.value].ByConnector?
    then Abort(c) else c.(core := c.core.(channel := None))
  }

  /** connectDestroyed, after which the connection lets go of its socket. */
  function ConnectDestroyed(c: Sys, s: nat): Sys {
    var d := Unregister(c, s, ByConnection);
    d.(k := d.k.(fates := d.k.fates[s := Released]))
  }

  function RunTask(c: Sys, t: Task, res: ConnectResult): Sys {
    match t
    case StartTask => StartInLoop(c, res)
    case StopTask => StopInLoop(c)
    case ResetTask => ResetChannel(c)
    case ForceCloseTask(s) => if c.client.connection == Some(s) then ConnectionClosed(c) else c
    case DestroyTask(s) => ConnectDestroyed(c, s)
  }

  /** disconnect(): no reconnection, and the connection there is, if any, is shut down. */
  function Disconnecting(cl: Client): Client {
    cl.(connect := false, told := cl.told + (if cl.connection.Some? then [cl.connection.value] else []))
  }

  // ---------------------------------------------------------------- steps

  datatype Event =
    | NextRound
    | SwapBatch
    | RunFunctor(res: ConnectResult)
    | TimerFires(res: ConnectResult)
    | TimerFiresEarly(res: ConnectResult)
    | OnChannel(err: bool, writable: bool, failed: bool)
    | ConnectionEvent
    | DoRestart(res: ConnectResult)
    | ForceClose
    | Stop
    | Disconnect

  function Step(c: Sys, e: Event): Sys {
    if c.aborted then c else
    match e
    case NextRound => c.(q := c.q.(functors := false, justMade := false, ripe := c.q.ripe + c.q.unripe, unripe := 0))
    case SwapBatch => c.(q := c.q.(functors := true, batch := |c.q.tasks|))
    case RunFunctor(res) =>
      if |c.q.tasks| == 0 || c.q.batch == 0 then c
      else RunTask(c.(q := c.q.(tasks := c.q.tasks[1..], batch := c.q.batch - 1)), c.q.tasks[0], res)
    case TimerFires(res) => if c.q.ripe == 0 then c else StartInLoop(c.(q := c.q.(ripe := c.q.ripe - 1)), res)
    case TimerFiresEarly(res) =>
      if c.q.unripe == 0 then c else StartInLoop(c.(q := c.q.(unripe := c.q.unripe - 1)), res)
    case OnChannel(err, writable, failed) => ChannelEvent(c, err, writable, failed)
    case ConnectionEvent => ConnectionClosed(c)
    case DoRestart(res) => Restart(c, res)
    case ForceClose => if c.client.connection.Some? then Queue(c, ForceCloseTask(c.client.connection.value)) else c
    case Stop =>
      Queue(c.(client := c.client.(connect := false), core := c.core.(connect := false)), StopTask)
    case Disconnect => c.(client := Disconnecting(c.client))
  }

  /** The loop thread is in the middle of nothing while other threads may act at any time;
    * only a registered channel is reported, and a connection made in this round has not
    * been polled yet. */
  predicate Legal(c: Sys, e: Event) {
    match e
    case NextRound => c.q.functors && c.q.batch == 0 && !c.client.restarting
    case SwapBatch => !c.q.functors && !c.client.restarting
    case RunFunctor(_) => c.q.functors && c.q.batch > 0 && !c.client.restarting
    case TimerFires(_) => !c.q.functors && c.q.ripe > 0 && !c.client.restarting
    case TimerFiresEarly(_) => !c.q.functors && c.q.unripe > 0 && !c.client.restarting
    case OnChannel(_, _, _) =>
      && !c.q.functors && !c.client.restarting && c.core.channel.Some?
      && c.core.channel.value in c.k.table && c.k.table[c.core.channel.value].ByConnector?
    case ConnectionEvent => !c.q.functors && c.client.connection.Some? && !c.q.justMade && !c.client.restarting
    case DoRestart(_) => c.client.restarting
    case ForceClose => true
    case Stop => true
    case Disconnect => true
  }

  /** Ordinary scheduling: a retry timer, set at least half a second ahead, does not fire in
    * the round that set it, and stop() does not fall between removeConnection's check and
    * the restart it leads to. */
  predicate Tame(c: Sys, e: Event) {
    !e.TimerFiresEarly? && !(e.Stop? && c.client.restarting)
  }

  function Run(c: Sys, evs: seq<Event>): Sys
    decreases evs
  {
    if evs == [] then c else Run(Step(c, evs[0]), evs[1..])
  }

  predicate LegalRun(c: Sys, evs: seq<Event>)
    decreases evs
  {
    evs == [] || (Legal(c, evs[0]) && LegalRun(Step(c, evs[0]), evs[1..]))
  }

  predicate TameRun(c: Sys, evs: seq<Event>)
    decreases evs
  {
    evs == [] || (Legal(c, evs[0]) && Tame(c, evs[0]) && TameRun(Step(c, evs[0]), evs[1..]))
  }
}
