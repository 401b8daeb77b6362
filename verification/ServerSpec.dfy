/** The server, its connections, and the loops they live on. Each connection is the whole
  * state of ConnectionSpec.dfy, with its own loop's rounds and every functor queued there
  * for it; the server owns the map, and the base loop's part of the hand-over. */
module Servers {
  import opened LoopPools
  import C = Connections

  /** What has happened to a connection, in order. */
  datatype Mark = Created | Established | Closed | Erased | Destroyed

  /** A connection, the loop it lives on, and its histories. */
  datatype Peer = Peer(conn: C.Conn, home: nat, hist: seq<C.Event>, log: seq<Mark>)

  /** The TcpServer's fields; cfg is what it sets on every connection it makes. */
  datatype Server = Server(connections: set<nat>, nextId: nat, nextLoop: nat, cfg: C.Config)

  /** Loop 0 is the base loop, 1 to threads are the pool's; removes is what is queued on the
    * base loop of removeConnectionInLoop. */
  datatype Sys = Sys(server: Server, threads: nat, peers: map<nat, Peer>, removes: seq<nat>, aborted: bool)

  function Init(threads: nat, cfg: C.Config): Sys {
    Sys(Server({}, 1, 0, cfg), threads, map[], [], false)
  }

  function Abort(c: Sys): Sys { c.(aborted := true) }

  /** On the base loop the server is an owner on the connection's own loop. */
  function ConfigAt(cfg: C.Config, home: nat): C.Config { cfg.(ownerHere := home == 0) }

  /** A connection takes a step of its own; a failed assertion in it ends the process. */
  function Emit(c: Sys, id: nat, e: C.Event, marks: seq<Mark>): Sys
    requires id in c.peers
  {
    var p := c.peers[id];
    var conn := C.Step(p.conn, e);
    c.(peers := c.peers[id := Peer(conn, p.home, p.hist + [e], p.log + marks)], aborted := c.aborted || conn.aborted)
  }

  /** handleClose has just called the close callback. */
  predicate Closes(a: C.Conn, b: C.Conn) {
    multiset(b.notes)[C.CloseNotified] > multiset(a.notes)[C.CloseNotified]
  }

  predicate Runs(a: C.Conn, e: C.Event, t: C.Task) { e.RunFunctor? && |a.q.tasks| > 0 && a.q.tasks[0] == t }

  /** The mark a connection's own step leaves. */
  function Passed(a: C.Conn, e: C.Event): seq<Mark> {
    if Runs(a, e, C.EstablishTask) then [Established]
    else if Runs(a, e, C.DestroyTask) then [Destroyed]
    else if Closes(a, C.Step(a, e)) then [Closed]
    else []
  }

  /** connections_.erase: exactly one entry must go. */
  function Erase(c: Sys, id: nat): Sys
    requires id in c.peers
  {
    if id !in c.server.connections then Abort(c)
    else
      c.(server := c.server.(connections := c.server.connections - {id}),
         peers := c.peers[id := c.peers[id].(log := c.peers[id].log + [Erased])])
  }

  /** The close callback, on the connection's loop. On the base loop removeConnectionInLoop
    * runs at once, and handleClose has queued connectDestroyed there already. */
  function RemoveConnection(c: Sys, id: nat): Sys
    requires id in c.peers
  {
    if c.peers[id].home == 0 then Erase(c, id) else c.(removes := c.removes + [id])
  }

  function OnConnection(c: Sys, id: nat, e: C.Event): Sys
    requires id in c.peers
  {
    var d := Emit(c, id, e, Passed(c.peers[id].conn, e));
    if Closes(c.peers[id].conn, C.Step(c.peers[id].conn, e)) then RemoveConnection(d, id) else d
  }

  /** removeConnectionInLoop, as a functor of the base loop: connectDestroyed is queued on
    * the connection's own. */
  function RemoveInLoop(c: Sys, id: nat): Sys
    requires id in c.peers
  {
    if Erase(c, id).aborted then Erase(c, id) else Emit(Erase(c, id), id, C.QueueDestroy, [])
  }

  /** The base loop establishes its own connection at once, and has another loop do it. */
  function Starting(home: nat): C.Event { if home == 0 then C.Establish else C.QueueEstablish }

  function Newcomer(c: Sys): Peer {
    var home := Pick(c.threads, c.server.nextLoop).0;
    var conn := C.Step(C.Fresh(ConfigAt(c.server.cfg, home)), Starting(home));
    Peer(conn, home, [Starting(home)], if home == 0 then [Created, Established] else [Created])
  }

  function NewConnection(c: Sys): Sys {
    c.(server := Server(c.server.connections + {c.server.nextId}, c.server.nextId + 1,
                        Pick(c.threads, c.server.nextLoop).1, c.server.cfg),
       peers := c.peers[c.server.nextId := Newcomer(c)], aborted := c.aborted || Newcomer(c).conn.aborted)
  }

  /** Accepting on the base loop; anything that happens to one connection, on its loop or by
    * a call from any thread; and the base loop's next removeConnectionInLoop. */
  datatype Event = Accept | OnConn(id: nat, e: C.Event) | RunRemove

  function Step(c: Sys, ev: Event): Sys {
    if c.aborted then c else
    match ev
    case Accept => NewConnection(c)
    case OnConn(id, e) => if id in c.peers then OnConnection(c, id, e) else c
    case RunRemove =>
      if |c.removes| > 0 && c.removes[0] in c.peers
      then RemoveInLoop(c.(removes := c.removes[1..]), c.removes[0]) else c
  }

  predicate Legal(c: Sys, ev: Event) {
    match ev
    case Accept => true
    case OnConn(id, e) =>
      id in c.peers && C.Legal(c.peers[id].conn, e) && !e.Establish? && !e.QueueEstablish? && !e.QueueDestroy?
    case RunRemove => |c.removes| > 0
  }

  function Run(c: Sys, evs: seq<Event>): Sys
    decreases evs
  {
    if evs == [] then c else Run(Step(c, evs[0]), evs[1..])
  }

  predicate LegalRun(c: Sys, evs: seq<Event>)
    decreases evs
  {
    evs == [] || (Legal(c, evs[0]) && LegalRun(Step(c, evs[0]), evs[1..]))
  }
}
