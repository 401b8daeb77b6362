/** The server as an object, in the source's own steps; each method is the step of
  * ServerSpec.dfy that the whole-run theorems are about. */
module TcpServers {
  import opened LoopPools
  import opened Servers
  import C = Connections

  /** The loops, and the connection objects they share. What is queued of one connection's
    * functors is part of that connection; removes is the base loop's removeConnectionInLoop. */
  class Loops {
    var peers: map<nat, Peer>
    var removes: seq<nat>
    var aborted: bool

    constructor ()
      ensures peers == map[] && removes == [] && !aborted
    {
      peers, removes, aborted := map[], [], false;
    }
  }

  class TcpServer {
    const loops: Loops
    const threadPool: EventLoopThreadPool
    const cfg: C.Config
    var connections: set<nat>
    var nextConnId: nat

    constructor (w: Loops, pool: EventLoopThreadPool, cfg: C.Config)
      ensures loops == w && threadPool == pool && this.cfg == cfg && connections == {} && nextConnId == 1
    {
      loops, threadPool, this.cfg := w, pool, cfg;
      connections, nextConnId := {}, 1;
    }

    function View(): Sys
      reads this, threadPool, loops
    {
      Sys(Server(connections, nextConnId, threadPool.next, cfg), |threadPool.loops|,
          loops.peers, loops.removes, loops.aborted)
    }

    method Emit(id: nat, e: C.Event, marks: seq<Mark>)
      requires id in loops.peers
      modifies loops`peers, loops`aborted
      ensures View() == Servers.Emit(old(View()), id, e, marks) && id in loops.peers
    {
      var p := loops.peers[id];
      var conn := C.Step(p.conn, e);
      loops.peers := loops.peers[id := Peer(conn, p.home, p.hist + [e], p.log + marks)];
      loops.aborted := loops.aborted || conn.aborted;
    }

    /** Accepted on the base loop, which establishes the connection itself if it is the
      * connection's loop too. */
    method NewConnection()
      requires threadPool.Valid()
      modifies this, threadPool, loops
      ensures threadPool.Valid() && View() == Servers.NewConnection(old(View()))
    {
      hide C.Step;
      var ioLoop := threadPool.GetNextLoop();
      var id := nextConnId;
      nextConnId := nextConnId + 1;
      var starting := if ioLoop == 0 then C.Establish else C.QueueEstablish;
      var conn := C.Step(C.Fresh(cfg.(ownerHere := ioLoop == 0)), starting);
      var log := if ioLoop == 0 then [Created, Established] else [Created];
      loops.peers := loops.peers[id := Peer(conn, ioLoop, [starting], log)];
      loops.aborted := loops.aborted || conn.aborted;
      connections := connections + {id};
    }

    /** connections_.erase. */
    method Erase(id: nat)
      requires id in loops.peers
      modifies this`connections, loops`peers, loops`aborted
      ensures View() == Servers.Erase(old(View()), id)
      ensures loops.aborted <==> old(loops.aborted) || id !in old(connections)
      ensures id in loops.peers
    {
      if id in connections {
        connections := connections - {id};
        var p := loops.peers[id];
        loops.peers := loops.peers[id := p.(log := p.log + [Erased])];
      } else {
        loops.aborted := true;
      }
    }

    /** removeConnectionInLoop, run as a functor of the base loop: the end is queued on the
      * connection's loop. */
    method RemoveConnectionInLoop(id: nat)
      requires id in loops.peers
      modifies this`connections, loops`peers, loops`aborted
      ensures View() == RemoveInLoop(old(View()), id)
    {
      hide C.Step;
      Erase(id);
      if !loops.aborted {
        Emit(id, C.QueueDestroy, []);
      }
    }

    /** The close callback, run in the connection's own loop; a handler on the base loop has
      * the end queued there with the erase. */
    method RemoveConnection(id: nat)
      requires id in loops.peers
      modifies this`connections, loops
      ensures View() == Servers.RemoveConnection(old(View()), id)
    {
      if loops.peers[id].home == 0 {
        Erase(id);
      } else {
        loops.removes := loops.removes + [id];
      }
    }

    /** Anything that happens to one connection, with its close callback. */
    method OnConnection(id: nat, e: C.Event)
      requires id in loops.peers && !loops.aborted
      modifies this`connections, loops
      ensures View() == Step(old(View()), OnConn(id, e))
    {
      hide C.Step, Closes, Passed, Servers.Emit, Servers.RemoveConnection;
      var p := loops.peers[id];
      var closes := Closes(p.conn, C.Step(p.conn, e));
      Emit(id, e, Passed(p.conn, e));
      if closes {
        RemoveConnection(id);
      }
    }

    /** The next functor of the base loop's own. */
    method RunRemove()
      requires |loops.removes| > 0 && loops.removes[0] in loops.peers && !loops.aborted
      modifies this`connections, loops
      ensures View() == Step(old(View()), Event.RunRemove)
    {
      hide RemoveInLoop;
      var id := loops.removes[0];
      loops.removes := loops.removes[1..];
      RemoveConnectionInLoop(id);
    }
  }
}
