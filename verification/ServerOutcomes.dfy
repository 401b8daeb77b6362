/** What a server's events come to for each connection, and in which order. */
module ServerOutcomes {
  import opened LoopPools
  import opened Servers
  import opened ServerProofs
  import C = Connections
  import T = ServerTheorems

  /** What an event is to connection id: its own step, connectEstablished run or queued when
    * it is accepted, or connectDestroyed queued when it is removed. */
  function Own(c: Sys, ev: Event, id: nat): seq<C.Event> {
    match ev
    case Accept =>
      if id != c.server.nextId then []
      else if Pick(c.threads, c.server.nextLoop).0 == 0 then [C.Establish] else [C.QueueEstablish]
    case OnConn(j, e) => if j == id then [e] else []
    case RunRemove => if |c.removes| > 0 && c.removes[0] == id then [C.QueueDestroy] else []
  }

  /** The connection an event removes from the base loop's queue, and the one it adds. */
  function Removed(c: Sys, ev: Event): seq<nat> {
    if ev.RunRemove? && |c.removes| > 0 then [c.removes[0]] else []
  }

  function ToRemove(c: Sys, ev: Event): seq<nat> {
    if ev.OnConn? && ev.id in c.peers && c.peers[ev.id].home != 0
       && Closes(c.peers[ev.id].conn, C.Step(c.peers[ev.id].conn, ev.e)) then [ev.id] else []
  }

  function History(c: Sys, id: nat): seq<C.Event> { if id in c.peers then c.peers[id].hist else [] }

  lemma AcceptHistory(c: Sys, id: nat)
    requires Inv(c)
    ensures var d := Step(c, Accept);
      History(d, id) == History(c, id) + Own(c, Accept, id) && d.removes == c.removes
      && d.server.nextId == c.server.nextId + 1 && c.server.nextId in d.peers && c.server.nextId in d.server.connections
  {
    AcceptIs(c);
    NewcomerStarts(c);
    assert forall h: seq<C.Event> :: h + [] == h && [] + h == h;
    hide PeerOk, Newcomer, Pick, Step;
  }

  lemma NewcomerStarts(c: Sys)
    ensures Newcomer(c).hist == if Pick(c.threads, c.server.nextLoop).0 == 0 then [C.Establish] else [C.QueueEstablish]
  {
    hide C.Step, Pick;
  }

  lemma ConnHistory(c: Sys, i: nat, e: C.Event, id: nat)
    requires Inv(c) && Legal(c, OnConn(i, e)) && !Breaks(c, OnConn(i, e))
    ensures var d := Step(c, OnConn(i, e));
      History(d, id) == History(c, id) + Own(c, OnConn(i, e), id) && d.removes == c.removes + ToRemove(c, OnConn(i, e))
      && d.server.nextId == c.server.nextId
  {
    OnConnAt(c, i, e);
    assert forall h: seq<C.Event> :: h + [] == h;
    hide Inv, PeerOk, Step, C.Step, C.Legal, Closes, Gains;
  }

  lemma RemoveHistory(c: Sys, id: nat)
    requires Inv(c) && Legal(c, RunRemove)
    ensures var d := Step(c, RunRemove);
      History(d, id) == History(c, id) + Own(c, RunRemove, id) && [c.removes[0]] + d.removes == c.removes
      && d.server.nextId == c.server.nextId
  {
    RemoveAt(c);
    assert forall h: seq<C.Event> :: h + [] == h;
    hide Inv, PeerOk, Step, C.Step, Genuine, LifeOk;
  }

  lemma StepHistory(c: Sys, ev: Event, id: nat)
    requires Inv(c) && Legal(c, ev) && !Step(c, ev).aborted
    ensures var d := Step(c, ev);
      && History(d, id) == History(c, id) + Own(c, ev, id)
      && Removed(c, ev) + d.removes == c.removes + ToRemove(c, ev)
      && d.server.nextId == c.server.nextId + (if ev.Accept? then 1 else 0)
  {
    StepInv(c, ev);
    hide Inv, Step, Breaks, Closes, C.Step, Own, History;
    var d := Step(c, ev);
    assert [] + d.removes == d.removes && c.removes + [] == c.removes;
    match ev {
      case Accept => AcceptHistory(c, id);
      case OnConn(i, e) => ConnHistory(c, i, e, id);
      case RunRemove => RemoveHistory(c, id);
    }
  }

  // Along a run.

  function OwnAlong(c: Sys, evs: seq<Event>, id: nat): seq<C.Event>
    decreases evs
  {
    if evs == [] then [] else Own(c, evs[0], id) + OwnAlong(Step(c, evs[0]), evs[1..], id)
  }

  function RemovedAlong(c: Sys, evs: seq<Event>): seq<nat>
    decreases evs
  {
    if evs == [] then [] else Removed(c, evs[0]) + RemovedAlong(Step(c, evs[0]), evs[1..])
  }

  function ToRemoveAlong(c: Sys, evs: seq<Event>): seq<nat>
    decreases evs
  {
    if evs == [] then [] else ToRemove(c, evs[0]) + ToRemoveAlong(Step(c, evs[0]), evs[1..])
  }

  function Accepts(evs: seq<Event>): nat {
    if evs == [] then 0 else (if evs[0].Accept? then 1 else 0) + Accepts(evs[1..])
  }

  lemma Then<X>(x: seq<X>, y: seq<X>, z: seq<X>, g: seq<X>, h: seq<X>, r: seq<X>, s: seq<X>)
    requires g + y == x + r && h + z == y + s
    ensures (g + h) + z == x + (r + s)
  {
    assert (g + h) + z == g + (h + z) && g + (y + s) == (g + y) + s && (x + r) + s == x + (r + s);
  }

  lemma Appended<X>(x: seq<X>, y: seq<X>, z: seq<X>, r: seq<X>, s: seq<X>)
    requires y == x + r && z == y + s
    ensures z == x + (r + s)
  {
  }

  /** The first step of a run that ends with nothing failed. */
  lemma FirstStep(c: Sys, evs: seq<Event>)
    requires Inv(c) && LegalRun(c, evs) && !Run(c, evs).aborted && evs != []
    ensures var d := Step(c, evs[0]);
      Legal(c, evs[0]) && !d.aborted && Inv(d) && LegalRun(d, evs[1..]) && Run(c, evs) == Run(d, evs[1..])
  {
    hide Inv, Step, Legal, Breaks;
    if Step(c, evs[0]).aborted { T.StaysAborted(Step(c, evs[0]), evs[1..]); }
    StepInv(c, evs[0]);
  }

  /** Over any run a connection has taken exactly the steps that were its own, in order. */
  lemma {:induction false} RunHistory(c: Sys, evs: seq<Event>, id: nat)
    requires Inv(c) && LegalRun(c, evs) && !Run(c, evs).aborted
    ensures History(Run(c, evs), id) == History(c, id) + OwnAlong(c, evs, id)
    decreases evs
  {
    if evs == [] {
      assert History(c, id) + [] == History(c, id);
    } else {
      var d := Step(c, evs[0]);
      FirstStep(c, evs);
      StepHistory(c, evs[0], id);
      hide Inv, Step, Legal, History, Own, Run, LegalRun;
      RunHistory(d, evs[1..], id);
      Appended(History(c, id), History(d, id), History(Run(d, evs[1..]), id), Own(c, evs[0], id),
               OwnAlong(d, evs[1..], id));
    }
  }

  /** Over any run the base loop removes connections in the order it is told of their
    * closes, each once, and each accept makes one connection. */
  lemma {:induction false} RunRemoves(c: Sys, evs: seq<Event>)
    requires Inv(c) && LegalRun(c, evs) && !Run(c, evs).aborted
    ensures RemovedAlong(c, evs) + Run(c, evs).removes == c.removes + ToRemoveAlong(c, evs)
    ensures Run(c, evs).server.nextId == c.server.nextId + Accepts(evs)
    decreases evs
  {
    if evs == [] {
      assert [] + c.removes == c.removes + [];
    } else {
      var d := Step(c, evs[0]);
      FirstStep(c, evs);
      StepHistory(c, evs[0], 0);
      hide Inv, Step, Legal, History, Own, Removed, ToRemove, Run, LegalRun;
      RunRemoves(d, evs[1..]);
      Then(c.removes, d.removes, Run(d, evs[1..]).removes, Removed(c, evs[0]), RemovedAlong(d, evs[1..]),
           ToRemove(c, evs[0]), ToRemoveAlong(d, evs[1..]));
    }
  }

  /** From construction: after n accepts there are connections 1 to n, and each is where its
    * own events, in order, bring a fresh connection. */
  lemma EachConnection(threads: nat, cfg: C.Config, evs: seq<Event>, id: nat)
    requires LegalRun(Init(threads, cfg), evs) && !T.After(threads, cfg, evs).aborted
    ensures id in T.After(threads, cfg, evs).peers <==> 1 <= id <= Accepts(evs)
    ensures 1 <= id <= Accepts(evs) ==>
              var p := T.After(threads, cfg, evs).peers[id];
              p.conn == C.Run(C.Fresh(ConfigAt(cfg, p.home)), OwnAlong(Init(threads, cfg), evs, id))
  {
    InitInv(threads, cfg);
    RunHistory(Init(threads, cfg), evs, id);
    RunRemoves(Init(threads, cfg), evs);
    T.AfterInv(threads, cfg, evs);
    assert [] + OwnAlong(Init(threads, cfg), evs, id) == OwnAlong(Init(threads, cfg), evs, id);
    if id in T.After(threads, cfg, evs).peers { T.OwnRun(threads, cfg, evs, id); }
  }
}
