/** What the server promises over whole runs. */
module ServerTheorems {
  import opened LoopPools
  import opened Servers
  import opened ServerProofs
  import C = Connections
  import CA = ConnectionAborts
  import CP = ConnectionProofs
  import CT = ConnectionTheorems

  function After(threads: nat, cfg: C.Config, evs: seq<Event>): Sys { Run(Init(threads, cfg), evs) }

  lemma AfterInv(threads: nat, cfg: C.Config, evs: seq<Event>)
    requires LegalRun(Init(threads, cfg), evs)
    ensures After(threads, cfg, evs).aborted || Inv(After(threads, cfg, evs))
    ensures SameShape(Init(threads, cfg), After(threads, cfg, evs))
  {
    hide Inv, Init, LegalRun, Run, SameShape;
    InitInv(threads, cfg);
    RunInv(Init(threads, cfg), evs);
    RunShape(Init(threads, cfg), evs);
  }

  predicate SameShape(c: Sys, d: Sys) { d.threads == c.threads && d.server.cfg == c.server.cfg }

  lemma StepShape(c: Sys, ev: Event)
    ensures SameShape(c, Step(c, ev))
  {
    hide C.Step, Closes, Pick, Newcomer, Passed;
    match ev {
      case OnConn(id, e) =>
        if id in c.peers && Closes(c.peers[id].conn, C.Step(c.peers[id].conn, e)) { if c.peers[id].home == 0 { } }
      case _ =>
    }
  }

  lemma {:induction false} RunShape(c: Sys, evs: seq<Event>)
    ensures SameShape(c, Run(c, evs))
    decreases evs
  {
    hide Step;
    if evs != [] {
      StepShape(c, evs[0]);
      RunShape(Step(c, evs[0]), evs[1..]);
    }
  }

  // ------------------------------------------------------------ the protocol

  /** In every run, whatever users and kernel do: as long as no connection has failed an
    * assertion of its own, none of the server's has, and each connection has gone some way
    * along created, established, closed, erased, destroyed, each once and in that order;
    * its up callback has run once if it was established, its down callback once if it
    * closed. */
  lemma Protocol(threads: nat, cfg: C.Config, evs: seq<Event>, id: nat)
    requires LegalRun(Init(threads, cfg), evs) && !After(threads, cfg, evs).aborted
    requires 1 <= id < After(threads, cfg, evs).server.nextId
    ensures var c := After(threads, cfg, evs);
      && id in c.peers && c.peers[id].log <= Canon()
      && multiset(c.peers[id].conn.notes)[C.Up] == (if Established in c.peers[id].log then 1 else 0)
      && multiset(c.peers[id].conn.notes)[C.Down] == (if Closed in c.peers[id].log then 1 else 0)
  {
    var c := After(threads, cfg, evs);
    AfterInv(threads, cfg, evs);
    assert PeerOk(c, id);
    GenuineFit(c.peers[id], c.server.cfg);
    Callbacks(c.peers[id].conn);
    Along(c.peers[id].log);
  }

  lemma Callbacks(x: C.Conn)
    requires Fit(x)
    ensures multiset(x.notes)[C.Up] == (if x.state.Connecting? then 0 else 1)
    ensures multiset(x.notes)[C.Down] == (if x.state.Disconnected? then 1 else 0)
  {
  }

  lemma Along(log: seq<Mark>)
    requires |log| <= 5 && log == Canon()[..|log|]
    ensures log <= Canon()
    ensures Established in log <==> |log| >= 2
    ensures Closed in log <==> |log| >= 3
    ensures Erased in log <==> |log| >= 4
    ensures Destroyed in log <==> |log| >= 5
  {
    assert |log| >= 2 ==> log[1] == Established;
    assert |log| >= 3 ==> log[2] == Closed;
    assert |log| >= 4 ==> log[3] == Erased;
    assert |log| >= 5 ==> log[4] == Destroyed;
  }

  /** The map holds exactly the connections created and not yet erased. */
  lemma ConnectionsAre(threads: nat, cfg: C.Config, evs: seq<Event>)
    requires LegalRun(Init(threads, cfg), evs) && !After(threads, cfg, evs).aborted
    ensures var c := After(threads, cfg, evs);
      forall id :: id in c.server.connections <==> id in c.peers && Erased !in c.peers[id].log
  {
    var c := After(threads, cfg, evs);
    AfterInv(threads, cfg, evs);
    hide Genuine, Run, LegalRun;
    forall id ensures id in c.server.connections <==> id in c.peers && Erased !in c.peers[id].log {
      if id in c.peers {
        assert PeerOk(c, id);
        Along(c.peers[id].log);
      }
    }
  }

  /** Each connection has had a legal run of its own, so what is proved of one connection
    * holds of every connection of a server, whatever the others and the loops did. */
  lemma OwnRun(threads: nat, cfg: C.Config, evs: seq<Event>, id: nat)
    requires LegalRun(Init(threads, cfg), evs) && !After(threads, cfg, evs).aborted
    requires id in After(threads, cfg, evs).peers
    ensures var p := After(threads, cfg, evs).peers[id];
      && C.LegalRun(C.Fresh(ConfigAt(cfg, p.home)), p.hist)
      && p.conn == C.Run(C.Fresh(ConfigAt(cfg, p.home)), p.hist)
      && p.conn.tx.wire + p.conn.tx.out == CP.Accepted(p.conn.tx.sent)
      && p.conn.rx.consumed + p.conn.rx.input == p.conn.rx.received
      && (p.conn.Live() ==> (p.conn.ch.writing <==> p.conn.tx.out != []))
  {
    var c := After(threads, cfg, evs);
    AfterInv(threads, cfg, evs);
    assert PeerOk(c, id);
    hide After, LegalRun;
    CT.StreamIntegrity(ConfigAt(cfg, c.peers[id].home), c.peers[id].hist);
  }

  // ------------------------------------------------------------------ placement

  lemma StepHomes(c: Sys, ev: Event)
    requires HomesOk(c)
    ensures HomesOk(Step(c, ev))
  {
    hide C.Step, Closes, Passed;
    match ev {
      case Accept => NextTurn(c); AcceptHomes(c);
      case OnConn(id, e) =>
        if id in c.peers && Closes(c.peers[id].conn, C.Step(c.peers[id].conn, e)) { if c.peers[id].home == 0 { } }
      case RunRemove =>
    }
  }

  lemma AcceptHomes(c: Sys)
    requires HomesOk(c)
    ensures HomesOk(Step(c, Accept))
  {
    hide C.Step;
    NextTurn(c);
    if !c.aborted {
      AcceptIs(c);
      assert Newcomer(c).home == Pick(c.threads, c.server.nextLoop).0;
      hide Pick, Newcomer, Step;
    }
  }

  lemma {:induction false} RunHomes(c: Sys, evs: seq<Event>)
    requires HomesOk(c)
    ensures HomesOk(Run(c, evs))
    decreases evs
  {
    hide Step, HomesOk;
    if evs != [] {
      StepHomes(c, evs[0]);
      RunHomes(Step(c, evs[0]), evs[1..]);
    }
  }

  /** In every sequence of events the id-th connection lives on the loop the round robin
    * gives the id-th call, or on the base loop if there is no pool. */
  lemma Placement(threads: nat, cfg: C.Config, evs: seq<Event>, id: nat)
    requires id in After(threads, cfg, evs).peers && id >= 1
    ensures After(threads, cfg, evs).peers[id].home == if threads == 0 then 0 else Served(threads, 0, id)[id - 1]
  {
    if threads > 0 {
      Residue(threads, 0, 0, 0);
      ServedInTurn(threads, 0, id, id - 1);
    }
    RunHomes(Init(threads, cfg), evs);
    RunShape(Init(threads, cfg), evs);
  }

  // ----------------------------------------------------- what a step touches

  /** The connection an event is about. */
  function Subject(c: Sys, ev: Event): nat
    requires Legal(c, ev)
  {
    match ev
    case Accept => c.server.nextId
    case OnConn(id, _) => id
    case RunRemove => c.removes[0]
  }

  /** What an event adds to its connection's log. */
  function Marks(c: Sys, ev: Event): seq<Mark>
    requires Legal(c, ev)
  {
    match ev
    case Accept => []
    case OnConn(id, e) => Gains(c.peers[id], e)
    case RunRemove => [Erased]
  }

  /** A step concerns one connection, whose log it may add to. */
  lemma StepTouches(c: Sys, ev: Event)
    requires Inv(c) && Legal(c, ev) && !Step(c, ev).aborted && !ev.Accept?
    ensures var d := Step(c, ev); var id := Subject(c, ev);
      && Others(c, d, id) && PeerOk(c, id) && PeerOk(d, id)
      && d.peers[id].log == c.peers[id].log + Marks(c, ev)
  {
    StepInv(c, ev);
    hide Breaks, Step, C.Step, Inv, C.Legal, Genuine, LifeOk, Gains, Others;
    match ev {
      case OnConn(id, e) =>
        OnConnPlaces(c, id, e);
        PeerIs(c, id);
        PeerIs(Step(c, ev), id);
      case RunRemove =>
        RemovePlaces(c);
        PeerIs(c, c.removes[0]);
        PeerIs(Step(c, ev), c.removes[0]);
    }
  }

  lemma PeerIs(c: Sys, id: nat)
    requires Inv(c) && id in c.peers
    ensures PeerOk(c, id)
  {
  }

  lemma RemovesAreKnown(c: Sys)
    requires Inv(c) && |c.removes| > 0
    ensures c.removes[0] in c.peers && PeerOk(c, c.removes[0]) && |c.peers[c.removes[0]].log| == 3
  {
    hide Genuine, LifeOk;
    assert c.removes[0] in c.removes;
    assert PeerOk(c, c.removes[0]);
  }

  /** What happens to two connections may happen in either order: how a loop's round takes
    * turns between its connections, or loops run side by side, leaves the same behind but for
    * the order in which the base loop is told of two closes. */
  lemma StepsCommute(c: Sys, i: nat, e: C.Event, j: nat, f: C.Event)
    requires Inv(c) && i != j && Legal(c, OnConn(i, e)) && Legal(c, OnConn(j, f))
    requires !Breaks(c, OnConn(i, e)) && !Breaks(c, OnConn(j, f))
    ensures var a, b := Step(c, OnConn(i, e)), Step(c, OnConn(j, f));
      && Legal(a, OnConn(j, f)) && !Breaks(a, OnConn(j, f)) && Legal(b, OnConn(i, e)) && !Breaks(b, OnConn(i, e))
      && var x, y := Step(a, OnConn(j, f)), Step(b, OnConn(i, e));
         x == y.(removes := x.removes) && multiset(x.removes) == multiset(y.removes)
  {
    var a, b := Step(c, OnConn(i, e)), Step(c, OnConn(j, f));
    ConnMoves(c, i, e);
    ConnMoves(c, j, f);
    hide Inv, Step, Moved;
    MovedElsewhere(c, i, e, j);
    MovedElsewhere(c, j, f, i);
    hide C.Step, C.Legal;
    ConnMoves(a, j, f);
    ConnMoves(b, i, e);
    MovesCommute(c, i, e, j, f);
  }

  lemma ConnMoves(c: Sys, id: nat, e: C.Event)
    requires Inv(c) && Legal(c, OnConn(id, e)) && !Breaks(c, OnConn(id, e))
    ensures Step(c, OnConn(id, e)) == Moved(c, c.peers[id], id, e) && Inv(Step(c, OnConn(id, e)))
  {
    StepInv(c, OnConn(id, e));
    OnConnAt(c, id, e);
    hide Inv, Step, C.Step, C.Legal, Closes, Onward, RemovesOk;
  }

  lemma MovedElsewhere(c: Sys, i: nat, e: C.Event, j: nat)
    requires i != j && i in c.peers && j in c.peers && Step(c, OnConn(i, e)) == Moved(c, c.peers[i], i, e)
    ensures j in Step(c, OnConn(i, e)).peers && Step(c, OnConn(i, e)).peers[j] == c.peers[j]
  {
    hide Step, C.Step, Closes, Onward;
  }

  lemma MovesCommute(c: Sys, i: nat, e: C.Event, j: nat, f: C.Event)
    requires i != j && i in c.peers && j in c.peers
    ensures var x := Moved(Moved(c, c.peers[i], i, e), c.peers[j], j, f);
      var y := Moved(Moved(c, c.peers[j], j, f), c.peers[i], i, e);
      x == y.(removes := x.removes) && multiset(x.removes) == multiset(y.removes)
  {
    hide C.Step, Closes, Onward;
    assert c.peers[i := Onward(c.peers[i], e)][j := Onward(c.peers[j], f)]
        == c.peers[j := Onward(c.peers[j], f)][i := Onward(c.peers[i], e)];
    assert c.server.connections - {i} - {j} == c.server.connections - {j} - {i};
  }

  /** EventLoop::removeChannel's assertion: a connection's channel leaves the poller only
    * in connectDestroyed, run as a functor of its own loop, with no handler of the round
    * still to run. */
  lemma LeavesInFunctor(c: Sys, ev: Event, id: nat)
    requires Inv(c) && Legal(c, ev) && !Step(c, ev).aborted
    requires id in c.peers && Known(c.peers[id].conn)
    ensures id in Step(c, ev).peers
    ensures !Known(Step(c, ev).peers[id].conn) ==>
              ev.OnConn? && ev.id == id && Runs(c.peers[id].conn, ev.e, C.DestroyTask) && c.peers[id].conn.q.due == []
  {
    if ev.Accept? {
      AcceptKeeps(c, id);
    } else {
      StepTouches(c, ev);
      var p := c.peers[id];
      PeerIs(c, id);
      if ev.OnConn? && ev.id == id {
        OwnStepKeeps(c, id, ev.e);
      } else if ev.RunRemove? && c.removes[0] == id {
        RemovePlaces(c);
        assert C.Step(p.conn, C.QueueDestroy).ch == p.conn.ch;
      }
    }
  }

  lemma OwnStepKeeps(c: Sys, id: nat, e: C.Event)
    requires Inv(c) && Legal(c, OnConn(id, e)) && !Step(c, OnConn(id, e)).aborted && Known(c.peers[id].conn)
    ensures id in Step(c, OnConn(id, e)).peers
    ensures !Known(Step(c, OnConn(id, e)).peers[id].conn) ==>
              Runs(c.peers[id].conn, e, C.DestroyTask) && c.peers[id].conn.q.due == []
  {
    var p := c.peers[id];
    PeerIs(c, id);
    GenuineFit(p, c.server.cfg);
    StepInv(c, OnConn(id, e));
    OnConnPlaces(c, id, e);
    NotAborted(p.conn);
    hide Inv, PeerOk, Step, Genuine, C.Step, Others, RemovesOk;
    if Runs(p.conn, e, C.EstablishTask) {
      EstablishLives(p.conn, e);
    } else if !Runs(p.conn, e, C.DestroyTask) {
      StepLife(p.conn, e);
    } else {
      NoneDue(p.conn);
    }
  }

  lemma NoneDue(x: C.Conn)
    requires Fit(x)
    ensures x.q.phase.Functors? ==> x.q.due == []
  {
    hide CP.Inv, CP.Owned;
  }

  lemma AcceptKeeps(c: Sys, id: nat)
    requires Inv(c) && id in c.peers
    ensures id in Step(c, Accept).peers && Step(c, Accept).peers[id] == c.peers[id]
  {
    AcceptIs(c);
    hide Step, Newcomer, Pick, PeerOk;
  }

  // ------------------------------------------------------------- never failing

  /** Each connection is used as ConnectionAborts.dfy asks. */
  predicate Ordinarily(c: Sys, ev: Event) {
    ev.OnConn? ==> ev.id in c.peers && CA.Calm(c.peers[ev.id].conn, ev.e)
  }

  predicate OrdinaryRun(c: Sys, evs: seq<Event>)
    decreases evs
  {
    evs == [] || (Legal(c, evs[0]) && Ordinarily(c, evs[0]) && OrdinaryRun(Step(c, evs[0]), evs[1..]))
  }

  ghost predicate AllSound(c: Sys) { forall id :: id in c.peers ==> CA.Sound(c.peers[id].conn) }

  lemma OrdinaryConn(c: Sys, id: nat, e: C.Event)
    requires Inv(c) && AllSound(c) && Legal(c, OnConn(id, e)) && Ordinarily(c, OnConn(id, e))
    ensures !Breaks(c, OnConn(id, e)) && AllSound(Step(c, OnConn(id, e)))
  {
    hide C.Step, C.Legal, CA.Sound, CA.Calm, Inv, Step;
    CA.StepSound(c.peers[id].conn, e);
    OnConnPlaces(c, id, e);
    hide RemovesOk;
  }

  lemma OrdinaryRemove(c: Sys)
    requires Inv(c) && AllSound(c) && Legal(c, RunRemove)
    ensures AllSound(Step(c, RunRemove))
  {
    RemovePlaces(c);
    RemovesAreKnown(c);
    var p := c.peers[c.removes[0]];
    EndsPeer(p, c.server.cfg);
    hide C.Step, C.Legal, CA.Sound, CA.Calm, Inv, Step, RemovesOk, PeerOk;
    QueueIsCalm(p.conn, C.QueueDestroy);
    CA.StepSound(p.conn, C.QueueDestroy);
  }

  lemma QueueIsCalm(x: C.Conn, e: C.Event)
    requires OwnersEvent(e)
    ensures CA.Calm(x, e)
  {
  }

  lemma OrdinaryAccept(c: Sys)
    requires Inv(c) && AllSound(c)
    ensures AllSound(Step(c, Accept))
  {
    AcceptIs(c);
    BornSound(c);
    hide Inv, Step, CA.Sound, Newcomer, Pick;
  }

  lemma BornSound(c: Sys)
    ensures CA.Sound(Newcomer(c).conn)
  {
    var home := Pick(c.threads, c.server.nextLoop).0;
    hide Pick, C.Step, CA.Sound, CA.Calm;
    var x := C.Fresh(ConfigAt(c.server.cfg, home));
    CA.FreshSound(ConfigAt(c.server.cfg, home));
    QueueIsCalm(x, Starting(home));
    CA.StepSound(x, Starting(home));
  }

  lemma StepSound(c: Sys, ev: Event)
    requires Inv(c) && AllSound(c) && Legal(c, ev) && Ordinarily(c, ev)
    ensures !Step(c, ev).aborted && Inv(Step(c, ev)) && AllSound(Step(c, ev))
  {
    StepInv(c, ev);
    hide Inv, AllSound, Step, Legal;
    match ev {
      case Accept => OrdinaryAccept(c);
      case OnConn(id, e) => OrdinaryConn(c, id, e);
      case RunRemove => OrdinaryRemove(c);
    }
  }

  /** With every connection used as it should be, no assertion fails in any run: every
    * establish meets a connecting connection, every erase its entry, every removal an empty
    * mask. */
  lemma {:induction false} NeverAborts(c: Sys, evs: seq<Event>)
    requires Inv(c) && AllSound(c) && OrdinaryRun(c, evs)
    ensures Inv(Run(c, evs)) && AllSound(Run(c, evs)) && !Run(c, evs).aborted
    decreases evs
  {
    assert !c.aborted;
    hide Inv, AllSound, Step, Legal, Ordinarily;
    if evs != [] {
      StepSound(c, evs[0]);
      NeverAborts(Step(c, evs[0]), evs[1..]);
    }
  }

  /** From construction: no assertion fails, the poller knows every connection established
    * and not destroyed, and whenever a loop polls it watches none but those that are up. */
  lemma ServerNeverAborts(threads: nat, cfg: C.Config, evs: seq<Event>)
    requires OrdinaryRun(Init(threads, cfg), evs)
    ensures var c := After(threads, cfg, evs);
      && !c.aborted
      && forall id :: id in c.peers ==>
           var p := c.peers[id];
           && (Established in p.log && Destroyed !in p.log ==> Known(p.conn))
           && (p.conn.q.phase.AtPoll? && p.conn.ch.index.Added? ==> p.conn.Live())
  {
    InitInv(threads, cfg);
    NeverAborts(Init(threads, cfg), evs);
    var c := After(threads, cfg, evs);
    hide Genuine, Run, OrdinaryRun;
    forall id | id in c.peers
      ensures var p := c.peers[id];
        && (Established in p.log && Destroyed !in p.log ==> Known(p.conn))
        && (p.conn.q.phase.AtPoll? && p.conn.ch.index.Added? ==> p.conn.Live())
    {
      assert PeerOk(c, id);
      Along(c.peers[id].log);
      if c.peers[id].conn.q.phase.AtPoll? && c.peers[id].conn.ch.index.Added? { CA.WatchedIsLive(c.peers[id].conn); }
    }
  }

  /** What the loops and the kernel do with no user calling anything. */
  predicate Unasked(ev: Event) { ev.OnConn? ==> C.FromLoop(ev.e) }

  /** Nothing else moves, and while every connection is sound none is used as it should not
    * be: whatever then fails was already under way. */
  ghost predicate Blameless(c: Sys, evs: seq<Event>)
    decreases evs
  {
    evs == [] ||
    (&& Unasked(evs[0]) && Legal(c, evs[0]) && (AllSound(c) ==> Ordinarily(c, evs[0]))
     && Blameless(Step(c, evs[0]), evs[1..]))
  }

  ghost predicate Doomed(c: Sys) { exists evs :: Blameless(c, evs) && Run(c, evs).aborted }

  lemma {:induction false} BlamelessIsOrdinary(c: Sys, evs: seq<Event>)
    requires Inv(c) && AllSound(c) && Blameless(c, evs)
    ensures OrdinaryRun(c, evs)
    decreases evs
  {
    hide Inv, AllSound, Step, Legal, Ordinarily;
    if evs != [] {
      StepSound(c, evs[0]);
      BlamelessIsOrdinary(Step(c, evs[0]), evs[1..]);
    }
  }

  lemma SoundIsSafe(c: Sys)
    requires Inv(c) && AllSound(c)
    ensures !Doomed(c)
  {
    hide Inv, AllSound, Step, Legal, Ordinarily;
    forall evs | Blameless(c, evs) ensures !Run(c, evs).aborted {
      BlamelessIsOrdinary(c, evs);
      NeverAborts(c, evs);
    }
  }

  /** The same events, happening to one connection of a server. */
  function OnAll(id: nat, evs: seq<C.Event>): seq<Event> {
    if evs == [] then [] else [OnConn(id, evs[0])] + OnAll(id, evs[1..])
  }

  lemma {:induction false} Embed(c: Sys, id: nat, evs: seq<C.Event>)
    requires id in c.peers && c.aborted == c.peers[id].conn.aborted && (!c.aborted ==> Inv(c))
    requires CA.Blameless(c.peers[id].conn, evs) && C.Run(c.peers[id].conn, evs).aborted
    ensures Blameless(c, OnAll(id, evs)) && Run(c, OnAll(id, evs)).aborted
    decreases evs
  {
    hide Step, C.Step, C.Legal, CA.Calm, CA.Sound, Inv;
    if evs != [] {
      var e := evs[0];
      StepConn(c, id, e);
      assert OnAll(id, evs)[1..] == OnAll(id, evs[1..]);
      Embed(Step(c, OnConn(id, e)), id, evs[1..]);
    }
  }

  lemma StepConn(c: Sys, id: nat, e: C.Event)
    requires id in c.peers && c.aborted == c.peers[id].conn.aborted && (!c.aborted ==> Inv(c))
    requires C.Legal(c.peers[id].conn, e) && C.FromLoop(e)
    ensures var d := Step(c, OnConn(id, e));
      && id in d.peers && d.peers[id].conn == C.Step(c.peers[id].conn, e)
      && d.aborted == d.peers[id].conn.aborted && (!d.aborted ==> Inv(d))
  {
    if c.aborted {
      CT.AbortedStep(c.peers[id].conn, e);
    } else {
      StepInv(c, OnConn(id, e));
      hide C.Step, C.Legal, Closes, Inv, Step;
      if Breaks(c, OnConn(id, e)) { BreaksAborts(c, OnConn(id, e)); } else { OnConnPlaces(c, id, e); }
    }
  }

  lemma StrayDooms(c: Sys, id: nat, e: C.Event)
    requires Inv(c) && AllSound(c) && Legal(c, OnConn(id, e)) && !CA.Calm(c.peers[id].conn, e)
    ensures Doomed(Step(c, OnConn(id, e)))
  {
    var x, d := c.peers[id].conn, Step(c, OnConn(id, e));
    StepInv(c, OnConn(id, e));
    hide Inv, AllSound, Step, C.Step, C.Legal, CA.Calm, CA.Sound, CA.Doomed;
    if Breaks(c, OnConn(id, e)) {
      assert Blameless(d, []) && Run(d, []).aborted;
    } else {
      SoundAt(c, id);
      OnConnPlaces(c, id, e);
      CA.UncalmDooms(x, e);
      DoomedConn(d, id);
    }
  }

  lemma SoundAt(c: Sys, id: nat)
    requires AllSound(c) && id in c.peers
    ensures CA.Sound(c.peers[id].conn)
  {
  }

  lemma DoomedConn(c: Sys, id: nat)
    requires Inv(c) && id in c.peers && CA.Doomed(c.peers[id].conn) && !c.peers[id].conn.aborted && !c.aborted
    ensures Doomed(c)
  {
    hide Inv;
    var evs :| CA.Blameless(c.peers[id].conn, evs) && C.Run(c.peers[id].conn, evs).aborted;
    Embed(c, id, evs);
    assert Blameless(c, OnAll(id, evs)) && Run(c, OnAll(id, evs)).aborted;
  }

  /** Exactly, in the rounds of every loop: a step uses its connection as it should if and
    * only if nothing that the loops and the kernel then do can fail an assertion. On the
    * base loop connectDestroyed is queued in the same round, and may come in time. */
  lemma OrdinaryIff(c: Sys, ev: Event)
    requires Inv(c) && AllSound(c) && Legal(c, ev)
    ensures Ordinarily(c, ev) <==> !Doomed(Step(c, ev))
  {
    if Ordinarily(c, ev) {
      StepSound(c, ev);
      hide Inv, AllSound, Step, Legal, Ordinarily, Doomed;
      SoundIsSafe(Step(c, ev));
    } else {
      StrayDooms(c, ev.id, ev.e);
    }
  }

  // ------------------------------------------------------- what is still to run

  /** Functors a connection still has to go through once it is where it is. */
  function Left(p: Peer): nat {
    if |p.log| == 1 then 1 else if |p.log| == 3 then 2 else if |p.log| == 4 then 1 else 0
  }

  function Work(peers: map<nat, Peer>, n: nat): nat {
    if n == 0 then 0 else Work(peers, n - 1) + (if n in peers then Left(peers[n]) else 0)
  }

  function ToDo(c: Sys): nat { Work(c.peers, c.server.nextId) }

  lemma {:induction false} WorkMoves(a: map<nat, Peer>, b: map<nat, Peer>, n: nat, id: nat)
    requires id in a && id in b && id >= 1
    requires forall j :: j != id ==> (j in a <==> j in b) && (j in a ==> Left(a[j]) == Left(b[j]))
    ensures Work(b, n) + (if id <= n then Left(a[id]) else 0) == Work(a, n) + (if id <= n then Left(b[id]) else 0)
  {
    if n > 0 { WorkMoves(a, b, n - 1, id); }
  }

  lemma {:induction false} WorkSame(a: map<nat, Peer>, b: map<nat, Peer>, n: nat)
    requires forall j :: j <= n ==> (j in a <==> j in b) && (j in a ==> a[j] == b[j])
    ensures Work(b, n) == Work(a, n)
  {
    if n > 0 { WorkSame(a, b, n - 1); }
  }

  lemma {:induction false} SomeWork(peers: map<nat, Peer>, n: nat, id: nat)
    requires id in peers && 1 <= id <= n
    ensures Work(peers, n) >= Left(peers[id])
  {
    if id < n { SomeWork(peers, n - 1, id); }
  }

  lemma {:induction false} NoWork(peers: map<nat, Peer>, n: nat)
    requires forall id :: id in peers ==> Left(peers[id]) == 0
    ensures Work(peers, n) == 0
  {
    if n > 0 { NoWork(peers, n - 1); }
  }

  /** One of the protocol's functors is run: connectEstablished, removeConnectionInLoop or
    * connectDestroyed. */
  predicate Functor(c: Sys, ev: Event) {
    || ev.RunRemove?
    || (ev.OnConn? && ev.id in c.peers
        && (Runs(c.peers[ev.id].conn, ev.e, C.EstablishTask) || Runs(c.peers[ev.id].conn, ev.e, C.DestroyTask)))
  }

  /** How many such functors an event makes necessary: a connection given to a loop of the
    * pool one, a close one on the base loop and two on another. */
  function Calls(c: Sys, ev: Event): nat {
    match ev
    case Accept => if Pick(c.threads, c.server.nextLoop).0 == 0 then 0 else 1
    case OnConn(id, e) =>
      if id in c.peers && Closes(c.peers[id].conn, C.Step(c.peers[id].conn, e))
      then (if c.peers[id].home == 0 then 1 else 2) else 0
    case RunRemove => 0
  }

  function Functors(c: Sys, evs: seq<Event>): nat
    decreases evs
  {
    if evs == [] then 0 else (if Functor(c, evs[0]) then 1 else 0) + Functors(Step(c, evs[0]), evs[1..])
  }

  function Called(c: Sys, evs: seq<Event>): nat
    decreases evs
  {
    if evs == [] then 0 else Calls(c, evs[0]) + Called(Step(c, evs[0]), evs[1..])
  }

  /** A functor of the protocol moves one connection one mark on, and no other connection. */
  lemma FunctorMoves(c: Sys, ev: Event)
    requires Inv(c) && Legal(c, ev) && !Step(c, ev).aborted && Functor(c, ev)
    ensures var id := Subject(c, ev); var d := Step(c, ev);
      && Others(c, d, id) && |d.peers[id].log| == |c.peers[id].log| + 1 && d.peers[id].log <= Canon()
      && |c.peers[id].log| == (if ev.RunRemove? then 3
                               else if Runs(c.peers[id].conn, ev.e, C.EstablishTask) then 1 else 4)
  {
    StepTouches(c, ev);
    StepInv(c, ev);
    hide Step, Inv, Breaks;
    if ev.OnConn? { OnwardLife(c.peers[ev.id], c.server.cfg, ev.e); } else { RemovesAreKnown(c); }
    hide Genuine, C.Step, C.Legal, Gains;
  }

  lemma StepWorks(c: Sys, ev: Event)
    requires Inv(c) && Legal(c, ev) && !Step(c, ev).aborted
    ensures ToDo(Step(c, ev)) + (if Functor(c, ev) then 1 else 0) == ToDo(c) + Calls(c, ev)
  {
    if ev.Accept? {
      AcceptWorks(c);
    } else {
      var id, d := Subject(c, ev), Step(c, ev);
      StepTouches(c, ev);
      StepLeft(c, ev);
      InRange(c, id);
      hide Step, Inv, Functor, Calls, PeerOk;
      WorkMoves(c.peers, d.peers, c.server.nextId, id);
    }
  }

  lemma InRange(c: Sys, id: nat)
    requires Inv(c) && id in c.peers
    ensures 1 <= id < c.server.nextId
  {
  }

  lemma StepLeft(c: Sys, ev: Event)
    requires Inv(c) && Legal(c, ev) && !Step(c, ev).aborted && !ev.Accept?
    requires Subject(c, ev) in c.peers && Subject(c, ev) in Step(c, ev).peers
    requires PeerOk(c, Subject(c, ev))
    requires Step(c, ev).peers[Subject(c, ev)].log == c.peers[Subject(c, ev)].log + Marks(c, ev)
    ensures var id := Subject(c, ev);
      Left(Step(c, ev).peers[id]) + (if Functor(c, ev) then 1 else 0) == Left(c.peers[id]) + Calls(c, ev)
  {
    StepInv(c, ev);
    hide Step, Inv, C.Step, C.Legal, Genuine, Closes, LifeOk, Gains, Runs;
    if ev.OnConn? {
      var p := c.peers[ev.id];
      OnwardLife(p, c.server.cfg, ev.e);
    } else {
      RemovesAreKnown(c);
    }
    hide PeerOk;
  }

  lemma AcceptWorks(c: Sys)
    requires Inv(c)
    ensures ToDo(Step(c, Accept)) == ToDo(c) + Calls(c, Accept)
  {
    var d, id := Step(c, Accept), c.server.nextId;
    AcceptIs(c);
    NewcomerOk(c);
    hide Step, Newcomer, Pick, Genuine, LifeOk, PeerOk, RemovesOk;
    WorkSame(c.peers, d.peers, id - 1);
    assert Work(d.peers, id + 1) == Work(d.peers, id) && Work(d.peers, id) == Work(c.peers, id - 1) + Left(d.peers[id]);
    assert Work(c.peers, id) == Work(c.peers, id - 1);
  }

  predicate Unqueued(x: C.Conn) { C.EstablishTask !in x.q.tasks && C.DestroyTask !in x.q.tasks }

  /** Nothing of the protocol is queued on any loop. */
  ghost predicate Quiet(c: Sys) { c.removes == [] && forall id :: id in c.peers ==> Unqueued(c.peers[id].conn) }

  lemma QueuedIff(c: Sys, id: nat)
    requires Inv(c) && id in c.peers
    ensures Left(c.peers[id]) == 0 <==> id !in c.removes && Unqueued(c.peers[id].conn)
  {
    assert PeerOk(c, id);
    GenuineFit(c.peers[id], c.server.cfg);
    Begun(c.peers[id].conn);
    hide Genuine, Fit;
  }

  lemma Begun(x: C.Conn)
    requires Fit(x)
    ensures C.EstablishTask in x.q.tasks <==> x.q.owner.Begun? && x.state.Connecting?
  {
    hide CP.Inv;
  }

  lemma QuietIff(c: Sys)
    requires Inv(c)
    ensures Quiet(c) <==> ToDo(c) == 0
  {
    forall id | id in c.peers
      ensures 1 <= id < c.server.nextId
      ensures Left(c.peers[id]) == 0 <==> id !in c.removes && Unqueued(c.peers[id].conn)
    {
      QueuedIff(c, id);
    }
    if |c.removes| > 0 { RemovesAreKnown(c); }
    hide Inv, PeerOk, Left;
    if Quiet(c) {
      NoWork(c.peers, c.server.nextId);
    } else if c.removes != [] {
      assert c.removes[0] in c.removes;
      SomeWork(c.peers, c.server.nextId, c.removes[0]);
    } else {
      var id :| id in c.peers && !Unqueued(c.peers[id].conn);
      SomeWork(c.peers, c.server.nextId, id);
    }
  }

  /** Conservation over any run, however the loops take turns: the protocol's functors run
    * in it and those it leaves are those it found and those its events made necessary; so
    * nothing is queued any more exactly when all of them have been run. */
  lemma {:induction false} Drains(c: Sys, evs: seq<Event>)
    requires Inv(c) && LegalRun(c, evs) && !Run(c, evs).aborted
    ensures Functors(c, evs) + ToDo(Run(c, evs)) == ToDo(c) + Called(c, evs)
    ensures Quiet(Run(c, evs)) <==> Functors(c, evs) == ToDo(c) + Called(c, evs)
    decreases evs
  {
    hide Inv, Step, Legal, ToDo, Quiet, Functor, Calls;
    if evs == [] {
      QuietIff(c);
    } else {
      var d := Step(c, evs[0]);
      if d.aborted { StaysAborted(d, evs[1..]); }
      StepInv(c, evs[0]);
      StepWorks(c, evs[0]);
      Drains(d, evs[1..]);
    }
  }

  lemma {:induction false} StaysAborted(c: Sys, evs: seq<Event>)
    requires c.aborted
    ensures Run(c, evs).aborted
    decreases evs
  {
    if evs != [] {
      AbortedStep(c, evs[0]);
      StaysAborted(c, evs[1..]);
    }
  }

  /** With nothing queued a connection is up and in the map, or destroyed and out of it. */
  lemma AtRest(c: Sys, id: nat)
    requires Inv(c) && Quiet(c) && id in c.peers
    ensures c.peers[id].conn.Live() <==> id in c.server.connections
    ensures id !in c.server.connections ==> c.peers[id].log == Canon() && c.peers[id].conn.state.Disconnected?
  {
    assert PeerOk(c, id);
    QueuedIff(c, id);
    assert Left(c.peers[id]) == 0 && Canon()[..5] == Canon();
    hide Genuine;
  }
}
