/** What every run of a server keeps. */
module ServerProofs {
  import opened Prelude
  import opened LoopPools
  import opened Servers
  import C = Connections
  import CP = ConnectionProofs
  import CT = ConnectionTheorems

  // ------------------------------------------------- one connection's own run

  /** The connection is where a legal run of its own has brought it, and still sound. */
  ghost predicate Genuine(p: Peer, cfg: C.Config) {
    && C.LegalRun(C.Fresh(ConfigAt(cfg, p.home)), p.hist) && p.conn == C.Run(C.Fresh(ConfigAt(cfg, p.home)), p.hist)
    && !p.conn.aborted
  }

  ghost predicate Fit(x: C.Conn) { CP.Whole(x) && !x.aborted }

  lemma GenuineFit(p: Peer, cfg: C.Config)
    requires Genuine(p, cfg)
    ensures Fit(p.conn) && p.conn.cfg == ConfigAt(cfg, p.home)
  {
    hide CP.Whole, C.Step, C.Legal;
    CP.FreshWhole(ConfigAt(cfg, p.home));
    CP.RunWhole(C.Fresh(ConfigAt(cfg, p.home)), p.hist);
    RunCfg(C.Fresh(ConfigAt(cfg, p.home)), p.hist);
  }

  lemma {:induction false} RunCfg(c: C.Conn, evs: seq<C.Event>)
    ensures C.Run(c, evs).cfg == c.cfg
    decreases evs
  {
    hide C.Step;
    if evs != [] {
      StepCfg(c, evs[0]);
      RunCfg(C.Step(c, evs[0]), evs[1..]);
    }
  }

  lemma {:induction false} RunSnoc(c: C.Conn, evs: seq<C.Event>, e: C.Event)
    ensures C.Run(c, evs + [e]) == C.Step(C.Run(c, evs), e)
    ensures C.LegalRun(c, evs + [e]) <==> C.LegalRun(c, evs) && C.Legal(C.Run(c, evs), e)
    decreases evs
  {
    hide C.Step, C.Legal;
    if evs == [] {
      assert evs + [e] == [e] && [e][1..] == [];
      assert C.Run(C.Step(c, e), []) == C.Step(c, e);
    } else {
      assert (evs + [e])[1..] == evs[1..] + [e];
      RunSnoc(C.Step(c, evs[0]), evs[1..], e);
    }
  }

  lemma GenuineStep(p: Peer, cfg: C.Config, e: C.Event, log: seq<Mark>)
    requires Genuine(p, cfg) && C.Legal(p.conn, e) && !C.Step(p.conn, e).aborted
    ensures Genuine(Peer(C.Step(p.conn, e), p.home, p.hist + [e], log), cfg)
    ensures Fit(C.Step(p.conn, e))
  {
    hide C.Step, C.Legal, Fit, C.Fresh;
    RunSnoc(C.Fresh(ConfigAt(cfg, p.home)), p.hist, e);
    GenuineFit(Peer(C.Step(p.conn, e), p.home, p.hist + [e], log), cfg);
  }

  // ------------------------------------------- what a step does to a life

  predicate Known(x: C.Conn) { !x.ch.index.New? }

  predicate HasDestroy(x: C.Conn) { C.DestroyTask in x.q.tasks }

  /** A step that neither establishes, closes nor destroys. */
  ghost predicate Steady(a: C.Conn, b: C.Conn) {
    && (b.state.Connecting? <==> a.state.Connecting?) && (b.Live() <==> a.Live())
    && (b.state.Disconnected? <==> a.state.Disconnected?)
    && b.q.owner == a.q.owner && (HasDestroy(b) <==> HasDestroy(a))
    && (Known(a) ==> Known(b)) && b.cfg == a.cfg
  }

  /** The close callback, on the owner's loop or another. */
  ghost predicate Falls(a: C.Conn, b: C.Conn) {
    && a.Live() && b.state.Disconnected? && Known(b) && b.cfg == a.cfg
    && b.q.owner == (if a.cfg.ownerHere then C.Ended else a.q.owner)
    && (HasDestroy(b) <==> HasDestroy(a) || a.cfg.ownerHere)
  }

  lemma {:induction false} SendSteady(c: C.Conn, m: seq<Byte>, r: C.WriteResult, remote: bool)
    ensures Steady(c, C.SendInLoop(c, m, r, remote))
  {
    if c.state.Disconnected? {
    } else if c.CanWriteDirectly() && C.IsFault(r) {
    } else {
    }
  }

  lemma {:induction false} CallSteady(c: C.Conn, e: C.Event)
    requires C.IsCall(e)
    ensures Steady(c, C.Call(c, e))
  {
    match e {
      case SendRemote(m) => if c.state.Connected? && |m| > 0 { }
      case ShutdownLocal => if c.state.Connected? { if c.ch.writing { } }
      case ShutdownRemote => if c.state.Connected? { }
      case ForceClose => if c.Live() { }
      case DelayForceClose => if c.Live() { }
      case StartReadLocal => if !c.ch.readFlag || !c.ch.reading { }
      case StopReadLocal => if c.ch.readFlag || c.ch.reading { }
      case Consume(len) => if 0 <= len < |c.rx.input| { }
      case _ =>
    }
  }

  lemma {:induction false} CloseFalls(c: C.Conn)
    requires !c.aborted
    ensures C.HandleClose(c).aborted || Falls(c, C.HandleClose(c))
  {
    if c.Live() { }
  }

  lemma {:induction false} HandleLife(c: C.Conn, h: C.Handler, rr: C.ReadResult, wr: C.WriteResult)
    requires !c.aborted
    ensures var d := C.Handle(c, h, rr, wr); d.aborted || Steady(c, d) || Falls(c, d)
  {
    hide C.HandleClose;
    match h {
      case DoClose => CloseFalls(c);
      case DoRead => match rr { case Got(_) => case Eof => CloseFalls(c); case ReadFailed => }
      case DoWrite =>
        if !c.ch.writing || !wr.Wrote? || wr.n == 0 {
        } else if wr.n < |c.tx.out| {
        } else {
        }
    }
  }

  lemma {:induction false} TaskLife(c: C.Conn, t: C.Task, wr: C.WriteResult)
    requires !c.aborted && !t.EstablishTask? && !t.DestroyTask?
    ensures var d := C.RunTask(c, t, wr); d.aborted || Steady(c, d) || Falls(c, d)
  {
    hide C.SendInLoop, C.HandleClose;
    match t {
      case SendTask(m) => SendSteady(c, m, wr, true);
      case ShutdownTask => if c.ch.writing { }
      case ForceCloseTask => if c.Live() { CloseFalls(c); }
      case StartReadTask => if !c.ch.readFlag || !c.ch.reading { }
      case StopReadTask => if c.ch.readFlag || c.ch.reading { }
    }
  }

  lemma PopSteady(c: C.Conn)
    requires |c.q.tasks| > 0 && !c.q.tasks[0].DestroyTask?
    ensures Steady(c, C.Popped(c))
  {
    assert c.q.tasks == [c.q.tasks[0]] + c.q.tasks[1..];
  }

  lemma Then(a: C.Conn, b: C.Conn, d: C.Conn)
    requires Steady(a, b) && (Steady(b, d) || Falls(b, d))
    ensures Steady(a, d) || Falls(a, d)
  {
  }

  predicate OwnersEvent(e: C.Event) { e.Establish? || e.QueueEstablish? || e.QueueDestroy? }

  /** Anything but the owner's own doings. */
  lemma StepLife(c: C.Conn, e: C.Event)
    requires !c.aborted && !OwnersEvent(e) && !Runs(c, e, C.EstablishTask) && !Runs(c, e, C.DestroyTask)
    ensures var d := C.Step(c, e); d.aborted || Steady(c, d) || Falls(c, d)
  {
    hide C.SendInLoop, C.Handle, C.Call, C.RunTask, C.Handlers, Steady, Falls;
    if C.IsCall(e) {
      CallSteady(c, e);
      CT.StepCalls(c, e);
    } else if e.Dispatch? && |c.q.due| > 0 {
      HandleLife(C.Undue(c), c.q.due[0], e.rr, e.wr);
      PlaceSteady(c, C.Undue(c));
      if !C.Step(c, e).aborted { Then(c, C.Undue(c), C.Step(c, e)); }
    } else if e.RunFunctor? && |c.q.tasks| > 0 {
      PopSteady(c);
      TaskLife(C.Popped(c), c.q.tasks[0], e.wr);
      if !C.Step(c, e).aborted { Then(c, C.Popped(c), C.Step(c, e)); }
    } else if e.SendLocal? && c.state.Connected? && |e.msg| > 0 {
      SendSteady(c, e.msg, e.wr, false);
    } else {
      PlaceSteady(c, C.Step(c, e));
    }
  }

  lemma PlaceSteady(c: C.Conn, d: C.Conn)
    requires d == c.(q := d.q) && d.q.owner == c.q.owner && d.q.tasks == c.q.tasks
    ensures Steady(c, d)
  {
  }

  /** The close callback is called exactly when the connection goes down. */
  lemma ClosesIff(a: C.Conn, b: C.Conn)
    requires Fit(a) && Fit(b) && (Steady(a, b) || Falls(a, b))
    ensures Closes(a, b) <==> Falls(a, b)
    ensures Closes(a, b) <==> !Steady(a, b)
  {
  }

  /** connectEstablished, run by the loop. */
  lemma EstablishLives(c: C.Conn, e: C.Event)
    requires Fit(c) && Runs(c, e, C.EstablishTask)
    ensures var d := C.Step(c, e);
      && c.state.Connecting? && d.Live() && !d.aborted && d.q.owner == c.q.owner && !Closes(c, d)
      && (HasDestroy(d) <==> HasDestroy(c)) && Known(d) && d.cfg == c.cfg
  {
    Begins(c);
    hide CP.Whole;
    assert c.q.tasks == [c.q.tasks[0]] + c.q.tasks[1..];
    assert C.Step(c, e) == C.ConnectEstablished(C.Popped(c));
    hide C.Step;
  }

  lemma Begins(c: C.Conn)
    requires CP.Whole(c) && |c.q.tasks| > 0 && c.q.tasks[0].EstablishTask?
    ensures c.state.Connecting?
  {
    hide CP.Inv;
    assert c.q.tasks[0] in c.q.tasks;
  }

  /** connectDestroyed, run by the loop. */
  lemma DestroyEnds(c: C.Conn, e: C.Event)
    requires Fit(c) && Runs(c, e, C.DestroyTask)
    ensures var d := C.Step(c, e);
      && c.state.Disconnected? && d.state.Disconnected? && d.q.owner == c.q.owner && !Closes(c, d)
      && HasDestroy(c) && !HasDestroy(d) && d.cfg == c.cfg
  {
    assert c.q.tasks[0] in c.q.tasks;
    assert forall i :: 0 <= i < |c.q.tasks[1..]| ==> c.q.tasks[1..][i] == c.q.tasks[i + 1];
  }

  lemma {:induction false} HandleCfg(c: C.Conn, h: C.Handler, rr: C.ReadResult, wr: C.WriteResult)
    ensures C.Handle(c, h, rr, wr).cfg == c.cfg
  {
    match h {
      case DoClose => if c.Live() { }
      case DoRead => match rr { case Got(_) => case Eof => if c.Live() { } case ReadFailed => }
      case DoWrite => if !c.ch.writing || !wr.Wrote? || wr.n == 0 { } else if wr.n < |c.tx.out| { } else { }
    }
  }

  lemma {:induction false} TaskCfg(c: C.Conn, t: C.Task, wr: C.WriteResult)
    ensures C.RunTask(c, t, wr).cfg == c.cfg
  {
    hide C.SendInLoop;
    match t {
      case SendTask(m) => SendSteady(c, m, wr, true);
      case ShutdownTask => if c.ch.writing { }
      case ForceCloseTask => if c.Live() { }
      case StartReadTask => if !c.ch.readFlag || !c.ch.reading { }
      case StopReadTask => if c.ch.readFlag || c.ch.reading { }
      case EstablishTask => if c.state.Connecting? { }
      case DestroyTask => if c.state.Connected? { }
    }
  }

  lemma {:induction false} StepCfg(c: C.Conn, e: C.Event)
    ensures C.Step(c, e).cfg == c.cfg
  {
    hide C.Handlers, C.SendInLoop, C.Handle, C.RunTask, C.Call;
    match e {
      case Establish => if c.state.Connecting? { }
      case SendLocal(m, wr) => SendSteady(c, m, wr, false);
      case Dispatch(rr, wr) => if |c.q.due| > 0 { HandleCfg(C.Undue(c), c.q.due[0], rr, wr); }
      case RunFunctor(wr) => if |c.q.tasks| > 0 { TaskCfg(C.Popped(c), c.q.tasks[0], wr); }
      case _ => if C.IsCall(e) { CallSteady(c, e); }
    }
  }

  // ------------------------------------------------------------ the invariant

  function Canon(): seq<Mark> { [Created, Established, Closed, Erased, Destroyed] }

  /** How far a connection is in its life shows in its state, in its owner's functors and in
    * its log alike. */
  ghost predicate LifeOk(p: Peer) {
    && 1 <= |p.log| <= 5 && p.log == Canon()[..|p.log|]
    && (p.conn.state.Connecting? <==> |p.log| == 1)
    && (p.conn.Live() <==> |p.log| == 2)
    && (p.conn.state.Disconnected? <==> |p.log| >= 3)
    && p.conn.q.owner == (if |p.log| <= 3 then C.Begun else C.Ended)
    && (HasDestroy(p.conn) <==> |p.log| == 4)
    && (2 <= |p.log| <= 4 ==> Known(p.conn))
    && (|p.log| == 3 ==> p.home != 0)
  }

  /** And in the map, and in what is queued on the base loop. */
  ghost predicate PeerOk(c: Sys, id: nat)
    requires id in c.peers
  {
    var p := c.peers[id];
    && p.home <= c.threads && Genuine(p, c.server.cfg) && LifeOk(p)
    && (id in c.removes <==> |p.log| == 3)
    && (id in c.server.connections <==> |p.log| <= 3)
  }

  ghost predicate RemovesOk(c: Sys) {
    && (forall id :: id in c.removes ==> id in c.peers)
    && (forall i, j :: 0 <= i < j < |c.removes| ==> c.removes[i] != c.removes[j])
  }

  /** Where connections live, whether or not something has failed. */
  ghost predicate HomesOk(c: Sys) {
    && c.server.nextId >= 1
    && (forall id :: id in c.peers ==> 1 <= id < c.server.nextId)
    && (c.threads > 0 ==> c.server.nextLoop == (c.server.nextId - 1) % c.threads)
    && (forall id :: id in c.peers ==> c.peers[id].home == if c.threads == 0 then 0 else (id - 1) % c.threads + 1)
  }

  ghost predicate Inv(c: Sys) {
    && !c.aborted && HomesOk(c) && RemovesOk(c)
    && (forall id :: id in c.peers <==> 1 <= id < c.server.nextId)
    && (forall id :: id in c.server.connections ==> id in c.peers)
    && (forall id :: id in c.peers ==> PeerOk(c, id))
  }

  // --------------------------------------------- one connection, and its server

  /** What is added to a log by a step, and by what the server does at once about it. */
  function Gains(p: Peer, e: C.Event): seq<Mark> {
    Passed(p.conn, e) + (if Closes(p.conn, C.Step(p.conn, e)) && p.home == 0 then [Erased] else [])
  }

  function Onward(p: Peer, e: C.Event): Peer {
    Peer(C.Step(p.conn, e), p.home, p.hist + [e], p.log + Gains(p, e))
  }

  /** The log grows by the next mark. */
  lemma LogGrows(log: seq<Mark>, m: Mark)
    requires |log| < 5 && log == Canon()[..|log|] && m == Canon()[|log|]
    ensures log + [m] == Canon()[..|log + [m]|]
  {
  }

  /** A step that passes no mark. */
  lemma QuietLife(p: Peer, x: C.Conn, hist: seq<C.Event>)
    requires LifeOk(p) && Steady(p.conn, x)
    ensures LifeOk(Peer(x, p.home, hist, p.log + []))
  {
    assert p.log + [] == p.log;
  }

  lemma CloseLife(p: Peer, x: C.Conn, hist: seq<C.Event>)
    requires LifeOk(p) && Falls(p.conn, x) && (p.conn.cfg.ownerHere <==> p.home == 0)
    ensures LifeOk(Peer(x, p.home, hist, p.log + ([Closed] + (if p.home == 0 then [Erased] else []))))
  {
    LogGrows(p.log, Closed);
    LogGrows(p.log + [Closed], Erased);
    assert p.log + ([Closed] + [Erased]) == p.log + [Closed] + [Erased] && [Closed] + [] == [Closed];
  }

  /** One connection's step, with the part of the server's protocol that is done at once. */
  lemma OnwardLife(p: Peer, cfg: C.Config, e: C.Event)
    requires Genuine(p, cfg) && LifeOk(p) && C.Legal(p.conn, e) && !OwnersEvent(e) && !C.Step(p.conn, e).aborted
    ensures Genuine(Onward(p, e), cfg) && LifeOk(Onward(p, e))
    ensures Closes(p.conn, C.Step(p.conn, e)) ==> |p.log| == 2
    ensures |Gains(p, e)| == if Closes(p.conn, C.Step(p.conn, e)) then (if p.home == 0 then 2 else 1)
                             else if Runs(p.conn, e, C.EstablishTask) || Runs(p.conn, e, C.DestroyTask) then 1 else 0
    ensures Runs(p.conn, e, C.EstablishTask) ==> |p.log| == 1 && !Closes(p.conn, C.Step(p.conn, e))
    ensures Runs(p.conn, e, C.DestroyTask) ==> |p.log| == 4 && !Closes(p.conn, C.Step(p.conn, e))
  {
    var x := C.Step(p.conn, e);
    GenuineFit(p, cfg);
    NotAborted(p.conn);
    GenuineStep(p, cfg, e, p.log + Gains(p, e));
    hide C.Step, C.Legal, Genuine, Fit, Closes, Steady, Falls;
    if Runs(p.conn, e, C.EstablishTask) {
      EstablishLives(p.conn, e);
      LivesOn(p, x);
      assert Gains(p, e) == [Established];
    } else if Runs(p.conn, e, C.DestroyTask) {
      DestroyEnds(p.conn, e);
      DiesOut(p, x);
      assert Gains(p, e) == [Destroyed];
    } else {
      StepLife(p.conn, e);
      ClosesIff(p.conn, x);
      if Closes(p.conn, x) {
        CloseLife(p, x, p.hist + [e]);
        Fallen(p, x);
      } else {
        QuietLife(p, x, p.hist + [e]);
      }
    }
  }

  lemma NotAborted(x: C.Conn)
    requires Fit(x)
    ensures !x.aborted
  {
  }

  lemma Fallen(p: Peer, x: C.Conn)
    requires LifeOk(p) && Falls(p.conn, x)
    ensures |p.log| == 2
  {
  }

  lemma LivesOn(p: Peer, x: C.Conn)
    requires LifeOk(p) && p.conn.state.Connecting? && x.Live() && x.q.owner == p.conn.q.owner
    requires (HasDestroy(x) <==> HasDestroy(p.conn)) && Known(x)
    ensures forall hist :: LifeOk(Peer(x, p.home, hist, p.log + [Established]))
  {
    LogGrows(p.log, Established);
  }

  lemma DiesOut(p: Peer, x: C.Conn)
    requires LifeOk(p) && HasDestroy(p.conn) && !HasDestroy(x) && x.state.Disconnected? && x.q.owner == p.conn.q.owner
    ensures forall hist :: LifeOk(Peer(x, p.home, hist, p.log + [Destroyed]))
  {
    LogGrows(p.log, Destroyed);
  }

  // ------------------------------------------------------------------ the frame

  /** Everything but connection id is as it was. */
  ghost predicate Others(c: Sys, d: Sys, id: nat) {
    && d.threads == c.threads && d.server.cfg == c.server.cfg
    && d.server.nextId == c.server.nextId && d.server.nextLoop == c.server.nextLoop
    && id in c.peers && (forall j :: j in d.peers <==> j in c.peers)
    && d.peers[id].home == c.peers[id].home
    && (forall j :: j in c.peers && j != id ==> d.peers[j] == c.peers[j])
    && (forall j :: j != id ==> (j in d.server.connections <==> j in c.server.connections))
    && (forall j :: j != id ==> (j in d.removes <==> j in c.removes))
  }

  lemma Frame(c: Sys, d: Sys, id: nat)
    requires Inv(c) && Others(c, d, id) && !d.aborted && RemovesOk(d) && PeerOk(d, id)
    ensures Inv(d)
  {
    hide Genuine, LifeOk, RemovesOk;
    forall j | j in d.peers ensures PeerOk(d, j) {
      if j != id { assert PeerOk(c, j); }
    }
  }

  // ------------------------------------------------------------------ the steps

  /** What fails in a step is an assertion of a connection, never one of the server's. */
  predicate Breaks(c: Sys, ev: Event) {
    ev.OnConn? && ev.id in c.peers && C.Step(c.peers[ev.id].conn, ev.e).aborted
  }

  /** c with a step of one connection done: the connection, the map, the base loop's queue. */
  function Moved(c: Sys, p: Peer, id: nat, e: C.Event): Sys {
    var closes := Closes(p.conn, C.Step(p.conn, e));
    c.(peers := c.peers[id := Onward(p, e)], removes := c.removes + (if closes && p.home != 0 then [id] else []),
       server := if closes && p.home == 0 then c.server.(connections := c.server.connections - {id}) else c.server)
  }

  /** The whole system after a connection's step. */
  lemma OnConnectionIs(c: Sys, id: nat, e: C.Event)
    requires id in c.peers && !c.aborted
    requires Closes(c.peers[id].conn, C.Step(c.peers[id].conn, e)) && c.peers[id].home == 0 ==>
               id in c.server.connections
    ensures var p := c.peers[id];
      OnConnection(c, id, e) == Moved(c, p, id, e).(aborted := C.Step(p.conn, e).aborted)
  {
    hide C.Step, Closes, Passed;
    var p := c.peers[id];
    assert c.removes + [] == c.removes;
    if Closes(p.conn, C.Step(p.conn, e)) {
      if p.home == 0 {
        assert p.log + Passed(p.conn, e) + [Erased] == p.log + Gains(p, e);
        assert Emit(c, id, e, Passed(p.conn, e)).peers[id := Onward(p, e)] == c.peers[id := Onward(p, e)];
      } else {
        assert Gains(p, e) == Passed(p.conn, e);
      }
    } else {
      assert Gains(p, e) == Passed(p.conn, e);
    }
  }

  /** What the step adds to the base loop's queue and takes off the map, and nothing more. */
  lemma OnConnPlaces(c: Sys, id: nat, e: C.Event)
    requires Inv(c) && Legal(c, OnConn(id, e)) && !Breaks(c, OnConn(id, e))
    ensures var d := Step(c, OnConn(id, e)); var p := c.peers[id];
      && !d.aborted && RemovesOk(d) && Others(c, d, id) && d.peers[id] == Onward(p, e)
      && (id in d.removes <==> id in c.removes || (Closes(p.conn, C.Step(p.conn, e)) && p.home != 0))
      && (id in d.server.connections <==>
            id in c.server.connections && !(Closes(p.conn, C.Step(p.conn, e)) && p.home == 0))
  {
    var p := c.peers[id];
    var closes := Closes(p.conn, C.Step(p.conn, e));
    OnConnAt(c, id, e);
    hide C.Step, C.Legal, Closes, Gains, Inv, OnConnection, Runs, Step, Others, RemovesOk;
    Placed(c, Step(c, OnConn(id, e)), id, Onward(p, e), closes && p.home == 0, closes && p.home != 0);
  }

  lemma OnConnAt(c: Sys, id: nat, e: C.Event)
    requires Inv(c) && Legal(c, OnConn(id, e)) && !Breaks(c, OnConn(id, e))
    ensures RemovesOk(c)
    ensures Closes(c.peers[id].conn, C.Step(c.peers[id].conn, e)) ==> id !in c.removes
    ensures Step(c, OnConn(id, e)) == Moved(c, c.peers[id], id, e)
  {
    assert PeerOk(c, id);
    OnwardLife(c.peers[id], c.server.cfg, e);
    hide C.Step, C.Legal, Genuine, LifeOk, Closes, Gains, PeerOk, HomesOk, RemovesOk, OnConnection, Runs;
    OnConnectionIs(c, id, e);
  }

  lemma Placed(c: Sys, d: Sys, id: nat, q: Peer, here: bool, there: bool)
    requires RemovesOk(c) && id in c.peers && q.home == c.peers[id].home && (there ==> id !in c.removes)
    requires d == c.(peers := c.peers[id := q], removes := c.removes + (if there then [id] else []),
                     server := if here then c.server.(connections := c.server.connections - {id}) else c.server)
    ensures RemovesOk(d) && Others(c, d, id) && d.peers[id] == q
    ensures id in d.removes <==> id in c.removes || there
    ensures id in d.server.connections <==> id in c.server.connections && !here
  {
  }

  lemma OnConnInv(c: Sys, id: nat, e: C.Event)
    requires Inv(c) && Legal(c, OnConn(id, e)) && !Breaks(c, OnConn(id, e))
    ensures Inv(Step(c, OnConn(id, e)))
  {
    OnConnPlaces(c, id, e);
    OnConnPeer(c, id, e);
    hide Inv, PeerOk, Step;
    Frame(c, Step(c, OnConn(id, e)), id);
  }

  lemma OnConnPeer(c: Sys, id: nat, e: C.Event)
    requires Inv(c) && Legal(c, OnConn(id, e)) && !Breaks(c, OnConn(id, e))
    ensures id in Step(c, OnConn(id, e)).peers && PeerOk(Step(c, OnConn(id, e)), id)
  {
    var p, d := c.peers[id], Step(c, OnConn(id, e));
    assert PeerOk(c, id);
    OnConnPlaces(c, id, e);
    OnwardLife(p, c.server.cfg, e);
    hide C.Step, C.Legal, Genuine, LifeOk, Closes, Gains, Runs, HomesOk, RemovesOk, Step, Inv, Breaks, Legal;
    assert |d.peers[id].log| == |p.log| + |Gains(p, e)|;
  }

  /** The erase finds its entry, and the end is queued on the connection's loop. */
  lemma RemovePlaces(c: Sys)
    requires Inv(c) && |c.removes| > 0
    ensures var d := Step(c, RunRemove); var id := c.removes[0]; var p := c.peers[id];
      && |p.log| == 3 && LifeOk(p) && Genuine(p, c.server.cfg) && p.home <= c.threads
      && d.aborted == C.Step(p.conn, C.QueueDestroy).aborted
      && RemovesOk(d) && Others(c, d, id) && id !in d.removes && id !in d.server.connections
      && d.peers[id] == Peer(C.Step(p.conn, C.QueueDestroy), p.home, p.hist + [C.QueueDestroy], p.log + [Erased])
  {
    RemoveAt(c);
    hide C.Step, Genuine, LifeOk, Inv, Step;
    TakenOff(c, Step(c, RunRemove), Step(c, RunRemove).peers[c.removes[0]]);
  }

  lemma RemoveAt(c: Sys)
    requires Inv(c) && |c.removes| > 0
    ensures RemovesOk(c) && c.removes[0] in c.peers
    ensures var id := c.removes[0]; var p := c.peers[id];
      && |p.log| == 3 && LifeOk(p) && Genuine(p, c.server.cfg) && p.home <= c.threads
      && Step(c, RunRemove) ==
           c.(removes := c.removes[1..], aborted := C.Step(p.conn, C.QueueDestroy).aborted,
              server := c.server.(connections := c.server.connections - {id}),
              peers := c.peers[id := Peer(C.Step(p.conn, C.QueueDestroy), p.home, p.hist + [C.QueueDestroy],
                                          p.log + [Erased])])
  {
    var id := c.removes[0];
    assert id in c.removes && PeerOk(c, id);
    hide C.Step, Genuine, LifeOk, HomesOk, PeerOk, RemovesOk;
    var p := c.peers[id];
    assert p.log + [Erased] + [] == p.log + [Erased];
    var q := Peer(C.Step(p.conn, C.QueueDestroy), p.home, p.hist + [C.QueueDestroy], p.log + [Erased]);
    assert c.peers[id := p.(log := p.log + [Erased])][id := q] == c.peers[id := q];
  }

  lemma TakenOff(c: Sys, d: Sys, q: Peer)
    requires RemovesOk(c) && |c.removes| > 0 && c.removes[0] in c.peers && q.home == c.peers[c.removes[0]].home
    requires d == c.(removes := c.removes[1..], aborted := d.aborted, peers := c.peers[c.removes[0] := q],
                     server := c.server.(connections := c.server.connections - {c.removes[0]}))
    ensures RemovesOk(d) && Others(c, d, c.removes[0]) && c.removes[0] !in d.removes
  {
    assert c.removes == [c.removes[0]] + c.removes[1..];
    assert forall i :: 0 <= i < |c.removes[1..]| ==> c.removes[1..][i] == c.removes[i + 1];
  }

  lemma RemoveInv(c: Sys)
    requires Inv(c) && |c.removes| > 0
    ensures Inv(Step(c, RunRemove))
  {
    var id := c.removes[0];
    RemovePlaces(c);
    hide C.Step, C.Legal, Genuine, LifeOk, RemovesOk, Inv, Step;
    EndsPeer(c.peers[id], c.server.cfg);
    Frame(c, Step(c, RunRemove), id);
  }

  lemma EndsPeer(p: Peer, cfg: C.Config)
    requires Genuine(p, cfg) && LifeOk(p) && |p.log| == 3
    ensures C.Legal(p.conn, C.QueueDestroy) && !C.Step(p.conn, C.QueueDestroy).aborted
    ensures var q := Peer(C.Step(p.conn, C.QueueDestroy), p.home, p.hist + [C.QueueDestroy], p.log + [Erased]);
      Genuine(q, cfg) && LifeOk(q)
  {
    GenuineFit(p, cfg);
    EndQueued(p.conn);
    LogGrows(p.log, Erased);
    GenuineStep(p, cfg, C.QueueDestroy, p.log + [Erased]);
    hide Genuine, C.Step, C.Legal, Fit;
  }

  lemma EndQueued(x: C.Conn)
    requires Fit(x) && x.state.Disconnected? && x.q.owner.Begun?
    ensures C.Legal(x, C.QueueDestroy)
    ensures var d := C.Step(x, C.QueueDestroy);
      && !d.aborted && d.state == x.state && d.q.owner.Ended? && HasDestroy(d) && d.ch == x.ch
  {
    CP.ClosedIsDown(x);
  }

  // ------------------------------------------------------------------- accepting

  lemma NewcomerOk(c: Sys)
    ensures var p := Newcomer(c);
      && Genuine(p, c.server.cfg) && LifeOk(p) && p.home == Pick(c.threads, c.server.nextLoop).0
      && |p.log| <= 2 && (|p.log| == 2 <==> p.home == 0)
  {
    var home := Pick(c.threads, c.server.nextLoop).0;
    hide Pick;
    BirthOk(home, c.server.cfg);
  }

  lemma BirthOk(home: nat, cfg: C.Config)
    ensures var x := C.Step(C.Fresh(ConfigAt(cfg, home)), Starting(home));
      && C.LegalRun(C.Fresh(ConfigAt(cfg, home)), [Starting(home)])
      && C.Run(C.Fresh(ConfigAt(cfg, home)), [Starting(home)]) == x
      && !x.aborted && x.q.owner.Begun? && !HasDestroy(x)
      && (home == 0 ==> x.Live() && Known(x)) && (home != 0 ==> x.state.Connecting?)
  {
    var s := [Starting(home)];
    var x := C.Step(C.Fresh(ConfigAt(cfg, home)), s[0]);
    assert s[1..] == [] && C.Run(x, []) == x && C.LegalRun(x, []);
  }

  lemma AcceptInv(c: Sys)
    requires Inv(c)
    ensures Inv(Step(c, Accept)) && !Newcomer(c).conn.aborted
  {
    NewcomerOk(c);
    NextTurn(c);
    AcceptIs(c);
    hide Newcomer, LifeOk, Genuine, Pick, Step;
    Joins(c, Step(c, Accept), Newcomer(c));
  }

  lemma AcceptIs(c: Sys)
    requires !c.aborted
    ensures Step(c, Accept) ==
      c.(server := Server(c.server.connections + {c.server.nextId}, c.server.nextId + 1,
                          Pick(c.threads, c.server.nextLoop).1, c.server.cfg),
         peers := c.peers[c.server.nextId := Newcomer(c)], aborted := Newcomer(c).conn.aborted)
  {
    hide Newcomer, Pick;
  }

  /** One connection more, and everything else as it was. */
  lemma Joins(c: Sys, d: Sys, p: Peer)
    requires Inv(c)
    requires d == c.(server := Server(c.server.connections + {c.server.nextId}, c.server.nextId + 1,
                                      d.server.nextLoop, c.server.cfg),
                     peers := c.peers[c.server.nextId := p])
    requires c.threads > 0 ==> d.server.nextLoop == c.server.nextId % c.threads
    requires p.home == (if c.threads == 0 then 0 else (c.server.nextId - 1) % c.threads + 1) && p.home <= c.threads
    requires Genuine(p, c.server.cfg) && LifeOk(p) && |p.log| <= 2
    ensures Inv(d)
  {
    hide LifeOk, Genuine;
    assert c.server.nextId !in c.removes;
    assert HomesOk(d) && RemovesOk(d);
    hide HomesOk, RemovesOk;
    forall j | j in d.peers ensures PeerOk(d, j) {
      if j != c.server.nextId { assert PeerOk(c, j); }
    }
  }

  lemma NextTurn(c: Sys)
    requires HomesOk(c)
    ensures var (home, next) := Pick(c.threads, c.server.nextLoop);
      && home <= c.threads && home == (if c.threads == 0 then 0 else (c.server.nextId - 1) % c.threads + 1)
      && (c.threads > 0 ==> next == c.server.nextId % c.threads)
  {
    if c.threads > 0 { Wraps(c.threads, c.server.nextId - 1); }
  }

  // ------------------------------------------------------------------- all runs

  lemma BreaksAborts(c: Sys, ev: Event)
    requires !c.aborted && Breaks(c, ev)
    ensures Step(c, ev).aborted && ev.id in Step(c, ev).peers
    ensures Step(c, ev).peers[ev.id].conn == C.Step(c.peers[ev.id].conn, ev.e)
  {
    hide C.Step, Closes, Passed;
    if Closes(c.peers[ev.id].conn, C.Step(c.peers[ev.id].conn, ev.e)) {
      if c.peers[ev.id].home == 0 { }
    }
  }

  /** Every legal step keeps the invariant, or fails an assertion of a connection: none of
    * the server's own can fail. */
  lemma StepInv(c: Sys, ev: Event)
    requires Inv(c) && Legal(c, ev)
    ensures Step(c, ev).aborted <==> Breaks(c, ev)
    ensures !Step(c, ev).aborted ==> Inv(Step(c, ev))
  {
    assert !c.aborted;
    if Breaks(c, ev) {
      BreaksAborts(c, ev);
    } else {
      SoundStep(c, ev);
      hide HomesOk, RemovesOk, PeerOk, Step, Legal, Breaks;
    }
  }

  lemma SoundStep(c: Sys, ev: Event)
    requires Inv(c) && Legal(c, ev) && !Breaks(c, ev)
    ensures Inv(Step(c, ev))
  {
    hide Inv, Step, Breaks;
    match ev {
      case Accept => AcceptInv(c);
      case OnConn(id, e) => OnConnInv(c, id, e);
      case RunRemove => RemoveInv(c);
    }
  }

  lemma {:induction false} RunInv(c: Sys, evs: seq<Event>)
    requires (c.aborted || Inv(c)) && LegalRun(c, evs)
    ensures Run(c, evs).aborted || Inv(Run(c, evs))
    decreases evs
  {
    if evs != [] {
      if c.aborted { AbortedStep(c, evs[0]); } else { StepInv(c, evs[0]); }
      hide Inv, Step, Legal;
      RunInv(Step(c, evs[0]), evs[1..]);
    }
  }

  lemma AbortedStep(c: Sys, ev: Event)
    requires c.aborted
    ensures Step(c, ev) == c
  {
  }

  lemma InitInv(threads: nat, cfg: C.Config)
    ensures Inv(Init(threads, cfg))
  {
    if threads > 0 { Residue(threads, 0, 0, 0); }
  }
}
