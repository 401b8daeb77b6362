/** What every run of the timer queue keeps. */
module TimerProofs {
  import opened Prelude
  import opened Timers

  ghost function BatchIds(q: Timing): multiset<nat> {
    if q.batch.Some? then Ids(q.batch.value.entries) else multiset{}
  }

  /** Every timer ever added is in exactly one place: the set, the current batch, deleted,
    * or refused. */
  ghost predicate Conserved(q: Timing) {
    Ids(q.timers) + BatchIds(q) + multiset(q.ledger.deleted) + multiset(q.ledger.refused)
    == multiset(q.ledger.created)
  }

  /** Outside a batch the alarm stands for the first timer of the set. */
  ghost predicate Tracks(q: Timing) {
    q.batch.None? && q.timers != [] ==>
      q.alarm.Fired? || (q.alarm.Armed? && q.alarm.target == q.timers[0].when)
  }

  ghost predicate BatchDue(q: Timing) {
    q.batch.Some? ==>
      && Sorted(q.batch.value.entries) && q.batch.value.now <= q.clock
      && forall k :: 0 <= k < |q.batch.value.entries| ==> q.batch.value.entries[k].when <= q.batch.value.now
  }

  ghost predicate Inv(q: Timing) {
    Sorted(q.timers) && Conserved(q) && Tracks(q) && BatchDue(q)
  }

  lemma InitInv(clock: int)
    ensures Inv(Init(clock))
  {
  }

  lemma IdsCons(e: Entry, ts: seq<Entry>)
    ensures Ids([e] + ts) == multiset{e.id} + Ids(ts)
  {
    assert ([e] + ts)[1..] == ts;
  }

  lemma Associate(a: multiset<nat>, b: multiset<nat>, c: multiset<nat>)
    ensures (a + b) + c == a + (b + c)
  {
  }

  lemma {:induction false} IdsSplit(ts: seq<Entry>, k: nat)
    requires k <= |ts|
    ensures Ids(ts[..k]) + Ids(ts[k..]) == Ids(ts)
  {
    if k == 0 {
      assert ts[..0] == [] && ts[0..] == ts;
    } else {
      hide Ids;
      var a, b := ts[1..][..k - 1], ts[1..][k - 1..];
      IdsSplit(ts[1..], k - 1);
      HeadSlices(ts, k);
      IdsCons(ts[0], a);
      IdsCons(ts[0], ts[1..]);
      Associate(multiset{ts[0].id}, Ids(a), Ids(b));
    }
  }

  lemma IdsLast(ts: seq<Entry>)
    requires |ts| > 0
    ensures Ids(ts) == Ids(ts[..|ts| - 1]) + multiset{ts[|ts| - 1].id}
  {
    var k := |ts| - 1;
    IdsSplit(ts, k);
    assert ts[k..] == [ts[k]] + [];
    IdsCons(ts[k], []);
  }

  /** The same accounts with one timer moved into or out of the hand. */
  lemma Regroup(a: multiset<nat>, b: multiset<nat>, d: multiset<nat>, r: multiset<nat>, o: multiset<nat>, x: nat)
    ensures a + (b + multiset{x}) + d + r + o == a + b + d + r + (o + multiset{x})
    ensures a + multiset{x} + d + r + o == a + d + r + (o + multiset{x})
  {
  }

  lemma SetPlusOne(s: set<nat>, x: nat)
    requires x !in s
    ensures multiset(s + {x}) == multiset(s) + multiset{x}
  {
  }

  /** One timer in hand, the rest accounted for. */
  lemma PlaceConserves(q: Timing, e: Entry, others: multiset<nat>)
    requires Sorted(q.timers)
    requires Ids(q.timers) + multiset{e.id} + multiset(q.ledger.deleted) + multiset(q.ledger.refused) + others
             == multiset(q.ledger.created)
    ensures var p := Place(q, e);
            && Sorted(p.timers) && p.ledger.created == q.ledger.created && p.batch == q.batch
            && p.alarm == q.alarm && p.clock == q.clock
            && Ids(p.timers) + multiset(p.ledger.deleted) + multiset(p.ledger.refused) + others
               == multiset(q.ledger.created)
  {
    InsertSorted(q.timers, e);
    if Taken(q.timers, e.when) {
      assert multiset(q.ledger.created)[e.id] <= 1;
      SetPlusOne(q.ledger.refused, e.id);
    } else {
      InsertIds(q.timers, e);
    }
  }

  lemma RecycleConserves(q: Timing, e: Entry, now: int, others: multiset<nat>)
    requires Sorted(q.timers)
    requires Ids(q.timers) + multiset{e.id} + multiset(q.ledger.deleted) + multiset(q.ledger.refused) + others
             == multiset(q.ledger.created)
    ensures var p := Recycle(q, e, now);
            && Sorted(p.timers) && p.ledger.created == q.ledger.created && p.batch == q.batch
            && p.alarm == q.alarm && p.clock == q.clock
            && Ids(p.timers) + multiset(p.ledger.deleted) + multiset(p.ledger.refused) + others
               == multiset(q.ledger.created)
  {
    if e.Repeats() {
      PlaceConserves(q, Restarted(e, now), others);
    } else {
      assert multiset(q.ledger.created)[e.id] <= 1;
      SetPlusOne(q.ledger.deleted, e.id);
    }
  }

  lemma Unbatched(a: multiset<nat>, b: multiset<nat>, d: multiset<nat>, r: multiset<nat>)
    ensures (b + a) + multiset{} + d + r == a + b + d + r
  {
  }

  lemma {:induction false} RecycleAllConserves(q: Timing, es: seq<Entry>, now: int, others: multiset<nat>)
    requires Sorted(q.timers)
    requires Ids(q.timers) + Ids(es) + multiset(q.ledger.deleted) + multiset(q.ledger.refused) + others
             == multiset(q.ledger.created)
    ensures var p := RecycleAll(q, es, now);
            && Sorted(p.timers) && p.ledger.created == q.ledger.created && p.batch == q.batch
            && p.alarm == q.alarm && p.clock == q.clock
            && Ids(p.timers) + multiset(p.ledger.deleted) + multiset(p.ledger.refused) + others
               == multiset(q.ledger.created)
    decreases |es|
  {
    if es != [] {
      var k := |es| - 1;
      var x := es[k].id;
      IdsLast(es);
      Regroup(Ids(q.timers), Ids(es[..k]), multiset(q.ledger.deleted), multiset(q.ledger.refused), others, x);
      RecycleAllConserves(q, es[..k], now, others + multiset{x});
      hide Ids, Sorted, Recycle;
      var p := RecycleAll(q, es[..k], now);
      Regroup(Ids(p.timers), Ids(p.timers), multiset(p.ledger.deleted), multiset(p.ledger.refused), others, x);
      RecycleConserves(p, es[k], now, others);
    }
  }

  /** Two ways of adding up the same accounts. */
  lemma Reorder(a: multiset<nat>, b: multiset<nat>, d: multiset<nat>, r: multiset<nat>)
    ensures a + b + d + r == a + d + r + b && a + multiset{} + d + r == a + d + r + multiset{}
    ensures a + b + d + r == a + b + d + r + multiset{}
  {
  }

  lemma OneMore(a: multiset<nat>, b: multiset<nat>, d: multiset<nat>, r: multiset<nat>, x: nat)
    ensures a + multiset{x} + d + r + b == a + b + d + r + multiset{x}
  {
  }

  lemma AddInv(q: Timing, e: Entry, clock: int)
    requires Inv(q) && Legal(q, Add(e, clock))
    ensures Inv(AddTimer(q, e, clock))
  {
    var p := q.(ledger := q.ledger.(created := q.ledger.created + {e.id}), clock := clock);
    SetPlusOne(q.ledger.created, e.id);
    OneMore(Ids(q.timers), BatchIds(q), multiset(q.ledger.deleted), multiset(q.ledger.refused), e.id);
    PlaceConserves(p, e, BatchIds(q));
    var r := Place(p, e);
    Reorder(Ids(r.timers), BatchIds(q), multiset(r.ledger.deleted), multiset(r.ledger.refused));
    InsertSorted(q.timers, e);
    assert Earliest(q.timers, e.when) ==> !Taken(q.timers, e.when);
  }

  lemma BeginConserves(q: Timing, now: int)
    requires Conserved(q) && Legal(q, Begin(now))
    ensures Conserved(BeginRead(q, now))
  {
    var k := UpperBound(q.timers, now);
    IdsSplit(q.timers, k);
    Unbatched(Ids(q.timers[k..]), Ids(q.timers[..k]), multiset(q.ledger.deleted), multiset(q.ledger.refused));
    hide Ids, UpperBound;
  }

  lemma BeginInv(q: Timing, now: int)
    requires Inv(q) && Legal(q, Begin(now))
    ensures Inv(BeginRead(q, now))
  {
    BeginConserves(q, now);
    BatchIsExactlyTheDue(q.timers, now);
    SortedParts(q.timers, UpperBound(q.timers, now));
    hide Ids, Sorted, UpperBound, Conserved;
  }

  lemma EndInv(q: Timing, clock: int)
    requires Inv(q) && Legal(q, End(clock))
    ensures Inv(EndRead(q, clock))
  {
    var es, c := q.batch.value.entries, q.(batch := None);
    Reorder(Ids(q.timers), Ids(es), multiset(q.ledger.deleted), multiset(q.ledger.refused));
    RecycleAllConserves(c, es, q.batch.value.now, multiset{});
    var p := RecycleAll(c, es, q.batch.value.now);
    Reorder(Ids(p.timers), multiset{}, multiset(p.ledger.deleted), multiset(p.ledger.refused));
  }

  lemma StepInv(q: Timing, ev: Event)
    requires Inv(q) && Legal(q, ev)
    ensures Inv(Step(q, ev))
  {
    match ev {
      case Add(e, clock) => AddInv(q, e, clock);
      case Begin(now) => BeginInv(q, now);
      case End(clock) => EndInv(q, clock);
      case Fire(_) =>
    }
  }

  lemma {:induction false} RunInv(q: Timing, evs: seq<Event>)
    requires Inv(q) && LegalRun(q, evs)
    ensures Inv(Run(q, evs))
    decreases evs
  {
    if evs != [] {
      StepInv(q, evs[0]);
      RunInv(Step(q, evs[0]), evs[1..]);
    }
  }

  /** In every run, through insertions, callbacks that add timers in the middle of a batch
    * and repeating timers put back: when timers wait and no batch is being run, the alarm
    * is set for the least expiration, or has fired and is still to be handled. */
  lemma AlarmTracksMinimum(clock: int, evs: seq<Event>)
    requires LegalRun(Init(clock), evs)
    ensures var q := Run(Init(clock), evs);
            q.batch.None? && q.timers != [] ==>
              && (q.alarm.Fired? || (q.alarm.Armed? && q.alarm.target == q.timers[0].when))
              && forall k :: 0 <= k < |q.timers| ==> q.timers[0].when <= q.timers[k].when
  {
    InitInv(clock);
    RunInv(Init(clock), evs);
  }

  /** In every run each timer ever added is in exactly one of the set, the current batch,
    * the deleted and the refused. */
  lemma EachTimerInOnePlace(clock: int, evs: seq<Event>, id: nat)
    requires LegalRun(Init(clock), evs) && id in Run(Init(clock), evs).ledger.created
    ensures var q := Run(Init(clock), evs);
            Ids(q.timers)[id] + BatchIds(q)[id] + (if id in q.ledger.deleted then 1 else 0)
            + (if id in q.ledger.refused then 1 else 0) == 1
  {
    InitInv(clock);
    RunInv(Init(clock), evs);
    var q := Run(Init(clock), evs);
    assert multiset(q.ledger.created)[id] == 1;
    assert (Ids(q.timers) + BatchIds(q) + multiset(q.ledger.deleted) + multiset(q.ledger.refused))[id] == 1;
  }

  // ------------------------------------------------------------ precision

  /** The alarm goes off less than a microsecond before the expiration it stands for, and
    * no later than that expiration or a tenth of a millisecond after it was set, which it
    * waits at the least. */
  lemma DueWindow(target: int, at: int)
    ensures target - 1000 < Due(target, at) <= Max(target, at + 100_000)
    ensures at + 100_000 <= Due(target, at) && (target < at + 101_000 ==> Due(target, at) == at + 100_000)
  {
  }

  /** A batch begun once the alarm has rung is empty if and only if it rang early, less than
    * that microsecond before the first expiration. Nothing is then lost, the alarm is set
    * again for the same timer, and the second ring is not early. */
  lemma EmptyBatchIsEarly(q: Timing, at: int, now: int, clock: int)
    requires Inv(q) && q.batch.None? && q.timers != []
    requires Legal(q, Fire(at)) && Legal(Step(q, Fire(at)), Begin(now)) && now <= clock
    ensures var p := Step(Step(q, Fire(at)), Begin(now)); var r := EndRead(p, clock);
            && (p.batch.value.entries == [] <==> now < q.timers[0].when)
            && (p.batch.value.entries == [] ==>
                  && q.timers[0].when - now < 1000
                  && r.timers == q.timers && r.alarm == Armed(q.timers[0].when, clock)
                  && forall again :: Legal(r, Fire(again)) ==> q.timers[0].when < again)
  {
    DueWindow(q.alarm.target, q.alarm.at);
  }

  // -------------------------------------------------------------- refusals

  /** Some timer among es repeats and is put back at this expiration. */
  predicate PutBackAt(es: seq<Entry>, now: int, when: int) {
    exists k :: 0 <= k < |es| && es[k].Repeats() && Restarted(es[k], now).when == when
  }

  /** While a batch is put back an expiration is taken if and only if it was before, or a
    * repeating timer ahead in the batch has come back to it. */
  lemma {:induction false} TakenAfterRecycling(q: Timing, es: seq<Entry>, now: int, when: int)
    ensures Taken(RecycleAll(q, es, now).timers, when) <==> Taken(q.timers, when) || PutBackAt(es, now, when)
    decreases |es|
  {
    if es != [] {
      var k := |es| - 1;
      var p := RecycleAll(q, es[..k], now);
      TakenAfterRecycling(q, es[..k], now, when);
      InsertTakes(p.timers, Restarted(es[k], now), when);
      if PutBackAt(es[..k], now, when) {
        var j :| 0 <= j < k && es[..k][j].Repeats() && Restarted(es[..k][j], now).when == when;
        assert es[j].Repeats() && Restarted(es[j], now).when == when;
      }
      if PutBackAt(es, now, when) && !(es[k].Repeats() && Restarted(es[k], now).when == when) {
        var j :| 0 <= j < |es| && es[j].Repeats() && Restarted(es[j], now).when == when;
        assert es[..k][j].Repeats();
      }
    }
  }

  /** A repeating timer is lost when its batch is put back if and only if a timer in the
    * set already has its next expiration, or one ahead of it in the batch has the same
    * interval. */
  lemma RepeaterRefusedIff(q: Timing, es: seq<Entry>, now: int, k: nat)
    requires k < |es| && es[k].Repeats() && es[k].id !in RecycleAll(q, es[..k], now).ledger.refused
    ensures es[k].id in Recycle(RecycleAll(q, es[..k], now), es[k], now).ledger.refused <==>
              || Taken(q.timers, now + es[k].interval * SECOND)
              || (exists j :: 0 <= j < k && es[j].Repeats() && es[j].interval == es[k].interval)
  {
    var when := now + es[k].interval * SECOND;
    TakenAfterRecycling(q, es[..k], now, when);
    if PutBackAt(es[..k], now, when) {
      var j :| 0 <= j < k && es[..k][j].Repeats() && Restarted(es[..k][j], now).when == when;
      assert es[j].Repeats() && es[j].interval == es[k].interval;
    }
    if j :| 0 <= j < k && es[j].Repeats() && es[j].interval == es[k].interval {
      assert es[..k][j].Repeats() && Restarted(es[..k][j], now).when == when;
    }
  }

  /** A new timer is refused if and only if another one waits for the same expiration. */
  lemma NewTimerRefusedIff(q: Timing, e: Entry, clock: int)
    requires Inv(q) && Legal(q, Add(e, clock))
    ensures e.id in AddTimer(q, e, clock).ledger.refused <==> Taken(q.timers, e.when)
  {
    assert multiset(q.ledger.refused)[e.id] <= multiset(q.ledger.created)[e.id];
  }

  lemma RunCons(q: Timing, ev: Event, evs: seq<Event>)
    ensures LegalRun(q, [ev] + evs) <==> Legal(q, ev) && LegalRun(Step(q, ev), evs)
    ensures LegalRun(q, [ev] + evs) ==> Run(q, [ev] + evs) == Run(Step(q, ev), evs)
  {
    assert ([ev] + evs)[1..] == evs;
  }

  /** The two entries of a batch put back into an empty set. */
  lemma TwinsRecycled(q: Timing, a: Entry, b: Entry, now: int)
    requires q.timers == [] && a.Repeats() && b.Repeats() && a.interval == b.interval
    ensures RecycleAll(q, [a, b], now) ==
              q.(timers := [Restarted(a, now)], ledger := q.ledger.(refused := q.ledger.refused + {b.id}))
  {
    assert [a, b][..1] == [a] && [a][..0] == [];
    var p := RecycleAll(q, [a], now);
    assert p == Recycle(RecycleAll(q, [], now), a, now);
    assert p.timers == [Restarted(a, now)];
    assert p.timers[0].when == Restarted(b, now).when;
  }

  const TWIN_A := Entry(0, 1, 1)
  const TWIN_B := Entry(1, 2, 1)

  function TwinsWaiting(): Timing {
    Timing([TWIN_A, TWIN_B], None, Armed(1, 0), Ledger({0, 1}, {}, {}), 0)
  }

  function TwinsDue(): Timing {
    Timing([], Some(Batch([TWIN_A, TWIN_B], 100_000)), Disarmed, Ledger({0, 1}, {}, {}), 100_000)
  }

  lemma TwinsAdded()
    ensures LegalRun(Init(0), [Add(TWIN_A, 0)] + [Add(TWIN_B, 0)])
    ensures Run(Init(0), [Add(TWIN_A, 0)] + [Add(TWIN_B, 0)]) == TwinsWaiting()
  {
    var q1 := Step(Init(0), Add(TWIN_A, 0));
    assert q1.timers == [TWIN_A];
    assert [TWIN_A][1..] == [] && Insert([TWIN_A], TWIN_B) == [TWIN_A] + [TWIN_B];
    assert Step(q1, Add(TWIN_B, 0)) == TwinsWaiting();
    RunCons(Init(0), Add(TWIN_A, 0), [Add(TWIN_B, 0)]);
    RunCons(q1, Add(TWIN_B, 0), []);
    assert [Add(TWIN_B, 0)] + [] == [Add(TWIN_B, 0)];
  }

  lemma TwinsTaken()
    ensures LegalRun(TwinsWaiting(), [Fire(100_000)] + [Begin(100_000)])
    ensures Run(TwinsWaiting(), [Fire(100_000)] + [Begin(100_000)]) == TwinsDue()
  {
    var ts := [TWIN_A, TWIN_B];
    assert ts[1..] == [TWIN_B] && [TWIN_B][1..] == [] && UpperBound(ts, 100_000) == 2;
    assert ts[..2] == ts && ts[2..] == [];
    var q := Step(TwinsWaiting(), Fire(100_000));
    assert Step(q, Begin(100_000)) == TwinsDue();
    RunCons(TwinsWaiting(), Fire(100_000), [Begin(100_000)]);
    RunCons(q, Begin(100_000), []);
    assert [Begin(100_000)] + [] == [Begin(100_000)];
  }

  function TwinsRun(): seq<Event> {
    ([Add(TWIN_A, 0)] + [Add(TWIN_B, 0)]) + ([Fire(100_000)] + [Begin(100_000)])
  }

  lemma {:induction false} RunAppend(q: Timing, a: seq<Event>, b: seq<Event>)
    requires LegalRun(q, a) && LegalRun(Run(q, a), b)
    ensures LegalRun(q, a + b) && Run(q, a + b) == Run(Run(q, a), b)
    decreases a
  {
    hide Step, Legal;
    if a == [] {
      assert a + b == b;
    } else {
      assert (a + b)[1..] == a[1..] + b;
      RunAppend(Step(q, a[0]), a[1..], b);
    }
  }

  /** A run that loses a timer: two timers of one second fall due in the same batch, and
    * only the first is put back. */
  lemma TwinsCollide()
    ensures LegalRun(Init(0), TwinsRun()) && Legal(Run(Init(0), TwinsRun()), End(100_000))
    ensures var q := Step(Run(Init(0), TwinsRun()), End(100_000));
            q.batch.None? && q.timers == [Entry(0, 100_000 + SECOND, 1)] && q.ledger == Ledger({0, 1}, {}, {1})
  {
    TwinsAdded();
    TwinsTaken();
    hide Run, LegalRun;
    RunAppend(Init(0), [Add(TWIN_A, 0)] + [Add(TWIN_B, 0)], [Fire(100_000)] + [Begin(100_000)]);
    TwinsRecycled(TwinsDue().(batch := None), TWIN_A, TWIN_B, 100_000);
  }
}
