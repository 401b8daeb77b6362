/** What each step of the timer queue leaves in the set, told timer by timer. */
module TimerOutcomes {
  import opened Prelude
  import opened Timers
  import opened TimerProofs

  lemma {:induction false} InsertHolds(ts: seq<Entry>, e: Entry, x: Entry)
    requires Sorted(ts)
    ensures x in Insert(ts, e) <==> x in ts || (x == e && !Taken(ts, e.when))
  {
    if ts == [] || e.when < ts[0].when {
      BelowIsFree(ts, e.when);
    } else {
      SortedTail(ts);
      TakenTail(ts, e.when);
      assert ts == [ts[0]] + ts[1..];
      if e.when != ts[0].when {
        hide Sorted, Taken;
        InsertHolds(ts[1..], e, x);
      }
    }
  }

  /** addTimer() puts the timer in unless its expiration is taken, and sets the alarm for it
    * if it is the first to expire. */
  lemma AddPlaces(q: Timing, e: Entry, clock: int, x: Entry)
    requires Inv(q) && Legal(q, Add(e, clock))
    ensures var r := Step(q, Add(e, clock));
      && (x in r.timers <==> x in q.timers || (x == e && forall y :: y in q.timers ==> y.when != e.when))
      && r.alarm == (if forall y :: y in q.timers ==> e.when < y.when then Armed(e.when, clock) else q.alarm)
      && r.clock == clock && r.batch == q.batch
  {
    InsertHolds(q.timers, e, x);
    TakenIs(q.timers, e.when);
    EarliestIs(q.timers, e.when);
    hide Taken, Insert, Sorted, Earliest;
  }

  lemma TakenIs(ts: seq<Entry>, when: int)
    ensures Taken(ts, when) <==> exists y :: y in ts && y.when == when
  {
    if y :| y in ts && y.when == when {
      var k :| 0 <= k < |ts| && ts[k] == y;
      assert ts[k].when == when;
    }
  }

  lemma EarliestIs(ts: seq<Entry>, when: int)
    requires Sorted(ts)
    ensures Earliest(ts, when) <==> forall y :: y in ts ==> when < y.when
  {
    if |ts| > 0 { assert ts[0] in ts; }
  }

  /** The alarm's handler takes exactly the timers due, in order of expiration. */
  lemma BeginTakes(q: Timing, now: int, x: Entry)
    requires Inv(q) && Legal(q, Begin(now))
    ensures var r := Step(q, Begin(now));
      && r.batch.Some? && r.batch.value.now == now && r.batch.value.entries + r.timers == q.timers
      && (x in r.batch.value.entries <==> x in q.timers && x.when <= now)
      && (x in r.timers <==> x in q.timers && x.when > now)
  {
    BatchIsExactlyTheDue(q.timers, now);
    hide Sorted, UpperBound, Conserved;
    Parted(q.timers, UpperBound(q.timers, now), now, x);
  }

  lemma Parted(ts: seq<Entry>, k: nat, now: int, x: Entry)
    requires k <= |ts|
    requires (forall i :: 0 <= i < k ==> ts[i].when <= now) && (forall i :: k <= i < |ts| ==> ts[i].when > now)
    ensures ts[..k] + ts[k..] == ts
    ensures (x in ts[..k] <==> x in ts && x.when <= now) && (x in ts[k..] <==> x in ts && x.when > now)
  {
  }

  /** x is what timer k of the batch comes back as: an interval of whole seconds after the
    * time the batch was taken at, unless that expiration is taken, or another timer ahead
    * in the batch has the same interval. */
  ghost predicate ComesBack(ts: seq<Entry>, es: seq<Entry>, now: int, k: nat, x: Entry) {
    && k < |es| && es[k].interval > 0
    && x == Entry(es[k].id, now + es[k].interval * 1_000_000_000, es[k].interval)
    && (forall y :: y in ts ==> y.when != x.when)
    && (forall j :: 0 <= j < k ==> es[j].interval != es[k].interval)
  }

  lemma PutBackIff(es: seq<Entry>, now: int, interval: int)
    requires interval > 0
    ensures PutBackAt(es, now, now + interval * 1_000_000_000) <==>
              exists j :: 0 <= j < |es| && es[j].interval == interval
  {
    if j :| 0 <= j < |es| && es[j].interval == interval {
      assert es[j].Repeats() && Restarted(es[j], now).when == now + interval * 1_000_000_000;
    }
    if PutBackAt(es, now, now + interval * 1_000_000_000) {
      var j :| 0 <= j < |es| && es[j].Repeats() && Restarted(es[j], now).when == now + interval * 1_000_000_000;
      assert es[j].interval == interval;
    }
  }

  lemma {:induction false} RecycleSorted(q: Timing, es: seq<Entry>, now: int)
    requires Sorted(q.timers)
    ensures Sorted(RecycleAll(q, es, now).timers)
    decreases |es|
  {
    if es != [] {
      var k := |es| - 1;
      RecycleSorted(q, es[..k], now);
      InsertSorted(RecycleAll(q, es[..k], now).timers, Restarted(es[k], now));
      hide Sorted, Insert, Taken;
    }
  }

  /** The last timer of a batch. */
  lemma {:induction false} LastBack(q: Timing, es: seq<Entry>, now: int, x: Entry)
    requires Sorted(q.timers) && |es| > 0
    ensures var k := |es| - 1;
      x in RecycleAll(q, es, now).timers <==>
        x in RecycleAll(q, es[..k], now).timers || ComesBack(q.timers, es, now, k, x)
  {
    var k := |es| - 1;
    var p, e := RecycleAll(q, es[..k], now), es[k];
    RecycleSorted(q, es[..k], now);
    InsertHolds(p.timers, Restarted(e, now), x);
    if e.interval > 0 {
      TakenAfterRecycling(q, es[..k], now, Restarted(e, now).when);
      PutBackIff(es[..k], now, e.interval);
      TakenIs(q.timers, Restarted(e, now).when);
      if j :| 0 <= j < k && es[j].interval == e.interval { assert es[..k][j].interval == e.interval; }
    }
    hide Sorted, Insert, Taken, PutBackAt;
    assert RecycleAll(q, es, now) == Recycle(p, e, now);
  }

  /** What is in the set once a batch has been put back: what was there, and what comes
    * back. */
  lemma {:induction false} RecycledAre(q: Timing, es: seq<Entry>, now: int, x: Entry)
    requires Sorted(q.timers)
    ensures x in RecycleAll(q, es, now).timers <==>
              x in q.timers || exists k: nat :: ComesBack(q.timers, es, now, k, x)
    decreases |es|
  {
    if es != [] {
      var n := |es| - 1;
      RecycledAre(q, es[..n], now, x);
      LastBack(q, es, now, x);
      hide Sorted, RecycleAll;
      forall k: nat | k < n ensures ComesBack(q.timers, es[..n], now, k, x) <==> ComesBack(q.timers, es, now, k, x) {
        assert es[..n][k] == es[k];
      }
      if k: nat :| ComesBack(q.timers, es, now, k, x) { assert k == n || ComesBack(q.timers, es[..n], now, k, x); }
      if k: nat :| ComesBack(q.timers, es[..n], now, k, x) { assert ComesBack(q.timers, es, now, k, x); }
    }
  }

  /** Timers that do not repeat are done with. */
  lemma {:induction false} DoneAre(q: Timing, es: seq<Entry>, now: int, id: nat)
    ensures id in RecycleAll(q, es, now).ledger.deleted <==>
              id in q.ledger.deleted || exists k :: 0 <= k < |es| && es[k].interval <= 0 && es[k].id == id
    decreases |es|
  {
    if es != [] {
      var n := |es| - 1;
      DoneAre(q, es[..n], now, id);
      hide Taken, Insert;
      if k :| 0 <= k < |es| && es[k].interval <= 0 && es[k].id == id { assert k == n || es[..n][k] == es[k]; }
      if k :| 0 <= k < |es[..n]| && es[..n][k].interval <= 0 && es[..n][k].id == id { assert es[k] == es[..n][k]; }
    }
  }

  /** reset(): the set is what it was and what comes back, counted from the time the batch
    * was taken and not from the time it ends; the rest of the batch is deleted or refused;
    * and the alarm is set, at the end, for the first to expire. */
  lemma EndPutsBack(q: Timing, clock: int, x: Entry)
    requires Inv(q) && Legal(q, End(clock))
    ensures var es := q.batch.value.entries; var now := q.batch.value.now; var r := Step(q, End(clock));
      && (x in r.timers <==> x in q.timers || exists k: nat :: ComesBack(q.timers, es, now, k, x))
      && (x.id in r.ledger.deleted <==>
            x.id in q.ledger.deleted || exists k :: 0 <= k < |es| && es[k].interval <= 0 && es[k].id == x.id)
      && (x in r.timers ==> r.alarm.Armed? && r.alarm.at == clock && r.alarm.target <= x.when)
      && (r.timers == [] ==> r.alarm == q.alarm)
  {
    var c := q.(batch := None);
    RecycledAre(c, q.batch.value.entries, q.batch.value.now, x);
    DoneAre(c, q.batch.value.entries, q.batch.value.now, x.id);
    EndInv(q, clock);
    var p := RecycleAll(c, q.batch.value.entries, q.batch.value.now);
    RecycleAlarm(c, q.batch.value.entries, q.batch.value.now);
    hide RecycleAll, ComesBack, Conserved;
  }

  lemma {:induction false} RecycleAlarm(q: Timing, es: seq<Entry>, now: int)
    ensures RecycleAll(q, es, now).alarm == q.alarm
    decreases |es|
  {
    if es != [] { RecycleAlarm(q, es[..|es| - 1], now); }
  }

  /** A timer of i seconds alone in its batch comes back i seconds after the batch's time. */
  lemma RepeatsEverySecond(q: Timing, e: Entry, now: int, clock: int)
    requires q.timers == [] && q.batch == Some(Batch([e], now)) && e.interval > 0 && now <= clock
    ensures EndRead(q, clock).timers == [Entry(e.id, now + e.interval * 1_000_000_000, e.interval)]
  {
    assert [e][..0] == [];
    var c := q.(batch := None);
    assert RecycleAll(c, [], now) == c;
    assert RecycleAll(c, [e], now) == Recycle(c, e, now);
  }
}
