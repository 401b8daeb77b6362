/** Timers: a set ordered and keyed by expiration, the batch being run, and the one
  * hardware alarm. Times are nanoseconds on one clock. */
module Timers {
  import opened Prelude

  const SECOND: int := 1_000_000_000
  const MIN_DELAY_US: int := 100

  /** interval is in seconds; a timer repeats if it is positive. */
  datatype Entry = Entry(id: nat, when: int, interval: int) {
    predicate Repeats() { interval > 0 }
  }

  /** Armed: for which expiration, and at what time it was set. */
  datatype Alarm = Disarmed | Armed(target: int, at: int) | Fired

  datatype Batch = Batch(entries: seq<Entry>, now: int)

  /** What has become of timers: all ever added, those deleted after running, and those
    * the set refused because their expiration was taken. */
  datatype Ledger = Ledger(created: set<nat>, deleted: set<nat>, refused: set<nat>)

  datatype Timing = Timing(timers: seq<Entry>, batch: Option<Batch>, alarm: Alarm, ledger: Ledger, clock: int)

  function Init(clock: int): Timing { Timing([], None, Disarmed, Ledger({}, {}, {}), clock) }

  /** howMuchTimeFromNow: the wait is cut to whole microseconds and is at least 100. */
  function Due(target: int, at: int): int { at + 1000 * Max((target - at) / 1000, MIN_DELAY_US) }

  /** std::set::insert under a comparison of expirations alone. */
  function Insert(ts: seq<Entry>, e: Entry): seq<Entry> {
    if ts == [] || e.when < ts[0].when then [e] + ts
    else if e.when == ts[0].when then ts
    else [ts[0]] + Insert(ts[1..], e)
  }

  predicate Taken(ts: seq<Entry>, when: int) { exists k :: 0 <= k < |ts| && ts[k].when == when }

  /** set::upper_bound of now. */
  function UpperBound(ts: seq<Entry>, now: int): (k: nat)
    ensures k <= |ts|
  {
    if ts == [] || ts[0].when > now then 0 else 1 + UpperBound(ts[1..], now)
  }

  /** Into the set, or onto the list of the refused. */
  function Place(q: Timing, e: Entry): Timing {
    if Taken(q.timers, e.when) then q.(ledger := q.ledger.(refused := q.ledger.refused + {e.id}))
    else q.(timers := Insert(q.timers, e))
  }

  function Earliest(ts: seq<Entry>, when: int): bool { ts == [] || when < ts[0].when }

  function AddTimer(q: Timing, e: Entry, clock: int): Timing {
    var p := Place(q.(ledger := q.ledger.(created := q.ledger.created + {e.id}), clock := clock), e);
    if Earliest(q.timers, e.when) then p.(alarm := Armed(e.when, clock)) else p
  }

  /** Reading the timerfd, and getExpired. */
  function BeginRead(q: Timing, now: int): Timing {
    var k := UpperBound(q.timers, now);
    q.(timers := q.timers[k..], batch := Some(Batch(q.timers[..k], now)),
       alarm := if q.alarm.Fired? then Disarmed else q.alarm, clock := now)
  }

  function Restarted(e: Entry, now: int): Entry { e.(when := now + e.interval * SECOND) }

  function Recycle(q: Timing, e: Entry, now: int): Timing {
    if e.Repeats() then Place(q, Restarted(e, now))
    else q.(ledger := q.ledger.(deleted := q.ledger.deleted + {e.id}))
  }

  function RecycleAll(q: Timing, es: seq<Entry>, now: int): Timing {
    if es == [] then q else Recycle(RecycleAll(q, es[..|es| - 1], now), es[|es| - 1], now)
  }

  /** reset(): every timer of the batch is put back or deleted, then the alarm is set for
    * the first timer, if there is one. */
  function EndRead(q: Timing, clock: int): Timing
    requires q.batch.Some?
  {
    var p := RecycleAll(q.(batch := None), q.batch.value.entries, q.batch.value.now).(clock := clock);
    if p.timers == [] then p else p.(alarm := Armed(p.timers[0].when, clock))
  }

  datatype Event =
    | Add(e: Entry, clock: int)
    | Begin(now: int)
    | End(clock: int)
    | Fire(clock: int)

  /** Callbacks of a batch add timers between Begin and End. The handler may also run with
    * the alarm not fired: another handler of the same round may have set it anew. */
  predicate Legal(q: Timing, ev: Event) {
    match ev
    case Add(e, clock) => e.id !in q.ledger.created && q.clock <= clock
    case Begin(now) => q.batch.None? && q.clock <= now
    case End(clock) => q.batch.Some? && q.clock <= clock
    case Fire(clock) => q.alarm.Armed? && Due(q.alarm.target, q.alarm.at) <= clock && q.clock <= clock
  }

  function Step(q: Timing, ev: Event): Timing
    requires Legal(q, ev)
  {
    match ev
    case Add(e, clock) => AddTimer(q, e, clock)
    case Begin(now) => BeginRead(q, now)
    case End(clock) => EndRead(q, clock)
    case Fire(clock) => q.(alarm := Fired, clock := clock)
  }

  predicate LegalRun(q: Timing, evs: seq<Event>)
    decreases evs
  {
    evs == [] || (Legal(q, evs[0]) && LegalRun(Step(q, evs[0]), evs[1..]))
  }

  function Run(q: Timing, evs: seq<Event>): Timing
    requires LegalRun(q, evs)
    decreases evs
  {
    if evs == [] then q else Run(Step(q, evs[0]), evs[1..])
  }

  // ---------------------------------------------------------- the sorted set

  ghost predicate Sorted(ts: seq<Entry>) {
    forall i, j :: 0 <= i < j < |ts| ==> ts[i].when < ts[j].when
  }

  /** The set as a map keyed by expiration. */
  function AsMap(ts: seq<Entry>): map<int, Entry> {
    if ts == [] then map[] else AsMap(ts[1..])[ts[0].when := ts[0]]
  }

  function Ids(ts: seq<Entry>): multiset<nat> {
    if ts == [] then multiset{} else multiset{ts[0].id} + Ids(ts[1..])
  }

  lemma TakenTail(ts: seq<Entry>, when: int)
    requires ts != []
    ensures Taken(ts, when) <==> ts[0].when == when || Taken(ts[1..], when)
  {
    if Taken(ts, when) && ts[0].when != when {
      var k :| 0 <= k < |ts| && ts[k].when == when;
      assert ts[1..][k - 1].when == when;
    }
    if Taken(ts[1..], when) {
      var k :| 0 <= k < |ts[1..]| && ts[1..][k].when == when;
      assert ts[k + 1].when == when;
    }
  }

  lemma HeadSlices(ts: seq<Entry>, k: nat)
    requires 0 < k <= |ts|
    ensures ts[..k] == [ts[0]] + ts[1..][..k - 1] && ts[k..] == ts[1..][k - 1..] && ts == [ts[0]] + ts[1..]
  {
  }

  lemma SortedTail(ts: seq<Entry>)
    requires Sorted(ts) && |ts| > 0
    ensures Sorted(ts[1..]) && forall k :: 1 <= k < |ts| ==> ts[0].when < ts[k].when
  {
  }

  lemma SortedParts(ts: seq<Entry>, k: nat)
    requires Sorted(ts) && k <= |ts|
    ensures Sorted(ts[..k]) && Sorted(ts[k..])
  {
  }

  lemma BelowIsFree(ts: seq<Entry>, when: int)
    requires Sorted(ts) && (|ts| > 0 ==> when < ts[0].when)
    ensures !Taken(ts, when)
  {
    if |ts| > 0 { SortedTail(ts); }
  }

  /** Inserting keeps the set sorted, adds the timer if its expiration is free, and tells
    * truly whether the first expiration has changed. */
  lemma {:induction false} InsertSorted(ts: seq<Entry>, e: Entry)
    requires Sorted(ts)
    ensures Sorted(Insert(ts, e)) && |Insert(ts, e)| > 0
    ensures Taken(ts, e.when) ==> Insert(ts, e) == ts
    ensures Insert(ts, e)[0].when == if Earliest(ts, e.when) then e.when else ts[0].when
  {
    if ts == [] || e.when < ts[0].when {
    } else if e.when > ts[0].when {
      TakenTail(ts, e.when);
      InsertSorted(ts[1..], e);
      assert ts == [ts[0]] + ts[1..];
    }
  }

  lemma {:induction false} InsertIds(ts: seq<Entry>, e: Entry)
    requires Sorted(ts) && !Taken(ts, e.when)
    ensures Ids(Insert(ts, e)) == Ids(ts) + multiset{e.id}
  {
    if ts == [] || e.when < ts[0].when {
      assert ([e] + ts)[1..] == ts;
    } else {
      TakenTail(ts, e.when);
      InsertIds(ts[1..], e);
      var r := Insert(ts[1..], e);
      assert ([ts[0]] + r)[1..] == r;
    }
  }

  lemma {:induction false} InsertTakes(ts: seq<Entry>, e: Entry, when: int)
    ensures Taken(Insert(ts, e), when) <==> Taken(ts, when) || e.when == when
  {
    if ts == [] || e.when < ts[0].when {
      assert ([e] + ts)[1..] == ts;
      TakenTail([e] + ts, when);
    } else {
      TakenTail(ts, when);
      if e.when != ts[0].when {
        InsertTakes(ts[1..], e, when);
        var r := Insert(ts[1..], e);
        assert ([ts[0]] + r)[1..] == r;
        TakenTail([ts[0]] + r, when);
      }
    }
  }

  lemma {:induction false} MapKeys(ts: seq<Entry>, when: int)
    ensures when in AsMap(ts) <==> Taken(ts, when)
  {
    if ts != [] {
      TakenTail(ts, when);
      MapKeys(ts[1..], when);
    }
  }

  /** The set refines an insert-if-absent map keyed by expiration. */
  lemma {:induction false} InsertRefinesMap(ts: seq<Entry>, e: Entry)
    requires Sorted(ts)
    ensures AsMap(Insert(ts, e)) == if e.when in AsMap(ts) then AsMap(ts) else AsMap(ts)[e.when := e]
  {
    MapKeys(ts, e.when);
    if ts == [] || e.when < ts[0].when {
      assert ([e] + ts)[1..] == ts;
    } else if e.when > ts[0].when {
      InsertRefinesMap(ts[1..], e);
      var r := Insert(ts[1..], e);
      assert ([ts[0]] + r)[1..] == r;
    }
  }

  /** A batch is exactly the timers due; the rest are all later. */
  lemma {:induction false} BatchIsExactlyTheDue(ts: seq<Entry>, now: int)
    requires Sorted(ts)
    ensures var k := UpperBound(ts, now);
            && (forall i :: 0 <= i < k ==> ts[i].when <= now)
            && (forall i :: k <= i < |ts| ==> ts[i].when > now)
  {
    if |ts| > 0 {
      SortedTail(ts);
      hide Sorted;
      if ts[0].when <= now {
        var rest := ts[1..];
        BatchIsExactlyTheDue(rest, now);
        assert forall i :: 1 <= i < |ts| ==> ts[i] == rest[i - 1];
      }
    }
  }
}
