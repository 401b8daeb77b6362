/** The timer queue as it is run: timers are objects whose expiration is rewritten when
  * they repeat, and the set they live in is ordered by that very field. */
module TimerQueues {
  import opened Prelude
  import opened Timers
  import opened TimerProofs

  class Timer {
    var expiration: int
    const interval: int
    const sequence: nat

    constructor (when: int, interval: int, sequence: nat)
      ensures Value() == Entry(sequence, when, interval)
    {
      expiration, this.interval, this.sequence := when, interval, sequence;
    }

    function Value(): (e: Entry)
      reads this
      ensures e.Repeats() <==> interval > 0
    {
      Entry(sequence, expiration, interval)
    }

    /** The second time is the clock's, used by a timer that does not repeat. */
    method Restart(now: int, clock: int)
      modifies this
      ensures Value() == if interval > 0 then Restarted(old(Value()), now) else old(Value()).(when := clock)
    {
      if interval > 0 {
        expiration := now + interval * SECOND;
      } else {
        expiration := clock;
      }
    }
  }

  ghost function Values(ts: seq<Timer>): (es: seq<Entry>)
    reads ts
    ensures |es| == |ts| && forall k :: 0 <= k < |ts| ==> es[k] == ts[k].Value()
  {
    seq(|ts|, k requires 0 <= k < |ts| reads ts => ts[k].Value())
  }

  lemma Splice(a: seq<Entry>, b: seq<Entry>, c: seq<Entry>, d: seq<Entry>)
    ensures a + b + c + d == a + (b + c + d)
  {
  }

  /** Where a timer goes: all before i expire earlier. */
  lemma {:induction false} InsertAt(ts: seq<Entry>, e: Entry, i: nat)
    requires Sorted(ts) && i <= |ts| && forall k :: 0 <= k < i ==> ts[k].when < e.when
    requires i == |ts| || e.when <= ts[i].when
    ensures Insert(ts, e) == if i < |ts| && ts[i].when == e.when then ts else ts[..i] + [e] + ts[i..]
    ensures Taken(ts, e.when) <==> i < |ts| && ts[i].when == e.when
  {
    if i == 0 {
      assert ts[..0] == [] && ts[0..] == ts;
      if i < |ts| && ts[i].when == e.when {
        assert Taken(ts, e.when);
      } else {
        BelowIsFree(ts, e.when);
      }
    } else {
      SortedTail(ts);
      TakenTail(ts, e.when);
      hide Sorted, Taken;
      InsertAt(ts[1..], e, i - 1);
      HeadSlices(ts, i);
      Splice([ts[0]], ts[1..][..i - 1], [e], ts[i..]);
    }
  }

  lemma {:induction false} BoundAt(ts: seq<Entry>, now: int, k: nat)
    requires k <= |ts| && forall i :: 0 <= i < k ==> ts[i].when <= now
    requires k == |ts| || ts[k].when > now
    requires Sorted(ts)
    ensures UpperBound(ts, now) == k && forall i :: k <= i < |ts| ==> ts[i].when > now
  {
    if |ts| > 0 {
      SortedTail(ts);
      hide Sorted;
      if k > 0 {
        BoundAt(ts[1..], now, k - 1);
        assert forall i :: 1 <= i < |ts| ==> ts[i] == ts[1..][i - 1];
      }
    }
  }

  lemma ValuesSplit(ts: seq<Timer>, k: nat)
    requires k <= |ts|
    ensures Values(ts[..k]) == Values(ts)[..k] && Values(ts[k..]) == Values(ts)[k..]
  {
  }

  lemma ValuesSplice(ts: seq<Timer>, k: nat, timer: Timer)
    requires k <= |ts|
    ensures Values(ts[..k] + [timer] + ts[k..]) == Values(ts)[..k] + [timer.Value()] + Values(ts)[k..]
    ensures forall t :: t in ts[..k] + [timer] + ts[k..] ==> t in ts || t == timer
  {
  }

  /** Timers with different expirations are different timers. */
  lemma PartsDisjoint(ts: seq<Timer>, k: nat, now: int)
    requires k <= |ts|
    requires forall i :: 0 <= i < k ==> ts[i].expiration <= now
    requires forall i :: k <= i < |ts| ==> ts[i].expiration > now
    ensures forall t :: t in ts[k..] ==> t !in ts[..k]
  {
  }

  lemma SortedDistinct(ts: seq<Timer>)
    requires Sorted(Values(ts))
    ensures Sorted(Values([]))
    ensures forall j, k :: 0 <= j < k < |ts| ==> ts[j] != ts[k]
  {
    assert forall j, k :: 0 <= j < k < |ts| ==> Values(ts)[j].when < Values(ts)[k].when;
  }

  lemma RecycleStep(q: Timing, es: seq<Entry>, i: nat, now: int)
    requires i <= |es|
    ensures RecycleAll(q, es[..0], now) == q
    ensures i < |es| ==> RecycleAll(q, es[..i + 1], now) == Recycle(RecycleAll(q, es[..i], now), es[i], now)
  {
    hide Recycle;
    if i < |es| {
      assert es[..i + 1][..i] == es[..i] && es[..i + 1][i] == es[i];
    }
  }

  /** A call of addTimer: what is asked for, and when. */
  datatype Request = Request(when: int, interval: int, clock: int)

  function AddAll(q: Timing, next: nat, rs: seq<Request>): (r: Timing)
    ensures r.batch == q.batch
  {
    if rs == [] then q
    else
      var r := rs[|rs| - 1];
      AddTimer(AddAll(q, next, rs[..|rs| - 1]), Entry(next + |rs| - 1, r.when, r.interval), r.clock)
  }

  function Flat(rss: seq<seq<Request>>): seq<Request> {
    if rss == [] then [] else Flat(rss[..|rss| - 1]) + rss[|rss| - 1]
  }

  /** The calls made by the callbacks of the first n timers of a batch. */
  function Calls(callbacks: seq<seq<Request>>, n: nat): seq<Request> {
    Flat(callbacks[..if n <= |callbacks| then n else |callbacks|])
  }

  class TimerQueue {
    var timers: seq<Timer>
    var alarm: Alarm
    var numCreated: nat
    var callingExpiredTimers: bool
    ghost var batch: Option<(seq<Timer>, int)>
    ghost var ledger: Ledger
    ghost var clock: int

    ghost function BatchTimers(): seq<Timer>
      reads this
    {
      if batch.Some? then batch.value.0 else []
    }

    ghost function View(): Timing
      reads this, timers, BatchTimers()
    {
      Timing(Values(timers), if batch.Some? then Some(Batch(Values(batch.value.0), batch.value.1)) else None,
             alarm, ledger, clock)
    }

    /** No timer of the batch is in the set; within each, expirations differ, and so do
      * the timers. */
    ghost predicate Valid()
      reads this, timers, BatchTimers()
    {
      && Sorted(Values(timers)) && Sorted(Values(BatchTimers()))
      && (forall t :: t in timers ==> t !in BatchTimers())
      && (forall id :: id in ledger.created ==> id < numCreated)
    }

    constructor (clock: int)
      ensures Valid() && View() == Init(clock)
    {
      timers, alarm, numCreated, callingExpiredTimers := [], Disarmed, 0, false;
      batch, ledger, this.clock := None, Ledger({}, {}, {}), clock;
    }

    method ResetTimerfd(when: int, now: int)
      modifies this`alarm
      ensures alarm == Armed(when, now)
    {
      alarm := Armed(when, now);
    }

    /** The place in the set for a timer, and whether its expiration is free. */
    method FindSlot(timer: Timer) returns (i: nat, free: bool)
      requires Sorted(Values(timers))
      ensures i <= |timers| && (free <==> !Taken(Values(timers), timer.expiration))
      ensures Timers.Insert(Values(timers), timer.Value())
              == if free then Values(timers)[..i] + [timer.Value()] + Values(timers)[i..] else Values(timers)
    {
      i := 0;
      while i < |timers| && timers[i].expiration < timer.expiration
        invariant 0 <= i <= |timers|
        invariant forall k :: 0 <= k < i ==> Values(timers)[k].when < timer.expiration
      {
        i := i + 1;
      }
      InsertAt(Values(timers), timer.Value(), i);
      free := i == |timers| || timers[i].expiration != timer.expiration;
    }

    /** How many timers are due. */
    method CountDue(now: int) returns (k: nat)
      requires Sorted(Values(timers))
      ensures k <= |timers| && k == UpperBound(Values(timers), now)
      ensures forall i :: 0 <= i < k ==> timers[i].expiration <= now
      ensures forall i :: k <= i < |timers| ==> timers[i].expiration > now
    {
      k := 0;
      while k < |timers| && timers[k].expiration <= now
        invariant 0 <= k <= |timers|
        invariant forall i :: 0 <= i < k ==> Values(timers)[i].when <= now
      {
        k := k + 1;
      }
      BoundAt(Values(timers), now, k);
      hide Sorted, UpperBound;
      assert forall i :: 0 <= i < |timers| ==> Values(timers)[i].when == timers[i].expiration;
    }

    /** std::set::insert: nothing happens to a timer whose expiration is taken. */
    method Insert(timer: Timer) returns (earliestChanged: bool)
      requires Sorted(Values(timers)) && timer !in timers
      modifies this`timers, this`ledger
      ensures Sorted(Values(timers))
      ensures earliestChanged == Earliest(old(Values(timers)), timer.expiration)
      ensures Values(timers) == Timers.Insert(old(Values(timers)), timer.Value())
      ensures forall t :: t in timers ==> t in old(timers) || t == timer
      ensures ledger == if Taken(old(Values(timers)), timer.expiration)
                        then old(ledger).(refused := old(ledger).refused + {timer.sequence}) else old(ledger)
      ensures Taken(old(Values(timers)), timer.expiration) ==> Values(timers) == old(Values(timers))
    {
      earliestChanged := |timers| == 0 || timer.expiration < timers[0].expiration;
      assert earliestChanged == Earliest(Values(timers), timer.expiration);
      var i, free := FindSlot(timer);
      InsertSorted(Values(timers), timer.Value());
      hide Sorted, Timers.Insert, Taken, Values, Earliest;
      if free {
        ValuesSplice(timers, i, timer);
        SetTimers(timers[..i] + [timer] + timers[i..]);
      } else {
        Refuse(timer.sequence);
      }
    }

    method SetTimers(ts: seq<Timer>)
      modifies `timers
      ensures timers == ts && Values(ts) == old(Values(ts))
    {
      timers := ts;
    }

    method Refuse(id: nat)
      modifies `ledger
      ensures ledger == old(ledger).(refused := old(ledger).refused + {id}) && Values(timers) == old(Values(timers))
    {
      ledger := ledger.(refused := ledger.refused + {id});
    }

    /** A timer of its own, in no set yet. */
    method Allocate(when: int, interval: int, now: int) returns (timer: Timer)
      modifies this`numCreated, this`ledger, this`clock
      ensures fresh(timer) && timer.Value() == Entry(old(numCreated), when, interval)
      ensures numCreated == old(numCreated) + 1
      ensures View() == old(View()).(ledger := old(ledger).(created := old(ledger).created + {timer.sequence}),
                                     clock := now)
      ensures Values(timers) == old(Values(timers)) && Values(BatchTimers()) == old(Values(BatchTimers()))
    {
      timer := new Timer(when, interval, numCreated);
      numCreated := numCreated + 1;
      ledger := ledger.(created := ledger.created + {timer.sequence});
      clock := now;
    }

    /** addTimer and addTimerInLoop, on the loop's own thread. */
    method AddTimer(when: int, interval: int, now: int) returns (timer: Timer)
      requires Valid()
      modifies this
      ensures Valid() && fresh(timer) && timer.Value() == Entry(old(numCreated), when, interval)
      ensures View() == Timers.AddTimer(old(View()), timer.Value(), now)
      ensures batch == old(batch) && numCreated == old(numCreated) + 1
      ensures callingExpiredTimers == old(callingExpiredTimers)
    {
      hide Sorted, Timers.Insert, Taken, Values;
      timer := Allocate(when, interval, now);
      var earliestChanged := Insert(timer);
      if earliestChanged {
        ResetTimerfd(timer.expiration, now);
      }
    }

    /** Moves the timers due out of the set. */
    method GetExpired(now: int) returns (expired: seq<Timer>)
      requires Valid() && batch.None?
      modifies this`timers, this`batch, this`clock
      ensures Valid() && batch == Some((expired, now)) && expired <= old(timers)
      ensures View() == Timers.BeginRead(old(View()).(alarm := Disarmed), now).(alarm := alarm)
    {
      var k := CountDue(now);
      SortedParts(Values(timers), k);
      PartsDisjoint(timers, k, now);
      hide Sorted, UpperBound, Values;
      expired := MoveOut(k, now);
    }

    method MoveOut(k: nat, now: int) returns (expired: seq<Timer>)
      requires k <= |timers|
      modifies this`timers, this`batch, this`clock
      ensures expired == old(timers)[..k] && timers == old(timers)[k..]
      ensures batch == Some((expired, now)) && clock == now
      ensures Values(expired) == old(Values(timers))[..k] && Values(timers) == old(Values(timers))[k..]
    {
      ValuesSplit(timers, k);
      expired := timers[..k];
      timers := timers[k..];
      batch := Some((expired, now));
      clock := now;
    }

    /** One timer of the batch; its expiration is rewritten while it is in no set. */
    method RecycleOne(timer: Timer, now: int, later: int)
      requires batch.None? && Sorted(Values(timers)) && timer !in timers
      modifies this`timers, this`ledger, timer
      ensures Sorted(Values(timers)) && View() == Recycle(old(View()), old(timer.Value()), now)
      ensures ledger.created == old(ledger.created)
      ensures forall t :: t in timers ==> t in old(timers) || t == timer
    {
      ghost var es := Values(timers);
      hide Sorted, Timers.Insert, Taken;
      if timer.interval > 0 {
        timer.Restart(now, later);
        assert Values(timers) == es;
        var _ := Insert(timer);
      } else {
        ledger := ledger.(deleted := ledger.deleted + {timer.sequence});
      }
    }

    /** The batch's timers, each put back or deleted. */
    method RecycleEach(expired: seq<Timer>, now: int, later: int)
      requires batch.None? && Sorted(Values(timers))
      requires forall j, k :: 0 <= j < k < |expired| ==> expired[j] != expired[k]
      requires forall k :: 0 <= k < |expired| ==> expired[k] !in timers
      modifies this`timers, this`ledger, expired
      ensures Sorted(Values(timers)) && ledger.created == old(ledger.created)
      ensures View() == RecycleAll(old(View()), old(Values(expired)), now)
    {
      ghost var es := Values(expired);
      ghost var q := View();
      RecycleStep(q, es, 0, now);
      hide Sorted, Recycle, Values, RecycleAll;
      for i := 0 to |expired|
        invariant View() == RecycleAll(q, es[..i], now)
        invariant Sorted(Values(timers))
        invariant forall k :: i <= k < |expired| ==> expired[k] !in timers && expired[k].Value() == es[k]
        invariant ledger.created == old(ledger.created)
      {
        RecycleStep(q, es, i, now);
        RecycleOne(expired[i], now, later);
      }
      assert es[..|expired|] == es;
    }

    ghost method CloseBatch()
      modifies `batch
      ensures batch.None? && View() == old(View()).(batch := None) && Values(timers) == old(Values(timers))
    {
      batch := None;
    }

    ghost method SetClock(now: int)
      modifies `clock
      ensures clock == now && View() == old(View()).(clock := now) && Values(timers) == old(Values(timers))
    {
      clock := now;
    }

    /** Puts the batch back or deletes it, and sets the alarm for the first timer. */
    method Reset(expired: seq<Timer>, now: int, later: int)
      requires Valid() && batch == Some((expired, now))
      modifies this, expired
      ensures Valid() && batch.None? && callingExpiredTimers == old(callingExpiredTimers)
      ensures View() == Timers.EndRead(old(View()), later)
    {
      hide RecycleAll, Sorted, Values;
      SortedDistinct(expired);
      CloseBatch();
      RecycleEach(expired, now, later);
      SetClock(later);
      if |timers| > 0 {
        ResetTimerfd(timers[0].expiration, later);
      }
    }

    /** The calls of addTimer one callback makes. */
    method RunCallback(rs: seq<Request>)
      requires Valid()
      modifies this
      ensures Valid() && batch == old(batch) && callingExpiredTimers == old(callingExpiredTimers)
      ensures numCreated == old(numCreated) + |rs|
      ensures View() == AddAll(old(View()), old(numCreated), rs)
    {
      hide Sorted, Timers.AddTimer, Values;
      for i := 0 to |rs|
        invariant Valid() && batch == old(batch) && callingExpiredTimers == old(callingExpiredTimers)
        invariant numCreated == old(numCreated) + i
        invariant View() == AddAll(old(View()), old(numCreated), rs[..i])
      {
        var _ := AddTimer(rs[i].when, rs[i].interval, rs[i].clock);
        assert rs[..i + 1][..i] == rs[..i] && rs[..i + 1][i] == rs[i];
      }
      assert rs[..|rs|] == rs;
    }

    /** The timerfd's read callback, `callbacks[k]` being what the k-th timer of the batch
      * adds when it runs. */
    method HandleRead(now: int, callbacks: seq<seq<Request>>, later: int)
      requires Valid() && batch.None?
      modifies this, timers
      ensures Valid() && batch.None? && !callingExpiredTimers
      ensures var n := UpperBound(old(Values(timers)), now);
              View() == EndRead(
                AddAll(BeginRead(old(View()), now), old(numCreated), Calls(callbacks, n)), later)
    {
      ghost var q, next := View(), numCreated;
      var expired := TakeDue(now);
      ghost var b := View();
      assert |expired| == |b.batch.value.entries|;
      hide Valid, BeginRead, EndRead, Values, AddAll, Calls;
      RunExpired(expired, now, callbacks);
      Reset(expired, now, later);
    }

    /** readTimerfd and getExpired: a fired alarm is consumed, one set anew is not. */
    method TakeDue(now: int) returns (expired: seq<Timer>)
      requires Valid() && batch.None?
      modifies this`alarm, this`timers, this`batch, this`clock
      ensures Valid() && batch == Some((expired, now)) && expired <= old(timers)
      ensures View() == BeginRead(old(View()), now)
      ensures |expired| == UpperBound(old(Values(timers)), now)
    {
      if alarm.Fired? {
        alarm := Disarmed;
      }
      expired := GetExpired(now);
    }

    method SetCalling(calling: bool)
      requires Valid()
      modifies this`callingExpiredTimers
      ensures callingExpiredTimers == calling && Valid() && View() == old(View())
      ensures batch == old(batch) && numCreated == old(numCreated)
    {
      callingExpiredTimers := calling;
    }

    /** The batch's callbacks, in order, with callingExpiredTimers_ set. */
    method RunExpired(expired: seq<Timer>, now: int, callbacks: seq<seq<Request>>)
      requires Valid() && batch == Some((expired, now))
      modifies this
      ensures Valid() && batch == old(batch) && !callingExpiredTimers
      ensures View() == AddAll(old(View()), old(numCreated), Calls(callbacks, |expired|))
    {
      hide Valid, Values, AddAll, Calls;
      SetCalling(true);
      RunCallbacks(|expired|, callbacks);
      SetCalling(false);
    }

    method RunCallbacks(n: nat, callbacks: seq<seq<Request>>)
      requires Valid()
      modifies this
      ensures Valid() && batch == old(batch)
      ensures View() == AddAll(old(View()), old(numCreated), Calls(callbacks, n))
    {
      hide Valid, Values, AddAll, Calls;
      ghost var q, next := View(), numCreated;
      CallsStep(callbacks, 0);
      AddMore(q, next, [], []);
      var i := 0;
      while i < n
        invariant 0 <= i <= n && Valid() && batch == old(batch)
        invariant numCreated == next + |Calls(callbacks, i)|
        invariant View() == AddAll(q, next, Calls(callbacks, i))
      {
        CallsStep(callbacks, i);
        if i < |callbacks| {
          AddMore(q, next, Calls(callbacks, i), callbacks[i]);
          RunCallback(callbacks[i]);
        }
        i := i + 1;
      }
    }

    static lemma CallsStep(callbacks: seq<seq<Request>>, n: nat)
      ensures Calls(callbacks, n + 1) ==
                if n < |callbacks| then Calls(callbacks, n) + callbacks[n] else Calls(callbacks, n)
      ensures Calls(callbacks, 0) == []
    {
      if n < |callbacks| {
        assert callbacks[..n + 1][..n] == callbacks[..n] && callbacks[..n + 1][n] == callbacks[n];
      }
    }

    static lemma AddMore(q: Timing, next: nat, a: seq<Request>, b: seq<Request>)
      ensures AddAll(AddAll(q, next, a), next + |a|, b) == AddAll(q, next, a + b)
      ensures AddAll(q, next, []) == q
      decreases |b|
    {
      hide Timers.AddTimer;
      if b == [] {
        assert a + b == a;
      } else {
        var k := |b| - 1;
        AddMore(q, next, a, b[..k]);
        assert (a + b)[..|a + b| - 1] == a + b[..k] && (a + b)[|a + b| - 1] == b[k];
      }
    }
  }
}
