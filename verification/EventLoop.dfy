/** The functor queue and the wakeup protocol: any number of threads against one loop
  * thread, in every interleaving of their atomic steps. */
module EventLoops {
  /** An empty std::function is queued like any other and skipped when its turn comes. */
  datatype Functor = NullFn | Fn(id: nat)

  /** Where the loop thread is in loop(). Handling: the poll has returned, and whether the
    * eventfd is among the active channels still to be handled; it need not be, readable or
    * not, when the array of events was full. */
  datatype Pc = CheckQuit | Polling | Handling(woken: bool) | Draining | Exited

  /** The pending queue, the rest of the batch being run, the functors run, and all that
    * were ever queued. */
  datatype Queues = Queues(pending: seq<Functor>, batch: seq<Functor>, ran: seq<Functor>, queued: seq<Functor>)

  /** The eventfd counter, the threads between a push (or setting quit_) and their wakeup,
    * and whether the loop thread itself is. */
  datatype Signal = Signal(counter: nat, wakers: set<nat>, own: bool)

  datatype Sys = Sys(pc: Pc, quit: bool, q: Queues, s: Signal)

  function Init(): Sys { Sys(CheckQuit, false, Queues([], [], [], []), Signal(0, {}, false)) }

  datatype Event =
    | Push(t: nat, f: Functor)
    | SetQuit(t: nat)
    | Wake(t: nat)
    | LoopPush(f: Functor)
    | LoopWake
    | LoopQuit
    | Check
    | PollReturn(woken: bool)
    | ReadWakeup
    | Swap
    | RunNext
    | DrainDone

  predicate Legal(c: Sys, e: Event) {
    match e
    case Push(t, _) => t !in c.s.wakers
    case SetQuit(t) => t !in c.s.wakers
    case Wake(t) => t in c.s.wakers
    case LoopPush(_) => c.pc.Handling? || (c.pc.Draining? && !c.s.own)
    case LoopWake => c.s.own
    case LoopQuit => c.pc.Handling? || (c.pc.Draining? && !c.s.own)
    case Check => c.pc.CheckQuit?
    case PollReturn(woken) => c.pc.Polling? && (woken ==> c.s.counter > 0)
    case ReadWakeup => c.pc == Handling(true)
    case Swap => c.pc == Handling(false)
    case RunNext => c.pc.Draining? && !c.s.own && c.q.batch != []
    case DrainDone => c.pc.Draining? && !c.s.own && c.q.batch == []
  }

  function Pushed(q: Queues, f: Functor): Queues {
    q.(pending := q.pending + [f], queued := q.queued + [f])
  }

  function NonNull(fs: seq<Functor>): seq<Functor> {
    if fs == [] then [] else (if fs[0].Fn? then [fs[0]] else []) + NonNull(fs[1..])
  }

  function Step(c: Sys, e: Event): Sys
    requires Legal(c, e)
  {
    match e
    case Push(t, f) => c.(q := Pushed(c.q, f), s := c.s.(wakers := c.s.wakers + {t}))
    case SetQuit(t) => c.(quit := true, s := c.s.(wakers := c.s.wakers + {t}))
    case Wake(t) => c.(s := c.s.(wakers := c.s.wakers - {t}, counter := c.s.counter + 1))
    case LoopPush(f) => c.(q := Pushed(c.q, f), s := c.s.(own := c.pc.Draining?))
    case LoopWake => c.(s := c.s.(own := false, counter := c.s.counter + 1))
    case LoopQuit => c.(quit := true)
    case Check => c.(pc := if c.quit then Exited else Polling)
    case PollReturn(woken) => c.(pc := Handling(woken))
    case ReadWakeup => c.(pc := Handling(false), s := c.s.(counter := 0))
    case Swap => c.(pc := Draining, q := c.q.(batch := c.q.pending, pending := []))
    case RunNext => c.(q := c.q.(batch := c.q.batch[1..], ran := c.q.ran + NonNull([c.q.batch[0]])))
    case DrainDone => c.(pc := CheckQuit)
  }

  ghost predicate LegalRun(c: Sys, evs: seq<Event>)
    decreases evs
  {
    evs == [] || (Legal(c, evs[0]) && LegalRun(Step(c, evs[0]), evs[1..]))
  }

  function Run(c: Sys, evs: seq<Event>): Sys
    requires LegalRun(c, evs)
    decreases evs
  {
    if evs == [] then c else Run(Step(c, evs[0]), evs[1..])
  }

  lemma {:induction false} RunSnoc(c: Sys, evs: seq<Event>, e: Event)
    requires LegalRun(c, evs)
    ensures LegalRun(c, evs + [e]) <==> Legal(Run(c, evs), e)
    ensures Legal(Run(c, evs), e) ==> Run(c, evs + [e]) == Step(Run(c, evs), e)
    decreases evs
  {
    if evs == [] {
      assert evs + [e] == [e] && [e][1..] == [];
    } else {
      assert (evs + [e])[1..] == evs[1..] + [e];
      RunSnoc(Step(c, evs[0]), evs[1..], e);
    }
  }

  // ----------------------------------------------------------- invariant

  ghost predicate Signalled(c: Sys) { c.s.counter > 0 || c.s.wakers != {} || c.s.own }

  /** Exactly once and in order: run, still in the batch, still pending. */
  ghost predicate Fifo(q: Queues) {
    q.ran + NonNull(q.batch) + NonNull(q.pending) == NonNull(q.queued)
  }

  /** Outside a drain there is no batch, and the loop thread owes no wakeup. */
  ghost predicate Shape(c: Sys) {
    Fifo(c.q) && (!c.pc.Draining? ==> c.q.batch == [] && !c.s.own)
  }

  /** Where the queue may hold work that no signal announces: only while the loop thread
    * is handling events, on its way to the queue. */
  ghost predicate Announced(c: Sys) {
    && (c.q.pending != [] && !c.pc.Handling? && !c.pc.Exited? ==> Signalled(c))
    && (c.pc.Polling? && c.quit ==> Signalled(c))
  }

  ghost predicate Inv(c: Sys) { Shape(c) && Announced(c) }

  lemma {:induction false} NonNullConcat(a: seq<Functor>, b: seq<Functor>)
    ensures NonNull(a + b) == NonNull(a) + NonNull(b)
  {
    if a == [] {
      assert a + b == b;
    } else {
      assert (a + b)[1..] == a[1..] + b && (a + b)[0] == a[0];
      NonNullConcat(a[1..], b);
      var head := if a[0].Fn? then [a[0]] else [];
      Associate(head, NonNull(a[1..]), NonNull(b));
    }
  }

  lemma Associate(a: seq<Functor>, b: seq<Functor>, c: seq<Functor>)
    ensures a + (b + c) == a + b + c
  {
  }

  lemma PushedFifo(q: Queues, f: Functor)
    requires Fifo(q)
    ensures Fifo(Pushed(q, f))
  {
    NonNullConcat(q.pending, [f]);
    NonNullConcat(q.queued, [f]);
    assert q.ran + NonNull(q.batch) + (NonNull(q.pending) + NonNull([f]))
        == (q.ran + NonNull(q.batch) + NonNull(q.pending)) + NonNull([f]);
  }

  lemma StepShape(c: Sys, e: Event)
    requires Shape(c) && Legal(c, e)
    ensures Shape(Step(c, e))
  {
    match e {
      case Push(t, f) => PushedFifo(c.q, f);
      case LoopPush(f) => PushedFifo(c.q, f);
      case Swap => assert c.q.ran + [] + NonNull(c.q.pending) == c.q.ran + NonNull(c.q.pending) + [];
      case RunNext =>
        var b := c.q.batch;
        assert b == [b[0]] + b[1..];
        NonNullConcat([b[0]], b[1..]);
        assert c.q.ran + NonNull(b) == c.q.ran + NonNull([b[0]]) + NonNull(b[1..]);
      case _ =>
    }
  }

  lemma StepInv(c: Sys, e: Event)
    requires Inv(c) && Legal(c, e)
    ensures Inv(Step(c, e))
  {
    StepShape(c, e);
    hide Fifo, NonNull;
    match e {
      case Push(t, f) => assert t in Step(c, e).s.wakers;
      case SetQuit(t) => assert t in Step(c, e).s.wakers;
      case _ =>
    }
  }

  lemma {:induction false} RunShape(c: Sys, evs: seq<Event>)
    requires Shape(c) && LegalRun(c, evs)
    ensures Shape(Run(c, evs))
    decreases evs
  {
    if evs != [] {
      StepShape(c, evs[0]);
      RunShape(Step(c, evs[0]), evs[1..]);
    }
  }

  lemma {:induction false} RunInv(c: Sys, evs: seq<Event>)
    requires Inv(c) && LegalRun(c, evs)
    ensures Inv(Run(c, evs))
    decreases evs
  {
    if evs != [] {
      StepInv(c, evs[0]);
      RunInv(Step(c, evs[0]), evs[1..]);
    }
  }

  /** No lost wakeup: in every interleaving, a loop about to sleep in poll while functors
    * wait or quit_ is set has a readable eventfd, or a thread on its way to writing it. */
  lemma NoLostWakeup(evs: seq<Event>)
    requires LegalRun(Init(), evs)
    ensures var c := Run(Init(), evs);
            c.pc.Polling? && (c.q.pending != [] || c.quit) ==> c.s.counter > 0 || c.s.wakers != {}
  {
    RunInv(Init(), evs);
  }

  /** About to sleep with work to do, or told to quit, and nothing to wake it. */
  ghost predicate Asleep(c: Sys) {
    c.pc.Polling? && (c.q.pending != [] || c.quit) && c.s.counter == 0 && c.s.wakers == {}
  }

  /** loop() is about to be entered: nothing has run, and anything may have been queued,
    * by this thread or by others, and announced or not. */
  ghost predicate BeforeLoop(c: Sys) { Unentered(c) && !c.quit }

  /** The same, whatever quit_ is: loop() clears it on entry. */
  ghost predicate Unentered(c: Sys) {
    c.pc.CheckQuit? && c.q == Queues(c.q.pending, [], [], c.q.pending) && !c.s.own
  }

  /** Some run from here loses a wakeup. */
  ghost predicate CanSleep(c: Sys) { exists evs :: LegalRun(c, evs) && Asleep(Run(c, evs)) }

  /** Functors queued before loop(), by its own thread without a wakeup, are safe exactly
    * when there are none or some other thread has pushed too: whatever the queue and the
    * eventfd at the start, no run loses a wakeup if and only if the queue is empty, the
    * eventfd readable, or a thread on its way to writing it. */
  lemma EarlyQueueIff(c: Sys)
    requires BeforeLoop(c)
    ensures !CanSleep(c) <==> c.q.pending == [] || c.s.counter > 0 || c.s.wakers != {}
  {
    assert c.q.ran + [] + NonNull(c.q.pending) == NonNull(c.q.pending);
    if c.q.pending == [] || Signalled(c) {
      assert Inv(c);
      forall evs | LegalRun(c, evs) ensures !Asleep(Run(c, evs)) {
        RunInv(c, evs);
      }
      assert !CanSleep(c);
    } else {
      var evs := [Check];
      assert evs[1..] == [];
      assert LegalRun(Step(c, Check), []);
      assert LegalRun(c, evs) && Run(c, evs) == Step(c, Check);
      assert Asleep(Run(c, evs)) && CanSleep(c);
    }
  }

  /** An empty functor is skipped, and any other is not. */
  lemma OnlyEmptySkipped(f: Functor)
    ensures NonNull([f]) == (if f == NullFn then [] else [f])
  {
    assert [f][1..] == [];
  }

  /** The functors pushed by anyone, in order. */
  function Pushes(evs: seq<Event>): seq<Functor> {
    if evs == [] then []
    else (if evs[0].Push? || evs[0].LoopPush? then [evs[0].f] else []) + Pushes(evs[1..])
  }

  predicate Quits(e: Event) { e.SetQuit? || e.LoopQuit? }

  /** Over any run exactly the functors pushed are queued, and quit_ is set exactly if
    * someone set it. */
  lemma {:induction false} RunQueues(c: Sys, evs: seq<Event>)
    requires LegalRun(c, evs)
    ensures Run(c, evs).q.queued == c.q.queued + Pushes(evs)
    ensures Run(c, evs).quit <==> c.quit || exists k :: 0 <= k < |evs| && Quits(evs[k])
    decreases evs
  {
    if evs == [] {
      assert c.q.queued + [] == c.q.queued;
    } else {
      var d := Step(c, evs[0]);
      var one := if evs[0].Push? || evs[0].LoopPush? then [evs[0].f] else [];
      assert d.q.queued == c.q.queued + one && (d.quit <==> c.quit || Quits(evs[0]));
      RunQueues(d, evs[1..]);
      Associate(c.q.queued, one, Pushes(evs[1..]));
      if k :| 0 <= k < |evs| && Quits(evs[k]) && k > 0 { assert Quits(evs[1..][k - 1]); }
      if k :| 0 <= k < |evs[1..]| && Quits(evs[1..][k]) { assert Quits(evs[k + 1]); }
    }
  }

  /** Every functor ever pushed has been run once, or waits in the batch or the queue, in
    * the order it was pushed, behind whatever was queued before loop(). */
  lemma ExactlyOnceInOrder(c: Sys, evs: seq<Event>)
    requires Unentered(c) && LegalRun(c, evs)
    ensures var q := Run(c, evs).q;
            q.ran + NonNull(q.batch) + NonNull(q.pending) == NonNull(c.q.pending + Pushes(evs))
    ensures Run(c, evs).q.queued == c.q.pending + Pushes(evs)
  {
    assert c.q.ran + [] + NonNull(c.q.pending) == NonNull(c.q.pending);
    RunShape(c, evs);
    RunQueues(c, evs);
  }

  // ------------------------------------------------------------ progress

  function CountRuns(evs: seq<Event>): nat {
    if evs == [] then 0 else (if evs[0].RunNext? then 1 else 0) + CountRuns(evs[1..])
  }

  lemma NothingRun()
    ensures NonNull([]) == []
  {
  }

  lemma TakeOneMore(ran: seq<Functor>, b: seq<Functor>, k: nat)
    requires k < |b|
    ensures b[1..][k..] == b[k + 1..]
    ensures ran + NonNull([b[0]]) + NonNull(b[1..][..k]) == ran + NonNull(b[..k + 1])
  {
    assert b[..k + 1] == [b[0]] + b[1..][..k];
    NonNullConcat([b[0]], b[1..][..k]);
  }

  /** While a batch is drained, whatever is queued meanwhile by anyone, the batch only
    * loses its head: after k runs exactly its first k functors have been taken, so the
    * drain ends after exactly the length of the batch swapped out. */
  lemma {:induction false} DrainTakesBatchOnly(c: Sys, evs: seq<Event>)
    requires Inv(c) && c.pc.Draining? && LegalRun(c, evs)
    requires forall k :: 0 <= k < |evs| ==> !evs[k].DrainDone?
    ensures var d := Run(c, evs); var k := CountRuns(evs);
            && d.pc.Draining? && k <= |c.q.batch|
            && d.q.batch == c.q.batch[k..]
            && d.q.ran == c.q.ran + NonNull(c.q.batch[..k])
            && (Legal(d, DrainDone) ==> k == |c.q.batch|)
    decreases evs
  {
    NothingRun();
    hide Inv, NonNull, Fifo, Shape, Announced;
    if evs == [] {
      assert c.q.batch[..0] == [] && c.q.ran + [] == c.q.ran;
    } else {
      var e := evs[0];
      StepInv(c, e);
      DrainTakesBatchOnly(Step(c, e), evs[1..]);
      if e.RunNext? {
        TakeOneMore(c.q.ran, c.q.batch, CountRuns(evs[1..]));
      }
    }
  }

  /** n functors run one after the other, then back to the loop condition. */
  function Drain(n: nat): seq<Event> {
    if n == 0 then [DrainDone, Check] else [RunNext] + Drain(n - 1)
  }

  lemma {:induction false} DrainRuns(c: Sys)
    requires Inv(c) && c.pc.Draining? && !c.s.own && c.q.pending == []
    ensures LegalRun(c, Drain(|c.q.batch|))
    ensures var d := Run(c, Drain(|c.q.batch|));
            && d.q == Queues([], [], NonNull(c.q.queued), c.q.queued)
            && d.pc == if c.quit then Exited else Polling
    decreases |c.q.batch|
  {
    var evs := Drain(|c.q.batch|);
    if c.q.batch == [] {
      var d := Step(c, DrainDone);
      assert evs[1..] == [Check] && [Check][1..] == [];
      assert LegalRun(Step(d, Check), []);
      assert LegalRun(d, [Check]);
      assert c.q.ran + [] + [] == c.q.ran;
    } else {
      assert evs[1..] == Drain(|c.q.batch| - 1);
      StepInv(c, RunNext);
      DrainRuns(Step(c, RunNext));
    }
  }

  /** The announced work is done: a loop at poll with functors waiting or quit_ set, and
    * no thread left between push and wakeup, finds the eventfd readable, and its own
    * next steps, whether the poll reports it or not, run every functor ever queued and
    * leave the loop if told to. */
  lemma WakeupIsEnough(c: Sys, woken: bool)
    requires Inv(c) && c.pc.Polling? && c.s.wakers == {} && (c.q.pending != [] || c.quit)
    ensures c.s.counter > 0
    ensures var evs := [PollReturn(woken)] + ((if woken then [ReadWakeup] else []) + ([Swap] + Drain(|c.q.pending|)));
            && LegalRun(c, evs)
            && Run(c, evs).q == Queues([], [], NonNull(c.q.queued), c.q.queued)
            && Run(c, evs).pc == if c.quit then Exited else Polling
  {
    var rest := [Swap] + Drain(|c.q.pending|);
    var c1 := Step(c, PollReturn(woken));
    var c2 := if woken then Step(c1, ReadWakeup) else c1;
    StepInv(c, PollReturn(woken));
    if woken { StepInv(c1, ReadWakeup); }
    StepInv(c2, Swap);
    DrainRuns(Step(c2, Swap));
    RunCons(c2, Swap, Drain(|c.q.pending|));
    RunCons(c1, ReadWakeup, rest);
    assert [] + rest == rest;
    RunCons(c, PollReturn(woken), (if woken then [ReadWakeup] else []) + rest);
  }

  lemma RunCons(c: Sys, e: Event, evs: seq<Event>)
    ensures LegalRun(c, [e] + evs) <==> Legal(c, e) && LegalRun(Step(c, e), evs)
    ensures LegalRun(c, [e] + evs) ==> Run(c, [e] + evs) == Run(Step(c, e), evs)
  {
    assert ([e] + evs)[1..] == evs;
  }

  // ---------------------------------------------------------------- class

  datatype Caller = LoopThread | Thread(t: nat)

  /** The methods of the loop, each made of the protocol's atomic steps: `trace` holds the
    * steps taken so far. `Spawns` is what running a functor queues on its own loop. */
  class EventLoop {
    const Spawns: Functor -> seq<Functor>
    var quit_: bool
    var callingPendingFunctors: bool
    var pendingFunctors: seq<Functor>
    var wakeupCounter: nat
    ghost var pc: Pc
    ghost var batch: seq<Functor>
    ghost var ran: seq<Functor>
    ghost var queued: seq<Functor>
    ghost var wakers: set<nat>
    ghost var own: bool
    // Where loop() was entered, and the steps taken since.
    ghost var start: Sys
    ghost var trace: seq<Event>

    ghost function View(): Sys
      reads this
    {
      Sys(pc, quit_, Queues(pendingFunctors, batch, ran, queued), Signal(wakeupCounter, wakers, own))
    }

    ghost predicate Valid()
      reads this
    {
      && Unentered(start) && LegalRun(start, trace) && View() == Run(start, trace)
      && (callingPendingFunctors <==> pc.Draining?)
    }

    constructor (spawns: Functor -> seq<Functor>)
      ensures Valid() && View() == Init() && trace == [] && Spawns == spawns
    {
      Spawns := spawns;
      quit_, callingPendingFunctors, pendingFunctors, wakeupCounter := false, false, [], 0;
      pc, batch, ran, queued, wakers, own, trace := CheckQuit, [], [], [], {}, false, [];
      start := Init();
    }

    /** The step e has just been taken. */
    ghost method Took(e: Event, before: Sys)
      requires LegalRun(start, trace) && before == Run(start, trace)
      requires Legal(before, e) && View() == Step(before, e)
      modifies this`trace
      ensures trace == old(trace) + [e] && LegalRun(start, trace) && View() == Run(start, trace)
    {
      RunSnoc(start, trace, e);
      trace := trace + [e];
    }

    /** The mutex-guarded push_back. From the loop's own thread before loop() it becomes part
      * of what loop() starts with. */
    method PushPending(caller: Caller, cb: Functor)
      requires Valid() && !own && MayPush(caller)
      modifies this`pendingFunctors, this`queued, this`wakers, this`own, this`trace, this`start
      ensures Valid()
      ensures if Early(caller) then start == View() && trace == []
              else start == old(start)
                   && trace == old(trace) + [if caller.LoopThread? then LoopPush(cb) else Push(caller.t, cb)]
      ensures pendingFunctors == old(pendingFunctors) + [cb] && queued == old(queued) + [cb]
      ensures own == (caller.LoopThread? && pc.Draining?)
      ensures wakers == if caller.LoopThread? then old(wakers) else old(wakers) + {caller.t}
    {
      ghost var before := View();
      pendingFunctors, queued := pendingFunctors + [cb], queued + [cb];
      match caller {
        case LoopThread =>
          if pc.CheckQuit? {
            start, trace := View(), [];
          } else {
            own := pc.Draining?;
            Took(LoopPush(cb), before);
          }
        case Thread(t) =>
          wakers := wakers + {t};
          Took(Push(t, cb), before);
      }
    }

    ghost predicate Early(caller: Caller)
      reads this
    {
      caller.LoopThread? && pc.CheckQuit?
    }

    /** The loop's own thread pushes from handlers, functors, or before loop(). */
    ghost predicate MayPush(caller: Caller)
      reads this
    {
      if caller.LoopThread? then pc.Handling? || pc.Draining? || Unentered(View()) else caller.t !in wakers
    }

    method Wakeup(caller: Caller)
      requires Valid() && if caller.LoopThread? then own else caller.t in wakers
      modifies this`wakeupCounter, this`wakers, this`own, this`trace
      ensures Valid()
      ensures trace == old(trace) + [if caller.LoopThread? then LoopWake else Wake(caller.t)]
      ensures wakeupCounter == old(wakeupCounter) + 1
      ensures own == (old(own) && caller.Thread?)
      ensures wakers == if caller.LoopThread? then old(wakers) else old(wakers) - {caller.t}
    {
      ghost var before := View();
      wakeupCounter := wakeupCounter + 1;
      match caller {
        case LoopThread =>
          own := false;
          Took(LoopWake, before);
        case Thread(t) =>
          wakers := wakers - {t};
          Took(Wake(t), before);
      }
    }

    /** A push, and a wakeup unless the caller is the loop's own thread outside functors. */
    method QueueInLoop(caller: Caller, cb: Functor)
      requires Valid() && !own && MayPush(caller)
      modifies this`pendingFunctors, this`queued, this`wakeupCounter, this`wakers, this`own, this`trace, this`start
      ensures Valid() && !own && wakers == old(wakers)
      ensures pendingFunctors == old(pendingFunctors) + [cb] && queued == old(queued) + [cb]
      ensures wakeupCounter == old(wakeupCounter) + (if caller.LoopThread? && !pc.Draining? then 0 else 1)
      ensures if Early(caller) then start == View() && trace == []
              else start == old(start) && trace == old(trace) + Pushes(caller, cb)
    {
      PushPending(caller, cb);
      if !caller.LoopThread? || callingPendingFunctors {
        Wakeup(caller);
      }
    }

    /** The protocol's steps in a call of queueInLoop. */
    ghost function Pushes(caller: Caller, cb: Functor): seq<Event>
      reads this
    {
      match caller
      case LoopThread => if pc.Draining? then [LoopPush(cb), LoopWake] else [LoopPush(cb)]
      case Thread(t) => [Push(t, cb), Wake(t)]
    }

    /** From the loop's own thread before loop() it does nothing that lasts. */
    method Quit(caller: Caller)
      requires Valid() && !own
      requires MayPush(caller)
      modifies this`quit_, this`wakeupCounter, this`wakers, this`own, this`trace, this`start
      ensures Valid() && quit_ && !own && wakers == old(wakers)
      ensures wakeupCounter == old(wakeupCounter) + (if caller.LoopThread? then 0 else 1)
      ensures if Early(caller) then start == View() && trace == []
              else start == old(start) && trace == old(trace) + Quits(caller)
    {
      ghost var before := View();
      quit_ := true;
      match caller {
        case LoopThread =>
          if pc.CheckQuit? {
            start, trace := View(), [];
          } else {
            Took(LoopQuit, before);
          }
        case Thread(t) =>
          wakers := wakers + {t};
          Took(SetQuit(t), before);
          Wakeup(caller);
      }
    }

    ghost function Quits(caller: Caller): seq<Event> {
      match caller
      case LoopThread => [LoopQuit]
      case Thread(t) => [SetQuit(t), Wake(t)]
    }

    /** The eventfd's read callback. */
    method HandleRead()
      requires Valid() && pc == Handling(true)
      modifies this`wakeupCounter, this`pc, this`trace
      ensures Valid() && trace == old(trace) + [ReadWakeup] && pc == Handling(false) && wakeupCounter == 0
    {
      ghost var before := View();
      wakeupCounter := 0;
      pc := Handling(false);
      Took(ReadWakeup, before);
    }

    /** functor(): the call of the batch's next functor, which queues what it spawns, from
      * the loop thread and with callingPendingFunctors_ set. */
    method RunFunctor(f: Functor)
      requires Valid() && !own && pc.Draining? && |batch| > 0 && batch[0] == f && f.Fn?
      modifies this`pendingFunctors, this`queued, this`wakeupCounter, this`wakers, this`own, this`trace, this`start,
               this`batch, this`ran
      ensures Valid() && !own && wakers == old(wakers) && start == old(start)
      ensures batch == old(batch)[1..] && ran == old(ran) + [f]
      ensures pendingFunctors == old(pendingFunctors) + Spawns(f)
      ensures wakeupCounter == old(wakeupCounter) + |Spawns(f)|
    {
      ghost var at := View();
      OnlyEmptySkipped(f);
      batch, ran := batch[1..], ran + [f];
      Took(RunNext, at);
      hide Valid;
      PushAll(Spawns(f));
    }

    /** What a functor queues, one after the other. */
    method PushAll(more: seq<Functor>)
      requires Valid() && !own && pc.Draining?
      modifies this`pendingFunctors, this`queued, this`wakeupCounter, this`wakers, this`own, this`trace, this`start
      ensures Valid() && !own && wakers == old(wakers) && start == old(start)
      ensures pendingFunctors == old(pendingFunctors) + more
      ensures wakeupCounter == old(wakeupCounter) + |more|
    {
      for i := 0 to |more|
        invariant Valid() && !own && wakers == old(wakers) && start == old(start)
        invariant pendingFunctors == old(pendingFunctors) + more[..i]
        invariant wakeupCounter == old(wakeupCounter) + i
      {
        QueueInLoop(LoopThread, more[i]);
        assert more[..i] + [more[i]] == more[..i + 1];
      }
      assert more[..|more|] == more;
    }

    /** An empty functor is passed over. */
    ghost method SkipFunctor()
      requires Valid() && !own && pc.Draining? && |batch| > 0 && batch[0].NullFn?
      modifies this`trace, this`batch, this`ran
      ensures Valid() && batch == old(batch)[1..] && ran == old(ran)
    {
      ghost var at := View();
      OnlyEmptySkipped(batch[0]);
      assert ran + [] == ran;
      batch := batch[1..];
      Took(RunNext, at);
    }

    /** Other threads queue functors, each waking the loop. */
    method PushOthers(fs: seq<Functor>)
      requires Valid() && !own && wakers == {}
      modifies this`pendingFunctors, this`queued, this`wakeupCounter, this`wakers, this`own, this`trace, this`start
      ensures Valid() && !own && wakers == {} && start == old(start)
      ensures pendingFunctors == old(pendingFunctors) + fs
      ensures wakeupCounter == old(wakeupCounter) + |fs|
    {
      for k := 0 to |fs|
        invariant Valid() && !own && wakers == {} && start == old(start)
        invariant pendingFunctors == old(pendingFunctors) + fs[..k]
        invariant wakeupCounter == old(wakeupCounter) + k
      {
        QueueInLoop(Thread(k), fs[k]);
        assert fs[..k] + [fs[k]] == fs[..k + 1];
      }
      assert fs[..|fs|] == fs;
    }

    /** The next functor of the batch: called if it is not empty. */
    method RunNextFunctor(f: Functor)
      requires Valid() && !own && pc.Draining? && |batch| > 0 && batch[0] == f
      modifies this`pendingFunctors, this`queued, this`wakeupCounter, this`wakers, this`own, this`trace, this`start,
               this`batch, this`ran
      ensures Valid() && !own && wakers == old(wakers) && start == old(start)
      ensures batch == old(batch)[1..] && ran == old(ran) + (if f == NullFn then [] else [f])
      ensures pendingFunctors == old(pendingFunctors) + (if f == NullFn then [] else Spawns(f))
      ensures wakeupCounter == old(wakeupCounter) + (if f == NullFn then 0 else |Spawns(f)|)
    {
      hide Valid;
      if f.Fn? {
        RunFunctor(f);
      } else {
        SkipFunctor();
      }
    }

    /** The swap: what was pending is the batch. */
    method TakeBatch() returns (functors: seq<Functor>)
      requires Valid() && pc == Handling(false) && !own
      modifies this`callingPendingFunctors, this`pendingFunctors, this`trace, this`pc, this`batch
      ensures Valid() && pc.Draining? && functors == old(pendingFunctors) && batch == functors && pendingFunctors == []
    {
      ghost var before := View();
      callingPendingFunctors := true;
      functors := pendingFunctors;
      pendingFunctors := [];
      pc, batch := Draining, functors;
      Took(Swap, before);
    }

    method EndBatch()
      requires Valid() && pc.Draining? && batch == [] && !own
      modifies this`callingPendingFunctors, this`trace, this`pc
      ensures Valid() && pc.CheckQuit?
    {
      ghost var done := View();
      callingPendingFunctors := false;
      pc := CheckQuit;
      Took(DrainDone, done);
    }

    /** Runs exactly the functors pending at the swap, in order. What they queue, and what
      * other threads queue meanwhile (`others[i]`, before the i-th is run), waits for the
      * next round in the order it came, and each such push has made the eventfd readable. */
    method DoPendingFunctors(others: seq<seq<Functor>>)
      requires Valid() && pc == Handling(false) && wakers == {}
      modifies this`callingPendingFunctors, this`pendingFunctors, this`queued, this`wakeupCounter,
               this`wakers, this`own, this`trace, this`start, this`pc, this`batch, this`ran
      ensures Valid() && pc.CheckQuit? && wakers == {} && start == old(start)
      ensures ran == old(ran) + NonNull(old(pendingFunctors))
      ensures pendingFunctors == Concat(seq(|old(pendingFunctors)|, k requires 0 <= k < |old(pendingFunctors)| =>
                Nth(others, k) + if old(pendingFunctors)[k] == NullFn then [] else Spawns(old(pendingFunctors)[k])))
      ensures wakeupCounter == old(wakeupCounter) + |pendingFunctors|
    {
      StartShape(start);
      RunShape(start, trace);
      assert !own;
      hide Valid, NonNull, Shape, Fifo, Unentered, Run, LegalRun, Nth, Concat;
      var functors := TakeBatch();
      ghost var pushed := seq(|functors|, k requires 0 <= k < |functors| =>
        Nth(others, k) + if functors[k] == NullFn then [] else Spawns(functors[k]));
      RunBatch(functors, others, pushed);
      EndBatch();
    }

    /** pushed[k]: what others push before the k-th functor runs, and what it pushes. */
    method RunBatch(functors: seq<Functor>, others: seq<seq<Functor>>, ghost pushed: seq<seq<Functor>>)
      requires Valid() && pc.Draining? && !own && wakers == {} && batch == functors && pendingFunctors == []
      requires |pushed| == |functors|
      requires forall k :: 0 <= k < |functors| ==>
                 pushed[k] == Nth(others, k) + if functors[k] == NullFn then [] else Spawns(functors[k])
      modifies this`pendingFunctors, this`queued, this`wakeupCounter, this`wakers, this`own, this`trace, this`start,
               this`batch, this`ran
      ensures Valid() && pc.Draining? && !own && wakers == {} && batch == [] && start == old(start)
      ensures ran == old(ran) + NonNull(functors) && pendingFunctors == Concat(pushed)
      ensures wakeupCounter == old(wakeupCounter) + |pendingFunctors|
    {
      NothingRun();
      ConcatSnoc([], []);
      hide Valid, NonNull, Nth, Concat;
      assert pushed[..0] == [] && functors[..0] == [];
      for i := 0 to |functors|
        invariant Valid() && !own && batch == functors[i..] && wakers == {} && start == old(start)
        invariant ran == old(ran) + NonNull(functors[..i])
        invariant pendingFunctors == Concat(pushed[..i])
        invariant wakeupCounter == old(wakeupCounter) + |pendingFunctors|
      {
        BatchGrows(functors, pushed, i, old(ran));
        RunAfterOthers(functors[i], Nth(others, i));
      }
      assert functors[..|functors|] == functors && pushed[..|functors|] == pushed;
    }

    /** One more functor of a batch. */
    static lemma BatchGrows(fs: seq<Functor>, pushed: seq<seq<Functor>>, i: nat, ran: seq<Functor>)
      requires i < |fs| == |pushed|
      ensures Concat(pushed[..i + 1]) == Concat(pushed[..i]) + pushed[i]
      ensures ran + NonNull(fs[..i + 1]) == ran + NonNull(fs[..i]) + (if fs[i] == NullFn then [] else [fs[i]])
    {
      assert fs[..i + 1] == fs[..i] + [fs[i]] && pushed[..i + 1] == pushed[..i] + [pushed[i]];
      NonNullConcat(fs[..i], [fs[i]]);
      OnlyEmptySkipped(fs[i]);
      ConcatSnoc(pushed[..i], pushed[i]);
      hide NonNull, Concat;
    }

    /** Other threads push, and then the batch's next functor runs. */
    method RunAfterOthers(f: Functor, others: seq<Functor>)
      requires Valid() && !own && pc.Draining? && wakers == {} && |batch| > 0 && batch[0] == f
      modifies this`pendingFunctors, this`queued, this`wakeupCounter, this`wakers, this`own, this`trace, this`start,
               this`batch, this`ran
      ensures Valid() && !own && wakers == {} && start == old(start)
      ensures batch == old(batch)[1..] && ran == old(ran) + (if f == NullFn then [] else [f])
      ensures var more := others + if f == NullFn then [] else Spawns(f);
              pendingFunctors == old(pendingFunctors) + more && wakeupCounter == old(wakeupCounter) + |more|
    {
      hide Valid;
      PushOthers(others);
      RunNextFunctor(f);
      assert old(pendingFunctors) + others + (if f == NullFn then [] else Spawns(f))
          == old(pendingFunctors) + (others + if f == NullFn then [] else Spawns(f));
    }

    /** The loop sleeps; other threads push, each waking it; the poll returns, and reports
      * the eventfd if it is readable and the array of events has room. Whatever is then
      * pending has made it readable, unless it lay unannounced since before loop(). */
    method Poll(remote: seq<Functor>, full: bool) returns (woken: bool)
      requires Valid() && pc.Polling? && wakers == {} && !own
      modifies this`pendingFunctors, this`queued, this`wakeupCounter, this`wakers, this`own, this`trace, this`start,
               this`pc
      ensures Valid() && pc == Handling(woken) && wakers == {} && !own && start == old(start)
      ensures pendingFunctors == old(pendingFunctors) + remote
      ensures woken == (wakeupCounter > 0 && !full)
      ensures pendingFunctors != [] && (Signalled(start) || start.q.pending == []) ==> wakeupCounter > 0
    {
      PushOthers(remote);
      StartShape(start);
      if Signalled(start) || start.q.pending == [] {
        RunInv(start, trace);
      }
      ghost var asleep := View();
      woken := wakeupCounter > 0 && !full;
      pc := Handling(woken);
      Took(PollReturn(woken), asleep);
    }

    /** The active channels' handlers: the eventfd's own, then others that push on this
      * thread and may quit, while other threads push too. */
    method HandleActive(woken: bool, calls: seq<Call>, quits: bool)
      requires Valid() && pc == Handling(woken) && wakers == {} && !own
      modifies this`pendingFunctors, this`queued, this`wakeupCounter, this`wakers, this`own, this`trace, this`start,
               this`pc, this`quit_
      ensures Valid() && pc == Handling(false) && wakers == {} && !own && start == old(start)
      ensures pendingFunctors == old(pendingFunctors) + Functors(calls)
      ensures quit_ == (old(quit_) || quits)
    {
      if woken {
        HandleRead();
      }
      for k := 0 to |calls|
        invariant Valid() && pc == Handling(false) && wakers == {} && !own && start == old(start) && quit_ == old(quit_)
        invariant pendingFunctors == old(pendingFunctors) + Functors(calls)[..k]
      {
        QueueInLoop(if calls[k].own then LoopThread else Thread(k), calls[k].f);
        assert Functors(calls)[..k] + [calls[k].f] == Functors(calls)[..k + 1];
      }
      assert Functors(calls)[..|calls|] == Functors(calls);
      if quits {
        Quit(LoopThread);
      }
    }

    /** One turn of the while loop. */
    method Turn(r: Round)
      requires Valid() && pc.CheckQuit? && wakers == {} && !quit_
      modifies this
      ensures Valid() && pc.CheckQuit? && wakers == {} && start == old(start)
      ensures quit_ == r.quits
    {
      StartShape(start);
      RunShape(start, trace);
      ghost var before := View();
      pc := Polling;
      Took(Check, before);
      var woken := Poll(r.remote, r.full);
      HandleActive(woken, r.calls, r.quits);
      DoPendingFunctors(r.others);
    }

    /** loop(), for as many rounds as the environment provides; it forgets any quit() that
      * came before it. What was queued before it,
      * and what anyone queues during it, is run once and in order or still waits. */
    method Loop(rounds: seq<Round>)
      requires Valid() && Unentered(View()) && wakers == {}
      modifies this
      ensures Valid() && wakers == {} && (pc.Exited? || pc.CheckQuit?)
      ensures pc.Exited? <==> quit_
      ensures quit_ <==> exists k :: 0 <= k < |rounds| && rounds[k].quits
      ensures start == old(View()).(quit := false) && BeforeLoop(start)
      ensures ran + NonNull(pendingFunctors) == NonNull(queued)
    {
      quit_ := false;
      start, trace := View(), [];
      ghost var entered := start;
      var i := 0;
      while !quit_ && i < |rounds|
        invariant 0 <= i <= |rounds| && Valid() && pc.CheckQuit? && wakers == {} && start == entered
        invariant quit_ <==> exists k :: 0 <= k < i && rounds[k].quits
      {
        Turn(rounds[i]);
        i := i + 1;
      }
      StartShape(start);
      RunShape(start, trace);
      assert ran + [] + NonNull(pendingFunctors) == ran + NonNull(pendingFunctors);
      if quit_ {
        ghost var last := View();
        pc := Exited;
        Took(Check, last);
      }
    }
  }

  lemma StartShape(c: Sys)
    requires Unentered(c)
    ensures Shape(c) && (Signalled(c) || c.q.pending == [] ==> Inv(c))
  {
    assert c.q.ran + [] + NonNull(c.q.pending) == NonNull(c.q.pending);
  }

  /** A push during the handlers, by the loop's own thread or another. */
  datatype Call = Call(own: bool, f: Functor)

  function Functors(calls: seq<Call>): (fs: seq<Functor>)
    ensures |fs| == |calls|
  {
    seq(|calls|, k requires 0 <= k < |calls| => calls[k].f)
  }

  function Nth(others: seq<seq<Functor>>, i: nat): seq<Functor> { if i < |others| then others[i] else [] }

  ghost function Concat(fss: seq<seq<Functor>>): seq<Functor> {
    if fss == [] then [] else fss[0] + Concat(fss[1..])
  }

  lemma {:induction false} ConcatSnoc(fss: seq<seq<Functor>>, fs: seq<Functor>)
    ensures Concat([]) == [] && Concat(fss + [fs]) == Concat(fss) + fs
  {
    if fss == [] {
      assert fss + [fs] == [fs] && [fs][1..] == [];
      assert fs + [] == fs && [] + fs == fs;
    } else {
      assert (fss + [fs])[1..] == fss[1..] + [fs];
      ConcatSnoc(fss[1..], fs);
      Associate(fss[0], Concat(fss[1..]), fs);
    }
  }

  /** What happens around one turn: pushes by others while the loop sleeps, whether the array
    * of events is full without the eventfd, pushes by anyone during the handlers, whether one
    * of these quits, and pushes by others while the batch runs. */
  datatype Round = Round(remote: seq<Functor>, full: bool, calls: seq<Call>, quits: bool, others: seq<seq<Functor>>)
}
