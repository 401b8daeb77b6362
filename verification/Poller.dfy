/** Channels and the epoll poller: the poller's own map, the index each channel carries
  * and the kernel's interest set, kept in agreement. */
module Pollers {
  import opened Prelude

  datatype Flag = In | Pri | Out | Hup | RdHup | Err | Nval

  const READ_EVENT: set<Flag> := {In, Pri}
  const WRITE_EVENT: set<Flag> := {Out}

  /** Channel::index_: never given to the poller, in the interest set, or known to the
    * poller but out of the interest set. */
  datatype Index = New | Added | Deleted

  datatype CtlOp = CtlAdd | CtlMod | CtlDel

  datatype Chan = Chan(fd: int, events: set<Flag>, index: Index)

  datatype Interest<C> = Interest(owner: C, mask: set<Flag>)

  /** All channels of one loop, the poller's fd map, the kernel's interest set, and how
    * many epoll_ctl calls the kernel has refused. */
  datatype Poll<C(==)> = Poll(chans: map<C, Chan>, table: map<int, C>,
                              kernel: map<int, Interest<C>>, refused: nat)

  /** epoll_ctl: ADD is refused for a present fd, MOD and DEL for an absent one. */
  function Ctl<C>(p: Poll<C>, op: CtlOp, c: C): Poll<C>
    requires c in p.chans
  {
    var fd := p.chans[c].fd;
    if (fd in p.kernel) == op.CtlAdd? then p.(refused := p.refused + 1)
    else if op.CtlDel? then p.(kernel := p.kernel - {fd})
    else p.(kernel := p.kernel[fd := Interest(c, p.chans[c].events)])
  }

  function SetIndex<C>(p: Poll<C>, c: C, index: Index): Poll<C>
    requires c in p.chans
  {
    p.(chans := p.chans[c := p.chans[c].(index := index)])
  }

  function SetEvents<C>(p: Poll<C>, c: C, events: set<Flag>): Poll<C>
    requires c in p.chans
  {
    p.(chans := p.chans[c := p.chans[c].(events := events)])
  }

  /** updateChannel; None is a failed assertion. */
  function Update<C>(p: Poll<C>, c: C): Option<Poll<C>>
    requires c in p.chans
  {
    var ch := p.chans[c];
    match ch.index
    case New =>
      if ch.fd in p.table then None
      else Some(Ctl(SetIndex(p.(table := p.table[ch.fd := c]), c, Added), CtlAdd, c))
    case Deleted =>
      if ch.fd !in p.table || p.table[ch.fd] != c then None
      else Some(Ctl(SetIndex(p, c, Added), CtlAdd, c))
    case Added =>
      if ch.events == {} then Some(SetIndex(Ctl(p, CtlDel, c), c, Deleted))
      else Some(Ctl(p, CtlMod, c))
  }

  /** Channel::remove and removeChannel; None is a failed assertion. */
  function Remove<C>(p: Poll<C>, c: C): Option<Poll<C>>
    requires c in p.chans
  {
    var ch := p.chans[c];
    if ch.events != {} || ch.fd !in p.table || p.table[ch.fd] != c || ch.index.New? then None
    else
      var q := p.(table := p.table - {ch.fd});
      Some(SetIndex(if ch.index.Added? then Ctl(q, CtlDel, c) else q, c, New))
  }

  datatype ChannelOp<C> =
    | Create(c: C, fd: int)
    | Enable(c: C, flags: set<Flag>)
    | Disable(c: C, flags: set<Flag>)
    | DisableAll(c: C)
    | RemoveFrom(c: C)
    | Destruct(c: C)

  predicate Enabled<C>(p: Poll<C>, op: ChannelOp<C>) { op.Create? <==> op.c !in p.chans }

  function Apply<C>(p: Poll<C>, op: ChannelOp<C>): Option<Poll<C>>
    requires Enabled(p, op)
  {
    match op
    case Create(c, fd) => Some(p.(chans := p.chans[c := Chan(fd, {}, New)]))
    case Enable(c, flags) => Update(SetEvents(p, c, p.chans[c].events + flags), c)
    case Disable(c, flags) => Update(SetEvents(p, c, p.chans[c].events - flags), c)
    case DisableAll(c) => Update(SetEvents(p, c, {}), c)
    case RemoveFrom(c) => Remove(p, c)
    case Destruct(c) =>
      if p.chans[c].fd in p.table && p.table[p.chans[c].fd] == c then None
      else Some(p.(chans := p.chans - {c}))
  }

  ghost predicate Registered<C>(p: Poll<C>, c: C)
    requires c in p.chans
  {
    p.chans[c].fd in p.table && p.table[p.chans[c].fd] == c
  }

  /** One channel against the table and the kernel. */
  ghost predicate ChannelAgrees<C>(p: Poll<C>, c: C)
    requires c in p.chans
  {
    var ch := p.chans[c];
    match ch.index
    case New => !Registered(p, c) && ch.events == {}
    case Added => Registered(p, c) && ch.fd in p.kernel && p.kernel[ch.fd] == Interest(c, ch.events)
    case Deleted => Registered(p, c) && ch.fd !in p.kernel && ch.events == {}
  }

  /** The kernel watches exactly the Added channels, each with its own mask; the table
    * holds exactly the channels that are not New; no epoll_ctl was ever refused. */
  ghost predicate Agreement<C>(p: Poll<C>) {
    && (forall c :: c in p.chans ==> ChannelAgrees(p, c))
    && (forall fd :: fd in p.table ==> p.table[fd] in p.chans && p.chans[p.table[fd]].fd == fd)
    && (forall fd :: fd in p.kernel ==> fd in p.table && p.chans[p.table[fd]].index.Added?)
    && p.refused == 0
  }

  /** The events of c may be ahead of the kernel: the state updateChannel is called in. */
  ghost predicate AgreesExcept<C>(p: Poll<C>, c: C, before: set<Flag>)
  {
    c in p.chans && Agreement(SetEvents(p, c, before))
  }

  /** updateChannel restores agreement, and its assertions fail if and only if the
    * channel is new while another one holds its descriptor. */
  lemma UpdateAgrees<C>(p: Poll<C>, c: C, before: set<Flag>)
    requires AgreesExcept(p, c, before)
    ensures Update(p, c).None? <==> p.chans[c].index.New? && p.chans[c].fd in p.table
    ensures Update(p, c).Some? ==> Agreement(Update(p, c).value)
  {
    var o := SetEvents(p, c, before);
    assert ChannelAgrees(o, c);
    assert forall d :: d in p.chans && d != c ==> ChannelAgrees(o, d) && o.chans[d] == p.chans[d];
    if Update(p, c).Some? {
      var q := Update(p, c).value;
      forall d | d in q.chans ensures ChannelAgrees(q, d) {
        assert d == c || ChannelAgrees(o, d);
      }
    }
  }

  lemma MaskUpdateAgrees<C>(p: Poll<C>, c: C, mask: set<Flag>)
    requires Agreement(p) && c in p.chans
    ensures var q := Update(SetEvents(p, c, mask), c);
            && (q.None? <==> p.chans[c].index.New? && p.chans[c].fd in p.table)
            && (q.Some? ==> Agreement(q.value))
  {
    var q := SetEvents(p, c, mask);
    assert SetEvents(q, c, p.chans[c].events).chans == p.chans;
    UpdateAgrees(q, c, p.chans[c].events);
  }

  /** What an update makes of a channel's index, given whether it now wants any event. */
  function NextIndex(index: Index, wanted: bool): Index {
    if index.Added? && !wanted then Deleted else Added
  }

  lemma UpdateSetsNextIndex<C>(p: Poll<C>, c: C)
    requires c in p.chans && Update(p, c).Some?
    ensures Update(p, c).value.chans ==
              p.chans[c := p.chans[c].(index := NextIndex(p.chans[c].index, p.chans[c].events != {}))]
  {
  }

  /** Removal keeps agreement, and aborts if and only if the channel still wants events
    * or was never handed to the poller. */
  lemma RemoveAgrees<C>(p: Poll<C>, c: C)
    requires Agreement(p) && c in p.chans
    ensures Remove(p, c).None? <==> p.chans[c].events != {} || p.chans[c].index.New?
    ensures Remove(p, c).Some? ==> Agreement(Remove(p, c).value) && !Registered(Remove(p, c).value, c)
  {
    assert ChannelAgrees(p, c);
    if Remove(p, c).Some? {
      var q := Remove(p, c).value;
      forall d | d in q.chans ensures ChannelAgrees(q, d) {
        assert ChannelAgrees(p, d);
      }
    }
  }

  /** Exactly when an operation trips an assertion. */
  ghost predicate Aborts<C>(p: Poll<C>, op: ChannelOp<C>)
    requires Enabled(p, op)
  {
    match op
    case Create(_, _) => false
    case RemoveFrom(c) => p.chans[c].events != {} || p.chans[c].index.New?
    case Destruct(c) => !p.chans[c].index.New?
    case _ => p.chans[op.c].index.New? && p.chans[op.c].fd in p.table
  }

  lemma ApplyAgrees<C>(p: Poll<C>, op: ChannelOp<C>)
    requires Agreement(p) && Enabled(p, op)
    ensures Apply(p, op).None? <==> Aborts(p, op)
    ensures Apply(p, op).Some? ==> Agreement(Apply(p, op).value)
  {
    match op {
      case Create(c, fd) =>
        var q := Apply(p, op).value;
        forall d | d in q.chans ensures ChannelAgrees(q, d) {
          assert d == c || ChannelAgrees(p, d);
        }
      case Destruct(c) =>
        assert ChannelAgrees(p, c);
        if Apply(p, op).Some? {
          var q := Apply(p, op).value;
          forall d | d in q.chans ensures ChannelAgrees(q, d) {
            assert ChannelAgrees(p, d);
          }
        }
      case RemoveFrom(c) => RemoveAgrees(p, c);
      case Enable(c, flags) => MaskUpdateAgrees(p, c, p.chans[c].events + flags);
      case Disable(c, flags) => MaskUpdateAgrees(p, c, p.chans[c].events - flags);
      case DisableAll(c) => MaskUpdateAgrees(p, c, {});
    }
  }

  /** A run stops, with None, at the first failed assertion; an operation on a channel
    * that does not exist (or a second construction) is skipped. */
  function Run<C>(p: Poll<C>, ops: seq<ChannelOp<C>>): Option<Poll<C>>
    decreases ops
  {
    if ops == [] then Some(p)
    else if !Enabled(p, ops[0]) then Run(p, ops[1..])
    else
      var next := Apply(p, ops[0]);
      if next.None? then None else Run(next.value, ops[1..])
  }

  /** Any sequence of operations on any number of channels, sharing descriptors or not,
    * keeps the three records in agreement; in particular the kernel refuses nothing. */
  lemma {:induction false} RunAgrees<C>(p: Poll<C>, ops: seq<ChannelOp<C>>)
    requires Agreement(p)
    ensures Run(p, ops).Some? ==> Agreement(Run(p, ops).value)
    decreases ops
  {
    if ops != [] {
      if !Enabled(p, ops[0]) {
        RunAgrees(p, ops[1..]);
      } else {
        ApplyAgrees(p, ops[0]);
        var next := Apply(p, ops[0]);
        if next.Some? {
          RunAgrees(next.value, ops[1..]);
        }
      }
    }
  }

  // ------------------------------------------------------------ the masks

  lemma EventMasks()
    ensures READ_EVENT == {In, Pri} && WRITE_EVENT == {Out}
  {
  }

  /** The mask a channel has, if it exists. */
  function MaskOf<C>(p: Poll<C>, c: C): Option<set<Flag>> {
    if c in p.chans then Some(p.chans[c].events) else None
  }

  /** The mask its owner has asked for: each enable adds its flags, each disable takes its
    * own away, and nothing done to another channel counts. */
  function Asked<C(==)>(mask: Option<set<Flag>>, op: ChannelOp<C>, c: C): Option<set<Flag>> {
    if op.c != c then mask
    else if mask.None? then (if op.Create? then Some({}) else None)
    else
      match op
      case Enable(_, flags) => Some(mask.value + flags)
      case Disable(_, flags) => Some(mask.value - flags)
      case DisableAll(_) => Some({})
      case Destruct(_) => None
      case _ => mask
  }

  function AskedFor<C(==)>(mask: Option<set<Flag>>, ops: seq<ChannelOp<C>>, c: C): Option<set<Flag>>
    decreases ops
  {
    if ops == [] then mask else AskedFor(Asked(mask, ops[0], c), ops[1..], c)
  }

  /** One operation changes the mask of its own channel as asked, and no other channel. */
  lemma ApplyMasks<C>(p: Poll<C>, op: ChannelOp<C>, c: C)
    requires Enabled(p, op) && Apply(p, op).Some?
    ensures MaskOf(Apply(p, op).value, c) == Asked(MaskOf(p, c), op, c)
    ensures c != op.c && c in p.chans ==> c in Apply(p, op).value.chans && Apply(p, op).value.chans[c] == p.chans[c]
    ensures op.Create? ==> Apply(p, op).value.chans == p.chans[op.c := Chan(op.fd, {}, New)]
  {
    hide Update, Remove;
    match op {
      case Enable(d, flags) => UpdateSetsNextIndex(SetEvents(p, d, p.chans[d].events + flags), d);
      case Disable(d, flags) => UpdateSetsNextIndex(SetEvents(p, d, p.chans[d].events - flags), d);
      case DisableAll(d) => UpdateSetsNextIndex(SetEvents(p, d, {}), d);
      case RemoveFrom(d) => RemoveKeepsMasks(p, d);
      case _ =>
    }
  }

  lemma RemoveKeepsMasks<C>(p: Poll<C>, c: C)
    requires c in p.chans && Remove(p, c).Some?
    ensures Remove(p, c).value.chans == p.chans[c := p.chans[c].(index := New)]
  {
  }

  /** Enabling and disabling, with what the kernel then watches for. */
  lemma EnableAdds<C>(p: Poll<C>, c: C, flags: set<Flag>)
    requires Agreement(p) && c in p.chans
    ensures Apply(p, Enable(c, flags)).Some? ==>
      var q := Apply(p, Enable(c, flags)).value;
      && c in q.chans && q.chans[c].events == p.chans[c].events + flags && q.chans[c].fd == p.chans[c].fd
      && (q.chans[c].index.Added? ==>
            q.chans[c].fd in q.kernel && q.kernel[q.chans[c].fd] == Interest(c, p.chans[c].events + flags))
    ensures Apply(p, Disable(c, flags)).Some? ==>
      var q := Apply(p, Disable(c, flags)).value;
      && c in q.chans && q.chans[c].events == p.chans[c].events - flags && q.chans[c].fd == p.chans[c].fd
      && (q.chans[c].index.Added? ==>
            q.chans[c].fd in q.kernel && q.kernel[q.chans[c].fd] == Interest(c, p.chans[c].events - flags))
  {
    ApplyAgrees(p, Enable(c, flags));
    ApplyAgrees(p, Disable(c, flags));
    if Apply(p, Enable(c, flags)).Some? { assert ChannelAgrees(Apply(p, Enable(c, flags)).value, c); }
    if Apply(p, Disable(c, flags)).Some? { assert ChannelAgrees(Apply(p, Disable(c, flags)).value, c); }
  }

  /** After any sequence of operations on any channels each channel's mask is the fold of
    * its own enables and disables, and the kernel watches a descriptor for exactly that. */
  lemma {:induction false} RunMasks<C>(p: Poll<C>, ops: seq<ChannelOp<C>>, c: C)
    requires Agreement(p) && Run(p, ops).Some?
    ensures var q := Run(p, ops).value;
      && MaskOf(q, c) == AskedFor(MaskOf(p, c), ops, c)
      && forall fd :: fd in q.kernel && q.kernel[fd].owner == c ==>
           Some(q.kernel[fd].mask) == AskedFor(MaskOf(p, c), ops, c)
    decreases ops
  {
    if ops == [] {
      forall fd | fd in p.kernel && p.kernel[fd].owner == c ensures Some(p.kernel[fd].mask) == MaskOf(p, c) {
        WatchedIsAlive(p, fd);
      }
    } else if !Enabled(p, ops[0]) {
      assert Asked(MaskOf(p, c), ops[0], c) == MaskOf(p, c);
      RunMasks(p, ops[1..], c);
    } else {
      ApplyAgrees(p, ops[0]);
      ApplyMasks(p, ops[0], c);
      hide Apply, Agreement, Asked, MaskOf;
      RunMasks(Apply(p, ops[0]).value, ops[1..], c);
    }
  }

  /** Channels that share a descriptor: at most one of them is known to the poller. */
  lemma OneChannelPerDescriptor<C>(p: Poll<C>, c: C, d: C)
    requires Agreement(p) && c in p.chans && d in p.chans
    requires p.chans[c].fd == p.chans[d].fd && !p.chans[c].index.New? && !p.chans[d].index.New?
    ensures c == d
  {
    assert ChannelAgrees(p, c) && ChannelAgrees(p, d);
  }

  /** What the kernel stores for a descriptor is a live channel of that descriptor,
    * registered and in the interest set. */
  lemma WatchedIsAlive<C>(p: Poll<C>, fd: int)
    requires Agreement(p) && fd in p.kernel
    ensures var c := p.kernel[fd].owner;
            && c in p.chans && p.chans[c] == Chan(fd, p.kernel[fd].mask, Added) && Registered(p, c)
  {
    assert ChannelAgrees(p, p.table[fd]);
  }

  /** Turning everything off on a channel that is already out of the interest set puts
    * it back, with an empty mask the kernel still reports hang-ups for. */
  lemma DisableAllTwiceRegisters<C>(p: Poll<C>, c: C)
    requires Agreement(p) && c in p.chans && !p.chans[c].index.New?
    ensures Apply(p, DisableAll(c)).Some?
    ensures p.chans[c].fd in Apply(p, DisableAll(c)).value.kernel <==> p.chans[c].fd !in p.kernel
  {
    ApplyAgrees(p, DisableAll(c));
    assert ChannelAgrees(p, c);
    assert ChannelAgrees(Apply(p, DisableAll(c)).value, c);
  }

  // -------------------------------------------------------------- classes

  class Channel {
    const loop: EPollPoller
    const fd: int
    var events: set<Flag>
    var revents: set<Flag>
    var index: Index

    constructor (loop: EPollPoller, fd: int)
      requires Agreement(loop.View())
      modifies loop
      ensures this.loop == loop && this.fd == fd
      ensures this !in old(loop.known) && loop.known == old(loop.known) + {this}
      ensures Some(loop.View()) == Apply(old(loop.View()), Create(this, fd))
      ensures Agreement(loop.View())
    {
      this.loop := loop;
      this.fd := fd;
      events, revents, index := {}, {}, New;
      new;
      ghost var before := old(loop.View());
      assert forall c :: c in before.chans ==> c != this;
      loop.known := loop.known + {this};
      assert loop.View().chans == before.chans[this := Chan(fd, {}, New)];
      ApplyAgrees(before, Create(this, fd));
    }

    /** The call is legal where the poller's assertions hold. */
    ghost predicate Can(op: ChannelOp<Channel>)
      reads loop, loop.known
    {
      && op.c == this && !op.Create? && !op.Destruct? && this in loop.known
      && Agreement(loop.View()) && Apply(loop.View(), op).Some?
    }

    method EnableReading()
      requires Can(Enable(this, READ_EVENT))
      modifies this, loop
      ensures Some(loop.View()) == Apply(old(loop.View()), Enable(this, READ_EVENT))
      ensures events == old(events) + {In, Pri}
      ensures loop.known == old(loop.known) && Agreement(loop.View())
    {
      ApplyAgrees(loop.View(), Enable(this, READ_EVENT));
      UpdateWith(events + READ_EVENT);
    }

    method DisableReading()
      requires Can(Disable(this, READ_EVENT))
      modifies this, loop
      ensures Some(loop.View()) == Apply(old(loop.View()), Disable(this, READ_EVENT))
      ensures events == old(events) - {In, Pri}
      ensures loop.known == old(loop.known) && Agreement(loop.View())
    {
      ApplyAgrees(loop.View(), Disable(this, READ_EVENT));
      UpdateWith(events - READ_EVENT);
    }

    method EnableWriting()
      requires Can(Enable(this, WRITE_EVENT))
      modifies this, loop
      ensures Some(loop.View()) == Apply(old(loop.View()), Enable(this, WRITE_EVENT))
      ensures events == old(events) + {Out}
      ensures loop.known == old(loop.known) && Agreement(loop.View())
    {
      ApplyAgrees(loop.View(), Enable(this, WRITE_EVENT));
      UpdateWith(events + WRITE_EVENT);
    }

    method DisableWriting()
      requires Can(Disable(this, WRITE_EVENT))
      modifies this, loop
      ensures Some(loop.View()) == Apply(old(loop.View()), Disable(this, WRITE_EVENT))
      ensures events == old(events) - {Out}
      ensures loop.known == old(loop.known) && Agreement(loop.View())
    {
      ApplyAgrees(loop.View(), Disable(this, WRITE_EVENT));
      UpdateWith(events - WRITE_EVENT);
    }

    method DisableAllEvents()
      requires Can(DisableAll(this))
      modifies this, loop
      ensures Some(loop.View()) == Apply(old(loop.View()), DisableAll(this))
      ensures events == {}
      ensures loop.known == old(loop.known) && Agreement(loop.View())
    {
      ApplyAgrees(loop.View(), DisableAll(this));
      UpdateWith({});
    }

    /** events_ is assigned, then the poller is told. */
    method UpdateWith(mask: set<Flag>)
      requires this in loop.known && Update(SetEvents(loop.View(), this, mask), this).Some?
      modifies this, loop
      ensures Some(loop.View()) == Update(SetEvents(old(loop.View()), this, mask), this)
      ensures loop.known == old(loop.known) && (old(Agreement(loop.View())) ==> Agreement(loop.View()))
      ensures events == mask
    {
      if Agreement(loop.View()) {
        MaskUpdateAgrees(loop.View(), this, mask);
      }
      events := mask;
      assert loop.View() == SetEvents(old(loop.View()), this, mask) by {
        assert loop.View().chans == SetEvents(old(loop.View()), this, mask).chans;
      }
      loop.UpdateChannel(this);
    }

    method RemoveSelf()
      requires Can(RemoveFrom(this))
      modifies this, loop
      ensures Some(loop.View()) == Apply(old(loop.View()), RemoveFrom(this))
      ensures loop.known == old(loop.known) && Agreement(loop.View())
    {
      ApplyAgrees(loop.View(), RemoveFrom(this));
      loop.RemoveChannel(this);
    }
  }

  class EPollPoller {
    var channels: map<int, Channel>
    ghost var known: set<Channel>
    var kernel: map<int, Interest<Channel>>
    var refused: nat

    ghost function View(): (p: Poll<Channel>)
      reads this, known
      ensures p.chans.Keys == known
    {
      Poll(map c | c in known :: Chan(c.fd, c.events, c.index), channels, kernel, refused)
    }

    constructor ()
      ensures View() == Poll(map[], map[], map[], 0) && Agreement(View())
    {
      channels, known, kernel, refused := map[], {}, map[], 0;
    }

    method UpdateChannel(channel: Channel)
      requires channel in known && Update(View(), channel).Some?
      modifies this, channel`index
      ensures known == old(known)
      ensures Some(View()) == Update(old(View()), channel)
    {
      ghost var p := View();
      var fd := channel.fd;
      assert channel in p.chans && p.chans[channel] == Chan(fd, channel.events, channel.index);
      if channel.index.New? || channel.index.Deleted? {
        if channel.index.New? {
          channels := channels[fd := channel];
          assert View() == p.(table := p.table[fd := channel]);
        }
        SetChannelIndex(channel, Added);
        EpollCtl(CtlAdd, channel);
      } else if channel.events == {} {
        EpollCtl(CtlDel, channel);
        SetChannelIndex(channel, Deleted);
      } else {
        EpollCtl(CtlMod, channel);
      }
    }

    method SetChannelIndex(channel: Channel, index: Index)
      requires channel in known
      modifies channel`index
      ensures channel.index == index
      ensures View() == SetIndex(old(View()), channel, index)
    {
      ghost var p := View();
      channel.index := index;
      ghost var q := SetIndex(p, channel, index);
      assert View().chans == q.chans;
      assert View() == Poll(q.chans, p.table, p.kernel, p.refused);
    }

    method RemoveChannel(channel: Channel)
      requires channel in known && Remove(View(), channel).Some?
      modifies this, channel`index
      ensures known == old(known)
      ensures Some(View()) == Remove(old(View()), channel)
    {
      ghost var p := View();
      var index := channel.index;
      channels := channels - {channel.fd};
      if index.Added? {
        EpollCtl(CtlDel, channel);
      }
      channel.index := New;
      assert View().chans == Remove(p, channel).value.chans;
    }

    /** update(): a refused epoll_ctl is logged and otherwise ignored. */
    method EpollCtl(op: CtlOp, channel: Channel)
      requires channel in known
      modifies this`kernel, this`refused
      ensures View() == Ctl(old(View()), op, channel)
    {
      var fd := channel.fd;
      if (fd in kernel) == op.CtlAdd? {
        refused := refused + 1;
      } else if op.CtlDel? {
        kernel := kernel - {fd};
      } else {
        kernel := kernel[fd := Interest(channel, channel.events)];
      }
    }

    /** Every channel the kernel hands back is a live channel in the interest set, and
      * each is given exactly the flags reported for it. */
    method FillActiveChannels(reported: seq<(int, set<Flag>)>) returns (active: seq<Channel>)
      requires Agreement(View())
      requires forall k :: 0 <= k < |reported| ==> reported[k].0 in kernel
      requires forall j, k :: 0 <= j < k < |reported| ==> reported[j].0 != reported[k].0
      modifies set c | c in known :: c`revents
      ensures |active| == |reported|
      ensures forall k :: 0 <= k < |active| ==>
                && active[k] in known && active[k].index.Added?
                && active[k].fd == reported[k].0 && active[k].revents == reported[k].1
    {
      active := [];
      ghost var p := View();
      for i := 0 to |reported|
        invariant View() == p && known == old(known)
        invariant |active| == i
        invariant forall k :: 0 <= k < i ==>
                    && active[k] in known && active[k].index.Added?
                    && active[k].fd == reported[k].0 && active[k].revents == reported[k].1
      {
        WatchedIsAlive(p, reported[i].0);
        var channel := kernel[reported[i].0].owner;
        channel.revents := reported[i].1;
        active := active + [channel];
      }
    }
  }
}
