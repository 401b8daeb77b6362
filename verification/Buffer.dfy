/** The I/O buffer: one growing array and two indices into it.
  *
  *   +-------------------+------------------+------------------+
  *   | prependable bytes |  readable bytes  |  writable bytes  |
  *   +-------------------+------------------+------------------+
  *   0      <=      readerIndex   <=   writerIndex    <=     size
  */
module Buffers {
  import opened Prelude

  const CHEAP_PREPEND: nat := 8
  const INITIAL_SIZE: nat := 1024
  const EXTRA_BUF: nat := 65536

  /** What a buffer is worth to its owner: the bytes between the two indices, the
    * reader index and the size of the vector. */
  datatype Store = Store(readable: seq<Byte>, reader: nat, size: nat) {
    /** The writer index lies between the reserved prefix and the end of the vector. */
    predicate Valid() { CHEAP_PREPEND <= reader + |readable| <= size }

    function Writable(): nat
      requires Valid()
    {
      size - reader - |readable|
    }

    /** The assertion in makeSpace fails: enough room in total, but nothing to slide. */
    predicate MakeSpaceAborts(len: nat)
      requires Valid()
    {
      len + CHEAP_PREPEND <= Writable() + reader && reader <= CHEAP_PREPEND
    }

    /** ensureWritableBytes goes into makeSpace and fails there. */
    predicate EnsureAborts(len: nat)
      requires Valid()
    {
      Writable() < len && MakeSpaceAborts(len)
    }

    function MakeSpace(len: nat): Store
      requires Valid()
    {
      if Writable() + reader < len + CHEAP_PREPEND
      then this.(size := reader + |readable| + len)
      else this.(reader := CHEAP_PREPEND)
    }

    function EnsureWritable(len: nat): Store
      requires Valid()
    {
      if Writable() < len then MakeSpace(len) else this
    }

    function Append(data: seq<Byte>): Store
      requires Valid()
    {
      var t := EnsureWritable(|data|);
      t.(readable := t.readable + data)
    }

    function Prepend(data: seq<Byte>): Store
      requires |data| <= reader
    {
      Store(data + readable, reader - |data|, size)
    }

    /** A negative length compares as a huge unsigned one, so it empties the buffer. */
    function Retrieve(len: int): Store {
      if 0 <= len < |readable|
      then Store(readable[len..], reader + len, size)
      else Store([], CHEAP_PREPEND, size)
    }

    /** The most one readv can deliver: the writable part, and the 64 KiB overflow
      * buffer only when the writable part is smaller than that. */
    function ReadCapacity(): nat
      requires Valid()
    {
      Writable() + (if Writable() < EXTRA_BUF then EXTRA_BUF else 0)
    }

    /** The append of what overflowed fails. */
    predicate ReadFdAborts(data: seq<Byte>)
      requires Valid()
    {
      var w := Writable();
      |data| > w && this.(readable := readable + data[..w]).EnsureAborts(|data| - w)
    }

    function ReadFd(data: seq<Byte>): Store
      requires Valid()
    {
      var w := Writable();
      if |data| <= w then this.(readable := readable + data)
      else this.(readable := readable + data[..w]).Append(data[w..])
    }
  }

  function Fresh(initialSize: nat): Store { Store([], CHEAP_PREPEND, CHEAP_PREPEND + initialSize) }

  /** A buffer as it is made: eight bytes reserved in front, room for 1024 behind, and one
    * read may bring 64 KiB more. */
  lemma FreshSizes()
    ensures var s := Fresh(INITIAL_SIZE);
      s.Valid() && s.readable == [] && s.reader == 8 && s.Writable() == 1024 && s.ReadCapacity() == 1024 + 65536
  {
  }

  /** ensureWritableBytes reaches makeSpace only where its assertion holds, and leaves
    * a buffer that has the room asked for and the same readable bytes. */
  lemma EnsureWritableNeverAborts(s: Store, len: nat)
    requires s.Valid()
    ensures s.Writable() < len ==> !s.MakeSpaceAborts(len)
    ensures s.EnsureWritable(len).readable == s.readable
    ensures s.EnsureWritable(len).Valid() && s.EnsureWritable(len).Writable() >= len
  {
  }

  /** Called directly, makeSpace can trip its assertion: a fresh buffer asked for room
    * it already has. */
  lemma MakeSpaceCanAbort()
    ensures Fresh(INITIAL_SIZE).Valid() && Fresh(INITIAL_SIZE).MakeSpaceAborts(1)
  {
  }

  // ----------------------------------------------------------------- runs

  datatype Op =
    | OpAppend(data: seq<Byte>)
    | OpPrepend(data: seq<Byte>)
    | OpRetrieve(len: int)
    | OpRetrieveAsString(count: nat)
    | OpReadFd(data: seq<Byte>)
    | OpEnsureWritable(count: nat)

  /** None is a failed assertion. */
  function Apply(s: Store, op: Op): Option<Store>
    requires s.Valid()
  {
    match op
    case OpAppend(d) => if s.EnsureAborts(|d|) then None else Some(s.Append(d))
    case OpPrepend(d) => if |d| <= s.reader then Some(s.Prepend(d)) else None
    case OpRetrieve(n) => Some(s.Retrieve(n))
    case OpRetrieveAsString(n) => if n <= |s.readable| then Some(s.Retrieve(n)) else None
    case OpReadFd(d) => if s.ReadFdAborts(d) then None else Some(s.ReadFd(d))
    case OpEnsureWritable(n) => if s.EnsureAborts(n) then None else Some(s.EnsureWritable(n))
  }

  /** The same operations on a plain byte string. */
  function QueueApply(q: seq<Byte>, op: Op): seq<Byte> {
    match op
    case OpAppend(d) => q + d
    case OpPrepend(d) => d + q
    case OpRetrieve(n) => if 0 <= n <= |q| then q[n..] else []
    case OpRetrieveAsString(n) => if n <= |q| then q[n..] else []
    case OpReadFd(d) => q + d
    case OpEnsureWritable(_) => q
  }

  lemma ApplyRefinesQueue(s: Store, op: Op)
    requires s.Valid()
    ensures Apply(s, op).Some? ==>
              && Apply(s, op).value.Valid()
              && Apply(s, op).value.readable == QueueApply(s.readable, op)
  {
    if op.OpReadFd? && |op.data| > s.Writable() {
      var w := s.Writable();
      assert (s.readable + op.data[..w]) + op.data[w..] == s.readable + op.data;
    }
  }

  function Run(s: Store, ops: seq<Op>): Option<Store>
    requires s.Valid()
    decreases ops
  {
    if ops == [] then Some(s) else
      var next := Apply(s, ops[0]);
      ApplyRefinesQueue(s, ops[0]);
      if next.None? then None else Run(next.value, ops[1..])
  }

  function QueueRun(q: seq<Byte>, ops: seq<Op>): seq<Byte>
    decreases ops
  {
    if ops == [] then q else QueueRun(QueueApply(q, ops[0]), ops[1..])
  }

  /** Whatever sequence of operations is applied, whichever branches of makeSpace they
    * take, the readable window is what the plain byte string would hold. */
  lemma {:induction false} RunRefinesQueue(s: Store, ops: seq<Op>)
    requires s.Valid()
    ensures Run(s, ops).Some? ==>
              && Run(s, ops).value.Valid()
              && Run(s, ops).value.readable == QueueRun(s.readable, ops)
    decreases ops
  {
    if ops != [] {
      ApplyRefinesQueue(s, ops[0]);
      var next := Apply(s, ops[0]);
      if next.Some? {
        RunRefinesQueue(next.value, ops[1..]);
      }
    }
  }

  /** The first operation asks for what the buffer cannot give: more bytes back than it
    * holds, or more room in front than is free. */
  predicate AsksTooMuch(s: Store, op: Op)
    requires s.Valid()
  {
    (op.OpRetrieveAsString? && op.count > |s.readable|) || (op.OpPrepend? && |op.data| > s.reader)
  }

  /** Some operation of the run does. */
  predicate SomeAsksTooMuch(s: Store, ops: seq<Op>)
    requires s.Valid()
    decreases ops
  {
    ops != [] &&
    (|| AsksTooMuch(s, ops[0])
     || (ApplyRefinesQueue(s, ops[0]);
         Apply(s, ops[0]).Some? && SomeAsksTooMuch(Apply(s, ops[0]).value, ops[1..])))
  }

  /** Any run stops at an assertion if and only if its caller asks for too much: makeSpace's
    * own assertion is never the one to fail. */
  lemma {:induction false} AbortsIffAskedTooMuch(s: Store, ops: seq<Op>)
    requires s.Valid()
    ensures Run(s, ops).None? <==> SomeAsksTooMuch(s, ops)
    decreases ops
  {
    if ops != [] {
      ApplyRefinesQueue(s, ops[0]);
      var next := Apply(s, ops[0]);
      if next.Some? {
        AbortsIffAskedTooMuch(next.value, ops[1..]);
      }
    }
  }

  /** Some retrieveAsString asks for more than the plain byte string then holds. */
  predicate OverRetrieves(q: seq<Byte>, ops: seq<Op>)
    decreases ops
  {
    ops != [] &&
    (|| (ops[0].OpRetrieveAsString? && ops[0].count > |q|)
     || OverRetrieves(QueueApply(q, ops[0]), ops[1..]))
  }

  predicate NoPrepend(ops: seq<Op>) { forall k :: 0 <= k < |ops| ==> !ops[k].OpPrepend? }

  /** Without prepends a run stops at an assertion if and only if the byte string itself
    * is asked for bytes it does not have: no layout of the indices can do it. The
    * reserved prefix of eight bytes is then still free. */
  lemma {:induction false} AbortsIffOverRetrieves(s: Store, ops: seq<Op>)
    requires s.Valid() && CHEAP_PREPEND <= s.reader && NoPrepend(ops)
    ensures Run(s, ops).None? <==> OverRetrieves(s.readable, ops)
    ensures Run(s, ops).Some? ==> CHEAP_PREPEND <= Run(s, ops).value.reader
    decreases ops
  {
    if ops != [] {
      ApplyRefinesQueue(s, ops[0]);
      var next := Apply(s, ops[0]);
      if next.Some? {
        AbortsIffOverRetrieves(next.value, ops[1..]);
      }
    }
  }

  /** Every backlog along the run is at most m, every chunk at most l. */
  predicate Within(q: seq<Byte>, ops: seq<Op>, m: nat, l: nat)
    decreases ops
  {
    |q| <= m &&
    (ops != [] ==>
       && (match ops[0]
           case OpAppend(d) => |d| <= l
           case OpReadFd(d) => |d| <= l
           case OpEnsureWritable(n) => n <= l
           case _ => true)
       && Within(QueueApply(q, ops[0]), ops[1..], m, l))
  }

  lemma StepGrowth(s: Store, len: nat)
    requires s.Valid()
    ensures s.EnsureWritable(len).size <= Max(s.size, |s.readable| + 2 * len + 7)
    ensures s.EnsureWritable(len).size > s.size ==> s.Writable() + s.reader < len + CHEAP_PREPEND
  {
  }

  /** Memory: over a whole run the vector never outgrows the larger of its first size
    * and backlog + 2 * chunk + 7. */
  lemma {:induction false} MemoryBound(s: Store, ops: seq<Op>, m: nat, l: nat)
    requires s.Valid() && Within(s.readable, ops, m, l)
    ensures Run(s, ops).Some? ==> Run(s, ops).value.size <= Max(s.size, m + 2 * l + 7)
    decreases ops
  {
    if ops != [] {
      ApplyRefinesQueue(s, ops[0]);
      var next := Apply(s, ops[0]);
      if next.Some? {
        assert |next.value.readable| <= m by {
          assert Within(QueueApply(s.readable, ops[0]), ops[1..], m, l);
        }
        match ops[0] {
          case OpAppend(d) => StepGrowth(s, |d|);
          case OpEnsureWritable(n) => StepGrowth(s, n);
          case OpReadFd(d) =>
            if |d| > s.Writable() {
              StepGrowth(s.(readable := s.readable + d[..s.Writable()]), |d| - s.Writable());
            }
          case _ =>
        }
        MemoryBound(next.value, ops[1..], m, l);
      }
    }
  }

  /** The first size of a fresh buffer put into the bound. */
  lemma FreshMemoryBound(initialSize: nat, ops: seq<Op>, m: nat, l: nat)
    requires Within([], ops, m, l)
    ensures Run(Fresh(initialSize), ops).Some? ==>
              Run(Fresh(initialSize), ops).value.size <= Max(initialSize + 8, m + 2 * l + 7)
  {
    MemoryBound(Fresh(initialSize), ops, m, l);
  }

  // ---------------------------------------------------------------- class

  class Buffer {
    var buffer: array<Byte>
    var readerIndex: nat
    var writerIndex: nat

    ghost predicate Valid()
      reads this
    {
      readerIndex <= writerIndex <= buffer.Length && CHEAP_PREPEND <= writerIndex
    }

    ghost function View(): (s: Store)
      reads this, buffer
      requires Valid()
      ensures s.Valid()
    {
      Store(buffer[readerIndex..writerIndex], readerIndex, buffer.Length)
    }

    constructor (initialSize: nat := INITIAL_SIZE)
      ensures Valid() && fresh(buffer) && View() == Fresh(initialSize)
    {
      buffer := new Byte[CHEAP_PREPEND + initialSize](_ => 0);
      readerIndex, writerIndex := CHEAP_PREPEND, CHEAP_PREPEND;
    }

    function ReadableBytes(): (n: nat)
      reads this, buffer
      requires Valid()
      ensures n == |View().readable|
    {
      writerIndex - readerIndex
    }

    method Swap(rhs: Buffer)
      requires Valid() && rhs.Valid()
      modifies this, rhs
      ensures Valid() && rhs.Valid()
      ensures View() == old(rhs.View()) && rhs.View() == old(View())
      ensures {buffer, rhs.buffer} == old({buffer, rhs.buffer})
    {
      buffer, rhs.buffer := rhs.buffer, buffer;
      readerIndex, rhs.readerIndex := rhs.readerIndex, readerIndex;
      writerIndex, rhs.writerIndex := rhs.writerIndex, writerIndex;
    }

    method Retrieve(len: int)
      requires Valid()
      modifies this
      ensures Valid() && buffer == old(buffer)
      ensures View() == old(View()).Retrieve(len)
      ensures View().readable == if 0 <= len < |old(View().readable)| then old(View().readable)[len..] else []
    {
      if 0 <= len < writerIndex - readerIndex {
        readerIndex := readerIndex + len;
      } else {
        RetrieveAll();
      }
    }

    method RetrieveAll()
      requires Valid()
      modifies this
      ensures Valid() && buffer == old(buffer)
      ensures View() == Store([], CHEAP_PREPEND, old(View()).size)
    {
      readerIndex, writerIndex := CHEAP_PREPEND, CHEAP_PREPEND;
    }

    method RetrieveAsString(len: nat) returns (result: seq<Byte>)
      requires Valid() && len <= |View().readable|
      modifies this
      ensures Valid() && buffer == old(buffer)
      ensures result + View().readable == old(View().readable) && |result| == len
      ensures View() == old(View()).Retrieve(len)
    {
      result := buffer[readerIndex..readerIndex + len];
      assert result + buffer[readerIndex + len..writerIndex] == buffer[readerIndex..writerIndex];
      Retrieve(len);
    }

    method MakeSpace(len: nat)
      requires Valid() && !View().MakeSpaceAborts(len)
      modifies this, buffer
      ensures Valid() && (buffer == old(buffer) || fresh(buffer))
      ensures View() == old(View()).MakeSpace(len) && View().readable == old(View().readable)
    {
      if buffer.Length - writerIndex + readerIndex < len + CHEAP_PREPEND {
        var old_ := buffer;
        var keep := Min(old_.Length, writerIndex + len);
        var bigger := new Byte[writerIndex + len](i reads old_ =>
          if 0 <= i < keep && i < old_.Length then old_[i] else 0);
        buffer := bigger;
        assert buffer[readerIndex..writerIndex] == old(buffer[readerIndex..writerIndex]);
      } else {
        // std::copy onto an overlapping, lower range: front to back.
        var from, readable, i := readerIndex, writerIndex - readerIndex, 0;
        ghost var window := buffer[readerIndex..writerIndex];
        while i < readable
          invariant 0 <= i <= readable
          invariant buffer == old(buffer) && readerIndex == from && writerIndex == from + readable
          invariant CHEAP_PREPEND < from && from + readable <= buffer.Length
          invariant buffer[CHEAP_PREPEND..CHEAP_PREPEND + i] == window[..i]
          invariant buffer[from + i..from + readable] == window[i..]
        {
          assert buffer[from + i] == window[i..][0];
          buffer[CHEAP_PREPEND + i] := buffer[from + i];
          i := i + 1;
        }
        readerIndex := CHEAP_PREPEND;
        writerIndex := CHEAP_PREPEND + readable;
      }
    }

    method EnsureWritableBytes(len: nat)
      requires Valid()
      modifies this, buffer
      ensures Valid() && (buffer == old(buffer) || fresh(buffer))
      ensures View() == old(View()).EnsureWritable(len) && View().Writable() >= len
      ensures View().readable == old(View().readable)
    {
      EnsureWritableNeverAborts(View(), len);
      if buffer.Length - writerIndex < len {
        MakeSpace(len);
      }
    }

    method Append(data: seq<Byte>)
      requires Valid()
      modifies this, buffer
      ensures Valid() && (buffer == old(buffer) || fresh(buffer))
      ensures View() == old(View()).Append(data)
      ensures View().readable == old(View().readable) + data
    {
      EnsureWritableBytes(|data|);
      CopyIn(data);
    }

    /** std::copy to beginWrite(), then hasWritten(). */
    method CopyIn(data: seq<Byte>)
      requires Valid() && |data| <= View().Writable()
      modifies this, buffer
      ensures Valid() && buffer == old(buffer)
      ensures View() == old(View()).(readable := old(View().readable) + data)
    {
      ghost var before := buffer[readerIndex..writerIndex];
      forall k | 0 <= k < |data| {
        buffer[writerIndex + k] := data[k];
      }
      writerIndex := writerIndex + |data|;
      assert buffer[readerIndex..writerIndex] == before + data;
    }

    method Prepend(data: seq<Byte>)
      requires Valid() && |data| <= readerIndex
      modifies this, buffer
      ensures Valid() && buffer == old(buffer)
      ensures View() == old(View()).Prepend(data) && View().readable == data + old(View().readable)
    {
      ghost var before := buffer[readerIndex..writerIndex];
      readerIndex := readerIndex - |data|;
      forall k | 0 <= k < |data| {
        buffer[readerIndex + k] := data[k];
      }
      assert buffer[readerIndex..writerIndex] == data + before;
    }

    /** `incoming` is what readv scattered over the writable part and, when that is
      * smaller than it, the 64 KiB overflow buffer; None is an error. */
    method ReadFd(incoming: Option<seq<Byte>>) returns (n: int)
      requires Valid() && (incoming.Some? ==> |incoming.value| <= View().ReadCapacity())
      modifies this, buffer
      ensures Valid() && (buffer == old(buffer) || fresh(buffer))
      ensures incoming.None? ==> n < 0 && View() == old(View())
      ensures incoming.Some? ==> n == |incoming.value|
      ensures incoming.Some? ==> View() == old(View()).ReadFd(incoming.value)
      ensures incoming.Some? ==> View().readable == old(View().readable) + incoming.value
    {
      if incoming.None? {
        return -1;
      }
      var data := incoming.value;
      n := |data|;
      var writable := buffer.Length - writerIndex;
      if n <= writable {
        CopyIn(data);
      } else {
        CopyIn(data[..writable]);
        assert data[..writable] + data[writable..] == data;
        Append(data[writable..]);
      }
    }
  }
}
