/** The gap buffer of include/Buffer.h and src/Buffer.cpp: prependable, readable and writable bytes
    in one vector, with an in-place shift, a resize and a two-block scatter read. */
module ByteBuffer {
  import opened Kernel

  const CHEAP_PREPEND: nat := 8
  const INITIAL_SIZE: nat := 1024
  const EXTRA_BUF: nat := 65536

  function Max(a: int, b: int): int {
    if a < b then b else a
  }

  function Min(a: int, b: int): int {
    if a < b then a else b
  }

  // ------------------------------------------------------------------ specification

  /** The indices of a buffer: size of the vector, start and end of the readable bytes. */
  datatype Layout = Layout(size: nat, reader: nat, writer: nat) {
    predicate Valid() {
      CHEAP_PREPEND <= reader <= writer <= size
    }

    function Readable(): nat
      requires Valid()
    {
      writer - reader
    }

    function Writable(): nat
      requires Valid()
    {
      size - writer
    }

    /** What one readv can deliver: the writable block and, unless that block is already as large
        as the stack block, the stack block too. */
    function Offered(): nat
      requires Valid()
    {
      Writable() + if Writable() < EXTRA_BUF then EXTRA_BUF else 0
    }

    /** ensureWriteableBytes: the vector grows only when even the shifted bytes leave too little room. */
    function Reserve(len: nat): (l: Layout)
      requires Valid()
      ensures l.Valid() && l.Readable() == Readable() && l.Writable() >= len
      ensures l.size == size || (size < l.size == l.reader + l.Readable() + len && l.reader < CHEAP_PREPEND + len)
    {
      if len <= Writable() then this
      else if Writable() + reader - CHEAP_PREPEND < len then this.(size := writer + len)
      else Layout(size, CHEAP_PREPEND, CHEAP_PREPEND + Readable())
    }

    function Append(len: nat): (l: Layout)
      requires Valid()
      ensures l.Valid() && l.Readable() == Readable() + len
    {
      var r := Reserve(len);
      r.(writer := r.writer + len)
    }

    function Retrieve(len: nat): (l: Layout)
      requires Valid()
      ensures l.Valid() && l.Readable() == Max(0, Readable() - len)
    {
      if len < Readable() then this.(reader := reader + len)
      else Layout(size, CHEAP_PREPEND, CHEAP_PREPEND)
    }

    /** readFd: what fits stays where readv put it, the rest is appended after the vector's end. */
    function Receive(len: nat): (l: Layout)
      requires Valid()
      ensures l.Valid() && l.Readable() == Readable() + len
    {
      if len <= Writable() then this.(writer := writer + len)
      else this.(writer := size).Append(len - Writable())
    }
  }

  /** One read is always offered at least 64 KiB, however full the buffer is, and never less than its own
      free space. */
  lemma OfferIsAmple(l: Layout)
    requires l.Valid()
    ensures l.Writable() <= l.Offered() <= l.Writable() + 65536 && l.Offered() >= 65536
  {
  }

  /** A buffer seen from outside: its indices and its readable bytes. */
  datatype View = View(layout: Layout, contents: seq<byte>) {
    predicate Valid() {
      layout.Valid() && |contents| == layout.Readable()
    }
  }

  function Empty(initialSize: nat): (v: View)
    ensures v.Valid()
  {
    View(Layout(CHEAP_PREPEND + initialSize, CHEAP_PREPEND, CHEAP_PREPEND), [])
  }

  /** The byte queue the buffer stands for: take from the front, at most what there is. */
  function Take(q: seq<byte>, n: nat): seq<byte> {
    q[..Min(n, |q|)]
  }

  function Drop(q: seq<byte>, n: nat): seq<byte> {
    q[Min(n, |q|)..]
  }

  // ------------------------------------------------------------------ whole runs

  datatype Op = Append(bytes: seq<byte>) | Retrieve(n: nat) | RetrieveAll | ReadFd(bytes: seq<byte>)

  function After(v: View, op: Op): (w: View)
    requires v.Valid()
    ensures w.Valid()
  {
    match op
    case Append(bytes) => View(v.layout.Append(|bytes|), v.contents + bytes)
    case Retrieve(n) => View(v.layout.Retrieve(n), Drop(v.contents, n))
    case RetrieveAll => View(v.layout.Retrieve(|v.contents|), [])
    case ReadFd(bytes) => View(v.layout.Receive(|bytes|), v.contents + bytes)
  }

  function Run(v: View, ops: seq<Op>): (w: View)
    requires v.Valid()
    ensures w.Valid()
  {
    if ops == [] then v else After(Run(v, ops[..|ops| - 1]), ops[|ops| - 1])
  }

  /** The most readable bytes held at any moment of a run. */
  function Peak(v: View, ops: seq<Op>): nat
    requires v.Valid()
  {
    if ops == [] then |v.contents|
    else Max(Peak(v, ops[..|ops| - 1]), |Run(v, ops).contents|)
  }

  /** What one operation puts into, and takes out of, a queue holding q. */
  function PutBy(op: Op): seq<byte> {
    if op.Append? || op.ReadFd? then op.bytes else []
  }

  function GotBy(q: seq<byte>, op: Op): seq<byte> {
    match op
    case Retrieve(n) => Take(q, n)
    case RetrieveAll => q
    case _ => []
  }

  /** The same over a run. */
  function Put(ops: seq<Op>): seq<byte> {
    if ops == [] then [] else Put(ops[..|ops| - 1]) + PutBy(ops[|ops| - 1])
  }

  function Got(v: View, ops: seq<Op>): seq<byte>
    requires v.Valid()
  {
    if ops == [] then []
    else Got(v, ops[..|ops| - 1]) + GotBy(Run(v, ops[..|ops| - 1]).contents, ops[|ops| - 1])
  }

  lemma StepIsAByteQueue(v: View, op: Op)
    requires v.Valid()
    ensures GotBy(v.contents, op) + After(v, op).contents == v.contents + PutBy(op)
  {
    assert op.Retrieve? ==> Take(v.contents, op.n) + Drop(v.contents, op.n) == v.contents;
  }

  lemma Regroup(q: seq<byte>, got: seq<byte>, put: seq<byte>, mid: seq<byte>,
                got1: seq<byte>, put1: seq<byte>, end: seq<byte>)
    requires got + mid == q + put && got1 + end == mid + put1
    ensures (got + got1) + end == q + (put + put1)
  {
    assert (got + got1) + end == got + (got1 + end) == (got + mid) + put1;
  }

  /** Over any run the bytes come out in the order they went in, none lost and none made up. */
  lemma {:induction false} RunIsAByteQueue(v: View, ops: seq<Op>)
    requires v.Valid()
    ensures Got(v, ops) + Run(v, ops).contents == v.contents + Put(ops)
  {
    if ops != [] {
      var prefix, op := ops[..|ops| - 1], ops[|ops| - 1];
      var before := Run(v, prefix);
      RunIsAByteQueue(v, prefix);
      StepIsAByteQueue(before, op);
      Regroup(v.contents, Got(v, prefix), Put(prefix), before.contents,
              GotBy(before.contents, op), PutBy(op), After(before, op).contents);
    }
  }

  /** A single operation lets the vector grow only as far as twice the bytes it then holds, plus 7. */
  lemma StepCapacity(v: View, op: Op)
    requires v.Valid()
    ensures v.layout.size <= After(v, op).layout.size
    ensures After(v, op).layout.size <= Max(v.layout.size, 2 * |After(v, op).contents| + 7)
  {
  }

  /** The vector never shrinks, and over any run it stays within max(its first size, 2 * peak + 7). */
  lemma {:induction false} RunCapacity(v: View, ops: seq<Op>)
    requires v.Valid()
    ensures v.layout.size <= Run(v, ops).layout.size <= Max(v.layout.size, 2 * Peak(v, ops) + 7)
  {
    if ops != [] {
      RunCapacity(v, ops[..|ops| - 1]);
      StepCapacity(Run(v, ops[..|ops| - 1]), ops[|ops| - 1]);
    }
  }

  /** The bound is met with equality: a buffer of initial size 0 that is given one byte. */
  lemma CapacityBoundIsTight(b: byte)
    ensures Run(Empty(0), [Append([b])]).layout.size == 2 * Peak(Empty(0), [Append([b])]) + 7
  {
    var ops := [Append([b])];
    assert ops[..|ops| - 1] == [];
    assert Run(Empty(0), ops[..|ops| - 1]) == Empty(0);
    assert Run(Empty(0), ops).contents == [b];
  }

  lemma NothingYet(v: View, ops: seq<Op>)
    requires v.Valid()
    ensures Run(v, ops[..0]) == v && Got(v, ops[..0]) == []
  {
  }

  lemma OneMore(v: View, ops: seq<Op>, i: nat)
    requires v.Valid() && i < |ops|
    ensures Run(v, ops[..i + 1]) == After(Run(v, ops[..i]), ops[i])
    ensures Got(v, ops[..i + 1]) == Got(v, ops[..i]) + GotBy(Run(v, ops[..i]).contents, ops[i])
  {
    assert ops[..i + 1][..i] == ops[..i];
  }

  /** Every read of a run delivers no more than the buffer then offers. */
  predicate Deliverable(v: View, ops: seq<Op>)
    requires v.Valid()
  {
    forall i :: 0 <= i < |ops| && ops[i].ReadFd? ==> |ops[i].bytes| <= Run(v, ops[..i]).layout.Offered()
  }

  lemma Glue(s: seq<byte>, from: nat, mid: nat, to: nat)
    requires from <= mid <= to <= |s|
    ensures s[from..to] == s[from..mid] + s[mid..to]
  {
  }

  // ------------------------------------------------------------------ the class

  class Buffer {
    var data: array<byte>
    var readerIndex: nat
    var writerIndex: nat

    ghost predicate Valid()
      reads this
    {
      CHEAP_PREPEND <= readerIndex <= writerIndex <= data.Length
    }

    ghost function Abs(): (v: View)
      requires Valid()
      reads this, data
      ensures v.Valid()
    {
      View(Layout(data.Length, readerIndex, writerIndex), data[readerIndex..writerIndex])
    }

    constructor (initialSize: nat := INITIAL_SIZE)
      ensures Valid() && fresh(data)
      ensures Abs() == Empty(initialSize)
    {
      data := new byte[CHEAP_PREPEND + initialSize](_ => 0);
      readerIndex, writerIndex := CHEAP_PREPEND, CHEAP_PREPEND;
    }

    function ReadableBytes(): (n: nat)
      requires Valid()
      reads this, data
      ensures n == |Abs().contents|
    {
      writerIndex - readerIndex
    }

    function WritableBytes(): (n: nat)
      requires Valid()
      reads this, data
      ensures n == Abs().layout.Writable()
    {
      data.Length - writerIndex
    }

    function PrependableBytes(): nat
      reads this
    {
      readerIndex
    }

    /** The readable bytes, as a caller of peek() with readableBytes() sees them. */
    function Peek(): (s: seq<byte>)
      requires Valid()
      reads this, data
      ensures s == Abs().contents
    {
      data[readerIndex..writerIndex]
    }

    method Retrieve(len: nat)
      requires Valid()
      modifies this
      ensures Valid() && data == old(data)
      ensures Abs() == After(old(Abs()), Op.Retrieve(len))
    {
      if len < ReadableBytes() {
        readerIndex := readerIndex + len;
      } else {
        RetrieveAll();
      }
    }

    method RetrieveAll()
      requires Valid()
      modifies this
      ensures Valid() && data == old(data)
      ensures Abs() == After(old(Abs()), Op.RetrieveAll)
    {
      readerIndex, writerIndex := CHEAP_PREPEND, CHEAP_PREPEND;
    }

    /** None stands for the fatal log entry that ends the process when too much is asked for. */
    method RetrieveAsString(len: nat) returns (result: Option<seq<byte>>)
      requires Valid()
      modifies this
      ensures Valid() && data == old(data)
      ensures result.None? <==> len > |old(Abs()).contents|
      ensures result.None? ==> Abs() == old(Abs())
      ensures result.Some? ==> result.value == Take(old(Abs()).contents, len)
      ensures result.Some? ==> Abs() == After(old(Abs()), Op.Retrieve(len))
      ensures result.Some? ==> result.value + Abs().contents == old(Abs()).contents
    {
      if len > ReadableBytes() {
        return None;
      }
      result := Some(data[readerIndex..readerIndex + len]);
      assert result.value == Take(Abs().contents, len);
      Retrieve(len);
    }

    method RetrieveAllAsString() returns (result: seq<byte>)
      requires Valid()
      modifies this
      ensures Valid() && data == old(data)
      ensures result == old(Abs()).contents && Abs() == After(old(Abs()), Op.RetrieveAll)
    {
      var r := RetrieveAsString(ReadableBytes());
      result := r.value;
    }

    method EnsureWriteableBytes(len: nat)
      requires Valid()
      modifies this, data
      ensures Valid() && (data == old(data) || fresh(data))
      ensures Abs() == View(old(Abs()).layout.Reserve(len), old(Abs()).contents)
    {
      if WritableBytes() < len {
        MakeSpace(len);
      }
    }

    /** Grow the vector, or move the readable bytes down over the consumed ones. */
    method MakeSpace(len: nat)
      requires Valid() && WritableBytes() < len
      modifies this, data
      ensures Valid() && (data == old(data) || fresh(data))
      ensures Abs() == View(old(Abs()).layout.Reserve(len), old(Abs()).contents)
    {
      ghost var was, size := data[..], data.Length;
      if WritableBytes() + PrependableBytes() - CHEAP_PREPEND < len {
        Resize(writerIndex + len);
        assert data[readerIndex..writerIndex] == data[..size][readerIndex..writerIndex] == was[readerIndex..writerIndex];
      } else {
        var readable := ReadableBytes();
        assert data[readerIndex..writerIndex] == was[readerIndex..writerIndex];
        ShiftDown();
        assert data[CHEAP_PREPEND..CHEAP_PREPEND + readable] == was[readerIndex..writerIndex];
        readerIndex := CHEAP_PREPEND;
        writerIndex := readerIndex + readable;
      }
    }

    /** vector::resize to a larger size: old elements kept, new ones zero. */
    method Resize(size: nat)
      requires Valid() && data.Length <= size
      modifies this`data
      ensures Valid() && fresh(data) && data.Length == size
      ensures data[..old(data.Length)] == old(data[..])
    {
      var bigger := new byte[size](_ => 0);
      var i := 0;
      while i < data.Length
        invariant 0 <= i <= data.Length <= bigger.Length
        invariant data[..] == old(data[..])
        invariant bigger != data && bigger[..i] == data[..i]
      {
        bigger[i] := data[i];
        i := i + 1;
      }
      assert bigger[..i] == old(data[..]);
      data := bigger;
    }

    /** std::copy of the readable bytes to the front; source and target may overlap. */
    method ShiftDown()
      requires Valid()
      modifies data
      ensures data[CHEAP_PREPEND..CHEAP_PREPEND + writerIndex - readerIndex] == old(data[readerIndex..writerIndex])
    {
      ghost var was := data[readerIndex..writerIndex];
      var i := 0;
      while i < writerIndex - readerIndex
        invariant 0 <= i <= |was|
        invariant data[CHEAP_PREPEND..CHEAP_PREPEND + i] == was[..i]
        invariant forall k :: i <= k < |was| ==> data[readerIndex + k] == was[k]
      {
        data[CHEAP_PREPEND + i] := data[readerIndex + i];
        i := i + 1;
      }
    }

    method Append(src: seq<byte>)
      requires Valid()
      modifies this, data
      ensures Valid() && (data == old(data) || fresh(data))
      ensures Abs() == After(old(Abs()), Op.Append(src))
    {
      EnsureWriteableBytes(|src|);
      ghost var r, w, kept := readerIndex, writerIndex, data[..writerIndex];
      assert data[r..w] == kept[r..];
      CopyIn(src);
      assert data[r..w] == data[..w][r..] == kept[r..];
      writerIndex := writerIndex + |src|;
      Glue(data[..], r, w, w + |src|);
    }

    /** std::copy into the writable bytes. */
    method CopyIn(src: seq<byte>)
      requires Valid() && |src| <= WritableBytes()
      modifies data
      ensures data[..writerIndex] == old(data[..writerIndex])
      ensures data[writerIndex..writerIndex + |src|] == src
    {
      var i := 0;
      while i < |src|
        invariant 0 <= i <= |src|
        invariant data[..writerIndex] == old(data[..writerIndex])
        invariant data[writerIndex..writerIndex + i] == src[..i]
      {
        data[writerIndex + i] := src[i];
        i := i + 1;
      }
    }

    /** readv(2): the writable block is filled before the stack block is touched. */
    method Readv(bytes: seq<byte>, extra: array<byte>) returns (n: nat)
      requires Valid() && extra != data && extra.Length == EXTRA_BUF
      requires |bytes| <= Abs().layout.Offered()
      modifies data, extra
      ensures n == |bytes|
      ensures data[..writerIndex] == old(data[..writerIndex])
      ensures n <= WritableBytes() ==> data[writerIndex..writerIndex + n] == bytes
      ensures WritableBytes() < n ==>
                && n - WritableBytes() <= EXTRA_BUF
                && data[writerIndex..] == bytes[..WritableBytes()]
                && extra[..n - WritableBytes()] == bytes[WritableBytes()..]
    {
      var k := Min(|bytes|, WritableBytes());
      CopyIn(bytes[..k]);
      ghost var w, filled := writerIndex, data[..];
      assert filled[..w] == old(data[..writerIndex]) && filled[w..w + k] == bytes[..k];
      var i := 0;
      while i < |bytes| - k
        invariant 0 <= i <= |bytes| - k <= EXTRA_BUF
        invariant extra[..i] == bytes[k..k + i]
        invariant data[..] == filled
      {
        extra[i] := bytes[k + i];
        i := i + 1;
      }
      n := |bytes|;
      assert data[..w] == filled[..w] && data[w..w + k] == filled[w..w + k];
      assert bytes[k..k + i] == bytes[k..];
      assert k == |bytes| ==> bytes[..k] == bytes;
      assert k < n ==> data[w..] == data[w..w + k];
    }

    /** readFd: for every number of bytes the kernel delivers, exactly those bytes are appended. */
    method ReadFd(answer: ReadAnswer) returns (n: int)
      requires Valid()
      requires answer.Data? ==> |answer.bytes| <= Abs().layout.Offered()
      modifies this, data
      ensures Valid() && (data == old(data) || fresh(data))
      ensures answer.ReadError? ==> n == -1 && Abs() == old(Abs())
      ensures answer.Data? ==> n == |answer.bytes| && Abs() == After(old(Abs()), Op.ReadFd(answer.bytes))
    {
      match answer
      case ReadError => n := -1;
      case Data(bytes) => n := ReadBytes(bytes);
    }

    /** readv and the move of writerIndex_: what fitted is now readable, the rest is in extrabuf. */
    method ReadBlocks(bytes: seq<byte>) returns (spill: seq<byte>)
      requires Valid() && |bytes| <= Abs().layout.Offered()
      modifies this`writerIndex, data
      ensures Valid() && data == old(data)
      ensures var v, k := old(Abs()), Min(|bytes|, old(Abs()).layout.Writable());
              && spill == bytes[k..]
              && Abs() == View(v.layout.(writer := v.layout.writer + k), v.contents + bytes[..k])
    {
      var extrabuf := new byte[EXTRA_BUF](_ => 0);
      var writable := WritableBytes();
      ghost var before := Abs();
      var n := Readv(bytes, extrabuf);
      assert data[readerIndex..writerIndex] == before.contents by {
        assert data[readerIndex..writerIndex] == data[..writerIndex][readerIndex..];
      }
      ghost var w := writerIndex;
      if n <= writable {
        writerIndex := writerIndex + n;
        spill := [];
        Glue(data[..], readerIndex, w, w + n);
        assert bytes[..n] == bytes;
      } else {
        writerIndex := data.Length;
        spill := extrabuf[..n - writable];
        Glue(data[..], readerIndex, w, data.Length);
        assert data[w..] == data[w..data.Length];
      }
    }

    method ReadBytes(bytes: seq<byte>) returns (n: nat)
      requires Valid() && |bytes| <= Abs().layout.Offered()
      modifies this, data
      ensures Valid() && (data == old(data) || fresh(data))
      ensures n == |bytes| && Abs() == After(old(Abs()), Op.ReadFd(bytes))
    {
      ghost var v := Abs();
      var writable := WritableBytes();
      var spill := ReadBlocks(bytes);
      n := |bytes|;
      if n > writable {
        Append(spill);
        assert (v.contents + bytes[..writable]) + bytes[writable..] == v.contents + bytes;
      } else {
        assert bytes[..n] == bytes;
      }
    }

    /** writeFd: offers all readable bytes; the buffer itself does not change. */
    method WriteFd(shut: bool, wish: WriteAnswer) returns (n: int, taken: seq<byte>)
      requires Valid()
      ensures var answer := Write(shut, |Abs().contents|, wish);
              taken == Take(Abs().contents, Taken(answer)) && n == if answer.Wrote? then answer.n else -1
    {
      var answer := Write(shut, ReadableBytes(), wish);
      taken := data[readerIndex..readerIndex + Taken(answer)];
      n := if answer.Wrote? then answer.n else -1;
    }

    /** A whole run of operations on the array: what comes out followed by what is left is what was
        there followed by what went in, and the vector stays within the capacity bound. */
    method Perform(ops: seq<Op>) returns (out: seq<byte>)
      requires Valid() && Deliverable(Abs(), ops)
      modifies this, data
      ensures Valid() && (data == old(data) || fresh(data))
      ensures out + data[readerIndex..writerIndex] == old(data[readerIndex..writerIndex]) + Put(ops)
      ensures old(data.Length) <= data.Length <= Max(old(data.Length), 2 * Peak(old(Abs()), ops) + 7)
    {
      ghost var v := Abs();
      out := PerformAll(ops);
      RunIsAByteQueue(v, ops);
      RunCapacity(v, ops);
    }

    method PerformAll(ops: seq<Op>) returns (out: seq<byte>)
      requires Valid() && Deliverable(Abs(), ops)
      modifies this, data
      ensures Valid() && (data == old(data) || fresh(data))
      ensures Abs() == Run(old(Abs()), ops) && out == Got(old(Abs()), ops)
    {
      hide Run, Got, After, GotBy, Valid, Abs;
      ghost var v := Abs();
      NothingYet(v, ops);
      out := [];
      var i := 0;
      while i < |ops|
        invariant 0 <= i <= |ops|
        invariant Valid() && (data == old(data) || fresh(data))
        invariant Abs() == Run(v, ops[..i]) && out == Got(v, ops[..i])
      {
        OneMore(v, ops, i);
        var got := PerformOne(ops[i]);
        out := out + got;
        i := i + 1;
      }
      assert ops[..i] == ops;
    }

    method PerformOne(op: Op) returns (got: seq<byte>)
      requires Valid() && (op.ReadFd? ==> |op.bytes| <= Abs().layout.Offered())
      modifies this, data
      ensures Valid() && (data == old(data) || fresh(data))
      ensures Abs() == After(old(Abs()), op) && got == GotBy(old(Abs()).contents, op)
    {
      got := [];
      match op
      case Append(bytes) => Append(bytes);
      case Retrieve(n) =>
        got := Take(Peek(), n);
        Retrieve(n);
      case RetrieveAll =>
        got := Peek();
        RetrieveAll();
      case ReadFd(bytes) => var n := ReadFd(Data(bytes));
    }
  }
}
