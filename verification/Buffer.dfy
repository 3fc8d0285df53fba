/** `Buffer`: a growable byte array with a prepend area, compacted in place
    (source/base/inc/Buffer.h, source/base/src/Buffer.cpp). */
module Buffers {
  import opened Bytes

  const CHEAP_PREPEND := 8
  const INITIAL_SIZE := 1024
  const EXTRA_BUF := 65536

  // ---- index arithmetic, without the bytes ----

  datatype Layout = Layout(size: nat, reader: nat, writer: nat) {
    predicate Valid() {
      && reader <= writer <= size
      && CHEAP_PREPEND <= writer
      && CHEAP_PREPEND + INITIAL_SIZE <= size
      && (reader == writer ==> reader == CHEAP_PREPEND)
    }
    function Readable(): int { writer - reader }
    function Writable(): int { size - writer }
  }

  const INITIAL := Layout(CHEAP_PREPEND + INITIAL_SIZE, CHEAP_PREPEND, CHEAP_PREPEND)

  /** `ensureWritableBytes` and `makeSpace`: grow, or move the readable bytes back to the front. */
  function Reserved(l: Layout, len: nat): (r: Layout)
    requires l.Valid()
    ensures r.Readable() == l.Readable() && r.size >= l.size && r.Writable() >= len && r.writer <= r.size
    ensures r.Valid()
  {
    if l.Writable() >= len then l
    else if l.Writable() + l.reader < len + CHEAP_PREPEND then l.(size := l.writer + len)
    else Layout(l.size, CHEAP_PREPEND, CHEAP_PREPEND + l.Readable())
  }

  function Appended(l: Layout, len: nat): (r: Layout)
    requires l.Valid()
    ensures r.Valid() && r.Readable() == l.Readable() + len
  {
    var r := Reserved(l, len);
    r.(writer := r.writer + len)
  }

  function Retrieved(l: Layout, len: nat): (r: Layout)
    requires l.Valid() && len <= l.Readable()
    ensures r.Valid() && r.Readable() == l.Readable() - len
  {
    if len < l.Readable() then l.(reader := l.reader + len)
    else l.(reader := CHEAP_PREPEND, writer := CHEAP_PREPEND)
  }

  function Prepended(l: Layout, len: nat): (r: Layout)
    requires l.Valid() && len <= l.reader
    ensures r.Valid() && r.Readable() == l.Readable() + len
  {
    l.(reader := l.reader - len)
  }

  /** `readFd` when `readv` reports n bytes: the rest of the array first, then the stack buffer. */
  function FilledFromFd(l: Layout, n: nat): (r: Layout)
    requires l.Valid()
    ensures r.Valid() && r.Readable() == l.Readable() + n
  {
    if n <= l.Writable() then l.(writer := l.writer + n)
    else Appended(l.(writer := l.size), n - l.Writable())
  }

  // ---- runs ----

  datatype Op = Append(n: nat) | Prepend(n: nat) | Retrieve(n: nat) | ReadFd(n: nat)

  predicate Enabled(l: Layout, op: Op) {
    match op
    case Append(_) => true
    case Prepend(n) => n <= l.reader
    case Retrieve(n) => n <= l.Readable()
    case ReadFd(n) => n <= l.Writable() + EXTRA_BUF
  }

  function Apply(l: Layout, op: Op): (r: Layout)
    requires l.Valid() && Enabled(l, op)
    ensures r.Valid()
  {
    match op
    case Append(n) => Appended(l, n)
    case Prepend(n) => Prepended(l, n)
    case Retrieve(n) => Retrieved(l, n)
    case ReadFd(n) => FilledFromFd(l, n)
  }

  ghost predicate Runs(l: Layout, ops: seq<Op>)
    requires l.Valid()
    decreases |ops|
  {
    ops == [] || (Enabled(l, ops[0]) && Runs(Apply(l, ops[0]), ops[1..]))
  }

  ghost function Final(l: Layout, ops: seq<Op>): (r: Layout)
    requires l.Valid() && Runs(l, ops)
    ensures r.Valid()
    decreases |ops|
  {
    if ops == [] then l else Final(Apply(l, ops[0]), ops[1..])
  }

  /** The most readable bytes ever held along the run. */
  ghost function Peak(l: Layout, ops: seq<Op>): (p: int)
    requires l.Valid() && Runs(l, ops)
    ensures p >= l.Readable() && p >= 0
    decreases |ops|
  {
    if ops == [] then l.Readable() else Max(l.Readable(), Peak(Apply(l, ops[0]), ops[1..]))
  }

  /** What a step may cost: either the array stays, or the new size is paid for by the new contents. */
  lemma StepBound(l: Layout, op: Op)
    requires l.Valid() && Enabled(l, op)
    ensures l.size <= Apply(l, op).size
    ensures Apply(l, op).size == l.size || Apply(l, op).size <= 2 * Apply(l, op).Readable() + 6
  {
  }

  ghost function Bound(peak: int): int { Max(CHEAP_PREPEND + INITIAL_SIZE, 2 * peak + 6) }

  /** The induction: p is the most bytes held before this point of the run. */
  lemma {:induction false} SizeBoundFrom(l: Layout, ops: seq<Op>, p: int)
    requires l.Valid() && Runs(l, ops) && l.size <= Bound(p)
    ensures l.size <= Final(l, ops).size <= Bound(Max(p, Peak(l, ops)))
    decreases |ops|
  {
    if ops != [] {
      var m := Apply(l, ops[0]);
      StepBound(l, ops[0]);
      SizeBoundFrom(m, ops[1..], Max(p, m.Readable()));
    }
  }

  /** Over every run the array never shrinks and stays within twice the peak load plus six. */
  lemma SizeBound(ops: seq<Op>)
    requires Runs(INITIAL, ops)
    ensures INITIAL.size <= Final(INITIAL, ops).size
    ensures Final(INITIAL, ops).size <= Max(1032, 2 * Peak(INITIAL, ops) + 6)
  {
    SizeBoundFrom(INITIAL, ops, 0);
  }

  /** The bound is attained: one unread byte at the end of a full array, then 1024 more. */
  lemma SizeBoundIsTight()
    ensures exists ops :: Runs(INITIAL, ops) && Final(INITIAL, ops).size == 2 * Peak(INITIAL, ops) + 6
  {
    var l1 := Apply(INITIAL, Append(1024));
    var l2 := Apply(l1, Retrieve(1023));
    var l3 := Apply(l2, Append(1024));
    var o3 := [Append(1024)];
    var o2 := [Retrieve(1023), Append(1024)];
    var o1 := [Append(1024), Retrieve(1023), Append(1024)];
    assert o1[1..] == o2 && o2[1..] == o3 && o3[1..] == [];
    assert Runs(l3, []) && Runs(l2, o3) && Runs(l1, o2) && Runs(INITIAL, o1);
    assert Peak(l3, []) == 1025 && Peak(l2, o3) == 1025 && Peak(l1, o2) == 1025 && Peak(INITIAL, o1) == 1025;
    assert Final(l2, o3) == l3 && Final(l1, o2) == l3 && Final(INITIAL, o1) == l3;
  }

  // ---- the class ----

  class Buffer {
    var data: array<Byte>
    var readerIndex: nat
    var writerIndex: nat

    function Lay(): Layout
      reads this
    {
      Layout(data.Length, readerIndex, writerIndex)
    }

    predicate Valid()
      reads this
    {
      Lay().Valid()
    }

    function Contents(): Str
      requires Valid()
      reads this, data
    {
      data[readerIndex..writerIndex]
    }

    constructor ()
      ensures Valid() && fresh(data) && Lay() == INITIAL && Contents() == []
    {
      data := new Byte[CHEAP_PREPEND + INITIAL_SIZE](_ => 0);
      readerIndex, writerIndex := CHEAP_PREPEND, CHEAP_PREPEND;
    }

    method Retrieve(len: nat)
      requires Valid() && len <= Lay().Readable()
      modifies this`readerIndex, this`writerIndex
      ensures Valid() && Lay() == Retrieved(old(Lay()), len)
      ensures Contents() == old(Contents())[len..]
    {
      if len < writerIndex - readerIndex {
        readerIndex := readerIndex + len;
      } else {
        RetrieveAll();
      }
    }

    method RetrieveAll()
      requires Valid()
      modifies this`readerIndex, this`writerIndex
      ensures Valid() && Lay() == Retrieved(old(Lay()), old(Lay()).Readable()) && Contents() == []
    {
      readerIndex, writerIndex := CHEAP_PREPEND, CHEAP_PREPEND;
    }

    method RetrieveAsString(len: nat) returns (result: Str)
      requires Valid() && len <= Lay().Readable()
      modifies this`readerIndex, this`writerIndex
      ensures Valid() && Lay() == Retrieved(old(Lay()), len)
      ensures old(Contents()) == result + Contents() && |result| == len
    {
      result := data[readerIndex..readerIndex + len];
      Retrieve(len);
    }

    /** `std::copy` of outside bytes into the array. */
    method CopyIn(at: nat, bytes: Str)
      requires at + |bytes| <= data.Length
      modifies data
      ensures data[at..at + |bytes|] == bytes
      ensures data[..at] == old(data[..at]) && data[at + |bytes|..] == old(data[at + |bytes|..])
    {
      forall i | 0 <= i < |bytes| { data[at + i] := bytes[i]; }
    }

    /** The overlapping `std::copy` of `makeSpace`: going forward, every byte is read before it
        is overwritten. */
    method MoveDown(readable: nat)
      requires CHEAP_PREPEND < readerIndex && readerIndex + readable <= data.Length
      modifies data
      ensures data[CHEAP_PREPEND..CHEAP_PREPEND + readable] == old(data[readerIndex..readerIndex + readable])
    {
      ghost var was := data[..];
      var i := 0;
      while i < readable
        invariant 0 <= i <= readable
        invariant forall k | CHEAP_PREPEND <= k < CHEAP_PREPEND + i :: data[k] == was[k + readerIndex - CHEAP_PREPEND]
        invariant forall k | CHEAP_PREPEND + i <= k < data.Length :: data[k] == was[k]
      {
        data[CHEAP_PREPEND + i] := data[readerIndex + i];
        i := i + 1;
      }
    }

    /** `makeSpace`. The source's `assert(kCheapPrepend < readerIndex_)` is proved in its branch. */
    method MakeSpace(len: nat)
      requires Valid() && Lay().Writable() < len
      modifies this, data
      ensures Valid() && Lay() == Reserved(old(Lay()), len)
      ensures Contents() == old(Contents())
      ensures data == old(data) || fresh(data)
    {
      if data.Length - writerIndex + readerIndex < len + CHEAP_PREPEND {
        var before := data;
        data := new Byte[writerIndex + len](i requires 0 <= i reads before =>
          if i < before.Length then before[i] else 0);
      } else {
        assert CHEAP_PREPEND < readerIndex;
        var readable := writerIndex - readerIndex;
        MoveDown(readable);
        readerIndex := CHEAP_PREPEND;
        writerIndex := readerIndex + readable;
        assert readable == writerIndex - readerIndex;
      }
    }

    method EnsureWritableBytes(len: nat)
      requires Valid()
      modifies this, data
      ensures Valid() && Lay() == Reserved(old(Lay()), len)
      ensures Contents() == old(Contents())
      ensures data == old(data) || fresh(data)
    {
      if data.Length - writerIndex < len {
        MakeSpace(len);
      }
      assert data.Length - writerIndex >= len;
    }

    /** Bytes stored from `beginWrite()` on, then `hasWritten`. */
    method Write(bytes: Str)
      requires Valid() && |bytes| <= Lay().Writable()
      modifies this`writerIndex, data
      ensures Valid() && Lay() == old(Lay()).(writer := old(writerIndex) + |bytes|)
      ensures Contents() == old(Contents()) + bytes
    {
      ghost var was := data[..];
      CopyIn(writerIndex, bytes);
      assert data[readerIndex..writerIndex] == data[..writerIndex][readerIndex..] == was[..writerIndex][readerIndex..];
      writerIndex := writerIndex + |bytes|;
      assert data[readerIndex..writerIndex]
          == data[readerIndex..writerIndex - |bytes|] + data[writerIndex - |bytes|..writerIndex];
    }

    method Append(bytes: Str)
      requires Valid()
      modifies this, data
      ensures Valid() && Lay() == Appended(old(Lay()), |bytes|)
      ensures Contents() == old(Contents()) + bytes
      ensures data == old(data) || fresh(data)
    {
      EnsureWritableBytes(|bytes|);
      Write(bytes);
    }

    method Prepend(bytes: Str)
      requires Valid() && |bytes| <= Lay().reader
      modifies this`readerIndex, data
      ensures Valid() && Lay() == Prepended(old(Lay()), |bytes|)
      ensures Contents() == bytes + old(Contents())
    {
      ghost var r := readerIndex;
      readerIndex := readerIndex - |bytes|;
      CopyIn(readerIndex, bytes);
      assert data[r..writerIndex] == data[r..][..writerIndex - r];
      assert data[readerIndex..writerIndex] == data[readerIndex..r] + data[r..writerIndex];
    }

    /** `readFd`: `incoming` is what the kernel hands over and n is what `readv` returns. */
    method ReadFd(n: int, incoming: Str)
      requires Valid()
      requires n < 0 || (n == |incoming| <= Lay().Writable() + EXTRA_BUF)
      modifies this, data
      ensures Valid() && (data == old(data) || fresh(data))
      ensures n < 0 ==> Lay() == old(Lay()) && Contents() == old(Contents())
      ensures n >= 0 ==> Lay() == FilledFromFd(old(Lay()), n) && Contents() == old(Contents()) + incoming
    {
      if n >= 0 {
        var writable := data.Length - writerIndex;
        if n <= writable {
          Write(incoming);
        } else {
          Write(incoming[..writable]);
          assert incoming[..writable] + incoming[writable..] == incoming;
          Append(incoming[writable..]);
        }
      }
    }
  }
}
