/** The growable, compacting byte buffer (include/Buffer.hh, src/Buffer.cc).

    `Layout` is the arithmetic of the three indices alone; class `Buffer` is the
    array that follows it and refines a plain byte queue, `Contents()`.
 */
module Buffers {
  newtype Byte = b: int | 0 <= b < 256

  const CHEAP_PREPEND: nat := 8
  const INITIAL_SIZE: nat := 1024
  const EXTRA_SIZE: nat := 65536

  function Min(a: nat, b: nat): nat { if a <= b then a else b }

  function Max(a: nat, b: nat): nat { if a <= b then b else a }

  /** buffer_.size(), reader_index_ and writer_index_. */
  datatype Layout = Layout(size: nat, reader: nat, writer: nat) {
    predicate Ok() { CHEAP_PREPEND <= reader <= writer <= size }

    function Readable(): nat requires Ok() { writer - reader }

    function Writable(): nat requires Ok() { size - writer }

    function RetrieveAll(): Layout { this.(reader := CHEAP_PREPEND, writer := CHEAP_PREPEND) }

    /** Asking for more than is readable also gives back the room before the data. */
    function Retrieve(len: nat): (r: Layout)
      requires Ok()
      ensures r.Ok() && r.size == size && r.Readable() == Readable() - Min(len, Readable())
      ensures r.Writable() == if len <= Readable() then Writable() else size - 8
    {
      if len <= Readable() then this.(reader := reader + len) else RetrieveAll()
    }

    /** The test that sends makeSpace to the resizing branch. */
    predicate MustGrow(len: nat) requires Ok() { Writable() + reader - CHEAP_PREPEND < len }

    function MakeSpace(len: nat): (r: Layout)
      requires Ok() && Writable() < len
      ensures r.Ok() && r.Readable() == Readable() && len <= r.Writable() && size <= r.size
    {
      if MustGrow(len) then this.(size := writer + len)
      else this.(reader := CHEAP_PREPEND, writer := CHEAP_PREPEND + Readable())
    }

    function EnsureWritable(len: nat): (r: Layout)
      requires Ok()
      ensures r.Ok() && r.Readable() == Readable() && len <= r.Writable() && size <= r.size
    {
      if Writable() < len then MakeSpace(len) else this
    }

    function Append(len: nat): (r: Layout)
      requires Ok()
      ensures r.Ok() && r.Readable() == Readable() + len && size <= r.size
    {
      var l := EnsureWritable(len);
      l.(writer := l.writer + len)
    }

    /** The bytes readFd makes room for: the extra array is only offered when
        the buffer itself has less room than it. */
    function Offered(): (room: nat)
      requires Ok()
      ensures 65536 <= room && Writable() <= room
      ensures 65536 <= Writable() ==> room == Writable()
    {
      if Writable() < EXTRA_SIZE then Writable() + EXTRA_SIZE else Writable()
    }

    function ReadFd(n: nat): (r: Layout)
      requires Ok()
      ensures r.Ok() && r.Readable() == Readable() + n && size <= r.size
    {
      if n <= Writable() then this.(writer := writer + n)
      else this.(writer := size).Append(n - Writable())
    }
  }

  function InitialLayout(initialSize: nat): Layout {
    Layout(CHEAP_PREPEND + initialSize, CHEAP_PREPEND, CHEAP_PREPEND)
  }

  // ---- Memory bound over whole runs ----

  datatype BufferOp = OpAppend(len: nat) | OpRetrieve(len: nat) | OpReadFd(n: nat)

  function ApplyOp(l: Layout, op: BufferOp): (r: Layout)
    requires l.Ok()
    ensures r.Ok()
  {
    match op
    case OpAppend(len) => l.Append(len)
    case OpRetrieve(len) => l.Retrieve(len)
    case OpReadFd(n) => l.ReadFd(n)
  }

  function RunOps(l: Layout, ops: seq<BufferOp>): (r: Layout)
    requires l.Ok()
    ensures r.Ok()
    decreases |ops|
  {
    if ops == [] then l else RunOps(ApplyOp(l, ops[0]), ops[1..])
  }

  /** The largest readableBytes() seen in any state of the run. */
  function Peak(l: Layout, ops: seq<BufferOp>): (p: nat)
    requires l.Ok()
    ensures l.Readable() <= p
    decreases |ops|
  {
    if ops == [] then l.Readable() else Max(l.Readable(), Peak(ApplyOp(l, ops[0]), ops[1..]))
  }

  predicate WithinBound(l: Layout, base: nat, peak: nat)
  {
    l.size <= Max(base, 2 * peak + 7)
  }

  lemma AppendKeepsBound(l: Layout, len: nat, base: nat, peak: nat)
    requires l.Ok() && WithinBound(l, base, peak) && l.Readable() + len <= peak
    ensures WithinBound(l.Append(len), base, peak)
  {
    if l.Writable() < len && l.MustGrow(len) {
      // The dead prefix is shorter than `len`, else compaction would have been enough.
      assert l.reader - CHEAP_PREPEND < len;
    }
  }

  lemma OpKeepsBound(l: Layout, op: BufferOp, base: nat, peak: nat)
    requires l.Ok() && WithinBound(l, base, peak) && ApplyOp(l, op).Readable() <= peak
    ensures WithinBound(ApplyOp(l, op), base, peak)
  {
    match op
    case OpAppend(len) => AppendKeepsBound(l, len, base, peak);
    case OpRetrieve(_) =>
    case OpReadFd(n) =>
      if l.Writable() < n {
        AppendKeepsBound(l.(writer := l.size), n - l.Writable(), base, peak);
      }
  }

  lemma {:induction false} RunKeepsBound(l: Layout, ops: seq<BufferOp>, base: nat, peak: nat)
    requires l.Ok() && WithinBound(l, base, peak) && Peak(l, ops) <= peak
    ensures WithinBound(RunOps(l, ops), base, peak)
    decreases |ops|
  {
    if ops != [] {
      OpKeepsBound(l, ops[0], base, peak);
      RunKeepsBound(ApplyOp(l, ops[0]), ops[1..], base, peak);
    }
  }

  /** Over any run from construction, the array never outgrows twice the peak load plus seven. */
  lemma MemoryBound(initialSize: nat, ops: seq<BufferOp>)
    ensures RunOps(InitialLayout(initialSize), ops).size
         <= Max(CHEAP_PREPEND + initialSize, 2 * Peak(InitialLayout(initialSize), ops) + 7)
  {
    var l := InitialLayout(initialSize);
    RunKeepsBound(l, ops, CHEAP_PREPEND + initialSize, Peak(l, ops));
  }

  /** The bound is exact: it is reached for every peak from two upwards. */
  lemma MemoryBoundIsTight(peak: nat)
    requires 2 <= peak
    ensures exists initialSize: nat, ops: seq<BufferOp> ::
              && Peak(InitialLayout(initialSize), ops) == peak
              && RunOps(InitialLayout(initialSize), ops).size == 2 * peak + 7
              && CHEAP_PREPEND + initialSize < 2 * peak + 7
  {
    var k: nat := peak - 1;
    var ops := [OpAppend(k), OpRetrieve(k), OpAppend(peak)];
    var l0 := InitialLayout(k);
    var l1 := ApplyOp(l0, ops[0]);
    var l2 := ApplyOp(l1, ops[1]);
    var l3 := ApplyOp(l2, ops[2]);
    assert ops[1..] == [ops[1], ops[2]] && ops[1..][1..] == [ops[2]] && ops[1..][1..][1..] == [];
    assert RunOps(l2, [ops[2]]) == RunOps(l3, []) == l3;
    assert RunOps(l1, ops[1..]) == RunOps(l2, [ops[2]]);
    assert RunOps(l0, ops) == l3 && l3.size == 2 * peak + 7;
    assert Peak(l3, []) == peak;
    assert Peak(l2, [ops[2]]) == peak;
    assert Peak(l1, ops[1..]) == peak;
    assert Peak(l0, ops) == peak;
  }

  // ---- The buffer itself ----

  datatype Errno = EWOULDBLOCK | EPIPE | ECONNRESET | EOTHER

  /** What the kernel answers to readv: some bytes (none at end of stream) or an error. */
  datatype ReadResult = Data(bytes: seq<Byte>) | ReadFails(readErrno: Errno)

  /** What the kernel answers to write: room for so many bytes, or an error. */
  datatype WriteResult = Accepts(room: nat) | WriteFails(writeErrno: Errno)

  class Buffer {
    var data: array<Byte>
    var readerIndex: nat
    var writerIndex: nat

    ghost predicate Valid()
      reads this
    {
      CHEAP_PREPEND <= readerIndex <= writerIndex <= data.Length
    }

    ghost function Shape(): (l: Layout)
      reads this
    {
      Layout(data.Length, readerIndex, writerIndex)
    }

    ghost function Contents(): (s: seq<Byte>)
      requires Valid()
      reads this, data
      ensures |s| == Shape().Readable()
    {
      data[readerIndex..writerIndex]
    }

    constructor (initialSize: nat := INITIAL_SIZE)
      ensures Valid() && fresh(data)
      ensures Shape() == InitialLayout(initialSize)
      ensures Contents() == []
    {
      data := new Byte[CHEAP_PREPEND + initialSize](_ => 0);
      readerIndex := CHEAP_PREPEND;
      writerIndex := CHEAP_PREPEND;
    }

    function ReadableBytes(): nat
      requires Valid()
      reads this
    {
      writerIndex - readerIndex
    }

    function WritableBytes(): nat
      requires Valid()
      reads this
    {
      data.Length - writerIndex
    }

    method RetrieveAll()
      requires Valid()
      modifies this
      ensures Valid() && data == old(data)
      ensures Shape() == old(Shape().RetrieveAll()) && WritableBytes() == data.Length - 8
      ensures Contents() == []
    {
      readerIndex := CHEAP_PREPEND;
      writerIndex := CHEAP_PREPEND;
    }

    method Retrieve(len: nat)
      requires Valid()
      modifies this
      ensures Valid() && data == old(data)
      ensures Shape() == old(Shape().Retrieve(len))
      ensures Contents() == old(Contents()[Min(len, |Contents()|)..])
    {
      if len <= ReadableBytes() {
        readerIndex := readerIndex + len;
      } else {
        RetrieveAll();
      }
    }

    /** The string is built before the length is checked: asking for more than is
        readable (but still inside the array) yields the contents followed by
        stale bytes, so the result is what was dropped only when `len` fits. */
    method RetrieveAsString(len: nat) returns (s: seq<Byte>)
      requires Valid()
      requires readerIndex + len <= data.Length
      modifies this
      ensures Valid() && data == old(data)
      ensures Shape() == old(Shape().Retrieve(len))
      ensures Contents() == old(Contents()[Min(len, |Contents()|)..])
      ensures |s| == len && old(Contents()[..Min(len, |Contents()|)]) <= s
      ensures s == old(Contents()[..Min(len, |Contents()|)]) <==> len <= old(|Contents()|)
    {
      s := data[readerIndex..readerIndex + len];
      ghost var kept := Min(len, |Contents()|);
      assert s[..kept] == Contents()[..kept];
      Retrieve(len);
    }

    method RetrieveAllAsString() returns (s: seq<Byte>)
      requires Valid()
      modifies this
      ensures Valid() && data == old(data)
      ensures s == old(Contents()) && Contents() == []
    {
      s := RetrieveAsString(ReadableBytes());
    }

    /** Keeps the readable bytes. The compaction branch is only reached past a dead
        prefix, so its forward copy never writes inside the range still to be read. */
    method MakeSpace(len: nat)
      requires Valid() && WritableBytes() < len
      modifies this, data
      ensures Valid() && (data == old(data) || fresh(data))
      ensures Shape() == old(Shape().MakeSpace(len))
      ensures Contents() == old(Contents())
      ensures data == old(data) ==> CHEAP_PREPEND < old(readerIndex)
    {
      if WritableBytes() + readerIndex - CHEAP_PREPEND < len {
        var grown := new Byte[writerIndex + len](_ => 0);
        forall i | 0 <= i < data.Length {
          grown[i] := data[i];
        }
        assert grown[readerIndex..writerIndex] == Contents();
        data := grown;
      } else {
        var readable := ReadableBytes();
        var k := 0;
        while k < readable
          invariant 0 <= k <= readable
          invariant data == old(data) && readerIndex == old(readerIndex) && writerIndex == old(writerIndex)
          invariant data[CHEAP_PREPEND..CHEAP_PREPEND + k] == old(data[readerIndex..])[..k]
          invariant forall i :: CHEAP_PREPEND + k <= i < data.Length ==> data[i] == old(data[i])
        {
          assert data[readerIndex + k] == old(data[readerIndex..])[k];
          data[CHEAP_PREPEND + k] := data[readerIndex + k];
          k := k + 1;
        }
        readerIndex := CHEAP_PREPEND;
        writerIndex := readerIndex + readable;
      }
    }

    method EnsureWritableBytes(len: nat)
      requires Valid()
      modifies this, data
      ensures Valid() && (data == old(data) || fresh(data))
      ensures Shape() == old(Shape().EnsureWritable(len))
      ensures Contents() == old(Contents())
    {
      if WritableBytes() < len {
        MakeSpace(len);
      }
    }

    /** Copies `bytes` to the write position without moving it. */
    method CopyIn(bytes: seq<Byte>)
      requires Valid() && |bytes| <= WritableBytes()
      modifies data
      ensures data[..writerIndex] == old(data[..writerIndex])
      ensures data[writerIndex..writerIndex + |bytes|] == bytes
    {
      forall i | 0 <= i < |bytes| {
        data[writerIndex + i] := bytes[i];
      }
    }

    method Append(bytes: seq<Byte>)
      requires Valid()
      modifies this, data
      ensures Valid() && (data == old(data) || fresh(data))
      ensures Shape() == old(Shape().Append(|bytes|))
      ensures Contents() == old(Contents()) + bytes
    {
      EnsureWritableBytes(|bytes|);
      ghost var before := data[..writerIndex];
      CopyIn(bytes);
      assert data[..writerIndex + |bytes|] == before + bytes;
      writerIndex := writerIndex + |bytes|;
      assert Contents() == (before + bytes)[readerIndex..];
    }

    /** readv: fills the writable tail first and spills the rest into the extra array. */
    method Readv(extra: array<Byte>, bytes: seq<Byte>)
      requires Valid() && extra != data && extra.Length == EXTRA_SIZE
      requires |bytes| <= Shape().Offered()
      modifies data, extra
      ensures data[..writerIndex] == old(data[..writerIndex])
      ensures data[writerIndex..writerIndex + Min(|bytes|, WritableBytes())] == bytes[..Min(|bytes|, WritableBytes())]
      ensures WritableBytes() < |bytes| ==>
                extra[..|bytes| - WritableBytes()] == bytes[WritableBytes()..]
    {
      var direct := Min(|bytes|, WritableBytes());
      CopyIn(bytes[..direct]);
      if direct < |bytes| {
        forall i | 0 <= i < |bytes| - direct {
          extra[i] := bytes[direct + i];
        }
      }
    }

    /** The bytes of a successful readv: those in the writable tail are claimed by
        moving the write index, those in the extra array are appended. */
    method Claim(extra: array<Byte>, bytes: seq<Byte>)
      requires Valid() && extra != data && extra.Length == EXTRA_SIZE
      requires |bytes| <= Shape().Offered()
      requires data[writerIndex..writerIndex + Min(|bytes|, WritableBytes())] == bytes[..Min(|bytes|, WritableBytes())]
      requires WritableBytes() < |bytes| ==> extra[..|bytes| - WritableBytes()] == bytes[WritableBytes()..]
      modifies this, data
      ensures Valid() && (data == old(data) || fresh(data))
      ensures Shape() == old(Shape()).ReadFd(|bytes|)
      ensures Contents() == old(Contents()) + bytes
    {
      var n, writable := |bytes|, WritableBytes();
      ghost var before := Contents();
      if n <= writable {
        writerIndex := writerIndex + n;
        assert Contents() == before + bytes;
      } else {
        writerIndex := data.Length;
        assert Contents() == before + bytes[..writable];
        Append(extra[..n - writable]);
        assert before + bytes[..writable] + bytes[writable..] == before + bytes;
      }
    }

    /** However many of the offered bytes the kernel delivers, and wherever they
        land, a successful read is one append of exactly those bytes. */
    method ReadFd(answer: ReadResult) returns (n: int, savedErrno: Errno)
      requires Valid()
      requires answer.Data? ==> |answer.bytes| <= Shape().Offered()
      modifies this, data
      ensures Valid() && (data == old(data) || fresh(data))
      ensures answer.Data? ==> n == |answer.bytes| && Shape() == old(Shape()).ReadFd(n)
      ensures answer.Data? ==> Contents() == old(Contents()) + answer.bytes
      ensures answer.ReadFails? ==> n == -1 && savedErrno == answer.readErrno
      ensures answer.ReadFails? ==> Shape() == old(Shape()) && data == old(data) && Contents() == old(Contents())
    {
      savedErrno := EOTHER;
      var extra := new Byte[EXTRA_SIZE](_ => 0);
      match answer {
        case ReadFails(e) =>
          n := -1;
          savedErrno := e;
        case Data(bytes) =>
          n := |bytes|;
          Readv(extra, bytes);
          assert Contents() == data[..writerIndex][readerIndex..] == old(Contents());
          Claim(extra, bytes);
      }
    }

    /** write() of the readable bytes: the kernel takes a prefix, the buffer is untouched. */
    method WriteFd(answer: WriteResult) returns (n: int, savedErrno: Errno, taken: seq<Byte>)
      requires Valid()
      ensures answer.Accepts? ==> n == Min(answer.room, |Contents()|) && taken == Contents()[..n]
      ensures answer.WriteFails? ==> n == -1 && savedErrno == answer.writeErrno && taken == []
    {
      savedErrno := EOTHER;
      match answer {
        case Accepts(room) =>
          n := Min(room, ReadableBytes());
          taken := data[readerIndex..readerIndex + n];
        case WriteFails(e) =>
          n := -1;
          savedErrno := e;
          taken := [];
      }
    }
  }

  /** One byte is asked of an empty buffer: nothing is dropped, yet a byte comes back. */
  method RetrieveTooMuch() returns (readable: nat, s: seq<Byte>)
    ensures readable == 0 && |s| == 1
  {
    var buffer := new Buffer();
    readable := buffer.ReadableBytes();
    s := buffer.RetrieveAsString(1);
  }
}
