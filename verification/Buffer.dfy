/** `Buffer`: a growable array with a prepend area in front of the readable bytes. The
    value functions give each operation's effect on the storage; the lemmas show that
    the readable bytes are a plain byte queue and how large the storage can get; the
    class works in place on an array, as the source does. */
module Buffers {
  import opened Kernel

  const CHEAP_PREPEND := 8
  const INITIAL_SIZE := 1024
  const EXTRA_SIZE := 65536  // sizeof extrabuf

  /** The storage and the two indices. */
  datatype Buf = Buf(store: Bytes, reader: nat, writer: nat) {
    predicate Valid() {
      reader <= writer <= |store| && CHEAP_PREPEND <= |store|
    }

    function Readable(): Bytes
      requires Valid()
    {
      store[reader..writer]
    }

    function Writable(): nat
      requires Valid()
    {
      |store| - writer
    }
  }

  function Zeros(n: nat): (z: Bytes)
    ensures |z| == n && forall i :: 0 <= i < n ==> z[i] == 0
  {
    seq(n, _ => 0)
  }

  function Fresh(initialSize: nat): Buf {
    Buf(Zeros(CHEAP_PREPEND + initialSize), CHEAP_PREPEND, CHEAP_PREPEND)
  }

  /** `std::copy(data, data + |data|, begin() + at)`. */
  function Overwrite(store: Bytes, at: nat, data: Bytes): (s: Bytes)
    requires at + |data| <= |store|
    ensures |s| == |store|
    ensures forall i :: 0 <= i < |s| ==> s[i] == if at <= i < at + |data| then data[i - at] else store[i]
  {
    store[..at] + data + store[at + |data|..]
  }

  /** `std::vector::resize` to a larger size. */
  function Resize(store: Bytes, n: nat): Bytes
    requires |store| <= n
  {
    store + Zeros(n - |store|)
  }

  /** `makeSpace` grows when even the space in front would not do. */
  predicate Grows(b: Buf, len: nat)
    requires b.Valid()
  {
    b.Writable() + b.reader < len + CHEAP_PREPEND
  }

  /** `makeSpace`, as its only caller calls it. */
  function MakeSpace(b: Buf, len: nat): Buf
    requires b.Valid() && b.Writable() < len
  {
    if Grows(b, len) then b.(store := Resize(b.store, b.writer + len))
    else Buf(Overwrite(b.store, CHEAP_PREPEND, b.Readable()), CHEAP_PREPEND, CHEAP_PREPEND + |b.Readable()|)
  }

  function EnsureWritable(b: Buf, len: nat): Buf
    requires b.Valid()
  {
    if b.Writable() < len then MakeSpace(b, len) else b
  }

  /** `ensureWritableBytes` does make room, and moves or keeps the readable bytes; when
      it compacts, the reader index is beyond the prepend area. */
  lemma RoomIsMade(b: Buf, len: nat)
    requires b.Valid()
    ensures var b' := EnsureWritable(b, len);
            b'.Valid() && b'.Readable() == b.Readable() && len <= b'.Writable()
    ensures b.Writable() < len && !Grows(b, len) ==> CHEAP_PREPEND < b.reader
  {
  }

  /** `append`. */
  function Append(b: Buf, data: Bytes): Buf
    requires b.Valid()
  {
    RoomIsMade(b, |data|);
    var b1 := EnsureWritable(b, |data|);
    Buf(Overwrite(b1.store, b1.writer, data), b1.reader, b1.writer + |data|)
  }

  function RetrieveAll(b: Buf): Buf
    requires b.Valid()
  {
    b.(reader := CHEAP_PREPEND, writer := CHEAP_PREPEND)
  }

  /** `retrieve`. */
  function Retrieve(b: Buf, len: nat): Buf
    requires b.Valid() && len <= |b.Readable()|
  {
    if len < |b.Readable()| then b.(reader := b.reader + len) else RetrieveAll(b)
  }

  /** `unwrite`. */
  function Unwrite(b: Buf, len: nat): Buf
    requires b.Valid() && len <= |b.Readable()|
  {
    b.(writer := b.writer - len)
  }

  /** `prepend`: it may use up the prepend area and move the reader below 8. */
  function Prepend(b: Buf, data: Bytes): Buf
    requires b.Valid() && |data| <= b.reader
  {
    Buf(Overwrite(b.store, b.reader - |data|, data), b.reader - |data|, b.writer)
  }

  /** How much one `readv` may deliver: the free space, and the 64k stack buffer when
      the free space is smaller than that. */
  function ReadLimit(b: Buf): nat
    requires b.Valid()
  {
    if b.Writable() < EXTRA_SIZE then b.Writable() + EXTRA_SIZE else b.Writable()
  }

  /** `readFd` when `readv` delivered `bytes`: what fits goes into the storage, the rest
      was scattered into the stack buffer and is appended. */
  function ReadFd(b: Buf, bytes: Bytes): Buf
    requires b.Valid() && |bytes| <= ReadLimit(b)
  {
    var w := b.Writable();
    if |bytes| <= w then
      Buf(Overwrite(b.store, b.writer, bytes), b.reader, b.writer + |bytes|)
    else
      Append(Buf(Overwrite(b.store, b.writer, bytes[..w]), b.reader, |b.store|), bytes[w..])
  }

  // ---- A byte queue ---------------------------------------------------------------

  lemma AppendQueues(b: Buf, data: Bytes)
    requires b.Valid()
    ensures var b' := Append(b, data); b'.Valid() && b'.Readable() == b.Readable() + data
  {
    RoomIsMade(b, |data|);
    assert Append(b, data).Readable() == EnsureWritable(b, |data|).Readable() + data;
  }

  /** Whatever the split between storage and stack buffer, exactly the delivered bytes
      are appended; one call delivers at most 131071 bytes when it uses both. */
  lemma ReadFdQueues(b: Buf, bytes: Bytes)
    requires b.Valid() && |bytes| <= ReadLimit(b)
    ensures var b' := ReadFd(b, bytes); b'.Valid() && b'.Readable() == b.Readable() + bytes
    ensures b.Writable() < EXTRA_SIZE ==> |bytes| <= 131071
  {
    var w := b.Writable();
    if |bytes| <= w {
      assert ReadFd(b, bytes).Readable() == b.Readable() + bytes;
    } else {
      var b1 := Buf(Overwrite(b.store, b.writer, bytes[..w]), b.reader, |b.store|);
      assert b1.Readable() == b.Readable() + bytes[..w];
      AppendQueues(b1, bytes[w..]);
      assert (b.Readable() + bytes[..w]) + bytes[w..] == b.Readable() + (bytes[..w] + bytes[w..]);
      assert bytes[..w] + bytes[w..] == bytes;
    }
  }

  datatype Op =
    | OpAppend(data: Bytes)
    | OpRetrieve(len: nat)
    | OpRetrieveAll
    | OpUnwrite(len: nat)
    | OpPrepend(data: Bytes)
    | OpReadFd(bytes: Bytes)

  /** The assertions at the head of each operation; for `readFd`, what `readv` keeps. */
  predicate Allowed(b: Buf, op: Op)
    requires b.Valid()
  {
    match op
    case OpRetrieve(len) => len <= |b.Readable()|
    case OpUnwrite(len) => len <= |b.Readable()|
    case OpPrepend(data) => |data| <= b.reader
    case OpReadFd(bytes) => |bytes| <= ReadLimit(b)
    case _ => true
  }

  function Apply(b: Buf, op: Op): Buf
    requires b.Valid() && Allowed(b, op)
  {
    match op
    case OpAppend(data) => Append(b, data)
    case OpRetrieve(len) => Retrieve(b, len)
    case OpRetrieveAll => RetrieveAll(b)
    case OpUnwrite(len) => Unwrite(b, len)
    case OpPrepend(data) => Prepend(b, data)
    case OpReadFd(bytes) => ReadFd(b, bytes)
  }

  /** The same operation on a plain queue of bytes. */
  function OnQueue(q: Bytes, op: Op): Bytes {
    match op
    case OpAppend(data) => q + data
    case OpRetrieve(len) => if len <= |q| then q[len..] else q
    case OpRetrieveAll => []
    case OpUnwrite(len) => if len <= |q| then q[..|q| - len] else q
    case OpPrepend(data) => data + q
    case OpReadFd(bytes) => q + bytes
  }

  function OnQueueAll(q: Bytes, ops: seq<Op>): Bytes
    decreases |ops|
  {
    if ops == [] then q else OnQueueAll(OnQueue(q, ops[0]), ops[1..])
  }

  /** `b'` is reached from `b` by `ops`, each allowed in its turn. */
  ghost predicate Reaches(b: Buf, ops: seq<Op>, b': Buf)
    requires b.Valid()
    decreases |ops|
  {
    if ops == [] then b' == b
    else Allowed(b, ops[0]) && Apply(b, ops[0]).Valid() && Reaches(Apply(b, ops[0]), ops[1..], b')
  }

  lemma RetrieveQueues(b: Buf, len: nat)
    requires b.Valid() && len <= |b.Readable()|
    ensures var b' := Retrieve(b, len); b'.Valid() && b'.Readable() == b.Readable()[len..]
  {
  }

  lemma UnwriteQueues(b: Buf, len: nat)
    requires b.Valid() && len <= |b.Readable()|
    ensures var b' := Unwrite(b, len); b'.Valid() && b'.Readable() == b.Readable()[..|b.Readable()| - len]
  {
    assert b.store[b.reader..b.writer][..b.writer - len - b.reader] == b.store[b.reader..b.writer - len];
  }

  lemma PrependQueues(b: Buf, data: Bytes)
    requires b.Valid() && |data| <= b.reader
    ensures var b' := Prepend(b, data); b'.Valid() && b'.Readable() == data + b.Readable()
  {
    assert Prepend(b, data).Readable() == data + b.Readable();
  }

  lemma ApplyRefines(b: Buf, op: Op)
    requires b.Valid() && Allowed(b, op)
    ensures var b' := Apply(b, op); b'.Valid() && b'.Readable() == OnQueue(b.Readable(), op)
  {
    hide Append, Retrieve, Unwrite, Prepend, ReadFd, Overwrite;
    match op
    case OpAppend(data) => AppendQueues(b, data);
    case OpRetrieve(len) => RetrieveQueues(b, len);
    case OpRetrieveAll =>
    case OpUnwrite(len) => UnwriteQueues(b, len);
    case OpPrepend(data) => PrependQueues(b, data);
    case OpReadFd(bytes) => ReadFdQueues(b, bytes);
  }

  /** Through any sequence of operations, with every compaction, growth and scatter read
      in between, the readable bytes are those of a plain byte queue, and the indices
      stay in order. */
  lemma {:induction false} RefinesQueue(b: Buf, ops: seq<Op>, b': Buf)
    requires b.Valid() && Reaches(b, ops, b')
    ensures b'.Valid() && b'.Readable() == OnQueueAll(b.Readable(), ops)
    decreases |ops|
  {
    if ops != [] {
      ApplyRefines(b, ops[0]);
      RefinesQueue(Apply(b, ops[0]), ops[1..], b');
    }
  }

  // ---- Size ---------------------------------------------------------------------------

  function Max(a: int, b: int): int {
    if a >= b then a else b
  }

  /** An append leaves the storage alone exactly when the new bytes fit behind the readable
      ones, or would after compaction; otherwise it grows it to hold them behind, which is
      at most twice the new bytes beyond the readable ones. */
  lemma AppendSize(b: Buf, data: Bytes)
    requires b.Valid()
    ensures var b' := Append(b, data);
            && |b.store| <= |b'.store| <= Max(|b.store|, |b.Readable()| + 2 * |data| + 7)
            && (|b'.store| == |b.store| <==>
                b.writer + |data| <= |b.store| || CHEAP_PREPEND + |b.Readable()| + |data| <= |b.store|)
            && (|b'.store| > |b.store| ==> |b'.store| == b.writer + |data|)
  {
  }

  /** Retrieving everything recycles the whole storage but the prepend area, so a message
      up to that size goes in without growing; retrieving less moves nothing. */
  lemma RetrieveRecycles(b: Buf, len: nat, data: Bytes)
    requires b.Valid() && len <= |b.Readable()|
    ensures var b' := Retrieve(b, len);
            && b'.Valid() && b'.Readable() == b.Readable()[len..] && b'.store == b.store
            && (if len == |b.Readable()| then b'.reader == b'.writer == CHEAP_PREPEND else b'.writer == b.writer)
            && (len == |b.Readable()| && CHEAP_PREPEND + |data| <= |b.store| ==>
                  Append(b', data).Readable() == data && |Append(b', data).store| == |b.store|)
  {
    AppendQueues(Retrieve(b, len), data);
    AppendSize(Retrieve(b, len), data);
    if len == |b.Readable()| { assert Retrieve(b, len).Readable() + data == data; }
  }

  /** A connection's input buffer: every delivery is drained by `onMessage`. */
  function Drained(b: Buf, bytes: Bytes): Buf
    requires b.Valid() && |bytes| <= ReadLimit(b)
  {
    ReadFdQueues(b, bytes);
    RetrieveAll(ReadFd(b, bytes))
  }

  ghost predicate Drains(b: Buf, deliveries: seq<Bytes>, b': Buf)
    requires b.Valid()
    decreases |deliveries|
  {
    if deliveries == [] then b' == b
    else
      && |deliveries[0]| <= ReadLimit(b)
      && Drained(b, deliveries[0]).Valid()
      && Drains(Drained(b, deliveries[0]), deliveries[1..], b')
  }

  const INPUT_BOUND := 131079

  lemma DrainedSize(b: Buf, bytes: Bytes)
    requires b.Valid() && b.reader == b.writer == CHEAP_PREPEND && |b.store| <= INPUT_BOUND && |bytes| <= ReadLimit(b)
    ensures var b' := Drained(b, bytes);
            b'.Valid() && b'.reader == b'.writer == CHEAP_PREPEND
            && |b'.store| == Max(|b.store|, CHEAP_PREPEND + |bytes|) && |b'.store| <= INPUT_BOUND
            && |ReadFd(b, bytes).store| == |b'.store|
  {
  }

  /** However many deliveries of whatever sizes a connection sees, its input buffer never
      takes more than 131079 bytes, and holds exactly the largest delivery so far. */
  lemma {:induction false} InputNeverExceeds(b: Buf, deliveries: seq<Bytes>, b': Buf)
    requires b.Valid() && b.reader == b.writer == CHEAP_PREPEND && |b.store| <= INPUT_BOUND
    requires Drains(b, deliveries, b')
    ensures b'.Valid() && b'.reader == b'.writer == CHEAP_PREPEND && |b.store| <= |b'.store| <= INPUT_BOUND
    ensures forall i :: 0 <= i < |deliveries| ==> CHEAP_PREPEND + |deliveries[i]| <= |b'.store|
    decreases |deliveries|
  {
    if deliveries != [] {
      DrainedSize(b, deliveries[0]);
      InputNeverExceeds(Drained(b, deliveries[0]), deliveries[1..], b');
      forall i | 0 < i < |deliveries| ensures CHEAP_PREPEND + |deliveries[i]| <= |b'.store| {
        assert deliveries[i] == deliveries[1..][i - 1];
      }
    }
  }

  /** The bound is met: two deliveries suffice from the initial size. */
  lemma InputReachesBound() returns (first: Bytes, second: Bytes, b': Buf)
    ensures Fresh(INITIAL_SIZE).Valid() && Drains(Fresh(INITIAL_SIZE), [first, second], b')
    ensures |b'.store| == INPUT_BOUND
  {
    first, second := Zeros(65535), Zeros(131071);
    var b := Fresh(INITIAL_SIZE);
    DrainedSize(b, first);
    var b1 := Drained(b, first);
    DrainedSize(b1, second);
    b' := Drained(b1, second);
    assert [first, second][1..] == [second];
    assert [second][1..] == [];
    assert Drains(b', [], b');
    assert Drains(b1, [second], b');
  }
}

/** The buffer as an object over an array, changed in place. */
module BufferObjects {
  import opened Kernel
  import opened Buffers

  lemma CopiedIsOverwritten(was: Bytes, now: Bytes, first: nat, last: nat, target: nat)
    requires target <= first <= last <= |was| == |now|
    requires forall j :: 0 <= j < target || target + (last - first) <= j < |was| ==> now[j] == was[j]
    requires forall j :: target <= j < target + (last - first) ==> now[j] == was[j + (first - target)]
    ensures now == Overwrite(was, target, was[first..last])
  {
  }

  class Buffer {
    var buffer: array<Byte>
    var readerIndex: nat
    var writerIndex: nat

    ghost predicate Valid()
      reads this, buffer
    {
      View().Valid()
    }

    ghost function View(): Buf
      reads this, buffer
    {
      Buf(buffer[..], readerIndex, writerIndex)
    }

    constructor (initialSize: nat)
      ensures Valid() && fresh(buffer) && View() == Fresh(initialSize) && View().Readable() == []
    {
      buffer := new Byte[CHEAP_PREPEND + initialSize](_ => 0);
      readerIndex, writerIndex := CHEAP_PREPEND, CHEAP_PREPEND;
      new;
      assert buffer[..] == Zeros(CHEAP_PREPEND + initialSize);
    }

    method ReadableBytes() returns (n: nat)
      requires Valid()
      ensures n == |View().Readable()|
    {
      n := writerIndex - readerIndex;
    }

    /** `peek()`, for `readableBytes()` bytes. */
    method Peek() returns (data: Bytes)
      requires Valid()
      ensures data == View().Readable()
    {
      data := buffer[readerIndex..writerIndex];
    }

    /** `buffer_.resize(n)`. */
    method ResizeTo(n: nat)
      requires Valid() && buffer.Length <= n
      modifies `buffer
      ensures Valid() && fresh(buffer) && View() == old(View()).(store := Resize(old(buffer[..]), n))
    {
      var bigger := new Byte[n](_ => 0);
      forall i | 0 <= i < buffer.Length {
        bigger[i] := buffer[i];
      }
      assert bigger[..] == Resize(buffer[..], n);
      buffer := bigger;
    }

    /** `std::copy(first, last, target)` within the storage. The target starts below the
        source, so copying upwards is safe although the two may overlap. */
    method CopyDown(first: nat, last: nat, target: nat)
      requires target <= first <= last <= buffer.Length
      modifies buffer
      ensures buffer[..] == Overwrite(old(buffer[..]), target, old(buffer[first..last]))
    {
      hide Overwrite;
      ghost var was := buffer[..];
      for i := 0 to last - first
        invariant forall j :: 0 <= j < target || target + i <= j < buffer.Length ==> buffer[j] == was[j]
        invariant forall j :: target <= j < target + i ==> buffer[j] == was[j + (first - target)]
      {
        assert buffer[first + i] == was[target + i + (first - target)];
        buffer[target + i] := buffer[first + i];
      }
      CopiedIsOverwritten(was, buffer[..], first, last, target);
    }

    method MakeSpace(len: nat)
      requires Valid() && View().Writable() < len
      modifies this, buffer
      ensures Valid() && (buffer == old(buffer) || fresh(buffer))
      ensures View() == Buffers.MakeSpace(old(View()), len)
    {
      RoomIsMade(View(), len);
      if buffer.Length - writerIndex + readerIndex < len + CHEAP_PREPEND {
        ResizeTo(writerIndex + len);
      } else {
        assert CHEAP_PREPEND < readerIndex;
        var readable := writerIndex - readerIndex;
        CopyDown(readerIndex, writerIndex, CHEAP_PREPEND);
        readerIndex := CHEAP_PREPEND;
        writerIndex := readerIndex + readable;
      }
    }

    method EnsureWritableBytes(len: nat)
      requires Valid()
      modifies this, buffer
      ensures Valid() && (buffer == old(buffer) || fresh(buffer))
      ensures View() == EnsureWritable(old(View()), len)
      ensures len <= View().Writable()
    {
      RoomIsMade(View(), len);
      if buffer.Length - writerIndex < len {
        MakeSpace(len);
      }
    }

    /** `std::copy(data, data + |data|, begin() + at)`. */
    method CopyIn(at: nat, data: Bytes)
      requires at + |data| <= buffer.Length
      modifies buffer
      ensures buffer[..] == Overwrite(old(buffer[..]), at, data)
    {
      for i := 0 to |data|
        invariant forall j :: 0 <= j < buffer.Length ==> buffer[j] == if at <= j < at + i then data[j - at] else old(buffer[j])
      {
        buffer[at + i] := data[i];
      }
      assert buffer[..] == Overwrite(old(buffer[..]), at, data);
    }

    method Append(data: Bytes)
      requires Valid()
      modifies this, buffer
      ensures Valid() && (buffer == old(buffer) || fresh(buffer))
      ensures View() == Buffers.Append(old(View()), data)
      ensures View().Readable() == old(View()).Readable() + data
    {
      AppendQueues(View(), data);
      EnsureWritableBytes(|data|);
      CopyIn(writerIndex, data);
      writerIndex := writerIndex + |data|;
    }

    method RetrieveAll()
      requires Valid()
      modifies `readerIndex, `writerIndex
      ensures Valid() && View() == Buffers.RetrieveAll(old(View())) && View().Readable() == []
    {
      readerIndex, writerIndex := CHEAP_PREPEND, CHEAP_PREPEND;
    }

    method Retrieve(len: nat)
      requires Valid() && len <= |View().Readable()|
      modifies `readerIndex, `writerIndex
      ensures Valid() && View() == Buffers.Retrieve(old(View()), len)
      ensures View().Readable() == old(View()).Readable()[len..]
    {
      if len < writerIndex - readerIndex {
        readerIndex := readerIndex + len;
      } else {
        RetrieveAll();
      }
    }

    method RetrieveAsString(len: nat) returns (result: Bytes)
      requires Valid() && len <= |View().Readable()|
      modifies `readerIndex, `writerIndex
      ensures Valid() && View() == Buffers.Retrieve(old(View()), len)
      ensures result + View().Readable() == old(View()).Readable() && |result| == len
    {
      result := buffer[readerIndex..readerIndex + len];
      Retrieve(len);
    }

    method Unwrite(len: nat)
      requires Valid() && len <= |View().Readable()|
      modifies `writerIndex
      ensures Valid() && View() == Buffers.Unwrite(old(View()), len)
    {
      writerIndex := writerIndex - len;
    }

    method Prepend(data: Bytes)
      requires Valid() && |data| <= readerIndex
      modifies this, buffer
      ensures Valid() && buffer == old(buffer) && View() == Buffers.Prepend(old(View()), data)
      ensures View().Readable() == data + old(View()).Readable()
    {
      readerIndex := readerIndex - |data|;
      CopyIn(readerIndex, data);
      assert View().Readable() == data + old(View()).Readable();
    }

    /** `readFd`: `result` is what `readv` answered, within the space it was offered. */
    method ReadFd(result: ReadResult) returns (n: int)
      requires Valid() && (result.Read? ==> |result.bytes| <= ReadLimit(View()))
      modifies this, buffer
      ensures Valid() && (buffer == old(buffer) || fresh(buffer))
      ensures n == if result.Read? then |result.bytes| else -1
      ensures View() == if result.Read? then Buffers.ReadFd(old(View()), result.bytes) else old(View())
      ensures View().Readable() == old(View()).Readable() + (if result.Read? then result.bytes else [])
    {
      var writable := buffer.Length - writerIndex;
      if result.ReadError? {
        return -1;
      }
      ReadFdQueues(View(), result.bytes);
      n := |result.bytes|;
      if n <= writable {
        CopyIn(writerIndex, result.bytes);
        writerIndex := writerIndex + n;
      } else {
        CopyIn(writerIndex, result.bytes[..writable]);
        writerIndex := buffer.Length;
        Append(result.bytes[writable..]);
      }
    }
  }
}
