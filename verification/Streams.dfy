/** The codec over real streams (src/lib.rs): reads may be short, interrupted or
    fail, and are made to refine the pure parser of module Wire. */
module Streams {
  import opened Wire

  /** How a read behaves: it returns at most `most` bytes, is interrupted, or
      fails (with EIO, which a PTY master reports at a hangup, or otherwise). */
  datatype Event = AtMost(most: nat) | Interrupt | Failure(eio: bool)

  datatype ReadResult = Ok(n: nat) | Interrupted | IoFailed(eio: bool)

  /** How many reads are going to fail. An operation that reports as many errors
      as it used up failures reports each of them and invents none. */
  function Failures(plan: seq<Event>): nat {
    if plan == [] then 0 else (if plan[0].Failure? then 1 else 0) + Failures(plan[1..])
  }

  /** The kernel's part of a read: the bytes land in the buffer. */
  method CopyInto(buf: array<Byte>, start: nat, bytes: seq<Byte>)
    requires start + |bytes| <= buf.Length
    modifies buf
    ensures buf[..] == old(buf[..])[..start] + bytes + old(buf[..])[start + |bytes|..]
  {
    forall i | 0 <= i < |bytes| {
      buf[start + i] := bytes[i];
    }
  }

  /** A byte stream with the behaviour of its future reads: `plan` says how they
      are cut and interrupted, and when it is used up reads return what there
      is. A read into a non-empty buffer returns 0 only at the end. */
  class ByteSource {
    var data: seq<Byte>
    var plan: seq<Event>

    constructor (data: seq<Byte>, plan: seq<Event>)
      ensures this.data == data && this.plan == plan
    {
      this.data, this.plan := data, plan;
    }

    method Read(buf: array<Byte>, start: nat) returns (r: ReadResult)
      requires start <= buf.Length
      modifies this, buf
      ensures plan == old(if plan == [] then [] else plan[1..])
      ensures Failures(plan) + (if r.IoFailed? then 1 else 0) == Failures(old(plan))
      ensures r.IoFailed? <==> old(plan != [] && plan[0].Failure?)
      ensures r.IoFailed? ==> old(plan)[0] == Failure(r.eio)
      ensures r == Interrupted <==> old(plan != [] && plan[0] == Interrupt)
      ensures !r.Ok? ==> data == old(data) && buf[..] == old(buf[..])
      ensures r.Ok? ==>
        && r.n <= |old(data)| && start + r.n <= buf.Length
        && (r.n == 0 <==> start == buf.Length || old(data) == [])
        && data == old(data)[r.n..]
        && buf[..] == old(buf[..])[..start] + old(data)[..r.n] + old(buf[..])[start + r.n..]
    {
      var most := |data|;
      if plan != [] {
        var e := plan[0];
        plan := plan[1..];
        match e {
          case AtMost(m) => most := if m == 0 then 1 else m;
          case Interrupt => return Interrupted;
          case Failure(eio) => return IoFailed(eio);
        }
      }
      var room := buf.Length - start;
      var n := if most < |data| then most else |data|;
      n := if n < room then n else room;
      CopyInto(buf, start, data[..n]);
      data := data[n..];
      return Ok(n);
    }
  }

  /** A sink with this room takes `n` bytes. */
  predicate Takes(room: Option<nat>, n: nat) {
    room.None? || n <= room.value
  }

  /** A byte sink that may fail: `room` is how many more bytes it takes. */
  class ByteSink {
    var written: seq<Byte>
    var room: Option<nat>

    constructor (room: Option<nat>)
      ensures written == [] && this.room == room
    {
      written, this.room := [], room;
    }

    /** `write_all`: everything goes out, or a prefix does and it fails. */
    method WriteAll(bytes: seq<Byte>) returns (ok: bool)
      modifies this
      ensures ok <==> Takes(old(room), |bytes|)
      ensures ok ==> written == old(written) + bytes
      ensures !ok ==> written == old(written) + bytes[..old(room.value)]
      ensures room.None? <==> old(room).None?
      ensures room.Some? ==> room.value == if ok then old(room.value) - |bytes| else 0
    {
      if room.None? {
        written := written + bytes;
        return true;
      }
      ok := |bytes| <= room.value;
      var n := if ok then |bytes| else room.value;
      written := written + bytes[..n];
      assert bytes[..|bytes|] == bytes;
      room := Some(room.value - n);
    }
  }

  datatype WriteResult = Written | PayloadTooLarge | WriteFailed

  /** `Frame::write_to`: refuses an oversize payload before writing anything;
      otherwise the header and then the payload. */
  method WriteTo(f: Frame, w: ByteSink) returns (r: WriteResult)
    modifies w
    ensures r == PayloadTooLarge <==> !Fits(f)
    ensures r == Written <==> Fits(f) && old(w.room.None? || |Encode(f)| <= w.room.value)
    ensures r == Written ==> w.written == old(w.written) + Encode(f)
    ensures r == PayloadTooLarge ==> w.written == old(w.written) && w.room == old(w.room)
    ensures r == WriteFailed ==> exists k :: 0 <= k < |Encode(f)| && w.written == old(w.written) + Encode(f)[..k]
    ensures w.room.None? <==> old(w.room).None?
  {
    if |f.payload| > MAX_PAYLOAD {
      return PayloadTooLarge;
    }
    ghost var before, e := w.written, Encode(f);
    var len := AsU16(|f.payload|);
    var header := [TypeByte(f.ty)] + Le16(len);
    var ok := w.WriteAll(header);
    if !ok {
      assert w.written == before + e[..|w.written| - |before|];
      return WriteFailed;
    }
    ok := w.WriteAll(f.payload);
    if !ok {
      assert w.written == before + e[..|w.written| - |before|];
      return WriteFailed;
    }
    return Written;
  }

  /** Reading until the buffer is full or the stream ends. It terminates because
      every turn uses up a byte or an interruption. */
  method ReadFull(src: ByteSource, buf: array<Byte>) returns (total: nat, failed: bool)
    modifies src, buf
    ensures Failures(src.plan) + (if failed then 1 else 0) == Failures(old(src.plan))
    ensures total <= buf.Length && total <= |old(src.data)|
    ensures buf[..total] == old(src.data)[..total] && src.data == old(src.data)[total..]
    ensures if failed then total < buf.Length
            else total == (if buf.Length < |old(src.data)| then buf.Length else |old(src.data)|)
    ensures |src.data| <= |old(src.data)| && |src.plan| <= |old(src.plan)|
  {
    hide Failures;
    total, failed := 0, false;
    ghost var all := src.data;
    while total < buf.Length
      invariant total <= buf.Length && total <= |all|
      invariant buf[..total] == all[..total] && src.data == all[total..]
      invariant |src.plan| <= |old(src.plan)|
      invariant Failures(src.plan) == Failures(old(src.plan))
      decreases |src.data| + |src.plan|
    {
      ghost var plan := src.plan;
      var r := src.Read(buf, total);
      match r {
        case Ok(n) =>
          if n == 0 {
            break;
          }
          assert buf[..total + n] == all[..total + n];
          total := total + n;
        case Interrupted =>
          continue;
        case IoFailed(_) =>
          failed := true;
          return;
      }
    }
  }

  datatype Item = End | Next(frame: Frame) | UnexpectedEof | InvalidInput | IoError

  /** What the pure parser says about the stream, as a result of `next`. */
  function ItemOf(p: Parsed): Item {
    match p
    case AtEnd => End
    case Got(f, _) => Next(f)
    case Bad(TooLarge) => InvalidInput
    case Bad(_) => UnexpectedEof
  }

  /** The four ways in which a reader with no failing read goes on, on the bytes
      that are left. */
  lemma ItemCases(s: seq<Byte>, f: Frame)
    ensures ItemOf(ParseNext(s)) == End <==> s == []
    ensures ItemOf(ParseNext(s)) == InvalidInput <==> StopsWith(TooLarge, s)
    ensures ItemOf(ParseNext(s)) == UnexpectedEof <==> StopsWith(CutShort, s)
    ensures Fits(f) ==> ItemOf(ParseNext(Encode(f) + s)) == Next(f)
  {
    if Fits(f) {
      EncodeParses(f, s);
    }
  }

  /** The same in terms of the whole rest of the stream. */
  ghost predicate DecodesTo(before: seq<Byte>, item: Item, after: seq<Byte>) {
    match item
    case End => DecodeAll(before) == Decoded([], Clean)
    case Next(f) => DecodeAll(before) == Decoded([f] + DecodeAll(after).frames, DecodeAll(after).ending)
    case UnexpectedEof => DecodeAll(before) == Decoded([], CutShort)
    case InvalidInput => DecodeAll(before) == Decoded([], TooLarge)
    case IoError => true
  }

  class FrameReader {
    const inner: ByteSource

    constructor (inner: ByteSource)
      ensures this.inner == inner
    {
      this.inner := inner;
    }

    /** One frame. However the stream is cut into reads, the result is that of
        the pure parser on all bytes that are left. */
    method Next() returns (item: Item)
      modifies inner
      ensures Failures(inner.plan) + (if item == IoError then 1 else 0) == Failures(old(inner.plan))
      ensures item != IoError ==> item == ItemOf(ParseNext(old(inner.data)))
      ensures item.Next? ==> inner.data == ParseNext(old(inner.data)).rest
      ensures item == UnexpectedEof ==> inner.data == []
      ensures item == InvalidInput ==> inner.data == old(inner.data)[3..]
      ensures |inner.data| <= |old(inner.data)|
      ensures item.Next? ==> |inner.data| < |old(inner.data)|
      ensures DecodesTo(old(inner.data), item, inner.data)
    {
      var header := new Byte[3];
      ghost var all := inner.data;
      var n, failed := ReadFull(inner, header);
      if failed {
        return IoError;
      }
      if n == 0 {
        return End;
      }
      if n < header.Length {
        return UnexpectedEof;
      }
      assert header[..3] == all[..3];
      assert header[0] == all[0] && header[1] == all[1] && header[2] == all[2] by {
        assert header[..3][0] == header[0] && header[..3][1] == header[1] && header[..3][2] == header[2];
      }
      var len := FromLe16(header[..], 1);
      if len > MAX_PAYLOAD {
        return InvalidInput;
      }
      var payload := new Byte[len];
      var m;
      m, failed := ReadFull(inner, payload);
      if failed {
        return IoError;
      }
      if m == len {
        assert payload[..m] == payload[..];
        assert all[..HEADER_SIZE + len][HEADER_SIZE..] == all[HEADER_SIZE..][..len];
        assert all[HEADER_SIZE..][len..] == all[HEADER_SIZE + len..];
        return Item.Next(Frame(TypeOf(header[0]), payload[..]));
      }
      return UnexpectedEof;
    }
  }

  /** How an iteration over a reader ended: as the parser says, or by a failing
      read. */
  datatype Stop = ByParser(ending: Ending) | ByIoError

  /** Iterating to the end or the first error. The frames are those of the pure
      parser, all of them and with the same ending unless a read failed. */
  method ReadFrames(reader: FrameReader) returns (frames: seq<Frame>, stop: Stop)
    modifies reader.inner
    ensures frames <= DecodeAll(old(reader.inner.data)).frames
    ensures stop.ByParser? ==> DecodeAll(old(reader.inner.data)) == Decoded(frames, stop.ending)
    ensures Failures(reader.inner.plan) + (if stop.ByIoError? then 1 else 0) == Failures(old(reader.inner.plan))
  {
    hide ParseNext, DecodeAll;
    frames := [];
    ghost var all := DecodeAll(reader.inner.data);
    while true
      invariant Failures(reader.inner.plan) == Failures(old(reader.inner.plan))
      invariant all.frames == frames + DecodeAll(reader.inner.data).frames
      invariant all.ending == DecodeAll(reader.inner.data).ending
      decreases |reader.inner.data|
    {
      var item := reader.Next();
      match item {
        case End => return frames, ByParser(Clean);
        case Next(f) =>
          assert frames + ([f] + DecodeAll(reader.inner.data).frames) ==
                 (frames + [f]) + DecodeAll(reader.inner.data).frames;
          frames := frames + [f];
        case UnexpectedEof => return frames, ByParser(CutShort);
        case InvalidInput => return frames, ByParser(TooLarge);
        case IoError => return frames, ByIoError;
      }
    }
  }
}
