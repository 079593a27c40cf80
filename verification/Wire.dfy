/** The wire protocol of the serial multiplexer (src/lib.rs): frames, their
    encoding, and a parser of whole byte strings that the stream reader of
    module Streams is proved against. */
module Wire {

  type Byte = x: int | 0 <= x < 0x100
  type U16 = x: int | 0 <= x < 0x1_0000
  type I32 = x: int | -0x8000_0000 <= x < 0x8000_0000

  datatype Option<+T> = None | Some(value: T)

  const MAX_FRAME_SIZE: nat := 16384
  const HEADER_SIZE: nat := 3
  const MAX_PAYLOAD: nat := MAX_FRAME_SIZE - HEADER_SIZE

  datatype FrameType = Unknown | Start | Stdin | Stdout | Stderr | Resize | Exit | StartReply

  /** The discriminants of the `repr(u8)` enumeration. */
  function TypeByte(t: FrameType): Byte {
    match t
    case Unknown => 0
    case Start => 1
    case Stdin => 2
    case Stdout => 3
    case Stderr => 4
    case Resize => 5
    case Exit => 6
    case StartReply => 7
  }

  function TypeOf(b: Byte): FrameType {
    if b == TypeByte(Stdin) then Stdin
    else if b == TypeByte(Start) then Start
    else if b == TypeByte(Stdout) then Stdout
    else if b == TypeByte(Stderr) then Stderr
    else if b == TypeByte(Resize) then Resize
    else if b == TypeByte(Exit) then Exit
    else if b == TypeByte(StartReply) then StartReply
    else Unknown
  }

  datatype Frame = Frame(ty: FrameType, payload: seq<Byte>)

  /** What `write_to` accepts. */
  predicate Fits(f: Frame) {
    |f.payload| <= MAX_PAYLOAD
  }

  predicate AllFit(fs: seq<Frame>) {
    forall i :: 0 <= i < |fs| ==> Fits(fs[i])
  }

  // ----- little-endian numbers -----

  /** The `as u16` cast. */
  function AsU16(n: nat): U16 {
    n % 0x1_0000
  }

  function Le16(x: U16): (bs: seq<Byte>)
    ensures |bs| == 2 && FromLe16(bs, 0) == x
  {
    [x % 256, x / 256]
  }

  lemma Le16Bytes(n: nat)
    requires n < 0x1_0000
    ensures AsU16(n) == n && Le16(n) == [n % 256, n / 256]
  {
  }

  /** The number whose bytes stand at position `i`. */
  function FromLe16(bs: seq<Byte>, i: nat): U16
    requires i + 2 <= |bs|
  {
    var low: int, high: int := bs[i], bs[i + 1];
    low + 256 * high
  }

  /** Two's complement, least significant byte first. */
  function Le32(x: I32): (bs: seq<Byte>)
    ensures |bs| == 4
  {
    var u := if x < 0 then x + 0x1_0000_0000 else x;
    [u % 0x100, u / 0x100 % 0x100, u / 0x1_0000 % 0x100, u / 0x100_0000]
  }

  function FromLe32(bs: seq<Byte>): I32
    requires |bs| == 4
  {
    var b0: int, b1: int, b2: int, b3: int := bs[0], bs[1], bs[2], bs[3];
    var u := b0 + 0x100 * b1 + 0x1_0000 * b2 + 0x100_0000 * b3;
    if u >= 0x8000_0000 then u - 0x1_0000_0000 else u
  }

  // ----- frame constructors and decoders -----

  const StartFrame := Frame(Start, [])
  const EofFrame := Frame(Stdin, [])

  function ResizeFrame(cols: U16, rows: U16): Frame {
    Frame(Resize, Le16(cols) + Le16(rows))
  }

  function ExitFrame(code: I32): Frame {
    Frame(Exit, Le32(code))
  }

  function StartReplyFrame(tty: bool): Frame {
    Frame(StartReply, [if tty then 1 else 0])
  }

  function AsStartReply(f: Frame): Option<bool> {
    if f.ty == StartReply && |f.payload| == 1 then Some(f.payload[0] != 0) else None
  }

  function AsExit(f: Frame): Option<I32> {
    if f.ty == Exit && |f.payload| == 4
    then Some(FromLe32(f.payload))
    else None
  }

  function AsResize(f: Frame): Option<(U16, U16)> {
    if f.ty == Resize && |f.payload| == 4
    then Some((FromLe16(f.payload, 0), FromLe16(f.payload, 2)))
    else None
  }

  lemma ExitRoundTrip(code: I32)
    ensures AsExit(ExitFrame(code)) == Some(code)
  {
    var u := if code < 0 then code + 0x1_0000_0000 else code;
    assert u / 0x1_0000 == u / 0x100 / 0x100;
    assert u / 0x100_0000 == u / 0x1_0000 / 0x100;
  }

  /** The accessors accept exactly the frames that the constructors make, except
      that any byte but 0 in a start reply says yes. */
  lemma DecodersExact(f: Frame, code: I32, cols: U16, rows: U16, tty: bool)
    ensures AsExit(f) == Some(code) <==> f == ExitFrame(code)
    ensures AsResize(f) == Some((cols, rows)) <==> f == ResizeFrame(cols, rows)
    ensures AsStartReply(f) == Some(tty) <==>
      f.ty == StartReply && |f.payload| == 1 && (tty <==> f.payload[0] != 0)
  {
    ExitRoundTrip(code);
    ControlRoundTrips(cols, rows, tty);
    if AsExit(f) == Some(code) {
      ExitBytes(f.payload);
    }
    if AsResize(f) == Some((cols, rows)) {
      var p := f.payload;
      assert p == [p[0], p[1], p[2], p[3]];
      assert ResizeFrame(cols, rows).payload == [cols % 256, cols / 256, rows % 256, rows / 256];
    }
  }

  /** The bytes of a code are those it was read from. */
  lemma ExitBytes(p: seq<Byte>)
    requires |p| == 4
    ensures Le32(FromLe32(p)) == p
  {
    var b0: int, b1: int, b2: int, b3: int := p[0], p[1], p[2], p[3];
    var u := b0 + 0x100 * b1 + 0x1_0000 * b2 + 0x100_0000 * b3;
    var x: int := FromLe32(p);
    assert u == if x < 0 then x + 0x1_0000_0000 else x;
    assert u / 0x100 == b1 + 0x100 * b2 + 0x1_0000 * b3;
    assert u / 0x1_0000 == b2 + 0x100 * b3;
    assert u / 0x100_0000 == b3;
    assert Le32(x) == [b0, b1, b2, b3];
    assert p == [p[0], p[1], p[2], p[3]];
  }

  lemma ControlRoundTrips(cols: U16, rows: U16, tty: bool)
    ensures AsResize(ResizeFrame(cols, rows)) == Some((cols, rows))
    ensures AsStartReply(StartReplyFrame(tty)) == Some(tty)
  {
    var p := ResizeFrame(cols, rows).payload;
    assert p == [cols % 256, cols / 256, rows % 256, rows / 256];
  }

  // ----- sequences -----

  lemma Assoc<T>(a: seq<T>, b: seq<T>, c: seq<T>)
    ensures (a + b) + c == a + (b + c)
  {
  }

  lemma SplitAt<T>(s: seq<T>, k: nat)
    requires k <= |s|
    ensures s == s[..k] + s[k..]
  {
  }

  lemma NoTail<T>(a: seq<T>)
    ensures a + [] == a && [] + a == a
  {
  }

  /** A prefix that reaches into the second part. */
  lemma CutConcat<T>(a: seq<T>, b: seq<T>, k: nat)
    requires |a| <= k <= |a + b|
    ensures (a + b)[..k] == a + b[..k - |a|]
  {
  }

  /** The end of the second part. */
  lemma DropConcat<T>(a: seq<T>, b: seq<T>, k: nat)
    requires |a| <= k <= |a + b|
    ensures (a + b)[k..] == b[k - |a|..]
  {
  }

  // ----- encoding -----

  /** The three header bytes. The length goes through the cast; EncodeParses
      shows that no accepted frame loses bits to it. */
  function Header(f: Frame): (h: seq<Byte>)
    ensures |h| == HEADER_SIZE
  {
    [TypeByte(f.ty)] + Le16(AsU16(|f.payload|))
  }

  function Encode(f: Frame): (e: seq<Byte>)
    ensures |e| == HEADER_SIZE + |f.payload|
  {
    Header(f) + f.payload
  }

  function EncodeAll(fs: seq<Frame>): seq<Byte> {
    if fs == [] then [] else Encode(fs[0]) + EncodeAll(fs[1..])
  }

  // ----- parsing -----

  /** The length a header announces. */
  function LenField(s: seq<Byte>): U16
    requires |s| >= HEADER_SIZE
  {
    FromLe16(s, 1)
  }

  /** A reader that has `s` of the current frame still needs a byte. */
  predicate NeedMore(s: seq<Byte>) {
    |s| < HEADER_SIZE || (LenField(s) <= MAX_PAYLOAD && |s| < HEADER_SIZE + LenField(s))
  }

  /** `s` is exactly one frame. */
  predicate Complete(s: seq<Byte>) {
    |s| >= HEADER_SIZE && LenField(s) <= MAX_PAYLOAD && |s| == HEADER_SIZE + LenField(s)
  }

  function FrameOf(s: seq<Byte>): Frame
    requires Complete(s)
  {
    Frame(TypeOf(s[0]), s[HEADER_SIZE..])
  }

  datatype Ending = Clean | CutShort | TooLarge

  datatype Parsed = AtEnd | Got(frame: Frame, rest: seq<Byte>) | Bad(why: Ending)

  function ParseNext(s: seq<Byte>): (p: Parsed)
    ensures p.Got? ==> |p.rest| < |s| && Fits(p.frame)
  {
    if |s| == 0 then AtEnd
    else if |s| < HEADER_SIZE then Bad(CutShort)
    else
      var len := LenField(s);
      if len > MAX_PAYLOAD then Bad(TooLarge)
      else if |s| < HEADER_SIZE + len then Bad(CutShort)
      else Got(FrameOf(s[..HEADER_SIZE + len]), s[HEADER_SIZE + len..])
  }

  datatype Decoded = Decoded(frames: seq<Frame>, ending: Ending)

  /** All frames of `s` up to its end or the first error. */
  function DecodeAll(s: seq<Byte>): Decoded
    decreases |s|
  {
    match ParseNext(s)
    case AtEnd => Decoded([], Clean)
    case Bad(why) => Decoded([], why)
    case Got(f, rest) =>
      var r := DecodeAll(rest);
      Decoded([f] + r.frames, r.ending)
  }

  /** A reader inside the encoding of `f` asks for more exactly until it has
      all of it. */
  lemma ReadingFrame(f: Frame, got: seq<Byte>)
    requires Fits(f) && got <= Encode(f)
    ensures NeedMore(got) <==> |got| < |Encode(f)|
    ensures Complete(got) <==> got == Encode(f)
  {
    EncodeParses(f, []);
    var e := Encode(f);
    if |got| >= HEADER_SIZE {
      assert got[1] == e[1] && got[2] == e[2];
    }
  }

  // ----- round trips -----

  lemma TypeRoundTrip(t: FrameType)
    ensures TypeOf(TypeByte(t)) == t
  {
  }

  /** One accepted frame is parsed back, whatever follows it. */
  lemma EncodeParses(f: Frame, tail: seq<Byte>)
    requires Fits(f)
    ensures LenField(Encode(f)) == |f.payload|
    ensures Complete(Encode(f)) && FrameOf(Encode(f)) == f
    ensures ParseNext(Encode(f) + tail) == Got(f, tail)
  {
    hide Encode, Header, TypeOf;
    var e := Encode(f);
    var s := e + tail;
    EncodeShape(f);
    assert s[0] == e[0] && s[1] == e[1] && s[2] == e[2];
    assert s[..HEADER_SIZE + |f.payload|] == e;
    assert s[HEADER_SIZE + |f.payload|..] == tail;
    TypeRoundTrip(f.ty);
  }

  /** Where the parts of a frame are. */
  lemma EncodeShape(f: Frame)
    requires Fits(f)
    ensures var e := Encode(f);
      && e[0] == TypeByte(f.ty) && e[1] == |f.payload| % 256 && e[2] == |f.payload| / 256
      && e[HEADER_SIZE..] == f.payload
  {
    hide TypeByte, Le16, AsU16;
    Le16Bytes(|f.payload|);
    DropConcat(Header(f), f.payload, HEADER_SIZE);
  }

  lemma {:induction false} EncodeAllConcat(a: seq<Frame>, b: seq<Frame>)
    ensures EncodeAll(a + b) == EncodeAll(a) + EncodeAll(b)
  {
    if a == [] {
      assert a + b == b;
    } else {
      assert (a + b)[1..] == a[1..] + b;
      EncodeAllConcat(a[1..], b);
    }
  }

  lemma EncodeAllOne(f: Frame)
    ensures EncodeAll([f]) == Encode(f)
  {
    assert EncodeAll([f]) == Encode(f) + EncodeAll([]);
  }

  lemma EncodeAllSnoc(fs: seq<Frame>, f: Frame)
    ensures EncodeAll(fs + [f]) == EncodeAll(fs) + Encode(f)
  {
    EncodeAllConcat(fs, [f]);
    EncodeAllOne(f);
  }

  lemma DecodeOne(f: Frame, tail: seq<Byte>)
    requires Fits(f)
    ensures DecodeAll(Encode(f) + tail) == Decoded([f] + DecodeAll(tail).frames, DecodeAll(tail).ending)
  {
    EncodeParses(f, tail);
  }

  lemma EncodeAllNil()
    ensures EncodeAll([]) == []
  {
  }

  lemma EncodeAllCons(fs: seq<Frame>)
    requires fs != []
    ensures EncodeAll(fs) == Encode(fs[0]) + EncodeAll(fs[1..])
  {
  }

  /** Frames in front of any byte string decode to themselves, and the rest
      decodes as it does alone. */
  lemma {:induction false} DecodeAfterFrames(fs: seq<Frame>, tail: seq<Byte>)
    requires AllFit(fs)
    ensures DecodeAll(EncodeAll(fs) + tail) ==
            Decoded(fs + DecodeAll(tail).frames, DecodeAll(tail).ending)
  {
    hide ParseNext, DecodeAll, EncodeAll, Encode;
    var d := DecodeAll(tail);
    if fs == [] {
      EncodeAllNil();
      NoTail(tail);
      NoTail(d.frames);
    } else {
      var f, rest := fs[0], EncodeAll(fs[1..]) + tail;
      EncodeAllCons(fs);
      Assoc(Encode(f), EncodeAll(fs[1..]), tail);
      DecodeOne(f, rest);
      DecodeAfterFrames(fs[1..], tail);
      Assoc([f], fs[1..], d.frames);
      SplitAt(fs, 1);
    }
  }

  /** Printing a frame sequence and parsing it gives the sequence and a clean
      end. */
  lemma RoundTrip(fs: seq<Frame>)
    requires AllFit(fs)
    ensures DecodeAll(EncodeAll(fs)) == Decoded(fs, Clean)
  {
    DecodeAfterFrames(fs, []);
    assert EncodeAll(fs) + [] == EncodeAll(fs);
  }

  /** Hence two frame sequences never share an encoding. */
  lemma EncodeInjective(a: seq<Frame>, b: seq<Frame>)
    requires AllFit(a) && AllFit(b)
    requires EncodeAll(a) == EncodeAll(b)
    ensures a == b
  {
    RoundTrip(a);
    RoundTrip(b);
  }

  /** A proper, non-empty prefix of one frame is an unexpected end. */
  lemma ProperPrefixIsCut(f: Frame, k: nat)
    requires Fits(f) && 0 < k < |Encode(f)|
    ensures DecodeAll(Encode(f)[..k]) == Decoded([], CutShort)
  {
    var e, s := Encode(f), Encode(f)[..k];
    EncodeParses(f, []);
    if k >= HEADER_SIZE {
      assert s[1] == e[1] && s[2] == e[2];
    }
  }

  /** Of the encoding of `fs`, exactly `n` frames lie wholly within `k` bytes. */
  predicate WholeWithin(fs: seq<Frame>, n: nat, k: nat) {
    && n <= |fs| && |EncodeAll(fs[..n])| <= k
    && (n < |fs| ==> k < |EncodeAll(fs[..n + 1])|)
  }

  /** Every cut has such a number of frames before it. */
  lemma {:induction false} CutHasFrames(fs: seq<Frame>, k: nat) returns (n: nat)
    ensures WholeWithin(fs, n, k)
  {
    hide Encode;
    if |EncodeAll(fs)| <= k {
      n := |fs|;
      assert fs[..n] == fs;
    } else {
      var init := fs[..|fs| - 1];
      n := CutHasFrames(init, k);
      assert init[..n] == fs[..n];
      assert n < |init| ==> init[..n + 1] == fs[..n + 1];
      assert fs[..|init| + 1] == fs;
    }
  }

  /** Cutting an encoded stream at any byte `k`: exactly the frames wholly before
      the cut come out, and the end is clean if and only if the cut is on a frame
      boundary. */
  lemma CutStream(fs: seq<Frame>, k: nat) returns (n: nat)
    requires AllFit(fs) && k <= |EncodeAll(fs)|
    ensures WholeWithin(fs, n, k)
    ensures DecodeAll(EncodeAll(fs)[..k]) ==
            Decoded(fs[..n], if k == |EncodeAll(fs[..n])| then Clean else CutShort)
  {
    n := CutHasFrames(fs, k);
    CutAfter(fs, n, k);
  }

  lemma CutAfter(fs: seq<Frame>, n: nat, k: nat)
    requires AllFit(fs) && WholeWithin(fs, n, k) && k <= |EncodeAll(fs)|
    ensures DecodeAll(EncodeAll(fs)[..k]) ==
            Decoded(fs[..n], if k == |EncodeAll(fs[..n])| then Clean else CutShort)
  {
    hide ParseNext, DecodeAll, EncodeAll, Encode;
    var a, all := EncodeAll(fs[..n]), EncodeAll(fs);
    SplitAt(fs, n);
    EncodeAllConcat(fs[..n], fs[n..]);
    if n == |fs| {
      assert fs[..n] == fs;
      assert all[..k] == all;
      RoundTrip(fs);
    } else {
      var part := Encode(fs[n])[..k - |a|] by {
        FrameAt(fs, n);
      }
      assert all[..k] == a + part by {
        FrameAt(fs, n);
        CutConcat(a + Encode(fs[n]), EncodeAll(fs[n + 1..]), |a + Encode(fs[n])|);
        CutConcat(a, Encode(fs[n]), k);
        assert all[..k] == all[..|a + Encode(fs[n])|][..k];
      }
      DecodeAfterFrames(fs[..n], part);
      NoTail(fs[..n]);
      if k > |a| {
        FrameAt(fs, n);
        ProperPrefixIsCut(fs[n], k - |a|);
      } else {
        assert part == [];
        NothingDecodes();
      }
    }
  }

  lemma NothingDecodes()
    ensures DecodeAll([]) == Decoded([], Clean)
  {
  }

  /** Frame `n` inside an encoded sequence. */
  lemma FrameAt(fs: seq<Frame>, n: nat)
    requires n < |fs|
    ensures EncodeAll(fs) == (EncodeAll(fs[..n]) + Encode(fs[n])) + EncodeAll(fs[n + 1..])
    ensures EncodeAll(fs[..n + 1]) == EncodeAll(fs[..n]) + Encode(fs[n])
  {
    hide EncodeAll, Encode;
    assert fs[..n + 1] == fs[..n] + [fs[n]];
    EncodeAllSnoc(fs[..n], fs[n]);
    SplitAt(fs, n + 1);
    EncodeAllConcat(fs[..n + 1], fs[n + 1..]);
  }

  /** The layout as documented: type, little-endian length, payload. */
  lemma ExampleBytes(payload: seq<Byte>)
    ensures Encode(Frame(Stdout, [104, 105])) == [3, 2, 0, 104, 105]
    ensures ResizeFrame(300, 24).payload == [44, 1, 24, 0]
    ensures ExitFrame(-2).payload == [254, 255, 255, 255]
    ensures ExitFrame(0x0403_0201).payload == [1, 2, 3, 4]
    ensures Encode(StartFrame) == [1, 0, 0] && Encode(EofFrame) == [2, 0, 0]
    ensures Encode(StartReplyFrame(true)) == [7, 1, 0, 1] && Encode(StartReplyFrame(false)) == [7, 1, 0, 0]
    ensures Fits(Frame(Unknown, payload)) <==> |payload| <= 16381
  {
    assert Header(Frame(Stdout, [104, 105])) == [3, 2, 0];
    assert Header(StartFrame) == [1, 0, 0] && Header(EofFrame) == [2, 0, 0];
    assert Header(StartReplyFrame(true)) == Header(StartReplyFrame(false)) == [7, 1, 0];
  }

  /** The documented type bytes, for every payload, and what any byte names. */
  lemma TypeBytes(p: seq<Byte>, b: Byte)
    ensures Encode(Frame(Unknown, p))[0] == 0 && Encode(Frame(Start, p))[0] == 1
    ensures Encode(Frame(Stdin, p))[0] == 2 && Encode(Frame(Stdout, p))[0] == 3
    ensures Encode(Frame(Stderr, p))[0] == 4 && Encode(Frame(Resize, p))[0] == 5
    ensures Encode(Frame(Exit, p))[0] == 6 && Encode(Frame(StartReply, p))[0] == 7
    ensures b <= 7 ==> TypeByte(TypeOf(b)) == b
    ensures b > 7 ==> TypeOf(b) == Unknown
  {
    hide Le16;
  }

  // ----- streams with type bytes of any value -----

  /** A frame as raw bytes: any type byte at all. */
  datatype RawFrame = RawFrame(tag: Byte, payload: seq<Byte>)

  function RawEncode(r: RawFrame): seq<Byte> {
    [r.tag] + Le16(AsU16(|r.payload|)) + r.payload
  }

  function RawEncodeAll(rs: seq<RawFrame>): seq<Byte> {
    if rs == [] then [] else RawEncode(rs[0]) + RawEncodeAll(rs[1..])
  }

  predicate AllRawFit(rs: seq<RawFrame>) {
    forall i :: 0 <= i < |rs| ==> |rs[i].payload| <= MAX_PAYLOAD
  }

  /** Only the eight assigned bytes name a type; every other byte reads as 0. */
  function Normalized(rs: seq<RawFrame>): (n: seq<RawFrame>)
    ensures |n| == |rs|
    ensures forall i :: 0 <= i < |rs| ==>
      n[i] == RawFrame(if rs[i].tag <= 7 then rs[i].tag else 0, rs[i].payload)
  {
    seq(|rs|, i requires 0 <= i < |rs| => RawFrame(if rs[i].tag <= 7 then rs[i].tag else 0, rs[i].payload))
  }

  lemma RawDecodeOne(r: RawFrame, tail: seq<Byte>)
    requires |r.payload| <= MAX_PAYLOAD
    ensures DecodeAll(RawEncode(r) + tail) ==
            Decoded([Frame(TypeOf(r.tag), r.payload)] + DecodeAll(tail).frames, DecodeAll(tail).ending)
  {
    hide RawEncode, TypeOf;
    var e := RawEncode(r);
    var s := e + tail;
    RawShape(r);
    assert s[0] == e[0] && s[1] == e[1] && s[2] == e[2];
    assert s[..HEADER_SIZE + |r.payload|] == e;
    assert s[HEADER_SIZE + |r.payload|..] == tail;
    assert ParseNext(s) == Got(Frame(TypeOf(r.tag), r.payload), tail);
  }

  lemma RawShape(r: RawFrame)
    requires |r.payload| <= MAX_PAYLOAD
    ensures var e := RawEncode(r);
      && |e| == HEADER_SIZE + |r.payload|
      && e[0] == r.tag && e[1] == |r.payload| % 256 && e[2] == |r.payload| / 256
      && e[HEADER_SIZE..] == r.payload
  {
    hide Le16, AsU16;
    Le16Bytes(|r.payload|);
    var h := [r.tag] + Le16(|r.payload|);
    DropConcat(h, r.payload, HEADER_SIZE);
  }

  lemma ReencodeOne(r: RawFrame)
    ensures Encode(Frame(TypeOf(r.tag), r.payload)) ==
            RawEncode(RawFrame(if r.tag <= 7 then r.tag else 0, r.payload))
  {
  }

  /** A stream with unknown type bytes stays in sync: every frame is read in
      full, the stream ends cleanly, and encoding what was read reproduces the
      stream with the unknown type bytes set to 0. */
  lemma {:induction false} UnknownTypesStayInSync(rs: seq<RawFrame>)
    requires AllRawFit(rs)
    ensures var d := DecodeAll(RawEncodeAll(rs));
            && d.ending == Clean
            && |d.frames| == |rs|
            && AllFit(d.frames)
            && (forall i :: 0 <= i < |rs| ==> d.frames[i] == Frame(TypeOf(rs[i].tag), rs[i].payload))
            && EncodeAll(d.frames) == RawEncodeAll(Normalized(rs))
  {
    if rs != [] {
      var r, tail := rs[0], RawEncodeAll(rs[1..]);
      var f := Frame(TypeOf(r.tag), r.payload);
      RawDecodeOne(r, tail);
      UnknownTypesStayInSync(rs[1..]);
      ReencodeOne(r);
      var n := Normalized(rs);
      assert n[1..] == Normalized(rs[1..]);
      assert ([f] + DecodeAll(tail).frames)[1..] == DecodeAll(tail).frames;
    }
  }

  // ----- every byte string -----

  /** What is left where parsing stops: nothing, a header that announces more than
      16381 bytes, or the beginning of a frame. */
  predicate StopsWith(ending: Ending, tail: seq<Byte>) {
    match ending
    case Clean => tail == []
    case TooLarge => |tail| >= 3 && Announced(tail) > 16381
    case CutShort => tail != [] && (|tail| < 3 || (Announced(tail) <= 16381 && |tail| < 3 + Announced(tail)))
  }

  function Announced(tail: seq<Byte>): int
    requires |tail| >= 3
  {
    var low: int, high: int := tail[1], tail[2];
    low + 256 * high
  }

  function Decoding(rs: seq<RawFrame>): (fs: seq<Frame>)
    ensures |fs| == |rs|
    ensures forall i :: 0 <= i < |rs| ==> fs[i] == Frame(TypeOf(rs[i].tag), rs[i].payload)
  {
    seq(|rs|, i requires 0 <= i < |rs| => Frame(TypeOf(rs[i].tag), rs[i].payload))
  }

  lemma StopDecodes(tail: seq<Byte>, ending: Ending)
    requires StopsWith(ending, tail)
    ensures DecodeAll(tail) == Decoded([], ending)
  {
  }

  /** Raw frames and then such a rest decode to the frames and that ending. */
  lemma {:induction false} ParserComplete(rs: seq<RawFrame>, tail: seq<Byte>, ending: Ending)
    requires AllRawFit(rs) && StopsWith(ending, tail)
    ensures DecodeAll(RawEncodeAll(rs) + tail) == Decoded(Decoding(rs), ending)
  {
    hide RawEncode, ParseNext, DecodeAll, StopsWith, TypeOf;
    if rs == [] {
      NoTail(tail);
      StopDecodes(tail, ending);
    } else {
      Assoc(RawEncode(rs[0]), RawEncodeAll(rs[1..]), tail);
      RawDecodeOne(rs[0], RawEncodeAll(rs[1..]) + tail);
      ParserComplete(rs[1..], tail, ending);
      assert Decoding(rs) == [Frame(TypeOf(rs[0].tag), rs[0].payload)] + Decoding(rs[1..]);
    }
  }

  /** Every byte string is such a concatenation, so the parser's answer is
      determined for all of them. */
  lemma {:induction false} ParserSound(s: seq<Byte>) returns (rs: seq<RawFrame>, tail: seq<Byte>)
    ensures AllRawFit(rs) && s == RawEncodeAll(rs) + tail && StopsWith(DecodeAll(s).ending, tail)
    ensures DecodeAll(s).frames == Decoding(rs)
    decreases |s|
  {
    var p := ParseNext(s);
    if p.Got? {
      var r := FirstRaw(s);
      hide RawEncode, ParseNext, StopsWith, TypeOf;
      var rest;
      rest, tail := ParserSound(p.rest);
      rs := [r] + rest;
      assert rs[1..] == rest;
      Assoc(RawEncode(r), RawEncodeAll(rest), tail);
      assert Decoding(rs) == [p.frame] + Decoding(rest);
    } else {
      rs, tail := [], s;
      NoTail(s);
    }
  }

  lemma FirstRaw(s: seq<Byte>) returns (r: RawFrame)
    requires ParseNext(s).Got?
    ensures |r.payload| <= MAX_PAYLOAD && s == RawEncode(r) + ParseNext(s).rest
    ensures ParseNext(s).frame == Frame(TypeOf(r.tag), r.payload)
  {
    hide TypeOf;
    var n := Announced(s);
    r := RawFrame(s[0], s[HEADER_SIZE..HEADER_SIZE + n]);
    assert s[..HEADER_SIZE + n][HEADER_SIZE..] == r.payload;
    RawShape(r);
    SplitAt(s, HEADER_SIZE + n);
    var e := RawEncode(r);
    assert e[1] == s[1] && e[2] == s[2];
    SplitAt(e, HEADER_SIZE);
    assert e[..HEADER_SIZE] == [e[0], e[1], e[2]] == s[..HEADER_SIZE];
    SplitAt(s[..HEADER_SIZE + n], HEADER_SIZE);
    assert s[..HEADER_SIZE + n][..HEADER_SIZE] == s[..HEADER_SIZE];
  }

  /** A corrupt length after any accepted frames is reported as such, whatever
      follows it. */
  lemma OversizeReported(fs: seq<Frame>, t: Byte, low: Byte, high: Byte, rest: seq<Byte>)
    requires AllFit(fs) && (low as int) + 256 * (high as int) > 16381
    ensures DecodeAll(EncodeAll(fs) + ([t, low, high] + rest)) == Decoded(fs, TooLarge)
  {
    hide EncodeAll, DecodeAll, ParseNext;
    DecodeAfterFrames(fs, [t, low, high] + rest);
    StopDecodes([t, low, high] + rest, TooLarge);
    NoTail(fs);
  }

  // ----- the bytes of one stream -----

  /** The payload bytes of all frames of type `t`, in order. */
  function StreamOf(t: FrameType, fs: seq<Frame>): seq<Byte> {
    if fs == [] then []
    else StreamOf(t, fs[..|fs| - 1]) + (if fs[|fs| - 1].ty == t then fs[|fs| - 1].payload else [])
  }

  lemma StreamSnoc(t: FrameType, fs: seq<Frame>, f: Frame)
    ensures StreamOf(t, fs + [f]) == StreamOf(t, fs) + (if f.ty == t then f.payload else [])
  {
    assert (fs + [f])[..|fs|] == fs;
  }

  lemma {:induction false} StreamConcat(t: FrameType, a: seq<Frame>, b: seq<Frame>)
    ensures StreamOf(t, a + b) == StreamOf(t, a) + StreamOf(t, b)
  {
    if b == [] {
      assert a + b == a;
    } else {
      var init, last := b[..|b| - 1], b[|b| - 1];
      StreamConcat(t, a, init);
      assert (a + b)[..|a + b| - 1] == a + init;
      assert (a + b)[|a + b| - 1] == last;
      var x, y := StreamOf(t, a), StreamOf(t, init);
      var z := if last.ty == t then last.payload else [];
      assert (x + y) + z == x + (y + z);
    }
  }

  lemma {:induction false} StreamAbsent(t: FrameType, fs: seq<Frame>)
    requires forall i :: 0 <= i < |fs| ==> fs[i].ty != t
    ensures StreamOf(t, fs) == []
  {
    if fs != [] {
      StreamAbsent(t, fs[..|fs| - 1]);
    }
  }

  lemma StreamPrefix(t: FrameType, a: seq<Frame>, b: seq<Frame>)
    requires a <= b
    ensures StreamOf(t, a) <= StreamOf(t, b)
  {
    StreamConcat(t, a, b[|a|..]);
    assert a + b[|a|..] == b;
  }
}
