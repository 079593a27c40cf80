/** One direction of the serial channel as a step machine at byte granularity:
    writer threads that send whole frames under a mutex (`send_frame` of
    src/bin/server.rs and src/bin/vmctl.rs around `Frame::write_to`), a bounded
    FIFO, and the reading end of a `FrameReader`. No step of a writer other than
    the acquisition looks at the mutex, so that frames do not interleave is
    something to prove. */
module Link {
  import opened Wire

  /** Every thread that writes to a channel: the server's main thread (which is
      also its stdout pump) and stderr pump; the client's main thread, input
      loop and resize loop. */
  datatype Writer = Main | ErrPump | InLoop | Resizer

  /** Where a writer stands inside `send_frame`. */
  datatype Pc =
    | Idle
    | Wants(f: Frame)            // blocked in lock()
    | Locked(f: Frame)           // owns the mutex, size check still ahead
    | InHeader(f: Frame, n: nat) // n header bytes are out
    | InBody(f: Frame, n: nat)   // the header and n payload bytes are out

  datatype Sent = Sent(who: Writer, frame: Frame)

  datatype Link = Link(
    owner: Option<Writer>,              // the mutex
    pcs: map<Writer, Pc>,
    wire: seq<Byte>,                    // every byte ever written (history)
    taken: nat,                         // how many of them the reader has read
    buf: seq<Byte>,                     // those of the frame being read
    log: seq<Sent>,                     // every frame ever begun (history)
    asked: map<Writer, seq<Frame>>,     // what each thread submitted (history)
    delivered: seq<Frame>)              // what the reader returned (history)

  datatype Op =
    | Submit(w: Writer, f: Frame) // a thread calls send_frame
    | Acquire(w: Writer)
    | Accept(w: Writer)           // the size check passes
    | Refuse(w: Writer)           // it fails: the error returns, the lock is dropped
    | Put(w: Writer)              // one byte goes out
    | Release(w: Writer)          // flush, unlock, return
    | Take                        // the reader gets one byte
    | Deliver                     // the reader returns a frame

  function PcOf(l: Link, w: Writer): Pc {
    if w in l.pcs then l.pcs[w] else Idle
  }

  function AskedBy(l: Link, w: Writer): seq<Frame> {
    if w in l.asked then l.asked[w] else []
  }

  const Empty := Link(None, map[], [], 0, [], [], map[], [])

  /** The writer is inside its frame; the header and the payload are two
      successive writes. */
  predicate HasByte(pc: Pc) {
    match pc
    case InHeader(_, n) => n < HEADER_SIZE
    case InBody(f, n) => n < |f.payload|
    case _ => false
  }

  function NextByte(pc: Pc): Byte
    requires HasByte(pc)
  {
    if pc.InHeader? then Header(pc.f)[pc.n] else pc.f.payload[pc.n]
  }

  /** The state of the writer after one byte. */
  function AfterPut(pc: Pc): Pc {
    match pc
    case InHeader(f, n) => if n + 1 < HEADER_SIZE then InHeader(f, n + 1) else InBody(f, 0)
    case InBody(f, n) => InBody(f, n + 1)
    case _ => pc
  }

  predicate Can(l: Link, cap: nat, op: Op) {
    match op
    case Submit(w, f) => PcOf(l, w).Idle?
    case Acquire(w) => PcOf(l, w).Wants? && l.owner.None?
    case Accept(w) => PcOf(l, w).Locked? && Fits(PcOf(l, w).f)
    case Refuse(w) => PcOf(l, w).Locked? && !Fits(PcOf(l, w).f)
    case Put(w) => |l.wire| < l.taken + cap && HasByte(PcOf(l, w))
    case Release(w) => PcOf(l, w).InBody? && PcOf(l, w).n == |PcOf(l, w).f.payload|
    case Take => l.taken < |l.wire| && NeedMore(l.buf)
    case Deliver => Complete(l.buf)
  }

  function SetPc(l: Link, w: Writer, pc: Pc): Link {
    l.(pcs := l.pcs[w := pc])
  }

  function Do(l: Link, cap: nat, op: Op): Link
    requires Can(l, cap, op)
  {
    match op
    case Submit(w, f) => SetPc(l, w, Wants(f)).(asked := l.asked[w := AskedBy(l, w) + [f]])
    case Acquire(w) => SetPc(l, w, Locked(PcOf(l, w).f)).(owner := Some(w))
    case Accept(w) => SetPc(l, w, InHeader(PcOf(l, w).f, 0)).(log := l.log + [Sent(w, PcOf(l, w).f)])
    case Refuse(w) =>
      var a := AskedBy(l, w);
      SetPc(l, w, Idle).(owner := None, asked := l.asked[w := if a == [] then [] else a[..|a| - 1]])
    case Put(w) =>
      SetPc(l, w, AfterPut(PcOf(l, w))).(wire := l.wire + [NextByte(PcOf(l, w))])
    case Release(w) => SetPc(l, w, Idle).(owner := None)
    case Take => l.(taken := l.taken + 1, buf := l.buf + [l.wire[l.taken]])
    case Deliver => l.(buf := [], delivered := l.delivered + [FrameOf(l.buf)])
  }

  // ----- the invariant -----

  function Frames(log: seq<Sent>): (fs: seq<Frame>)
    ensures |fs| == |log|
    ensures forall i :: 0 <= i < |log| ==> fs[i] == log[i].frame
  {
    seq(|log|, i requires 0 <= i < |log| => log[i].frame)
  }

  function ByWriter(log: seq<Sent>, w: Writer): seq<Frame> {
    if log == [] then []
    else
      var last := log[|log| - 1];
      ByWriter(log[..|log| - 1], w) + (if last.who == w then [last.frame] else [])
  }

  predicate Critical(pc: Pc) {
    pc.Locked? || pc.InHeader? || pc.InBody?
  }

  /** How many bytes of the frame in `pc` are not out yet. */
  function Due(pc: Pc): nat {
    match pc
    case InHeader(f, n) => if n <= HEADER_SIZE then |Encode(f)| - n else 0
    case InBody(f, n) => if n <= |f.payload| then |f.payload| - n else 0
    case _ => 0
  }

  /** The frame a writer submitted and has not begun to write. */
  function Pending(pc: Pc): seq<Frame> {
    match pc
    case Wants(f) => [f]
    case Locked(f) => [f]
    case _ => []
  }

  predicate Mutex(l: Link) {
    forall w :: Critical(PcOf(l, w)) <==> l.owner == Some(w)
  }

  predicate PcOk(log: seq<Sent>, w: Writer, pc: Pc) {
    match pc
    case InHeader(f, n) => n < HEADER_SIZE && log != [] && log[|log| - 1] == Sent(w, f)
    case InBody(f, n) => n <= |f.payload| && log != [] && log[|log| - 1] == Sent(w, f)
    case _ => true
  }

  predicate Writers(l: Link) {
    && (forall w :: PcOk(l.log, w, PcOf(l, w)))
    && AllFit(Frames(l.log))
  }

  /** How many bytes the lock holder still has to write. */
  function StillDue(l: Link): nat {
    if l.owner.Some? then Due(PcOf(l, l.owner.value)) else 0
  }

  /** What is out is the encoding of the frames begun, but for the bytes that the
      lock holder still has to write. */
  predicate Bytes(l: Link) {
    var all := EncodeAll(Frames(l.log));
    l.wire <= all && |l.wire| + StillDue(l) == |all|
  }

  /** What was read is what was returned and the part of the next frame. */
  predicate Reader(l: Link, cap: nat) {
    && l.taken <= |l.wire| <= l.taken + cap
    && l.taken == |EncodeAll(l.delivered)| + |l.buf|
  }

  /** The reader is inside the first frame it has not returned. */
  predicate InSync(l: Link) {
    && l.delivered <= Frames(l.log)
    && (if |l.delivered| < |l.log| then l.buf <= Encode(l.log[|l.delivered|].frame) else l.buf == [])
  }

  predicate Order(l: Link) {
    forall w :: AskedBy(l, w) == ByWriter(l.log, w) + Pending(PcOf(l, w))
  }

  predicate LinkInv(l: Link, cap: nat) {
    Mutex(l) && Writers(l) && Bytes(l) && Reader(l, cap) && InSync(l) && Order(l)
  }

  lemma EmptyInv(cap: nat)
    ensures LinkInv(Empty, cap)
  {
  }

  // ----- every step keeps it -----

  lemma FramesSnoc(log: seq<Sent>, s: Sent)
    ensures Frames(log + [s]) == Frames(log) + [s.frame]
  {
  }

  lemma ByWriterSnoc(log: seq<Sent>, s: Sent, w: Writer)
    ensures ByWriter(log + [s], w) == ByWriter(log, w) + (if s.who == w then [s.frame] else [])
  {
    assert (log + [s])[..|log|] == log;
  }

  lemma SubmitKeeps(l: Link, cap: nat, w: Writer, f: Frame)
    requires LinkInv(l, cap) && Can(l, cap, Submit(w, f))
    ensures LinkInv(Do(l, cap, Submit(w, f)), cap)
  {
    hide EncodeAll, Encode, Frames, ByWriter, Fits;
    var m := Do(l, cap, Submit(w, f));
    assert PcOf(l, w) == Idle;
    assert forall x :: PcOf(m, x) == if x == w then Wants(f) else PcOf(l, x);
    assert forall x :: x != w ==> AskedBy(m, x) == AskedBy(l, x);
    assert AskedBy(l, w) == ByWriter(l.log, w);
  }

  /** Locking and unlocking write nothing. */
  lemma SameBytes(l: Link, m: Link, cap: nat)
    requires Bytes(l) && Reader(l, cap) && InSync(l)
    requires m.wire == l.wire && m.log == l.log && StillDue(m) == StillDue(l)
    requires m.taken == l.taken && m.buf == l.buf && m.delivered == l.delivered
    ensures Bytes(m) && Reader(m, cap) && InSync(m)
  {
    hide EncodeAll, Encode, Frames, StillDue;
  }

  /** One thread moves inside `send_frame` without beginning its frame, with the
      mutex taken or released by it at most. */
  lemma OneMoves(l: Link, m: Link, w: Writer, pc: Pc)
    requires Mutex(l) && Writers(l) && Order(l)
    requires m.pcs == l.pcs[w := pc] && m.log == l.log && m.asked == l.asked
    requires Pending(pc) == Pending(PcOf(l, w)) && PcOk(l.log, w, pc)
    requires l.owner == None || l.owner == Some(w)
    requires m.owner == if Critical(pc) then Some(w) else None
    ensures Mutex(m) && Writers(m) && Order(m)
  {
    hide ByWriter, Frames, Fits, PcOk, Pending, Critical;
    assert forall x :: PcOf(m, x) == if x == w then pc else PcOf(l, x);
    assert forall x :: AskedBy(m, x) == AskedBy(l, x);
  }

  lemma AcquireKeeps(l: Link, cap: nat, w: Writer)
    requires LinkInv(l, cap) && Can(l, cap, Acquire(w))
    ensures LinkInv(Do(l, cap, Acquire(w)), cap)
  {
    hide EncodeAll, Encode, ByWriter, Frames, Fits, Mutex, Writers, Order, Bytes, Reader, InSync;
    var m := Do(l, cap, Acquire(w));
    OneMoves(l, m, w, Locked(PcOf(l, w).f));
    SameBytes(l, m, cap);
  }

  lemma AcceptKeeps(l: Link, cap: nat, w: Writer)
    requires LinkInv(l, cap) && Can(l, cap, Accept(w))
    ensures LinkInv(Do(l, cap, Accept(w)), cap)
  {
    hide EncodeAll, Encode, ByWriter, Order, Bytes, InSync, Reader;
    var f := PcOf(l, w).f;
    var m := Do(l, cap, Accept(w));
    assert l.owner == Some(w);
    assert forall x :: PcOf(m, x) == if x == w then InHeader(f, 0) else PcOf(l, x);
    AcceptKeepsBytes(l, cap, w);
    AcceptKeepsOrder(l, cap, w);
    AcceptKeepsReader(l, cap, w);
  }

  lemma AcceptKeepsBytes(l: Link, cap: nat, w: Writer)
    requires LinkInv(l, cap) && Can(l, cap, Accept(w))
    ensures Bytes(Do(l, cap, Accept(w)))
  {
    hide EncodeAll, Encode, ByWriter, Order, InSync, Reader, Frames;
    var f := PcOf(l, w).f;
    assert l.owner == Some(w);
    FramesSnoc(l.log, Sent(w, f));
    EncodeAllSnoc(Frames(l.log), f);
  }

  lemma AcceptKeepsOrder(l: Link, cap: nat, w: Writer)
    requires LinkInv(l, cap) && Can(l, cap, Accept(w))
    ensures Order(Do(l, cap, Accept(w)))
  {
    hide Encode, EncodeAll, Bytes, InSync, Reader, Writers, Mutex, ByWriter;
    var f := PcOf(l, w).f;
    var m := Do(l, cap, Accept(w));
    assert m.log == l.log + [Sent(w, f)];
    assert m.asked == l.asked && m.pcs == l.pcs[w := InHeader(f, 0)];
    assert Pending(PcOf(l, w)) == [f];
    forall x ensures AskedBy(m, x) == ByWriter(m.log, x) + Pending(PcOf(m, x)) {
      ByWriterSnoc(l.log, Sent(w, f), x);
      assert AskedBy(m, x) == AskedBy(l, x) == ByWriter(l.log, x) + Pending(PcOf(l, x));
      if x == w {
        NoTail(ByWriter(l.log, x) + [f]);
      } else {
        NoTail(ByWriter(l.log, x));
        assert PcOf(m, x) == PcOf(l, x);
      }
    }
  }

  lemma AcceptKeepsReader(l: Link, cap: nat, w: Writer)
    requires LinkInv(l, cap) && Can(l, cap, Accept(w))
    ensures Reader(Do(l, cap, Accept(w)), cap) && InSync(Do(l, cap, Accept(w)))
  {
    hide Encode, EncodeAll, Bytes, Order, Writers, Mutex, ByWriter;
    FramesSnoc(l.log, Sent(w, PcOf(l, w).f));
  }

  lemma RefuseKeeps(l: Link, cap: nat, w: Writer)
    requires LinkInv(l, cap) && Can(l, cap, Refuse(w))
    ensures LinkInv(Do(l, cap, Refuse(w)), cap)
  {
    hide EncodeAll, Encode, ByWriter, Frames, Fits, Bytes, Reader, InSync;
    var m := Do(l, cap, Refuse(w));
    assert forall x :: PcOf(m, x) == if x == w then Idle else PcOf(l, x);
    assert l.owner == Some(w);
    SameBytes(l, m, cap);
  }

  lemma PutKeeps(l: Link, cap: nat, w: Writer)
    requires LinkInv(l, cap) && Can(l, cap, Put(w))
    ensures LinkInv(Do(l, cap, Put(w)), cap)
  {
    hide Encode, EncodeAll, ByWriter, Bytes, Frames, InSync, Order, Reader;
    var m := Do(l, cap, Put(w));
    var pc := AfterPut(PcOf(l, w));
    assert l.owner == Some(w);
    assert PcOk(l.log, w, PcOf(l, w));
    OneMoves(l, m, w, pc);
    PutKeepsBytes(l, cap, w);
    PutKeepsSync(l, cap, w);
  }

  lemma PutKeepsSync(l: Link, cap: nat, w: Writer)
    requires InSync(l) && Reader(l, cap) && Can(l, cap, Put(w))
    ensures InSync(Do(l, cap, Put(w))) && Reader(Do(l, cap, Put(w)), cap)
  {
    hide EncodeAll, Encode, NextByte, AfterPut, HasByte;
  }

  /** A writer with a byte to write is inside the last frame begun. */
  lemma BegunLast(l: Link, w: Writer)
    requires Writers(l) && HasByte(PcOf(l, w))
    ensures l.log != [] && l.log[|l.log| - 1] == Sent(w, PcOf(l, w).f)
  {
    hide Frames, Fits;
    assert PcOk(l.log, w, PcOf(l, w));
  }

  lemma PutKeepsBytes(l: Link, cap: nat, w: Writer)
    requires LinkInv(l, cap) && Can(l, cap, Put(w))
    ensures Bytes(Do(l, cap, Put(w)))
  {
    hide EncodeAll, Encode, ByWriter, Order, InSync, Reader, Frames, Due, AfterPut, NextByte, Fits;
    var pc, all := PcOf(l, w), EncodeAll(Frames(l.log));
    var m := Do(l, cap, Put(w));
    assert l.owner == Some(w);
    assert PcOf(m, w) == AfterPut(pc);
    DueStep(pc);
    BegunLast(l, w);
    LastFrame(l, Sent(w, pc.f));
    assert all[|l.wire|] == NextByte(pc);
  }

  /** The next byte of a writer, and what is due after it. */
  lemma DueStep(pc: Pc)
    requires HasByte(pc)
    ensures Due(pc) == Due(AfterPut(pc)) + 1 <= |Encode(pc.f)|
    ensures NextByte(pc) == Encode(pc.f)[|Encode(pc.f)| - Due(pc)]
  {
    hide Header;
    assert Encode(pc.f) == Header(pc.f) + pc.f.payload;
  }

  /** The last frame begun ends the encoding. */
  lemma LastFrame(l: Link, s: Sent)
    requires l.log != [] && l.log[|l.log| - 1] == s
    ensures EncodeAll(Frames(l.log)) == EncodeAll(Frames(l.log[..|l.log| - 1])) + Encode(s.frame)
  {
    hide EncodeAll, Encode;
    var init := l.log[..|l.log| - 1];
    assert l.log == init + [s];
    FramesSnoc(init, s);
    EncodeAllSnoc(Frames(init), s.frame);
  }

  lemma ReleaseKeeps(l: Link, cap: nat, w: Writer)
    requires LinkInv(l, cap) && Can(l, cap, Release(w))
    ensures LinkInv(Do(l, cap, Release(w)), cap)
  {
    hide EncodeAll, Encode, ByWriter, Frames, Fits, Writers, Order, Bytes, Reader, InSync;
    var m := Do(l, cap, Release(w));
    assert l.owner == Some(w);
    OneMoves(l, m, w, Idle);
    SameBytes(l, m, cap);
  }

  /** The bytes after those already returned belong to the next frame of the
      log; with none left the reader has read everything there is. */
  lemma Ahead(l: Link, cap: nat)
    requires LinkInv(l, cap)
    ensures l.wire <= EncodeAll(Frames(l.log))
    ensures |l.delivered| == |l.log| ==> l.taken == |l.wire|
    ensures |l.delivered| < |l.log| ==>
      var e := Encode(l.log[|l.delivered|].frame);
      && l.taken == |EncodeAll(l.delivered)| + |l.buf|
      && |EncodeAll(l.delivered)| + |e| <= |EncodeAll(Frames(l.log))|
      && EncodeAll(Frames(l.log))[|EncodeAll(l.delivered)|..][..|e|] == e
  {
    hide Encode, Order, ByWriter;
    var fs, d := Frames(l.log), |l.delivered|;
    EncodeAllConcat(fs[..d], fs[d..]);
    assert fs[..d] + fs[d..] == fs && fs[..d] == l.delivered;
    if d == |l.log| {
      assert |EncodeAll(fs)| >= |l.wire|;
    } else {
      assert EncodeAll(fs[d..]) == Encode(fs[d]) + EncodeAll(fs[d..][1..]);
    }
  }

  /** What has been read is the encoding of the frames returned and the part of
      the next one. */
  lemma ReadSoFar(l: Link, cap: nat)
    requires LinkInv(l, cap)
    ensures l.taken <= |l.wire| && l.wire[..l.taken] == EncodeAll(l.delivered) + l.buf
  {
    hide EncodeAll, Encode, Order, ByWriter, Mutex, Writers, Frames;
    Ahead(l, cap);
    var all, a := EncodeAll(Frames(l.log)), EncodeAll(l.delivered);
    assert l.wire[..l.taken] == all[..l.taken];
    if |l.delivered| < |l.log| {
      var e := Encode(l.log[|l.delivered|].frame);
      SplitAt(all, |a|);
      assert all[..|a|] == a by {
        Returned(l);
      }
      assert all[|a|..][..|l.buf|] == e[..|l.buf|] == l.buf;
    } else {
      Returned(l);
      NoTail(a);
    }
  }

  lemma Returned(l: Link)
    requires l.delivered <= Frames(l.log)
    ensures EncodeAll(l.delivered) <= EncodeAll(Frames(l.log))
    ensures |l.delivered| == |l.log| ==> l.delivered == Frames(l.log)
  {
    hide EncodeAll;
    var fs, d := Frames(l.log), |l.delivered|;
    SplitAt(fs, d);
    EncodeAllConcat(fs[..d], fs[d..]);
    assert fs[..d] == l.delivered;
  }

  /** The next byte for the reader is the next one of the frame it is in. */
  lemma TakeInFrame(l: Link, cap: nat)
    requires LinkInv(l, cap) && Can(l, cap, Take)
    ensures |l.delivered| < |l.log|
    ensures l.buf + [l.wire[l.taken]] <= Encode(l.log[|l.delivered|].frame)
  {
    hide EncodeAll, Encode, Order, ByWriter, Mutex, Bytes, NeedMore, Frames;
    Ahead(l, cap);
    var f, k := l.log[|l.delivered|].frame, |EncodeAll(l.delivered)|;
    FitsLogged(l, |l.delivered|);
    ReadingFrame(f, l.buf);
    var all := EncodeAll(Frames(l.log));
    assert l.wire[l.taken] == all[l.taken] == all[k..][..|Encode(f)|][|l.buf|];
  }

  lemma TakeKeepsReader(l: Link, cap: nat)
    requires Reader(l, cap) && Can(l, cap, Take)
    ensures Reader(Do(l, cap, Take), cap)
  {
    hide EncodeAll, NeedMore;
  }

  lemma TakeKeeps(l: Link, cap: nat)
    requires LinkInv(l, cap) && Can(l, cap, Take)
    ensures LinkInv(Do(l, cap, Take), cap)
  {
    hide EncodeAll, Encode, Order, ByWriter, Writers, Mutex, Bytes, NeedMore, Reader, Frames;
    var m := Do(l, cap, Take);
    TakeInFrame(l, cap);
    TakeKeepsReader(l, cap);
    SameWriters(l, m);
  }

  lemma FitsLogged(l: Link, i: nat)
    requires Writers(l) && i < |l.log|
    ensures Fits(l.log[i].frame)
  {
    assert Frames(l.log)[i] == l.log[i].frame;
  }

  /** Reading does not concern the writers. */
  lemma SameWriters(l: Link, m: Link)
    requires Mutex(l) && Writers(l) && Bytes(l) && Order(l)
    requires m.pcs == l.pcs && m.owner == l.owner && m.log == l.log && m.asked == l.asked && m.wire == l.wire
    ensures Mutex(m) && Writers(m) && Bytes(m) && Order(m)
  {
    hide EncodeAll, Encode, ByWriter, Frames, Due, Fits;
    assert forall x :: PcOf(m, x) == PcOf(l, x) && AskedBy(m, x) == AskedBy(l, x);
  }

  /** A returned frame is the next one of the log. */
  lemma DeliverNext(l: Link, cap: nat)
    requires LinkInv(l, cap) && Complete(l.buf)
    ensures |l.delivered| < |l.log|
    ensures FrameOf(l.buf) == l.log[|l.delivered|].frame
    ensures l.buf == Encode(l.log[|l.delivered|].frame)
  {
    hide EncodeAll, Order, ByWriter, Mutex, Bytes, Reader;
    var f := l.log[|l.delivered|].frame;
    FitsLogged(l, |l.delivered|);
    ReadingFrame(f, l.buf);
    EncodeParses(f, []);
  }

  lemma DeliverKeeps(l: Link, cap: nat)
    requires LinkInv(l, cap) && Can(l, cap, Deliver)
    ensures LinkInv(Do(l, cap, Deliver), cap)
  {
    hide EncodeAll, Encode, ByWriter, Complete, FrameOf, Mutex, Writers, Bytes, Order;
    var m := Do(l, cap, Deliver);
    DeliverNext(l, cap);
    var f := l.log[|l.delivered|].frame;
    EncodeAllSnoc(l.delivered, f);
    assert m.delivered == l.delivered + [f];
    assert m.delivered <= Frames(l.log);
    SameWriters(l, m);
  }

  /** Every step keeps the invariant. */
  lemma StepKeeps(l: Link, cap: nat, op: Op)
    requires LinkInv(l, cap) && Can(l, cap, op)
    ensures LinkInv(Do(l, cap, op), cap)
  {
    hide LinkInv, Can, Do;
    match op {
      case Submit(w, f) => SubmitKeeps(l, cap, w, f);
      case Acquire(w) => AcquireKeeps(l, cap, w);
      case Accept(w) => AcceptKeeps(l, cap, w);
      case Refuse(w) => RefuseKeeps(l, cap, w);
      case Put(w) => PutKeeps(l, cap, w);
      case Release(w) => ReleaseKeeps(l, cap, w);
      case Take => TakeKeeps(l, cap);
      case Deliver => DeliverKeeps(l, cap);
    }
  }

  // ----- runs -----

  /** A run of a channel from its start, in any interleaving of the threads. */
  ghost predicate IsRun(cap: nat, ls: seq<Link>, ops: seq<Op>) {
    && |ls| == |ops| + 1
    && ls[0] == Empty
    && forall i :: 0 <= i < |ops| ==> Can(ls[i], cap, ops[i]) && ls[i + 1] == Do(ls[i], cap, ops[i])
  }

  lemma {:induction false} RunKeeps(cap: nat, ls: seq<Link>, ops: seq<Op>, k: nat)
    requires IsRun(cap, ls, ops) && k < |ls|
    ensures LinkInv(ls[k], cap)
  {
    hide LinkInv, Can, Do;
    if k == 0 {
      EmptyInv(cap);
    } else {
      RunKeeps(cap, ls, ops, k - 1);
      assert Can(ls[k - 1], cap, ops[k - 1]) && ls[k - 1 + 1] == Do(ls[k - 1], cap, ops[k - 1]);
      StepKeeps(ls[k - 1], cap, ops[k - 1]);
    }
  }

  /** How much of its frame a writer has put out. */
  function Out(pc: Pc): seq<Byte> {
    match pc
    case InHeader(f, n) => if n <= HEADER_SIZE then Encode(f)[..n] else []
    case InBody(f, n) => if n <= |f.payload| then Encode(f)[..HEADER_SIZE + n] else []
    case _ => []
  }

  predicate Writing(pc: Pc) {
    pc.InHeader? || pc.InBody?
  }

  /** The frames that are completely on the wire, unless the holder has put out
      the last byte and not yet released. */
  function Whole(l: Link): seq<Frame> {
    if l.owner.Some? && Writing(PcOf(l, l.owner.value)) && l.log != []
    then Frames(l.log[..|l.log| - 1]) else Frames(l.log)
  }

  /** Frames never interleave: at every byte the wire holds whole frames and,
      while some thread is writing, a prefix of that one thread's frame. */
  lemma NoInterleaving(l: Link, cap: nat)
    requires LinkInv(l, cap)
    ensures l.owner.None? || !Writing(PcOf(l, l.owner.value)) ==> l.wire == EncodeAll(Frames(l.log))
    ensures l.owner.Some? && Writing(PcOf(l, l.owner.value)) ==>
      var pc := PcOf(l, l.owner.value);
      && l.log != [] && l.log[|l.log| - 1] == Sent(l.owner.value, pc.f)
      && l.wire == EncodeAll(Frames(l.log[..|l.log| - 1])) + Out(pc)
      && Out(pc) <= Encode(pc.f)
  {
    hide Order, InSync, Reader, EncodeAll, ByWriter, Encode, Frames, Out, Due, Fits;
    if l.owner.Some? && Writing(PcOf(l, l.owner.value)) {
      var w, pc := l.owner.value, PcOf(l, l.owner.value);
      assert PcOk(l.log, w, pc);
      LastFrame(l, Sent(w, pc.f));
      OutDue(pc);
      var a := EncodeAll(Frames(l.log[..|l.log| - 1]));
      CutConcat(a, Encode(pc.f), |l.wire|);
    } else {
      NotDue(l);
    }
  }

  lemma NotDue(l: Link)
    requires l.owner.None? || !Writing(PcOf(l, l.owner.value))
    ensures StillDue(l) == 0
  {
  }

  /** What is out and what is due. */
  lemma OutDue(pc: Pc)
    requires (pc.InHeader? && pc.n < HEADER_SIZE) || (pc.InBody? && pc.n <= |pc.f.payload|)
    ensures Due(pc) <= |Encode(pc.f)| && Out(pc) == Encode(pc.f)[..|Encode(pc.f)| - Due(pc)]
  {
    hide Header;
  }

  /** Parsing the wire at any moment of any run gives the frames begun, in the
      order in which the threads got the mutex, less at most the frame being
      written. Its end is never an oversize error, and it is clean unless some
      thread is inside a frame. */
  lemma WireDecodes(l: Link, cap: nat)
    requires LinkInv(l, cap)
    ensures var d := DecodeAll(l.wire);
      && (d.frames == Frames(l.log) || d.frames == Whole(l))
      && d.ending != TooLarge
      && (l.owner.None? ==> d == Decoded(Frames(l.log), Clean))
  {
    hide Order, InSync, Reader, ByWriter, DecodeAll, EncodeAll, Encode;
    NoInterleaving(l, cap);
    var fs := Frames(l.log);
    if l.owner.Some? && Writing(PcOf(l, l.owner.value)) {
      var pc, n := PcOf(l, l.owner.value), |l.log| - 1;
      assert Frames(l.log[..n]) == fs[..n];
      assert fs == fs[..n] + [pc.f];
      EncodeAllSnoc(fs[..n], pc.f);
      assert l.wire == EncodeAll(fs)[..|l.wire|] by {
        assert Out(pc) <= Encode(pc.f);
      }
      if |l.wire| == |EncodeAll(fs)| {
        assert l.wire == EncodeAll(fs);
        RoundTrip(fs);
      } else {
        assert fs[..n + 1] == fs;
        CutAfter(fs, n, |l.wire|);
      }
    } else {
      RoundTrip(fs);
    }
  }

  /** Bytes of the frame that the lock holder is writing. */
  predicate PartOf(l: Link, part: seq<Byte>) {
    part != [] ==>
      && l.owner.Some? && l.log != []
      && l.log[|l.log| - 1].who == l.owner.value && part <= Encode(l.log[|l.log| - 1].frame)
  }

  /** For every run of the threads of one side: the bytes on the wire are whole
      frames and a part of the holder's frame, they parse to the frames in the
      order of the mutex, and the reader returns exactly these in order. */
  lemma WireOfRun(cap: nat, ls: seq<Link>, ops: seq<Op>, k: nat)
    requires IsRun(cap, ls, ops) && k < |ls|
    ensures exists part :: PartOf(ls[k], part) && ls[k].wire == EncodeAll(Whole(ls[k])) + part
    ensures DecodeAll(ls[k].wire).frames == Frames(ls[k].log) || DecodeAll(ls[k].wire).frames == Whole(ls[k])
    ensures ls[k].delivered <= Frames(ls[k].log)
  {
    hide LinkInv, IsRun, EncodeAll, DecodeAll, Encode;
    var l := ls[k];
    RunKeeps(cap, ls, ops, k);
    NoInterleaving(l, cap);
    WireDecodes(l, cap);
    ReaderInOrder(l, cap);
    var part := if l.owner.Some? && Writing(PcOf(l, l.owner.value)) then Out(PcOf(l, l.owner.value)) else [];
    assert EncodeAll(Frames(l.log)) + [] == EncodeAll(Frames(l.log));
    assert l.wire == EncodeAll(Whole(l)) + part;
  }

  /** The frames of one thread come out in the order in which it submitted
      them, and only the frame it is still waiting to write is missing. */
  lemma PerWriterOrder(cap: nat, ls: seq<Link>, ops: seq<Op>, k: nat, w: Writer)
    requires IsRun(cap, ls, ops) && k < |ls|
    ensures ByWriter(ls[k].log, w) <= AskedBy(ls[k], w)
    ensures |AskedBy(ls[k], w)| <= |ByWriter(ls[k].log, w)| + 1
    ensures PcOf(ls[k], w).Idle? ==> ByWriter(ls[k].log, w) == AskedBy(ls[k], w)
  {
    hide Can, Do, Bytes, ByWriter, Reader, InSync, Writers, Mutex;
    RunKeeps(cap, ls, ops, k);
  }

  /** The reader returns the logged frames in order, and never meets an
      oversize header. */
  lemma ReaderInOrder(l: Link, cap: nat)
    requires LinkInv(l, cap)
    ensures l.delivered <= Frames(l.log)
    ensures NeedMore(l.buf) || Complete(l.buf)
  {
    hide EncodeAll, Encode, Order, ByWriter, Mutex, Bytes, Reader;
    if |l.delivered| < |l.log| {
      FitsLogged(l, |l.delivered|);
      ReadingFrame(l.log[|l.delivered|].frame, l.buf);
    }
  }

  /** A reader that has everything and waits for more has returned every frame
      begun, but perhaps the one being written. */
  lemma Drained(l: Link, cap: nat)
    requires LinkInv(l, cap)
    requires l.taken == |l.wire| && NeedMore(l.buf)
    ensures |l.delivered| >= |l.log| - 1
    ensures l.owner.None? || !Writing(PcOf(l, l.owner.value)) ==>
              l.delivered == Frames(l.log) && l.buf == []
  {
    hide Order, ByWriter, Encode, EncodeAll, NeedMore, Mutex, Bytes;
    var d := |l.delivered|;
    if d < |l.log| {
      Ahead(l, cap);
      FitsLogged(l, d);
      ReadingFrame(l.log[d].frame, l.buf);
      NoInterleaving(l, cap);
      assert Frames(l.log)[..d] == l.delivered;
      if d < |l.log| - 1 {
        AheadOfLast(l, d);
      }
    }
  }

  /** Everything before the last frame begun is on the wire. */
  lemma AheadOfLast(l: Link, d: nat)
    requires d < |l.log| - 1
    ensures |EncodeAll(Frames(l.log)[..d])| + |Encode(l.log[d].frame)| <= |EncodeAll(Frames(l.log[..|l.log| - 1]))|
  {
    hide EncodeAll, Encode;
    var fs := Frames(l.log[..|l.log| - 1]);
    EncodeAllConcat(fs[..d + 1], fs[d + 1..]);
    assert fs[..d + 1] + fs[d + 1..] == fs;
    EncodeAllSnoc(fs[..d], fs[d]);
    assert fs[..d + 1] == fs[..d] + [fs[d]];
    assert Frames(l.log)[..d] == fs[..d];
  }

  // ----- the channel as the session sees it -----

  /** What a writer is doing, without the position inside the frame. */
  datatype Job = Off | Asked(f: Frame) | Begun(f: Frame)

  function JobOf(l: Link, w: Writer): Job {
    match PcOf(l, w)
    case Idle => Off
    case Wants(f) => Asked(f)
    case Locked(f) => Asked(f)
    case InHeader(f, _) => Begun(f)
    case InBody(f, _) => Begun(f)
  }

  /** The job of the writer named by `op` afterwards. */
  function JobAfter(l: Link, op: Op, w: Writer): Job {
    match op
    case Submit(x, f) => if x == w then Asked(f) else JobOf(l, w)
    case Accept(x) => if x == w && PcOf(l, w).Locked? then Begun(PcOf(l, w).f) else JobOf(l, w)
    case Refuse(x) => if x == w then Off else JobOf(l, w)
    case Release(x) => if x == w then Off else JobOf(l, w)
    case _ => JobOf(l, w)
  }

  /** What the job of a writer must be for its next operation. */
  lemma CanJob(l: Link, cap: nat, op: Op)
    requires Can(l, cap, op)
    ensures op.Submit? ==> JobOf(l, op.w) == Off
    ensures op.Release? ==> JobOf(l, op.w).Begun?
    ensures op.Accept? || op.Refuse? ==> JobOf(l, op.w).Asked?
  {
  }

  /** The effect of a step on jobs, log and deliveries: locking, single bytes
      out and single bytes in have none. */
  lemma Effect(l: Link, cap: nat, op: Op)
    requires Can(l, cap, op)
    ensures var m := Do(l, cap, op);
      && (forall w :: JobOf(m, w) == JobAfter(l, op, w))
      && m.log == (if op.Accept? then l.log + [Sent(op.w, PcOf(l, op.w).f)] else l.log)
      && m.delivered == (if op.Deliver? then l.delivered + [FrameOf(l.buf)] else l.delivered)
  {
    hide FrameOf, Header, NextByte;
    var m := Do(l, cap, op);
    match op {
      case Take => assert m.pcs == l.pcs;
      case Deliver => assert m.pcs == l.pcs;
      case Submit(w, _) => EffectPcs(l, m, w);
      case Acquire(w) => EffectPcs(l, m, w);
      case Accept(w) => EffectPcs(l, m, w);
      case Refuse(w) => EffectPcs(l, m, w);
      case Put(w) => EffectPcs(l, m, w);
      case Release(w) => EffectPcs(l, m, w);
    }
  }

  lemma EffectPcs(l: Link, m: Link, w: Writer)
    requires w in m.pcs && m.pcs == l.pcs[w := m.pcs[w]]
    ensures forall x :: x != w ==> PcOf(m, x) == PcOf(l, x)
  {
  }

  // ----- progress -----

  /** Steps still to come for the frame in `pc`, byte for byte. */
  function PcCost(pc: Pc): nat {
    match pc
    case Idle => 0
    case Wants(f) => 3 * |Encode(f)| + 4
    case Locked(f) => 3 * |Encode(f)| + 3
    case InHeader(f, n) => 3 * Due(pc) + 1
    case InBody(f, n) => 3 * Due(pc) + 1
  }

  /** Bytes not yet out count three times, bytes in flight twice, bytes of the
      frame being read once. */
  function Cost(l: Link): int {
    PcsCost(l) + 2 * (|l.wire| - l.taken) + |l.buf|
  }

  function PcsCost(l: Link): nat {
    PcCost(PcOf(l, Main)) + PcCost(PcOf(l, ErrPump)) + PcCost(PcOf(l, InLoop)) + PcCost(PcOf(l, Resizer))
  }

  /** Only one writer moves. */
  lemma PcsChange(l: Link, m: Link, w: Writer)
    requires w in m.pcs && m.pcs == l.pcs[w := m.pcs[w]]
    ensures PcsCost(m) - PcCost(m.pcs[w]) == PcsCost(l) - PcCost(PcOf(l, w))
  {
    hide PcCost;
    EffectPcs(l, m, w);
    match w {
      case Main =>
      case ErrPump =>
      case InLoop =>
      case Resizer =>
    }
  }

  /** Every step but a submission lowers the cost; a delivery lowers it by the
      size of the frame. */
  lemma CostDrops(l: Link, cap: nat, op: Op)
    requires Can(l, cap, op)
    ensures op.Submit? ==> Cost(Do(l, cap, op)) == Cost(l) + 3 * |Encode(op.f)| + 4
    ensures op.Deliver? ==> Cost(Do(l, cap, op)) == Cost(l) - |l.buf|
    ensures !op.Submit? ==> Cost(Do(l, cap, op)) < Cost(l)
  {
    hide Encode, Due, FrameOf, Header, NextByte, AfterPut, HasByte, PcsCost;
    var m := Do(l, cap, op);
    match op {
      case Take => SamePcs(l, m);
      case Deliver => SamePcs(l, m);
      case Submit(w, f) => PcsChange(l, m, w);
      case Acquire(w) => PcsChange(l, m, w);
      case Accept(w) => PcsChange(l, m, w); AcceptCost(PcOf(l, w).f);
      case Refuse(w) => PcsChange(l, m, w);
      case Put(w) => PcsChange(l, m, w); PutCost(PcOf(l, w));
      case Release(w) => PcsChange(l, m, w);
    }
  }

  lemma SamePcs(l: Link, m: Link)
    requires l.pcs == m.pcs
    ensures PcsCost(m) == PcsCost(l)
  {
  }

  lemma AcceptCost(f: Frame)
    ensures PcCost(InHeader(f, 0)) < PcCost(Locked(f))
  {
    assert Encode(f)[0..] == Encode(f);
  }

  lemma PutCost(pc: Pc)
    requires HasByte(pc)
    ensures PcCost(AfterPut(pc)) == PcCost(pc) - 3
  {
    DueStep(pc);
  }

  lemma CostPositive(l: Link, cap: nat)
    requires LinkInv(l, cap)
    ensures Cost(l) >= 0
  {
  }

  lemma InBounds(l: Link, cap: nat)
    requires LinkInv(l, cap)
    ensures l.taken <= |l.wire|
  {
    hide Mutex, Writers, Bytes, InSync, Order;
  }

  /** The lock holder can always go on, whoever it is, unless it has a byte to
      write and the channel is full. */
  lemma HolderMoves(l: Link, cap: nat, w: Writer)
    requires LinkInv(l, cap) && l.owner == Some(w)
    ensures Can(l, cap, Accept(w)) || Can(l, cap, Refuse(w)) || Can(l, cap, Release(w)) || HasByte(PcOf(l, w))
  {
    hide Bytes, Reader, InSync, Order;
    assert Critical(PcOf(l, w));
    assert PcOk(l.log, w, PcOf(l, w));
  }

  /** A writer with a job can take the free mutex, and no frame that fits is
      refused. */
  lemma FreeMeansWants(l: Link, cap: nat, w: Writer)
    requires LinkInv(l, cap) && l.owner.None? && JobOf(l, w) != Off
    ensures Can(l, cap, Acquire(w))
  {
    hide Writers, Bytes, Reader, InSync, Order;
    assert !Critical(PcOf(l, w));
  }

  lemma JobFits(l: Link, cap: nat, w: Writer)
    requires JobOf(l, w) != Off && Fits(JobOf(l, w).f)
    ensures !Can(l, cap, Refuse(w))
  {
  }
}
