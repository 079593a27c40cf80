/** The handshake cannot get stuck: until both sides are through, some step of
    it is enabled and lowers a measure, however small the channel buffers; no
    step of any thread raises it; and its steps alone complete the handshake. */
module HandshakeProgress {
  import opened Wire
  import opened Link
  import opened Session
  import opened ServerInv
  import opened ClientInv
  import opened ShowInv
  import opened FeedInv
  import opened SessionInv

  /** A main thread on its way through `send_frame`. */
  predicate ByMain(op: Op) {
    op == Acquire(Main) || op == Accept(Main) || op == Put(Main)
  }

  /** A step of the opening: the start frame, the reply and the size on their way.
      Nothing that the other loops do is one. */
  predicate HandshakeStep(s: State, step: Step) {
    match step
    case OfServer(x) =>
      || (x.SWrite? && ByMain(x.op) && s.srv.main.SendStart?)
      || x.StartSent? || x.STake? || x.GotReply? || x.GotSize?
    case OfClient(x) =>
      || (x.CWrite? && ByMain(x.op)) || (x.CTake? && s.cli.main.AwaitStart?)
      || x.GotStart? || x.ReplySent? || x.SizeSent?
    case _ => false
  }

  /** The client serves and the server has left the handshake. */
  predicate HandshakeDone(s: State) {
    s.cli.main.Serving? && !Starting(s.srv.main)
  }

  // ----- the measure -----

  function ServerRank(m: ServerMain): nat {
    match m
    case SendStart => 15
    case AwaitReply => 10
    case AwaitSize(_) => 5
    case _ => 0
  }

  function ClientRank(m: ClientMain): nat {
    match m
    case AwaitStart => 15
    case SendReply => 10
    case SendSize => 5
    case _ => 0
  }

  function LockRank(pc: Pc): nat {
    match pc
    case Idle => 0
    case Wants(_) => 3
    case Locked(_) => 2
    case _ => 1
  }

  /** How many of the first `n` bytes are still to be written, and to be read. */
  function ToGo(l: Link, n: nat): nat {
    (if |l.wire| < n then n - |l.wire| else 0) + (if l.taken < n then n - l.taken else 0)
  }

  const START_BYTES: nat := 3
  const OPENING_BYTES: nat := 11

  /** What is left of the handshake: the bytes of the start frame and of the two
      opening frames, and the phases of the two main threads. */
  function HandshakeLeft(s: State): nat {
    ServerRank(s.srv.main) + ClientRank(s.cli.main)
    + (if s.srv.main.SendStart? then LockRank(PcOf(s.s2c, Main)) else 0) + LockRank(PcOf(s.c2s, Main))
    + ToGo(s.s2c, START_BYTES) + ToGo(s.c2s, OPENING_BYTES)
  }

  lemma OpeningBytes(c: Config)
    ensures |EncodeAll([StartFrame])| == START_BYTES
    ensures |Encode(ReplyOf(c))| == 4
    ensures |EncodeAll([ReplyOf(c)])| == 4
    ensures |EncodeAll([ReplyOf(c), SizeOf(c)])| == OPENING_BYTES
  {
    hide Encode, Le16;
    EncodeAllOne(StartFrame);
    EncodeAllOne(ReplyOf(c));
    EncodeAllSnoc([ReplyOf(c)], SizeOf(c));
    assert [ReplyOf(c)] + [SizeOf(c)] == [ReplyOf(c), SizeOf(c)];
  }

  /** What one operation does to the bytes to go and to the main thread. */
  lemma OpLeaves(l: Link, cap: nat, op: Op, n: nat)
    requires Can(l, cap, op)
    ensures var m := Do(l, cap, op);
      && ToGo(m, n) <= ToGo(l, n)
      && (op.Put? && |l.wire| < n ==> ToGo(m, n) < ToGo(l, n))
      && (op.Take? && l.taken < n ==> ToGo(m, n) < ToGo(l, n))
      && (op.Take? || op.Deliver? || op.w != Main ==> PcOf(m, Main) == PcOf(l, Main))
  {
    hide FrameOf, Header, NextByte, AfterPut, HasByte;
  }

  lemma OpRanks(l: Link, cap: nat, op: Op)
    requires Can(l, cap, op)
    ensures var m := Do(l, cap, op);
      && (op == Acquire(Main) || op == Accept(Main) ==> LockRank(PcOf(m, Main)) < LockRank(PcOf(l, Main)))
      && (op == Put(Main) ==> LockRank(PcOf(m, Main)) == LockRank(PcOf(l, Main)))
      && (op == Release(Main) ==> LockRank(PcOf(m, Main)) == 0)
      && (op.Submit? && op.w == Main ==> LockRank(PcOf(m, Main)) == 3)
    ensures op.Put? ==> HasByte(PcOf(l, op.w))
  {
    hide FrameOf, Header, NextByte;
  }

  // ----- handshake steps lower it -----

  /** A writer with a byte to write has not written all of the frames begun. */
  lemma PutBelow(l: Link, cap: nat, w: Writer)
    requires LinkInv(l, cap) && HasByte(PcOf(l, w))
    ensures |l.wire| < |EncodeAll(Frames(l.log))| && JobOf(l, w).Begun?
  {
    hide Order, InSync, Reader, EncodeAll, ByWriter, Encode, Due, Frames;
    assert l.owner == Some(w);
    DueStep(PcOf(l, w));
  }

  /** A reader that takes a byte has not read all of the next frame. */
  lemma TakeBelow(l: Link, cap: nat)
    requires LinkInv(l, cap) && Can(l, cap, Take)
    ensures |l.delivered| < |l.log|
    ensures l.taken < |EncodeAll(l.delivered + [l.log[|l.delivered|].frame])|
  {
    hide EncodeAll, Encode, Order, ByWriter, Bytes, Mutex;
    Ahead(l, cap);
    var f := l.log[|l.delivered|].frame;
    FitsLogged(l, |l.delivered|);
    ReadingFrame(f, l.buf);
    EncodeAllSnoc(l.delivered, f);
  }

  lemma StartWriteDrops(c: Config, s: State, op: Op)
    requires LinkInv(s.s2c, c.toClient) && ServerOk(s) && s.srv.main.SendStart?
    requires ServerCan(c, s, SWrite(op)) && ByMain(op)
    ensures HandshakeLeft(ServerDo(c, s, SWrite(op))) < HandshakeLeft(s)
  {
    hide Do, Can, ToGo, LockRank, LinkInv, ServerOk, HasByte, EncodeAll;
    OpLeaves(s.s2c, c.toClient, op, START_BYTES);
    OpRanks(s.s2c, c.toClient, op);
    if op.Put? {
      PutBelow(s.s2c, c.toClient, Main);
      StartLog(s);
      OpeningBytes(c);
    }
  }

  lemma StartLog(s: State)
    requires ServerOk(s) && s.srv.main.SendStart? && JobOf(s.s2c, Main).Begun?
    ensures Frames(s.s2c.log) == [StartFrame]
  {
    hide Streams, ServerInv.Entry;
  }

  lemma ServerStepDrops(c: Config, s: State, x: ServerStep)
    requires ServerCan(c, s, x) && (x.StartSent? || x.STake? || x.GotReply? || x.GotSize?)
    requires x.STake? ==> s.c2s.taken < OPENING_BYTES
    requires x.GotReply? ==> AsStartReply(FrameOf(s.c2s.buf)).Some?
    requires x.GotSize? ==> AsResize(FrameOf(s.c2s.buf)).Some?
    ensures HandshakeLeft(ServerDo(c, s, x)) < HandshakeLeft(s)
  {
    hide AsStartReply, AsResize, FrameOf, Do, Can, ToGo, LockRank;
    if x.StartSent? {
      OpLeaves(s.s2c, c.toClient, Release(Main), START_BYTES);
    } else if x.STake? {
      OpLeaves(s.c2s, c.toServer, Take, OPENING_BYTES);
    } else {
      OpLeaves(s.c2s, c.toServer, Deliver, OPENING_BYTES);
    }
  }

  lemma OpeningTaken(c: Config, s: State)
    requires LinkInv(s.c2s, c.toServer) && ClientOk(c, s) && FeedOk(c, s)
    requires s.srv.main.AwaitReply? || s.srv.main.AwaitSize?
    requires Can(s.c2s, c.toServer, Take)
    ensures s.c2s.taken < OPENING_BYTES
  {
    hide LinkInv, ClientOk, FeedOk, ReplyOf, SizeOf, EncodeAll, Can, NeedMore, Complete;
    TakeBelow(s.c2s, c.toServer);
    OpeningFirst(c, s);
    ShakenFirst(c, s);
    ReaderInOrder(s.c2s, c.toServer);
    OpeningBytes(c);
    var got, f := s.c2s.delivered, s.c2s.log[|s.c2s.delivered|].frame;
    if got == [] {
      assert got + [f] == [ReplyOf(c)];
    } else {
      assert got + [f] == [ReplyOf(c), SizeOf(c)];
    }
  }

  lemma OpeningWriteDrops(c: Config, s: State, op: Op)
    requires LinkInv(s.c2s, c.toServer) && ClientOk(c, s)
    requires ClientCan(c, s, CWrite(op)) && ByMain(op)
    ensures HandshakeLeft(ClientDo(c, s, CWrite(op))) < HandshakeLeft(s)
  {
    hide Do, Can, ToGo, LockRank, LinkInv, ClientOk, HasByte, EncodeAll, ReplyOf, SizeOf;
    OpLeaves(s.c2s, c.toServer, op, OPENING_BYTES);
    OpRanks(s.c2s, c.toServer, op);
    if op.Put? {
      PutBelow(s.c2s, c.toServer, Main);
      OpeningLog(c, s);
      OpeningBytes(c);
    }
  }

  lemma OpeningLog(c: Config, s: State)
    requires ClientOk(c, s) && JobOf(s.c2s, Main).Begun?
    ensures Frames(s.c2s.log) == [ReplyOf(c)] || Frames(s.c2s.log) == [ReplyOf(c), SizeOf(c)]
  {
    hide Input, ClientInv.Trace, EofLogged, ReplyOf, SizeOf;
  }

  lemma ClientStepDrops(c: Config, s: State, x: ClientStep)
    requires ClientCan(c, s, x) && HandshakeStep(s, OfClient(x)) && !x.CWrite?
    requires x.CTake? ==> s.s2c.taken < START_BYTES
    requires x.GotStart? ==> FrameOf(s.s2c.buf).ty == Start
    ensures HandshakeLeft(ClientDo(c, s, x)) < HandshakeLeft(s)
  {
    hide FrameOf;
    match x {
      case CTake =>
        OpLeaves(s.s2c, c.toClient, Take, START_BYTES);
      case GotStart =>
        OpLeaves(s.s2c, c.toClient, Deliver, START_BYTES);
        Submits(s.c2s, c.toServer, StartReplyFrame(c.tty));
      case ReplySent =>
        Releases(s.c2s, c.toServer);
        Submits(Do(s.c2s, c.toServer, Release(Main)), c.toServer, ResizeFrame(c.cols, c.rows));
      case SizeSent => Releases(s.c2s, c.toServer);
    }
    hide Do, Can, ToGo, LockRank, PcOf;
  }

  lemma Submits(l: Link, cap: nat, f: Frame)
    requires Can(l, cap, Submit(Main, f))
    ensures ToGo(Do(l, cap, Submit(Main, f)), OPENING_BYTES) == ToGo(l, OPENING_BYTES)
    ensures LockRank(PcOf(Do(l, cap, Submit(Main, f)), Main)) == 3
  {
  }

  lemma Releases(l: Link, cap: nat)
    requires Can(l, cap, Release(Main))
    ensures ToGo(Do(l, cap, Release(Main)), OPENING_BYTES) == ToGo(l, OPENING_BYTES)
    ensures LockRank(PcOf(Do(l, cap, Release(Main)), Main)) == 0
  {
  }

  lemma StartTaken(c: Config, s: State)
    requires LinkInv(s.s2c, c.toClient) && ServerOk(s) && ShowOk(s)
    requires s.cli.main.AwaitStart? && Can(s.s2c, c.toClient, Take)
    ensures s.s2c.taken < START_BYTES
  {
    hide LinkInv, ServerOk, ShowOk, EncodeAll, Can;
    TakeBelow(s.s2c, c.toClient);
    StartFirst(s);
    OpenFirst(s);
    EncodeAllOne(StartFrame);
    assert s.s2c.delivered + [s.s2c.log[0].frame] == [StartFrame];
  }

  lemma ServerTakes(c: Config, s: State, x: ServerStep)
    requires LinkInv(s.c2s, c.toServer) && ClientOk(c, s) && FeedOk(c, s) && ServerCan(c, s, x)
    ensures x.STake? ==> s.c2s.taken < OPENING_BYTES
  {
    hide LinkInv, ClientOk, FeedOk, Can;
    if x.STake? {
      OpeningTaken(c, s);
    }
  }

  lemma ClientTakes(c: Config, s: State, x: ClientStep)
    requires LinkInv(s.s2c, c.toClient) && ServerOk(s) && ShowOk(s)
    requires ClientCan(c, s, x) && HandshakeStep(s, OfClient(x))
    ensures x.CTake? ==> s.s2c.taken < START_BYTES
  {
    hide LinkInv, ServerOk, ShowOk, Can;
    if x.CTake? {
      StartTaken(c, s);
    }
  }

  /** Every step of the handshake lowers the measure. */
  lemma HandshakeStepDrops(c: Config, s: State, step: Step)
    requires LinkInv(s.s2c, c.toClient) && LinkInv(s.c2s, c.toServer)
    requires ServerOk(s) && ClientOk(c, s) && ShowOk(s) && FeedOk(c, s)
    requires Enabled(c, s, step) && HandshakeStep(s, step)
    ensures HandshakeLeft(After(c, s, step)) < HandshakeLeft(s)
  {
    hide LinkInv, ServerOk, ClientOk, ShowOk, FeedOk, ServerCan, ClientCan, FrameOf, ReplyOf, SizeOf, AsStartReply,
         AsResize, Complete, HandshakeLeft;
    OpeningTypes(c);
    Openings(c, s, step);
    match step {
      case OfServer(x) =>
        if x.SWrite? {
          StartWriteDrops(c, s, x.op);
        } else {
          ServerTakes(c, s, x);
          ServerStepDrops(c, s, x);
        }
      case OfClient(x) =>
        if x.CWrite? {
          OpeningWriteDrops(c, s, x.op);
        } else {
          ClientTakes(c, s, x);
          ClientStepDrops(c, s, x);
        }
    }
  }

  // ----- no other step raises it -----

  lemma OtherServerLeft(c: Config, s: State, x: ServerStep)
    requires ServerOk(s) && ServerCan(c, s, x) && !HandshakeStep(s, OfServer(x))
    ensures HandshakeLeft(ServerDo(c, s, x)) <= HandshakeLeft(s)
  {
    hide ServerOk, ExitCode, ReadBytes;
    match x {
      case SWrite(op) => OpLeaves(s.s2c, c.toClient, op, START_BYTES);
      case OutRead(n) =>
        OpLeaves(s.s2c, c.toClient, Submit(Main, Frame(Stdout, ReadBytes(s.cmd.out, n))), START_BYTES);
      case ErrRead(n) =>
        OpLeaves(s.s2c, c.toClient, Submit(ErrPump, Frame(Stderr, ReadBytes(s.cmd.err, n))), START_BYTES);
      case OutSent => OpLeaves(s.s2c, c.toClient, Release(Main), START_BYTES);
      case ErrSent => OpLeaves(s.s2c, c.toClient, Release(ErrPump), START_BYTES);
      case Reap =>
        OpLeaves(s.s2c, c.toClient, Submit(Main, ExitFrame(ExitCode(s.cmd.status.value))), START_BYTES);
      case ExitSent => OpLeaves(s.s2c, c.toClient, Release(Main), START_BYTES);
      case _ =>
    }
    hide Do, Can, ToGo, LockRank, PcOf;
  }

  lemma OtherClientLeft(c: Config, s: State, x: ClientStep)
    requires ClientCan(c, s, x) && !HandshakeStep(s, OfClient(x))
    ensures HandshakeLeft(ClientDo(c, s, x)) <= HandshakeLeft(s)
  {
    hide FrameOf, AsExit, ToGo, LockRank, PcOf;
    if x.CWrite? {
      OpLeaves(s.c2s, c.toServer, x.op, OPENING_BYTES);
    } else if x.CTake? {
      OpLeaves(s.s2c, c.toClient, Take, START_BYTES);
    } else if x.Show? {
      OpLeaves(s.s2c, c.toClient, Deliver, START_BYTES);
    }
    hide Do, Can, NeedMore, Complete;
  }

  lemma OtherInputLeft(c: Config, s: State, x: InputStep)
    requires InputCan(c, s, x)
    ensures HandshakeLeft(InputDo(c, s, x)) <= HandshakeLeft(s)
  {
    hide Filtered, ResizeFrame;
    match x {
      case Type(chunk) =>
        var r := Filtered(s.keys, chunk);
        if r.out != [] {
          OpLeaves(s.c2s, c.toServer, Submit(InLoop, Frame(Stdin, r.out)), OPENING_BYTES);
        }
      case TypeSent => OpLeaves(s.c2s, c.toServer, Release(InLoop), OPENING_BYTES);
      case TypeRefused => OpLeaves(s.c2s, c.toServer, Refuse(InLoop), OPENING_BYTES);
      case TypeEof => OpLeaves(s.c2s, c.toServer, Submit(InLoop, EofFrame), OPENING_BYTES);
      case TypeEofSent => OpLeaves(s.c2s, c.toServer, Release(InLoop), OPENING_BYTES);
      case Resized(cols, rows) => OpLeaves(s.c2s, c.toServer, Submit(Resizer, ResizeFrame(cols, rows)), OPENING_BYTES);
      case ResizedSent => OpLeaves(s.c2s, c.toServer, Release(Resizer), OPENING_BYTES);
      case _ =>
    }
    hide Do, Can, ToGo, LockRank, PcOf;
  }

  lemma FeederLeft(c: Config, s: State, x: FeedStep)
    requires FeedCan(c, s, x)
    ensures HandshakeLeft(FeedDo(c, s, x)) <= HandshakeLeft(s)
  {
    hide FrameOf, FeedNext;
    if x.FeedTake? {
      OpLeaves(s.c2s, c.toServer, Take, OPENING_BYTES);
    } else if x.FeedGot? {
      OpLeaves(s.c2s, c.toServer, Deliver, OPENING_BYTES);
    }
    hide Do, Can, ToGo, LockRank, PcOf, ServerLives;
  }

  lemma CommandLeft(c: Config, s: State, x: CommandStep)
    requires CommandCan(c, s, x)
    ensures HandshakeLeft(CommandDo(c, s, x)) == HandshakeLeft(s)
  {
    hide ToGo, LockRank, PcOf;
  }

  /** No step of any thread raises the measure, and the handshake's own lower
      it. */
  lemma NothingRaises(c: Config, s: State, step: Step)
    requires LinkInv(s.s2c, c.toClient) && LinkInv(s.c2s, c.toServer)
    requires ServerOk(s) && ClientOk(c, s) && ShowOk(s) && FeedOk(c, s) && Enabled(c, s, step)
    ensures HandshakeLeft(After(c, s, step)) + (if HandshakeStep(s, step) then 1 else 0) <= HandshakeLeft(s)
  {
    if HandshakeStep(s, step) {
      HandshakeStepDrops(c, s, step);
    } else {
      hide LinkInv, ServerOk, ClientOk, ShowOk, FeedOk, HandshakeLeft;
      match step {
        case OfServer(x) => OtherServerLeft(c, s, x);
        case OfClient(x) => OtherClientLeft(c, s, x);
        case OfInput(x) => OtherInputLeft(c, s, x);
        case OfFeeder(x) => FeederLeft(c, s, x);
        case OfCommand(x) => CommandLeft(c, s, x);
      }
    }
  }

  function HandshakeSteps(states: seq<State>, steps: seq<Step>, k: nat): nat
    requires k <= |steps| < |states|
  {
    if k == 0 then 0
    else HandshakeSteps(states, steps, k - 1) + (if HandshakeStep(states[k - 1], steps[k - 1]) then 1 else 0)
  }

  /** In every session, in any interleaving with the other loops, there are no
      more handshake steps than the measure says at the start: 61, whatever the
      buffers, the input and the resizes. */
  lemma {:induction false} HandshakeBounded(c: Config, states: seq<State>, steps: seq<Step>, k: nat)
    requires IsSession(c, states, steps) && k <= |steps|
    ensures HandshakeSteps(states, steps, k) + HandshakeLeft(states[k]) <= 61
  {
    hide LinkInv, Roles, ServerOk, ClientOk, ShowOk, FeedOk, Enabled, After, HandshakeLeft, HandshakeStep;
    if k == 0 {
      LeftAtStart(c);
    } else {
      HandshakeBounded(c, states, steps, k - 1);
      Parts(c, states, steps, k - 1);
      assert Enabled(c, states[k - 1], steps[k - 1]) && states[k - 1 + 1] == After(c, states[k - 1], steps[k - 1]);
      NothingRaises(c, states[k - 1], steps[k - 1]);
    }
  }

  lemma LeftAtStart(c: Config)
    ensures HandshakeLeft(Init(c)) == 61
  {
  }

  // ----- some step is enabled -----

  /** Nothing is being written when no thread has a job. */
  lemma Unwritten(l: Link, cap: nat)
    requires LinkInv(l, cap)
    requires forall w :: !JobOf(l, w).Begun?
    ensures l.owner.None? || !Writing(PcOf(l, l.owner.value))
  {
    hide LinkInv;
    if l.owner.Some? {
      OwnerHasJob(l, cap);
    }
  }

  /** Everything returned means everything read. */
  lemma ReturnedMeansTaken(l: Link, cap: nat)
    requires LinkInv(l, cap) && |l.delivered| >= |l.log|
    ensures l.taken == |l.wire|
  {
    Ahead(l, cap);
    assert |l.delivered| == |l.log| by {
      ReaderInOrder(l, cap);
    }
    hide LinkInv;
  }

  /** The only writer of a channel goes on when nothing is in flight. */
  lemma OnlyWriter(l: Link, cap: nat, w: Writer) returns (op: Op)
    requires LinkInv(l, cap) && cap > 0 && l.taken == |l.wire|
    requires JobOf(l, w) != Off && Fits(JobOf(l, w).f) && forall x :: x != w ==> JobOf(l, x) == Off
    ensures Can(l, cap, op) && (Inner(op) || op.Release?) && op.w == w
  {
    hide LinkInv, JobOf;
    if l.owner.None? {
      FreeMeansWants(l, cap, w);
      op := Acquire(w);
    } else {
      OwnerHasJob(l, cap);
      HolderMoves(l, cap, w);
      JobFits(l, cap, w);
      op := if Can(l, cap, Accept(w)) then Accept(w) else if Can(l, cap, Put(w)) then Put(w) else Release(w);
    }
  }

  lemma OffIsIdle(l: Link, w: Writer)
    requires JobOf(l, w) == Off
    ensures PcOf(l, w).Idle?
  {
  }

  /** Jobs on the channel to the client during the handshake. */
  lemma StartingJobs(s: State)
    requires ServerOk(s) && Roles(s)
    ensures s.srv.main.SendStart? ==> JobOf(s.s2c, Main) != Off && Fits(JobOf(s.s2c, Main).f) && |s.s2c.log| <= 1
    ensures s.srv.main.SendStart? ==> forall w :: w != Main ==> JobOf(s.s2c, w) == Off
    ensures s.srv.main.AwaitReply? || s.srv.main.AwaitSize? || s.srv.main.Finished? ==>
      forall w :: JobOf(s.s2c, w) == Off
  {
    hide Streams, ServerInv.Trace, Pumps;
    forall w: Writer | w != Main ensures JobOf(s.s2c, w) == Off || s.srv.main.Pumping? {
      match w {
        case ErrPump =>
        case InLoop =>
        case Resizer =>
      }
    }
  }

  /** Jobs on the channel to the server during the client's opening. */
  lemma OpeningJobs(c: Config, s: State)
    requires ClientOk(c, s) && Roles(s)
    ensures s.cli.main.AwaitStart? ==> s.c2s.log == []
    ensures !s.cli.main.Serving? ==> |s.c2s.log| <= 2 && forall w :: w != Main ==> JobOf(s.c2s, w) == Off
    ensures s.cli.main.AwaitStart? ==> JobOf(s.c2s, Main) == Off
    ensures s.cli.main.SendReply? || s.cli.main.SendSize? ==> JobOf(s.c2s, Main) != Off && Fits(JobOf(s.c2s, Main).f)
  {
    hide Input, ClientInv.Trace, EofLogged;
  }

  /** The server is writing the start frame. */
  lemma StartMoves(c: Config, s: State) returns (step: Step)
    requires Sane(c) && LinkInv(s.s2c, c.toClient) && Roles(s)
    requires ServerOk(s) && ClientOk(c, s) && ShowOk(s) && FeedOk(c, s)
    requires s.srv.main.SendStart?
    ensures HandshakeStep(s, step) && Enabled(c, s, step) && step != OfServer(GotSize(false))
  {
    hide LinkInv, Roles, ServerOk, ClientOk, ShowOk, FeedOk, NeedMore, Complete, JobOf, PcOf;
    StartingJobs(s);
    OpenFirst(s);
    ReaderInOrder(s.s2c, c.toClient);
    ShakenFirst(c, s);
    if s.s2c.taken == |s.s2c.wire| {
      var op := OnlyWriter(s.s2c, c.toClient, Main);
      step := OfServer(if op.Release? then StartSent else SWrite(op));
    } else if s.cli.main.AwaitStart? {
      step := StartReceived(c, s);
    } else {
      ReturnedMeansTaken(s.s2c, c.toClient);
      assert false;
    }
  }

  /** The client receives the start frame. */
  lemma StartReceived(c: Config, s: State) returns (step: Step)
    requires LinkInv(s.s2c, c.toClient) && Roles(s) && ClientOk(c, s) && ShowOk(s)
    requires s.cli.main.AwaitStart? && (s.s2c.taken != |s.s2c.wire| || Complete(s.s2c.buf))
    ensures HandshakeStep(s, step) && Enabled(c, s, step) && step != OfServer(GotSize(false))
  {
    hide LinkInv, Roles, ClientOk, ShowOk, NeedMore, Complete, JobOf, PcOf;
    ReaderInOrder(s.s2c, c.toClient);
    OpeningJobs(c, s);
    OffIsIdle(s.c2s, Main);
    OpenFirst(s);
    InBounds(s.s2c, c.toClient);
    step := OfClient(if Complete(s.s2c.buf) then GotStart else CTake);
  }

  /** The client waits for the start frame, which is out. */
  lemma AwaitMoves(c: Config, s: State) returns (step: Step)
    requires LinkInv(s.s2c, c.toClient) && LinkInv(s.c2s, c.toServer) && Roles(s)
    requires ServerOk(s) && ClientOk(c, s) && ShowOk(s) && FeedOk(c, s)
    requires s.cli.main.AwaitStart? && !s.srv.main.SendStart?
    ensures HandshakeStep(s, step) && Enabled(c, s, step) && step != OfServer(GotSize(false))
  {
    hide LinkInv, Roles, ServerOk, ClientOk, ShowOk, FeedOk, NeedMore, Complete, JobOf, PcOf;
    if s.s2c.taken == |s.s2c.wire| && !Complete(s.s2c.buf) {
      ReaderInOrder(s.s2c, c.toClient);
      ReaderInOrder(s.c2s, c.toServer);
      StartFirst(s);
      StartingJobs(s);
      OpenFirst(s);
      OpeningJobs(c, s);
      ShakenFirst(c, s);
      Unwritten(s.s2c, c.toClient);
      Drained(s.s2c, c.toClient);
      assert false;
    } else {
      step := StartReceived(c, s);
    }
  }

  /** The server takes what the client sent. */
  lemma ServerReceives(c: Config, s: State) returns (step: Step)
    requires LinkInv(s.c2s, c.toServer) && (s.srv.main.AwaitReply? || s.srv.main.AwaitSize?)
    requires s.c2s.taken != |s.c2s.wire| || Complete(s.c2s.buf)
    ensures HandshakeStep(s, step) && Enabled(c, s, step) && step != OfServer(GotSize(false))
  {
    hide LinkInv, NeedMore, Complete;
    ReaderInOrder(s.c2s, c.toServer);
    InBounds(s.c2s, c.toServer);
    step := OfServer(if !Complete(s.c2s.buf) then STake
                     else if s.srv.main.AwaitReply? then GotReply else GotSize(true));
  }

  /** The client is writing its opening. */
  lemma OpeningMoves(c: Config, s: State) returns (step: Step)
    requires Sane(c) && LinkInv(s.c2s, c.toServer) && Roles(s)
    requires ServerOk(s) && ClientOk(c, s) && ShowOk(s) && FeedOk(c, s)
    requires (s.cli.main.SendReply? || s.cli.main.SendSize?) && !s.srv.main.SendStart?
    ensures HandshakeStep(s, step) && Enabled(c, s, step) && step != OfServer(GotSize(false))
  {
    hide LinkInv, Roles, ServerOk, ClientOk, ShowOk, FeedOk, NeedMore, Complete, JobOf, PcOf;
    OpeningJobs(c, s);
    OpenFirst(s);
    ShakenFirst(c, s);
    if s.c2s.taken == |s.c2s.wire| {
      var op := OnlyWriter(s.c2s, c.toServer, Main);
      step := OfClient(if op.Release? then (if s.cli.main.SendReply? then ReplySent else SizeSent) else CWrite(op));
    } else if s.srv.main.AwaitReply? || s.srv.main.AwaitSize? {
      step := ServerReceives(c, s);
    } else {
      ReturnedMeansTaken(s.c2s, c.toServer);
      assert false;
    }
  }

  /** The client serves; the server still waits for the reply or the size. */
  lemma WaitMoves(c: Config, s: State) returns (step: Step)
    requires LinkInv(s.c2s, c.toServer) && ClientOk(c, s) && FeedOk(c, s)
    requires s.cli.main.Serving? && (s.srv.main.AwaitReply? || s.srv.main.AwaitSize?)
    ensures HandshakeStep(s, step) && Enabled(c, s, step) && step != OfServer(GotSize(false))
  {
    hide LinkInv, ClientOk, FeedOk, NeedMore, Complete, JobOf, PcOf, ReplyOf, SizeOf;
    if s.c2s.taken == |s.c2s.wire| && !Complete(s.c2s.buf) {
      ReaderInOrder(s.c2s, c.toServer);
      OpeningFirst(c, s);
      ShakenFirst(c, s);
      if s.c2s.owner.Some? {
        OwnerHasJob(s.c2s, c.toServer);
      }
      Drained(s.c2s, c.toServer);
      assert false;
    } else {
      step := ServerReceives(c, s);
    }
  }

  lemma NextHandshakeStep(c: Config, s: State) returns (step: Step)
    requires Sane(c) && LinkInv(s.s2c, c.toClient) && LinkInv(s.c2s, c.toServer) && Roles(s)
    requires ServerOk(s) && ClientOk(c, s) && ShowOk(s) && FeedOk(c, s) && !HandshakeDone(s)
    ensures HandshakeStep(s, step) && Enabled(c, s, step) && step != OfServer(GotSize(false))
  {
    hide LinkInv, Roles, ServerOk, ClientOk, ShowOk, FeedOk, Enabled, HandshakeStep;
    OpeningFirst(c, s);
    ShakenFirst(c, s);
    if s.srv.main.SendStart? {
      step := StartMoves(c, s);
    } else if s.cli.main.AwaitStart? {
      step := AwaitMoves(c, s);
    } else if s.cli.main.SendReply? || s.cli.main.SendSize? {
      step := OpeningMoves(c, s);
    } else {
      step := WaitMoves(c, s);
    }
  }

  /** In every reachable state in which the handshake is not complete, one of its
      steps is enabled and lowers the measure. */
  lemma HandshakeMoves(c: Config, states: seq<State>, steps: seq<Step>, k: nat)
    requires IsSession(c, states, steps) && k < |states| && !HandshakeDone(states[k])
    ensures exists step :: HandshakeStep(states[k], step) && Enabled(c, states[k], step)
                           && HandshakeLeft(After(c, states[k], step)) < HandshakeLeft(states[k])
  {
    hide IsSession, LinkInv, Roles, ServerOk, ClientOk, ShowOk, FeedOk, Enabled, After, HandshakeStep, HandshakeLeft;
    Parts(c, states, steps, k);
    var step := NextHandshakeStep(c, states[k]);
    HandshakeStepDrops(c, states[k], step);
  }

  // ----- it completes -----

  /** Nothing but the handshake has happened. */
  predicate Untouched(s: State) {
    && s.cmd == Command(NoSource, NoSource, None, 0, false)
    && s.cli.done == [] && s.cli.result.None? && !s.cli.main.ClientPanic?
    && (s.srv.main.Pumping? ==> s.feed.pump.FeedReading?)
    && (s.srv.main.Pumping? ==> s.srv.out.Reading? && !s.srv.err.Ended?)
    && (s.srv.main.Pumping? || Starting(s.srv.main))
    && (s.cli.main.Serving? ==>
          s.show.mode.ShowReading? && s.keys == Keyboard(KeysReading, false, []) && s.winch.WinchIdle?)
    && (!s.cli.main.Serving? ==> s.keys == Keyboard(KeysOff, false, []))
  }

  lemma StaysUntouched(c: Config, s: State, step: Step)
    requires Untouched(s) && Enabled(c, s, step) && HandshakeStep(s, step) && step != OfServer(GotSize(false))
    requires step == OfClient(GotStart) ==> FrameOf(s.s2c.buf).ty == Start
    ensures Untouched(After(c, s, step))
  {
    hide Do, Can, FrameOf, AsStartReply, AsResize;
  }

  predicate AllHandshake(states: seq<State>, steps: seq<Step>) {
    |steps| < |states| && forall i :: 0 <= i < |steps| ==> HandshakeStep(states[i], steps[i])
  }

  /** From every reachable state handshake steps alone, at most as many as the
      measure says, complete the handshake, whatever the other loops have done. */
  lemma {:induction false} HandshakeCompletes(c: Config, s: State) returns (states: seq<State>, steps: seq<Step>)
    requires Sane(c) && Inv(c, s)
    ensures IsPath(c, s, states, steps) && AllHandshake(states, steps) && |states| - 1 == |steps| <= HandshakeLeft(s)
    ensures HandshakeDone(states[|states| - 1]) && Inv(c, states[|states| - 1])
    ensures Untouched(s) ==> Untouched(states[|states| - 1])
    decreases HandshakeLeft(s)
  {
    hide LinkInv, Roles, ServerOk, ClientOk, ShowOk, FeedOk, Enabled, After, HandshakeStep, HandshakeLeft,
         HandshakeDone, Untouched, IsPath, AllHandshake, FrameOf, ReplyOf, SizeOf, Complete;
    if HandshakeDone(s) {
      states, steps := [s], [];
      NoSteps(c, s);
    } else {
      var step := NextHandshakeStep(c, s);
      var t := After(c, s, step);
      HandshakeStepDrops(c, s, step);
      InvStep(c, s, step);
      Openings(c, s, step);
      if Untouched(s) {
        StaysUntouched(c, s, step);
      }
      var ts, rest := HandshakeCompletes(c, t);
      PathCons(c, s, step, ts, rest);
      HandshakeCons(s, step, ts, rest);
      assert ([s] + ts)[|ts|] == ts[|ts| - 1];
      states, steps := [s] + ts, [step] + rest;
    }
  }

  lemma NoSteps(c: Config, s: State)
    ensures IsPath(c, s, [s], []) && AllHandshake([s], [])
  {
  }

  lemma HandshakeCons(s: State, step: Step, states: seq<State>, steps: seq<Step>)
    requires HandshakeStep(s, step) && AllHandshake(states, steps)
    ensures AllHandshake([s] + states, [step] + steps)
  {
    hide HandshakeStep;
    assert forall i :: 0 < i < |steps| + 1 ==>
      ([s] + states)[i] == states[i - 1] && ([step] + steps)[i] == steps[i - 1];
  }
}
