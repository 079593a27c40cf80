/** From the user's keyboard to the command's stdin, over whole sessions: on
    pipes byte for byte, on a terminal through the line discipline, and the size
    of the terminal. */
module StdinDelivery {
  import opened Wire
  import opened Link
  import opened Escape
  import opened Feed
  import opened Terminal
  import opened Session
  import opened ServerInv
  import opened ClientInv
  import opened ShowInv
  import opened FeedInv
  import opened SessionInv
  import opened Delivery

  /** What the input loop has passed on of everything typed. */
  function Forwarded(s: State): seq<Byte> {
    FilterFrom(Fresh, s.keys.typed).out
  }

  // ----- the frames received -----

  /** The frames that reached the input pump after the opening. */
  function PumpFrames(s: State): seq<Frame> {
    if |s.c2s.delivered| >= 2 then s.c2s.delivered[2..] else []
  }

  /** The stdin bytes received are those of the frames the pump saw. */
  lemma PumpStream(c: Config, s: State)
    requires FeedOk(c, s) && s.srv.wiring != Unwired
    ensures |s.c2s.delivered| >= 2
    ensures StreamOf(Stdin, s.c2s.delivered) == StreamOf(Stdin, PumpFrames(s))
  {
    hide Feeds, StdinUse, StreamOf;
    var got := s.c2s.delivered;
    StreamConcat(Stdin, got[..2], got[2..]);
    assert got[..2] + got[2..] == got;
    OpeningTypes(c);
    StreamAbsent(Stdin, got[..2]);
    assert [] + StreamOf(Stdin, got[2..]) == StreamOf(Stdin, got[2..]);
  }

  /** What has been received is a prefix of what has been forwarded. */
  lemma ReceivedPrefix(c: Config, s: State)
    requires LinkInv(s.c2s, c.toServer) && ClientOk(c, s)
    ensures StreamOf(Stdin, s.c2s.delivered) <= Forwarded(s)
  {
    ReaderInOrder(s.c2s, c.toServer);
    StreamPrefix(Stdin, s.c2s.delivered, Frames(s.c2s.log));
    SentPrefix(c, s);
    hide LinkInv, ClientOk, StreamOf, Forwarded;
  }

  lemma SentPrefix(c: Config, s: State)
    requires ClientOk(c, s)
    ensures StreamOf(Stdin, Frames(s.c2s.log)) <= Forwarded(s)
  {
    hide ClientInv.Trace, Opening, LoopJobs, EofLogged, StreamOf, FilterFrom;
  }

  /** An end-of-file frame that was received closes the stdin stream: nothing of
      it is missing. */
  lemma EofClosesStream(c: Config, s: State, i: nat)
    requires LinkInv(s.c2s, c.toServer) && ClientOk(c, s)
    requires 2 <= i < |s.c2s.delivered| && s.c2s.delivered[i] == EofFrame
    ensures StreamOf(Stdin, s.c2s.delivered[..i]) == StreamOf(Stdin, s.c2s.delivered) == Forwarded(s)
    ensures forall j :: i < j < |s.c2s.delivered| ==> s.c2s.delivered[j].ty != Stdin
    ensures s.keys.mode == KeysEof || s.keys.mode == KeysEnded(AtEof)
  {
    hide LinkInv, ClientOk, StreamOf, Forwarded, NeedMore, Complete;
    ReaderInOrder(s.c2s, c.toServer);
    var fs := Frames(s.c2s.log);
    assert s.c2s.log[i].frame == fs[i] == EofFrame;
    LoggedEof(c, s, i);
    NothingAfter(fs, i, i);
    NothingAfter(fs, i, |s.c2s.delivered|);
    assert fs[..i] == s.c2s.delivered[..i];
    assert fs[..|s.c2s.delivered|] == s.c2s.delivered;
  }

  lemma LoggedEof(c: Config, s: State, i: nat)
    requires ClientOk(c, s) && 2 <= i < |s.c2s.log| && s.c2s.log[i].frame == EofFrame
    ensures StreamOf(Stdin, Frames(s.c2s.log)) == Forwarded(s)
    ensures forall j :: i < j < |s.c2s.log| ==> s.c2s.log[j].frame.ty != Stdin
    ensures s.keys.mode == KeysEof || s.keys.mode == KeysEnded(AtEof)
  {
    hide Opening, EofLogged, StreamOf, FilterFrom, IsResize;
    var log, ji := s.c2s.log, JobOf(s.c2s, InLoop);
    assert ClientInv.Entry(s.keys, ji, log, i);
    assert !IsResize(log[i].frame) by {
      ResizeType(log[i].frame);
    }
    hide JobOf, ClientInv.Trace;
    var sent := StreamOf(Stdin, Frames(log));
    assert sent + [] == sent;
  }

  lemma NothingAfter(fs: seq<Frame>, i: nat, n: nat)
    requires i <= n <= |fs| && i < |fs| && fs[i] == EofFrame
    requires forall j :: i < j < |fs| ==> fs[j].ty != Stdin
    ensures StreamOf(Stdin, fs[..n]) == StreamOf(Stdin, fs)
  {
    hide StreamOf;
    var a, b := fs[..n], fs[n..];
    assert a + b == fs;
    StreamConcat(Stdin, a, b);
    forall j | 0 <= j < |b| && b[j].ty == Stdin ensures b[j].payload == [] {
      assert b[j] == fs[n + j];
    }
    EmptyStream(b);
    assert StreamOf(Stdin, a) + [] == StreamOf(Stdin, a);
  }

  lemma {:induction false} EmptyStream(fs: seq<Frame>)
    requires forall j :: 0 <= j < |fs| && fs[j].ty == Stdin ==> fs[j].payload == []
    ensures StreamOf(Stdin, fs) == []
  {
    if fs != [] {
      EmptyStream(fs[..|fs| - 1]);
    }
  }

  // ----- pipes -----

  /** On pipes the pump has written a prefix of what it received, and all of it
      once the end-of-file frame came. */
  lemma PipeFed(c: Config, s: State)
    requires FeedOk(c, s) && s.srv.wiring == Pipes
    ensures s.feed.fed <= StreamOf(Stdin, s.c2s.delivered)
    ensures s.feed.pump == FeedEnded(EofSeen) ==>
      && s.feed.fed == StreamOf(Stdin, s.c2s.delivered)
      && |s.c2s.delivered| > 2 && s.c2s.delivered[|s.c2s.delivered| - 1] == EofFrame
    ensures s.cmd.stdinRead <= |s.feed.fed|
    ensures s.cmd.sawEof ==> s.cmd.stdinRead == |s.feed.fed| && (s.feed.pump.FeedEnded? || !ServerLives(s))
    ensures s.feed.pump == FeedEnded(Lost) ==> s.cli.result.Some?
  {
    PumpStream(c, s);
    PayloadBytes(FeedStart(c), PumpFrames(s));
    WiringIsFlag(c, s);
    hide StreamOf, FeedAll, ReplyOf, SizeOf, ServerLives;
    var stream := StreamOf(Stdin, PumpFrames(s));
    assert [] + stream == stream;
    assert !c.tty;
  }

  /** Stdin over pipes, for every chunking and every interleaving: what the
      command has read is at every step a prefix of the filtered input, which is
      the typed bytes less a held trailing Ctrl-] unless the user quit. If it
      sees the end of its stdin while client and server live and no write to the
      pipe failed, then stdin really ended and the command has read exactly all
      of it. */
  lemma StdinOverPipes(c: Config, states: seq<State>, steps: seq<Step>, k: nat)
    requires IsSession(c, states, steps) && k < |states| && states[k].srv.wiring == Pipes
    ensures var s := states[k]; var f := FilterFrom(Fresh, s.keys.typed);
      && s.cmd.stdinRead <= |s.feed.fed|
      && s.feed.fed[..s.cmd.stdinRead] <= f.out
      && (!f.quit ==> f.out + Held(f) == s.keys.typed)
      && (s.cmd.sawEof && s.cli.result.None? && ServerLives(s) && s.feed.pump != FeedEnded(Broken) ==>
            && s.feed.fed[..s.cmd.stdinRead] == f.out && !f.quit
            && (s.keys.mode == KeysEof || s.keys.mode == KeysEnded(AtEof)))
  {
    hide IsSession, LinkInv, Roles, ServerOk, ClientOk, ShowOk, FeedOk, ServerLives, StreamOf, FilterFrom, QuitAt;
    Parts(c, states, steps, k);
    var s := states[k];
    PipeFed(c, s);
    ReceivedPrefix(c, s);
    QuitsExactly(s.keys.typed);
    assert s.feed.fed[..|s.feed.fed|] == s.feed.fed;
    if s.cmd.sawEof && s.cli.result.None? && ServerLives(s) && s.feed.pump != FeedEnded(Broken) {
      var why := s.feed.pump.why;
      assert why == EofSeen;
      EofClosesStream(c, s, |s.c2s.delivered| - 1);
      NoQuitAtEof(c, s);
    }
  }

  lemma NoQuitAtEof(c: Config, s: State)
    requires ClientOk(c, s) && (s.keys.mode == KeysEof || s.keys.mode == KeysEnded(AtEof))
    ensures !FilterFrom(Fresh, s.keys.typed).quit
  {
    hide ClientInv.Trace, Opening, LoopJobs, EofLogged, StreamOf, FilterFrom;
  }

  // ----- refused payloads -----

  /** The input loop has ended, or is going to end, because a payload is too
      large. */
  predicate Refusing(s: State) {
    || s.keys.mode == KeysEnded(Refused)
    || (s.keys.mode.KeysSending? && JobOf(s.c2s, InLoop) != Off && !Fits(JobOf(s.c2s, InLoop).f))
  }

  /** The step reads a full chunk that overflows behind a held Ctrl-]. */
  ghost predicate Overflowing(s: State, step: Step) {
    step.OfInput? && step.inp.Type? && RefusedRead(s.keys.typed, step.inp.chunk)
  }

  lemma TypeRefuses(c: Config, s: State, chunk: seq<Byte>)
    requires ClientOk(c, s) && InputCan(c, s, Type(chunk))
    ensures Refusing(InputDo(c, s, Type(chunk))) <==> RefusedRead(s.keys.typed, chunk)
  {
    ReadingKeys(c, s);
    RefusedExactly(s.keys.escaped, chunk);
    var r := Filtered(s.keys, chunk);
    assert r.out == FilterFrom(Filter([], s.keys.escaped, false), chunk).out;
    hide ClientOk, FilterFrom, Filtered, Overflows;
    if r.out != [] {
      Effect(s.c2s, c.toServer, Submit(InLoop, Frame(Stdin, r.out)));
    }
    hide Do, JobOf;
  }

  /** A byte is held exactly when the last byte typed is Ctrl-]. */
  lemma ReadingKeys(c: Config, s: State)
    requires ClientOk(c, s) && s.keys.mode.KeysReading?
    ensures s.keys.escaped <==> s.keys.typed != [] && s.keys.typed[|s.keys.typed| - 1] == ESCAPE
  {
    hide ClientInv.Trace, Opening, LoopJobs, EofLogged, StreamOf, FilterFrom;
    if s.keys.typed != [] {
      HeldIffLast(s.keys.typed);
    } else {
      FreshStays();
    }
  }

  lemma FreshStays()
    ensures FilterFrom(Fresh, []) == Fresh
  {
  }

  /** Writes and other threads' steps keep the frame of the input loop. */
  lemma WriteRefuses(c: Config, s: State, op: Op)
    requires ClientCan(c, s, CWrite(op))
    ensures Refusing(ClientDo(c, s, CWrite(op))) <==> Refusing(s)
  {
    Effect(s.c2s, c.toServer, op);
    hide Do;
  }

  /** The opening comes before any input. */
  lemma OpeningRefuses(c: Config, s: State, x: ClientStep)
    requires ClientOk(c, s) && ClientCan(c, s, x) && (x.GotStart? || x.ReplySent? || x.SizeSent?)
    ensures !Refusing(ClientDo(c, s, x)) && !Refusing(s)
  {
    OpeningFirst(c, s);
    hide ClientOk, Do, Can, FrameOf, JobOf;
  }

  lemma ReadingRefuses(c: Config, s: State, x: ClientStep)
    requires ClientCan(c, s, x) && !x.CWrite? && !x.GotStart? && !x.ReplySent? && !x.SizeSent?
    ensures Refusing(ClientDo(c, s, x)) <==> Refusing(s)
  {
    hide Do, Can, FrameOf, AsExit, JobOf, NeedMore, Complete;
    var t := ClientDo(c, s, x);
    assert t.keys == s.keys && t.c2s == s.c2s;
    hide ClientDo;
  }

  lemma ClientRefuses(c: Config, s: State, x: ClientStep)
    requires ClientOk(c, s) && ClientCan(c, s, x)
    ensures Refusing(ClientDo(c, s, x)) <==> Refusing(s)
  {
    hide ClientOk, ClientCan, ClientDo, Refusing;
    if x.CWrite? {
      WriteRefuses(c, s, x.op);
    } else if x.GotStart? || x.ReplySent? || x.SizeSent? {
      OpeningRefuses(c, s, x);
    } else {
      ReadingRefuses(c, s, x);
    }
  }

  lemma InputRefuses(c: Config, s: State, x: InputStep)
    requires LinkInv(s.c2s, c.toServer) && InputCan(c, s, x) && !x.Type?
    ensures Refusing(InputDo(c, s, x)) <==> Refusing(s)
  {
    hide LinkInv, Do, Can, JobOf, ResizeFrame, Fits;
    match x {
      case TypeSent =>
        Effect(s.c2s, c.toServer, Release(InLoop));
        SentFits(s.c2s, c.toServer, InLoop);
      case TypeRefused => RefusedJob(s.c2s, c.toServer, InLoop);
      case Resized(cols, rows) => ResizedRefuses(c, s, x);
      case ResizedSent => Effect(s.c2s, c.toServer, Release(Resizer));
      case _ =>
    }
  }

  lemma ResizedRefuses(c: Config, s: State, x: InputStep)
    requires InputCan(c, s, x) && x.Resized?
    ensures Refusing(InputDo(c, s, x)) <==> Refusing(s)
  {
    hide Do, JobOf, ResizeFrame, Fits;
    Effect(s.c2s, c.toServer, Submit(Resizer, ResizeFrame(x.cols, x.rows)));
  }

  lemma SentFits(l: Link, cap: nat, w: Writer)
    requires LinkInv(l, cap) && Can(l, cap, Release(w))
    ensures JobOf(l, w) != Off && Fits(JobOf(l, w).f)
  {
    hide Bytes, Reader, InSync, Order, Mutex;
    assert PcOk(l.log, w, PcOf(l, w));
    FitsLogged(l, |l.log| - 1);
  }

  lemma RefusedJob(l: Link, cap: nat, w: Writer)
    requires Can(l, cap, Refuse(w))
    ensures JobOf(l, w) != Off && !Fits(JobOf(l, w).f)
  {
  }

  lemma OtherRefuses(c: Config, s: State, step: Step)
    requires Enabled(c, s, step) && !step.OfClient? && !step.OfInput?
    ensures Refusing(After(c, s, step)) <==> Refusing(s)
  {
    if step == OfServer(STake) || step == OfFeeder(FeedTake) {
      Effect(s.c2s, c.toServer, Take);
    } else if Can(s.c2s, c.toServer, Deliver) {
      Effect(s.c2s, c.toServer, Deliver);
    }
    hide Do, FrameOf, FeedNext, JobOf, AsResize, AsStartReply, ExitCode;
  }

  lemma RefusalStep(c: Config, s: State, step: Step)
    requires LinkInv(s.c2s, c.toServer) && ClientOk(c, s) && Enabled(c, s, step)
    ensures Refusing(After(c, s, step)) <==> Refusing(s) || Overflowing(s, step)
  {
    hide LinkInv, ClientOk, Overflows;
    match step {
      case OfInput(x) => if x.Type? { TypeRefuses(c, s, x.chunk); } else { InputRefuses(c, s, x); }
      case OfClient(x) => ClientRefuses(c, s, x);
      case _ => OtherRefuses(c, s, step);
    }
  }

  /** The input loop refuses a payload exactly when, at some earlier step, a full
      read overflowed behind a held Ctrl-]; the condition is on typed bytes only. */
  lemma {:induction false} RefusedInRun(c: Config, states: seq<State>, steps: seq<Step>, k: nat)
    requires IsSession(c, states, steps) && k < |states|
    ensures Refusing(states[k]) <==> exists j :: 0 <= j < k && Overflowing(states[j], steps[j])
  {
    hide LinkInv, Roles, ServerOk, ClientOk, ShowOk, FeedOk, Refusing, Overflowing, Enabled, After;
    if k == 0 {
      NotRefusing(c);
    } else {
      RefusedInRun(c, states, steps, k - 1);
      Parts(c, states, steps, k - 1);
      assert Enabled(c, states[k - 1], steps[k - 1]) && states[k - 1 + 1] == After(c, states[k - 1], steps[k - 1]);
      RefusalStep(c, states[k - 1], steps[k - 1]);
    }
  }

  lemma NotRefusing(c: Config)
    ensures !Refusing(Init(c))
  {
  }

  /** The silent loss: once a full read overflowed, no end-of-file frame is ever
      sent, so the pump never closes the command's stdin by one. */
  lemma RefusalLosesEof(c: Config, states: seq<State>, steps: seq<Step>, k: nat)
    requires IsSession(c, states, steps) && k < |states| && Refusing(states[k])
    ensures forall i :: 2 <= i < |states[k].c2s.log| ==> states[k].c2s.log[i].frame != EofFrame
    ensures states[k].srv.wiring == Pipes ==> states[k].feed.pump != FeedEnded(EofSeen)
  {
    hide IsSession, LinkInv, Roles, ServerOk, ClientOk, ShowOk, FeedOk, StreamOf;
    Parts(c, states, steps, k);
    var s := states[k];
    forall i | 2 <= i < |s.c2s.log| ensures s.c2s.log[i].frame != EofFrame {
      if s.c2s.log[i].frame == EofFrame {
        LoggedEof(c, s, i);
      }
    }
    hide Refusing;
    if s.srv.wiring == Pipes {
      PipeFed(c, s);
      ReaderInOrder(s.c2s, c.toServer);
    }
  }

  // ----- a terminal -----

  /** The PTY has the size of the last well-formed resize frame received since
      the connection was made. */
  lemma TerminalSize(c: Config, states: seq<State>, steps: seq<Step>, k: nat)
    requires IsSession(c, states, steps) && k < |states| && states[k].srv.wiring == Tty
    ensures forall i :: LastResize(states[k].c2s.delivered, i) ==>
      states[k].feed.size == AsResize(states[k].c2s.delivered[i]).value
    ensures exists i :: LastResize(states[k].c2s.delivered, i)
  {
    hide IsSession, LinkInv, Roles, ServerOk, ClientOk, ShowOk, FeedOk, LastResize, AsResize;
    Parts(c, states, steps, k);
    SizeReceived(c, states[k]);
  }

  lemma SizeReceived(c: Config, s: State)
    requires FeedOk(c, s) && s.srv.wiring == Tty
    ensures forall i :: LastResize(s.c2s.delivered, i) ==> s.feed.size == AsResize(s.c2s.delivered[i]).value
    ensures exists i :: LastResize(s.c2s.delivered, i)
  {
    var got := s.c2s.delivered;
    WiringIsFlag(c, s);
    TtyFed(c, s);
    OpeningTypes(c);
    hide FeedOk, FeedAll, ReplyOf, SizeOf, AsResize;
    var st, fs := FeedStart(c), got[2..];
    SizeIsLastResize(st, fs);
    forall i | LastResize(got, i) ensures s.feed.size == AsResize(got[i]).value {
      if i >= 2 {
        assert fs[i - 2] == got[i];
        assert forall j :: i - 2 < j < |fs| ==> fs[j] == got[j + 2];
        assert LastResize(fs, i - 2);
      } else {
        assert forall j :: 0 <= j < |fs| ==> fs[j] == got[j + 2];
      }
    }
    var i := LastOf(got, 1);
  }

  /** Some resize is the last one. */
  lemma LastOf(fs: seq<Frame>, k: nat) returns (i: nat)
    requires k < |fs| && AsResize(fs[k]).Some?
    ensures LastResize(fs, i)
  {
    hide AsResize;
    i := |fs| - 1;
    while AsResize(fs[i]).None?
      invariant k <= i < |fs|
      invariant forall j :: i < j < |fs| ==> AsResize(fs[j]).None?
      decreases i
    {
      i := i - 1;
    }
  }

  /** The state of the terminal pump. */
  lemma TtyFed(c: Config, s: State)
    requires FeedOk(c, s) && s.srv.wiring == Tty
    ensures c.tty && |s.c2s.delivered| >= 2
    ensures s.c2s.delivered[0] == ReplyOf(c) && s.c2s.delivered[1] == SizeOf(c)
    ensures var r := FeedAll(Tty, FeedStart(c), PumpFrames(s));
      && s.feed.lineStart == r.lineStart && s.feed.size == r.size
      && (s.feed.pump.FeedReading? ==> s.feed.fed == r.bytes)
      && s.feed.fed <= r.bytes
  {
    hide FeedAll, StdinUse, ReplyOf, SizeOf;
    assert Wired(c.tty) == Tty;
  }

  /** Payloads of a plain stream are plain. */
  lemma {:induction false} PlainPayloads(fs: seq<Frame>, i: nat)
    requires Plain(StreamOf(Stdin, fs)) && i < |fs| && fs[i].ty == Stdin
    ensures Plain(fs[i].payload)
  {
    var init, f := fs[..|fs| - 1], fs[|fs| - 1];
    var s, p := StreamOf(Stdin, init), if f.ty == Stdin then f.payload else [];
    assert StreamOf(Stdin, fs) == s + p;
    assert Plain(s) by {
      assert forall j :: 0 <= j < |s| ==> s[j] == (s + p)[j];
    }
    if i < |fs| - 1 {
      PlainPayloads(init, i);
    } else {
      assert forall j :: 0 <= j < |p| ==> p[j] == (s + p)[|s| + j];
    }
  }

  lemma {:induction false} NoStdinNoBytes(st: FeedState, fs: seq<Frame>)
    requires forall j :: 0 <= j < |fs| ==> fs[j].ty != Stdin
    ensures FeedAll(Tty, st, fs).bytes == st.bytes && FeedAll(Tty, st, fs).lineStart == st.lineStart
  {
    if fs != [] {
      NoStdinNoBytes(st, fs[..|fs| - 1]);
    }
  }

  /** Stdin over a terminal, in every interleaving: once the end-of-file frame of
      a plain text has gone through the pump, the terminal holds for the command
      the whole filtered text, line by line with carriage returns as newlines,
      and then exactly one end of file; and however the command reads, that is
      what it gets. */
  lemma StdinOverTerminal(c: Config, states: seq<State>, steps: seq<Step>, k: nat, i: nat, sizes: seq<nat>)
    requires IsSession(c, states, steps) && k < |states|
    requires states[k].srv.wiring == Tty && states[k].feed.pump.FeedReading?
    requires 2 <= i < |states[k].c2s.delivered| && states[k].c2s.delivered[i] == EofFrame
    requires Plain(Forwarded(states[k]))
    requires forall j :: 0 <= j < |sizes| ==> sizes[j] > 0
    ensures var t := CanonAll(NothingTyped, states[k].feed.fed); var text := Mapped(Forwarded(states[k]));
      && t.line == [] && t.ready != [] && t.ready[|t.ready| - 1] == []
      && NoneEmpty(t.ready[..|t.ready| - 1]) && Flat(t.ready[..|t.ready| - 1]) == text
      && var r := Reads(t.ready, sizes);
         && Flat(r) <= text
         && (forall j :: 0 <= j < |r| && r[j] == [] ==> j == |r| - 1 && Flat(r) == text)
         && (|sizes| > |text| ==> r != [] && r[|r| - 1] == [])
  {
    hide IsSession, LinkInv, Roles, ServerOk, ClientOk, ShowOk, FeedOk, StreamOf, Forwarded, Plain, CanonAll, Flat,
         Mapped, Reads, NoneEmpty;
    Parts(c, states, steps, k);
    var s := states[k];
    TerminalText(c, s, i);
    TtyFed(c, s);
    var t := CanonAll(NothingTyped, s.feed.fed);
    EofReadOnce(t.ready[..|t.ready| - 1], sizes);
    assert t.ready[..|t.ready| - 1] + [[]] == t.ready;
  }

  /** All that the frames received call for. */
  function Due(c: Config, s: State): seq<Byte> {
    FeedAll(Tty, FeedStart(c), PumpFrames(s)).bytes
  }

  lemma TerminalText(c: Config, s: State, i: nat)
    requires LinkInv(s.c2s, c.toServer) && ClientOk(c, s) && FeedOk(c, s)
    requires s.srv.wiring == Tty
    requires 2 <= i < |s.c2s.delivered| && s.c2s.delivered[i] == EofFrame
    requires Plain(Forwarded(s))
    ensures var t := CanonAll(NothingTyped, Due(c, s));
      && t.line == [] && t.ready != [] && t.ready[|t.ready| - 1] == []
      && NoneEmpty(t.ready[..|t.ready| - 1]) && Flat(t.ready[..|t.ready| - 1]) == Mapped(Forwarded(s))
  {
    hide LinkInv, ClientOk, FeedOk, StreamOf, Forwarded, CanonAll, Flat, Mapped, NoneEmpty, FeedAll, Plain;
    var st, got, fs := FeedStart(c), s.c2s.delivered, PumpFrames(s);
    TtyFed(c, s);
    PumpStream(c, s);
    EofClosesStream(c, s, i);
    var text, rest := fs[..i - 2], fs[i - 1..];
    assert fs == (text + [EofFrame]) + rest by {
      assert fs[i - 2] == got[i];
    }
    FeedConcat(Tty, st, text + [EofFrame], rest);
    NoStdinNoBytes(FeedAll(Tty, st, text + [EofFrame]), rest);
    TextTyped(c, s, i);
    OneEof(st, text);
  }

  /** The frames before the end-of-file frame hold no other and carry all of the
      filtered input. */
  lemma TextBefore(c: Config, s: State, i: nat)
    requires LinkInv(s.c2s, c.toServer) && ClientOk(c, s) && FeedOk(c, s) && s.srv.wiring == Tty
    requires 2 <= i < |s.c2s.delivered| && s.c2s.delivered[i] == EofFrame
    ensures var text := PumpFrames(s)[..i - 2];
      && (forall j :: 0 <= j < |text| && text[j].ty == Stdin ==> text[j].payload != [])
      && StreamOf(Stdin, text) == Forwarded(s)
  {
    hide LinkInv, ClientOk, FeedOk, StreamOf, Forwarded, ReplyOf, SizeOf;
    var got, text := s.c2s.delivered, PumpFrames(s)[..i - 2];
    EofClosesStream(c, s, i);
    TtyFed(c, s);
    OpeningTypes(c);
    StreamConcat(Stdin, got[..2], text);
    assert got[..2] + text == got[..i];
    StreamAbsent(Stdin, got[..2]);
    NoTail(StreamOf(Stdin, text));
    ReaderInOrder(s.c2s, c.toServer);
    forall j | 0 <= j < |text| && text[j].ty == Stdin ensures text[j].payload != [] {
      if text[j].payload == [] {
        assert s.c2s.log[j + 2].frame == got[j + 2] == EofFrame;
        assert s.c2s.log[i].frame == got[i];
        LoggedEof(c, s, j + 2);
      }
    }
  }

  /** If the input is plain, they are typed text. */
  lemma TextTyped(c: Config, s: State, i: nat)
    requires LinkInv(s.c2s, c.toServer) && ClientOk(c, s) && FeedOk(c, s) && s.srv.wiring == Tty
    requires 2 <= i < |s.c2s.delivered| && s.c2s.delivered[i] == EofFrame
    requires Plain(Forwarded(s))
    ensures Typed(PumpFrames(s)[..i - 2])
    ensures StreamOf(Stdin, PumpFrames(s)[..i - 2]) == Forwarded(s)
  {
    hide LinkInv, ClientOk, FeedOk, StreamOf, Forwarded, Plain;
    var text := PumpFrames(s)[..i - 2];
    TextBefore(c, s, i);
    forall j | 0 <= j < |text| && text[j].ty == Stdin ensures text[j].payload != [] && Plain(text[j].payload) {
      PlainPayloads(text, j);
    }
  }

  /** Before the end-of-file frame the pump's flag is right: it says line start
      exactly when the terminal has no partial line, in every run and for every
      plain text. */
  lemma FlagInSession(c: Config, states: seq<State>, steps: seq<Step>, k: nat)
    requires IsSession(c, states, steps) && k < |states|
    requires states[k].srv.wiring == Tty && states[k].feed.pump.FeedReading?
    requires EofFrame !in states[k].c2s.delivered
    requires Plain(StreamOf(Stdin, states[k].c2s.delivered))
    ensures var t := CanonAll(NothingTyped, states[k].feed.fed);
      && (states[k].feed.lineStart <==> t.line == [])
      && NoneEmpty(t.ready)
      && Flat(t.ready) + t.line == Mapped(StreamOf(Stdin, states[k].c2s.delivered))
  {
    hide IsSession, LinkInv, Roles, ServerOk, ClientOk, ShowOk, FeedOk, StreamOf, Plain, CanonAll, Flat, Mapped,
         NoneEmpty, FeedAll;
    Parts(c, states, steps, k);
    TtyFed(c, states[k]);
    TextSoFar(c, states[k]);
  }

  // ----- the terminal at every byte -----

  /** With no end-of-file frame received, the frames are typed text. */
  lemma TextSoFar(c: Config, s: State)
    requires FeedOk(c, s) && s.srv.wiring == Tty && EofFrame !in PumpFrames(s)
    requires Plain(StreamOf(Stdin, s.c2s.delivered))
    ensures var t := CanonAll(NothingTyped, Due(c, s));
      && (FeedAll(Tty, FeedStart(c), PumpFrames(s)).lineStart <==> t.line == [])
      && NoneEmpty(t.ready)
      && Flat(t.ready) + t.line == Mapped(StreamOf(Stdin, s.c2s.delivered))
  {
    hide FeedOk, StreamOf, Plain, CanonAll, Flat, Mapped, NoneEmpty, FeedAll;
    PumpStream(c, s);
    var fs := PumpFrames(s);
    forall i | 0 <= i < |fs| && fs[i].ty == Stdin ensures fs[i].payload != [] && Plain(fs[i].payload) {
      PlainPayloads(fs, i);
      assert fs[i] in fs;
    }
    FlagAgrees(FeedStart(c), fs);
  }

  /** All that was ever ready in the terminal: parts of the text, with an end of
      file only behind all of it. */
  ghost predicate TextReady(rs: seq<seq<Byte>>, text: seq<Byte>, ended: bool) {
    OneEnd(rs) && Flat(rs) <= text && (EndsEmpty(rs) ==> Flat(rs) == text && ended)
  }

  lemma TextReadyPrefix(rs: seq<seq<Byte>>, qs: seq<seq<Byte>>, text: seq<Byte>, ended: bool)
    requires rs <= qs && TextReady(qs, text, ended)
    ensures TextReady(rs, text, ended)
  {
    hide Flat;
    FlatPrefix(rs, qs);
    assert forall i :: 0 <= i < |rs| ==> rs[i] == qs[i];
    assert |rs| == |qs| ==> rs == qs;
  }

  predicate StdinEnded(s: State) {
    s.keys.mode == KeysEof || s.keys.mode == KeysEnded(AtEof)
  }

  lemma DueReady(c: Config, s: State)
    requires LinkInv(s.c2s, c.toServer) && ClientOk(c, s) && FeedOk(c, s)
    requires s.srv.wiring == Tty && Plain(Forwarded(s))
    ensures TextReady(CanonAll(NothingTyped, Due(c, s)).ready, Mapped(Forwarded(s)), StdinEnded(s))
  {
    hide LinkInv, ClientOk, FeedOk, StreamOf, Forwarded, CanonAll, Flat, FeedAll, Due;
    PumpStream(c, s);
    var t, got := CanonAll(NothingTyped, Due(c, s)), s.c2s.delivered;
    if EofFrame in PumpFrames(s) {
      var i :| 0 <= i < |PumpFrames(s)| && PumpFrames(s)[i] == EofFrame;
      assert got[i + 2] == EofFrame;
      TerminalText(c, s, i + 2);
      EofClosesStream(c, s, i + 2);
      var lines := t.ready[..|t.ready| - 1];
      assert t.ready == lines + [[]];
      FlatSnoc(lines, []);
      NoTail(Flat(lines));
    } else {
      ReceivedPrefix(c, s);
      TextSoFar(c, s);
      assert Mapped(StreamOf(Stdin, got)) <= Mapped(Forwarded(s));
    }
  }

  lemma FedReady(c: Config, s: State)
    requires LinkInv(s.c2s, c.toServer) && ClientOk(c, s) && FeedOk(c, s)
    requires s.srv.wiring == Tty && Plain(Forwarded(s))
    ensures TextReady(CanonAll(NothingTyped, s.feed.fed).ready, Mapped(Forwarded(s)), StdinEnded(s))
  {
    hide LinkInv, ClientOk, FeedOk, Forwarded, CanonAll, FeedAll, TextReady, Plain, Mapped, PumpFrames, FeedStart,
         StdinEnded, ReplyOf, SizeOf;
    DueReady(c, s);
    TtyFed(c, s);
    var rest := Due(c, s)[|s.feed.fed|..];
    SplitAt(Due(c, s), |s.feed.fed|);
    assert Due(c, s)[..|s.feed.fed|] == s.feed.fed;
    ReadyGrows(NothingTyped, s.feed.fed, rest);
    TextReadyPrefix(CanonAll(NothingTyped, s.feed.fed).ready, CanonAll(NothingTyped, Due(c, s)).ready,
                    Mapped(Forwarded(s)), StdinEnded(s));
  }

  /** The command at the terminal, in every state of every run, between any two
      bytes and whatever became of the pump: however its reads were interleaved
      with the arrival of the bytes, it has got a prefix of the filtered text,
      and a zero-length read only as the last one, after all of the text, and
      because stdin really ended. */
  lemma TerminalReads(c: Config, states: seq<State>, steps: seq<Step>, k: nat, events: seq<TtyEvent>)
    requires IsSession(c, states, steps) && k < |states| && states[k].srv.wiring == Tty
    requires Plain(Forwarded(states[k])) && Arrived(events) == states[k].feed.fed
    ensures var got := Exchanged(events).got; var text := Mapped(Forwarded(states[k]));
      && Flat(got) <= text
      && forall j :: 0 <= j < |got| && got[j] == [] ==>
           j == |got| - 1 && Flat(got) == text && StdinEnded(states[k])
  {
    hide IsSession, LinkInv, Roles, ServerOk, ClientOk, ShowOk, FeedOk, Forwarded, Plain, CanonAll, Flat,
         Mapped, Exchanged, Arrived, StdinEnded;
    Parts(c, states, steps, k);
    FedReady(c, states[k]);
    ReadsOnTheWay(events);
    FlatNil();
    NoTail(Flat(Exchanged(events).got));
  }

  lemma FlatNil()
    ensures Flat([]) == []
  {
  }
}
