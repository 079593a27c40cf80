/** The size of the user's terminal on its way to the PTY of the command: every
    size reported goes out as it was reported, in order, and the PTY has the last
    one that arrived. */
module WindowSize {
  import opened Wire
  import opened Link
  import opened Feed
  import opened Session
  import opened ServerInv
  import opened ClientInv
  import opened ShowInv
  import opened FeedInv
  import opened SessionInv
  import opened StdinDelivery
  import opened InputProgress

  // ----- sizes reported and sizes sent -----

  /** The size that a step of the resize loop gets from the terminal. */
  function StepSizes(step: Step): seq<(U16, U16)> {
    if step.OfInput? && step.inp.Resized? then [(step.inp.cols, step.inp.rows)] else []
  }

  function SizesReported(steps: seq<Step>): seq<(U16, U16)> {
    if steps == [] then [] else SizesReported(steps[..|steps| - 1]) + StepSizes(steps[|steps| - 1])
  }

  /** The sizes in the well-formed resize frames. */
  function FrameSizes(fs: seq<Frame>): seq<(U16, U16)> {
    if fs == [] then []
    else
      var size := AsResize(fs[|fs| - 1]);
      FrameSizes(fs[..|fs| - 1]) + (if size.Some? then [size.value] else [])
  }

  lemma SizesSnoc(fs: seq<Frame>, f: Frame)
    ensures FrameSizes(fs + [f]) == FrameSizes(fs) + (if AsResize(f).Some? then [AsResize(f).value] else [])
  {
    assert (fs + [f])[..|fs|] == fs;
  }

  lemma {:induction false} SizesPrefix(a: seq<Frame>, b: seq<Frame>)
    requires a <= b
    ensures FrameSizes(a) <= FrameSizes(b)
  {
    if |a| < |b| {
      SizesPrefix(a, b[..|b| - 1]);
    } else {
      assert a == b;
    }
  }

  lemma {:induction false} LastSize(fs: seq<Frame>, i: nat)
    requires LastResize(fs, i)
    ensures FrameSizes(fs) != [] && FrameSizes(fs)[|FrameSizes(fs)| - 1] == AsResize(fs[i]).value
  {
    hide AsResize;
    var init := fs[..|fs| - 1];
    if i < |fs| - 1 {
      assert LastResize(init, i);
      LastSize(init, i);
    }
  }

  // ----- what the resize loop submits -----

  lemma AskedAfter(l: Link, cap: nat, op: Op, w: Writer)
    requires Can(l, cap, op) && op != Refuse(w)
    ensures AskedBy(Do(l, cap, op), w) == AskedBy(l, w) + (if op.Submit? && op.w == w then [op.f] else [])
  {
    hide FrameOf, Header, NextByte;
    NoTail(AskedBy(l, w));
  }

  lemma InputAsks(c: Config, s: State, x: InputStep)
    requires InputCan(c, s, x)
    ensures FrameSizes(AskedBy(InputDo(c, s, x).c2s, Resizer)) ==
            FrameSizes(AskedBy(s.c2s, Resizer)) + StepSizes(OfInput(x))
  {
    hide Do, Filtered, FrameSizes, ResizeFrame;
    var asked := AskedBy(s.c2s, Resizer);
    NoTail(asked);
    NoTail(FrameSizes(asked));
    match x {
      case Type(chunk) =>
        if Filtered(s.keys, chunk).out != [] {
          AskedAfter(s.c2s, c.toServer, Submit(InLoop, Frame(Stdin, Filtered(s.keys, chunk).out)), Resizer);
        }
      case TypeSent => AskedAfter(s.c2s, c.toServer, Release(InLoop), Resizer);
      case TypeRefused => AskedAfter(s.c2s, c.toServer, Refuse(InLoop), Resizer);
      case TypeEof => AskedAfter(s.c2s, c.toServer, Submit(InLoop, EofFrame), Resizer);
      case TypeEofSent => AskedAfter(s.c2s, c.toServer, Release(InLoop), Resizer);
      case Resized(cols, rows) => ResizedAsks(c, s, cols, rows);
      case ResizedSent => AskedAfter(s.c2s, c.toServer, Release(Resizer), Resizer);
      case _ =>
    }
  }

  lemma ResizedAsks(c: Config, s: State, cols: U16, rows: U16)
    requires InputCan(c, s, Resized(cols, rows))
    ensures FrameSizes(AskedBy(InputDo(c, s, Resized(cols, rows)).c2s, Resizer)) ==
            FrameSizes(AskedBy(s.c2s, Resizer)) + [(cols, rows)]
  {
    hide Do, FrameSizes;
    AskedAfter(s.c2s, c.toServer, Submit(Resizer, ResizeFrame(cols, rows)), Resizer);
    ControlRoundTrips(cols, rows, true);
    SizesSnoc(AskedBy(s.c2s, Resizer), ResizeFrame(cols, rows));
  }

  lemma OthersAsk(c: Config, s: State, step: Step)
    requires Enabled(c, s, step) && !step.OfInput?
    ensures AskedBy(After(c, s, step).c2s, Resizer) == AskedBy(s.c2s, Resizer)
  {
    hide Do, FrameOf, FeedNext, AsResize, AsStartReply, AsExit, ExitCode, AskedBy, NeedMore, Complete, ReadBytes;
    var asked := AskedBy(s.c2s, Resizer);
    NoTail(asked);
    if step == OfServer(STake) || step == OfFeeder(FeedTake) {
      AskedAfter(s.c2s, c.toServer, Take, Resizer);
    } else if step.OfServer? || step.OfFeeder? {
      if Can(s.c2s, c.toServer, Deliver) {
        AskedAfter(s.c2s, c.toServer, Deliver, Resizer);
      }
    } else if step.OfClient? {
      ClientAsks(c, s, step.cli);
    }
  }

  lemma ClientAsks(c: Config, s: State, x: ClientStep)
    requires ClientCan(c, s, x)
    ensures AskedBy(ClientDo(c, s, x).c2s, Resizer) == AskedBy(s.c2s, Resizer)
  {
    hide Do, FrameOf, AsExit, AskedBy, NeedMore, Complete;
    NoTail(AskedBy(s.c2s, Resizer));
    match x {
      case CWrite(op) => AskedAfter(s.c2s, c.toServer, op, Resizer);
      case GotStart => AskedAfter(s.c2s, c.toServer, Submit(Main, StartReplyFrame(c.tty)), Resizer);
      case ReplySent => ReplyAsks(c, s);
      case SizeSent => AskedAfter(s.c2s, c.toServer, Release(Main), Resizer);
      case _ =>
    }
  }

  lemma ReplyAsks(c: Config, s: State)
    requires ClientCan(c, s, ReplySent)
    ensures AskedBy(ClientDo(c, s, ReplySent).c2s, Resizer) == AskedBy(s.c2s, Resizer)
  {
    hide ResizeFrame;
    var m := Do(s.c2s, c.toServer, Release(Main));
    NoTail(AskedBy(s.c2s, Resizer));
    AskedAfter(s.c2s, c.toServer, Release(Main), Resizer);
    AskedAfter(m, c.toServer, Submit(Main, ResizeFrame(c.cols, c.rows)), Resizer);
  }

  /** In every run the resize loop has submitted the sizes that were reported, as
      they were reported and in order. */
  lemma {:induction false} SizesSubmitted(c: Config, states: seq<State>, steps: seq<Step>, k: nat)
    requires IsSession(c, states, steps) && k < |states|
    ensures FrameSizes(AskedBy(states[k].c2s, Resizer)) == SizesReported(steps[..k])
  {
    hide Enabled, After, FrameSizes, AskedBy, StepSizes;
    if k == 0 {
      NothingAsked(c);
    } else {
      SizesSubmitted(c, states, steps, k - 1);
      var s, step := states[k - 1], steps[k - 1];
      assert Enabled(c, s, step) && states[k - 1 + 1] == After(c, s, step);
      assert steps[..k][..k - 1] == steps[..k - 1];
      if step.OfInput? {
        InputSizes(c, s, step);
      } else {
        OthersAsk(c, s, step);
        NoSizes(step);
        NoTail(SizesReported(steps[..k - 1]));
      }
    }
  }

  lemma InputSizes(c: Config, s: State, step: Step)
    requires Enabled(c, s, step) && step.OfInput?
    ensures FrameSizes(AskedBy(After(c, s, step).c2s, Resizer)) ==
            FrameSizes(AskedBy(s.c2s, Resizer)) + StepSizes(step)
  {
    hide InputCan, InputDo, FrameSizes;
    InputAsks(c, s, step.inp);
  }

  lemma NoSizes(step: Step)
    ensures !step.OfInput? ==> StepSizes(step) == []
  {
  }

  lemma NothingAsked(c: Config)
    ensures FrameSizes(AskedBy(Init(c).c2s, Resizer)) == []
  {
  }

  // ----- from the log to the PTY -----

  /** The frames of a client after its opening. */
  predicate ClientLog(c: Config, log: seq<Sent>) {
    && (|log| > 0 ==> log[0] == Sent(Main, ReplyOf(c)))
    && (|log| > 1 ==> log[1] == Sent(Main, SizeOf(c)))
    && forall i :: 2 <= i < |log| ==>
         (log[i].who == Resizer && IsResize(log[i].frame)) || (log[i].who == InLoop && log[i].frame.ty == Stdin)
  }

  lemma LogOf(c: Config, s: State)
    requires ClientOk(c, s)
    ensures ClientLog(c, s.c2s.log)
  {
    OpeningFirst(c, s);
    hide Opening, LoopJobs, EofLogged, Input, EofBegun, IsResize, ReplyOf, SizeOf;
    var log := s.c2s.log;
    forall i | 2 <= i < |log|
      ensures (log[i].who == Resizer && IsResize(log[i].frame)) || (log[i].who == InLoop && log[i].frame.ty == Stdin)
    {
      assert ClientInv.Entry(s.keys, JobOf(s.c2s, InLoop), log, i);
    }
  }

  /** Which frames of the log carry sizes. */
  lemma SizeAt(c: Config, log: seq<Sent>, i: nat)
    requires ClientLog(c, log) && i < |log|
    ensures i == 0 ==> AsResize(log[i].frame) == None && log[i].who == Main
    ensures i == 1 ==> AsResize(log[i].frame) == Some((c.cols, c.rows)) && log[i].who == Main
    ensures i >= 2 ==> (AsResize(log[i].frame).Some? <==> log[i].who == Resizer)
  {
    OpeningTypes(c);
    OnlyResizes(log[i].frame);
    hide AsResize, ReplyOf, SizeOf;
  }

  lemma OnlyResizes(f: Frame)
    ensures AsResize(f).Some? ==> f.ty == Resize
  {
  }

  lemma InitLog(c: Config, log: seq<Sent>)
    requires ClientLog(c, log) && log != []
    ensures ClientLog(c, log[..|log| - 1])
  {
    hide ReplyOf, SizeOf, IsResize;
  }

  /** The sizes in the log are the one of the opening and those of the resize
      loop. */
  lemma {:induction false} LoggedSizes(c: Config, log: seq<Sent>)
    requires ClientLog(c, log)
    ensures FrameSizes(Frames(log)) ==
            (if |log| > 1 then [(c.cols, c.rows)] else []) + FrameSizes(ByWriter(log, Resizer))
  {
    hide FrameSizes, ByWriter, AsResize, ClientLog, Frames;
    if log == [] {
      NothingLogged();
    } else {
      var init, last := log[..|log| - 1], log[|log| - 1];
      InitLog(c, log);
      LoggedSizes(c, init);
      SizeAt(c, log, |init|);
      assert log == init + [last];
      MoreLogged(init, last);
      NothingLogged();
      if |log| > 2 {
        Assoc([(c.cols, c.rows)], FrameSizes(ByWriter(init, Resizer)),
              if AsResize(last.frame).Some? then [AsResize(last.frame).value] else []);
      } else if |log| == 2 {
        SizeAt(c, log, 0);
        MoreLogged([], log[0]);
        assert init == [] + [log[0]];
      }
    }
  }

  lemma NothingLogged()
    ensures Frames([]) == [] && ByWriter([], Resizer) == [] && FrameSizes([]) == []
  {
  }

  lemma MoreLogged(log: seq<Sent>, s: Sent)
    ensures var more := if AsResize(s.frame).Some? then [AsResize(s.frame).value] else [];
      && FrameSizes(Frames(log + [s])) == FrameSizes(Frames(log)) + more
      && FrameSizes(ByWriter(log + [s], Resizer)) ==
         FrameSizes(ByWriter(log, Resizer)) + (if s.who == Resizer then more else [])
  {
    hide FrameSizes, ByWriter, AsResize, Frames;
    FramesSnoc(log, s);
    SizesSnoc(Frames(log), s.frame);
    ByWriterSnoc(log, s, Resizer);
    SizesSnoc(ByWriter(log, Resizer), s.frame);
    NoTail(ByWriter(log, Resizer));
    NoTail(FrameSizes(ByWriter(log, Resizer)));
  }

  /** All sizes there are: the first one and those reported since. */
  function AllSizes(c: Config, steps: seq<Step>): seq<(U16, U16)> {
    [(c.cols, c.rows)] + SizesReported(steps)
  }

  lemma SizesArrived(c: Config, s: State, reported: seq<(U16, U16)>)
    requires LinkInv(s.c2s, c.toServer) && ClientOk(c, s) && |s.c2s.delivered| >= 2
    requires FrameSizes(AskedBy(s.c2s, Resizer)) == reported
    ensures FrameSizes(s.c2s.delivered) <= [(c.cols, c.rows)] + reported
    ensures s.c2s.delivered == Frames(s.c2s.log) && JobOf(s.c2s, Resizer) == Off ==>
      FrameSizes(s.c2s.delivered) == [(c.cols, c.rows)] + reported
  {
    hide ClientOk, FrameSizes, ByWriter, JobOf, Mutex, Writers, Bytes, Reader, InSync, Frames, AskedBy, ClientLog;
    LogOf(c, s);
    LoggedSizes(c, s.c2s.log);
    ReaderInOrder(s.c2s, c.toServer);
    SizesPrefix(s.c2s.delivered, Frames(s.c2s.log));
    var sent := ByWriter(s.c2s.log, Resizer);
    assert AskedBy(s.c2s, Resizer) == sent + Pending(PcOf(s.c2s, Resizer));
    SizesPrefix(sent, AskedBy(s.c2s, Resizer));
    NoTail(sent);
    if JobOf(s.c2s, Resizer) == Off {
      LoopIdle(s.c2s);
    }
  }

  lemma LoopIdle(l: Link)
    requires JobOf(l, Resizer) == Off
    ensures Pending(PcOf(l, Resizer)) == []
  {
  }

  /** The PTY has the last size that arrived, and what has arrived is, in order,
      the first size and those the user's terminal reported since. */
  lemma PtySize(c: Config, states: seq<State>, steps: seq<Step>, k: nat)
    requires IsSession(c, states, steps) && k < |states| && states[k].srv.wiring == Tty
    ensures var got := FrameSizes(states[k].c2s.delivered);
      got != [] && got <= AllSizes(c, steps[..k]) && states[k].feed.size == got[|got| - 1]
  {
    hide LinkInv, Roles, ServerOk, ClientOk, ShowOk, FeedOk, FrameSizes, AsResize, AskedBy, SizesReported,
         LastResize;
    Parts(c, states, steps, k);
    var s := states[k];
    SizesSubmitted(c, states, steps, k);
    TtyFed(c, s);
    SizesArrived(c, s, SizesReported(steps[..k]));
    TerminalSize(c, states, steps, k);
    var i :| LastResize(s.c2s.delivered, i);
    LastInBounds(s.c2s.delivered, i);
    LastSize(s.c2s.delivered, i);
  }

  lemma LastInBounds(fs: seq<Frame>, i: int)
    requires LastResize(fs, i)
    ensures 0 <= i < |fs|
  {
  }

  /** Once everything has arrived, that is the size reported last. */
  lemma LatestSize(c: Config, states: seq<State>, steps: seq<Step>, k: nat)
    requires IsSession(c, states, steps) && k < |states| && states[k].srv.wiring == Tty
    requires Running(states[k]) && Settled(states[k])
    ensures var all := AllSizes(c, steps[..k]); states[k].feed.size == all[|all| - 1]
  {
    hide LinkInv, Roles, ServerOk, ClientOk, ShowOk, FeedOk, FrameSizes, AskedBy, SizesReported, Running, JobOf;
    Parts(c, states, steps, k);
    var s := states[k];
    PumpState(c, s);
    TtyFed(c, s);
    SizesSubmitted(c, states, steps, k);
    SizesArrived(c, s, SizesReported(steps[..k]));
    PtySize(c, states, steps, k);
  }
}
