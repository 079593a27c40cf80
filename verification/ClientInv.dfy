/** What holds between the client's threads, the bytes the user typed and the
    frames on their way to the server, in every reachable state. */
module ClientInv {
  import opened Wire
  import opened Link
  import opened Escape
  import opened Session

  function ReplyOf(c: Config): Frame {
    StartReplyFrame(c.tty)
  }

  function SizeOf(c: Config): Frame {
    ResizeFrame(c.cols, c.rows)
  }

  /** The opening: the reply, then the size, then nothing from the main thread. */
  predicate Opening(c: Config, main: ClientMain, log: seq<Sent>, jm: Job) {
    match main
    case AwaitStart => jm == Off && log == []
    case SendReply =>
      jm != Off && jm.f == ReplyOf(c) && log == (if jm.Asked? then [] else [Sent(Main, ReplyOf(c))])
    case SendSize =>
      && jm != Off && jm.f == SizeOf(c)
      && log == [Sent(Main, ReplyOf(c))] + (if jm.Asked? then [] else [Sent(Main, SizeOf(c))])
    case Serving =>
      && jm == Off && |log| >= 2
      && log[0] == Sent(Main, ReplyOf(c)) && log[1] == Sent(Main, SizeOf(c))
    case ClientPanic => false
  }

  predicate IsResize(f: Frame) {
    AsResize(f).Some?
  }

  /** What the input and resize loops are sending. */
  predicate LoopJobs(main: ClientMain, keys: Keyboard, winch: Winch, ji: Job, jr: Job) {
    && (!main.Serving? ==> keys == Keyboard(KeysOff, false, []) && winch == WinchOff)
    && (match keys.mode
        case KeysSending(quit) =>
          && ji != Off && ji.f.ty == Stdin && 0 < |ji.f.payload| <= MAX_PAYLOAD + 1 && (quit ==> Fits(ji.f))
        case KeysEof => ji != Off && ji.f == EofFrame
        case _ => ji == Off)
    && (if winch == WinchSending then jr != Off && IsResize(jr.f) else jr == Off)
  }

  /** The end-of-file frame has been begun. */
  predicate EofBegun(keys: Keyboard, ji: Job) {
    (keys.mode == KeysEof && ji.Begun?) || keys.mode == KeysEnded(AtEof)
  }

  /** After the opening come stdin and resize frames; the empty stdin frame only
      after the end of the real stdin, with no stdin frame behind it. */
  predicate Entry(keys: Keyboard, ji: Job, log: seq<Sent>, i: nat)
    requires i < |log|
  {
    || (log[i].who == Resizer && IsResize(log[i].frame))
    || (log[i].who == InLoop && log[i].frame.ty == Stdin && log[i].frame.payload != [])
    || (log[i].who == InLoop && log[i].frame == EofFrame && EofBegun(keys, ji)
        && forall j :: i < j < |log| ==> log[j].frame.ty != Stdin)
  }

  predicate Trace(keys: Keyboard, ji: Job, log: seq<Sent>) {
    forall i :: 2 <= i < |log| ==> Entry(keys, ji, log, i)
  }

  predicate EofLogged(keys: Keyboard, ji: Job, log: seq<Sent>) {
    EofBegun(keys, ji) ==> exists i :: 2 <= i < |log| && log[i].frame == EofFrame
  }

  function AskedInput(j: Job): seq<Byte> {
    if j.Asked? && j.f.ty == Stdin then j.f.payload else []
  }

  /** The stdin frames carry the filtered input. Only a refused frame, which is
      one byte too large, breaks the equality, and it ends the loop. */
  predicate Input(keys: Keyboard, ji: Job, log: seq<Sent>) {
    var f := FilterFrom(Fresh, keys.typed);
    var sent := StreamOf(Stdin, Frames(log)) + AskedInput(ji);
    && (if keys.mode == KeysEnded(Refused) then sent <= f.out && |f.out| == |sent| + MAX_PAYLOAD + 1 else sent == f.out)
    && keys.escaped == f.escaped
    && (match keys.mode
        case KeysSending(quit) => quit == f.quit
        case KeysEnded(why) => why == Quit <==> f.quit
        case _ => !f.quit)
  }

  predicate ClientAll(c: Config, main: ClientMain, keys: Keyboard, winch: Winch, log: seq<Sent>,
                      jm: Job, ji: Job, jr: Job)
  {
    && Opening(c, main, log, jm)
    && LoopJobs(main, keys, winch, ji, jr)
    && Trace(keys, ji, log)
    && EofLogged(keys, ji, log)
    && Input(keys, ji, log)
  }

  predicate ClientOk(c: Config, s: State) {
    ClientAll(c, s.cli.main, s.keys, s.winch, s.c2s.log,
              JobOf(s.c2s, Main), JobOf(s.c2s, InLoop), JobOf(s.c2s, Resizer))
  }

  lemma ClientInit(c: Config)
    ensures ClientOk(c, Init(c))
  {
  }

  // ----- a submitted frame reaches the log -----

  lemma MainAccepted(c: Config, main: ClientMain, keys: Keyboard, winch: Winch, log: seq<Sent>,
                     jm: Job, ji: Job, jr: Job)
    requires ClientAll(c, main, keys, winch, log, jm, ji, jr) && jm.Asked?
    ensures ClientAll(c, main, keys, winch, log + [Sent(Main, jm.f)], Begun(jm.f), ji, jr)
  {
    hide ResizeFrame, StartReplyFrame, StreamOf, FilterFrom;
    FramesSnoc(log, Sent(Main, jm.f));
    StreamSnoc(Stdin, Frames(log), jm.f);
    assert jm.f.ty != Stdin by {
      OpeningTypes(c);
    }
    var s := StreamOf(Stdin, Frames(log));
    assert s + [] == s;
    if main.SendSize? {
      assert log + [Sent(Main, jm.f)] == [Sent(Main, ReplyOf(c))] + [Sent(Main, SizeOf(c))];
    }
  }

  lemma OpeningTypes(c: Config)
    ensures ReplyOf(c).ty == StartReply && SizeOf(c).ty == Resize
    ensures AsStartReply(ReplyOf(c)) == Some(c.tty)
    ensures AsResize(SizeOf(c)) == Some((c.cols, c.rows))
  {
    ControlRoundTrips(c.cols, c.rows, c.tty);
  }

  lemma ResizeAccepted(c: Config, main: ClientMain, keys: Keyboard, winch: Winch, log: seq<Sent>,
                       jm: Job, ji: Job, jr: Job)
    requires ClientAll(c, main, keys, winch, log, jm, ji, jr) && jr.Asked?
    ensures ClientAll(c, main, keys, winch, log + [Sent(Resizer, jr.f)], jm, ji, Begun(jr.f))
  {
    hide ResizeFrame, StartReplyFrame, StreamOf, FilterFrom;
    var log' := log + [Sent(Resizer, jr.f)];
    FramesSnoc(log, Sent(Resizer, jr.f));
    StreamSnoc(Stdin, Frames(log), jr.f);
    var s := StreamOf(Stdin, Frames(log));
    assert s + [] == s;
    forall i | 2 <= i < |log'| ensures Entry(keys, ji, log', i) {
      if i < |log| {
        assert Entry(keys, ji, log, i);
      }
    }
    assert forall i :: 0 <= i < |log| ==> log'[i] == log[i];
  }

  lemma InputAccepted(c: Config, main: ClientMain, keys: Keyboard, winch: Winch, log: seq<Sent>,
                      jm: Job, ji: Job, jr: Job)
    requires ClientAll(c, main, keys, winch, log, jm, ji, jr) && ji.Asked?
    ensures ClientAll(c, main, keys, winch, log + [Sent(InLoop, ji.f)], jm, Begun(ji.f), jr)
  {
    hide ResizeFrame, StartReplyFrame, StreamOf, FilterFrom, IsResize;
    var log' := log + [Sent(InLoop, ji.f)];
    FramesSnoc(log, Sent(InLoop, ji.f));
    StreamSnoc(Stdin, Frames(log), ji.f);
    var s := StreamOf(Stdin, Frames(log));
    assert (s + ji.f.payload) + [] == s + ji.f.payload;
    forall i | 2 <= i < |log'| ensures Entry(keys, Begun(ji.f), log', i) {
      if i < |log| {
        assert Entry(keys, ji, log, i);
      }
    }
    assert log'[|log|].frame == ji.f;
  }

  lemma CWriteKeeps(c: Config, s: State, op: Op)
    requires ClientOk(c, s) && ClientCan(c, s, CWrite(op))
    ensures ClientOk(c, ClientDo(c, s, CWrite(op)))
  {
    Effect(s.c2s, c.toServer, op);
    if op.Accept? {
      hide ClientAll, Do;
      var jm, ji, jr := JobOf(s.c2s, Main), JobOf(s.c2s, InLoop), JobOf(s.c2s, Resizer);
      match op.w {
        case Main => MainAccepted(c, s.cli.main, s.keys, s.winch, s.c2s.log, jm, ji, jr);
        case InLoop => InputAccepted(c, s.cli.main, s.keys, s.winch, s.c2s.log, jm, ji, jr);
        case Resizer => ResizeAccepted(c, s.cli.main, s.keys, s.winch, s.c2s.log, jm, ji, jr);
      }
    } else {
      hide ClientAll, Do;
    }
  }

  // ----- the client's steps -----

  lemma OpeningKeeps(c: Config, s: State, step: ClientStep)
    requires ClientOk(c, s) && ClientCan(c, s, step)
    requires step.GotStart? || step.ReplySent? || step.SizeSent?
    requires step.GotStart? ==> FrameOf(s.s2c.buf).ty == Start
    ensures ClientOk(c, ClientDo(c, s, step))
  {
    hide ResizeFrame, StartReplyFrame, StreamOf, FilterFrom, Entry, FrameOf;
    if step.GotStart? {
      Effect(s.c2s, c.toServer, Submit(Main, StartReplyFrame(c.tty)));
    } else {
      Effect(s.c2s, c.toServer, Release(Main));
      if step.ReplySent? {
        Effect(Do(s.c2s, c.toServer, Release(Main)), c.toServer, Submit(Main, ResizeFrame(c.cols, c.rows)));
      }
    }
    hide Do;
  }

  lemma ClientKeeps(c: Config, s: State, step: ClientStep)
    requires ClientOk(c, s) && ClientCan(c, s, step)
    requires step.GotStart? ==> FrameOf(s.s2c.buf).ty == Start
    requires !step.CLost?
    ensures ClientOk(c, ClientDo(c, s, step))
  {
    hide ClientOk, ClientCan, ClientDo;
    match step {
      case CWrite(op) => CWriteKeeps(c, s, op);
      case GotStart => OpeningKeeps(c, s, step);
      case ReplySent => OpeningKeeps(c, s, step);
      case SizeSent => OpeningKeeps(c, s, step);
      case _ => ReadingKeeps(c, s, step);
    }
  }

  /** The output loop does not concern the other direction. */
  lemma ReadingKeeps(c: Config, s: State, step: ClientStep)
    requires ClientOk(c, s) && ClientCan(c, s, step)
    requires !step.CWrite? && !step.GotStart? && !step.ReplySent? && !step.SizeSent? && !step.CLost?
    ensures ClientOk(c, ClientDo(c, s, step))
  {
    hide ClientAll, Do, FrameOf, AsExit, JobOf;
  }

  /** One read of the input loop continues the filter of everything typed. */
  lemma TypedMore(k: Keyboard, chunk: seq<Byte>)
    requires var f := FilterFrom(Fresh, k.typed); !f.quit && k.escaped == f.escaped
    ensures var f, r := FilterFrom(Fresh, k.typed), Filtered(k, chunk);
            FilterFrom(Fresh, k.typed + chunk) == Filter(f.out + r.out, r.escaped, r.quit)
  {
    ChunkInvariant(Fresh, k.typed, chunk);
    OutputAppends(FilterFrom(Fresh, k.typed).out, k.escaped, chunk);
  }

  lemma TypeKeeps(c: Config, s: State, chunk: seq<Byte>)
    requires ClientOk(c, s) && InputCan(c, s, Type(chunk))
    ensures ClientOk(c, InputDo(c, s, Type(chunk)))
  {
    hide StreamOf, FilterFrom, IsResize;
    TypedMore(s.keys, chunk);
    Sizes(s.keys.escaped, chunk);
    var r := Filtered(s.keys, chunk);
    hide Filtered;
    if r.out != [] {
      Effect(s.c2s, c.toServer, Submit(InLoop, Frame(Stdin, r.out)));
    }
    hide Do;
    var t := InputDo(c, s, Type(chunk));
    TraceStays(s.keys, t.keys, JobOf(s.c2s, InLoop), JobOf(t.c2s, InLoop), s.c2s.log);
    hide Trace;
    var sent := StreamOf(Stdin, Frames(s.c2s.log));
    assert sent + [] == sent;
  }

  /** The trace depends on the input loop only through the end of file. */
  lemma TraceStays(keys: Keyboard, keys': Keyboard, ji: Job, ji': Job, log: seq<Sent>)
    requires Trace(keys, ji, log)
    requires EofBegun(keys, ji) ==> EofBegun(keys', ji')
    ensures Trace(keys', ji', log)
  {
    forall i | 2 <= i < |log| ensures Entry(keys', ji', log, i) {
      assert Entry(keys, ji, log, i);
    }
  }

  lemma TypeSentKeeps(c: Config, s: State, step: InputStep)
    requires ClientOk(c, s) && InputCan(c, s, step) && (step.TypeSent? || step.TypeEofSent?)
    ensures ClientOk(c, InputDo(c, s, step))
  {
    hide StreamOf, FilterFrom, IsResize, Do, Can, JobOf, Opening, Trace;
    Effect(s.c2s, c.toServer, Release(InLoop));
    CanJob(s.c2s, c.toServer, Release(InLoop));
    var t := InputDo(c, s, step);
    TraceStays(s.keys, t.keys, JobOf(s.c2s, InLoop), JobOf(t.c2s, InLoop), s.c2s.log);
  }

  lemma TypeEofKeeps(c: Config, s: State)
    requires ClientOk(c, s) && InputCan(c, s, TypeEof)
    ensures ClientOk(c, InputDo(c, s, TypeEof))
  {
    hide StreamOf, FilterFrom, IsResize;
    Effect(s.c2s, c.toServer, Submit(InLoop, EofFrame));
    hide Do;
    var t := InputDo(c, s, TypeEof);
    TraceStays(s.keys, t.keys, JobOf(s.c2s, InLoop), JobOf(t.c2s, InLoop), s.c2s.log);
    hide Trace, JobOf;
  }

  lemma TypeFailKeeps(c: Config, s: State)
    requires ClientOk(c, s) && InputCan(c, s, TypeFail)
    ensures ClientOk(c, InputDo(c, s, TypeFail))
  {
    hide StreamOf, FilterFrom, IsResize;
    var t := InputDo(c, s, TypeFail);
    TraceStays(s.keys, t.keys, JobOf(s.c2s, InLoop), JobOf(t.c2s, InLoop), s.c2s.log);
    hide Trace, JobOf;
  }

  /** A refused frame is never begun: what was sent is then a prefix. */
  lemma TypeRefusedKeeps(c: Config, s: State)
    requires ClientOk(c, s) && InputCan(c, s, TypeRefused)
    ensures ClientOk(c, InputDo(c, s, TypeRefused))
  {
    hide StreamOf, FilterFrom, IsResize;
    Effect(s.c2s, c.toServer, Refuse(InLoop));
    hide Do;
    var t := InputDo(c, s, TypeRefused);
    TraceStays(s.keys, t.keys, JobOf(s.c2s, InLoop), JobOf(t.c2s, InLoop), s.c2s.log);
    hide Trace;
    var sent := StreamOf(Stdin, Frames(s.c2s.log));
    assert sent + [] == sent;
  }

  lemma ResizeKeeps(c: Config, s: State, step: InputStep)
    requires ClientOk(c, s) && InputCan(c, s, step)
    requires step.Resized? || step.ResizedSent? || step.ResizedEnd?
    ensures ClientOk(c, InputDo(c, s, step))
  {
    hide StreamOf, FilterFrom, ResizeFrame, Do, JobOf, Opening, Input, Trace, EofLogged;
    if step.Resized? {
      Effect(s.c2s, c.toServer, Submit(Resizer, ResizeFrame(step.cols, step.rows)));
      CanJob(s.c2s, c.toServer, Submit(Resizer, ResizeFrame(step.cols, step.rows)));
      ControlRoundTrips(step.cols, step.rows, true);
    } else if step.ResizedSent? {
      Effect(s.c2s, c.toServer, Release(Resizer));
    }
  }

  lemma InputKeeps(c: Config, s: State, step: InputStep)
    requires ClientOk(c, s) && InputCan(c, s, step)
    ensures ClientOk(c, InputDo(c, s, step))
  {
    hide ClientOk, InputCan, InputDo;
    match step {
      case Type(chunk) => TypeKeeps(c, s, chunk);
      case TypeRefused => TypeRefusedKeeps(c, s);
      case Resized(_, _) => ResizeKeeps(c, s, step);
      case ResizedSent => ResizeKeeps(c, s, step);
      case ResizedEnd(_) => ResizeKeeps(c, s, step);
      case TypeSent => TypeSentKeeps(c, s, step);
      case TypeEofSent => TypeSentKeeps(c, s, step);
      case TypeEof => TypeEofKeeps(c, s);
      case TypeFail => TypeFailKeeps(c, s);
    }
  }

  // ----- the other side's steps -----

  lemma ServerKeepsClient(c: Config, s: State, step: ServerStep)
    requires ClientOk(c, s) && ServerCan(c, s, step)
    ensures ClientOk(c, ServerDo(c, s, step))
  {
    hide ClientAll;
    if step.STake? {
      Effect(s.c2s, c.toServer, Take);
    } else if step.GotReply? || step.GotSize? {
      Effect(s.c2s, c.toServer, Deliver);
    }
    hide Do, FrameOf, AsResize, AsStartReply;
  }

  lemma OthersKeepClient(c: Config, s: State, step: Step)
    requires ClientOk(c, s) && Enabled(c, s, step) && (step.OfFeeder? || step.OfCommand?)
    ensures ClientOk(c, After(c, s, step))
  {
    hide ClientAll;
    if step == OfFeeder(FeedTake) {
      Effect(s.c2s, c.toServer, Take);
    } else if step == OfFeeder(FeedGot) {
      Effect(s.c2s, c.toServer, Deliver);
    }
    hide Do, FrameOf, FeedNext;
  }

  lemma KeepsClient(c: Config, s: State, step: Step)
    requires ClientOk(c, s) && Enabled(c, s, step)
    requires step == OfClient(GotStart) ==> FrameOf(s.s2c.buf).ty == Start
    requires step != OfClient(CLost)
    ensures ClientOk(c, After(c, s, step))
  {
    hide ClientOk;
    match step {
      case OfServer(x) => ServerKeepsClient(c, s, x);
      case OfClient(x) => ClientKeeps(c, s, x);
      case OfInput(x) => InputKeeps(c, s, x);
      case _ => OthersKeepClient(c, s, step);
    }
  }

  // ----- consequences used elsewhere -----

  lemma OpeningFirst(c: Config, s: State)
    requires ClientOk(c, s)
    ensures s.c2s.log != [] ==> s.c2s.log[0] == Sent(Main, ReplyOf(c))
    ensures |s.c2s.log| > 1 ==> s.c2s.log[1] == Sent(Main, SizeOf(c))
    ensures s.cli.main.Serving? ==> |s.c2s.log| > 1 && JobOf(s.c2s, Main) == Off
    ensures !s.cli.main.Serving? ==> s.keys.mode.KeysOff? && s.winch.WinchOff?
    ensures !s.cli.main.ClientPanic?
  {
    hide Trace, Input, EofLogged, ReplyOf, SizeOf;
  }
}
