/** What holds between the server's threads, the command's output and the
    frames on their way to the client, in every reachable state. */
module ServerInv {
  import opened Wire
  import opened Link
  import opened Escape
  import opened Feed
  import opened Session

  predicate IsOutput(t: FrameType, f: Frame) {
    f.ty == t && f.payload != [] && Fits(f)
  }

  predicate IsExit(srv: Server, f: Frame) {
    srv.reaped.Some? && f == ExitFrame(ExitCode(srv.reaped.value))
  }

  /** The exit frame is on its way. */
  predicate ExitBegun(srv: Server, jm: Job) {
    srv.main == Finished(true) || (srv.main.SendExit? && jm.Begun?)
  }

  /** What the main thread is sending in each phase. */
  predicate Phase(srv: Server, log: seq<Sent>, jm: Job) {
    match srv.main
    case SendStart => jm != Off && jm.f == StartFrame && (if jm.Asked? then log == [] else |log| == 1)
    case AwaitReply => jm == Off && |log| == 1
    case AwaitSize(_) => jm == Off && |log| == 1
    case Pumping => if srv.out.Sending? then jm != Off && IsOutput(Stdout, jm.f) else jm == Off
    case SendExit => jm != Off && IsExit(srv, jm.f)
    case _ => jm == Off
  }

  predicate ErrPhase(srv: Server, je: Job) {
    if srv.main.Pumping? && srv.err.Sending? then je != Off && IsOutput(Stderr, je.f) else je == Off
  }

  predicate Entry(srv: Server, jm: Job, log: seq<Sent>, i: nat)
    requires i < |log|
  {
    || (log[i].who == Main && IsOutput(Stdout, log[i].frame))
    || (log[i].who == ErrPump && IsOutput(Stderr, log[i].frame) && srv.wiring == Pipes)
    || (i == |log| - 1 && ExitBegun(srv, jm) && log[i].who == Main && IsExit(srv, log[i].frame))
  }

  /** The trace: a start frame, output frames, and an exit frame at most at the
      very end. */
  predicate Trace(srv: Server, log: seq<Sent>, jm: Job) {
    && (log == [] ==> srv.main.SendStart?)
    && (log != [] ==> log[0] == Sent(Main, StartFrame))
    && (forall i :: 1 <= i < |log| ==> Entry(srv, jm, log, i))
    && (ExitBegun(srv, jm) ==> |log| > 1 && IsExit(srv, log[|log| - 1].frame))
  }

  predicate Starting(m: ServerMain) {
    m.SendStart? || m.AwaitReply? || m.AwaitSize? || m.ServerPanic?
  }

  predicate Pumps(srv: Server, cmd: Command) {
    && (Starting(srv.main) ==> srv.wiring == Unwired && srv.out == Absent && srv.err == Absent)
    && (srv.main.Pumping? || srv.main.Reaping? || srv.main.SendExit? || srv.main == Finished(true) ==>
          srv.wiring != Unwired && srv.out != Absent && (srv.err == Absent <==> srv.wiring == Tty))
    && (srv.main.Reaping? ==> srv.out.Ended? && (srv.err.Ended? || srv.err.Absent?))
    && (srv.main.SendExit? || srv.main == Finished(true) ==>
          srv.out == Ended(true) && PumpOk(srv.err) && srv.reaped.Some? && srv.reaped == cmd.status)
    && (srv.out == Ended(true) ==> Exhausted(cmd.out))
    && (srv.err == Ended(true) ==> Exhausted(cmd.err))
    && (srv.wiring != Pipes ==> cmd.err.bytes == [])
  }

  function AskedBytes(t: FrameType, j: Job): seq<Byte> {
    if j.Asked? && j.f.ty == t then j.f.payload else []
  }

  /** What the pumps have read is what was put into frames. */
  predicate Streams(cmd: Command, log: seq<Sent>, jm: Job, je: Job) {
    && cmd.out.read <= |cmd.out.bytes|
    && cmd.err.read <= |cmd.err.bytes|
    && StreamOf(Stdout, Frames(log)) + AskedBytes(Stdout, jm) == cmd.out.bytes[..cmd.out.read]
    && StreamOf(Stderr, Frames(log)) + AskedBytes(Stderr, je) == cmd.err.bytes[..cmd.err.read]
  }

  predicate ServerAll(srv: Server, cmd: Command, log: seq<Sent>, jm: Job, je: Job) {
    && Phase(srv, log, jm)
    && ErrPhase(srv, je)
    && Trace(srv, log, jm)
    && Pumps(srv, cmd)
    && Streams(cmd, log, jm, je)
  }

  predicate ServerOk(s: State) {
    ServerAll(s.srv, s.cmd, s.s2c.log, JobOf(s.s2c, Main), JobOf(s.s2c, ErrPump))
  }

  lemma ServerInit(c: Config)
    ensures ServerOk(Init(c))
  {
    Effect(Empty, c.toClient, Submit(Main, StartFrame));
  }

  // ----- the server's own steps -----

  /** Submitting, releasing and the quiet steps, seen through jobs and log. */
  lemma SWriteKeeps(c: Config, s: State, op: Op)
    requires ServerOk(s) && ServerCan(c, s, SWrite(op))
    ensures ServerOk(ServerDo(c, s, SWrite(op)))
  {
    Effect(s.s2c, c.toClient, op);
    if op.Accept? {
      hide Do;
      AcceptedKeeps(s.srv, s.cmd, s.s2c.log, JobOf(s.s2c, Main), JobOf(s.s2c, ErrPump), op.w);
    }
  }

  /** A submitted frame moves from its job to the end of the log. */
  lemma AcceptedKeeps(srv: Server, cmd: Command, log: seq<Sent>, jm: Job, je: Job, w: Writer)
    requires ServerAll(srv, cmd, log, jm, je)
    requires (w == Main && jm.Asked?) || (w == ErrPump && je.Asked?)
    ensures w == Main ==> ServerAll(srv, cmd, log + [Sent(Main, jm.f)], Begun(jm.f), je)
    ensures w == ErrPump ==> ServerAll(srv, cmd, log + [Sent(ErrPump, je.f)], jm, Begun(je.f))
  {
    hide Trace, Pumps, Streams, IsOutput, IsExit;
    AcceptedTrace(srv, cmd, log, jm, je, w);
    AcceptedStreams(srv, cmd, log, jm, je, w);
  }

  lemma AcceptedStreams(srv: Server, cmd: Command, log: seq<Sent>, jm: Job, je: Job, w: Writer)
    requires Streams(cmd, log, jm, je) && Phase(srv, log, jm) && ErrPhase(srv, je)
    requires (w == Main && jm.Asked?) || (w == ErrPump && je.Asked?)
    ensures w == Main ==> Streams(cmd, log + [Sent(Main, jm.f)], Begun(jm.f), je)
    ensures w == ErrPump ==> Streams(cmd, log + [Sent(ErrPump, je.f)], jm, Begun(je.f))
  {
    hide StreamOf;
    var f := if w == Main then jm.f else je.f;
    assert w == Main ==> f.ty != Stderr;
    assert w == ErrPump ==> f.ty == Stderr;
    FramesSnoc(log, Sent(w, f));
    StreamSnoc(Stdout, Frames(log), f);
    StreamSnoc(Stderr, Frames(log), f);
    assert cmd.out.bytes[..cmd.out.read] + [] == cmd.out.bytes[..cmd.out.read];
  }

  lemma AcceptedTrace(srv: Server, cmd: Command, log: seq<Sent>, jm: Job, je: Job, w: Writer)
    requires Phase(srv, log, jm) && ErrPhase(srv, je) && Trace(srv, log, jm) && Pumps(srv, cmd)
    requires (w == Main && jm.Asked?) || (w == ErrPump && je.Asked?)
    ensures w == Main ==> Trace(srv, log + [Sent(Main, jm.f)], Begun(jm.f))
    ensures w == ErrPump ==> Trace(srv, log + [Sent(ErrPump, je.f)], jm)
  {
    hide IsOutput, IsExit;
    var f := if w == Main then jm.f else je.f;
    var jm' := if w == Main then Begun(f) else jm;
    var log' := log + [Sent(w, f)];
    forall i | 1 <= i < |log'| ensures Entry(srv, jm', log', i) {
      if i < |log| {
        assert Entry(srv, jm, log, i);
      }
    }
  }

  lemma StartSentKeeps(c: Config, s: State)
    requires ServerOk(s) && ServerCan(c, s, StartSent)
    ensures ServerOk(ServerDo(c, s, StartSent))
  {
    hide StreamOf, Entry;
    Effect(s.s2c, c.toClient, Release(Main));
    hide Do;
  }

  lemma HandshakeKeeps(c: Config, s: State, step: ServerStep)
    requires ServerOk(s) && ServerCan(c, s, step) && (step.STake? || step.GotReply? || step.SLost?)
    ensures ServerOk(ServerDo(c, s, step))
  {
    hide StreamOf, Entry, Do, AsStartReply, FrameOf, Streams;
  }

  lemma GotSizeKeeps(c: Config, s: State, ok: bool)
    requires ServerOk(s) && ServerCan(c, s, GotSize(ok))
    ensures ServerOk(ServerDo(c, s, GotSize(ok)))
  {
    hide StreamOf, Entry, LinkInv, Do;
  }

  lemma ReadMore(src: Source, n: nat)
    requires CanRead(src, n)
    ensures src.bytes[..src.read + n] == src.bytes[..src.read] + ReadBytes(src, n)
    ensures 0 < |ReadBytes(src, n)| <= MAX_PAYLOAD
  {
  }

  lemma OutReadKeeps(c: Config, s: State, n: nat)
    requires ServerOk(s) && ServerCan(c, s, OutRead(n))
    ensures ServerOk(ServerDo(c, s, OutRead(n)))
  {
    hide StreamOf, Do, ReadBytes, Trace, JobOf;
    Effect(s.s2c, c.toClient, Submit(Main, Frame(Stdout, ReadBytes(s.cmd.out, n))));
    CanJob(s.s2c, c.toClient, Submit(Main, Frame(Stdout, ReadBytes(s.cmd.out, n))));
    ReadMore(s.cmd.out, n);
    var t := ServerDo(c, s, OutRead(n));
    TraceStays(s.srv, t.srv, s.s2c.log, JobOf(s.s2c, Main), JobOf(t.s2c, Main));
    NoTail(StreamOf(Stdout, Frames(s.s2c.log)));
  }

  lemma ErrReadKeeps(c: Config, s: State, n: nat)
    requires ServerOk(s) && ServerCan(c, s, ErrRead(n))
    ensures ServerOk(ServerDo(c, s, ErrRead(n)))
  {
    hide StreamOf, Do, ReadBytes, Trace, JobOf;
    Effect(s.s2c, c.toClient, Submit(ErrPump, Frame(Stderr, ReadBytes(s.cmd.err, n))));
    CanJob(s.s2c, c.toClient, Submit(ErrPump, Frame(Stderr, ReadBytes(s.cmd.err, n))));
    ReadMore(s.cmd.err, n);
    var t := ServerDo(c, s, ErrRead(n));
    TraceStays(s.srv, t.srv, s.s2c.log, JobOf(s.s2c, Main), JobOf(t.s2c, Main));
    NoTail(StreamOf(Stderr, Frames(s.s2c.log)));
  }

  lemma SentKeeps(c: Config, s: State, step: ServerStep)
    requires ServerOk(s) && ServerCan(c, s, step) && (step.OutSent? || step.ErrSent? || step.ExitSent?)
    ensures ServerOk(ServerDo(c, s, step))
  {
    hide StreamOf, Do, IsOutput, IsExit, JobOf, Trace;
    Effect(s.s2c, c.toClient, Release(if step.ErrSent? then ErrPump else Main));
    CanJob(s.s2c, c.toClient, Release(if step.ErrSent? then ErrPump else Main));
    TraceStays(s.srv, ServerDo(c, s, step).srv, s.s2c.log, JobOf(s.s2c, Main),
               JobOf(ServerDo(c, s, step).s2c, Main));
  }

  /** The trace does not depend on the pumps. */
  lemma TraceStays(srv: Server, srv': Server, log: seq<Sent>, jm: Job, jm': Job)
    requires Trace(srv, log, jm)
    requires srv'.wiring == srv.wiring && srv'.reaped == srv.reaped
    requires srv.main.SendStart? <==> srv'.main.SendStart?
    requires ExitBegun(srv, jm) <==> ExitBegun(srv', jm')
    ensures Trace(srv', log, jm')
  {
    forall i | 1 <= i < |log| ensures Entry(srv', jm', log, i) {
      assert Entry(srv, jm, log, i);
    }
  }

  lemma EndKeeps(c: Config, s: State, step: ServerStep)
    requires ServerOk(s) && ServerCan(c, s, step)
    requires step.OutEof? || step.OutFail? || step.ErrEof? || step.ErrFail? || step.PumpsDone? || step.WaitFail?
    ensures ServerOk(ServerDo(c, s, step))
  {
    hide StreamOf, Do;
    TraceStays(s.srv, ServerDo(c, s, step).srv, s.s2c.log, JobOf(s.s2c, Main), JobOf(s.s2c, Main));
    hide Trace;
  }

  lemma ReapKeeps(c: Config, s: State)
    requires ServerOk(s) && ServerCan(c, s, Reap)
    ensures ServerOk(ServerDo(c, s, Reap))
  {
    hide StreamOf, Do, ExitCode, Le32, IsOutput, JobOf;
    var code := ExitCode(s.cmd.status.value);
    Effect(s.s2c, c.toClient, Submit(Main, ExitFrame(code)));
    CanJob(s.s2c, c.toClient, Submit(Main, ExitFrame(code)));
    var t, log := ServerDo(c, s, Reap), s.s2c.log;
    var jm, jm' := JobOf(s.s2c, Main), JobOf(ServerDo(c, s, Reap).s2c, Main);
    forall i | 1 <= i < |log| ensures Entry(t.srv, jm', log, i) {
      assert Entry(s.srv, jm, log, i);
    }
    assert Trace(t.srv, log, jm');
  }

  lemma ServerKeeps(c: Config, s: State, step: ServerStep)
    requires ServerOk(s) && ServerCan(c, s, step)
    ensures ServerOk(ServerDo(c, s, step))
  {
    hide ServerOk, ServerCan, ServerDo;
    match step {
      case SWrite(op) => SWriteKeeps(c, s, op);
      case GotSize(ok) => GotSizeKeeps(c, s, ok);
      case OutRead(n) => OutReadKeeps(c, s, n);
      case ErrRead(n) => ErrReadKeeps(c, s, n);
      case Reap => ReapKeeps(c, s);
      case StartSent => StartSentKeeps(c, s);
      case STake => HandshakeKeeps(c, s, step);
      case GotReply => HandshakeKeeps(c, s, step);
      case SLost => HandshakeKeeps(c, s, step);
      case OutSent => SentKeeps(c, s, step);
      case ErrSent => SentKeeps(c, s, step);
      case ExitSent => SentKeeps(c, s, step);
      case _ => EndKeeps(c, s, step);
    }
  }

  // ----- the other threads' steps -----

  lemma CommandKeepsServer(c: Config, s: State, step: CommandStep)
    requires ServerOk(s) && CommandCan(c, s, step)
    ensures ServerOk(CommandDo(c, s, step))
  {
    hide StreamOf, Trace, Phase;
    var t := CommandDo(c, s, step);
    assert t.cmd.out.bytes[..t.cmd.out.read] == s.cmd.out.bytes[..s.cmd.out.read];
    assert t.cmd.err.bytes[..t.cmd.err.read] == s.cmd.err.bytes[..s.cmd.err.read];
  }

  /** Reading from the channel does not concern its writers. */
  lemma ClientKeepsServer(c: Config, s: State, step: ClientStep)
    requires ServerOk(s) && ClientCan(c, s, step)
    ensures ServerOk(ClientDo(c, s, step))
  {
    hide ServerAll;
    if step.CTake? {
      Effect(s.s2c, c.toClient, Take);
    } else if step.GotStart? || step.Show? {
      Effect(s.s2c, c.toClient, Deliver);
    }
    hide Do, FrameOf, AsExit;
  }

  lemma OthersKeepServer(c: Config, s: State, step: Step)
    requires ServerOk(s) && Enabled(c, s, step) && (step.OfFeeder? || step.OfInput?)
    ensures ServerOk(After(c, s, step))
  {
    hide ServerAll, Do, FilterFrom, FeedFrame;
  }

  lemma KeepsServer(c: Config, s: State, step: Step)
    requires ServerOk(s) && Enabled(c, s, step)
    ensures ServerOk(After(c, s, step))
  {
    hide ServerOk;
    match step {
      case OfServer(x) => ServerKeeps(c, s, x);
      case OfCommand(x) => CommandKeepsServer(c, s, x);
      case OfClient(x) => ClientKeepsServer(c, s, x);
      case _ => OthersKeepServer(c, s, step);
    }
  }

  // ----- consequences used elsewhere -----

  lemma StartFirst(s: State)
    requires ServerOk(s)
    ensures s.s2c.log != [] ==> s.s2c.log[0] == Sent(Main, StartFrame)
    ensures !s.srv.main.SendStart? ==> s.s2c.log != []
    ensures s.srv.main.Finished? ==> JobOf(s.s2c, Main) == Off && JobOf(s.s2c, ErrPump) == Off
  {
    hide Streams, Entry;
  }
}
