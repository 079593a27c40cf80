/** The main safety results about whole sessions: complete output, traces of
    both sides, and the handshake. */
module Delivery {
  import opened Wire
  import opened Link
  import opened Feed
  import opened Session
  import opened ServerInv
  import opened ClientInv
  import opened ShowInv
  import opened FeedInv
  import opened SessionInv

  // ----- output -----

  /** An exit frame among the frames received is the last frame ever begun, and
      both output streams are then complete. */
  lemma ExitMeansAll(s: State, got: seq<Frame>)
    requires ServerOk(s) && got <= Frames(s.s2c.log)
    requires got != [] && got[|got| - 1].ty == Exit
    ensures got == Frames(s.s2c.log)
    ensures s.srv.reaped.Some? && s.srv.reaped == s.cmd.status
    ensures got[|got| - 1] == ExitFrame(ExitCode(s.srv.reaped.value))
    ensures s.srv.out == Ended(true) && PumpOk(s.srv.err) && Exhausted(s.cmd.out)
    ensures s.srv.wiring == Pipes ==> Exhausted(s.cmd.err)
    ensures StreamOf(Stdout, got) == s.cmd.out.bytes && StreamOf(Stderr, got) == s.cmd.err.bytes
  {
    var log, i := s.s2c.log, |got| - 1;
    var jm := JobOf(s.s2c, Main);
    assert log[i].frame == got[i];
    assert i >= 1;
    assert ServerInv.Entry(s.srv, jm, log, i);
    assert ExitBegun(s.srv, jm);
    hide StreamOf, ExitCode, ServerInv.Trace;
    assert got == Frames(log);
    AllRead(s, got);
  }

  lemma AllRead(s: State, got: seq<Frame>)
    requires ServerOk(s) && ExitBegun(s.srv, JobOf(s.s2c, Main)) && got == Frames(s.s2c.log)
    ensures StreamOf(Stdout, got) == s.cmd.out.bytes && StreamOf(Stderr, got) == s.cmd.err.bytes
  {
    hide StreamOf, ExitCode, ServerInv.Trace, JobOf;
    assert StreamOf(Stdout, got) + [] == StreamOf(Stdout, got);
    assert StreamOf(Stderr, got) + [] == StreamOf(Stderr, got);
    assert s.cmd.out.bytes[..|s.cmd.out.bytes|] == s.cmd.out.bytes;
    assert s.cmd.err.bytes[..|s.cmd.err.bytes|] == s.cmd.err.bytes;
    assert s.cmd.err.read == |s.cmd.err.bytes|;
  }

  /** What a reported code stands for. */
  ghost predicate FullyDelivered(s: State, code: I32) {
    && s.show.out == s.cmd.out.bytes && s.cmd.out.closed
    && s.show.err == s.cmd.err.bytes && (s.srv.wiring == Pipes ==> s.cmd.err.closed)
    && s.srv.out == Ended(true) && PumpOk(s.srv.err)
    && s.cmd.status.Some? && s.srv.reaped == s.cmd.status && code == ExitCode(s.cmd.status.value)
  }

  lemma ReportedComplete(c: Config, s: State, i: nat)
    requires LinkInv(s.s2c, c.toClient) && ServerOk(s) && ShowOk(s)
    requires i < |s.cli.done| && s.cli.done[i].Code?
    ensures FullyDelivered(s, s.cli.done[i].code)
  {
    var got := s.s2c.delivered;
    ReaderInOrder(s.s2c, c.toClient);
    assert AsExit(got[|got| - 1]) == Some(s.cli.done[i].code);
    assert got[|got| - 1].ty == Exit;
    hide ServerOk, ShowOk, LinkInv, AsExit, StreamOf;
    ExitMeansAll(s, got);
    ExitRoundTrip(ExitCode(s.srv.reaped.value));
  }

  /** End-to-end delivery. In every interleaving, for every chunking and every
      buffer size: if the client returns a code, its standard output and error
      hold every byte the command ever wrote, in order, and the command can
      write no more; the code is the shell-style status of the reaped command;
      and it survives the conversion to a process exit status. */
  lemma DeliveryComplete(c: Config, states: seq<State>, steps: seq<Step>, k: nat)
    requires IsSession(c, states, steps) && k < |states|
    requires states[k].cli.result.Some? && states[k].cli.result.value.Code?
    ensures FullyDelivered(states[k], states[k].cli.result.value.code)
    ensures ShellStatus(states[k].cli.result.value) == ExitCode(states[k].cmd.status.value)
  {
    hide IsSession, LinkInv, Roles, ServerOk, ClientOk, ShowOk, FeedOk;
    hide ExitCode, FullyDelivered;
    Parts(c, states, steps, k);
    ResultReported(states[k]);
    ReportedComplete(c, states[k], 0);
    CompleteStatus(states[k], states[k].cli.result.value.code);
  }

  lemma CompleteStatus(s: State, code: I32)
    requires FullyDelivered(s, code)
    ensures s.cmd.status.Some? && ShellStatus(Code(code)) == ExitCode(s.cmd.status.value)
  {
  }

  lemma ResultReported(s: State)
    requires ShowOk(s) && s.cli.result.Some?
    ensures s.cli.done != [] && s.cli.result.value == s.cli.done[0]
  {
    hide Local, Reported;
  }

  /** The output loop has ended and reported no code. */
  predicate Silent(s: State) {
    s.show.mode.ShowEnded? && forall i :: 0 <= i < |s.cli.done| ==> !s.cli.done[i].Code?
  }

  lemma SilentStays(c: Config, s: State, step: Step)
    requires Silent(s) && ShowOk(s) && Enabled(c, s, step)
    ensures Silent(After(c, s, step))
  {
    hide Do, FrameOf, FeedNext, Filtered, Can, ExitCode, Local, Reported;
    match step {
      case OfServer(x) => assert After(c, s, step).show == s.show && After(c, s, step).cli == s.cli;
      case OfClient(x) =>
      case OfInput(x) =>
      case _ =>
    }
  }

  lemma LossIsSilent(c: Config, s: State, step: Step)
    requires ShowOk(s) && Enabled(c, s, step) && (step == OfClient(ShowFail) || step == OfClient(ShowLost))
    ensures Silent(After(c, s, step))
  {
    hide Local, Started;
  }

  /** A failed local write or the end of the channel never leads to a code, even
      if everything had been written. */
  lemma {:induction false} NoCodeAfterLoss(c: Config, states: seq<State>, steps: seq<Step>, j: nat, k: nat)
    requires IsSession(c, states, steps) && j < k < |states|
    requires steps[j] == OfClient(ShowFail) || steps[j] == OfClient(ShowLost)
    ensures Silent(states[k])
    ensures states[k].cli.result.Some? ==> !states[k].cli.result.value.Code?
  {
    hide LinkInv, Roles, ServerOk, ClientOk, ShowOk, FeedOk, Silent, Enabled, After;
    Parts(c, states, steps, k - 1);
    Parts(c, states, steps, k);
    assert Enabled(c, states[k - 1], steps[k - 1]) && states[k - 1 + 1] == After(c, states[k - 1], steps[k - 1]);
    if j == k - 1 {
      LossIsSilent(c, states[j], steps[j]);
    } else {
      NoCodeAfterLoss(c, states, steps, j, k - 1);
      SilentStays(c, states[k - 1], steps[k - 1]);
    }
    SilentResult(states[k]);
  }

  lemma SilentResult(s: State)
    requires Silent(s) && ShowOk(s)
    ensures s.cli.result.Some? ==> !s.cli.result.value.Code?
  {
    if s.cli.result.Some? {
      ResultReported(s);
    }
    hide ShowOk;
  }

  /** At every moment the local output is a prefix of what the command wrote. */
  lemma OutputIsPrefix(c: Config, states: seq<State>, steps: seq<Step>, k: nat)
    requires IsSession(c, states, steps) && k < |states|
    ensures states[k].show.out <= states[k].cmd.out.bytes
    ensures states[k].show.err <= states[k].cmd.err.bytes
  {
    hide IsSession, LinkInv, Roles, ServerOk, ClientOk, ShowOk, FeedOk;
    hide StreamOf;
    Parts(c, states, steps, k);
    var s := states[k];
    ShownPrefix(s);
    ReadPrefix(s);
    ReaderInOrder(s.s2c, c.toClient);
    StreamPrefix(Stdout, s.s2c.delivered, Frames(s.s2c.log));
    StreamPrefix(Stderr, s.s2c.delivered, Frames(s.s2c.log));
  }

  lemma ShownPrefix(s: State)
    requires ShowOk(s)
    ensures s.show.out <= StreamOf(Stdout, s.s2c.delivered)
    ensures s.show.err <= StreamOf(Stderr, s.s2c.delivered)
  {
    hide Reported, StreamOf, NoExit;
  }

  lemma ReadPrefix(s: State)
    requires ServerOk(s)
    ensures StreamOf(Stdout, Frames(s.s2c.log)) <= s.cmd.out.bytes
    ensures StreamOf(Stderr, Frames(s.s2c.log)) <= s.cmd.err.bytes
  {
    hide StreamOf, ServerInv.Trace, Phase, Pumps;
  }

  // ----- traces -----

  /** A start frame, then non-empty output frames (no stderr frame on a
      terminal), then at most one exit frame, which ends the trace. */
  predicate IsServerTrace(tty: bool, fs: seq<Frame>) {
    && (fs != [] ==> fs[0] == StartFrame)
    && forall i :: 1 <= i < |fs| ==>
         || IsOutput(Stdout, fs[i])
         || (IsOutput(Stderr, fs[i]) && !tty)
         || (fs[i].ty == Exit && AsExit(fs[i]).Some? && i == |fs| - 1)
  }

  lemma TraceOfLog(c: Config, s: State)
    requires ServerOk(s) && FeedOk(c, s)
    ensures IsServerTrace(c.tty, Frames(s.s2c.log))
  {
    var log, jm := s.s2c.log, JobOf(s.s2c, Main);
    WiringIsFlag(c, s);
    hide FeedOk, Streams, IsOutput, ExitCode;
    forall i | 1 <= i < |log|
      ensures IsOutput(Stdout, log[i].frame) || (IsOutput(Stderr, log[i].frame) && !c.tty)
              || (log[i].frame.ty == Exit && AsExit(log[i].frame).Some? && i == |log| - 1)
    {
      assert ServerInv.Entry(s.srv, jm, log, i);
    }
  }

  lemma WiringIsFlag(c: Config, s: State)
    requires FeedOk(c, s)
    ensures s.srv.wiring == Unwired || s.srv.wiring == Wired(c.tty)
  {
    hide Feeds, StdinUse;
  }

  /** Every server trace has the promised shape, and so has what anybody decodes
      from the raw bytes at any moment. */
  lemma ServerTraces(c: Config, states: seq<State>, steps: seq<Step>, k: nat)
    requires IsSession(c, states, steps) && k < |states|
    ensures IsServerTrace(c.tty, Frames(states[k].s2c.log))
    ensures IsServerTrace(c.tty, DecodeAll(states[k].s2c.wire).frames)
  {
    hide IsSession, LinkInv, Roles, ServerOk, ClientOk, ShowOk, FeedOk;
    hide IsServerTrace, DecodeAll;
    Parts(c, states, steps, k);
    TraceOfLog(c, states[k]);
    DecodedTrace(c, states[k].s2c);
  }

  /** A prefix of a trace is a trace. */
  lemma DecodedTrace(c: Config, l: Link)
    requires LinkInv(l, c.toClient) && IsServerTrace(c.tty, Frames(l.log))
    ensures IsServerTrace(c.tty, DecodeAll(l.wire).frames)
  {
    hide LinkInv, IsOutput, AsExit, DecodeAll;
    WireDecodes(l, c.toClient);
    var fs, n := Frames(l.log), |l.log| - 1;
    if l.log != [] {
      assert Frames(l.log[..n]) == fs[..n];
      assert IsServerTrace(c.tty, fs[..n]);
    }
  }

  /** The exit barrier: an exit frame is begun only after every output pump has
      ended well at the end of its stream and the command was reaped; after a
      failed pump or a failed wait there is none. */
  lemma ExitBarrier(c: Config, states: seq<State>, steps: seq<Step>, k: nat, i: nat)
    requires IsSession(c, states, steps) && k < |states|
    requires i < |states[k].s2c.log| && states[k].s2c.log[i].frame.ty == Exit
    ensures var s := states[k];
      && s.srv.out == Ended(true) && PumpOk(s.srv.err) && Exhausted(s.cmd.out)
      && (!c.tty ==> s.srv.err == Ended(true) && Exhausted(s.cmd.err))
      && s.srv.reaped.Some? && s.srv.reaped == s.cmd.status
      && s.srv.main != Finished(false)
      && s.s2c.log[i].frame == ExitFrame(ExitCode(s.cmd.status.value))
  {
    hide IsSession, LinkInv, Roles, ServerOk, ClientOk, ShowOk, FeedOk;
    hide ExitCode, Exhausted;
    Parts(c, states, steps, k);
    BarrierOk(c, states[k], i);
  }

  lemma BarrierOk(c: Config, s: State, i: nat)
    requires ServerOk(s) && FeedOk(c, s) && i < |s.s2c.log| && s.s2c.log[i].frame.ty == Exit
    ensures s.srv.out == Ended(true) && PumpOk(s.srv.err) && Exhausted(s.cmd.out)
    ensures !c.tty ==> s.srv.err == Ended(true) && Exhausted(s.cmd.err)
    ensures s.srv.reaped.Some? && s.srv.reaped == s.cmd.status && s.srv.main != Finished(false)
    ensures s.s2c.log[i].frame == ExitFrame(ExitCode(s.cmd.status.value))
  {
    hide Streams, IsOutput, ExitCode;
    WiringIsFlag(c, s);
    hide FeedOk;
    assert i >= 1;
    assert ServerInv.Entry(s.srv, JobOf(s.s2c, Main), s.s2c.log, i);
    assert s.s2c.log[i].frame.ty == Exit ==>
      !IsOutput(Stdout, s.s2c.log[i].frame) && !IsOutput(Stderr, s.s2c.log[i].frame) by {
      NotOutput(s.s2c.log[i].frame);
    }
  }

  lemma NotOutput(f: Frame)
    ensures f.ty == Exit ==> !IsOutput(Stdout, f) && !IsOutput(Stderr, f)
  {
  }

  // ----- after a failure -----

  /** An output pump failed, or the server has returned an error. */
  predicate Unwell(s: State) {
    s.srv.out == Ended(false) || s.srv.err == Ended(false) || s.srv.main == Finished(false)
  }

  /** A pump fails, the wait fails, or the terminal, the pipes or the fork do. */
  predicate Fails(step: Step) {
    || step == OfServer(OutFail) || step == OfServer(ErrFail)
    || step == OfServer(WaitFail) || step == OfServer(GotSize(false))
  }

  lemma FailureIsUnwell(c: Config, s: State, step: Step)
    requires ServerOk(s) && Enabled(c, s, step) && Fails(step) && !After(c, s, step).srv.main.ServerPanic?
    ensures Unwell(After(c, s, step))
  {
    hide ServerOk, Do, FrameOf, AsResize, Can;
  }

  lemma UnwellStays(c: Config, s: State, step: Step)
    requires Unwell(s) && ServerOk(s) && Enabled(c, s, step)
    ensures Unwell(After(c, s, step))
  {
    hide Do, FrameOf, AsResize, AsStartReply, AsExit, Can, Streams, ServerInv.Trace, Phase, ErrPhase, ExitCode,
         Filtered, FeedNext, NeedMore, Complete;
  }

  /** After a failed pump, a failed wait or a failed start of the command there is
      never an exit frame, and the client never reports a code. */
  lemma {:induction false} NoExitAfterFailure(c: Config, states: seq<State>, steps: seq<Step>, j: nat, k: nat)
    requires IsSession(c, states, steps) && j < k < |states| && Fails(steps[j])
    ensures Unwell(states[k])
    ensures forall i :: 0 <= i < |states[k].s2c.log| ==> states[k].s2c.log[i].frame.ty != Exit
    ensures states[k].cli.result.Some? ==> !states[k].cli.result.value.Code?
  {
    hide LinkInv, Roles, ServerOk, ClientOk, ShowOk, FeedOk, Unwell, Enabled, After, Fails, Exhausted, ExitCode;
    var s, t := states[k - 1], states[k - 1 + 1];
    Parts(c, states, steps, k - 1);
    assert Enabled(c, s, steps[k - 1]) && t == After(c, s, steps[k - 1]);
    if j == k - 1 {
      HandshakeSafe(c, states, steps, k);
      FailureIsUnwell(c, s, steps[j]);
    } else {
      NoExitAfterFailure(c, states, steps, j, k - 1);
      UnwellStays(c, s, steps[k - 1]);
    }
    forall i | 0 <= i < |t.s2c.log| ensures t.s2c.log[i].frame.ty != Exit {
      if t.s2c.log[i].frame.ty == Exit {
        ExitBarrier(c, states, steps, k, i);
        WellAtExit(t);
      }
    }
    Parts(c, states, steps, k);
    if t.cli.result.Some? && t.cli.result.value.Code? {
      var i := ExitLogged(c, t);
    }
  }

  /** A code comes from an exit frame in the log. */
  lemma ExitLogged(c: Config, s: State) returns (i: nat)
    requires LinkInv(s.s2c, c.toClient) && ShowOk(s) && s.cli.result.Some? && s.cli.result.value.Code?
    ensures i < |s.s2c.log| && s.s2c.log[i].frame.ty == Exit
  {
    ResultReported(s);
    ReaderInOrder(s.s2c, c.toClient);
    i := |s.s2c.delivered| - 1;
    assert AsExit(s.s2c.delivered[i]) == Some(s.cli.done[0].code);
    assert s.s2c.log[i].frame == s.s2c.delivered[i];
    hide LinkInv, Local, Started, StreamOf;
  }

  /** The end of a well server. */
  lemma WellAtExit(s: State)
    requires s.srv.out == Ended(true) && PumpOk(s.srv.err) && s.srv.main != Finished(false)
    ensures !Unwell(s)
  {
  }

  /** Both pumps have been waited for, and the command reaped. */
  predicate WoundUp(s: State) {
    && s.srv.wiring != Unwired && s.srv.out.Ended? && (s.srv.err.Ended? || s.srv.err.Absent?)
    && s.srv.reaped.Some? && s.srv.reaped == s.cmd.status
  }

  /** Joining, reaping, and what follows. */
  predicate Winding(s: State, waitFailed: bool) {
    match s.srv.main
    case Reaping => s.srv.wiring != Unwired && s.srv.out.Ended? && (s.srv.err.Ended? || s.srv.err.Absent?)
    case SendExit => WoundUp(s)
    case Finished(_) => s.srv.wiring != Unwired ==> WoundUp(s) || waitFailed
    case Pumping => s.srv.wiring != Unwired
    case _ => s.srv.wiring == Unwired
  }

  lemma WindingStays(c: Config, s: State, step: Step, waitFailed: bool)
    requires Winding(s, waitFailed) && Enabled(c, s, step)
    ensures Winding(After(c, s, step), waitFailed || step == OfServer(WaitFail))
  {
    hide Do, FrameOf, AsResize, AsStartReply, AsExit, Can, ExitCode, Filtered, FeedNext, NeedMore, Complete, ReadBytes;
  }

  /** Whatever became of the pumps, a server that had started a command has waited
      for both of them and reaped the command when it returns, unless the wait
      itself failed. */
  lemma {:induction false} CommandReaped(c: Config, states: seq<State>, steps: seq<Step>, k: nat)
    requires IsSession(c, states, steps) && k < |states|
    ensures Winding(states[k], OfServer(WaitFail) in steps[..k])
  {
    hide Enabled, After, Winding;
    if k == 0 {
      StartsUnwired(c);
    } else {
      CommandReaped(c, states, steps, k - 1);
      var s, step := states[k - 1], steps[k - 1];
      assert Enabled(c, s, step) && states[k - 1 + 1] == After(c, s, step);
      assert steps[..k] == steps[..k - 1] + [step];
      WindingStays(c, s, step, OfServer(WaitFail) in steps[..k - 1]);
      var failed := OfServer(WaitFail) in steps[..k - 1] || step == OfServer(WaitFail);
      assert failed <==> OfServer(WaitFail) in steps[..k];
    }
  }

  lemma StartsUnwired(c: Config)
    ensures Winding(Init(c), false)
  {
  }

  /** The reply, the size, then stdin and resize frames; at most one empty stdin
      frame, with no stdin frame after it. */
  predicate IsClientTrace(c: Config, fs: seq<Frame>) {
    && (|fs| > 0 ==> fs[0] == StartReplyFrame(c.tty))
    && (|fs| > 1 ==> fs[1] == ResizeFrame(c.cols, c.rows))
    && (forall i :: 2 <= i < |fs| ==> fs[i].ty == Stdin || IsResize(fs[i]))
    && (forall i, j :: 2 <= i < j < |fs| && fs[i] == EofFrame ==> fs[j].ty != Stdin)
  }

  lemma ClientTraceOfLog(c: Config, s: State)
    requires ClientOk(c, s)
    ensures IsClientTrace(c, Frames(s.c2s.log))
    ensures forall i :: 2 <= i < |s.c2s.log| && s.c2s.log[i].frame == EofFrame ==>
      s.keys.mode == KeysEof || s.keys.mode == KeysEnded(AtEof)
  {
    OpeningFirst(c, s);
    TraceOf(c, s);
    hide ClientOk, ClientInv.Trace, IsResize, EofBegun, ReplyOf, SizeOf;
    var log, ji, fs := s.c2s.log, JobOf(s.c2s, InLoop), Frames(s.c2s.log);
    forall i | 2 <= i < |log|
      ensures fs[i].ty == Stdin || IsResize(fs[i])
      ensures fs[i] == EofFrame ==> EofBegun(s.keys, ji) && forall j :: i < j < |log| ==> fs[j].ty != Stdin
    {
      EntryShape(s.keys, ji, log, i);
      assert forall j :: i < j < |log| ==> fs[j] == log[j].frame;
    }
    assert EofBegun(s.keys, ji) ==> s.keys.mode == KeysEof || s.keys.mode == KeysEnded(AtEof) by {
      EofModes(s.keys, ji);
    }
    assert fs != [] ==> fs[0] == ReplyOf(c);
    assert |fs| > 1 ==> fs[1] == SizeOf(c);
    OpeningFrames(c);
  }

  lemma OpeningFrames(c: Config)
    ensures ReplyOf(c) == StartReplyFrame(c.tty) && SizeOf(c) == ResizeFrame(c.cols, c.rows)
  {
  }

  lemma EofModes(keys: Keyboard, ji: Job)
    ensures EofBegun(keys, ji) ==> keys.mode == KeysEof || keys.mode == KeysEnded(AtEof)
  {
  }

  lemma TraceOf(c: Config, s: State)
    requires ClientOk(c, s)
    ensures ClientInv.Trace(s.keys, JobOf(s.c2s, InLoop), s.c2s.log)
  {
    hide Input, Opening, LoopJobs, EofLogged, ClientInv.Trace, JobOf;
  }

  lemma EntryShape(keys: Keyboard, ji: Job, log: seq<Sent>, i: nat)
    requires ClientInv.Trace(keys, ji, log) && 2 <= i < |log|
    ensures log[i].frame.ty == Stdin || IsResize(log[i].frame)
    ensures log[i].frame == EofFrame ==> EofBegun(keys, ji) && forall j :: i < j < |log| ==> log[j].frame.ty != Stdin
  {
    hide IsResize, EofBegun;
    assert ClientInv.Entry(keys, ji, log, i);
    ResizeType(log[i].frame);
  }

  lemma ResizeType(f: Frame)
    ensures IsResize(f) ==> f.ty == Resize
  {
  }

  /** Every client trace has the promised shape, also as decoded from the raw
      bytes, and the empty stdin frame is sent only at the real end of stdin,
      even when the escape filter reduces a chunk to nothing. */
  lemma ClientTraces(c: Config, states: seq<State>, steps: seq<Step>, k: nat)
    requires IsSession(c, states, steps) && k < |states|
    ensures IsClientTrace(c, Frames(states[k].c2s.log))
    ensures IsClientTrace(c, DecodeAll(states[k].c2s.wire).frames)
    ensures forall i :: 2 <= i < |states[k].c2s.log| && states[k].c2s.log[i].frame == EofFrame ==>
      states[k].keys.mode == KeysEof || states[k].keys.mode == KeysEnded(AtEof)
  {
    hide IsSession, LinkInv, Roles, ServerOk, ClientOk, ShowOk, FeedOk;
    hide IsClientTrace, DecodeAll;
    Parts(c, states, steps, k);
    ClientTraceOfLog(c, states[k]);
    DecodedClientTrace(c, states[k].c2s);
  }

  lemma DecodedClientTrace(c: Config, l: Link)
    requires LinkInv(l, c.toServer) && IsClientTrace(c, Frames(l.log))
    ensures IsClientTrace(c, DecodeAll(l.wire).frames)
  {
    hide LinkInv, IsResize, DecodeAll, ResizeFrame, StartReplyFrame;
    WireDecodes(l, c.toServer);
    var fs, n := Frames(l.log), |l.log| - 1;
    if l.log != [] {
      assert Frames(l.log[..n]) == fs[..n];
      assert IsClientTrace(c, fs[..n]);
    }
  }

  // ----- the handshake -----

  /** No run panics in the handshake, on either side, and the command is wired
      to a terminal exactly when the client's stdin is one. */
  lemma HandshakeSafe(c: Config, states: seq<State>, steps: seq<Step>, k: nat)
    requires IsSession(c, states, steps) && k < |states|
    ensures !states[k].srv.main.ServerPanic? && !states[k].cli.main.ClientPanic?
    ensures states[k].srv.wiring == Unwired || states[k].srv.wiring == if c.tty then Tty else Pipes
    ensures states[k].srv.main.AwaitSize? ==> states[k].srv.main.tty == c.tty
  {
    hide IsSession, LinkInv, Roles, ServerOk, ClientOk, ShowOk, FeedOk;
    Parts(c, states, steps, k);
    OpeningFirst(c, states[k]);
    ShakenFirst(c, states[k]);
    WiringIsFlag(c, states[k]);
  }

  /** Exactly when the handshake panics, with any peer: an opening frame of another
      kind, or the end of the channel instead of one. */
  lemma PanicsExactly(c: Config, s: State, step: Step)
    requires Enabled(c, s, step) && !s.srv.main.ServerPanic? && !s.cli.main.ClientPanic?
    ensures var t := After(c, s, step); var f := s.c2s.buf;
      && (t.srv.main.ServerPanic? <==>
            || (step == OfServer(GotReply) && (TypeOf(f[0]) != StartReply || |f| != 4))
            || (step.OfServer? && step.srv.GotSize? && (TypeOf(f[0]) != Resize || |f| != 7))
            || (step == OfServer(SLost) && f == []))
      && (t.cli.main.ClientPanic? <==>
            (step == OfClient(GotStart) && TypeOf(s.s2c.buf[0]) != Start) || step == OfClient(CLost))
  {
    hide Do, AsExit, ExitCode, Filtered, FeedNext, ReadBytes, TypeOf;
  }
}
