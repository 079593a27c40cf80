/** The output path cannot deadlock. Its steps are those of the output pumps,
    the exit barrier, the channel to the client and the output loop; nothing in
    it looks at the other direction, so it moves even while the command never
    reads its stdin and the input side is blocked. */
module Progress {
  import opened Wire
  import opened Link
  import opened Feed
  import opened Session
  import opened ServerInv
  import opened ClientInv
  import opened ShowInv
  import opened FeedInv
  import opened SessionInv
  import opened Delivery
  import opened Results

  predicate OutputStep(step: Step) {
    match step
    case OfServer(x) =>
      x.SWrite? || x.OutRead? || x.OutSent? || x.OutEof? || x.ErrRead? || x.ErrSent? || x.ErrEof?
      || x.PumpsDone? || x.Reap? || x.ExitSent?
    case OfClient(x) => x.CTake? || x.Show? || x.ShowByte? || x.ShowDone? || x.ShowLost?
    case _ => false
  }

  // ----- the measure -----

  function MainRank(m: ServerMain): nat {
    match m
    case SendStart => 100
    case AwaitReply => 90
    case AwaitSize(_) => 80
    case Pumping => 60
    case Reaping => 50
    case SendExit => 10
    case _ => 0
  }

  function PumpRank(p: Pump): nat {
    if p.Reading? || p.Sending? then 1 else 0
  }

  function ShowRank(d: Display): nat {
    match d.mode
    case ShowWriting(_) => |d.todo| + 2
    case ShowEnded => 0
    case _ => 1
  }

  function Unread(src: Source): int {
    |src.bytes| - src.read
  }

  /** How much is still to be done with the output produced so far: bytes in the
      pipes, bytes on their way, bytes being written, phases to come. */
  function Todo(s: State): int {
    MainRank(s.srv.main) + PumpRank(s.srv.out) + PumpRank(s.srv.err)
    + 20 * Unread(s.cmd.out) + 20 * Unread(s.cmd.err) + Cost(s.s2c) + ShowRank(s.show)
  }

  lemma TodoPositive(c: Config, s: State)
    requires LinkInv(s.s2c, c.toClient) && ServerOk(s)
    ensures Todo(s) >= 0
  {
    CostPositive(s.s2c, c.toClient);
    hide LinkInv, Cost, ServerInv.Trace, Phase, Pumps, StreamOf;
  }

  /** A frame costs less than the bytes that were read for it. */
  lemma ReadDrops(c: Config, s: State, x: ServerStep)
    requires ServerCan(c, s, x) && (x.OutRead? || x.ErrRead?)
    ensures Todo(ServerDo(c, s, x)) < Todo(s)
  {
    if x.OutRead? {
      CostDrops(s.s2c, c.toClient, Submit(Main, Frame(Stdout, ReadBytes(s.cmd.out, x.n))));
    } else {
      CostDrops(s.s2c, c.toClient, Submit(ErrPump, Frame(Stderr, ReadBytes(s.cmd.err, x.n))));
    }
    hide Do, Can, Cost;
  }

  lemma ReapDrops(c: Config, s: State)
    requires ServerCan(c, s, Reap)
    ensures Todo(ServerDo(c, s, Reap)) < Todo(s)
  {
    hide ExitCode;
    CostDrops(s.s2c, c.toClient, Submit(Main, ExitFrame(ExitCode(s.cmd.status.value))));
    hide Do, Can, Cost;
  }

  lemma ServerDrops(c: Config, s: State, x: ServerStep)
    requires ServerCan(c, s, x) && OutputStep(OfServer(x)) && !x.OutRead? && !x.ErrRead? && !x.Reap?
    ensures Todo(ServerDo(c, s, x)) < Todo(s)
  {
    hide Exhausted, Do, Can, Cost;
    if x.SWrite? {
      CostDrops(s.s2c, c.toClient, x.op);
    } else if x.OutSent? || x.ExitSent? {
      CostDrops(s.s2c, c.toClient, Release(Main));
    } else if x.ErrSent? {
      CostDrops(s.s2c, c.toClient, Release(ErrPump));
    }
  }

  lemma ClientDrops(c: Config, s: State, x: ClientStep)
    requires ClientCan(c, s, x) && OutputStep(OfClient(x))
    ensures Todo(ClientDo(c, s, x)) < Todo(s)
  {
    hide Do, Can, Cost, FrameOf, AsExit, NeedMore, Complete;
    if x.Show? {
      ShowDrops(c, s);
    } else if x.CTake? {
      CostDrops(s.s2c, c.toClient, Take);
    }
  }

  /** A frame received costs less to write than its bytes cost to receive. */
  lemma ShowDrops(c: Config, s: State)
    requires ClientCan(c, s, ClientStep.Show)
    ensures Todo(ClientDo(c, s, ClientStep.Show)) < Todo(s)
  {
    CostDrops(s.s2c, c.toClient, Deliver);
    assert |s.s2c.buf| == HEADER_SIZE + |FrameOf(s.s2c.buf).payload|;
    hide Do, Cost, FrameOf, AsExit;
  }

  /** Every step of the output path lowers the measure. */
  lemma OutputStepDrops(c: Config, s: State, step: Step)
    requires Enabled(c, s, step) && OutputStep(step)
    ensures Todo(After(c, s, step)) < Todo(s)
  {
    hide Todo;
    match step {
      case OfServer(x) =>
        if x.OutRead? || x.ErrRead? {
          ReadDrops(c, s, x);
        } else if x.Reap? {
          ReapDrops(c, s);
        } else {
          ServerDrops(c, s, x);
        }
      case OfClient(x) => ClientDrops(c, s, x);
    }
  }

  lemma OtherServerSteps(c: Config, s: State, x: ServerStep)
    requires ServerCan(c, s, x) && !OutputStep(OfServer(x))
    ensures Todo(ServerDo(c, s, x)) <= Todo(s)
  {
    hide Do, Can, Cost, AsResize, AsStartReply, FrameOf, Exhausted, ExitCode, NeedMore, ReadBytes;
    if x.StartSent? {
      CostDrops(s.s2c, c.toClient, Release(Main));
    }
  }

  lemma OtherClientSteps(c: Config, s: State, x: ClientStep)
    requires ShowOk(s) && ClientCan(c, s, x) && !OutputStep(OfClient(x))
    ensures Todo(ClientDo(c, s, x)) <= Todo(s)
  {
    hide FrameOf, ResizeFrame, StartReplyFrame, Local, Reported;
    if x.GotStart? {
      CostDrops(s.s2c, c.toClient, Deliver);
    }
    hide Do, Can, Cost;
  }

  lemma InputSteps(c: Config, s: State, x: InputStep)
    requires InputCan(c, s, x)
    ensures Todo(InputDo(c, s, x)) == Todo(s)
  {
    hide Do, Can, Cost, Filtered, ResizeFrame;
  }

  lemma FeedSteps(c: Config, s: State, x: FeedStep)
    requires FeedCan(c, s, x)
    ensures Todo(FeedDo(c, s, x)) == Todo(s)
  {
    hide Do, Can, Cost, FeedNext, FrameOf;
  }

  lemma CommandSteps(c: Config, s: State, x: CommandStep)
    requires CommandCan(c, s, x)
    ensures Todo(CommandDo(c, s, x)) == Todo(s) + (if x.WriteOut? || x.WriteErr? then 20 else 0)
  {
    hide Cost;
  }

  /** No step of any thread raises the measure, except that the command writes a
      byte: in every interleaving the number of output-path steps is bounded by
      the amount of output. */
  lemma NothingElseRaises(c: Config, s: State, step: Step)
    requires ShowOk(s) && Enabled(c, s, step)
    ensures Todo(After(c, s, step)) <= Todo(s) +
      (if step.OfCommand? && (step.cmd.WriteOut? || step.cmd.WriteErr?) then 20 else 0)
  {
    hide Todo, ShowOk;
    if OutputStep(step) {
      OutputStepDrops(c, s, step);
    } else {
      match step {
        case OfServer(x) => OtherServerSteps(c, s, x);
        case OfClient(x) => OtherClientSteps(c, s, x);
        case OfInput(x) => InputSteps(c, s, x);
        case OfFeeder(x) => FeedSteps(c, s, x);
        case OfCommand(x) => CommandSteps(c, s, x);
      }
    }
  }

  // ----- some step is enabled -----

  /** The session is open and the output loop has not ended. */
  predicate Live(s: State) {
    s.cli.main.Serving? && !Starting(s.srv.main) && s.cli.result.None? && !s.show.mode.ShowEnded?
  }

  /** A running pump that has read everything so far from an open stream. */
  predicate Idling(p: Pump, src: Source) {
    p.Reading? && src.read == |src.bytes| && !src.closed
  }

  /** The server is waiting for nothing but the command. */
  predicate AwaitsCommand(s: State) {
    || (s.srv.main.Pumping? && (Idling(s.srv.out, s.cmd.out) || Idling(s.srv.err, s.cmd.err)))
    || (s.srv.main.Reaping? && s.cmd.status.None?)
  }

  /** Output is on its way: read by a pump and not shown, or written and not yet
      read by a running pump. */
  predicate Undelivered(s: State) {
    || s.show.out != s.cmd.out.bytes[..Min(s.cmd.out.read, |s.cmd.out.bytes|)]
    || s.show.err != s.cmd.err.bytes[..Min(s.cmd.err.read, |s.cmd.err.bytes|)]
    || (!s.srv.out.Ended? && s.cmd.out.read < |s.cmd.out.bytes|)
    || (s.srv.err.Reading? && s.cmd.err.read < |s.cmd.err.bytes|)
    || s.srv.err.Sending?
  }

  function Min(a: nat, b: nat): nat {
    if a < b then a else b
  }

  /** The writer that holds or wants the channel, and what it does next. */
  lemma WriterMoves(c: Config, s: State, w: Writer) returns (step: Step)
    requires Sane(c) && LinkInv(s.s2c, c.toClient) && ServerOk(s) && !Starting(s.srv.main)
    requires w == Main || w == ErrPump
    requires s.s2c.taken == |s.s2c.wire|
    requires s.s2c.owner == Some(w) || (s.s2c.owner.None? && JobOf(s.s2c, w) != Off)
    ensures OutputStep(step) && Enabled(c, s, step)
  {
    hide LinkInv, ServerOk, PcOf;
    JobState(s);
    if s.s2c.owner.None? {
      FreeMeansWants(s.s2c, c.toClient, w);
      step := OfServer(SWrite(Acquire(w)));
    } else {
      OwnerHasJob(s.s2c, c.toClient);
      HolderMoves(s.s2c, c.toClient, w);
      JobFits(s.s2c, c.toClient, w);
      if Can(s.s2c, c.toClient, Accept(w)) {
        step := OfServer(SWrite(Accept(w)));
      } else if Can(s.s2c, c.toClient, Put(w)) {
        step := OfServer(SWrite(Put(w)));
      } else {
        assert Can(s.s2c, c.toClient, Release(w));
        step := OfServer(if w == ErrPump then ErrSent else if s.srv.main.SendExit? then ExitSent else OutSent);
      }
    }
  }

  /** Who has a job on the channel to the client, and that its frame fits. */
  lemma JobState(s: State)
    requires ServerOk(s) && !Starting(s.srv.main)
    ensures var jm, je := JobOf(s.s2c, Main), JobOf(s.s2c, ErrPump);
      && (jm != Off ==> Fits(jm.f) && ((s.srv.main.Pumping? && s.srv.out.Sending?) || s.srv.main.SendExit?))
      && (je != Off ==> Fits(je.f) && s.srv.main.Pumping? && s.srv.err.Sending?)
      && (s.srv.main.Pumping? && s.srv.out.Sending? ==> jm != Off)
      && (s.srv.main.SendExit? ==> jm != Off)
      && (s.srv.main.Pumping? && s.srv.err.Sending? ==> je != Off)
  {
    hide Streams, ServerInv.Trace, Pumps, ExitCode;
  }

  /** With the channel empty and no writer, the server either goes on or waits
      for the command. */
  lemma ServerMoves(c: Config, s: State) returns (o: Option<Step>)
    requires Live(s) && s.show.mode.ShowReading? && ServerOk(s)
    requires JobOf(s.s2c, Main) == Off && JobOf(s.s2c, ErrPump) == Off
    requires s.s2c.taken == |s.s2c.wire| && NeedMore(s.s2c.buf)
    ensures o.Some? ==> OutputStep(o.value) && Enabled(c, s, o.value)
    ensures o.None? ==> AwaitsCommand(s)
    ensures o.None? && s.srv.main.Pumping? ==>
              (s.srv.out.Reading? ==> s.cmd.out.read == |s.cmd.out.bytes|)
              && (s.srv.err.Reading? ==> s.cmd.err.read == |s.cmd.err.bytes|)
  {
    hide ServerOk, NeedMore, JobOf;
    PumpStates(s);
    match s.srv.main {
      case Pumping =>
        if s.srv.out.Reading? && s.cmd.out.read < |s.cmd.out.bytes| {
          assert CanRead(s.cmd.out, 1);
          o := Some(OfServer(OutRead(1)));
        } else if s.srv.err.Reading? && s.cmd.err.read < |s.cmd.err.bytes| {
          assert CanRead(s.cmd.err, 1);
          o := Some(OfServer(ErrRead(1)));
        } else if s.srv.out.Reading? && s.cmd.out.closed {
          o := Some(OfServer(OutEof));
        } else if s.srv.err.Reading? && s.cmd.err.closed {
          o := Some(OfServer(ErrEof));
        } else if s.srv.out.Reading? || s.srv.err.Reading? {
          o := None;
        } else {
          o := Some(OfServer(PumpsDone));
        }
      case Reaping => o := if s.cmd.status.Some? then Some(OfServer(Reap)) else None;
      case Finished(_) => o := Some(OfClient(ShowLost));
    }
  }

  lemma PumpStates(s: State)
    requires ServerOk(s) && !Starting(s.srv.main)
    ensures s.cmd.out.read <= |s.cmd.out.bytes| && s.cmd.err.read <= |s.cmd.err.bytes|
    ensures JobOf(s.s2c, Main) == Off ==> !s.srv.main.SendExit? && !(s.srv.main.Pumping? && s.srv.out.Sending?)
    ensures JobOf(s.s2c, ErrPump) == Off ==> !(s.srv.main.Pumping? && s.srv.err.Sending?)
    ensures s.srv.main.Pumping? ==> !s.srv.out.Absent?
    ensures JobOf(s.s2c, Main) == Off ==> forall w :: w == Main ==> PcOf(s.s2c, w).Idle?
    ensures JobOf(s.s2c, ErrPump) == Off ==> forall w :: w == ErrPump ==> PcOf(s.s2c, w).Idle?
  {
    hide ServerInv.Trace, ExitCode, StreamOf, IsOutput;
  }

  /** What the server has read is shown, once everything sent is received. */
  lemma AllShown(c: Config, s: State)
    requires ServerOk(s) && ShowOk(s) && s.show.mode.ShowReading?
    requires JobOf(s.s2c, Main) == Off && JobOf(s.s2c, ErrPump) == Off
    requires s.s2c.delivered == Frames(s.s2c.log)
    ensures s.cmd.out.read <= |s.cmd.out.bytes| && s.cmd.err.read <= |s.cmd.err.bytes|
    ensures s.show.out == s.cmd.out.bytes[..s.cmd.out.read]
    ensures s.show.err == s.cmd.err.bytes[..s.cmd.err.read]
  {
    hide ServerInv.Trace, Phase, Pumps, StreamOf, Started, Reported, NoExit;
    assert s.show.out + [] == s.show.out;
    assert s.show.err + [] == s.show.err;
  }

  /** The next step of the output path of a live session; none only when the
      server waits for the command and everything read is shown. */
  lemma OutputMoves(c: Config, s: State) returns (o: Option<Step>)
    requires Sane(c) && LinkInv(s.s2c, c.toClient) && Roles(s) && ServerOk(s) && ShowOk(s) && Live(s)
    ensures o.Some? ==> OutputStep(o.value) && Enabled(c, s, o.value)
    ensures o.None? ==> AwaitsCommand(s) && !Undelivered(s)
  {
    hide LinkInv, Roles, ServerOk, ShowOk, NeedMore, Complete, AwaitsCommand, Undelivered, JobOf;
    ReaderInOrder(s.s2c, c.toClient);
    LiveModes(s);
    if s.show.mode.ShowWriting? {
      o := Some(OfClient(if s.show.todo != [] then ShowByte else ShowDone));
    } else if Complete(s.s2c.buf) {
      o := Some(OfClient(ClientStep.Show));
    } else if s.s2c.taken < |s.s2c.wire| {
      o := Some(OfClient(CTake));
    } else {
      TakenAll(s.s2c, c.toClient);
      o := QuietMoves(c, s);
    }
  }

  lemma LiveModes(s: State)
    requires ShowOk(s) && Live(s)
    ensures s.show.mode.ShowWriting? || s.show.mode.ShowReading?
  {
    hide Local, Reported;
  }

  lemma TakenAll(l: Link, cap: nat)
    requires LinkInv(l, cap) && l.taken >= |l.wire|
    ensures l.taken == |l.wire|
  {
    hide Mutex, Writers, Bytes, InSync, Order;
  }

  lemma QuietMoves(c: Config, s: State) returns (o: Option<Step>)
    requires Sane(c) && LinkInv(s.s2c, c.toClient) && Roles(s) && ServerOk(s) && ShowOk(s) && Live(s)
    requires s.show.mode.ShowReading? && s.s2c.taken == |s.s2c.wire| && NeedMore(s.s2c.buf)
    ensures o.Some? ==> OutputStep(o.value) && Enabled(c, s, o.value)
    ensures o.None? ==> AwaitsCommand(s) && !Undelivered(s)
  {
    hide LinkInv, ServerOk, ShowOk, NeedMore, AwaitsCommand, Undelivered, JobOf, OutputStep, Enabled;
    if s.s2c.owner.Some? {
      OwnerHasJob(s.s2c, c.toClient);
      var step := WriterMoves(c, s, s.s2c.owner.value);
      o := Some(step);
    } else if JobOf(s.s2c, Main) != Off {
      var step := WriterMoves(c, s, Main);
      o := Some(step);
    } else if JobOf(s.s2c, ErrPump) != Off {
      var step := WriterMoves(c, s, ErrPump);
      o := Some(step);
    } else {
      o := ServerMoves(c, s);
      if o.None? {
        Drained(s.s2c, c.toClient);
        AllShown(c, s);
        WaitingMeansShown(s);
      }
    }
  }

  lemma WaitingMeansShown(s: State)
    requires AwaitsCommand(s) && ServerOk(s)
    requires JobOf(s.s2c, Main) == Off && JobOf(s.s2c, ErrPump) == Off
    requires s.cmd.out.read <= |s.cmd.out.bytes| && s.cmd.err.read <= |s.cmd.err.bytes|
    requires s.show.out == s.cmd.out.bytes[..s.cmd.out.read]
    requires s.show.err == s.cmd.err.bytes[..s.cmd.err.read]
    requires s.srv.main.Pumping? ==>
               (s.srv.out.Reading? ==> s.cmd.out.read == |s.cmd.out.bytes|)
               && (s.srv.err.Reading? ==> s.cmd.err.read == |s.cmd.err.bytes|)
    ensures !Undelivered(s)
  {
    PumpStates(s);
    assert s.srv.main.Reaping? ==> s.srv.out.Ended? && !s.srv.err.Reading? && !s.srv.err.Sending? by {
      hide Streams, ServerInv.Trace, Phase;
    }
    hide ServerOk;
  }

  /** No deadlock on the output path: in every reachable state of a live session
      in which output is not yet delivered, or in which the server waits for
      anything but the command, some step of the output path is enabled and
      lowers the measure, whatever the state of the command's stdin, of the other
      channel and of its mutex. */
  lemma NoOutputDeadlock(c: Config, states: seq<State>, steps: seq<Step>, k: nat)
    requires IsSession(c, states, steps) && k < |states| && Live(states[k])
    requires Undelivered(states[k]) || !AwaitsCommand(states[k])
    ensures exists step :: OutputStep(step) && Enabled(c, states[k], step)
                           && 0 <= Todo(After(c, states[k], step)) < Todo(states[k])
  {
    hide IsSession, LinkInv, Roles, ServerOk, ClientOk, ShowOk, FeedOk, Live, Undelivered, AwaitsCommand, Todo,
         OutputStep, Enabled, After;
    Parts(c, states, steps, k);
    var s := states[k];
    var o := OutputMoves(c, s);
    OutputStepDrops(c, s, o.value);
    AfterPositive(c, s, o.value);
  }

  lemma AfterPositive(c: Config, s: State, step: Step)
    requires LinkInv(s.s2c, c.toClient) && LinkInv(s.c2s, c.toServer) && Roles(s) && ServerOk(s)
    requires Enabled(c, s, step)
    ensures Todo(After(c, s, step)) >= 0
  {
    hide LinkInv, Roles, ServerOk, Enabled, After, Todo;
    KeepsLinks(c, s, step);
    KeepsServer(c, s, step);
    TodoPositive(c, After(c, s, step));
  }

  // ----- the session ends -----

  /** The command has ended and closed its outputs, and no output pump failed. */
  predicate Ending(s: State) {
    && s.cmd.out.closed && s.cmd.status.Some?
    && (s.srv.err.Reading? || s.srv.err.Sending? ==> s.cmd.err.closed)
    && s.srv.out != Ended(false) && s.srv.err != Ended(false) && s.srv.main != Finished(false)
    && s.cli.done == [] && !s.cli.main.ClientPanic?
  }

  /** What a step of the output path leaves behind: the command unchanged but for
      what was read, no pump failed, and the output loop running or ended. */
  predicate Continues(s: State, t: State) {
    && t.cmd == s.cmd.(out := s.cmd.out.(read := t.cmd.out.read), err := s.cmd.err.(read := t.cmd.err.read))
    && (t.show.mode != ShowEnded ==> Ending(t) && Live(t))
    && (t.show.mode == ShowEnded ==> |t.cli.done| == 1 && t.cli.result.None? && t.cli.main.Serving?)
  }

  lemma ServerContinues(c: Config, s: State, x: ServerStep)
    requires Ending(s) && Live(s) && ServerCan(c, s, x) && OutputStep(OfServer(x)) && Pumps(s.srv, s.cmd)
    ensures Continues(s, ServerDo(c, s, x)) && ServerDo(c, s, x).show == s.show
  {
    hide Do, Can, ExitCode, ExitFrame, ReadBytes;
  }

  lemma ClientContinues(c: Config, s: State, x: ClientStep)
    requires Ending(s) && Live(s) && ClientCan(c, s, x) && OutputStep(OfClient(x))
    ensures Continues(s, ClientDo(c, s, x))
    ensures ClientDo(c, s, x).show.mode == ShowEnded ==> x.Show? || x.ShowLost?
  {
    hide Do, Can, FrameOf, NeedMore, AsExit;
  }

  lemma EndingStays(c: Config, s: State, step: Step)
    requires Ending(s) && Live(s) && Enabled(c, s, step) && OutputStep(step) && Pumps(s.srv, s.cmd)
    ensures Continues(s, After(c, s, step))
    ensures After(c, s, step).show.mode == ShowEnded ==> step == OfClient(ClientStep.Show) || step == OfClient(ShowLost)
  {
    hide Continues, Ending, Pumps, ServerCan, ServerDo, ClientCan, ClientDo, CommandCan, FeedCan, InputCan;
    match step {
      case OfServer(x) => ServerContinues(c, s, x);
      case OfClient(x) => ClientContinues(c, s, x);
    }
  }

  /** It ends with a code, not without one. */
  lemma EndsWithCode(c: Config, s: State, step: Step)
    requires LinkInv(s.s2c, c.toClient) && Roles(s) && ServerOk(s) && ShowOk(s) && FeedOk(c, s)
    requires Ending(s) && Live(s) && Enabled(c, s, step) && OutputStep(step)
    requires After(c, s, step).show.mode == ShowEnded
    ensures After(c, s, step).cli.done != [] && After(c, s, step).cli.done[0].Code?
  {
    hide LinkInv, Roles, ServerOk, ShowOk, FeedOk, NeedMore, Do, ExitCode, FrameOf, AsExit, Complete;
    PumpsOf(s);
    EndingStays(c, s, step);
    if step.cli.ShowLost? {
      NotLost(c, s);
      assert false;
    } else {
      DeliverNext(s.s2c, c.toClient);
      TraceOfLog(c, s);
      OpenFirst(s);
      var i := |s.s2c.delivered|;
      assert Frames(s.s2c.log)[i] == FrameOf(s.s2c.buf);
      ShownFrame(c, Frames(s.s2c.log), i);
      ShowPosts(c, s);
    }
  }

  lemma ShownFrame(c: Config, fs: seq<Frame>, i: nat)
    requires IsServerTrace(c.tty, fs) && 1 <= i < |fs|
    ensures fs[i].ty == Stdout || fs[i].ty == Stderr || (fs[i].ty == Exit && AsExit(fs[i]).Some?)
  {
    hide AsExit;
  }

  lemma ShowPosts(c: Config, s: State)
    requires Ending(s) && ClientCan(c, s, ClientStep.Show)
    requires var f := FrameOf(s.s2c.buf);
             f.ty == Stdout || f.ty == Stderr || (f.ty == Exit && AsExit(f).Some?)
    ensures var t := ClientDo(c, s, ClientStep.Show);
      t.show.mode == ShowEnded ==> t.cli.done != [] && t.cli.done[0].Code?
  {
    hide Do, FrameOf, AsExit, Complete;
  }

  /** The channel of a server that finished well does not end before its exit
      frame was delivered. */
  lemma NotLost(c: Config, s: State)
    requires LinkInv(s.s2c, c.toClient) && Roles(s) && ServerOk(s) && ShowOk(s)
    requires s.srv.main != Finished(false)
    ensures !ClientCan(c, s, ShowLost)
  {
    hide LinkInv, ServerOk, ShowOk, NeedMore, JobOf;
    if ClientCan(c, s, ShowLost) {
      StartFirst(s);
      if s.s2c.owner.Some? {
        OwnerHasJob(s.s2c, c.toClient);
      }
      Drained(s.s2c, c.toClient);
      FinishedLogged(s);
      assert s.s2c.delivered[|s.s2c.log| - 1].ty == Exit;
      NoExitShown(s);
    }
  }

  lemma FinishedLogged(s: State)
    requires ServerOk(s) && s.srv.main == Finished(true)
    ensures s.s2c.log != [] && s.s2c.log[|s.s2c.log| - 1].frame.ty == Exit
  {
    hide Streams, ServerInv.Entry, ExitCode;
  }

  lemma NoExitShown(s: State)
    requires ShowOk(s) && s.show.mode.ShowReading?
    ensures NoExit(s.s2c.delivered)
  {
    hide Reported, StreamOf;
  }

  lemma PumpsOf(s: State)
    requires ServerOk(s)
    ensures Pumps(s.srv, s.cmd)
  {
    hide Streams, ServerInv.Trace, Phase;
  }

  predicate AllOutput(steps: seq<Step>) {
    forall i :: 0 <= i < |steps| ==> OutputStep(steps[i])
  }

  /** The output loop has reported the code, and nothing is missing. */
  ghost predicate CodeReported(s: State, code: I32) {
    s.cli.done != [] && s.cli.done[0] == Code(code) && FullyDelivered(s, code)
  }

  /** Nothing but the output path is needed to finish: once the command has ended
      and closed its outputs, output-path steps alone, at most as many as the
      measure says, bring the client to report the code, whatever state the input
      side is in, and without it taking a step. */
  lemma {:induction false} Drains(c: Config, s: State) returns (states: seq<State>, steps: seq<Step>)
    requires Sane(c) && Inv(c, s) && Live(s) && Ending(s)
    ensures IsPath(c, s, states, steps) && AllOutput(steps) && |states| - 1 == |steps| <= Todo(s)
    ensures var t := states[|states| - 1];
      && Inv(c, t) && t.cmd.status == s.cmd.status && CodeReported(t, ExitCode(s.cmd.status.value))
      && t.cli.main.Serving? && t.cli.result.None?
      && t.c2s == s.c2s && t.keys == s.keys && t.winch == s.winch && t.feed == s.feed
    decreases Todo(s)
  {
    hide LinkInv, Roles, ServerOk, ClientOk, ShowOk, FeedOk, Enabled, OutputStep, After, Todo, Ending, Live, IsPath,
         AllOutput, ExitCode, AwaitsCommand, Undelivered, FullyDelivered;
    var o := OutputMoves(c, s);
    EndingNotWaiting(s);
    var step := o.value;
    var t := After(c, s, step);
    InvStep(c, s, step);
    OutputStepDrops(c, s, step);
    TodoPositive(c, t);
    PumpsOf(s);
    EndingStays(c, s, step);
    InputUntouched(c, s, step);
    if t.show.mode == ShowEnded {
      EndsWithCode(c, s, step);
      EndingStatus(s);
      ReportedComplete(c, t, 0);
      DeliveredStatus(t, t.cli.done[0].code);
      states, steps := [s, t], [step];
      OneStep(c, s, step);
    } else {
      EndingStatus(s);
      var ts, rest := Drains(c, t);
      PathCons(c, s, step, ts, rest);
      AllOutputCons(step, rest);
      states, steps := [s] + ts, [step] + rest;
      assert states[|states| - 1] == ts[|ts| - 1];
    }
  }

  lemma EndingStatus(s: State)
    requires Ending(s)
    ensures s.cmd.status.Some?
  {
  }

  lemma DeliveredStatus(s: State, code: I32)
    requires FullyDelivered(s, code)
    ensures s.cmd.status.Some? && code == ExitCode(s.cmd.status.value)
  {
  }

  lemma OneStep(c: Config, s: State, step: Step)
    requires Enabled(c, s, step) && OutputStep(step)
    ensures IsPath(c, s, [s, After(c, s, step)], [step]) && AllOutput([step])
  {
    hide Enabled, After, OutputStep;
  }

  lemma AllOutputCons(step: Step, steps: seq<Step>)
    requires OutputStep(step) && AllOutput(steps)
    ensures AllOutput([step] + steps)
  {
    hide OutputStep;
  }

  /** The output path does not touch the input side. */
  lemma InputUntouched(c: Config, s: State, step: Step)
    requires Enabled(c, s, step) && OutputStep(step)
    ensures var t := After(c, s, step);
      t.c2s == s.c2s && t.keys == s.keys && t.winch == s.winch && t.feed == s.feed
  {
    hide Do, Can, FrameOf, AsExit, ExitCode, NeedMore, Complete, ReadBytes;
  }

  // ----- every schedule -----

  /** The command's output is closed for good. */
  predicate Sealed(s: State) {
    && s.cmd.out.closed && s.cmd.status.Some? && !Starting(s.srv.main)
    && (s.srv.wiring == Pipes ==> s.cmd.err.closed)
  }

  lemma EndingSealed(s: State)
    requires Ending(s) && Live(s) && Pumps(s.srv, s.cmd)
    ensures Sealed(s)
  {
  }

  lemma SealedStays(c: Config, s: State, step: Step)
    requires Sealed(s) && Enabled(c, s, step)
    ensures var t := After(c, s, step);
      && Sealed(t) && t.cmd.status == s.cmd.status
      && t.cmd.out.bytes == s.cmd.out.bytes && t.cmd.err.bytes == s.cmd.err.bytes
    ensures !(step.OfCommand? && (step.cmd.WriteOut? || step.cmd.WriteErr?))
  {
    hide Do, Can, FrameOf, AsExit, AsResize, AsStartReply, Filtered, FeedNext, ExitCode, NeedMore, Complete,
         ReadBytes, ServerLives, ClientLives;
  }

  /** No local failure and no end of a loop on the input side. */
  predicate Undisturbed(s: State, step: Step, t: State) {
    && step != OfServer(OutFail) && step != OfServer(ErrFail) && step != OfServer(WaitFail)
    && step != OfClient(ShowFail) && !LoopEnds(s, t)
  }

  /** The steps of the input side, the feeder and the command leave the output
      path as it is. */
  lemma OthersGoOn(c: Config, s: State, step: Step)
    requires Ending(s) && Live(s) && Sealed(s) && Enabled(c, s, step) && !OutputStep(step)
    requires Undisturbed(s, step, After(c, s, step))
    ensures Ending(After(c, s, step)) && Live(After(c, s, step))
  {
    hide Do, Can, FrameOf, AsExit, AsResize, AsStartReply, Filtered, FeedNext, ExitCode, NeedMore, Complete;
  }

  /** Every step leaves a session that goes on, or one whose code is reported. */
  lemma GoesOn(c: Config, s: State, step: Step)
    requires Inv(c, s) && Ending(s) && Live(s) && Enabled(c, s, step) && Undisturbed(s, step, After(c, s, step))
    ensures var t := After(c, s, step); (Ending(t) && Live(t)) || (t.cli.done != [] && t.cli.done[0].Code?)
  {
    hide LinkInv, Roles, ServerOk, ClientOk, ShowOk, FeedOk, Enabled, OutputStep, After, Ending, Live;
    PumpsOf(s);
    if OutputStep(step) {
      EndingStays(c, s, step);
      if After(c, s, step).show.mode == ShowEnded {
        EndsWithCode(c, s, step);
      }
    } else {
      EndingSealed(s);
      hide Undisturbed, Sealed;
      OthersGoOn(c, s, step);
    }
  }

  ghost predicate UndisturbedPath(states: seq<State>, steps: seq<Step>) {
    |steps| < |states| && forall i :: 0 <= i < |steps| ==> Undisturbed(states[i], steps[i], states[i + 1])
  }

  function OutputSteps(steps: seq<Step>): nat {
    if steps == [] then 0
    else OutputSteps(steps[..|steps| - 1]) + (if OutputStep(steps[|steps| - 1]) then 1 else 0)
  }

  ghost predicate GoingOn(s: State) {
    (Ending(s) && Live(s)) || (s.cli.done != [] && s.cli.done[0].Code?)
  }

  lemma {:induction false} PathGoesOn(c: Config, s: State, states: seq<State>, steps: seq<Step>, k: nat)
    requires Inv(c, s) && Live(s) && Ending(s) && IsPath(c, s, states, steps) && UndisturbedPath(states, steps)
    requires k <= |steps|
    ensures Inv(c, states[k]) && GoingOn(states[k]) && Sealed(states[k])
    ensures var t := states[k];
      && t.cmd.status == s.cmd.status && t.cmd.out.bytes == s.cmd.out.bytes && t.cmd.err.bytes == s.cmd.err.bytes
      && OutputSteps(steps[..k]) + Todo(t) <= Todo(s)
  {
    hide LinkInv, Roles, ServerOk, ClientOk, ShowOk, FeedOk, Enabled, OutputStep, After, Ending, Live, Sealed, Todo,
         Undisturbed;
    if k == 0 {
      PumpsOf(s);
      EndingSealed(s);
    } else {
      PathGoesOn(c, s, states, steps, k - 1);
      var r, step, t := states[k - 1], steps[k - 1], states[k - 1 + 1];
      assert Enabled(c, r, step) && t == After(c, r, step) && Undisturbed(r, step, t);
      InvStep(c, r, step);
      SealedStays(c, r, step);
      assert steps[..k][..k - 1] == steps[..k - 1];
      TodoMoves(c, r, step);
      if Ending(r) && Live(r) {
        GoesOn(c, r, step);
      } else {
        ReportsStay(c, r, step);
      }
    }
  }

  lemma TodoMoves(c: Config, s: State, step: Step)
    requires ShowOk(s) && Enabled(c, s, step)
    requires !(step.OfCommand? && (step.cmd.WriteOut? || step.cmd.WriteErr?))
    ensures Todo(After(c, s, step)) + (if OutputStep(step) then 1 else 0) <= Todo(s)
  {
    hide ShowOk, Todo, After, Enabled, OutputStep;
    NothingElseRaises(c, s, step);
    if OutputStep(step) {
      OutputStepDrops(c, s, step);
    }
  }

  /** Every schedule delivers: once the command has ended and closed its outputs,
      take any interleaving of all threads without local failure and without an
      end of the input or resize loop. It contains no more output-path steps than
      the measure says, and in each of its states the code is reported with all
      of the output, or else some output-path step is enabled. So a run that
      leaves no output-path step enabled for ever returns the code. */
  lemma EveryScheduleDrains(c: Config, s: State, states: seq<State>, steps: seq<Step>, k: nat)
    requires Sane(c) && Inv(c, s) && Live(s) && Ending(s)
    requires IsPath(c, s, states, steps) && UndisturbedPath(states, steps) && k <= |steps| < |states|
    ensures OutputSteps(steps[..k]) <= Todo(s)
    ensures var t := states[k];
      && t.cmd.out.bytes == s.cmd.out.bytes && t.cmd.err.bytes == s.cmd.err.bytes
      && (CodeReported(t, ExitCode(s.cmd.status.value))
          || (t.cli.done == [] && exists step :: OutputStep(step) && Enabled(c, t, step)))
  {
    hide LinkInv, Roles, ServerOk, ClientOk, ShowOk, FeedOk, Enabled, OutputStep, After, Live, Todo, ExitCode,
         IsPath, UndisturbedPath, FullyDelivered, AwaitsCommand, Undelivered, OutputSteps, Sealed;
    PathGoesOn(c, s, states, steps, k);
    var t := states[k];
    TodoPositive(c, t);
    if t.cli.done != [] && t.cli.done[0].Code? {
      ReportedComplete(c, t, 0);
      DeliveredStatus(t, t.cli.done[0].code);
    } else {
      var o := OutputMoves(c, t);
      EndingNotWaiting(t);
    }
  }

  lemma EndingNotWaiting(s: State)
    requires Ending(s)
    ensures !AwaitsCommand(s)
  {
  }
}
