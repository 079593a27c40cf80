/** The input path. It cannot deadlock as long as the command reads: what was
    typed moves on, through the input and resize loops, the channel to the server,
    the input pump and the pipe, until the command has read all of it and, after
    the end of stdin, seen the end of file. */
module InputProgress {
  import opened Wire
  import opened Link
  import opened Escape
  import opened Feed
  import opened Terminal
  import opened Session
  import opened ServerInv
  import opened ClientInv
  import opened ShowInv
  import opened FeedInv
  import opened SessionInv
  import opened StdinDelivery

  /** Steps that move what was typed towards the command. */
  predicate Push(step: Step) {
    match step
    case OfClient(x) => x.CWrite?
    case OfInput(x) => x.TypeSent? || x.TypeRefused? || x.TypeEofSent? || x.ResizedSent?
    case OfFeeder(x) => x.FeedTake? || x.FeedGot? || x.FeedByte? || x.FeedDone?
    case _ => false
  }

  /** These, and the command's own reading. */
  predicate InputPath(s: State, step: Step) {
    Push(step) || step == OfCommand(ReadIn) || (step == OfCommand(SeeEof) && !s.cmd.sawEof)
  }

  /** The session is open on both sides and no write to the command's stdin has
      failed. */
  predicate Running(s: State) {
    && s.cli.main.Serving? && s.cli.result.None?
    && !Starting(s.srv.main) && ServerLives(s)
    && s.feed.pump != FeedEnded(Broken)
  }

  // ----- the measure -----

  /** Bytes on their way to the command; a byte costs less the further it is. */
  function InputTodo(s: State): int {
    4 * Cost(s.c2s) + 2 * |s.feed.todo| + (if s.feed.pump.FeedWriting? then 1 else 0)
    + |s.feed.fed| - s.cmd.stdinRead + (if s.cmd.sawEof then 0 else 1)
  }

  lemma InputTodoPositive(c: Config, s: State)
    requires LinkInv(s.c2s, c.toServer) && FeedOk(c, s)
    ensures InputTodo(s) >= 0
  {
    hide LinkInv, Cost, Shaken, Feeds, ServerLives;
    CostPositive(s.c2s, c.toServer);
  }

  lemma FeederDrops(c: Config, s: State, x: FeedStep)
    requires FeedCan(c, s, x) && Push(OfFeeder(x))
    ensures InputTodo(FeedDo(c, s, x)) < InputTodo(s)
  {
    hide Do, Can, Cost, FeedNext, FrameOf, ServerLives;
    if x.FeedTake? {
      CostDrops(s.c2s, c.toServer, Take);
    } else if x.FeedGot? {
      CostDrops(s.c2s, c.toServer, Deliver);
      TodoOfFrame(c, s);
    }
  }

  /** What a frame gives the pump to write is little more than its payload. */
  lemma TodoOfFrame(c: Config, s: State)
    requires FeedCan(c, s, FeedGot)
    ensures var n := FeedNext(s.srv.wiring, s.feed, FrameOf(s.c2s.buf));
      n.fed == s.feed.fed && 2 * |n.todo| + 1 < 4 * |s.c2s.buf| + 2 * |s.feed.todo|
  {
    hide AsResize;
    assert |s.c2s.buf| == HEADER_SIZE + |FrameOf(s.c2s.buf).payload|;
  }

  lemma LoopDrops(c: Config, s: State, x: InputStep)
    requires InputCan(c, s, x) && Push(OfInput(x))
    ensures InputTodo(InputDo(c, s, x)) < InputTodo(s)
  {
    hide Do, Can, Cost;
    var op := if x.TypeRefused? then Refuse(InLoop) else if x.ResizedSent? then Release(Resizer) else Release(InLoop);
    CostDrops(s.c2s, c.toServer, op);
  }

  /** Every step of the input path lowers the measure. */
  lemma InputStepDrops(c: Config, s: State, step: Step)
    requires FeedOk(c, s) && Enabled(c, s, step) && InputPath(s, step)
    ensures InputTodo(After(c, s, step)) < InputTodo(s)
  {
    hide Do, Can, Cost, FeedOk, FeedCan, FeedDo, InputCan, InputDo;
    match step {
      case OfClient(x) => CostDrops(s.c2s, c.toServer, x.op);
      case OfInput(x) => LoopDrops(c, s, x);
      case OfFeeder(x) => FeederDrops(c, s, x);
      case OfCommand(x) =>
    }
  }

  // ----- the next step -----

  /** The job of a loop and its mode. */
  lemma LoopJob(c: Config, s: State)
    requires ClientOk(c, s) && Roles(s) && s.cli.main.Serving?
    ensures JobOf(s.c2s, Main) == Off && JobOf(s.c2s, ErrPump) == Off
    ensures JobOf(s.c2s, InLoop) != Off <==> s.keys.mode.KeysSending? || s.keys.mode.KeysEof?
    ensures JobOf(s.c2s, InLoop) != Off && !Fits(JobOf(s.c2s, InLoop).f) ==> s.keys.mode == KeysSending(false)
    ensures JobOf(s.c2s, Resizer) != Off <==> s.winch.WinchSending?
    ensures JobOf(s.c2s, Resizer) != Off ==> Fits(JobOf(s.c2s, Resizer).f)
  {
    hide Input, ClientInv.Trace, EofLogged, ReplyOf, SizeOf, JobOf;
  }

  /** The holder of the mutex is inside its frame and the channel is full. */
  predicate ChannelFull(c: Config, s: State) {
    && s.c2s.owner.Some? && HasByte(PcOf(s.c2s, s.c2s.owner.value))
    && |s.c2s.wire| >= s.c2s.taken + c.toServer
  }

  /** No writer can go on: none has a frame to write, or the channel is full. */
  predicate WritersStop(c: Config, s: State) {
    (JobOf(s.c2s, InLoop) == Off && JobOf(s.c2s, Resizer) == Off) || ChannelFull(c, s)
  }

  /** The pump has bytes to write and there is no room for them. */
  predicate PipeFull(c: Config, s: State) {
    s.feed.pump.FeedWriting? && s.feed.todo != [] && |s.feed.fed| >= s.cmd.stdinRead + c.pipe
  }

  /** Nor can the pump: nothing to take, or no room in the pipe. */
  predicate FeederStops(c: Config, s: State) {
    match s.feed.pump
    case FeedReading => s.c2s.taken == |s.c2s.wire| && NeedMore(s.c2s.buf)
    case FeedWriting => PipeFull(c, s)
    case _ => true
  }

  lemma HolderStep(c: Config, s: State, w: Writer) returns (o: Option<Step>)
    requires LinkInv(s.c2s, c.toServer) && Roles(s) && ClientOk(c, s) && Running(s)
    requires s.c2s.owner == Some(w)
    ensures o.Some? ==> Push(o.value) && Enabled(c, s, o.value)
    ensures o.None? ==> ChannelFull(c, s)
  {
    hide LinkInv, ClientOk, JobOf, Fits, PcOf, HasByte;
    OwnerHasJob(s.c2s, c.toServer);
    LoopJob(c, s);
    HolderMoves(s.c2s, c.toServer, w);
    if Can(s.c2s, c.toServer, Accept(w)) {
      o := Some(OfClient(CWrite(Accept(w))));
    } else if Can(s.c2s, c.toServer, Put(w)) {
      o := Some(OfClient(CWrite(Put(w))));
    } else if Can(s.c2s, c.toServer, Refuse(w)) {
      RefusedJob(s.c2s, c.toServer, w);
      o := Some(OfInput(TypeRefused));
    } else if Can(s.c2s, c.toServer, Release(w)) {
      o := Some(OfInput(if w == Resizer then ResizedSent else if s.keys.mode.KeysEof? then TypeEofSent else TypeSent));
    } else {
      o := None;
    }
  }

  lemma WriterStep(c: Config, s: State) returns (o: Option<Step>)
    requires LinkInv(s.c2s, c.toServer) && Roles(s) && ClientOk(c, s) && Running(s)
    ensures o.Some? ==> Push(o.value) && Enabled(c, s, o.value)
    ensures o.None? ==> WritersStop(c, s)
  {
    hide LinkInv, ClientOk, JobOf, PcOf;
    if s.c2s.owner.Some? {
      o := HolderStep(c, s, s.c2s.owner.value);
    } else if JobOf(s.c2s, InLoop) != Off {
      FreeMeansWants(s.c2s, c.toServer, InLoop);
      o := Some(OfClient(CWrite(Acquire(InLoop))));
    } else if JobOf(s.c2s, Resizer) != Off {
      FreeMeansWants(s.c2s, c.toServer, Resizer);
      o := Some(OfClient(CWrite(Acquire(Resizer))));
    } else {
      o := None;
    }
  }

  lemma FeederStep(c: Config, s: State) returns (o: Option<Step>)
    requires LinkInv(s.c2s, c.toServer) && FeedOk(c, s) && Running(s)
    ensures o.Some? ==> Push(o.value) && Enabled(c, s, o.value)
    ensures o.None? ==> FeederStops(c, s)
  {
    hide LinkInv, FeedOk, NeedMore, Complete;
    ReaderInOrder(s.c2s, c.toServer);
    InBounds(s.c2s, c.toServer);
    o := None;
    if s.feed.pump.FeedReading? {
      if Complete(s.c2s.buf) {
        o := Some(OfFeeder(FeedGot));
      } else if s.c2s.taken < |s.c2s.wire| {
        o := Some(OfFeeder(FeedTake));
      }
    } else if s.feed.pump.FeedWriting? {
      if s.feed.todo == [] {
        o := Some(OfFeeder(FeedDone));
      } else if |s.feed.fed| < s.cmd.stdinRead + c.pipe {
        o := Some(OfFeeder(FeedByte));
      }
    }
  }

  /** Either some step moves what was typed, or both ends of the channel stop. */
  lemma PushMoves(c: Config, s: State) returns (o: Option<Step>)
    requires LinkInv(s.c2s, c.toServer) && Roles(s) && ClientOk(c, s) && FeedOk(c, s) && Running(s)
    ensures o.Some? ==> Push(o.value) && Enabled(c, s, o.value)
    ensures o.None? ==> WritersStop(c, s) && FeederStops(c, s)
  {
    hide LinkInv, Roles, ClientOk, FeedOk, Running, Push, Enabled, WritersStop, FeederStops;
    o := WriterStep(c, s);
    if o.None? {
      o := FeederStep(c, s);
    }
  }

  /** Everything has arrived: the command has read all that was written for it,
      and the pump has received all frames or seen the end of file. */
  predicate Settled(s: State) {
    && s.cmd.stdinRead == |s.feed.fed|
    && (match s.feed.pump
        case FeedReading =>
          && s.c2s.delivered == Frames(s.c2s.log)
          && JobOf(s.c2s, InLoop) == Off && JobOf(s.c2s, Resizer) == Off
        case FeedEnded(_) => s.cmd.sawEof
        case _ => false)
  }

  /** The pump and the command in an open session. */
  lemma PumpState(c: Config, s: State)
    requires FeedOk(c, s) && ServerOk(s) && Running(s)
    ensures s.srv.wiring != Unwired && s.srv.wiring == Wired(c.tty) && s.cmd.stdinRead <= |s.feed.fed|
    ensures s.feed.pump.FeedReading? || s.feed.pump.FeedWriting? || (s.feed.pump == FeedEnded(EofSeen) && !c.tty)
  {
    hide Fed, ReplyOf, SizeOf, StillOpen, Streams, ServerInv.Trace, Phase;
  }

  /** The next step of the input path; none only when everything has arrived. */
  lemma InputMoves(c: Config, s: State) returns (o: Option<Step>)
    requires Sane(c) && LinkInv(s.c2s, c.toServer) && Roles(s)
    requires ServerOk(s) && ClientOk(c, s) && FeedOk(c, s) && Running(s)
    ensures o.Some? ==> InputPath(s, o.value) && Enabled(c, s, o.value)
    ensures o.None? ==> Settled(s)
  {
    hide LinkInv, Roles, ServerOk, ClientOk, FeedOk, Push, NeedMore, JobOf, Frames;
    PumpState(c, s);
    o := PushMoves(c, s);
    if o.None? {
      if s.cmd.stdinRead < |s.feed.fed| {
        o := Some(OfCommand(ReadIn));
      } else if s.feed.pump.FeedEnded? {
        if !s.cmd.sawEof {
          o := Some(OfCommand(SeeEof));
        }
      } else {
        LoopJob(c, s);
        NoOwner(s.c2s, c.toServer);
        Drained(s.c2s, c.toServer);
      }
    }
  }

  lemma NoOwner(l: Link, cap: nat)
    requires LinkInv(l, cap) && JobOf(l, Main) == JobOf(l, ErrPump) == JobOf(l, InLoop) == JobOf(l, Resizer) == Off
    ensures l.owner.None?
  {
    hide LinkInv, JobOf;
    if l.owner.Some? {
      match l.owner.value {
        case Main =>
        case ErrPump =>
        case InLoop =>
        case Resizer =>
      }
      OwnerHasJob(l, cap);
    }
  }

  // ----- what has arrived then -----

  /** What there is for the command: the filtered input, less a refused payload,
      which is one byte larger than a frame can carry. */
  function Arriving(s: State): seq<Byte> {
    var f := Forwarded(s);
    if s.keys.mode == KeysEnded(Refused) && |f| > MAX_PAYLOAD then f[..|f| - MAX_PAYLOAD - 1] else f
  }

  /** The command has got everything: all filtered input but for a refused payload
      and, once stdin has ended, the end of file, which on a terminal is the right
      number of VEOF characters; and a quit that was typed is reported. */
  ghost predicate AllIn(s: State) {
    && s.cmd.stdinRead == |s.feed.fed|
    && s.feed.fed == Arriving(s) + (if s.srv.wiring == Tty && StdinEnded(s) then EofChars(Forwarded(s)) else [])
    && (s.srv.wiring == Pipes && StdinEnded(s) ==> s.cmd.sawEof)
    && (s.srv.wiring == Tty && StdinEnded(s) ==> s.feed.pump.FeedReading? && EofArrived(s))
    && (HasQuit(s.keys.typed) ==> s.keys.mode == KeysEnded(Quit))
  }

  ghost predicate EofArrived(s: State) {
    exists i :: 2 <= i < |s.c2s.delivered| && s.c2s.delivered[i] == EofFrame
  }

  /** Which modes a typed quit leaves the input loop in. */
  lemma QuitModes(c: Config, s: State)
    requires ClientOk(c, s)
    ensures HasQuit(s.keys.typed) <==> s.keys.mode == KeysSending(true) || s.keys.mode == KeysEnded(Quit)
  {
    hide ClientInv.Trace, Opening, LoopJobs, EofLogged, StreamOf, FilterFrom;
    QuitsExactly(s.keys.typed);
  }

  /** With no frame to write, all there is for the command is in the log. */
  lemma AllLogged(c: Config, s: State)
    requires ClientOk(c, s) && JobOf(s.c2s, InLoop) == Off
    ensures StreamOf(Stdin, Frames(s.c2s.log)) == Arriving(s)
    ensures StdinEnded(s) ==> exists i :: 2 <= i < |s.c2s.log| && s.c2s.log[i].frame == EofFrame
  {
    hide ClientInv.Trace, Opening, StreamOf, FilterFrom, JobOf;
    NoTail(StreamOf(Stdin, Frames(s.c2s.log)));
  }

  /** Without an end of stdin the pump has not stopped, and it writes the bytes of
      the stdin frames. */
  lemma FedBytes(c: Config, s: State)
    requires LinkInv(s.c2s, c.toServer) && ServerOk(s) && ClientOk(c, s) && FeedOk(c, s)
    requires Running(s) && !StdinEnded(s)
    ensures s.feed.pump.FeedReading? || s.feed.pump.FeedWriting?
    ensures s.feed.fed + (if s.feed.pump.FeedWriting? then s.feed.todo else []) == StreamOf(Stdin, s.c2s.delivered)
  {
    hide LinkInv, ServerOk, ClientOk, Running, StreamOf, FeedAll, Forwarded, ReplyOf, SizeOf, ServerLives;
    PumpState(c, s);
    forall i | 2 <= i < |s.c2s.delivered| ensures s.c2s.delivered[i] != EofFrame {
      if s.c2s.delivered[i] == EofFrame {
        EofClosesStream(c, s, i);
      }
    }
    PumpStream(c, s);
    var fs := PumpFrames(s);
    assert forall j :: 0 <= j < |fs| ==> fs[j] == s.c2s.delivered[j + 2];
    FrameBytes(Wired(c.tty), FeedStart(c), fs);
    NoTail(StreamOf(Stdin, fs));
    NoTail(s.feed.fed);
  }

  lemma {:induction false} FrameBytes(w: Wiring, st: FeedState, fs: seq<Frame>)
    requires forall i :: 0 <= i < |fs| ==> fs[i] != EofFrame
    ensures FeedAll(w, st, fs).bytes == st.bytes + StreamOf(Stdin, fs)
  {
    if fs == [] {
      NoTail(st.bytes);
    } else {
      var init, f := fs[..|fs| - 1], fs[|fs| - 1];
      FrameBytes(w, st, init);
      Assoc(st.bytes, StreamOf(Stdin, init), f.payload);
      NoTail(StreamOf(Stdin, init));
      assert f.ty == Stdin ==> f.payload != [] by {
        assert f == Frame(f.ty, f.payload);
      }
    }
  }

  lemma OpenPipe(c: Config, s: State)
    requires FeedOk(c, s) && s.srv.wiring == Pipes && s.feed.pump.FeedReading?
    ensures forall i :: 2 <= i < |s.c2s.delivered| ==> s.c2s.delivered[i] != EofFrame
  {
    hide Fed, ReplyOf, SizeOf, StdinUse;
  }

  /** On a terminal the end-of-file frame adds the VEOF characters that the text
      before it calls for, and nothing follows. */
  lemma TerminalEnded(c: Config, s: State, i: nat)
    requires LinkInv(s.c2s, c.toServer) && ClientOk(c, s) && FeedOk(c, s)
    requires s.srv.wiring == Tty && s.feed.pump.FeedReading?
    requires 2 <= i < |s.c2s.delivered| && s.c2s.delivered[i] == EofFrame
    ensures s.feed.fed == Forwarded(s) + EofChars(Forwarded(s))
  {
    hide LinkInv, ClientOk, FeedOk, StreamOf, Forwarded, FeedAll, EndsLine, ReplyOf, SizeOf;
    var st, fs := FeedStart(c), PumpFrames(s);
    TtyFed(c, s);
    EofClosesStream(c, s, i);
    TextBefore(c, s, i);
    var text, rest := fs[..i - 2], fs[i - 1..];
    assert fs[i - 2] == s.c2s.delivered[i];
    assert fs == (text + [EofFrame]) + rest;
    FeedConcat(Tty, st, text + [EofFrame], rest);
    assert forall j :: 0 <= j < |rest| ==> rest[j] == s.c2s.delivered[i + 1 + j];
    NoStdinNoBytes(FeedAll(Tty, st, text + [EofFrame]), rest);
    FeedSnoc(Tty, st, text, EofFrame);
    FrameBytes(Tty, st, text);
    FlagIsLastByte(st, text);
    NoTail(Forwarded(s));
  }

  /** The pump reads on, and has received every frame. */
  lemma ReadingMeansAll(c: Config, s: State)
    requires LinkInv(s.c2s, c.toServer) && ServerOk(s) && ClientOk(c, s) && FeedOk(c, s) && Roles(s)
    requires Running(s) && Settled(s) && s.feed.pump.FeedReading?
    ensures AllIn(s)
  {
    hide LinkInv, ServerOk, ClientOk, FeedOk, Running, StreamOf, Forwarded, Arriving, JobOf, HasQuit, EofChars;
    PumpState(c, s);
    QuitModes(c, s);
    LoopJobOff(c, s);
    AllLogged(c, s);
    if StdinEnded(s) {
      var i :| 2 <= i < |s.c2s.log| && s.c2s.log[i].frame == EofFrame;
      assert s.c2s.delivered[i] == EofFrame;
      if s.srv.wiring == Pipes {
        OpenPipe(c, s);
        assert false;
      } else {
        TerminalEnded(c, s, i);
        NotRefused(s);
      }
    } else {
      FedBytes(c, s);
      NoTail(s.feed.fed);
    }
  }

  lemma NotRefused(s: State)
    requires StdinEnded(s)
    ensures Arriving(s) == Forwarded(s)
  {
    hide Forwarded;
  }

  lemma SettledMeansAll(c: Config, s: State)
    requires LinkInv(s.c2s, c.toServer) && ServerOk(s) && ClientOk(c, s) && FeedOk(c, s) && Roles(s)
    requires Running(s) && Settled(s)
    ensures AllIn(s)
  {
    hide LinkInv, ServerOk, ClientOk, FeedOk, Running, StreamOf, Forwarded, Arriving, JobOf, HasQuit;
    PumpState(c, s);
    if s.feed.pump.FeedReading? {
      ReadingMeansAll(c, s);
    } else {
      PipeFed(c, s);
      QuitModes(c, s);
      EofClosesStream(c, s, |s.c2s.delivered| - 1);
      NotRefused(s);
      NoTail(s.feed.fed);
    }
  }

  lemma LoopJobOff(c: Config, s: State)
    requires ClientOk(c, s) && Roles(s) && Running(s) && JobOf(s.c2s, InLoop) == Off
    ensures !s.keys.mode.KeysSending? && !s.keys.mode.KeysEof?
  {
    hide ClientOk, JobOf;
    LoopJob(c, s);
  }

  /** No deadlock on the input path: in every reachable state of an open session,
      some step of it is enabled and lowers the measure, or everything typed has
      reached the command. */
  lemma NoInputDeadlock(c: Config, states: seq<State>, steps: seq<Step>, k: nat)
    requires IsSession(c, states, steps) && k < |states| && Running(states[k])
    ensures
      || AllIn(states[k])
      || (exists step :: InputPath(states[k], step) && Enabled(c, states[k], step)
                         && 0 <= InputTodo(After(c, states[k], step)) < InputTodo(states[k]))
  {
    hide IsSession, LinkInv, Roles, ServerOk, ClientOk, ShowOk, FeedOk, Running, Settled, AllIn, InputTodo,
         InputPath, Enabled, After;
    Parts(c, states, steps, k);
    var s := states[k];
    var o := InputMoves(c, s);
    if o.Some? {
      InputStepDrops(c, s, o.value);
      AfterInput(c, s, o.value);
    } else {
      SettledMeansAll(c, s);
    }
  }

  lemma AfterInput(c: Config, s: State, step: Step)
    requires Inv(c, s) && Enabled(c, s, step)
    ensures InputTodo(After(c, s, step)) >= 0
  {
    hide LinkInv, Roles, ServerOk, ClientOk, ShowOk, FeedOk, Enabled, After, InputTodo;
    InvStep(c, s, step);
    InputTodoPositive(c, After(c, s, step));
  }

  // ----- it all arrives -----

  /** What the input path leaves alone. */
  predicate SameSession(s: State, t: State) {
    && (Running(s) ==> Running(t)) && t.srv == s.srv && t.show == s.show && t.s2c == s.s2c
    && t.cmd.out == s.cmd.out && t.cmd.err == s.cmd.err && t.cmd.status == s.cmd.status
    && t.keys.typed == s.keys.typed && (StdinEnded(s) ==> StdinEnded(t))
  }

  lemma StepSame(c: Config, s: State, step: Step)
    requires Enabled(c, s, step) && InputPath(s, step)
    ensures SameSession(s, After(c, s, step))
  {
    hide Do, Can, FrameOf, NeedMore, Complete, AsResize;
  }

  lemma SameTwice(s: State, t: State, u: State)
    requires SameSession(s, t) && SameSession(t, u)
    ensures SameSession(s, u)
  {
    hide Running, StdinEnded;
  }

  predicate AllInput(states: seq<State>, steps: seq<Step>) {
    |steps| < |states| && forall i :: 0 <= i < |steps| ==> InputPath(states[i], steps[i])
  }

  /** From every reachable state of an open session, steps of the input path
      alone, at most as many as the measure says, bring everything typed to the
      command, whatever the output side is doing. */
  lemma {:induction false} InputSettles(c: Config, s: State) returns (states: seq<State>, steps: seq<Step>)
    requires Sane(c) && Inv(c, s) && Running(s)
    ensures IsPath(c, s, states, steps) && AllInput(states, steps) && |states| - 1 == |steps| <= InputTodo(s)
    ensures var t := states[|states| - 1]; Inv(c, t) && Running(t) && SameSession(s, t) && AllIn(t)
    decreases InputTodo(s)
  {
    hide LinkInv, Roles, ServerOk, ClientOk, ShowOk, FeedOk, Enabled, InputPath, After, InputTodo, Running, Settled,
         AllIn, IsPath, AllInput;
    InputTodoPositive(c, s);
    var o := InputMoves(c, s);
    if o.None? {
      states, steps := [s], [];
      SettledMeansAll(c, s);
      NoInputSteps(c, s);
    } else {
      var step, t := o.value, After(c, s, o.value);
      InputStepDrops(c, s, step);
      InvStep(c, s, step);
      StepSame(c, s, step);
      var ts, rest := InputSettles(c, t);
      PathCons(c, s, step, ts, rest);
      AllInputCons(s, step, ts, rest);
      states, steps := [s] + ts, [step] + rest;
      assert states[|states| - 1] == ts[|ts| - 1];
      SameTwice(s, t, ts[|ts| - 1]);
    }
  }

  lemma NoInputSteps(c: Config, s: State)
    ensures IsPath(c, s, [s], []) && AllInput([s], []) && SameSession(s, s)
  {
  }

  lemma AllInputCons(s: State, step: Step, states: seq<State>, steps: seq<Step>)
    requires InputPath(s, step) && AllInput(states, steps)
    ensures AllInput([s] + states, [step] + steps)
  {
    hide InputPath;
    assert forall i :: 0 < i < |steps| + 1 ==>
      ([s] + states)[i] == states[i - 1] && ([step] + steps)[i] == steps[i - 1];
  }

  // ----- no other step raises the measure -----

  lemma OtherLoopSteps(c: Config, s: State, x: InputStep)
    requires InputCan(c, s, x) && !Push(OfInput(x)) && !x.Type? && !x.TypeEof? && !x.Resized?
    ensures InputTodo(InputDo(c, s, x)) == InputTodo(s)
  {
    hide Cost, Can, Do;
  }

  lemma OtherSideSteps(c: Config, s: State, step: Step)
    requires Running(s) && ShowOk(s) && Enabled(c, s, step) && (step.OfServer? || (step.OfClient? && !step.cli.CWrite?))
    ensures InputTodo(After(c, s, step)) == InputTodo(s)
  {
    hide Cost, Can, Do, FrameOf, AsExit, ExitCode, NeedMore, Complete, ReadBytes, AsResize, AsStartReply, ShowAll;
  }

  lemma OtherEndSteps(c: Config, s: State, step: Step)
    requires Enabled(c, s, step) && !InputPath(s, step) && (step.OfFeeder? || step.OfCommand?)
    ensures InputTodo(After(c, s, step)) <= InputTodo(s)
  {
    hide Cost, Can, Do, FrameOf, NeedMore, Complete;
  }

  /** Only the user raises it: typing, the end of stdin and a resize. */
  lemma OnlyUserRaises(c: Config, s: State, step: Step)
    requires Running(s) && ShowOk(s) && FeedOk(c, s) && Enabled(c, s, step)
    requires step.OfInput? ==> !step.inp.Type? && !step.inp.TypeEof? && !step.inp.Resized?
    ensures InputTodo(After(c, s, step)) + (if InputPath(s, step) then 1 else 0) <= InputTodo(s)
  {
    hide InputTodo, Running, ShowOk, FeedOk, ServerCan, ServerDo, ClientCan, ClientDo, FeedCan, FeedDo,
         CommandCan, CommandDo, InputCan, InputDo;
    if InputPath(s, step) {
      InputStepDrops(c, s, step);
    } else {
      match step {
        case OfInput(x) => OtherLoopSteps(c, s, x);
        case OfServer(x) => OtherSideSteps(c, s, step);
        case OfClient(x) => OtherSideSteps(c, s, step);
        case _ => OtherEndSteps(c, s, step);
      }
    }
  }

  // ----- every schedule -----

  predicate UserStep(step: Step) {
    step.OfInput? && (step.inp.Type? || step.inp.TypeEof? || step.inp.Resized?)
  }

  /** The session stays open and the user does nothing. */
  ghost predicate LeftAlone(states: seq<State>, steps: seq<Step>) {
    && |steps| < |states|
    && (forall i :: 0 <= i < |states| ==> Running(states[i]))
    && (forall i :: 0 <= i < |steps| ==> !UserStep(steps[i]))
  }

  function InputSteps(states: seq<State>, steps: seq<Step>, k: nat): nat
    requires k <= |steps| < |states|
  {
    if k == 0 then 0
    else InputSteps(states, steps, k - 1) + (if InputPath(states[k - 1], steps[k - 1]) then 1 else 0)
  }

  lemma {:induction false} InputBounded(c: Config, s: State, states: seq<State>, steps: seq<Step>, k: nat)
    requires Inv(c, s) && IsPath(c, s, states, steps) && LeftAlone(states, steps) && k <= |steps|
    ensures Inv(c, states[k])
    ensures InputSteps(states, steps, k) + InputTodo(states[k]) <= InputTodo(s)
  {
    hide LinkInv, Roles, ServerOk, ClientOk, ShowOk, FeedOk, Enabled, InputPath, After, InputTodo, Running;
    if k > 0 {
      InputBounded(c, s, states, steps, k - 1);
      var r, step := states[k - 1], steps[k - 1];
      assert Enabled(c, r, step) && states[k - 1 + 1] == After(c, r, step) && Running(r) && !UserStep(step);
      InvStep(c, r, step);
      OnlyUserRaises(c, r, step);
    }
  }

  /** Every schedule delivers: as long as the session stays open and the user does
      nothing, any interleaving of all threads holds at most as many input-path
      steps as the measure says, and in each of its states everything has arrived
      or such a step is enabled. */
  lemma EveryScheduleSettles(c: Config, s: State, states: seq<State>, steps: seq<Step>, k: nat)
    requires Sane(c) && Inv(c, s) && IsPath(c, s, states, steps) && LeftAlone(states, steps) && k <= |steps| < |states|
    ensures InputSteps(states, steps, k) <= InputTodo(s)
    ensures AllIn(states[k]) || exists step :: InputPath(states[k], step) && Enabled(c, states[k], step)
  {
    hide LinkInv, Roles, ServerOk, ClientOk, ShowOk, FeedOk, Enabled, InputPath, InputTodo, Running, Settled, AllIn,
         IsPath, InputSteps;
    InputBounded(c, s, states, steps, k);
    InputTodoPositive(c, states[k]);
    var o := InputMoves(c, states[k]);
    if o.None? {
      SettledMeansAll(c, states[k]);
    }
  }
}
