/** A quit that is typed but not reported. The input loop reads no key while it is
    inside `send_frame`, and it reports a quit only after the frame with the bytes
    before it is written (src/bin/vmctl.rs, `input_loop`). So a command that does
    not read its stdin can keep the user from quitting. */
module Jam {
  import opened Wire
  import opened Link
  import opened Escape
  import opened Feed
  import opened Session
  import opened ServerInv
  import opened ClientInv
  import opened ShowInv
  import opened FeedInv
  import opened SessionInv
  import opened Results
  import opened StdinDelivery
  import opened HandshakeProgress
  import opened InputProgress
  import opened Completion

  // ----- when a typed quit is reported -----

  lemma QuitJob(c: Config, s: State)
    requires ClientOk(c, s) && Roles(s) && HasQuit(s.keys.typed)
    ensures s.keys.mode == KeysEnded(Quit) <==> JobOf(s.c2s, InLoop) == Off
  {
    QuitModes(c, s);
    OpeningFirst(c, s);
    LoopJob(c, s);
    hide ClientOk, JobOf, HasQuit;
  }

  /** A quit that has been typed is in effect if and only if the input loop has no
      frame left to write, and then it is reported. */
  lemma {:induction false} QuitReported(c: Config, states: seq<State>, steps: seq<Step>, k: nat)
    requires IsSession(c, states, steps) && k < |states|
    ensures HasQuit(states[k].keys.typed) ==>
      (states[k].keys.mode == KeysEnded(Quit) <==> JobOf(states[k].c2s, InLoop) == Off)
    ensures states[k].keys.mode == KeysEnded(Quit) ==> HasQuit(states[k].keys.typed) && NoCode in states[k].cli.done
  {
    hide LinkInv, Roles, ServerOk, ClientOk, ShowOk, FeedOk, Enabled, After, JobOf, HasQuit;
    Parts(c, states, steps, k);
    if HasQuit(states[k].keys.typed) {
      QuitJob(c, states[k]);
    }
    QuitModes(c, states[k]);
    if k > 0 && states[k].keys.mode == KeysEnded(Quit) {
      var s, t := states[k - 1], states[k - 1 + 1];
      assert Enabled(c, s, steps[k - 1]) && t == After(c, s, steps[k - 1]);
      QuitReported(c, states, steps, k - 1);
      if s.keys.mode == KeysEnded(Quit) {
        ReportsStay(c, s, steps[k - 1]);
      } else {
        Parts(c, states, steps, k - 1);
        OpeningFirst(c, s);
        LoopReports(c, s, steps[k - 1]);
        assert t.cli.done[|s.cli.done|] == NoCode;
      }
    }
  }

  // ----- a jam -----

  /** The pump is stuck at a full pipe or has ended, the channel is full, the
      resize loop holds its mutex inside a frame, and the input loop waits for it
      with a quit to report. */
  predicate Jammed(c: Config, s: State) {
    && s.cli.main.Serving? && !Starting(s.srv.main)
    && (PipeFull(c, s) || s.feed.pump.FeedEnded?)
    && ChannelFull(c, s) && s.c2s.owner == Some(Resizer)
    && PcOf(s.c2s, InLoop).Wants? && s.keys.mode == KeysSending(true)
  }

  lemma ClientJam(c: Config, s: State, x: ClientStep)
    requires Jammed(c, s) && ClientCan(c, s, x)
    ensures Jammed(c, ClientDo(c, s, x))
  {
    hide FrameOf, NeedMore, Complete, AsExit, Header, NextByte;
  }

  lemma OtherJam(c: Config, s: State, step: Step)
    requires Jammed(c, s) && Enabled(c, s, step) && !step.OfClient? && step != OfCommand(ReadIn)
    ensures Jammed(c, After(c, s, step))
  {
    hide FrameOf, NeedMore, Complete, AsResize, AsStartReply, ExitCode, ReadBytes, FeedNext, ResizeFrame, Filtered,
         Header;
  }

  lemma StepJam(c: Config, s: State, step: Step)
    requires Jammed(c, s) && Enabled(c, s, step) && step != OfCommand(ReadIn)
    ensures Jammed(c, After(c, s, step))
  {
    hide Jammed, ClientCan, ClientDo;
    if step.OfClient? {
      ClientJam(c, s, step.cli);
    } else {
      OtherJam(c, s, step);
    }
  }

  /** Only the command's reading ends a jam: whatever else any thread does, the
      typed quit is not reported and no key is read. */
  lemma {:induction false} JamStays(c: Config, s: State, states: seq<State>, steps: seq<Step>, k: nat)
    requires Jammed(c, s) && IsPath(c, s, states, steps) && k < |states|
    requires OfCommand(ReadIn) !in steps
    ensures Jammed(c, states[k]) && states[k].keys.mode == KeysSending(true)
  {
    hide Enabled, After, PipeFull, ChannelFull;
    if k > 0 {
      JamStays(c, s, states, steps, k - 1);
      assert Enabled(c, states[k - 1], steps[k - 1]) && states[k - 1 + 1] == After(c, states[k - 1], steps[k - 1]);
      StepJam(c, states[k - 1], steps[k - 1]);
    }
  }

  // ----- pushing without a reader -----

  /** The input loop reads or sends a frame that fits, with no quit behind it. */
  predicate Quiet(s: State) {
    && (s.keys.mode.KeysReading? || s.keys.mode == KeysSending(false))
    && (s.winch.WinchIdle? || s.winch.WinchSending?)
    && !Refusing(s)
  }

  /** Frames begun or waiting for the mutex. */
  function FramesAsked(l: Link): nat {
    |l.log| + (if JobOf(l, InLoop).Asked? then 1 else 0) + (if JobOf(l, Resizer).Asked? then 1 else 0)
  }

  /** What pushing keeps. */
  predicate Pushed(c: Config, s: State, t: State) {
    && t.cmd == s.cmd && t.srv == s.srv && t.cli == s.cli
    && t.keys.typed == s.keys.typed && t.keys.escaped == s.keys.escaped
    && (s.keys.mode.KeysReading? ==> t.keys.mode.KeysReading?) && (s.winch.WinchIdle? ==> t.winch.WinchIdle?)
    && s.c2s.log <= t.c2s.log && FramesAsked(t.c2s) == FramesAsked(s.c2s)
    && |s.c2s.delivered| <= |t.c2s.delivered|
    && (s.feed.pump.FeedReading? && !t.feed.pump.FeedReading? ==> |s.c2s.delivered| < |t.c2s.delivered|)
    && (PipeFull(c, s) ==> t.feed == s.feed && t.c2s.taken == s.c2s.taken)
  }

  lemma FeederPushed(c: Config, s: State, x: FeedStep)
    requires FeedCan(c, s, x) && Push(OfFeeder(x)) && Quiet(s)
    ensures Pushed(c, s, FeedDo(c, s, x)) && Quiet(FeedDo(c, s, x))
  {
    hide FrameOf, FeedNext, JobOf, Do, ServerLives, Fits;
    if x.FeedTake? {
      Effect(s.c2s, c.toServer, Take);
    } else if x.FeedGot? {
      Effect(s.c2s, c.toServer, Deliver);
    }
  }

  lemma WritePushed(c: Config, s: State, op: Op)
    requires ClientCan(c, s, CWrite(op)) && Quiet(s) && Roles(s) && JobOf(s.c2s, Main) == Off
    ensures Pushed(c, s, ClientDo(c, s, CWrite(op))) && Quiet(ClientDo(c, s, CWrite(op)))
  {
    hide JobOf, Do, Can, Fits;
    Effect(s.c2s, c.toServer, op);
    CanJob(s.c2s, c.toServer, op);
    WriteTakesNothing(s.c2s, c.toServer, op);
  }

  lemma WriteTakesNothing(l: Link, cap: nat, op: Op)
    requires Can(l, cap, op) && !op.Take? && !op.Deliver?
    ensures Do(l, cap, op).taken == l.taken && Do(l, cap, op).delivered == l.delivered
    ensures op.Accept? ==> JobOf(l, op.w).Asked? && PcOf(l, op.w).Locked? && JobOf(l, op.w) == Asked(PcOf(l, op.w).f)
  {
    hide Header, NextByte;
  }

  lemma LoopPushed(c: Config, s: State, x: InputStep)
    requires InputCan(c, s, x) && Push(OfInput(x)) && Quiet(s)
    ensures Pushed(c, s, InputDo(c, s, x)) && Quiet(InputDo(c, s, x))
  {
    hide JobOf, Do, Can, Fits;
    if x.TypeRefused? {
      RefusedJob(s.c2s, c.toServer, InLoop);
    } else {
      var op := Release(if x.ResizedSent? then Resizer else InLoop);
      Effect(s.c2s, c.toServer, op);
      CanJob(s.c2s, c.toServer, op);
      WriteTakesNothing(s.c2s, c.toServer, op);
    }
  }

  lemma StepPushed(c: Config, s: State, step: Step)
    requires Enabled(c, s, step) && Push(step) && Quiet(s) && Roles(s) && JobOf(s.c2s, Main) == Off
    ensures Pushed(c, s, After(c, s, step)) && Quiet(After(c, s, step))
  {
    hide Pushed, Quiet, JobOf, Roles, FeedCan, FeedDo, InputCan, InputDo, ClientCan, ClientDo;
    match step {
      case OfClient(x) => WritePushed(c, s, x.op);
      case OfInput(x) => LoopPushed(c, s, x);
      case OfFeeder(x) => FeederPushed(c, s, x);
    }
  }

  lemma PushedTwice(c: Config, s: State, t: State, u: State)
    requires Pushed(c, s, t) && Pushed(c, t, u)
    ensures Pushed(c, s, u)
  {
    hide FramesAsked;
  }

  /** Pushing until nothing moves any more, without the command reading. */
  lemma {:induction false} PushAll(c: Config, s: State) returns (states: seq<State>, steps: seq<Step>)
    requires Inv(c, s) && Running(s) && Quiet(s)
    ensures IsPath(c, s, states, steps) && |states| == |steps| + 1
    ensures var t := states[|states| - 1];
      Inv(c, t) && Running(t) && Quiet(t) && Pushed(c, s, t) && WritersStop(c, t) && FeederStops(c, t)
    decreases InputTodo(s)
  {
    hide LinkInv, Roles, ServerOk, ClientOk, ShowOk, FeedOk, Enabled, Push, After, InputTodo, Running, IsPath,
         WritersStop, FeederStops, Quiet, Pushed, JobOf;
    InputTodoPositive(c, s);
    var o := PushMoves(c, s);
    if o.None? {
      states, steps := [s], [];
      NoPush(c, s);
    } else {
      var step, t := o.value, After(c, s, o.value);
      PushIsInput(s, step);
      InputStepDrops(c, s, step);
      InvStep(c, s, step);
      StepSame(c, s, step);
      SameRuns(s, t);
      MainOff(c, s);
      StepPushed(c, s, step);
      var ts, rest := PushAll(c, t);
      PathCons(c, s, step, ts, rest);
      states, steps := [s] + ts, [step] + rest;
      assert states[|states| - 1] == ts[|ts| - 1];
      PushedTwice(c, s, t, ts[|ts| - 1]);
    }
  }

  lemma NoPush(c: Config, s: State)
    ensures IsPath(c, s, [s], []) && Pushed(c, s, s)
  {
  }

  lemma PushIsInput(s: State, step: Step)
    requires Push(step)
    ensures InputPath(s, step)
  {
  }

  lemma SameRuns(s: State, t: State)
    requires SameSession(s, t) && Running(s)
    ensures Running(t)
  {
  }

  lemma MainOff(c: Config, s: State)
    requires ClientOk(c, s) && Running(s)
    ensures JobOf(s.c2s, Main) == Off
  {
    hide ClientOk, JobOf;
    OpeningFirst(c, s);
  }

  // ----- filling the pipe -----

  const LETTER: Byte := 97

  const Untouching := Command(NoSource, NoSource, None, 0, false)

  /** The command has done nothing, the user has typed letters only, and no loop
      is sending. */
  predicate Idling(s: State) {
    && s.cmd == Untouching && s.cli.done == [] && s.keys.mode.KeysReading? && !s.keys.escaped
    && s.winch.WinchIdle? && JobOf(s.c2s, InLoop) == Off && JobOf(s.c2s, Resizer) == Off
  }

  predicate Filling(s: State) {
    Idling(s) && s.feed.pump.FeedReading? && s.c2s.delivered == Frames(s.c2s.log)
  }

  /** What was typed has all been forwarded, or a Ctrl-] is held. */
  lemma AllForwarded(c: Config, s: State)
    requires ClientOk(c, s) && s.keys.mode.KeysReading? && !s.keys.escaped
    ensures Forwarded(s) == s.keys.typed
  {
    hide ClientInv.Trace, Opening, LoopJobs, EofLogged, StreamOf, FilterFrom;
    QuitsExactly(s.keys.typed);
    NoTail(FilterFrom(Fresh, s.keys.typed).out);
  }

  /** At rest the pipe holds exactly what was typed. */
  lemma FillingHolds(c: Config, s: State)
    requires Inv(c, s) && Running(s) && Filling(s)
    ensures |s.keys.typed| == |s.feed.fed| <= c.pipe
  {
    hide LinkInv, ServerOk, ClientOk, Roles, ShowOk, Running, StreamOf, FeedAll, Shaken, Feeds, ServerLives, JobOf;
    FedBytes(c, s);
    AllLogged(c, s);
    AllForwarded(c, s);
    NoTail(s.feed.fed);
  }

  /** When pushing stops with a pump that reads, everything is at rest. */
  lemma StopsReading(c: Config, t: State)
    requires Sane(c) && Inv(c, t) && Running(t) && Quiet(t) && WritersStop(c, t) && FeederStops(c, t)
    requires t.cmd == Untouching && t.cli.done == [] && !t.keys.escaped && t.winch.WinchIdle?
    requires t.feed.pump.FeedReading?
    ensures Filling(t)
  {
    hide LinkInv, ServerOk, ClientOk, Roles, ShowOk, FeedOk, NeedMore, JobOf;
    LoopJob(c, t);
    NoOwner(t.c2s, c.toServer);
    Drained(t.c2s, c.toServer);
  }

  /** When it stops with a full pipe, every frame has been received. */
  lemma StopsWriting(c: Config, t: State)
    requires Sane(c) && Inv(c, t) && Running(t) && Quiet(t) && WritersStop(c, t) && FeederStops(c, t)
    requires t.cmd == Untouching && t.cli.done == [] && !t.keys.escaped && t.winch.WinchIdle?
    requires t.feed.pump.FeedWriting? && FramesAsked(t.c2s) <= |t.c2s.delivered|
    ensures Idling(t) && PipeFull(c, t)
  {
    hide LinkInv, ServerOk, ClientOk, Roles, ShowOk, FeedOk, JobOf;
    LoopJob(c, t);
    ReaderInOrder(t.c2s, c.toServer);
    Ahead(t.c2s, c.toServer);
  }

  /** The user types one letter. */
  lemma LetterTyped(c: Config, s: State) returns (u: State)
    requires Inv(c, s) && Running(s) && Filling(s)
    ensures Enabled(c, s, OfInput(Type([LETTER]))) && u == After(c, s, OfInput(Type([LETTER])))
    ensures Inv(c, u) && Running(u) && Quiet(u)
    ensures u.cmd == Untouching && u.cli.done == [] && !u.keys.escaped && u.winch.WinchIdle?
    ensures u.keys.typed == s.keys.typed + [LETTER]
    ensures u.feed.pump.FeedReading? && |u.c2s.delivered| == |s.c2s.log| && FramesAsked(u.c2s) == |s.c2s.log| + 1
  {
    hide LinkInv, ServerOk, ClientOk, Roles, ShowOk, FeedOk, Do, FilterFrom;
    var step := OfInput(Type([LETTER]));
    LoopIsIdle(s.c2s, InLoop);
    InvStepHidden(c, s, step);
    OneLetterFiltered();
    Effect(s.c2s, c.toServer, Submit(InLoop, Frame(Stdin, [LETTER])));
    u := After(c, s, step);
  }

  lemma LoopIsIdle(l: Link, w: Writer)
    requires JobOf(l, w) == Off
    ensures PcOf(l, w).Idle?
  {
  }

  lemma InvStepHidden(c: Config, s: State, step: Step)
    requires Inv(c, s) && Enabled(c, s, step)
    ensures Inv(c, After(c, s, step))
  {
    InvStep(c, s, step);
  }

  lemma OneLetterFiltered()
    ensures FilterFrom(Fresh, [LETTER]) == Filter([LETTER], false, false)
  {
    assert [LETTER][..0] == [];
  }

  lemma Pushing(c: Config, s: State, step: Step, u: State) returns (states: seq<State>, steps: seq<Step>)
    requires Enabled(c, s, step) && u == After(c, s, step) && Inv(c, u) && Running(u) && Quiet(u)
    ensures IsPath(c, s, states, steps) && |states| == |steps| + 1
    ensures var t := states[|states| - 1];
      Inv(c, t) && Running(t) && Quiet(t) && Pushed(c, u, t) && WritersStop(c, t) && FeederStops(c, t)
  {
    hide Inv, Running, Quiet, Pushed, WritersStop, FeederStops, Enabled, After, IsPath;
    var ts, rest := PushAll(c, u);
    PathCons(c, s, step, ts, rest);
    states, steps := [s] + ts, [step] + rest;
    assert states[|states| - 1] == ts[|ts| - 1];
  }

  /** From rest, typing letters fills the pipe of a command that does not read. */
  lemma {:induction false} Fill(c: Config, s: State) returns (states: seq<State>, steps: seq<Step>)
    requires Sane(c) && Inv(c, s) && Running(s) && Filling(s)
    ensures IsPath(c, s, states, steps) && |states| == |steps| + 1
    ensures var t := states[|states| - 1]; Inv(c, t) && Running(t) && Idling(t) && PipeFull(c, t)
    decreases c.pipe - |s.keys.typed|
  {
    hide Inv, Running, Quiet, WritersStop, FeederStops, Enabled, After, IsPath, JobOf, StreamOf, Frames, FramesAsked,
         PipeFull;
    FillingHolds(c, s);
    var u := LetterTyped(c, s);
    states, steps := Pushing(c, s, OfInput(Type([LETTER])), u);
    var t := states[|states| - 1];
    if t.feed.pump.FeedReading? {
      StopsReading(c, t);
      FillingHolds(c, t);
      var ts, rest := Fill(c, t);
      PathConcat(c, s, states, steps, ts, rest);
      states, steps := states + ts[1..], steps + rest;
    } else {
      NotStopped(c, t);
      StopsWriting(c, t);
    }
  }

  lemma NotStopped(c: Config, s: State)
    requires Inv(c, s) && Running(s) && Quiet(s)
    ensures s.feed.pump.FeedReading? || s.feed.pump.FeedWriting?
  {
    hide LinkInv, ServerOk, ClientOk, Roles, ShowOk, FeedOk, Running, Refusing;
    FedBytes(c, s);
  }

  // ----- filling the channel -----

  /** The terminal is resized. */
  lemma ResizeTyped(c: Config, s: State) returns (u: State)
    requires Inv(c, s) && Running(s) && Idling(s) && PipeFull(c, s)
    ensures Enabled(c, s, OfInput(Resized(80, 24))) && u == After(c, s, OfInput(Resized(80, 24)))
    ensures Inv(c, u) && Running(u) && Quiet(u) && PipeFull(c, u)
    ensures u.cmd == Untouching && u.cli.done == [] && !u.keys.escaped && u.keys.mode.KeysReading?
    ensures u.c2s.wire == s.c2s.wire && u.c2s.taken == s.c2s.taken && u.c2s.log == s.c2s.log
    ensures FramesAsked(u.c2s) == |s.c2s.log| + 1
  {
    hide LinkInv, ServerOk, ClientOk, Roles, ShowOk, FeedOk, ResizeFrame;
    var step := OfInput(Resized(80, 24));
    LoopIsIdle(s.c2s, Resizer);
    InvStepHidden(c, s, step);
    Effect(s.c2s, c.toServer, Submit(Resizer, ResizeFrame(80, 24)));
    u := After(c, s, step);
  }

  /** With no frame in progress, a longer log is a longer wire. */
  lemma LongerWire(c: Config, s: State, t: State)
    requires Inv(c, s) && Inv(c, t) && Running(s) && Running(t)
    requires JobOf(s.c2s, InLoop) == JobOf(s.c2s, Resizer) == JobOf(t.c2s, InLoop) == JobOf(t.c2s, Resizer) == Off
    requires s.c2s.log <= t.c2s.log && |s.c2s.log| < |t.c2s.log|
    ensures |s.c2s.wire| < |t.c2s.wire|
  {
    hide LinkInv, ServerOk, ClientOk, Roles, ShowOk, FeedOk, JobOf, EncodeAll, Encode;
    WholeWire(c, s);
    WholeWire(c, t);
    var a, b := Frames(s.c2s.log), Frames(t.c2s.log);
    EncodeAllConcat(a, b[|a|..]);
    SplitAt(b, |a|);
    assert b[..|a|] == a;
    EncodeAllCons(b[|a|..]);
  }

  lemma WholeWire(c: Config, s: State)
    requires Inv(c, s) && Running(s) && JobOf(s.c2s, InLoop) == Off && JobOf(s.c2s, Resizer) == Off
    ensures s.c2s.wire == EncodeAll(Frames(s.c2s.log))
    ensures |s.c2s.wire| <= s.c2s.taken + c.toServer
  {
    hide ServerOk, ClientOk, ShowOk, FeedOk, JobOf, EncodeAll, Mutex, Writers, Bytes, InSync, Order;
    LoopJob(c, s);
    NoOwner(s.c2s, c.toServer);
    NoInterleaving(s.c2s, c.toServer);
  }

  /** The user types a letter and Ctrl-] `q` while the resize loop holds the
      channel. */
  lemma QuitTypedIn(c: Config, s: State) returns (u: State)
    requires Inv(c, s) && Running(s) && Quiet(s) && PipeFull(c, s) && ChannelFull(c, s)
    requires s.cmd == Untouching && s.cli.done == [] && !s.keys.escaped && s.keys.mode.KeysReading?
    ensures var step := OfInput(Type([LETTER, ESCAPE, QUIT_KEY])); Enabled(c, s, step) && u == After(c, s, step)
    ensures Inv(c, u) && Jammed(c, u) && HasQuit(u.keys.typed)
    ensures u.cmd == Untouching && u.cli.done == [] && u.cli.result.None?
  {
    hide LinkInv, ServerOk, ClientOk, Roles, ShowOk, FeedOk, FilterFrom, HasByte;
    var step := OfInput(Type([LETTER, ESCAPE, QUIT_KEY]));
    LoopJob(c, s);
    LoopIsIdle(s.c2s, InLoop);
    InvStepHidden(c, s, step);
    QuitFiltered();
    OwnerHasJob(s.c2s, c.toServer);
    assert s.c2s.owner == Some(Resizer) by {
      match s.c2s.owner.value {
        case Main =>
        case ErrPump =>
        case InLoop =>
        case Resizer =>
      }
    }
    u := After(c, s, step);
    assert QuitAt(u.keys.typed, |s.keys.typed| + 1);
  }

  lemma QuitFiltered()
    ensures FilterFrom(Fresh, [LETTER, ESCAPE, QUIT_KEY]) == Filter([LETTER], false, true)
  {
    OneLetterFiltered();
    assert [LETTER, ESCAPE, QUIT_KEY][..2] == [LETTER, ESCAPE] && [LETTER, ESCAPE][..1] == [LETTER];
    assert FilterFrom(Fresh, [LETTER, ESCAPE]) == Filter([LETTER], true, false);
  }

  /** With the pipe full, resizes fill the channel until one cannot be written,
      and then the user's quit waits behind it. */
  lemma {:induction false} Clog(c: Config, s: State) returns (states: seq<State>, steps: seq<Step>)
    requires Sane(c) && Inv(c, s) && Running(s) && Idling(s) && PipeFull(c, s)
    ensures IsPath(c, s, states, steps) && |states| == |steps| + 1
    ensures var t := states[|states| - 1];
      && Inv(c, t) && Jammed(c, t) && HasQuit(t.keys.typed)
      && t.cmd == Untouching && t.cli.done == [] && t.cli.result.None?
    decreases s.c2s.taken + c.toServer - |s.c2s.wire|
  {
    hide Inv, Running, Quiet, FeederStops, Enabled, After, IsPath, JobOf, FramesAsked, PipeFull, ChannelFull, Jammed,
         HasQuit;
    WholeWireHidden(c, s);
    var u := ResizeTyped(c, s);
    states, steps := Pushing(c, s, OfInput(Resized(80, 24)), u);
    var t := states[|states| - 1];
    StillFull(c, u, t);
    if ChannelFull(c, t) {
      var v := QuitTypedIn(c, t);
      PathSnoc(c, s, states, steps, OfInput(Type([LETTER, ESCAPE, QUIT_KEY])));
      states, steps := states + [v], steps + [OfInput(Type([LETTER, ESCAPE, QUIT_KEY]))];
    } else {
      AtRestAgain(c, t);
      LongerWire(c, s, t);
      var ts, rest := Clog(c, t);
      PathConcat(c, s, states, steps, ts, rest);
      states, steps := states + ts[1..], steps + rest;
    }
  }

  lemma WholeWireHidden(c: Config, s: State)
    requires Inv(c, s) && Running(s) && Idling(s)
    ensures |s.c2s.wire| <= s.c2s.taken + c.toServer
  {
    hide Inv, Running, JobOf;
    WholeWire(c, s);
  }

  lemma StillFull(c: Config, u: State, t: State)
    requires PipeFull(c, u) && Pushed(c, u, t)
    ensures PipeFull(c, t) && t.c2s.taken == u.c2s.taken
  {
    hide FramesAsked;
  }

  /** No loop is sending, and every frame asked for is in the log. */
  lemma AtRestAgain(c: Config, t: State)
    requires Inv(c, t) && Running(t) && Quiet(t) && WritersStop(c, t) && !ChannelFull(c, t)
    requires t.cmd == Untouching && t.cli.done == [] && !t.keys.escaped && t.keys.mode.KeysReading?
    ensures Idling(t) && FramesAsked(t.c2s) == |t.c2s.log|
  {
    hide LinkInv, ServerOk, ClientOk, Roles, ShowOk, FeedOk, JobOf, ChannelFull;
    LoopJob(c, t);
  }

  // ----- from the start -----

  lemma OpenedRests(c: Config, h: State)
    requires Sane(c) && Inv(c, h) && HandshakeDone(h) && Untouched(h)
    ensures Running(h) && Quiet(h) && h.cmd == Untouching && h.cli.done == [] && h.keys.typed == []
    ensures !h.keys.escaped && h.winch.WinchIdle? && h.keys.mode.KeysReading?
  {
    hide LinkInv, ServerOk, ClientOk, Roles, ShowOk, FeedOk, JobOf;
  }

  /** With nothing typed the pump has nothing to write. */
  lemma NothingToWrite(c: Config, t: State)
    requires Inv(c, t) && Running(t) && Quiet(t) && FeederStops(c, t) && t.keys.typed == []
    ensures t.feed.pump.FeedReading?
  {
    hide LinkInv, ServerOk, ClientOk, Roles, ShowOk, FeedOk, Running, StreamOf, Refusing;
    FedBytes(c, t);
    ReceivedPrefix(c, t);
    FreshStays();
    assert Forwarded(t) == [];
  }

  /** Every configuration has a session in which the user has typed Ctrl-] `q` and
      it stays unreported until the command reads its stdin, whatever else
      happens. */
  lemma JammedSession(c: Config) returns (states: seq<State>, steps: seq<Step>)
    requires Sane(c)
    ensures IsSession(c, states, steps) && |states| == |steps| + 1
    ensures var t := states[|states| - 1];
      && Jammed(c, t) && HasQuit(t.keys.typed)
      && t.cmd.stdinRead == 0 && t.cli.done == [] && t.cli.result.None?
  {
    hide IsPath, Inv, Running, Quiet, Idling, Jammed, HasQuit, WritersStop, FeederStops, PipeFull, HandshakeDone,
         Untouched, FramesAsked, JobOf;
    states, steps := Opened(c);
    var h := states[|states| - 1];
    OpenedRests(c, h);
    var ts, qs := PushAll(c, h);
    var t := ts[|ts| - 1];
    NothingToWrite(c, t);
    StopsReading(c, t);
    PathConcat(c, Init(c), states, steps, ts, qs);
    states, steps := states + ts[1..], steps + qs;
    var us, rs := Fill(c, t);
    PathConcat(c, Init(c), states, steps, us, rs);
    states, steps := states + us[1..], steps + rs;
    var vs, xs := Clog(c, us[|us| - 1]);
    PathConcat(c, Init(c), states, steps, vs, xs);
    states, steps := states + vs[1..], steps + xs;
  }
}
