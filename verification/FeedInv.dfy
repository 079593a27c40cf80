/** What holds between the frames the server received, its handshake and what it
    has written to the command's stdin, in every reachable state. */
module FeedInv {
  import opened Wire
  import opened Link
  import opened Feed
  import opened Session
  import opened ClientInv

  /** The state in which the input pump starts. */
  function FeedStart(c: Config): FeedState {
    FeedState([], true, if c.tty then (c.cols, c.rows) else (0, 0))
  }

  /** Everything the pump should have written after the frames it received. */
  function Fed(c: Config, got: seq<Frame>): FeedState {
    FeedAll(Wired(c.tty), FeedStart(c), if |got| >= 2 then got[2..] else [])
  }

  /** The server follows the handshake and never panics in it. */
  predicate Shaken(c: Config, srv: Server, feed: Feeder, got: seq<Frame>) {
    && (match srv.main
        case SendStart => got == []
        case AwaitReply => got == []
        case AwaitSize(tty) => got == [ReplyOf(c)] && tty == c.tty
        case ServerPanic => false
        case _ => |got| >= 2)
    && (srv.main.SendStart? || srv.main.AwaitReply? || srv.main.AwaitSize? ==> srv.wiring == Unwired)
    && (srv.wiring == Unwired ==> feed == Feeder(FeedOff, [], [], true, (0, 0)))
    && (srv.wiring != Unwired ==>
          srv.wiring == Wired(c.tty) && |got| >= 2 && got[0] == ReplyOf(c) && got[1] == SizeOf(c))
  }

  /** No end-of-file frame has closed the pipe. */
  predicate StillOpen(c: Config, got: seq<Frame>) {
    c.tty || forall i :: 2 <= i < |got| ==> got[i] != EofFrame
  }

  /** The pump writes exactly what the frames it received call for. */
  predicate Feeds(c: Config, feed: Feeder, got: seq<Frame>) {
    var r := Fed(c, got);
    && feed.lineStart == r.lineStart && feed.size == r.size
    && (match feed.pump
        case FeedOff => false
        case FeedReading => feed.todo == [] && feed.fed == r.bytes && StillOpen(c, got)
        case FeedWriting => feed.fed + feed.todo == r.bytes && StillOpen(c, got)
        case FeedEnded(why) =>
          if why == EofSeen then !c.tty && feed.fed == r.bytes && |got| > 2 && got[|got| - 1] == EofFrame
          else feed.fed <= r.bytes)
  }

  /** The command reads what was written, and sees the end only once the pump
      has closed the pipe and everything is read. */
  predicate StdinUse(c: Config, s: State) {
    && s.cmd.stdinRead <= |s.feed.fed| <= s.cmd.stdinRead + c.pipe
    && (s.cmd.sawEof ==> s.srv.wiring == Pipes && s.cmd.stdinRead == |s.feed.fed|
                         && (s.feed.pump.FeedEnded? || !ServerLives(s)))
    && (s.feed.pump == FeedEnded(Lost) ==> s.cli.result.Some?)
  }

  predicate FeedOk(c: Config, s: State) {
    && Shaken(c, s.srv, s.feed, s.c2s.delivered)
    && (s.srv.wiring != Unwired ==> Feeds(c, s.feed, s.c2s.delivered))
    && StdinUse(c, s)
  }

  lemma FeedInit(c: Config)
    ensures FeedOk(c, Init(c))
  {
  }

  // ----- the server's steps -----

  lemma GotReplyKeeps(c: Config, s: State)
    requires FeedOk(c, s) && ServerCan(c, s, GotReply)
    requires FrameOf(s.c2s.buf) == ReplyOf(c)
    ensures FeedOk(c, ServerDo(c, s, GotReply))
  {
    OpeningTypes(c);
    Effect(s.c2s, c.toServer, Deliver);
    hide Do, FrameOf, ReplyOf, AsStartReply, Fed;
  }

  lemma GotSizeKeeps(c: Config, s: State, ok: bool)
    requires FeedOk(c, s) && ServerCan(c, s, GotSize(ok))
    requires FrameOf(s.c2s.buf) == SizeOf(c)
    ensures FeedOk(c, ServerDo(c, s, GotSize(ok)))
  {
    OpeningTypes(c);
    Effect(s.c2s, c.toServer, Deliver);
    assert Fed(c, [ReplyOf(c), SizeOf(c)]) == FeedStart(c);
    assert [ReplyOf(c)] + [SizeOf(c)] == [ReplyOf(c), SizeOf(c)];
    hide Do, FrameOf, ReplyOf, SizeOf, AsResize, Fed;
  }

  lemma ServerKeepsFeed(c: Config, s: State, step: ServerStep)
    requires FeedOk(c, s) && ServerCan(c, s, step)
    requires step.GotReply? ==> FrameOf(s.c2s.buf) == ReplyOf(c)
    requires step.GotSize? ==> FrameOf(s.c2s.buf) == SizeOf(c)
    requires !step.SLost?
    ensures FeedOk(c, ServerDo(c, s, step))
  {
    if step.GotReply? {
      GotReplyKeeps(c, s);
    } else if step.GotSize? {
      GotSizeKeeps(c, s, step.ok);
    } else {
      if step.STake? {
        Effect(s.c2s, c.toServer, Take);
      }
      hide Do, Fed, ReplyOf, SizeOf, ExitCode;
    }
  }

  // ----- the pump's steps -----

  lemma FedOne(c: Config, got: seq<Frame>, f: Frame)
    requires |got| >= 2
    ensures Fed(c, got + [f]) == FeedFrame(Wired(c.tty), Fed(c, got), f)
  {
    assert (got + [f])[2..] == got[2..] + [f];
    FeedSnoc(Wired(c.tty), FeedStart(c), got[2..], f);
  }

  lemma FeedGotKeeps(c: Config, s: State)
    requires FeedOk(c, s) && FeedCan(c, s, FeedGot)
    ensures FeedOk(c, FeedDo(c, s, FeedGot))
  {
    hide Do, FrameOf, Fed, FeedFrame, ReplyOf, SizeOf;
    Effect(s.c2s, c.toServer, Deliver);
    var f, got := FrameOf(s.c2s.buf), s.c2s.delivered;
    FedOne(c, got, f);
    var st := FeedState([], s.feed.lineStart, s.feed.size);
    FeedAppends(Wired(c.tty), s.feed.fed, st, f);
    assert s.feed.fed + [] == s.feed.fed;
    assert (got + [f])[|got|] == f;
    var r := FeedFrame(Wired(c.tty), st, f);
    assert Fed(c, got) == st.(bytes := s.feed.fed);
    if r.bytes == [] {
      assert s.feed.fed + r.bytes == s.feed.fed;
    }
    StoppedBytes(c, st, f);
  }

  lemma StoppedBytes(c: Config, st: FeedState, f: Frame)
    ensures Stops(Wired(c.tty), f) ==>
      !c.tty && f == EofFrame && FeedFrame(Wired(c.tty), st, f) == st.(bytes := st.bytes + [])
  {
  }

  lemma FeedWriteKeeps(c: Config, s: State, step: FeedStep)
    requires FeedOk(c, s) && FeedCan(c, s, step) && !step.FeedGot?
    ensures FeedOk(c, FeedDo(c, s, step))
  {
    if step.FeedTake? {
      Effect(s.c2s, c.toServer, Take);
    } else if step.FeedByte? {
      var fd := s.feed;
      assert fd.fed + fd.todo == (fd.fed + [fd.todo[0]]) + fd.todo[1..];
    } else {
      assert s.feed.fed + [] == s.feed.fed;
    }
    hide Do, Fed, ReplyOf, SizeOf;
  }

  // ----- the other threads' steps -----

  lemma CommandKeepsFeed(c: Config, s: State, step: CommandStep)
    requires FeedOk(c, s) && CommandCan(c, s, step)
    ensures FeedOk(c, CommandDo(c, s, step))
  {
    hide Fed, ReplyOf, SizeOf;
  }

  lemma ClientKeepsFeed(c: Config, s: State, step: ClientStep)
    requires FeedOk(c, s) && ClientCan(c, s, step)
    ensures FeedOk(c, ClientDo(c, s, step))
  {
    hide FrameOf, AsExit;
    var t := ClientDo(c, s, step);
    assert t.c2s.delivered == s.c2s.delivered && t.srv == s.srv && t.feed == s.feed && t.cmd == s.cmd;
    assert s.cli.result.Some? ==> t.cli.result.Some?;
    hide ClientDo, Shaken, Feeds;
  }

  lemma InputKeepsFeed(c: Config, s: State, step: InputStep)
    requires FeedOk(c, s) && InputCan(c, s, step)
    ensures FeedOk(c, InputDo(c, s, step))
  {
    hide Filtered, ResizeFrame;
    var t := InputDo(c, s, step);
    assert t.c2s.delivered == s.c2s.delivered && t.srv == s.srv && t.feed == s.feed && t.cmd == s.cmd;
    assert t.cli.result == s.cli.result;
    hide InputDo, Shaken, Feeds;
  }

  lemma KeepsFeed(c: Config, s: State, step: Step)
    requires FeedOk(c, s) && Enabled(c, s, step)
    requires step == OfServer(GotReply) ==> FrameOf(s.c2s.buf) == ReplyOf(c)
    requires step.OfServer? && step.srv.GotSize? ==> FrameOf(s.c2s.buf) == SizeOf(c)
    requires step != OfServer(SLost)
    ensures FeedOk(c, After(c, s, step))
  {
    hide FeedOk;
    match step {
      case OfServer(x) => ServerKeepsFeed(c, s, x);
      case OfFeeder(x) => if x.FeedGot? { FeedGotKeeps(c, s); } else { FeedWriteKeeps(c, s, x); }
      case OfCommand(x) => CommandKeepsFeed(c, s, x);
      case OfClient(x) => ClientKeepsFeed(c, s, x);
      case OfInput(x) => InputKeepsFeed(c, s, x);
    }
  }

  // ----- consequences used elsewhere -----

  lemma ShakenFirst(c: Config, s: State)
    requires FeedOk(c, s)
    ensures s.srv.main.SendStart? || s.srv.main.AwaitReply? ==> s.c2s.delivered == []
    ensures s.srv.main.AwaitSize? ==> |s.c2s.delivered| == 1 && s.srv.main.tty == c.tty
    ensures !s.srv.main.ServerPanic?
    ensures !s.srv.main.SendStart? && !s.srv.main.AwaitReply? && !s.srv.main.AwaitSize? ==> |s.c2s.delivered| >= 2
  {
    hide Feeds, StdinUse;
  }
}
