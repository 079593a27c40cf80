/** The loops of server and client as they run. The input loop and the two input
    pumps are proved against the filter and the feed functions that the session
    model uses; the output pump and the output loop against the encoding and the
    byte streams of the frames, which is what the session invariant says of them. */
module Pumps {
  import opened Wire
  import opened Escape
  import opened Feed
  import opened Streams

  predicate AllOf(t: FrameType, fs: seq<Frame>) {
    forall i :: 0 <= i < |fs| ==> fs[i].ty == t && fs[i].payload != [] && Fits(fs[i])
  }

  lemma AllOfSnoc(t: FrameType, fs: seq<Frame>, p: seq<Byte>)
    requires AllOf(t, fs) && 0 < |p| <= MAX_PAYLOAD
    ensures AllOf(t, fs + [Frame(t, p)])
    ensures StreamOf(t, fs + [Frame(t, p)]) == StreamOf(t, fs) + p
    ensures EncodeAll(fs + [Frame(t, p)]) == EncodeAll(fs) + Encode(Frame(t, p))
  {
    StreamSnoc(t, fs, Frame(t, p));
    EncodeAllSnoc(fs, Frame(t, p));
  }

  // ----- the server's output pump -----

  /** The first `k` reads brought data or met the end. */
  predicate AllGood(plan: seq<Event>, k: int) {
    0 <= k <= |plan| && forall i :: 0 <= i < k ==> plan[i].AtMost?
  }

  /** Read `k` is the first that was interrupted or failed. */
  predicate FirstBad(plan: seq<Event>, k: int) {
    AllGood(plan, k) && k < |plan| && !plan[k].AtMost?
  }

  /** `pump_output`: what it read goes out as non-empty frames of its type, in
      order and whole. The first read that is interrupted or fails ends it, well if
      that is a hangup and badly otherwise, with nothing read after it; without
      one it ends well, at the end of its source. */
  method PumpOutput(src: ByteSource, t: FrameType, channel: ByteSink)
    returns (ok: bool, hangup: bool, ghost frames: seq<Frame>)
    requires channel.room.None?
    modifies src, channel
    ensures AllOf(t, frames)
    ensures channel.written == old(channel.written) + EncodeAll(frames)
    ensures StreamOf(t, frames) + src.data == old(src.data)
    ensures ok && !hangup ==>
      src.data == [] && exists k :: AllGood(old(src.plan), k) && src.plan == old(src.plan)[k..]
    ensures hangup ==> ok
    ensures hangup ==>
      exists k :: FirstBad(old(src.plan), k) && old(src.plan)[k] == Failure(true) && src.plan == old(src.plan)[k + 1..]
    ensures !ok ==>
      exists k :: FirstBad(old(src.plan), k) && old(src.plan)[k] != Failure(true) && src.plan == old(src.plan)[k + 1..]
  {
    hide Encode, EncodeAll, StreamOf, AllOf, AllGood, Failures;
    NothingYet();
    NothingRead(t, src.plan);
    frames := [];
    ghost var plan, k := src.plan, 0;
    var buf := new Byte[MAX_PAYLOAD];
    while true
      invariant channel.room.None? && AllOf(t, frames)
      invariant channel.written == old(channel.written) + EncodeAll(frames)
      invariant StreamOf(t, frames) + src.data == old(src.data)
      invariant k <= |plan| && AllGood(plan, k) && src.plan == plan[k..]
      decreases |src.data| + |src.plan|
    {
      ghost var left := src.data;
      OneRead(plan, k);
      var r := src.Read(buf, 0);
      match r {
        case Ok(n) =>
          ghost var used := if k < |plan| then k + 1 else k;
          assert AllGood(plan, used) && src.plan == plan[used..];
          if n == 0 {
            return true, false, frames;
          }
          var f := Frame(t, buf[..n]);
          SplitAt(left, n);
          assert f.payload == left[..n];
          var w := WriteTo(f, channel);
          AllOfSnoc(t, frames, f.payload);
          Assoc(StreamOf(t, frames), left[..n], left[n..]);
          Assoc(old(channel.written), EncodeAll(frames), Encode(f));
          frames := frames + [f];
          k := used;
        case Interrupted =>
          assert FirstBad(plan, k) && src.plan == plan[k + 1..];
          return false, false, frames;
        case IoFailed(eio) =>
          assert FirstBad(plan, k) && src.plan == plan[k + 1..];
          return eio, eio, frames;
      }
    }
  }

  lemma NothingRead(t: FrameType, plan: seq<Event>)
    ensures AllOf(t, []) && AllGood(plan, 0)
  {
  }

  /** The read after `k` good ones. */
  lemma OneRead(plan: seq<Event>, k: nat)
    requires AllGood(plan, k)
    ensures k <= |plan| && (plan[k..] != [] ==> plan[k..][0] == plan[k] && plan[k..][1..] == plan[k + 1..])
    ensures k < |plan| && plan[k].AtMost? ==> AllGood(plan, k + 1)
  {
  }

  // ----- the client's input loop -----

  datatype InputEnd = StdinClosed | UserQuit | SendFailed | StdinError

  /** `input_loop`: the frames carry the filtered input; the empty frame comes
      last, and exactly when stdin ended; only a refused payload loses anything. */
  method InputLoop(stdin: ByteSource, channel: ByteSink)
    returns (end: InputEnd, ghost typed: seq<Byte>, ghost frames: seq<Frame>)
    requires channel.room.None?
    modifies stdin, channel
    ensures typed + stdin.data == old(stdin.data)
    ensures channel.written ==
            old(channel.written) + EncodeAll(frames) + (if end == StdinClosed then Encode(EofFrame) else [])
    ensures AllOf(Stdin, frames)
    ensures end != SendFailed ==> StreamOf(Stdin, frames) == FilterFrom(Fresh, typed).out
    ensures end == SendFailed ==>
      StreamOf(Stdin, frames) < FilterFrom(Fresh, typed).out
      && |FilterFrom(Fresh, typed).out| - |StreamOf(Stdin, frames)| > MAX_PAYLOAD
    ensures end == UserQuit <==> FilterFrom(Fresh, typed).quit
    ensures end == StdinClosed ==> stdin.data == []
    ensures Failures(stdin.plan) + (if end == StdinError then 1 else 0) == Failures(old(stdin.plan))
  {
    hide Encode, EncodeAll, StreamOf, FilterFrom, Failures, AllOf, Passed;
    NothingYet();
    NoFrames();
    typed, frames := [], [];
    var buf := new Byte[MAX_PAYLOAD];
    var escaped := false;
    while true
      invariant channel.room.None?
      invariant Failures(stdin.plan) == Failures(old(stdin.plan))
      invariant typed + stdin.data == old(stdin.data)
      invariant channel.written == old(channel.written) + EncodeAll(frames)
      invariant Passed(typed, frames, escaped, false)
      decreases |stdin.data| + |stdin.plan|
    {
      ghost var left := stdin.data;
      PassedMeans(typed, frames, escaped, false);
      var r := stdin.Read(buf, 0);
      match r {
        case Ok(n) =>
          if n == 0 {
            var w := WriteTo(EofFrame, channel);
            return StdinClosed, typed, frames;
          }
          ghost var chunk := left[..n];
          assert buf[..n] == chunk;
          SplitAt(left, n);
          Assoc(typed, chunk, left[n..]);
          var payload, held, quit := FilterEscape(buf[..n], escaped);
          PassMore(typed, frames, escaped, chunk, Filter(payload, held, quit));
          escaped := held;
          typed := typed + chunk;
          if payload != [] {
            var w := WriteTo(Frame(Stdin, payload), channel);
            if w != Written {
              return SendFailed, typed, frames;
            }
            Assoc(old(channel.written), EncodeAll(frames), Encode(Frame(Stdin, payload)));
            frames := frames + [Frame(Stdin, payload)];
          }
          if quit {
            PassedMeans(typed, frames, escaped, true);
            return UserQuit, typed, frames;
          }
        case Interrupted =>
          continue;
        case IoFailed(_) =>
          return StdinError, typed, frames;
      }
    }
  }

  /** The frames carry everything the filter let through. */
  ghost predicate Passed(typed: seq<Byte>, frames: seq<Frame>, escaped: bool, quit: bool) {
    AllOf(Stdin, frames) && FilterFrom(Fresh, typed) == Filter(StreamOf(Stdin, frames), escaped, quit)
  }

  lemma PassedMeans(typed: seq<Byte>, frames: seq<Frame>, escaped: bool, quit: bool)
    requires Passed(typed, frames, escaped, quit)
    ensures AllOf(Stdin, frames)
    ensures StreamOf(Stdin, frames) == FilterFrom(Fresh, typed).out && FilterFrom(Fresh, typed).quit == quit
  {
  }

  /** One more read: its payload is sent as a frame, or it does not fit. */
  lemma PassMore(typed: seq<Byte>, frames: seq<Frame>, escaped: bool, chunk: seq<Byte>, r: Filter)
    requires Passed(typed, frames, escaped, false) && |chunk| <= MAX_PAYLOAD
    requires r == FilterFrom(Filter([], escaped, false), chunk)
    ensures r.out == [] ==> Passed(typed + chunk, frames, r.escaped, r.quit)
    ensures 0 < |r.out| <= MAX_PAYLOAD ==>
      && Passed(typed + chunk, frames + [Frame(Stdin, r.out)], r.escaped, r.quit)
      && EncodeAll(frames + [Frame(Stdin, r.out)]) == EncodeAll(frames) + Encode(Frame(Stdin, r.out))
    ensures |r.out| > MAX_PAYLOAD ==>
      && !r.quit && !FilterFrom(Fresh, typed + chunk).quit
      && StreamOf(Stdin, frames) < FilterFrom(Fresh, typed + chunk).out
      && |FilterFrom(Fresh, typed + chunk).out| - |StreamOf(Stdin, frames)| > MAX_PAYLOAD
  {
    hide StreamOf, FilterFrom, EncodeAll, Encode, AllOf;
    NextRead(typed, chunk, StreamOf(Stdin, frames), escaped);
    Sizes(escaped, chunk);
    NoTail(StreamOf(Stdin, frames));
    if 0 < |r.out| <= MAX_PAYLOAD {
      AllOfSnoc(Stdin, frames, r.out);
    }
  }

  lemma NoFrames()
    ensures Passed([], [], false, false)
  {
  }

  lemma NothingYet()
    ensures FilterFrom(Fresh, []) == Fresh && EncodeAll([]) == [] && forall t :: StreamOf(t, []) == []
  {
  }

  /** One more read continues the filter. */
  lemma NextRead(typed: seq<Byte>, chunk: seq<Byte>, out: seq<Byte>, escaped: bool)
    requires FilterFrom(Fresh, typed) == Filter(out, escaped, false)
    ensures var r := FilterFrom(Filter([], escaped, false), chunk);
            FilterFrom(Fresh, typed + chunk) == Filter(out + r.out, r.escaped, r.quit)
  {
    ChunkInvariant(Fresh, typed, chunk);
    OutputAppends(out, escaped, chunk);
  }

  // ----- sinks with limited room -----

  /** `used` bytes have gone into a sink that had the room `before`. */
  predicate RoomLeft(before: Option<nat>, room: Option<nat>, used: nat) {
    (room.None? <==> before.None?) && (room.Some? ==> room.value + used == before.value)
  }

  /** One more write. */
  lemma RoomStep(before: Option<nat>, room: Option<nat>, room': Option<nat>, w: seq<Byte>, w': seq<Byte>,
                 bytes: seq<Byte>, ok: bool)
    requires RoomLeft(before, room, |w|) && (room.None? <==> room'.None?)
    requires ok <==> Takes(room, |bytes|)
    requires ok ==> w' == w + bytes
    requires !ok ==> w' == w + bytes[..room.value]
    requires room'.Some? ==> room'.value == if ok then room.value - |bytes| else 0
    ensures RoomLeft(before, room', |w'|) && w <= w' && w'[|w|..] <= bytes && w + w'[|w|..] == w'
  {
  }

  /** A write that fails shows that there was no room for all. */
  lemma RoomEnds(before: Option<nat>, room: Option<nat>, used: nat, more: nat, all: nat)
    requires RoomLeft(before, room, used) && used + more <= all
    ensures Takes(before, all) ==> Takes(room, more)
  {
  }

  // ----- the client's output loop -----

  /** The loop goes on after output frames only. */
  predicate OnlyOutputFrames(fs: seq<Frame>) {
    forall i :: 0 <= i < |fs| ==> fs[i].ty == Stdout || fs[i].ty == Stderr
  }

  /** The first `n` frames are output frames and all of them is shown. */
  predicate ShownUpTo(fs: seq<Frame>, n: nat, out: seq<Byte>, err: seq<Byte>) {
    n <= |fs| && OnlyOutputFrames(fs[..n]) && out == StreamOf(Stdout, fs[..n]) && err == StreamOf(Stderr, fs[..n])
  }

  /** A stream holds the first `n` frames and perhaps a part of the next one. */
  predicate PartOf(t: FrameType, fs: seq<Frame>, n: nat, w: seq<Byte>) {
    n <= |fs| && StreamOf(t, fs[..n]) <= w <= StreamOf(t, fs[..if n < |fs| then n + 1 else n])
  }

  lemma ShownIsPart(fs: seq<Frame>, n: nat, out: seq<Byte>, err: seq<Byte>)
    requires ShownUpTo(fs, n, out, err)
    ensures PartOf(Stdout, fs, n, out) && PartOf(Stderr, fs, n, err)
  {
    hide StreamOf;
    var m := if n < |fs| then n + 1 else n;
    StreamPrefix(Stdout, fs[..n], fs[..m]);
    StreamPrefix(Stderr, fs[..n], fs[..m]);
  }

  /** Part of one more frame goes to its stream. */
  lemma ShowPart(t: FrameType, fs: seq<Frame>, n: nat, w: seq<Byte>, p: seq<Byte>)
    requires n < |fs| && fs[n].ty == t && w == StreamOf(t, fs[..n]) && p <= fs[n].payload
    ensures PartOf(t, fs, n, w + p) && |w| + |fs[n].payload| <= |StreamOf(t, fs)|
  {
    hide StreamOf;
    assert fs[..n + 1] == fs[..n] + [fs[n]];
    StreamSnoc(t, fs[..n], fs[n]);
    StreamPrefix(t, fs[..n + 1], fs);
  }

  lemma ShownMore(fs: seq<Frame>, n: nat, out: seq<Byte>, err: seq<Byte>)
    requires ShownUpTo(fs, n, out, err) && n < |fs| && (fs[n].ty == Stdout || fs[n].ty == Stderr)
    ensures fs[n].ty == Stdout ==> ShownUpTo(fs, n + 1, out + fs[n].payload, err)
    ensures fs[n].ty == Stderr ==> ShownUpTo(fs, n + 1, out, err + fs[n].payload)
  {
    hide StreamOf;
    assert fs[..n + 1] == fs[..n] + [fs[n]];
    StreamSnoc(Stdout, fs[..n], fs[n]);
    StreamSnoc(Stderr, fs[..n], fs[n]);
    NoTail(out);
    NoTail(err);
  }

  /** What the loop reports when nothing fails: the first frame that is not an
      output frame decides. */
  predicate Decided(fs: seq<Frame>, n: nat, code: Option<I32>) {
    n <= |fs| && (n < |fs| ==> fs[n].ty != Stdout && fs[n].ty != Stderr)
    && code == if n < |fs| then AsExit(fs[n]) else None
  }

  /** `output_loop`: a code is returned only for a well-formed exit frame that
      follows output frames which were all written, each to its own stream. When
      no read fails and there is room for the output, the first frame that is not
      an output frame decides; without room the loop stops in the frame that does
      not fit. `n` frames were used up. */
  method OutputLoop(reader: FrameReader, stdout: ByteSink, stderr: ByteSink)
    returns (code: Option<I32>, ghost n: nat)
    requires stdout != stderr && stdout.written == [] && stderr.written == []
    modifies reader.inner, stdout, stderr
    ensures var fs := DecodeAll(old(reader.inner.data)).frames;
            var roomy := Takes(old(stdout.room), |StreamOf(Stdout, fs)|)
                         && Takes(old(stderr.room), |StreamOf(Stderr, fs)|);
      && PartOf(Stdout, fs, n, stdout.written) && PartOf(Stderr, fs, n, stderr.written)
      && OnlyOutputFrames(fs[..n])
      && (code.Some? || roomy ==> ShownUpTo(fs, n, stdout.written, stderr.written))
      && (code.Some? ==> Decided(fs, n, code))
      && (roomy && Failures(reader.inner.plan) == Failures(old(reader.inner.plan)) ==> Decided(fs, n, code))
  {
    hide ParseNext, DecodeAll, StreamOf, AsExit, Failures, ItemOf, PartOf, ShownUpTo, Takes, RoomLeft, OnlyOutputFrames;
    n := 0;
    ghost var fs := DecodeAll(reader.inner.data).frames;
    NothingShown(fs, stdout.room, stderr.room);
    while true
      invariant n <= |fs| && fs[n..] == DecodeAll(reader.inner.data).frames
      invariant Failures(reader.inner.plan) == Failures(old(reader.inner.plan))
      invariant RoomLeft(old(stdout.room), stdout.room, |stdout.written|)
      invariant RoomLeft(old(stderr.room), stderr.room, |stderr.written|)
      invariant ShownUpTo(fs, n, stdout.written, stderr.written)
      decreases |reader.inner.data|
    {
      ShownIsPart(fs, n, stdout.written, stderr.written);
      ShownMeans(fs, n, stdout.written, stderr.written);
      var item := reader.Next();
      if !item.Next? {
        return None, n;
      }
      var f := item.frame;
      assert fs[n] == f && fs[n..][1..] == fs[n + 1..];
      match f.ty {
        case Stdout =>
          ghost var w, room := stdout.written, stdout.room;
          ShownMore(fs, n, w, stderr.written);
          var ok := stdout.WriteAll(f.payload);
          RoomStep(old(stdout.room), room, stdout.room, w, stdout.written, f.payload, ok);
          ShowPart(Stdout, fs, n, w, stdout.written[|w|..]);
          RoomEnds(old(stdout.room), room, |w|, |f.payload|, |StreamOf(Stdout, fs)|);
          if !ok {
            return None, n;
          }
        case Stderr =>
          ghost var w, room := stderr.written, stderr.room;
          ShownMore(fs, n, stdout.written, w);
          var ok := stderr.WriteAll(f.payload);
          RoomStep(old(stderr.room), room, stderr.room, w, stderr.written, f.payload, ok);
          ShowPart(Stderr, fs, n, w, stderr.written[|w|..]);
          RoomEnds(old(stderr.room), room, |w|, |f.payload|, |StreamOf(Stderr, fs)|);
          if !ok {
            return None, n;
          }
        case Exit =>
          return AsExit(f), n;
        case _ =>
          NoExitCode(f);
          return None, n;
      }
      n := n + 1;
    }
  }

  lemma NothingShown(fs: seq<Frame>, out: Option<nat>, err: Option<nat>)
    ensures ShownUpTo(fs, 0, [], []) && RoomLeft(out, out, 0) && RoomLeft(err, err, 0)
  {
  }

  lemma ShownMeans(fs: seq<Frame>, n: nat, out: seq<Byte>, err: seq<Byte>)
    requires ShownUpTo(fs, n, out, err)
    ensures n <= |fs| && OnlyOutputFrames(fs[..n])
    ensures out == StreamOf(Stdout, fs[..n]) && err == StreamOf(Stderr, fs[..n])
  {
  }

  lemma NoExitCode(f: Frame)
    ensures f.ty != Exit ==> AsExit(f) == None
  {
  }

  // ----- the server's input pumps -----

  /** The master side of a PTY: the bytes typed into it and its size. */
  class Pty {
    const input: ByteSink
    var size: (U16, U16)

    constructor (input: ByteSink, size: (U16, U16))
      ensures this.input == input && this.size == size
    {
      this.input, this.size := input, size;
    }
  }

  /** What `pump_client_frames_tty` does with a stdin frame: the end-of-file frame
      takes an extra VEOF in the middle of a line; a payload sets the flag. */
  method TypeStdin(input: ByteSink, f: Frame, lineStart0: bool, ghost size: (U16, U16))
    returns (sent: bool, lineStart: bool)
    requires f.ty == Stdin
    modifies input
    ensures var r := FeedFrame(Tty, FeedState(old(input.written), lineStart0, size), f);
      && old(input.written) <= input.written <= r.bytes
      && (sent <==> Takes(old(input.room), |r.bytes| - |old(input.written)|))
      && (sent ==> r == FeedState(input.written, lineStart, size))
      && RoomLeft(old(input.room), input.room, |input.written| - |old(input.written)|)
  {
    lineStart := lineStart0;
    if f.payload == [] {
      if !lineStart {
        sent := input.WriteAll([EOF_CHAR]);
        if !sent {
          return;
        }
      }
      sent := input.WriteAll([EOF_CHAR]);
    } else {
      sent := input.WriteAll(f.payload);
      var last := f.payload[|f.payload| - 1];
      lineStart := last == NEWLINE || last == RETURN;
    }
  }

  /** What the frames of a channel call for on a terminal. */
  function TtyInput(size: (U16, U16), fs: seq<Frame>): seq<Byte> {
    FeedAll(Tty, FeedState([], true, size), fs).bytes
  }

  /** `pump_client_frames_tty`: the bytes and the size are those that the frames
      used call for, and without a failure these are all frames of the channel and
      the pump ends well exactly at a clean end. A PTY without room for all of it
      ends the pump badly in the frame that it refuses. */
  method PumpTty(reader: FrameReader, pty: Pty) returns (ok: bool, ghost fs: seq<Frame>)
    requires pty.input.written == []
    modifies reader.inner, pty, pty.input
    ensures fs <= DecodeAll(old(reader.inner.data)).frames
    ensures ok ==> Failures(reader.inner.plan) == Failures(old(reader.inner.plan))
    ensures Takes(old(pty.input.room), |TtyInput(old(pty.size), DecodeAll(old(reader.inner.data)).frames)|) || ok ==>
      pty.input.written == TtyInput(old(pty.size), fs)
    ensures
      Failures(reader.inner.plan) == Failures(old(reader.inner.plan))
      && (Takes(old(pty.input.room), |TtyInput(old(pty.size), DecodeAll(old(reader.inner.data)).frames)|) || ok) ==>
        DecodeAll(old(reader.inner.data)).frames == fs && (ok <==> DecodeAll(old(reader.inner.data)).ending == Clean)
    ensures pty.size == FeedAll(Tty, FeedState([], true, old(pty.size)), fs).size
    ensures pty.input.written <= TtyInput(old(pty.size), fs)
    ensures fs != [] ==> TtyInput(old(pty.size), fs[..|fs| - 1]) <= pty.input.written
  {
    hide ParseNext, DecodeAll, AsResize, FeedAll, Failures, ItemOf;
    fs := [];
    var atLineStart := true;
    ghost var st, all, room := FeedState([], true, pty.size), DecodeAll(reader.inner.data), pty.input.room;
    FeedNil(Tty, st);
    while true
      invariant Failures(reader.inner.plan) == Failures(old(reader.inner.plan))
      invariant all.frames == fs + DecodeAll(reader.inner.data).frames
      invariant all.ending == DecodeAll(reader.inner.data).ending
      invariant RoomLeft(room, pty.input.room, |pty.input.written|)
      invariant FeedAll(Tty, st, fs) == FeedState(pty.input.written, atLineStart, pty.size)
      invariant fs != [] ==> FeedAll(Tty, st, fs[..|fs| - 1]).bytes <= pty.input.written
      decreases |reader.inner.data|
    {
      var item := reader.Next();
      if !item.Next? {
        return item.End?, fs;
      }
      var f := item.frame;
      ghost var rest := DecodeAll(reader.inner.data).frames;
      Assoc(fs, [f], rest);
      FeedSnoc(Tty, st, fs, f);
      FeedPrefix(Tty, st, fs + [f], all.frames);
      assert (fs + [f])[..|fs|] == fs;
      fs := fs + [f];
      if f.ty == Stdin {
        var sent;
        sent, atLineStart := TypeStdin(pty.input, f, atLineStart, pty.size);
        if !sent {
          return false, fs;
        }
      } else if AsResize(f).Some? {
        pty.size := AsResize(f).value;
      }
    }
  }

  lemma NothingTaken()
    ensures Taken([], false)
  {
  }

  /** The frames used, in terms of the whole stream. */
  lemma PipeUsed(got: seq<Frame>, all: seq<Frame>, stopped: bool)
    requires got <= all && Taken(got, stopped)
    ensures StreamOf(Stdin, got) <= PipeInput(all)
    ensures stopped || got == all ==> PipeDone(all, StreamOf(Stdin, got), stopped)
  {
    hide StreamOf, FeedAll, UpToEof;
    UsedOf(got, all, stopped);
    PipeBytes(FeedState([], true, (0, 0)), all);
    NoTail(StreamOf(Stdin, UpToEof(all)));
  }

  /** Everything called for is written, and the pump stopped at an end-of-file
      frame exactly if there was one. */
  predicate PipeDone(fs: seq<Frame>, written: seq<Byte>, stopped: bool) {
    written == PipeInput(fs) && (stopped <==> EofFrame in fs)
  }

  /** What the frames of a channel call for on a pipe. */
  function PipeInput(fs: seq<Frame>): seq<Byte> {
    FeedAll(Pipes, FeedState([], true, (0, 0)), Used(Pipes, fs)).bytes
  }

  /** The pipe holds the payloads of these frames, but perhaps a part of the
      last. */
  predicate LastPart(fs: seq<Frame>, w: seq<Byte>) {
    w <= StreamOf(Stdin, fs) && (fs != [] ==> StreamOf(Stdin, fs[..|fs| - 1]) <= w)
  }

  /** All of them. */
  lemma AllIsPart(fs: seq<Frame>, w: seq<Byte>)
    requires w == StreamOf(Stdin, fs)
    ensures LastPart(fs, w)
  {
    hide StreamOf;
    if fs != [] {
      StreamPrefix(Stdin, fs[..|fs| - 1], fs);
    }
  }

  /** One more frame, of which `p` is written. */
  lemma PipeOne(fs: seq<Frame>, f: Frame, all: seq<Frame>, w: seq<Byte>, p: seq<Byte>)
    requires fs + [f] <= all && Taken(fs, false) && w == StreamOf(Stdin, fs)
    requires p <= if f.ty == Stdin then f.payload else []
    ensures Taken(fs + [f], f == EofFrame) && LastPart(fs + [f], w + p) && w + p <= PipeInput(all)
    ensures f.ty == Stdin ==> |w| + |f.payload| <= |PipeInput(all)|
    ensures p == (if f.ty == Stdin then f.payload else []) ==> w + p == StreamOf(Stdin, fs + [f])
    ensures f == EofFrame ==> PipeDone(all, w, true) && w == StreamOf(Stdin, fs + [f])
  {
    hide StreamOf, PipeInput, PipeDone, Taken;
    StreamSnoc(Stdin, fs, f);
    TakenSnoc(fs, f);
    assert (fs + [f])[..|fs|] == fs;
    PipeUsed(fs + [f], all, f == EofFrame);
    NoTail(w);
  }

  /** `pump_client_frames_to_pipe`: the stdin payloads go into the pipe, up to
      the first empty one, where the pump stops and drops the write end; a pipe
      without room for them ends it badly in the frame that does not fit. */
  method PumpPipe(reader: FrameReader, pipe: ByteSink) returns (ok: bool, sawEof: bool, ghost fs: seq<Frame>)
    requires pipe.written == []
    modifies reader.inner, pipe
    ensures var all := DecodeAll(old(reader.inner.data));
            var roomy := Takes(old(pipe.room), |PipeInput(all.frames)|);
            var unfailed := Failures(reader.inner.plan) == Failures(old(reader.inner.plan));
      && fs <= all.frames && Taken(fs, sawEof)
      && LastPart(fs, pipe.written) && pipe.written <= PipeInput(all.frames)
      && (sawEof ==> ok) && (ok ==> unfailed)
      && (ok || roomy ==> pipe.written == StreamOf(Stdin, fs))
      && (unfailed && (ok || roomy) ==> PipeDone(all.frames, pipe.written, sawEof))
      && (unfailed && (ok || roomy) && !sawEof ==> fs == all.frames && (ok <==> all.ending == Clean))
  {
    hide ParseNext, DecodeAll, StreamOf, PipeInput, PipeDone, Failures, ItemOf, Taken, Takes, RoomLeft, LastPart;
    NothingYet();
    NothingTaken();
    fs, sawEof := [], false;
    ghost var all, room := DecodeAll(reader.inner.data), pipe.room;
    NothingShown([], room, room);
    while true
      invariant Failures(reader.inner.plan) == Failures(old(reader.inner.plan))
      invariant RoomLeft(room, pipe.room, |pipe.written|)
      invariant all.frames == fs + DecodeAll(reader.inner.data).frames
      invariant all.ending == DecodeAll(reader.inner.data).ending
      invariant pipe.written == StreamOf(Stdin, fs)
      invariant Taken(fs, false)
      decreases |reader.inner.data|
    {
      var item := reader.Next();
      ghost var w, left := pipe.written, pipe.room;
      if !item.Next? {
        PipeUsed(fs, all.frames, false);
        AllIsPart(fs, w);
        return item.End?, false, fs;
      }
      var f := item.frame;
      Assoc(fs, [f], DecodeAll(reader.inner.data).frames);
      if f.ty == Stdin {
        if f.payload == [] {
          PipeOne(fs, f, all.frames, w, []);
          NoTail(w);
          return true, true, fs + [f];
        }
        var sent := pipe.WriteAll(f.payload);
        RoomStep(room, left, pipe.room, w, pipe.written, f.payload, sent);
        PipeOne(fs, f, all.frames, w, pipe.written[|w|..]);
        RoomEnds(room, left, |w|, |f.payload|, |PipeInput(all.frames)|);
        if !sent {
          return false, false, fs + [f];
        }
      } else {
        PipeOne(fs, f, all.frames, w, []);
        NoTail(w);
      }
      fs := fs + [f];
    }
  }
}
