/** What the server's input pumps write to the command's stdin, as functions of
    the frames they receive (src/bin/server.rs, `pump_client_frames_tty` and
    `pump_client_frames_to_pipe`). */
module Feed {
  import opened Wire

  /** How the command's stdio is wired once the handshake is over. */
  datatype Wiring = Unwired | Tty | Pipes

  const EOF_CHAR: Byte := 0x04
  const NEWLINE: Byte := 10
  const RETURN: Byte := 13

  /** Everything written so far, the `at_line_start` flag, and the PTY size. */
  datatype FeedState = FeedState(bytes: seq<Byte>, lineStart: bool, size: (U16, U16))

  predicate EndsLine(p: seq<Byte>) {
    p != [] && (p[|p| - 1] == NEWLINE || p[|p| - 1] == RETURN)
  }

  /** The VEOF characters that end a text typed into a terminal. */
  function EofChars(text: seq<Byte>): seq<Byte> {
    if text == [] || EndsLine(text) then [EOF_CHAR] else [EOF_CHAR, EOF_CHAR]
  }

  /** The effect of one frame. */
  function FeedFrame(w: Wiring, st: FeedState, f: Frame): FeedState {
    if f.ty == Stdin then
      if w == Tty then
        if f.payload == [] then
          st.(bytes := st.bytes + (if st.lineStart then [EOF_CHAR] else [EOF_CHAR, EOF_CHAR]))
        else st.(bytes := st.bytes + f.payload, lineStart := EndsLine(f.payload))
      else st.(bytes := st.bytes + f.payload)
    else if w == Tty && AsResize(f).Some? then st.(size := AsResize(f).value)
    else st
  }

  /** The bytes themselves: a newline is 10, a carriage return 13, VEOF 4. */
  lemma LineBytes(text: seq<Byte>, st: FeedState)
    ensures EndsLine(text) <==> text != [] && (text[|text| - 1] == 10 || text[|text| - 1] == 13)
    ensures EofChars(text) == if text == [] || EndsLine(text) then [4] else [4, 4]
    ensures FeedFrame(Tty, st, EofFrame).bytes == st.bytes + (if st.lineStart then [4] else [4, 4])
  {
  }

  /** The pipe pump returns at an empty stdin frame, dropping the write end. */
  predicate Stops(w: Wiring, f: Frame) {
    w == Pipes && f == EofFrame
  }

  function FeedAll(w: Wiring, st: FeedState, fs: seq<Frame>): FeedState {
    if fs == [] then st else FeedFrame(w, FeedAll(w, st, fs[..|fs| - 1]), fs[|fs| - 1])
  }

  lemma FeedSnoc(w: Wiring, st: FeedState, fs: seq<Frame>, f: Frame)
    ensures FeedAll(w, st, fs + [f]) == FeedFrame(w, FeedAll(w, st, fs), f)
  {
    assert (fs + [f])[..|fs|] == fs;
  }

  lemma FeedNil(w: Wiring, st: FeedState)
    ensures FeedAll(w, st, []) == st
  {
  }

  lemma FeedConcat(w: Wiring, st: FeedState, a: seq<Frame>, b: seq<Frame>)
    ensures FeedAll(w, st, a + b) == FeedAll(w, FeedAll(w, st, a), b)
  {
    if b == [] {
      assert a + b == a;
    } else {
      assert (a + b)[..|a + b| - 1] == a + b[..|b| - 1];
    }
  }

  /** More frames, more bytes. */
  lemma {:induction false} FeedPrefix(w: Wiring, st: FeedState, a: seq<Frame>, b: seq<Frame>)
    requires a <= b
    ensures FeedAll(w, st, a).bytes <= FeedAll(w, st, b).bytes
  {
    hide AsResize, EndsLine;
    if |a| < |b| {
      FeedPrefix(w, st, a, b[..|b| - 1]);
    } else {
      assert a == b;
    }
  }

  /** What is written does not depend on what was written before. */
  lemma {:induction false} FeedAppends(w: Wiring, o: seq<Byte>, st: FeedState, f: Frame)
    ensures FeedFrame(w, st.(bytes := o + st.bytes), f) ==
            FeedFrame(w, st, f).(bytes := o + FeedFrame(w, st, f).bytes)
  {
    assert o + (st.bytes + f.payload) == (o + st.bytes) + f.payload;
    assert o + (st.bytes + [EOF_CHAR]) == (o + st.bytes) + [EOF_CHAR];
    assert o + (st.bytes + [EOF_CHAR, EOF_CHAR]) == (o + st.bytes) + [EOF_CHAR, EOF_CHAR];
  }

  /** The frames before the first end-of-file frame. */
  function UpToEof(fs: seq<Frame>): (p: seq<Frame>)
    ensures |p| <= |fs|
  {
    if fs == [] then []
    else
      var init := UpToEof(fs[..|fs| - 1]);
      if |init| < |fs| - 1 || fs[|fs| - 1] == EofFrame then init else fs
  }

  lemma {:induction false} UpToEofMeans(fs: seq<Frame>)
    ensures UpToEof(fs) <= fs && EofFrame !in UpToEof(fs)
    ensures |UpToEof(fs)| < |fs| ==> fs[|UpToEof(fs)|] == EofFrame
  {
    if fs != [] {
      var init := fs[..|fs| - 1];
      UpToEofMeans(init);
      assert fs == init + [fs[|fs| - 1]];
    }
  }

  /** The frames that a pump acts on: the terminal pump on all, the pipe pump on
      those before the first end-of-file frame, where it returns. */
  function Used(w: Wiring, fs: seq<Frame>): seq<Frame> {
    if w == Pipes then UpToEof(fs) else fs
  }

  /** On pipes the bytes are exactly the stdin payloads before the first
      end-of-file frame, and resize frames are ignored. */
  lemma PipeBytes(st: FeedState, fs: seq<Frame>)
    ensures FeedAll(Pipes, st, Used(Pipes, fs)).bytes == st.bytes + StreamOf(Stdin, UpToEof(fs))
    ensures StreamOf(Stdin, UpToEof(fs)) <= StreamOf(Stdin, fs)
    ensures FeedAll(Pipes, st, Used(Pipes, fs)).size == st.size
  {
    PayloadBytes(st, UpToEof(fs));
    UpToEofMeans(fs);
    StreamPrefix(Stdin, UpToEof(fs), fs);
  }

  /** A prefix without end-of-file frame that is followed by one, or is all. */
  lemma FirstEof(init: seq<Frame>, all: seq<Frame>)
    requires init <= all && EofFrame !in init
    ensures init <= UpToEof(all)
    ensures |init| < |all| && all[|init|] == EofFrame ==> init == UpToEof(all)
    ensures init == all ==> init == UpToEof(all)
  {
    hide UpToEof;
    UpToEofMeans(all);
    var u := UpToEof(all);
    assert forall i :: 0 <= i < |init| ==> all[i] == init[i] != EofFrame;
    assert |init| < |u| ==> u[|init|] == all[|init|] && u[|init|] in u;
  }

  /** The pipe pump has taken the frames `got`, the last of them an end-of-file
      frame if it stopped, and no other. */
  predicate Taken(got: seq<Frame>, stopped: bool) {
    && (stopped ==> got != [] && got[|got| - 1] == EofFrame)
    && EofFrame !in (if stopped then got[..|got| - 1] else got)
  }

  lemma TakenSnoc(got: seq<Frame>, f: Frame)
    requires Taken(got, false)
    ensures Taken(got + [f], f == EofFrame)
  {
    assert (got + [f])[..|got|] == got;
  }

  lemma UsedOf(got: seq<Frame>, all: seq<Frame>, stopped: bool)
    requires got <= all && Taken(got, stopped)
    ensures StreamOf(Stdin, got) <= StreamOf(Stdin, UpToEof(all))
    ensures stopped || got == all ==>
      StreamOf(Stdin, got) == StreamOf(Stdin, UpToEof(all)) && (stopped <==> EofFrame in all)
  {
    hide StreamOf, UpToEof;
    if stopped {
      var init := got[..|got| - 1];
      assert got == init + [EofFrame];
      FirstEof(init, all);
      StreamSnoc(Stdin, init, EofFrame);
      NoTail(StreamOf(Stdin, init));
      assert EofFrame in all by {
        assert all[|init|] == EofFrame;
      }
    } else {
      FirstEof(got, all);
      StreamPrefix(Stdin, got, UpToEof(all));
    }
  }

  lemma {:induction false} PayloadBytes(st: FeedState, fs: seq<Frame>)
    ensures FeedAll(Pipes, st, fs).bytes == st.bytes + StreamOf(Stdin, fs)
    ensures FeedAll(Pipes, st, fs).size == st.size
  {
    if fs == [] {
      assert st.bytes + [] == st.bytes;
    } else {
      var init, f := fs[..|fs| - 1], fs[|fs| - 1];
      PayloadBytes(st, init);
      assert st.bytes + (StreamOf(Stdin, init) + f.payload) == (st.bytes + StreamOf(Stdin, init)) + f.payload;
    }
  }

  function OnlyStdin(fs: seq<Frame>): seq<Frame> {
    if fs == [] then []
    else OnlyStdin(fs[..|fs| - 1]) + (if fs[|fs| - 1].ty == Stdin then [fs[|fs| - 1]] else [])
  }

  /** Deleting the other frames does not move the end of file. */
  lemma {:induction false} OnlyStdinUpToEof(fs: seq<Frame>)
    ensures UpToEof(OnlyStdin(fs)) == OnlyStdin(UpToEof(fs))
    ensures |UpToEof(OnlyStdin(fs))| == |OnlyStdin(fs)| <==> |UpToEof(fs)| == |fs|
  {
    if fs != [] {
      var init, f := fs[..|fs| - 1], fs[|fs| - 1];
      OnlyStdinUpToEof(init);
      UpToEofMeans(init);
      if f.ty == Stdin {
        assert (OnlyStdin(init) + [f])[..|OnlyStdin(init)|] == OnlyStdin(init);
        UpToEofMeans(OnlyStdin(init));
      } else {
        NoTail(OnlyStdin(init));
      }
    }
  }

  /** Deleting every frame that is not a stdin frame changes neither the bytes
      written nor the line flag, on either wiring and for any client stream. */
  lemma OtherFramesWriteNothing(w: Wiring, st: FeedState, fs: seq<Frame>)
    ensures var a, b := FeedAll(w, st, Used(w, OnlyStdin(fs))), FeedAll(w, st, Used(w, fs));
            a.bytes == b.bytes && a.lineStart == b.lineStart
    ensures StreamOf(Stdin, OnlyStdin(fs)) == StreamOf(Stdin, fs)
  {
    hide FeedAll, UpToEof, OnlyStdin, StreamOf;
    OnlyStdinUpToEof(fs);
    OthersWriteNothing(w, st, Used(w, fs));
    OthersWriteNothing(w, st, fs);
  }

  lemma {:induction false} OthersWriteNothing(w: Wiring, st: FeedState, fs: seq<Frame>)
    ensures FeedAll(w, st, OnlyStdin(fs)).bytes == FeedAll(w, st, fs).bytes
    ensures FeedAll(w, st, OnlyStdin(fs)).lineStart == FeedAll(w, st, fs).lineStart
    ensures StreamOf(Stdin, OnlyStdin(fs)) == StreamOf(Stdin, fs)
  {
    hide AsResize, EndsLine;
    if fs != [] {
      var init, f := fs[..|fs| - 1], fs[|fs| - 1];
      OthersWriteNothing(w, st, init);
      if f.ty == Stdin {
        FeedSnoc(w, st, OnlyStdin(init), f);
        StreamSnoc(Stdin, OnlyStdin(init), f);
      } else {
        assert OnlyStdin(fs) == OnlyStdin(init) + [] == OnlyStdin(init);
      }
    }
  }

  /** Position `i` holds a well-formed resize and no later frame does. */
  predicate LastResize(fs: seq<Frame>, i: int) {
    && 0 <= i < |fs| && AsResize(fs[i]).Some?
    && forall j :: i < j < |fs| ==> AsResize(fs[j]).None?
  }

  /** The PTY always has the size of the last well-formed resize frame, or the
      size set at the handshake when there was none. */
  lemma {:induction false} SizeIsLastResize(st: FeedState, fs: seq<Frame>)
    ensures forall i :: LastResize(fs, i) ==> FeedAll(Tty, st, fs).size == AsResize(fs[i]).value
    ensures (forall i :: 0 <= i < |fs| ==> AsResize(fs[i]).None?) ==> FeedAll(Tty, st, fs).size == st.size
  {
    if fs != [] {
      var init, f := fs[..|fs| - 1], fs[|fs| - 1];
      SizeIsLastResize(st, init);
      forall i | LastResize(fs, i) ensures FeedAll(Tty, st, fs).size == AsResize(fs[i]).value {
        if i < |fs| - 1 {
          assert AsResize(f).None?;
          assert LastResize(init, i);
        }
      }
      assert AsResize(f).Some? ==> f.ty == Resize;
    }
  }
}
