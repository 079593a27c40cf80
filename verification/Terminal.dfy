/** Canonical-mode input processing of a terminal (section 11.1.6 of the Base
    Definitions of POSIX.1-2017, with VEOF as in section 11.1.9) and what the
    bytes of `pump_client_frames_tty` mean to the command that reads it. */
module Terminal {
  import opened Wire
  import opened Feed

  /** The line being collected, and what is ready for read(): each entry is what
      one large enough read returns. An empty entry is an end of file. */
  datatype Canon = Canon(line: seq<Byte>, ready: seq<seq<Byte>>)

  const NothingTyped := Canon([], [])

  /** ICRNL, on by default: a carriage return reads as a newline. */
  function MapByte(b: Byte): Byte {
    if b == RETURN then NEWLINE else b
  }

  function CanonByte(t: Canon, b: Byte): Canon {
    if b == EOF_CHAR then Canon([], t.ready + [t.line])
    else if MapByte(b) == NEWLINE then Canon([], t.ready + [t.line + [NEWLINE]])
    else Canon(t.line + [b], t.ready)
  }

  function CanonAll(t: Canon, s: seq<Byte>): Canon {
    if s == [] then t else CanonByte(CanonAll(t, s[..|s| - 1]), s[|s| - 1])
  }

  lemma {:induction false} CanonConcat(t: Canon, a: seq<Byte>, b: seq<Byte>)
    ensures CanonAll(t, a + b) == CanonAll(CanonAll(t, a), b)
  {
    if b == [] {
      assert a + b == a;
    } else {
      assert (a + b)[..|a + b| - 1] == a + b[..|b| - 1];
      CanonConcat(t, a, b[..|b| - 1]);
    }
  }

  /** The characters a terminal treats specially by default: VINTR, VEOF,
      VDISCARD, VSTART, VREPRINT, VSTOP, VKILL, VLNEXT, VWERASE, VSUSP, VQUIT,
      VERASE. */
  predicate Special(b: Byte) {
    b == 3 || b == EOF_CHAR || b == 15 || b == 17 || b == 18 || b == 19 || b == 21 || b == 22 || b == 23
    || b == 26 || b == 28 || b == 127
  }

  predicate Plain(s: seq<Byte>) {
    forall i :: 0 <= i < |s| ==> !Special(s[i])
  }

  function Mapped(s: seq<Byte>): (m: seq<Byte>)
    ensures |m| == |s|
    ensures forall i :: 0 <= i < |s| ==> m[i] == MapByte(s[i])
  {
    seq(|s|, i requires 0 <= i < |s| => MapByte(s[i]))
  }

  function Flat(rs: seq<seq<Byte>>): seq<Byte> {
    if rs == [] then [] else rs[0] + Flat(rs[1..])
  }

  lemma {:induction false} FlatSnoc(rs: seq<seq<Byte>>, r: seq<Byte>)
    ensures Flat(rs + [r]) == Flat(rs) + r
  {
    if rs == [] {
      assert [] + [r] == [r];
      assert Flat([r]) == r + Flat([]);
    } else {
      FlatSnoc(rs[1..], r);
      assert (rs + [r])[1..] == rs[1..] + [r];
    }
  }

  predicate NoneEmpty(rs: seq<seq<Byte>>) {
    forall i :: 0 <= i < |rs| ==> rs[i] != []
  }

  /** Plain bytes: nothing is lost, no end of file appears, and the line is
      empty exactly after a line end (or when nothing was typed). */
  lemma {:induction false} PlainBytes(t: Canon, s: seq<Byte>)
    requires Plain(s) && NoneEmpty(t.ready)
    ensures var r := CanonAll(t, s);
      && NoneEmpty(r.ready)
      && Flat(r.ready) + r.line == (Flat(t.ready) + t.line) + Mapped(s)
      && (s != [] ==> (r.line == [] <==> EndsLine(s)))
  {
    if s == [] {
      var x := Flat(t.ready) + t.line;
      assert x + Mapped(s) == x;
    } else {
      var init, b := s[..|s| - 1], s[|s| - 1];
      PlainBytes(t, init);
      var m := CanonAll(t, init);
      PlainByte(m, b);
      var x := Flat(t.ready) + t.line;
      assert Mapped(s) == Mapped(init) + [MapByte(b)];
      assert (x + Mapped(init)) + [MapByte(b)] == x + (Mapped(init) + [MapByte(b)]);
    }
  }

  lemma PlainByte(m: Canon, b: Byte)
    requires !Special(b) && NoneEmpty(m.ready)
    ensures var r := CanonByte(m, b);
      && NoneEmpty(r.ready)
      && Flat(r.ready) + r.line == (Flat(m.ready) + m.line) + [MapByte(b)]
      && (r.line == [] <==> b == NEWLINE || b == RETURN)
  {
    if MapByte(b) == NEWLINE {
      FlatSnoc(m.ready, m.line + [NEWLINE]);
      assert Flat(m.ready) + (m.line + [NEWLINE]) == (Flat(m.ready) + m.line) + [NEWLINE];
      var f := Flat(m.ready + [m.line + [NEWLINE]]);
      assert f + [] == f;
    } else {
      assert Flat(m.ready) + (m.line + [b]) == (Flat(m.ready) + m.line) + [b];
    }
  }

  /** Typed text: stdin frames with non-empty payloads of plain bytes, among
      frames of other types. */
  predicate Typed(fs: seq<Frame>) {
    forall i :: 0 <= i < |fs| && fs[i].ty == Stdin ==> fs[i].payload != [] && Plain(fs[i].payload)
  }

  predicate StartsClean(st: FeedState) {
    st.bytes == [] && st.lineStart
  }

  /** The pump's flag agrees with the terminal for every typed text cut into any
      frames: it says line start exactly when the line buffer is empty. The
      reader gets every byte and no end of file. */
  lemma {:induction false} FlagAgrees(st: FeedState, fs: seq<Frame>)
    requires StartsClean(st) && Typed(fs)
    ensures var r := FeedAll(Tty, st, fs); var t := CanonAll(NothingTyped, r.bytes);
      && (r.lineStart <==> t.line == [])
      && NoneEmpty(t.ready)
      && Flat(t.ready) + t.line == Mapped(StreamOf(Stdin, fs))
  {
    if fs != [] {
      var init, f := fs[..|fs| - 1], fs[|fs| - 1];
      FlagAgrees(st, init);
      var r, s := FeedAll(Tty, st, init), StreamOf(Stdin, init);
      if f.ty == Stdin {
        MoreTyped(r.bytes, s, f.payload);
      }
    }
  }

  /** One more non-empty payload of plain bytes. */
  lemma MoreTyped(bytes: seq<Byte>, text: seq<Byte>, p: seq<Byte>)
    requires p != [] && Plain(p)
    requires var t := CanonAll(NothingTyped, bytes); NoneEmpty(t.ready) && Flat(t.ready) + t.line == Mapped(text)
    ensures var t := CanonAll(NothingTyped, bytes + p);
      && (EndsLine(p) <==> t.line == []) && NoneEmpty(t.ready) && Flat(t.ready) + t.line == Mapped(text + p)
  {
    CanonConcat(NothingTyped, bytes, p);
    PlainBytes(CanonAll(NothingTyped, bytes), p);
    hide CanonAll, Flat;
    assert Mapped(text + p) == Mapped(text) + Mapped(p);
  }

  /** One end-of-file frame after any typed text: the reader gets all the text
      and then exactly one zero-length read's worth of end of file. */
  lemma OneEof(st: FeedState, fs: seq<Frame>)
    requires StartsClean(st) && Typed(fs)
    ensures var r := FeedAll(Tty, st, fs + [EofFrame]); var t := CanonAll(NothingTyped, r.bytes);
      && t.line == [] && t.ready != [] && t.ready[|t.ready| - 1] == []
      && NoneEmpty(t.ready[..|t.ready| - 1])
      && Flat(t.ready[..|t.ready| - 1]) == Mapped(StreamOf(Stdin, fs))
  {
    FlagAgrees(st, fs);
    FeedSnoc(Tty, st, fs, EofFrame);
    var r := FeedAll(Tty, st, fs);
    EofBytes(CanonAll(NothingTyped, r.bytes), r.lineStart);
    CanonConcat(NothingTyped, r.bytes, if r.lineStart then [EOF_CHAR] else [EOF_CHAR, EOF_CHAR]);
  }

  /** What the one or two VEOF characters do. */
  lemma EofBytes(t: Canon, lineStart: bool)
    requires (lineStart <==> t.line == []) && NoneEmpty(t.ready)
    ensures var u := CanonAll(t, if lineStart then [EOF_CHAR] else [EOF_CHAR, EOF_CHAR]);
      && u.line == [] && u.ready != [] && u.ready[|u.ready| - 1] == []
      && NoneEmpty(u.ready[..|u.ready| - 1])
      && Flat(u.ready[..|u.ready| - 1]) == Flat(t.ready) + t.line
  {
    assert CanonAll(t, [EOF_CHAR]) == CanonByte(t, EOF_CHAR);
    if lineStart {
      assert (t.ready + [[]])[..|t.ready|] == t.ready;
      assert Flat(t.ready) + [] == Flat(t.ready);
    } else {
      assert [EOF_CHAR, EOF_CHAR][..1] == [EOF_CHAR];
      var u := CanonAll(t, [EOF_CHAR, EOF_CHAR]);
      assert u == Canon([], t.ready + [t.line] + [[]]);
      assert u.ready[..|u.ready| - 1] == t.ready + [t.line];
      FlatSnoc(t.ready, t.line);
    }
  }

  // ----- the flag after an end-of-file frame -----

  /** A second end-of-file frame ends one more read when the text before the
      first one ended a line or was empty, but two more when it did not: the flag is not
      reset by the end-of-file frame. */
  lemma SecondEof(st: FeedState, fs: seq<Frame>)
    requires StartsClean(st) && Typed(fs)
    ensures var one := CanonAll(NothingTyped, FeedAll(Tty, st, fs + [EofFrame]).bytes);
            var two := CanonAll(NothingTyped, FeedAll(Tty, st, fs + [EofFrame] + [EofFrame]).bytes);
            two.ready ==
            one.ready + (if StreamOf(Stdin, fs) == [] || EndsLine(StreamOf(Stdin, fs)) then [[]] else [[], []])
  {
    hide CanonAll, EndsLine, StreamOf, Flat, Mapped, NoneEmpty, Plain;
    FlagIsLastByte(st, fs);
    OneEof(st, fs);
    FeedSnoc(Tty, st, fs, EofFrame);
    FeedSnoc(Tty, st, fs + [EofFrame], EofFrame);
    var r := FeedAll(Tty, st, fs + [EofFrame]);
    var t := CanonAll(NothingTyped, r.bytes);
    CanonConcat(NothingTyped, r.bytes, if r.lineStart then [EOF_CHAR] else [EOF_CHAR, EOF_CHAR]);
    EofsRead(t);
  }

  /** One and two VEOF characters at a line start. */
  lemma EofsRead(t: Canon)
    requires t.line == []
    ensures CanonAll(t, [EOF_CHAR]).ready == t.ready + [[]]
    ensures CanonAll(t, [EOF_CHAR, EOF_CHAR]).ready == t.ready + [[], []]
  {
    assert CanonAll(t, [EOF_CHAR]) == CanonByte(t, EOF_CHAR);
    assert [EOF_CHAR, EOF_CHAR][..1] == [EOF_CHAR];
    assert (t.ready + [[]]) + [[]] == t.ready + [[], []];
  }

  /** So after an end-of-file frame the flag agrees with the terminal if and only
      if the text before it ended a line. */
  lemma FlagAfterEof(st: FeedState, fs: seq<Frame>)
    requires StartsClean(st) && Typed(fs)
    ensures var r := FeedAll(Tty, st, fs + [EofFrame]); var t := CanonAll(NothingTyped, r.bytes);
      (r.lineStart <==> t.line == []) <==> (StreamOf(Stdin, fs) == [] || EndsLine(StreamOf(Stdin, fs)))
  {
    OneEof(st, fs);
    FeedSnoc(Tty, st, fs, EofFrame);
    FlagIsLastByte(st, fs);
  }

  /** It does go wrong: one letter and an end-of-file frame leave the flag unset
      with an empty line, and a second end-of-file frame ends two more reads. */
  lemma StaleFlagExample(size: (U16, U16))
    ensures var st, fs := FeedState([], true, size), [Frame(Stdin, [97])];
      && !FeedAll(Tty, st, fs + [EofFrame]).lineStart
      && CanonAll(NothingTyped, FeedAll(Tty, st, fs + [EofFrame]).bytes).line == []
      && CanonAll(NothingTyped, FeedAll(Tty, st, fs + [EofFrame] + [EofFrame]).bytes).ready ==
         CanonAll(NothingTyped, FeedAll(Tty, st, fs + [EofFrame]).bytes).ready + [[], []]
  {
    hide FeedAll, CanonAll, Flat, Mapped, StreamOf, EndsLine, Plain, NoneEmpty;
    var st, fs := FeedState([], true, size), [Frame(Stdin, [97])];
    OneLetter();
    assert Typed(fs);
    OneEof(st, fs);
    FlagAfterEof(st, fs);
    SecondEof(st, fs);
  }

  lemma OneLetter()
    ensures StreamOf(Stdin, [Frame(Stdin, [97])]) == [97] && Plain([97]) && !EndsLine([97])
  {
    StreamSnoc(Stdin, [], Frame(Stdin, [97]));
    assert [] + [Frame(Stdin, [97])] == [Frame(Stdin, [97])];
  }

  /** Without an end-of-file frame the flag says how the text ends, plain or not. */
  lemma {:induction false} FlagIsLastByte(st: FeedState, fs: seq<Frame>)
    requires st.lineStart && forall i :: 0 <= i < |fs| && fs[i].ty == Stdin ==> fs[i].payload != []
    ensures FeedAll(Tty, st, fs).lineStart <==> (StreamOf(Stdin, fs) == [] || EndsLine(StreamOf(Stdin, fs)))
  {
    if fs != [] {
      var init, f := fs[..|fs| - 1], fs[|fs| - 1];
      FlagIsLastByte(st, init);
      if f.ty != Stdin {
        assert StreamOf(Stdin, fs) == StreamOf(Stdin, init);
      }
    }
  }

  // ----- the reading command -----

  /** One read of at most `n` bytes. */
  function ReadOnce(q: seq<seq<Byte>>, n: nat): (seq<Byte>, seq<seq<Byte>>)
    requires q != [] && n > 0
  {
    if |q[0]| <= n then (q[0], q[1..]) else (q[0][..n], [q[0][n..]] + q[1..])
  }

  /** The results of reads with the given buffer sizes, up to the first that
      would block. */
  function Reads(q: seq<seq<Byte>>, sizes: seq<nat>): seq<seq<Byte>>
    requires forall i :: 0 <= i < |sizes| ==> sizes[i] > 0
    decreases |sizes|
  {
    if sizes == [] || q == [] then []
    else [ReadOnce(q, sizes[0]).0] + Reads(ReadOnce(q, sizes[0]).1, sizes[1..])
  }

  /** Whatever buffer sizes the command reads with, it gets the text in order; a
      zero-length read comes only after all of it and is the last one; and
      enough reads do reach it. */
  lemma {:induction false} EofReadOnce(rs: seq<seq<Byte>>, sizes: seq<nat>)
    requires NoneEmpty(rs)
    requires forall i :: 0 <= i < |sizes| ==> sizes[i] > 0
    ensures var r := Reads(rs + [[]], sizes);
      && Flat(r) <= Flat(rs)
      && (forall i :: 0 <= i < |r| && r[i] == [] ==> i == |r| - 1 && Flat(r) == Flat(rs))
      && (|sizes| > |Flat(rs)| ==> r != [] && r[|r| - 1] == [])
    decreases |sizes|
  {
    var q := rs + [[]];
    if sizes == [] {
    } else if rs == [] {
      assert q[0] == [] && q[1..] == [];
      assert Reads(q, sizes) == [[]];
      assert Flat([[]]) == [] + Flat([]);
    } else {
      var (d, rest) := ReadOnce(q, sizes[0]);
      var rs' := if |rs[0]| <= sizes[0] then rs[1..] else [rs[0][sizes[0]..]] + rs[1..];
      assert rest == rs' + [[]];
      assert d != [] && Flat(rs) == d + Flat(rs') by {
        FlatSplit(rs, sizes[0]);
      }
      EofReadOnce(rs', sizes[1..]);
      ReadsCons(d, Reads(rest, sizes[1..]), Flat(rs'), Flat(rs));
    }
  }

  lemma FlatCons(r: seq<Byte>, rs: seq<seq<Byte>>)
    ensures Flat([r] + rs) == r + Flat(rs)
  {
    assert ([r] + rs)[1..] == rs;
  }

  lemma FlatSplit(rs: seq<seq<Byte>>, n: nat)
    requires rs != [] && rs[0] != [] && n > 0
    ensures |rs[0]| <= n ==> Flat(rs) == rs[0] + Flat(rs[1..])
    ensures |rs[0]| > n ==> Flat(rs) == rs[0][..n] + Flat([rs[0][n..]] + rs[1..])
  {
    hide Flat;
    assert rs == [rs[0]] + rs[1..];
    FlatCons(rs[0], rs[1..]);
    if |rs[0]| > n {
      var a, b := rs[0][..n], rs[0][n..];
      SplitAt(rs[0], n);
      FlatCons(b, rs[1..]);
      Assoc(a, b, Flat(rs[1..]));
    }
  }

  lemma ReadsCons(d: seq<Byte>, r: seq<seq<Byte>>, tail: seq<Byte>, all: seq<Byte>)
    requires d != [] && all == d + tail && Flat(r) <= tail
    requires forall i :: 0 <= i < |r| && r[i] == [] ==> i == |r| - 1 && Flat(r) == tail
    ensures var q := [d] + r;
      Flat(q) <= all && forall i :: 0 <= i < |q| && q[i] == [] ==> i == |q| - 1 && Flat(q) == all
  {
    var q := [d] + r;
    assert Flat(q) == d + Flat(r) by {
      assert q[0] == d && q[1..] == r;
    }
    hide Flat;
    assert tail == Flat(r) + tail[|Flat(r)|..];
    assert all == Flat(q) + tail[|Flat(r)|..];
    forall i | 0 <= i < |q| && q[i] == [] ensures i == |q| - 1 && Flat(q) == all {
      assert i > 0 && r[i - 1] == [];
    }
  }

  // ----- reading while the bytes arrive -----

  /** The terminal takes a byte, or the command reads at most `n` bytes. */
  datatype TtyEvent = Arrives(b: Byte) | ReadsUpTo(n: nat)

  /** The terminal, with what is left to read, and the results of the reads. */
  datatype Exchange = Exchange(t: Canon, got: seq<seq<Byte>>)

  /** A read with nothing ready blocks; one into an empty buffer tells nothing. */
  function Happens(x: Exchange, e: TtyEvent): Exchange {
    match e
    case Arrives(b) => x.(t := CanonByte(x.t, b))
    case ReadsUpTo(n) =>
      if x.t.ready == [] || n == 0 then x
      else
        var (d, rest) := ReadOnce(x.t.ready, n);
        Exchange(x.t.(ready := rest), x.got + [d])
  }

  function Exchanged(events: seq<TtyEvent>): Exchange {
    if events == [] then Exchange(NothingTyped, [])
    else Happens(Exchanged(events[..|events| - 1]), events[|events| - 1])
  }

  function Arrived(events: seq<TtyEvent>): seq<Byte> {
    if events == [] then []
    else
      var last := events[|events| - 1];
      Arrived(events[..|events| - 1]) + (if last.Arrives? then [last.b] else [])
  }

  /** An end of file appears at most once, and then at the very end. */
  predicate OneEnd(rs: seq<seq<Byte>>) {
    forall i :: 0 <= i < |rs| && rs[i] == [] ==> i == |rs| - 1
  }

  predicate EndsEmpty(rs: seq<seq<Byte>>) {
    rs != [] && rs[|rs| - 1] == []
  }

  lemma {:induction false} ReadyGrows(t: Canon, a: seq<Byte>, b: seq<Byte>)
    ensures CanonAll(t, a).ready <= CanonAll(t, a + b).ready
  {
    if b == [] {
      NoTail(a);
    } else {
      assert (a + b)[..|a + b| - 1] == a + b[..|b| - 1];
      ReadyGrows(t, a, b[..|b| - 1]);
    }
  }

  lemma {:induction false} FlatPrefix(rs: seq<seq<Byte>>, qs: seq<seq<Byte>>)
    requires rs <= qs
    ensures Flat(rs) <= Flat(qs)
  {
    if rs != [] {
      FlatPrefix(rs[1..], qs[1..]);
    }
  }

  /** What the reads have returned and what they have left, against all that ever
      became ready. */
  ghost predicate Accounted(x: Exchange, all: Canon) {
    && x.t.line == all.line
    && Flat(x.got) + Flat(x.t.ready) == Flat(all.ready)
    && (forall i :: 0 <= i < |x.t.ready| && x.t.ready[i] == [] ==> i == |x.t.ready| - 1 && EndsEmpty(all.ready))
    && (forall j :: 0 <= j < |x.got| && x.got[j] == [] ==> j == |x.got| - 1 && x.t.ready == [] && EndsEmpty(all.ready))
  }

  /** Reads of any size, in any interleaving with the arrival of the bytes, get
      what becomes ready in order, and a zero-length read comes only after all of
      it and is the last. */
  lemma {:induction false} ReadsOnTheWay(events: seq<TtyEvent>)
    requires OneEnd(CanonAll(NothingTyped, Arrived(events)).ready)
    ensures Accounted(Exchanged(events), CanonAll(NothingTyped, Arrived(events)))
  {
    if events != [] {
      var init, e := events[..|events| - 1], events[|events| - 1];
      var before := CanonAll(NothingTyped, Arrived(init));
      ReadyGrows(NothingTyped, Arrived(init), if e.Arrives? then [e.b] else []);
      assert OneEnd(before.ready);
      ReadsOnTheWay(init);
      hide CanonAll, Exchanged, Happens, Flat;
      match e {
        case Arrives(b) =>
          CanonSnoc(Arrived(init), b);
          ArrivalAccounted(Exchanged(init), before, b);
          ExchangedSnoc(events);
          HappensArrival(Exchanged(init), b);
        case ReadsUpTo(n) =>
          NoTail(Arrived(init));
          ReadAccounted(Exchanged(init), before, n);
          ExchangedSnoc(events);
      }
    }
  }

  lemma ExchangedSnoc(events: seq<TtyEvent>)
    requires events != []
    ensures Exchanged(events) == Happens(Exchanged(events[..|events| - 1]), events[|events| - 1])
  {
  }

  lemma HappensArrival(x: Exchange, b: Byte)
    ensures Happens(x, Arrives(b)) == x.(t := CanonByte(x.t, b))
  {
  }

  lemma CanonSnoc(s: seq<Byte>, b: Byte)
    ensures CanonAll(NothingTyped, s + [b]) == CanonByte(CanonAll(NothingTyped, s), b)
  {
    assert (s + [b])[..|s|] == s;
  }

  lemma ArrivalAccounted(x: Exchange, all: Canon, b: Byte)
    requires Accounted(x, all) && OneEnd(CanonByte(all, b).ready)
    ensures Accounted(x.(t := CanonByte(x.t, b)), CanonByte(all, b))
  {
    hide Flat;
    if b == EOF_CHAR || MapByte(b) == NEWLINE {
      var e := if b == EOF_CHAR then all.line else all.line + [NEWLINE];
      assert !EndsEmpty(all.ready) by {
        assert CanonByte(all, b).ready == all.ready + [e];
        assert forall i :: 0 <= i < |all.ready| ==> (all.ready + [e])[i] == all.ready[i];
      }
      FlatSnoc(x.t.ready, e);
      FlatSnoc(all.ready, e);
      Assoc(Flat(x.got), Flat(x.t.ready), e);
    }
  }

  lemma ReadAccounted(x: Exchange, all: Canon, n: nat)
    requires Accounted(x, all)
    ensures Accounted(Happens(x, ReadsUpTo(n)), all)
  {
    if x.t.ready != [] && n > 0 {
      var q := x.t.ready;
      var (d, rest) := ReadOnce(q, n);
      FlatSnoc(x.got, d);
      if q[0] != [] {
        FlatSplit(q, n);
      }
      assert Flat(q) == d + Flat(rest);
      hide Flat;
      Assoc(Flat(x.got), d, Flat(rest));
      assert forall i :: 0 < i < |rest| ==> rest[i] == q[i + |q| - |rest|];
    }
  }
}
