/** The local escape filter of the client (src/bin/vmctl.rs, `filter_escape`):
    Ctrl-] followed by `q` ends the session; a lone Ctrl-] is held across calls
    and forwarded when something else follows. */
module Escape {
  import opened Wire

  const ESCAPE: Byte := 0x1d
  const QUIT_KEY: Byte := 113 // 'q'

  /** The bytes forwarded so far, whether a Ctrl-] is held, and whether the user
      quit. */
  datatype Filter = Filter(out: seq<Byte>, escaped: bool, quit: bool)

  const Fresh := Filter([], false, false)

  function FilterByte(st: Filter, b: Byte): Filter {
    if st.quit then st
    else if st.escaped then
      if b == QUIT_KEY then Filter(st.out, false, true)
      else if b == ESCAPE then Filter(st.out + [ESCAPE], true, false)
      else Filter(st.out + [ESCAPE, b], false, false)
    else if b == ESCAPE then Filter(st.out, true, false)
    else Filter(st.out + [b], false, false)
  }

  /** Running the filter over `input` from state `st`. */
  function FilterFrom(st: Filter, input: seq<Byte>): Filter {
    if input == [] then st
    else FilterByte(FilterFrom(st, input[..|input| - 1]), input[|input| - 1])
  }

  lemma FilterSnoc(st: Filter, input: seq<Byte>, b: Byte)
    ensures FilterFrom(st, input + [b]) == FilterByte(FilterFrom(st, input), b)
  {
    assert (input + [b])[..|input|] == input;
  }

  /** The held byte, as output still owed. */
  function Held(st: Filter): seq<Byte> {
    if st.escaped then [ESCAPE] else []
  }

  /** One call on a chunk of input. */
  method FilterEscape(input: seq<Byte>, escaped0: bool) returns (out: seq<Byte>, escaped: bool, quit: bool)
    ensures Filter(out, escaped, quit) == FilterFrom(Filter([], escaped0, false), input)
  {
    out, escaped, quit := [], escaped0, false;
    var i := 0;
    while i < |input|
      invariant 0 <= i <= |input|
      invariant !quit
      invariant Filter(out, escaped, quit) == FilterFrom(Filter([], escaped0, false), input[..i])
    {
      var b := input[i];
      assert input[..i + 1] == input[..i] + [b];
      FilterSnoc(Filter([], escaped0, false), input[..i], b);
      i := i + 1;
      if escaped {
        if b == QUIT_KEY {
          escaped, quit := false, true;
          QuitAbsorbs(Filter([], escaped0, false), input[..i], input[i..]);
          assert input[..i] + input[i..] == input;
          return;
        }
        out := out + [ESCAPE];
        if b == ESCAPE {
          continue;
        }
        escaped := false;
        out := out + [b];
      } else if b == ESCAPE {
        escaped := true;
      } else {
        out := out + [b];
      }
    }
    assert input[..i] == input;
  }

  /** Nothing after the quit sequence is looked at. */
  lemma {:induction false} QuitAbsorbs(st: Filter, a: seq<Byte>, b: seq<Byte>)
    requires FilterFrom(st, a).quit
    ensures FilterFrom(st, a + b) == FilterFrom(st, a)
  {
    ChunkInvariant(st, a, b);
    QuitStays(FilterFrom(st, a), b);
  }

  lemma {:induction false} QuitStays(st: Filter, b: seq<Byte>)
    requires st.quit
    ensures FilterFrom(st, b) == st
  {
    if b != [] {
      QuitStays(st, b[..|b| - 1]);
    }
  }

  /** Chunk invariance: cutting the input anywhere and carrying the state over
      changes nothing. */
  lemma {:induction false} ChunkInvariant(st: Filter, a: seq<Byte>, b: seq<Byte>)
    ensures FilterFrom(st, a + b) == FilterFrom(FilterFrom(st, a), b)
  {
    if b == [] {
      assert a + b == a;
    } else {
      var init, last := b[..|b| - 1], b[|b| - 1];
      assert a + b == (a + init) + [last];
      FilterSnoc(st, a + init, last);
      ChunkInvariant(st, a, init);
    }
  }

  /** The state a whole sequence of reads leaves behind, call by call: each call
      starts with an empty output and the carried flag, and stops the loop when
      the user quits. */
  function Calls(chunks: seq<seq<Byte>>): Filter {
    if chunks == [] then Fresh
    else
      var st := Calls(chunks[..|chunks| - 1]);
      if st.quit then st
      else
        var r := FilterFrom(Filter([], st.escaped, false), chunks[|chunks| - 1]);
        Filter(st.out + r.out, r.escaped, r.quit)
  }

  function Flatten(chunks: seq<seq<Byte>>): seq<Byte> {
    if chunks == [] then [] else Flatten(chunks[..|chunks| - 1]) + chunks[|chunks| - 1]
  }

  /** The output already produced is only ever appended to. */
  lemma {:induction false} OutputAppends(o: seq<Byte>, escaped: bool, input: seq<Byte>)
    ensures var r := FilterFrom(Filter([], escaped, false), input);
            FilterFrom(Filter(o, escaped, false), input) == Filter(o + r.out, r.escaped, r.quit)
  {
    if input == [] {
      assert o + [] == o;
    } else {
      OutputAppends(o, escaped, input[..|input| - 1]);
      var r := FilterFrom(Filter([], escaped, false), input[..|input| - 1]);
      assert o + (r.out + [ESCAPE]) == (o + r.out) + [ESCAPE];
    }
  }

  /** Any number of calls with the carried flag equals one call on all bytes. */
  lemma {:induction false} CallsAreOneCall(chunks: seq<seq<Byte>>)
    ensures Calls(chunks) == FilterFrom(Fresh, Flatten(chunks))
  {
    if chunks != [] {
      var init, last := chunks[..|chunks| - 1], chunks[|chunks| - 1];
      CallsAreOneCall(init);
      ChunkInvariant(Fresh, Flatten(init), last);
      var st := Calls(init);
      if st.quit {
        QuitStays(st, last);
      } else {
        OutputAppends(st.out, st.escaped, last);
      }
    }
  }

  // ----- what the filter means -----

  /** Ctrl-] `q` stands at position `i`. */
  predicate QuitAt(s: seq<Byte>, i: int) {
    0 <= i < |s| - 1 && s[i] == ESCAPE && s[i + 1] == QUIT_KEY
  }

  ghost predicate HasQuit(s: seq<Byte>) {
    exists i :: QuitAt(s, i)
  }

  /** The bytes themselves: Ctrl-] is 29 and `q` is 113. */
  lemma KeyBytes(s: seq<Byte>, i: int)
    ensures QuitAt(s, i) <==> 0 <= i < |s| - 1 && s[i] == 29 && s[i + 1] == 113
  {
  }

  /** Without a quit nothing is lost: the output and the held byte are the
      input, after what was held before. */
  lemma {:induction false} NothingLost(escaped: bool, input: seq<Byte>)
    ensures var r := FilterFrom(Filter([], escaped, false), input);
            !r.quit ==> r.out + Held(r) == (if escaped then [ESCAPE] else []) + input
  {
    if input != [] {
      var init, last := input[..|input| - 1], input[|input| - 1];
      NothingLost(escaped, init);
      var r := FilterFrom(Filter([], escaped, false), init);
      if !r.quit {
        var h: seq<Byte> := if escaped then [ESCAPE] else [];
        assert h + input == (h + init) + [last];
        assert r.escaped ==> r.out + [ESCAPE, last] == (r.out + [ESCAPE]) + [last];
      }
    }
  }

  /** Until it quits, the filter holds a byte exactly when the last byte read is
      Ctrl-]. */
  lemma HeldIffLast(input: seq<Byte>)
    requires input != [] && !FilterFrom(Fresh, input).quit
    ensures FilterFrom(Fresh, input).escaped <==> input[|input| - 1] == ESCAPE
  {
  }

  /** A prefix that does not quit holds no Ctrl-] `q`. */
  lemma {:induction false} NoQuitNoPair(s: seq<Byte>, i: int)
    requires !FilterFrom(Fresh, s).quit
    ensures !QuitAt(s, i)
  {
    if s != [] {
      var init := s[..|s| - 1];
      NoQuitNoPair(init, i);
      if i == |s| - 2 && init != [] {
        HeldIffLast(init);
      }
    }
  }

  /** Where it quits is the first occurrence, and the bytes before it are out. */
  lemma {:induction false} QuitFound(s: seq<Byte>) returns (i: nat)
    requires FilterFrom(Fresh, s).quit
    ensures QuitAt(s, i) && FilterFrom(Fresh, s).out == s[..i] && !FilterFrom(Fresh, s).escaped
    ensures forall j :: QuitAt(s, j) ==> i <= j
  {
    var init := s[..|s| - 1];
    if FilterFrom(Fresh, init).quit {
      i := QuitFound(init);
      forall j | QuitAt(s, j) ensures i <= j {
        assert j == |s| - 2 || QuitAt(init, j);
      }
    } else {
      i := |s| - 2;
      HeldIffLast(init);
      NothingLost(false, init);
      assert [] + init == init;
      forall j | QuitAt(s, j) ensures i <= j {
        NoQuitNoPair(init, j);
      }
    }
  }

  /** The filter quits exactly when Ctrl-] and `q` occur next to each other, and
      then it has forwarded precisely the bytes before the first occurrence;
      otherwise the output and the held byte are the whole input. */
  lemma {:induction false} QuitsExactly(s: seq<Byte>)
    ensures var r := FilterFrom(Fresh, s);
      && (r.quit <==> exists i :: QuitAt(s, i))
      && (forall i :: QuitAt(s, i) && (forall j :: QuitAt(s, j) ==> i <= j) ==> r.out == s[..i])
      && (!r.quit ==> r.out + Held(r) == s)
      && (r.quit ==> !r.escaped)
  {
    hide FilterFrom;
    if FilterFrom(Fresh, s).quit {
      var i := QuitFound(s);
    } else {
      NothingLost(false, s);
      assert [] + s == s;
      forall i ensures !QuitAt(s, i) {
        NoQuitNoPair(s, i);
      }
    }
  }

  // ----- sizes -----

  /** `|out| + held after == |input| + held before` unless the user quits, and
      a call that quits forwards less than it read. */
  lemma Sizes(escaped: bool, input: seq<Byte>)
    ensures var r := FilterFrom(Filter([], escaped, false), input);
      && (!r.quit ==> |r.out| + |Held(r)| == |input| + (if escaped then 1 else 0))
      && (r.quit ==> |r.out| < |input|)
  {
    NothingLost(escaped, input);
  }

  /** `write_to` refuses a payload of the input loop exactly when a full read
      arrives while a Ctrl-] is held, neither completes nor contains Ctrl-] `q`,
      and does not end in Ctrl-]. */
  lemma RefusedExactly(escaped: bool, input: seq<Byte>)
    requires 0 < |input| <= MAX_PAYLOAD
    ensures !Fits(Frame(Stdin, FilterFrom(Filter([], escaped, false), input).out)) <==>
              escaped && Overflows(input)
  {
    Sizes(escaped, input);
    if escaped {
      HeldQuits(input);
      LastHeld(escaped, input);
    }
  }

  /** A full read that is one byte too many behind a held Ctrl-]. */
  ghost predicate Overflows(input: seq<Byte>) {
    && |input| == MAX_PAYLOAD && input[|input| - 1] != ESCAPE
    && !HasQuit([ESCAPE] + input)
  }

  /** With a Ctrl-] held the filter works as on the input with that byte in
      front. */
  lemma HeldQuits(input: seq<Byte>)
    ensures FilterFrom(Filter([], true, false), input).quit <==> HasQuit([ESCAPE] + input)
  {
    ChunkInvariant(Fresh, [ESCAPE], input);
    QuitsExactly([ESCAPE] + input);
    assert [ESCAPE][..0] == [];
    assert FilterFrom(Fresh, [ESCAPE]) == FilterByte(Fresh, ESCAPE);
  }

  /** A read that does not quit leaves a byte held exactly when it ends in
      Ctrl-]. */
  lemma LastHeld(escaped: bool, input: seq<Byte>)
    requires input != []
    ensures var r := FilterFrom(Filter([], escaped, false), input);
            !r.quit ==> (r.escaped <==> input[|input| - 1] == ESCAPE)
  {
  }

  /** The read `chunk` is refused after the bytes `typed`: the last byte typed
      so far is a Ctrl-], and the full read overflows behind it. */
  ghost predicate RefusedRead(typed: seq<Byte>, chunk: seq<Byte>) {
    typed != [] && typed[|typed| - 1] == ESCAPE && Overflows(chunk)
  }

  lemma {:induction false} NoKeyNoQuit(escaped: bool, input: seq<Byte>)
    requires QUIT_KEY !in input
    ensures !FilterFrom(Filter([], escaped, false), input).quit
  {
    if input != [] {
      NoKeyNoQuit(escaped, input[..|input| - 1]);
    }
  }

  /** It does happen: a lone Ctrl-], then a full read of the letter `a`. */
  lemma RefusalExample()
    ensures FilterFrom(Fresh, [ESCAPE]).escaped
    ensures !Fits(Frame(Stdin, FilterFrom(Filter([], true, false), seq(MAX_PAYLOAD, _ => 97)).out))
  {
    var full: seq<Byte> := seq(MAX_PAYLOAD, _ => 97);
    assert |full| == MAX_PAYLOAD && full[|full| - 1] == 97;
    assert [ESCAPE][..0] == [];
    assert FilterFrom(Fresh, [ESCAPE]) == FilterByte(Fresh, ESCAPE);
    NoKeyNoQuit(true, full);
    RefusedExactly(true, full);
  }
}
