/** The printer of kernel command line arguments (src/qemu.rs,
    `format_init_args`) and the tokenizer it targets: it splits on spaces unless
    they are quoted, and drops the quotes. */
module InitArgs {
  import opened Wire

  const QUOTE: char := '"'
  const SPACE: char := ' '

  // ----- the printer -----

  predicate HasQuote(arg: string) {
    QUOTE in arg
  }

  predicate NoQuotes(command: seq<string>) {
    forall i :: 0 <= i < |command| ==> !HasQuote(command[i])
  }

  predicate NoneEmpty(command: seq<string>) {
    forall i :: 0 <= i < |command| ==> command[i] != ""
  }

  function Printed(arg: string): string {
    if SPACE in arg then [QUOTE] + arg + [QUOTE] else arg
  }

  function Line(command: seq<string>): string {
    if command == [] then ""
    else
      var init := command[..|command| - 1];
      Line(init) + (if init == [] then "" else [SPACE]) + Printed(command[|command| - 1])
  }

  lemma LineStart(command: seq<string>)
    ensures Line(command[..0]) == ""
  {
  }

  /** One more argument. */
  lemma LineStep(command: seq<string>, idx: nat)
    requires idx < |command|
    ensures Line(command[..idx + 1]) ==
            (if idx > 0 then Line(command[..idx]) + [SPACE] else Line(command[..idx])) + Printed(command[idx])
  {
    var c := command[..idx + 1];
    assert c[..idx] == command[..idx] && c[idx] == command[idx];
    NoTail(Line(command[..idx]));
  }

  datatype Formatted = NoLine | ArgsLine(line: string) | QuoteError(arg: string)

  method FormatInitArgs(command: seq<string>) returns (r: Formatted)
    ensures r == NoLine <==> command == []
    ensures r.QuoteError? <==> !NoQuotes(command)
    ensures r.QuoteError? <==> exists i :: 0 <= i < |command| && '"' in command[i]
    ensures r.QuoteError? ==> exists i :: 0 <= i < |command| && r.arg == command[i] && '"' in command[i]
                                          && forall j :: 0 <= j < i ==> '"' !in command[j]
    ensures r.ArgsLine? ==> r.line == Line(command)
    ensures r.ArgsLine? ==>
      (Tokenize(r.line) == command <==> NoneEmpty(command))
  {
    hide Line, Printed, Tokenize, NoneEmpty;
    if |command| == 0 {
      return NoLine;
    }
    var line := "";
    LineStart(command);
    for idx := 0 to |command|
      invariant line == Line(command[..idx])
      invariant forall i :: 0 <= i < idx ==> !HasQuote(command[i])
    {
      var arg := command[idx];
      if HasQuote(arg) {
        return QuoteError(arg);
      }
      LineStep(command, idx);
      if idx > 0 {
        line := line + [SPACE];
      }
      line := line + Printed(arg);
    }
    assert command[..|command|] == command;
    ReadsBackExactly(command);
    return ArgsLine(line);
  }

  // ----- the tokenizer -----

  /** Finished tokens, the one being read, and whether a quote is open. */
  datatype Lexer = Lexer(tokens: seq<string>, word: string, quoted: bool)

  const Blank := Lexer([], "", false)

  function Close(t: Lexer): seq<string> {
    if t.word == "" then t.tokens else t.tokens + [t.word]
  }

  function Scan(t: Lexer, ch: char): Lexer {
    if ch == QUOTE then t.(quoted := !t.quoted)
    else if ch == SPACE && !t.quoted then Lexer(Close(t), "", false)
    else t.(word := t.word + [ch])
  }

  function ScanAll(t: Lexer, s: string): Lexer {
    if s == "" then t else Scan(ScanAll(t, s[..|s| - 1]), s[|s| - 1])
  }

  function Tokenize(s: string): seq<string> {
    Close(ScanAll(Blank, s))
  }

  lemma {:induction false} ScanConcat(t: Lexer, a: string, b: string)
    ensures ScanAll(t, a + b) == ScanAll(ScanAll(t, a), b)
  {
    if b == "" {
      assert a + b == a;
    } else {
      assert (a + b)[..|a + b| - 1] == a + b[..|b| - 1];
      ScanConcat(t, a, b[..|b| - 1]);
    }
  }

  /** Characters that are no separators where they stand are collected. */
  lemma {:induction false} ScanWord(t: Lexer, s: string)
    requires QUOTE !in s && (t.quoted || SPACE !in s)
    ensures ScanAll(t, s) == t.(word := t.word + s)
  {
    if s == "" {
      assert t.word + s == t.word;
    } else {
      var init, last := s[..|s| - 1], s[|s| - 1];
      assert s == init + [last];
      ScanWord(t, init);
      assert t.word + s == (t.word + init) + [last];
    }
  }

  /** A printed argument reads back as itself. */
  lemma ScanPrinted(tokens: seq<string>, arg: string)
    requires QUOTE !in arg
    ensures ScanAll(Lexer(tokens, "", false), Printed(arg)) == Lexer(tokens, arg, false)
  {
    var t := Lexer(tokens, "", false);
    assert "" + arg == arg;
    if SPACE in arg {
      var open := t.(quoted := true);
      ScanConcat(t, [QUOTE] + arg, [QUOTE]);
      ScanConcat(t, [QUOTE], arg);
      assert [QUOTE][..0] == "";
      assert ScanAll(t, [QUOTE]) == open;
      ScanWord(open, arg);
    } else {
      ScanWord(t, arg);
    }
  }

  function NonEmpty(command: seq<string>): seq<string> {
    if command == [] then []
    else
      var rest := NonEmpty(command[..|command| - 1]);
      if command[|command| - 1] == "" then rest else rest + [command[|command| - 1]]
  }

  /** Reading a printed line gives the arguments, less the empty ones. */
  lemma {:induction false} TokensOfLine(command: seq<string>)
    requires NoQuotes(command)
    ensures !ScanAll(Blank, Line(command)).quoted && Tokenize(Line(command)) == NonEmpty(command)
  {
    if command != [] {
      var init, arg := command[..|command| - 1], command[|command| - 1];
      TokensOfLine(init);
      var t := ScanAll(Blank, Line(init));
      if init == [] {
        assert Line(command) == "" + "" + Printed(arg) == Printed(arg);
        ScanPrinted([], arg);
      } else {
        ScanConcat(Blank, Line(init) + [SPACE], Printed(arg));
        ScanConcat(Blank, Line(init), [SPACE]);
        assert [SPACE][..0] == "";
        assert ScanAll(t, [SPACE]) == Scan(t, SPACE);
        ScanPrinted(Close(t), arg);
      }
    }
  }

  lemma {:induction false} NonEmptyIsAll(command: seq<string>)
    ensures |NonEmpty(command)| <= |command|
    ensures NonEmpty(command) == command <==> NoneEmpty(command)
  {
    if command != [] {
      var init, last := command[..|command| - 1], command[|command| - 1];
      NonEmptyIsAll(init);
      assert command == init + [last];
      if last != "" && NonEmpty(command) == command {
        assert NonEmpty(init) == (NonEmpty(init) + [last])[..|command| - 1] == init;
      }
    }
  }

  /** The line is read back as the same argument list exactly when no argument is
      empty: an empty argument is printed as nothing and lost. */
  lemma ReadsBackExactly(command: seq<string>)
    requires NoQuotes(command)
    ensures Tokenize(Line(command)) == command <==> NoneEmpty(command)
  {
    TokensOfLine(command);
    NonEmptyIsAll(command);
  }

  /** The characters themselves. */
  lemma PrintedChars(arg: string)
    ensures Printed(arg) == if ' ' in arg then "\"" + arg + "\"" else arg
  {
  }

  /** A line as it is printed, and how it is read. */
  lemma ExampleLine()
    ensures Line(["a b", "c"]) == "\"a b\" c"
    ensures Tokenize("\"a b\" c") == ["a b", "c"]
  {
    hide Line, Tokenize, Printed;
    var c := ["a b", "c"];
    assert "a b"[1] == ' ';
    PrintedChars("a b");
    PrintedChars("c");
    LineStart(c);
    LineStep(c, 0);
    LineStep(c, 1);
    assert c[..1] == ["a b"] && c[..2] == c;
    ReadsBackExactly(c);
  }

  /** A command that loses an argument. */
  lemma EmptyArgumentLost()
    ensures Tokenize(Line(["a", "", "b"])) == ["a", "b"]
  {
    hide Tokenize, Line;
    TokensOfLine(["a", "", "b"]);
    assert ["a", "", "b"][..2] == ["a", ""] && ["a", ""][..1] == ["a"] && ["a"][..0] == [];
    assert NonEmpty(["a"]) == ["a"];
    assert NonEmpty(["a", ""]) == ["a"];
  }
}
