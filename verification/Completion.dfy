/** Whole sessions from their start: every configuration has one that returns the
    code, and one in which a quit comes too late to prevent it. */
module Completion {
  import opened Wire
  import opened Link
  import opened Escape
  import opened Feed
  import opened Session
  import opened ServerInv
  import opened ClientInv
  import opened ShowInv
  import opened FeedInv
  import opened SessionInv
  import opened Delivery
  import opened Results
  import opened HandshakeProgress
  import opened Progress

  // ----- paths -----

  lemma PathSnoc(c: Config, from: State, states: seq<State>, steps: seq<Step>, step: Step)
    requires IsPath(c, from, states, steps) && Enabled(c, states[|states| - 1], step)
    ensures IsPath(c, from, states + [After(c, states[|states| - 1], step)], steps + [step])
  {
    hide Enabled, After;
  }

  /** One path after another. */
  lemma PathConcat(c: Config, from: State, ss: seq<State>, ps: seq<Step>, ts: seq<State>, qs: seq<Step>)
    requires IsPath(c, from, ss, ps) && IsPath(c, ss[|ss| - 1], ts, qs)
    ensures IsPath(c, from, ss + ts[1..], ps + qs) && |ss + ts[1..]| == |ps + qs| + 1
    ensures (ss + ts[1..])[|ps + qs|] == ts[|ts| - 1]
  {
    hide Enabled, After;
    var states, steps := ss + ts[1..], ps + qs;
    forall i | 0 <= i < |steps|
      ensures Enabled(c, states[i], steps[i]) && states[i + 1] == After(c, states[i], steps[i])
    {
      var j := i - |ps|;
      if j >= 0 {
        assert states[i] == ts[j] && states[i + 1] == ts[j + 1] && steps[i] == qs[j];
      } else {
        assert states[i] == ss[i] && states[i + 1] == ss[i + 1] && steps[i] == ps[i];
      }
    }
  }

  // ----- a session up to the report -----

  /** The handshake, after which nothing has happened yet. */
  lemma Opened(c: Config) returns (states: seq<State>, steps: seq<Step>)
    requires Sane(c)
    ensures IsPath(c, Init(c), states, steps) && |states| == |steps| + 1
    ensures var t := states[|states| - 1]; Inv(c, t) && HandshakeDone(t) && Untouched(t)
  {
    hide Inv, IsPath, AllHandshake, HandshakeLeft, HandshakeDone;
    InvInit(c);
    states, steps := HandshakeCompletes(c, Init(c));
  }

  /** The command closes its outputs and ends with the given status. */
  lemma CommandEnds(c: Config, s: State, status: int) returns (states: seq<State>, steps: seq<Step>)
    requires Inv(c, s) && HandshakeDone(s) && Untouched(s)
    ensures IsPath(c, s, states, steps) && |states| == |steps| + 1 == 4
    ensures Inv(c, states[3]) && Live(states[3]) && Progress.Ending(states[3])
    ensures states[3].cmd.status == Some(status) && states[3].keys == s.keys
  {
    hide LinkInv, Roles, ServerOk, ClientOk, ShowOk, FeedOk;
    Wirings(s);
    var a, b, d := OfCommand(CloseOut), OfCommand(CloseErr), OfCommand(Die(status));
    var s1 := After(c, s, a);
    InvStep(c, s, a);
    var s2 := After(c, s1, b);
    InvStep(c, s1, b);
    var s3 := After(c, s2, d);
    InvStep(c, s2, d);
    states, steps := [s, s1, s2, s3], [a, b, d];
  }

  lemma Wirings(s: State)
    requires ServerOk(s) && s.srv.main.Pumping?
    ensures s.srv.wiring != Unwired
  {
    hide Streams, ServerInv.Trace, Phase;
  }

  /** A session whose output loop has just reported the code, while the input loop
      waits for the user. */
  lemma ReportedSession(c: Config, status: int) returns (states: seq<State>, steps: seq<Step>)
    requires Sane(c)
    ensures IsSession(c, states, steps) && |states| == |steps| + 1
    ensures var t := states[|states| - 1];
      && CodeReported(t, ExitCode(status)) && t.cli.main.Serving? && t.cli.result.None?
      && t.keys == Keyboard(KeysReading, false, []) && PcOf(t.c2s, InLoop).Idle?
  {
    hide IsPath, Inv, Live, Progress.Ending, Todo, AllOutput, CodeReported, ExitCode;
    var ss, ps := Opened(c);
    var h := ss[|ss| - 1];
    var ts, qs := CommandEnds(c, h, status);
    PathConcat(c, Init(c), ss, ps, ts, qs);
    states, steps := ss + ts[1..], ps + qs;
    assert states[|states| - 1] == ts[3];
    var us, rs := Drains(c, ts[3]);
    PathConcat(c, Init(c), states, steps, us, rs);
    states, steps := states + us[1..], steps + rs;
    var t := us[|us| - 1];
    ReadingIsIdle(c, t);
  }

  lemma ReadingIsIdle(c: Config, s: State)
    requires Inv(c, s) && s.keys.mode.KeysReading?
    ensures PcOf(s.c2s, InLoop).Idle?
  {
    hide LinkInv, Roles, ServerOk, ShowOk, FeedOk, ClientInv.Trace, Opening, EofLogged, Input;
  }

  /** Every configuration has a session in which the client returns the code of
      the command. */
  lemma SomeSessionReturns(c: Config, status: int) returns (states: seq<State>, steps: seq<Step>)
    requires Sane(c)
    ensures IsSession(c, states, steps) && |states| == |steps| + 1
    ensures states[|states| - 1].cli.result == Some(Code(ExitCode(status)))
  {
    hide IsPath, FullyDelivered, ExitCode;
    states, steps := ReportedSession(c, status);
    var t := states[|states| - 1];
    PathSnoc(c, Init(c), states, steps, OfClient(Return));
    states, steps := states + [After(c, t, OfClient(Return))], steps + [OfClient(Return)];
  }

  /** The race that a quit loses: the code is reported, then the user types Ctrl-]
      `q` and the input loop ends by it, and the client still returns the code. */
  lemma QuitLosesRace(c: Config, status: int) returns (states: seq<State>, steps: seq<Step>)
    requires Sane(c)
    ensures IsSession(c, states, steps) && |states| - 1 == |steps| >= 2
    ensures Ends(states[|steps| - 2], states[|steps| - 1], Quit)
    ensures states[|steps| - 1].keys.typed == [ESCAPE, QUIT_KEY]
    ensures states[|steps|].cli.result == Some(Code(ExitCode(status)))
  {
    hide IsPath, FullyDelivered, ExitCode;
    states, steps := ReportedSession(c, status);
    var s, step := states[|states| - 1], OfInput(Type([ESCAPE, QUIT_KEY]));
    PathSnoc(c, Init(c), states, steps, step);
    QuitTyped();
    var t := After(c, s, step);
    states, steps := states + [t], steps + [step];
    PathSnoc(c, Init(c), states, steps, OfClient(Return));
    states, steps := states + [After(c, t, OfClient(Return))], steps + [OfClient(Return)];
  }

  lemma QuitTyped()
    ensures FilterFrom(Fresh, [ESCAPE, QUIT_KEY]) == Filter([], false, true)
  {
    assert [ESCAPE, QUIT_KEY][..1] == [ESCAPE] && [ESCAPE][..0] == [];
    assert FilterFrom(Fresh, [ESCAPE]) == Filter([], true, false);
  }
}
