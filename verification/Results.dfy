/** Which of the reports of its threads the client returns: `shell` takes the
    first one from its `done` channel (src/bin/vmctl.rs), so a quit or a failure
    on the input side prevents a code exactly when no code was reported before. */
module Results {
  import opened Wire
  import opened Link
  import opened Escape
  import opened Session
  import opened ServerInv
  import opened ClientInv
  import opened ShowInv
  import opened FeedInv
  import opened SessionInv
  import opened Delivery

  /** Reports are only ever added. */
  lemma ReportsStay(c: Config, s: State, step: Step)
    requires Enabled(c, s, step)
    ensures s.cli.done <= After(c, s, step).cli.done
  {
    hide Do, Can, FrameOf, AsExit, AsResize, AsStartReply, Filtered, FeedNext, ExitCode, NeedMore, Complete;
  }

  /** Once a thread has reported, any result is the first report. */
  lemma {:induction false} FirstReportWins(c: Config, states: seq<State>, steps: seq<Step>, j: nat, k: nat)
    requires IsSession(c, states, steps) && j <= k < |states| && states[j].cli.done != []
    ensures states[k].cli.done != [] && states[k].cli.done[0] == states[j].cli.done[0]
    ensures states[k].cli.result.Some? ==> states[k].cli.result.value == states[j].cli.done[0]
  {
    hide LinkInv, Roles, ServerOk, ClientOk, ShowOk, FeedOk, Enabled, After;
    if j < k {
      FirstReportWins(c, states, steps, j, k - 1);
      assert Enabled(c, states[k - 1], steps[k - 1]) && states[k - 1 + 1] == After(c, states[k - 1], steps[k - 1]);
      ReportsStay(c, states[k - 1], steps[k - 1]);
    }
    if states[k].cli.result.Some? {
      Parts(c, states, steps, k);
      ResultReported(states[k]);
    }
  }

  // ----- the ends of the input and resize loops -----

  predicate Ends(s: State, t: State, why: KeyEnd) {
    s.keys.mode != KeysEnded(why) && t.keys.mode == KeysEnded(why)
  }

  /** The user's quit takes effect, stdin fails, or the resize loop ends. */
  predicate LoopEnds(s: State, t: State) {
    Ends(s, t, Quit) || Ends(s, t, StdinFailed) || (!s.winch.WinchEnded? && t.winch.WinchEnded?)
  }

  /** Such an end is reported, never with a code. */
  lemma LoopReports(c: Config, s: State, step: Step)
    requires Enabled(c, s, step) && LoopEnds(s, After(c, s, step))
    requires !s.cli.main.Serving? ==> s.keys.mode.KeysOff? && s.winch.WinchOff?
    ensures var t := After(c, s, step);
      && |t.cli.done| == |s.cli.done| + 1 && s.cli.done <= t.cli.done
      && (Ends(s, t, Quit) ==> t.cli.done[|s.cli.done|] == NoCode)
      && (Ends(s, t, StdinFailed) ==> t.cli.done[|s.cli.done|] == Failed)
      && (step == OfInput(ResizedEnd(true)) ==> t.cli.done[|s.cli.done|] == NoCode)
      && (step == OfInput(ResizedEnd(false)) ==> t.cli.done[|s.cli.done|] == Failed)
      && !t.cli.done[|s.cli.done|].Code?
  {
    hide Do, Can, FrameOf, AsExit, AsResize, AsStartReply, Filtered, FeedNext, ExitCode, NeedMore, Complete;
  }

  /** A quit happens only when Ctrl-] `q` was typed. */
  lemma QuitWasTyped(c: Config, s: State)
    requires ClientOk(c, s) && s.keys.mode == KeysEnded(Quit)
    ensures HasQuit(s.keys.typed)
  {
    hide ClientInv.Trace, Opening, LoopJobs, EofLogged, StreamOf, FilterFrom;
    QuitsExactly(s.keys.typed);
  }

  /** After a quit, a failure of stdin or the end of the resize loop at step `j`,
      the client returns a code if and only if one was the first report before;
      without any report before, it exits with status 0 after a quit, 1 after a
      failure of stdin, and 0 or 1 as the resize loop ended. */
  lemma CodeAfterLoopEnd(c: Config, states: seq<State>, steps: seq<Step>, j: nat, k: nat)
    requires IsSession(c, states, steps) && j < k < |states| && LoopEnds(states[j], states[j + 1])
    requires states[k].cli.result.Some?
    ensures states[k].cli.result.value.Code? <==> states[j].cli.done != [] && states[j].cli.done[0].Code?
    ensures states[j].cli.done == [] && Ends(states[j], states[j + 1], Quit) ==>
      states[k].cli.result.value == NoCode && ShellStatus(states[k].cli.result.value) == 0
    ensures states[j].cli.done == [] && Ends(states[j], states[j + 1], StdinFailed) ==>
      states[k].cli.result.value == Failed && ShellStatus(states[k].cli.result.value) == 1
    ensures states[j].cli.done == [] && steps[j] == OfInput(ResizedEnd(true)) ==>
      ShellStatus(states[k].cli.result.value) == 0
    ensures states[j].cli.done == [] && steps[j] == OfInput(ResizedEnd(false)) ==>
      ShellStatus(states[k].cli.result.value) == 1
    ensures Ends(states[j], states[j + 1], Quit) ==> HasQuit(states[j + 1].keys.typed)
  {
    hide LinkInv, Roles, ServerOk, ClientOk, ShowOk, FeedOk, Enabled, After, Ends, HasQuit;
    Parts(c, states, steps, j);
    OpeningFirst(c, states[j]);
    assert Enabled(c, states[j], steps[j]) && states[j + 1] == After(c, states[j], steps[j]);
    LoopReports(c, states[j], steps[j]);
    FirstReportWins(c, states, steps, j + 1, k);
    if Ends(states[j], states[j + 1], Quit) {
      Parts(c, states, steps, j + 1);
      assert states[j + 1].keys.mode == KeysEnded(Quit) by {
        EndsMeans(states[j], states[j + 1]);
      }
      QuitWasTyped(c, states[j + 1]);
    }
  }

  lemma EndsMeans(s: State, t: State)
    ensures Ends(s, t, Quit) ==> t.keys.mode == KeysEnded(Quit)
  {
  }

  /** A failed local write or the end of the channel reports no code. */
  lemma LossReports(c: Config, s: State, step: Step)
    requires Enabled(c, s, step) && (step == OfClient(ShowFail) || step == OfClient(ShowLost))
    ensures After(c, s, step).cli.done == s.cli.done + [NoCode]
  {
  }

  /** With no report before, the client then exits with status 0. */
  lemma StatusAfterLoss(c: Config, states: seq<State>, steps: seq<Step>, j: nat, k: nat)
    requires IsSession(c, states, steps) && j < k < |states| && states[j].cli.done == []
    requires steps[j] == OfClient(ShowFail) || steps[j] == OfClient(ShowLost)
    requires states[k].cli.result.Some?
    ensures states[k].cli.result.value == NoCode && ShellStatus(states[k].cli.result.value) == 0
  {
    hide Enabled, After;
    assert Enabled(c, states[j], steps[j]) && states[j + 1] == After(c, states[j], steps[j]);
    LossReports(c, states[j], steps[j]);
    FirstReportWins(c, states, steps, j + 1, k);
  }
}
