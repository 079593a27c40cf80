/** What holds between the frames the client received, what it has written
    locally and what it reports, in every reachable state. */
module ShowInv {
  import opened Wire
  import opened Link
  import opened Session

  predicate NoExit(fs: seq<Frame>) {
    forall i :: 0 <= i < |fs| ==> fs[i].ty != Exit
  }

  predicate Started(main: ClientMain, show: Display, done: seq<Outcome>, got: seq<Frame>) {
    && (main.AwaitStart? ==> got == [])
    && (!main.AwaitStart? ==> got != [] && got[0].ty == Start)
    && (main.SendReply? || main.SendSize? ==> |got| == 1)
    && (!main.Serving? ==> show == Display(ShowOff, [], [], []) && done == [])
    && (main.Serving? ==> !show.mode.ShowOff?)
  }

  /** All output received is written locally. */
  predicate Shown(show: Display, got: seq<Frame>) {
    show.out == StreamOf(Stdout, got) && show.err == StreamOf(Stderr, got)
  }

  predicate Local(show: Display, got: seq<Frame>) {
    match show.mode
    case ShowOff => true
    case ShowReading => Shown(show, got) && NoExit(got)
    case ShowWriting(toErr) =>
      && NoExit(got)
      && (if toErr then Shown(show.(err := show.err + show.todo), got)
          else Shown(show.(out := show.out + show.todo), got))
    case ShowEnded => show.out <= StreamOf(Stdout, got) && show.err <= StreamOf(Stderr, got)
  }

  /** A code is reported only for an exit frame that came after output which is
      all written. */
  predicate Reported(show: Display, done: seq<Outcome>, got: seq<Frame>) {
    forall i :: 0 <= i < |done| && done[i].Code? ==>
      && show.mode.ShowEnded? && Shown(show, got)
      && got != [] && AsExit(got[|got| - 1]) == Some(done[i].code)
  }

  predicate ShowAll(cli: Client, show: Display, got: seq<Frame>) {
    && Started(cli.main, show, cli.done, got)
    && Local(show, got)
    && Reported(show, cli.done, got)
    && (cli.result.Some? ==> cli.done != [] && cli.result.value == cli.done[0])
  }

  predicate ShowOk(s: State) {
    ShowAll(s.cli, s.show, s.s2c.delivered)
  }

  lemma ShowInit(c: Config)
    ensures ShowOk(Init(c))
  {
  }

  /** Receiving one more frame. */
  lemma GotOne(t: FrameType, got: seq<Frame>, f: Frame)
    ensures StreamOf(t, got + [f]) == StreamOf(t, got) + (if f.ty == t then f.payload else [])
    ensures f.ty != t ==> StreamOf(t, got + [f]) == StreamOf(t, got)
  {
    StreamSnoc(t, got, f);
    assert StreamOf(t, got) + [] == StreamOf(t, got);
  }

  /** What the output loop becomes by a frame. */
  lemma ShowEffect(c: Config, s: State)
    requires ClientCan(c, s, ClientStep.Show)
    ensures var f, t := FrameOf(s.s2c.buf), ClientDo(c, s, ClientStep.Show);
      && t.s2c.delivered == s.s2c.delivered + [f]
      && t.cli.main == s.cli.main && t.cli.result == s.cli.result
      && (if f.ty == Stdout || f.ty == Stderr
          then t.cli == s.cli && t.show == s.show.(mode := ShowWriting(f.ty == Stderr), todo := f.payload)
          else t.show == s.show.(mode := ShowEnded) && |t.cli.done| == |s.cli.done| + 1
               && s.cli.done <= t.cli.done
               && t.cli.done[|s.cli.done|] == (if AsExit(f).Some? then Code(AsExit(f).value) else NoCode)
               && (t.cli.done[|s.cli.done|].Code? ==>
                     f.ty == Exit && AsExit(f) == Some(t.cli.done[|s.cli.done|].code)))
  {
    Effect(s.s2c, c.toClient, Deliver);
    ExitOnly(FrameOf(s.s2c.buf));
    hide FrameOf, Do, AsExit;
  }

  lemma ExitOnly(f: Frame)
    ensures AsExit(f).Some? ==> f.ty == Exit
  {
  }

  lemma ShowKeeps(c: Config, s: State)
    requires ShowOk(s) && ClientCan(c, s, ClientStep.Show)
    ensures ShowOk(ClientDo(c, s, ClientStep.Show))
  {
    hide StreamOf, FrameOf, ClientDo, AsExit;
    ShowEffect(c, s);
    var f, got := FrameOf(s.s2c.buf), s.s2c.delivered;
    GotOne(Stdout, got, f);
    GotOne(Stderr, got, f);
    assert (got + [f])[|got|] == f;
    assert forall i :: 0 <= i < |s.cli.done| ==> !s.cli.done[i].Code?;
    var t := ClientDo(c, s, ClientStep.Show);
    if f.ty == Stdout || f.ty == Stderr {
      assert NoExit(got + [f]);
    } else {
      assert Reported(t.show, t.cli.done, got + [f]) by {
        assert Shown(t.show, got + [f]);
        hide Local, Started;
      }
    }
  }

  lemma WriteKeeps(c: Config, s: State, step: ClientStep)
    requires ShowOk(s) && ClientCan(c, s, step)
    requires step.ShowByte? || step.ShowDone?
    ensures ShowOk(ClientDo(c, s, step))
  {
    hide StreamOf, NoExit;
    var b := s.show;
    if step.ShowByte? {
      assert b.out + b.todo == (b.out + [b.todo[0]]) + b.todo[1..];
      assert b.err + b.todo == (b.err + [b.todo[0]]) + b.todo[1..];
    } else {
      assert b.out + b.todo == b.out && b.err + b.todo == b.err;
    }
  }

  lemma EndShowKeeps(c: Config, s: State, step: ClientStep)
    requires ShowOk(s) && ClientCan(c, s, step)
    requires step.ShowFail? || step.ShowLost? || step.Return?
    ensures ShowOk(ClientDo(c, s, step))
  {
    hide StreamOf, NoExit;
  }

  lemma OpeningKeeps(c: Config, s: State, step: ClientStep)
    requires ShowOk(s) && ClientCan(c, s, step)
    requires step.GotStart? || step.ReplySent? || step.SizeSent?
    requires step.GotStart? ==> FrameOf(s.s2c.buf).ty == Start
    ensures ShowOk(ClientDo(c, s, step))
  {
    hide FrameOf;
    if step.GotStart? {
      Effect(s.s2c, c.toClient, Deliver);
    } else if step.SizeSent? {
      StreamAbsent(Stdout, s.s2c.delivered);
      StreamAbsent(Stderr, s.s2c.delivered);
    }
    hide Do, StreamOf;
  }

  lemma QuietClientKeeps(c: Config, s: State, step: ClientStep)
    requires ShowOk(s) && ClientCan(c, s, step) && (step.CWrite? || step.CTake?)
    ensures ShowOk(ClientDo(c, s, step))
  {
    if step.CTake? {
      Effect(s.s2c, c.toClient, Take);
    }
    hide Do, ShowAll;
  }

  lemma ClientKeeps(c: Config, s: State, step: ClientStep)
    requires ShowOk(s) && ClientCan(c, s, step)
    requires step.GotStart? ==> FrameOf(s.s2c.buf).ty == Start
    requires !step.CLost?
    ensures ShowOk(ClientDo(c, s, step))
  {
    hide ShowOk, ClientDo, ClientCan;
    match step {
      case Show => ShowKeeps(c, s);
      case CWrite(_) => QuietClientKeeps(c, s, step);
      case CTake => QuietClientKeeps(c, s, step);
      case ShowByte => WriteKeeps(c, s, step);
      case ShowDone => WriteKeeps(c, s, step);
      case GotStart => OpeningKeeps(c, s, step);
      case ReplySent => OpeningKeeps(c, s, step);
      case SizeSent => OpeningKeeps(c, s, step);
      case _ => EndShowKeeps(c, s, step);
    }
  }

  /** The other loops never report a code. `served`: they run only once the
      session is open. */
  lemma InputKeeps(c: Config, s: State, step: InputStep)
    requires ShowOk(s) && InputCan(c, s, step)
    requires !s.cli.main.Serving? ==> s.keys.mode.KeysOff? && s.winch.WinchOff?
    ensures ShowOk(InputDo(c, s, step))
  {
    hide StreamOf, NoExit, Do, Filtered, Local;
  }

  lemma ServerKeeps(c: Config, s: State, step: ServerStep)
    requires ShowOk(s) && ServerCan(c, s, step)
    ensures ShowOk(ServerDo(c, s, step))
  {
    var t := ServerDo(c, s, step);
    assert t.s2c.delivered == s.s2c.delivered && t.cli == s.cli && t.show == s.show by {
      hide FrameOf, AsResize, AsStartReply, ExitCode, ShowAll;
    }
    hide ServerDo, ShowAll;
  }

  lemma OthersKeep(c: Config, s: State, step: Step)
    requires ShowOk(s) && Enabled(c, s, step) && (step.OfFeeder? || step.OfCommand?)
    ensures ShowOk(After(c, s, step))
  {
    hide ShowAll, Do, FeedNext;
  }

  lemma KeepsShow(c: Config, s: State, step: Step)
    requires ShowOk(s) && Enabled(c, s, step)
    requires step == OfClient(GotStart) ==> FrameOf(s.s2c.buf).ty == Start
    requires step != OfClient(CLost)
    requires !s.cli.main.Serving? ==> s.keys.mode.KeysOff? && s.winch.WinchOff?
    ensures ShowOk(After(c, s, step))
  {
    hide ShowOk;
    match step {
      case OfServer(x) => ServerKeeps(c, s, x);
      case OfClient(x) => ClientKeeps(c, s, x);
      case OfInput(x) => InputKeeps(c, s, x);
      case _ => OthersKeep(c, s, step);
    }
  }

  // ----- consequences used elsewhere -----

  lemma OpenFirst(s: State)
    requires ShowOk(s)
    ensures s.cli.main.AwaitStart? ==> s.s2c.delivered == []
    ensures !s.cli.main.AwaitStart? ==> s.s2c.delivered != []
    ensures s.cli.result.Some? ==> s.cli.main.Serving?
  {
    hide Local, Reported;
  }
}
