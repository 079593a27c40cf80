/** The invariant of the whole session: every step of every thread keeps it, so
    it holds in every state of every run. */
module SessionInv {
  import opened Wire
  import opened Link
  import opened Session
  import opened ServerInv
  import opened ClientInv
  import opened ShowInv
  import opened FeedInv

  /** Each thread writes to its own side's channel. */
  predicate Roles(s: State) {
    && JobOf(s.s2c, InLoop) == Off && JobOf(s.s2c, Resizer) == Off
    && JobOf(s.c2s, ErrPump) == Off
  }

  predicate Links(c: Config, s: State) {
    && LinkInv(s.s2c, c.toClient)
    && LinkInv(s.c2s, c.toServer)
    && Roles(s)
  }

  predicate Inv(c: Config, s: State) {
    && Links(c, s)
    && ServerOk(s)
    && ClientOk(c, s)
    && ShowOk(s)
    && FeedOk(c, s)
  }

  lemma InvInit(c: Config)
    ensures Inv(c, Init(c))
  {
    EmptyInv(c.toClient);
    EmptyInv(c.toServer);
    StepKeeps(Empty, c.toClient, Submit(Main, StartFrame));
    Effect(Empty, c.toClient, Submit(Main, StartFrame));
    ServerInit(c);
    ClientInit(c);
    ShowInit(c);
    FeedInit(c);
    hide LinkInv, ServerOk, ClientOk, ShowOk, FeedOk, Do;
  }

  // ----- the channels -----

  lemma DoKeeps(l: Link, cap: nat, op: Op)
    requires LinkInv(l, cap) && Can(l, cap, op)
    ensures LinkInv(Do(l, cap, op), cap)
    ensures forall w :: JobOf(Do(l, cap, op), w) == JobAfter(l, op, w)
  {
    StepKeeps(l, cap, op);
    Effect(l, cap, op);
  }

  lemma ServerKeepsLinks(c: Config, s: State, step: ServerStep)
    requires Links(c, s) && ServerCan(c, s, step)
    ensures Links(c, ServerDo(c, s, step))
  {
    hide LinkInv, ReadBytes, FrameOf, AsResize, AsStartReply, ExitCode, ExitFrame;
    match step {
      case SWrite(op) => DoKeeps(s.s2c, c.toClient, op);
      case StartSent => DoKeeps(s.s2c, c.toClient, Release(Main));
      case OutSent => DoKeeps(s.s2c, c.toClient, Release(Main));
      case ExitSent => DoKeeps(s.s2c, c.toClient, Release(Main));
      case ErrSent => DoKeeps(s.s2c, c.toClient, Release(ErrPump));
      case STake => DoKeeps(s.c2s, c.toServer, Take);
      case GotReply => DoKeeps(s.c2s, c.toServer, Deliver);
      case GotSize(_) => DoKeeps(s.c2s, c.toServer, Deliver);
      case OutRead(n) => DoKeeps(s.s2c, c.toClient, Submit(Main, Frame(Stdout, ReadBytes(s.cmd.out, n))));
      case ErrRead(n) => DoKeeps(s.s2c, c.toClient, Submit(ErrPump, Frame(Stderr, ReadBytes(s.cmd.err, n))));
      case Reap => DoKeeps(s.s2c, c.toClient, Submit(Main, ExitFrame(ExitCode(s.cmd.status.value))));
      case _ =>
    }
    hide Do, Can;
  }

  lemma ClientKeepsLinks(c: Config, s: State, step: ClientStep)
    requires Links(c, s) && ClientCan(c, s, step)
    ensures Links(c, ClientDo(c, s, step))
  {
    hide LinkInv, FrameOf, AsExit, ResizeFrame, StartReplyFrame;
    match step {
      case CWrite(op) => DoKeeps(s.c2s, c.toServer, op);
      case CTake => DoKeeps(s.s2c, c.toClient, Take);
      case Show => DoKeeps(s.s2c, c.toClient, Deliver);
      case GotStart =>
        DoKeeps(s.s2c, c.toClient, Deliver);
        DoKeeps(s.c2s, c.toServer, Submit(Main, StartReplyFrame(c.tty)));
      case ReplySent =>
        DoKeeps(s.c2s, c.toServer, Release(Main));
        DoKeeps(Do(s.c2s, c.toServer, Release(Main)), c.toServer, Submit(Main, ResizeFrame(c.cols, c.rows)));
      case SizeSent => DoKeeps(s.c2s, c.toServer, Release(Main));
      case _ =>
    }
    hide Do, Can;
  }

  lemma InputKeepsLinks(c: Config, s: State, step: InputStep)
    requires Links(c, s) && InputCan(c, s, step)
    ensures Links(c, InputDo(c, s, step))
  {
    hide LinkInv, Filtered, ResizeFrame;
    match step {
      case Type(chunk) =>
        var r := Filtered(s.keys, chunk);
        if r.out != [] {
          DoKeeps(s.c2s, c.toServer, Submit(InLoop, Frame(Stdin, r.out)));
        }
      case TypeSent => DoKeeps(s.c2s, c.toServer, Release(InLoop));
      case TypeRefused => DoKeeps(s.c2s, c.toServer, Refuse(InLoop));
      case TypeEof => DoKeeps(s.c2s, c.toServer, Submit(InLoop, EofFrame));
      case TypeEofSent => DoKeeps(s.c2s, c.toServer, Release(InLoop));
      case Resized(cols, rows) => DoKeeps(s.c2s, c.toServer, Submit(Resizer, ResizeFrame(cols, rows)));
      case ResizedSent => DoKeeps(s.c2s, c.toServer, Release(Resizer));
      case _ =>
    }
    hide Do, Can;
  }

  lemma OthersKeepLinks(c: Config, s: State, step: Step)
    requires Links(c, s) && Enabled(c, s, step) && (step.OfFeeder? || step.OfCommand?)
    ensures Links(c, After(c, s, step))
  {
    hide LinkInv, FrameOf, FeedNext;
    if step == OfFeeder(FeedTake) {
      DoKeeps(s.c2s, c.toServer, Take);
    } else if step == OfFeeder(FeedGot) {
      DoKeeps(s.c2s, c.toServer, Deliver);
    }
    hide Do;
  }

  lemma KeepsLinks(c: Config, s: State, step: Step)
    requires Links(c, s) && Enabled(c, s, step)
    ensures Links(c, After(c, s, step))
  {
    hide Links;
    match step {
      case OfServer(x) => ServerKeepsLinks(c, s, x);
      case OfClient(x) => ClientKeepsLinks(c, s, x);
      case OfInput(x) => InputKeepsLinks(c, s, x);
      case _ => OthersKeepLinks(c, s, step);
    }
  }

  // ----- the two sides meet in the handshake -----

  /** No thread holds a channel's mutex when it has no job. */
  lemma OwnerHasJob(l: Link, cap: nat)
    requires LinkInv(l, cap) && l.owner.Some?
    ensures JobOf(l, l.owner.value) != Off
    ensures JobOf(l, l.owner.value).Begun? <==> Writing(PcOf(l, l.owner.value))
    ensures Writing(PcOf(l, l.owner.value)) ==> l.log != [] && l.log[|l.log| - 1].who == l.owner.value
  {
    hide Bytes, Reader, InSync, Order;
    assert Critical(PcOf(l, l.owner.value));
    assert PcOk(l.log, l.owner.value, PcOf(l, l.owner.value));
  }

  /** The client's first frame is the start frame. */
  lemma FirstIsStart(c: Config, s: State)
    requires LinkInv(s.s2c, c.toClient) && ServerOk(s) && ShowOk(s)
    requires s.cli.main.AwaitStart? && Complete(s.s2c.buf)
    ensures FrameOf(s.s2c.buf).ty == Start
  {
    hide LinkInv, ServerOk, ShowOk, FrameOf, Complete;
    DeliverNext(s.s2c, c.toClient);
    StartFirst(s);
    OpenFirst(s);
  }

  /** The server's first two frames are the reply and the size. */
  lemma FirstIsReply(c: Config, s: State)
    requires LinkInv(s.c2s, c.toServer) && ClientOk(c, s) && FeedOk(c, s)
    requires s.srv.main.AwaitReply? && Complete(s.c2s.buf)
    ensures FrameOf(s.c2s.buf) == ReplyOf(c)
  {
    hide LinkInv, ClientOk, FeedOk, FrameOf, Complete, ReplyOf, SizeOf;
    DeliverNext(s.c2s, c.toServer);
    OpeningFirst(c, s);
    ShakenFirst(c, s);
  }

  lemma SecondIsSize(c: Config, s: State)
    requires LinkInv(s.c2s, c.toServer) && ClientOk(c, s) && FeedOk(c, s)
    requires s.srv.main.AwaitSize? && Complete(s.c2s.buf)
    ensures FrameOf(s.c2s.buf) == SizeOf(c)
  {
    hide LinkInv, ClientOk, FeedOk, FrameOf, Complete, ReplyOf, SizeOf;
    DeliverNext(s.c2s, c.toServer);
    OpeningFirst(c, s);
    ShakenFirst(c, s);
  }

  /** The client never finds the channel closed before the start frame. */
  lemma NoCLost(c: Config, s: State)
    requires LinkInv(s.s2c, c.toClient) && Roles(s) && ServerOk(s) && ShowOk(s)
    ensures !ClientCan(c, s, CLost)
  {
    hide LinkInv, ServerOk, ShowOk, NeedMore, JobOf;
    if ClientCan(c, s, CLost) {
      StartFirst(s);
      OpenFirst(s);
      if s.s2c.owner.Some? {
        OwnerHasJob(s.s2c, c.toClient);
      }
      Drained(s.s2c, c.toClient);
    }
  }

  /** The server never finds the channel closed in the handshake. */
  lemma NoSLost(c: Config, s: State)
    requires LinkInv(s.c2s, c.toServer) && ClientOk(c, s) && ShowOk(s) && FeedOk(c, s)
    ensures !ServerCan(c, s, SLost)
  {
    hide LinkInv, ClientOk, ShowOk, FeedOk, NeedMore, JobOf, PcOf, ReplyOf, SizeOf;
    if ServerCan(c, s, SLost) {
      OpeningFirst(c, s);
      OpenFirst(s);
      ShakenFirst(c, s);
      Drained(s.c2s, c.toServer);
      if s.c2s.owner.Some? {
        OwnerHasJob(s.c2s, c.toServer);
      }
    }
  }

  // ----- every step, every run -----

  /** What the handshake steps receive. */
  lemma Openings(c: Config, s: State, step: Step)
    requires LinkInv(s.s2c, c.toClient) && LinkInv(s.c2s, c.toServer)
    requires ServerOk(s) && ClientOk(c, s) && ShowOk(s) && FeedOk(c, s) && Enabled(c, s, step)
    ensures step == OfClient(GotStart) ==> Complete(s.s2c.buf) && FrameOf(s.s2c.buf).ty == Start
    ensures step == OfServer(GotReply) ==> Complete(s.c2s.buf) && FrameOf(s.c2s.buf) == ReplyOf(c)
    ensures step.OfServer? && step.srv.GotSize? ==> Complete(s.c2s.buf) && FrameOf(s.c2s.buf) == SizeOf(c)
  {
    hide LinkInv, ServerOk, ClientOk, ShowOk, FeedOk, FrameOf, ReplyOf, SizeOf, Complete;
    if step == OfClient(GotStart) {
      FirstIsStart(c, s);
    } else if step == OfServer(GotReply) {
      FirstIsReply(c, s);
    } else if step.OfServer? && step.srv.GotSize? {
      SecondIsSize(c, s);
    }
  }

  lemma InvStep(c: Config, s: State, step: Step)
    requires Inv(c, s) && Enabled(c, s, step)
    ensures Inv(c, After(c, s, step))
  {
    hide LinkInv, Roles, ServerOk, ClientOk, ShowOk, FeedOk, ServerCan, ClientCan, InputCan, CommandCan, FeedCan,
         After, FrameOf;
    NoCLost(c, s);
    NoSLost(c, s);
    OpeningFirst(c, s);
    Openings(c, s, step);
    KeepsLinks(c, s, step);
    KeepsServer(c, s, step);
    KeepsClient(c, s, step);
    KeepsShow(c, s, step);
    KeepsFeed(c, s, step);
  }

  /** One more step in front. */
  lemma PathCons(c: Config, s: State, step: Step, states: seq<State>, steps: seq<Step>)
    requires Enabled(c, s, step) && IsPath(c, After(c, s, step), states, steps)
    ensures IsPath(c, s, [s] + states, [step] + steps)
  {
    hide Enabled, After;
    var ss, st := [s] + states, [step] + steps;
    forall i | 0 <= i < |st| ensures Enabled(c, ss[i], st[i]) && ss[i + 1] == After(c, ss[i], st[i]) {
      if i > 0 {
        assert st[i] == steps[i - 1] && ss[i] == states[i - 1] && ss[i + 1] == states[i - 1 + 1];
      }
    }
  }

  lemma {:induction false} InvPath(c: Config, from: State, states: seq<State>, steps: seq<Step>, k: nat)
    requires Inv(c, from) && IsPath(c, from, states, steps) && k < |states|
    ensures Inv(c, states[k])
  {
    hide Inv, Enabled, After;
    if k > 0 {
      InvPath(c, from, states, steps, k - 1);
      assert Enabled(c, states[k - 1], steps[k - 1]) && states[k - 1 + 1] == After(c, states[k - 1], steps[k - 1]);
      InvStep(c, states[k - 1], steps[k - 1]);
    }
  }

  /** The invariant holds in every state of every session. */
  lemma InvSession(c: Config, states: seq<State>, steps: seq<Step>, k: nat)
    requires IsSession(c, states, steps) && k < |states|
    ensures Inv(c, states[k])
  {
    InvInit(c);
    InvPath(c, Init(c), states, steps, k);
  }

  /** The same, part by part. */
  lemma Parts(c: Config, states: seq<State>, steps: seq<Step>, k: nat)
    requires IsSession(c, states, steps) && k < |states|
    ensures Sane(c)
    ensures LinkInv(states[k].s2c, c.toClient) && LinkInv(states[k].c2s, c.toServer) && Roles(states[k])
    ensures ServerOk(states[k]) && ClientOk(c, states[k]) && ShowOk(states[k]) && FeedOk(c, states[k])
  {
    InvSession(c, states, steps, k);
    hide LinkInv, Roles, ServerOk, ClientOk, ShowOk, FeedOk, IsPath;
  }
}
