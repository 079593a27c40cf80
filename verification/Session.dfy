/** A whole session: the server (src/bin/server.rs, `run` and its pumps), the
    client (src/bin/vmctl.rs, `shell` and its loops), the command, and the two
    directions of the serial channel between them. Every step is one action of
    one thread; bytes go over the channel, into the pipes and to the local
    output one at a time. */
module Session {
  import opened Wire
  import opened Link
  import opened Escape
  import opened Feed

  /** What is fixed for a session: whether the client's stdin is a terminal, the
      size it reports, and the capacities of the buffers. */
  datatype Config = Config(tty: bool, cols: U16, rows: U16, toClient: nat, toServer: nat, pipe: nat)

  predicate Sane(c: Config) {
    c.toClient > 0 && c.toServer > 0 && c.pipe > 0
  }

  // ----- state -----

  datatype ServerMain =
    | SendStart                // writing the start frame
    | AwaitReply
    | AwaitSize(tty: bool)
    | Pumping                  // the stdout pump, then joining the stderr pump
    | Reaping                  // wait_for(child)
    | SendExit                 // writing the exit frame
    | Finished(ok: bool)       // run() returned: the process ends, the channel closes
    | ServerPanic

  datatype Pump = Absent | Reading | Sending | Ended(ok: bool)

  datatype Server = Server(main: ServerMain, wiring: Wiring, out: Pump, err: Pump, reaped: Option<int>)

  datatype FeedEnd = EofSeen | Broken | Lost

  datatype Feeding = FeedOff | FeedReading | FeedWriting | FeedEnded(why: FeedEnd)

  /** The server's input pump: `fed` is all it has written, `todo` what is left
      of the write in progress. */
  datatype Feeder = Feeder(pump: Feeding, fed: seq<Byte>, todo: seq<Byte>, lineStart: bool, size: (U16, U16))

  /** A stream the command writes: all it ever wrote, how much was read, and
      whether every writer has closed it. */
  datatype Source = Source(bytes: seq<Byte>, read: nat, closed: bool)

  datatype Command = Command(out: Source, err: Source, status: Option<int>, stdinRead: nat, sawEof: bool)

  datatype ClientMain = AwaitStart | SendReply | SendSize | Serving | ClientPanic

  /** What a client thread reports when it ends. */
  datatype Outcome = Code(code: I32) | NoCode | Failed

  datatype Client = Client(main: ClientMain, done: seq<Outcome>, result: Option<Outcome>)

  datatype Showing = ShowOff | ShowReading | ShowWriting(toErr: bool) | ShowEnded

  /** The client's output loop and what it has written locally. */
  datatype Display = Display(mode: Showing, todo: seq<Byte>, out: seq<Byte>, err: seq<Byte>)

  datatype KeyEnd = AtEof | Quit | Refused | StdinFailed

  datatype Keys = KeysOff | KeysReading | KeysSending(quit: bool) | KeysEof | KeysEnded(why: KeyEnd)

  /** The client's input loop; `typed` is all it has read from stdin. */
  datatype Keyboard = Keyboard(mode: Keys, escaped: bool, typed: seq<Byte>)

  datatype Winch = WinchOff | WinchIdle | WinchSending | WinchEnded

  datatype State = State(
    srv: Server, feed: Feeder, cmd: Command,
    cli: Client, show: Display, keys: Keyboard, winch: Winch,
    s2c: Link, c2s: Link)

  /** `exit_code`: what a shell reports for a raw wait status. */
  function ExitCode(status: int): (code: I32)
    ensures 0 <= code <= 255
  {
    var low := status % 0x80;
    if low == 0 then status / 0x100 % 0x100
    else if low != 0x7f then 128 + low
    else 1
  }

  /** Every wait status: the command exited with a code, or it was killed by a
      signal, with or without a core dump, or neither. */
  lemma ExitCodeMeaning(high: int, code: int, core: int, signal: int)
    requires 0 <= code < 0x100 && 0 <= core <= 1 && 1 <= signal <= 126
    ensures ExitCode(high * 0x1_0000 + code * 0x100 + core * 0x80) == code
    ensures ExitCode(high * 0x100 + core * 0x80 + signal) == 128 + signal
    ensures ExitCode(high * 0x100 + core * 0x80 + 127) == 1
  {
    Exited(high * 0x100 + code, core * 0x80);
    ByteOf(high, code);
    LowBits(high * 0x200 + code * 2 + core, 0);
    LowBits(high * 2 + core, signal);
    LowBits(high * 2 + core, 127);
  }

  lemma LowBits(q: int, r: int)
    requires 0 <= r < 0x80
    ensures (q * 0x80 + r) % 0x80 == r
  {
  }

  lemma Exited(q: int, r: int)
    requires 0 <= r < 0x100
    ensures (q * 0x100 + r) / 0x100 == q
  {
  }

  lemma ByteOf(q: int, r: int)
    requires 0 <= r < 0x100
    ensures (q * 0x100 + r) % 0x100 == r
  {
  }

  /** The exit status of the client process (`shell_cmd`). */
  function ShellStatus(o: Outcome): Byte {
    match o
    case Code(code) => if 0 <= code <= 255 then code else 255
    case NoCode => 0
    case Failed => 1
  }

  /** Codes of a process are kept, others are 255; a session that ended without a
      code succeeds, one that failed locally does not. */
  lemma ShellStatusCases(code: I32)
    ensures 0 <= code <= 255 ==> ShellStatus(Code(code)) == code
    ensures code < 0 || code > 255 ==> ShellStatus(Code(code)) == 255
    ensures ShellStatus(NoCode) == 0 && ShellStatus(Failed) == 1
  {
  }

  const NoSource := Source([], 0, false)

  /** The server has submitted its start frame and nothing else happened. The
      write precedes the mutex; it is modelled as taking the free mutex. */
  function Init(c: Config): State {
    State(
      Server(SendStart, Unwired, Absent, Absent, None),
      Feeder(FeedOff, [], [], true, (0, 0)),
      Command(NoSource, NoSource, None, 0, false),
      Client(AwaitStart, [], None),
      Display(ShowOff, [], [], []),
      Keyboard(KeysOff, false, []),
      WinchOff,
      Do(Empty, c.toClient, Submit(Main, StartFrame)),
      Empty)
  }

  // ----- channels -----

  /** The steps of a writer between the call of send_frame and its return. */
  predicate Inner(op: Op) {
    op.Acquire? || op.Accept? || op.Put?
  }

  /** The sender's process is gone, everything it wrote is read, and the reader
      is not inside a complete frame: read() reports the end. */
  predicate ToClientEnded(s: State) {
    s.srv.main.Finished? && s.s2c.taken == |s.s2c.wire| && NeedMore(s.s2c.buf)
  }

  predicate ToServerEnded(s: State) {
    s.cli.result.Some? && s.c2s.taken == |s.c2s.wire| && NeedMore(s.c2s.buf)
  }

  predicate ServerLives(s: State) {
    !s.srv.main.Finished? && !s.srv.main.ServerPanic?
  }

  predicate ClientLives(s: State) {
    s.cli.result.None? && !s.cli.main.ClientPanic?
  }

  // ----- the server's main thread and output pumps -----

  datatype ServerStep =
    | SWrite(op: Op)
    | StartSent
    | STake
    | GotReply
    | GotSize(ok: bool)  // ok: the PTY or the pipes and the fork succeed
    | SLost
    | OutRead(n: nat) | OutSent | OutEof | OutFail
    | ErrRead(n: nat) | ErrSent | ErrEof | ErrFail
    | PumpsDone
    | Reap
    | WaitFail
    | ExitSent

  predicate CanRead(src: Source, n: nat) {
    0 < n <= MAX_PAYLOAD && src.read + n <= |src.bytes|
  }

  function ReadBytes(src: Source, n: nat): seq<Byte>
    requires CanRead(src, n)
  {
    src.bytes[src.read..src.read + n]
  }

  predicate Exhausted(src: Source) {
    src.closed && src.read == |src.bytes|
  }

  predicate PumpOk(p: Pump) {
    p == Absent || p == Ended(true)
  }

  predicate ServerCan(c: Config, s: State, step: ServerStep) {
    match step
    case SWrite(op) =>
      Inner(op) && (op.w == Main || op.w == ErrPump) && ServerLives(s) && Can(s.s2c, c.toClient, op)
    case StartSent => s.srv.main.SendStart? && Can(s.s2c, c.toClient, Release(Main))
    case STake => (s.srv.main.AwaitReply? || s.srv.main.AwaitSize?) && Can(s.c2s, c.toServer, Take)
    case GotReply => s.srv.main.AwaitReply? && Can(s.c2s, c.toServer, Deliver)
    case GotSize(_) => s.srv.main.AwaitSize? && Can(s.c2s, c.toServer, Deliver)
    case SLost => (s.srv.main.AwaitReply? || s.srv.main.AwaitSize?) && ToServerEnded(s)
    case OutRead(n) => s.srv.main.Pumping? && s.srv.out.Reading? && CanRead(s.cmd.out, n)
                       && PcOf(s.s2c, Main).Idle?
    case OutSent => s.srv.main.Pumping? && s.srv.out.Sending? && Can(s.s2c, c.toClient, Release(Main))
    case OutEof => s.srv.main.Pumping? && s.srv.out.Reading? && Exhausted(s.cmd.out)
    case OutFail => s.srv.main.Pumping? && s.srv.out.Reading?
    case ErrRead(n) => s.srv.main.Pumping? && s.srv.err.Reading? && CanRead(s.cmd.err, n)
                       && PcOf(s.s2c, ErrPump).Idle?
    case ErrSent => s.srv.main.Pumping? && s.srv.err.Sending? && Can(s.s2c, c.toClient, Release(ErrPump))
    case ErrEof => s.srv.main.Pumping? && s.srv.err.Reading? && Exhausted(s.cmd.err)
    case ErrFail => s.srv.main.Pumping? && s.srv.err.Reading?
    case PumpsDone => s.srv.main.Pumping? && s.srv.out.Ended? && (s.srv.err.Ended? || s.srv.err.Absent?)
    case Reap => s.srv.main.Reaping? && s.cmd.status.Some? && PcOf(s.s2c, Main).Idle?
    case WaitFail => s.srv.main.Reaping?
    case ExitSent => s.srv.main.SendExit? && Can(s.s2c, c.toClient, Release(Main))
  }

  function SetMain(s: State, m: ServerMain): State {
    s.(srv := s.srv.(main := m))
  }

  function ToClient(c: Config, s: State, op: Op): State
    requires Can(s.s2c, c.toClient, op)
  {
    s.(s2c := Do(s.s2c, c.toClient, op))
  }

  function ToServer(c: Config, s: State, op: Op): State
    requires Can(s.c2s, c.toServer, op)
  {
    s.(c2s := Do(s.c2s, c.toServer, op))
  }

  function Wired(tty: bool): Wiring {
    if tty then Tty else Pipes
  }

  function ServerDo(c: Config, s: State, step: ServerStep): State
    requires ServerCan(c, s, step)
  {
    match step
    case SWrite(op) => ToClient(c, s, op)
    case StartSent => SetMain(ToClient(c, s, Release(Main)), AwaitReply)
    case STake => ToServer(c, s, Take)
    case GotReply =>
      (match AsStartReply(FrameOf(s.c2s.buf))
       case Some(tty) => SetMain(ToServer(c, s, Deliver), AwaitSize(tty))
       case None => SetMain(ToServer(c, s, Deliver), ServerPanic))
    case GotSize(ok) =>
      (match AsResize(FrameOf(s.c2s.buf))
       case Some(size) =>
         if ok then
           ToServer(c, s, Deliver).(
             srv := Server(Pumping, Wired(s.srv.main.tty), Reading,
                           if s.srv.main.tty then Absent else Reading, None),
             feed := s.feed.(pump := FeedReading, size := if s.srv.main.tty then size else s.feed.size))
         else SetMain(ToServer(c, s, Deliver), Finished(false))
       case None => SetMain(ToServer(c, s, Deliver), ServerPanic))
    case SLost => SetMain(s, if s.c2s.buf == [] then ServerPanic else Finished(false))
    case OutRead(n) =>
      ToClient(c, s, Submit(Main, Frame(Stdout, ReadBytes(s.cmd.out, n)))).(
        srv := s.srv.(out := Sending), cmd := s.cmd.(out := s.cmd.out.(read := s.cmd.out.read + n)))
    case OutSent => ToClient(c, s, Release(Main)).(srv := s.srv.(out := Reading))
    case OutEof => s.(srv := s.srv.(out := Ended(true)))
    case OutFail => s.(srv := s.srv.(out := Ended(false)))
    case ErrRead(n) =>
      ToClient(c, s, Submit(ErrPump, Frame(Stderr, ReadBytes(s.cmd.err, n)))).(
        srv := s.srv.(err := Sending), cmd := s.cmd.(err := s.cmd.err.(read := s.cmd.err.read + n)))
    case ErrSent => ToClient(c, s, Release(ErrPump)).(srv := s.srv.(err := Reading))
    case ErrEof => s.(srv := s.srv.(err := Ended(true)))
    case ErrFail => s.(srv := s.srv.(err := Ended(false)))
    case PumpsDone => SetMain(s, Reaping)
    case Reap =>
      // the child is reaped whatever became of the pumps
      if PumpOk(s.srv.out) && PumpOk(s.srv.err) then
        ToClient(c, s, Submit(Main, ExitFrame(ExitCode(s.cmd.status.value)))).(
          srv := s.srv.(main := SendExit, reaped := s.cmd.status))
      else s.(srv := s.srv.(main := Finished(false), reaped := s.cmd.status))
    case WaitFail => SetMain(s, Finished(false))
    case ExitSent => SetMain(ToClient(c, s, Release(Main)), Finished(true))
  }

  // ----- the server's input pump -----

  datatype FeedStep = FeedTake | FeedGot | FeedByte | FeedDone | FeedFail | FeedLost

  predicate FeedCan(c: Config, s: State, step: FeedStep) {
    && ServerLives(s)
    && match step
       case FeedTake => s.feed.pump.FeedReading? && Can(s.c2s, c.toServer, Take)
       case FeedGot => s.feed.pump.FeedReading? && Can(s.c2s, c.toServer, Deliver)
       case FeedByte => s.feed.pump.FeedWriting? && s.feed.todo != []
                        && |s.feed.fed| < s.cmd.stdinRead + c.pipe
       case FeedDone => s.feed.pump.FeedWriting? && s.feed.todo == []
       case FeedFail => s.feed.pump.FeedWriting?
       case FeedLost => s.feed.pump.FeedReading? && ToServerEnded(s)
  }

  function FeedNext(w: Wiring, f: Feeder, frame: Frame): Feeder {
    var r := FeedFrame(w, FeedState([], f.lineStart, f.size), frame);
    if Stops(w, frame) then f.(pump := FeedEnded(EofSeen))
    else f.(pump := if r.bytes == [] then FeedReading else FeedWriting,
            todo := r.bytes, lineStart := r.lineStart, size := r.size)
  }

  function FeedDo(c: Config, s: State, step: FeedStep): State
    requires FeedCan(c, s, step)
  {
    match step
    case FeedTake => ToServer(c, s, Take)
    case FeedGot => ToServer(c, s, Deliver).(feed := FeedNext(s.srv.wiring, s.feed, FrameOf(s.c2s.buf)))
    case FeedByte => s.(feed := s.feed.(fed := s.feed.fed + [s.feed.todo[0]], todo := s.feed.todo[1..]))
    case FeedDone => s.(feed := s.feed.(pump := FeedReading))
    case FeedFail => s.(feed := s.feed.(pump := FeedEnded(Broken)))
    case FeedLost => s.(feed := s.feed.(pump := FeedEnded(Lost)))
  }

  // ----- the command -----

  /** The command may do anything: write, close, read or not read, and end with
      any status. On a terminal its stderr is the stdout stream. */
  datatype CommandStep =
    | WriteOut(b: Byte) | WriteErr(b: Byte) | CloseOut | CloseErr | ReadIn | SeeEof | Die(status: int)

  predicate CanWrite(c: Config, src: Source) {
    !src.closed && |src.bytes| < src.read + c.pipe
  }

  predicate CommandCan(c: Config, s: State, step: CommandStep) {
    && !s.srv.wiring.Unwired?
    && match step
       case WriteOut(_) => CanWrite(c, s.cmd.out) && !s.srv.out.Ended?
       case WriteErr(_) => s.srv.wiring.Pipes? && CanWrite(c, s.cmd.err) && !s.srv.err.Ended?
       case CloseOut => true
       case CloseErr => true
       case ReadIn => s.cmd.stdinRead < |s.feed.fed|
       case SeeEof => s.srv.wiring.Pipes? && s.cmd.stdinRead == |s.feed.fed|
                      && (s.feed.pump.FeedEnded? || !ServerLives(s))
       case Die(_) => s.cmd.status.None?
  }

  function CommandDo(c: Config, s: State, step: CommandStep): State
    requires CommandCan(c, s, step)
  {
    match step
    case WriteOut(b) => s.(cmd := s.cmd.(out := s.cmd.out.(bytes := s.cmd.out.bytes + [b])))
    case WriteErr(b) => s.(cmd := s.cmd.(err := s.cmd.err.(bytes := s.cmd.err.bytes + [b])))
    case CloseOut => s.(cmd := s.cmd.(out := s.cmd.out.(closed := true)))
    case CloseErr => s.(cmd := s.cmd.(err := s.cmd.err.(closed := true)))
    case ReadIn => s.(cmd := s.cmd.(stdinRead := s.cmd.stdinRead + 1))
    case SeeEof => s.(cmd := s.cmd.(sawEof := true))
    case Die(status) => s.(cmd := s.cmd.(status := Some(status)))
  }

  // ----- the client's main thread and output loop -----

  datatype ClientStep =
    | CWrite(op: Op)
    | CTake
    | GotStart
    | ReplySent
    | SizeSent
    | CLost
    | Show | ShowByte | ShowDone | ShowFail | ShowLost
    | Return

  predicate ClientCan(c: Config, s: State, step: ClientStep) {
    && ClientLives(s)
    && match step
       case CWrite(op) => Inner(op) && op.w != ErrPump && Can(s.c2s, c.toServer, op)
       case CTake => (s.cli.main.AwaitStart? || s.show.mode.ShowReading?) && Can(s.s2c, c.toClient, Take)
       case GotStart => s.cli.main.AwaitStart? && Can(s.s2c, c.toClient, Deliver) && PcOf(s.c2s, Main).Idle?
       case ReplySent => s.cli.main.SendReply? && Can(s.c2s, c.toServer, Release(Main))
       case SizeSent => s.cli.main.SendSize? && Can(s.c2s, c.toServer, Release(Main))
       case CLost => s.cli.main.AwaitStart? && ToClientEnded(s)
       case Show => s.show.mode.ShowReading? && Can(s.s2c, c.toClient, Deliver)
       case ShowByte => s.show.mode.ShowWriting? && s.show.todo != []
       case ShowDone => s.show.mode.ShowWriting? && s.show.todo == []
       case ShowFail => s.show.mode.ShowWriting?
       case ShowLost => s.show.mode.ShowReading? && ToClientEnded(s)
       case Return => s.cli.done != []
  }

  /** A thread reports on the channel that the main thread waits on. */
  function Post(s: State, o: Outcome): State {
    s.(cli := s.cli.(done := s.cli.done + [o]))
  }

  function EndShow(s: State, o: Outcome): State {
    Post(s, o).(show := s.show.(mode := ShowEnded))
  }

  function ClientDo(c: Config, s: State, step: ClientStep): State
    requires ClientCan(c, s, step)
  {
    match step
    case CWrite(op) => ToServer(c, s, op)
    case CTake => ToClient(c, s, Take)
    case GotStart =>
      if FrameOf(s.s2c.buf).ty == Start then
        ToServer(c, ToClient(c, s, Deliver), Submit(Main, StartReplyFrame(c.tty))).(
          cli := s.cli.(main := SendReply))
      else ToClient(c, s, Deliver).(cli := s.cli.(main := ClientPanic))
    case ReplySent =>
      var m := Do(s.c2s, c.toServer, Release(Main));
      s.(c2s := Do(m, c.toServer, Submit(Main, ResizeFrame(c.cols, c.rows))), cli := s.cli.(main := SendSize))
    case SizeSent =>
      ToServer(c, s, Release(Main)).(
        cli := s.cli.(main := Serving), show := s.show.(mode := ShowReading),
        keys := s.keys.(mode := KeysReading), winch := WinchIdle)
    case CLost => s.(cli := s.cli.(main := ClientPanic))
    case Show =>
      var f, t := FrameOf(s.s2c.buf), ToClient(c, s, Deliver);
      (match f.ty
       case Stdout => t.(show := s.show.(mode := ShowWriting(false), todo := f.payload))
       case Stderr => t.(show := s.show.(mode := ShowWriting(true), todo := f.payload))
       case Exit => (match AsExit(f)
                     case Some(code) => EndShow(t, Code(code))
                     case None => EndShow(t, NoCode))
       case _ => EndShow(t, NoCode))
    case ShowByte =>
      var b, rest := s.show.todo[0], s.show.todo[1..];
      if s.show.mode.toErr then s.(show := s.show.(err := s.show.err + [b], todo := rest))
      else s.(show := s.show.(out := s.show.out + [b], todo := rest))
    case ShowDone => s.(show := s.show.(mode := ShowReading))
    case ShowFail => EndShow(s, NoCode)
    case ShowLost => EndShow(s, NoCode)
    case Return => s.(cli := s.cli.(result := Some(s.cli.done[0])))
  }

  // ----- the client's input and resize loops -----

  datatype InputStep =
    | Type(chunk: seq<Byte>) | TypeSent | TypeRefused | TypeEof | TypeEofSent | TypeFail
    | Resized(cols: U16, rows: U16) | ResizedSent | ResizedEnd(ok: bool)

  predicate InputCan(c: Config, s: State, step: InputStep) {
    && ClientLives(s)
    && match step
       case Type(chunk) => s.keys.mode.KeysReading? && 0 < |chunk| <= MAX_PAYLOAD && PcOf(s.c2s, InLoop).Idle?
       case TypeSent => s.keys.mode.KeysSending? && Can(s.c2s, c.toServer, Release(InLoop))
       case TypeRefused => s.keys.mode.KeysSending? && Can(s.c2s, c.toServer, Refuse(InLoop))
       case TypeEof => s.keys.mode.KeysReading? && PcOf(s.c2s, InLoop).Idle?
       case TypeEofSent => s.keys.mode.KeysEof? && Can(s.c2s, c.toServer, Release(InLoop))
       case TypeFail => s.keys.mode.KeysReading?
       case Resized(_, _) => s.winch.WinchIdle? && PcOf(s.c2s, Resizer).Idle?
       case ResizedSent => s.winch.WinchSending? && Can(s.c2s, c.toServer, Release(Resizer))
       case ResizedEnd(_) => s.winch.WinchIdle?
  }

  function EndKeys(s: State, why: KeyEnd): State {
    s.(keys := s.keys.(mode := KeysEnded(why)))
  }

  /** What one call of `filter_escape` returns on `chunk`. */
  function Filtered(k: Keyboard, chunk: seq<Byte>): Filter {
    FilterFrom(Filter([], k.escaped, false), chunk)
  }

  function InputDo(c: Config, s: State, step: InputStep): State
    requires InputCan(c, s, step)
  {
    match step
    case Type(chunk) =>
      var r := Filtered(s.keys, chunk);
      var k := Keyboard(KeysReading, r.escaped, s.keys.typed + chunk);
      if r.out != [] then
        ToServer(c, s, Submit(InLoop, Frame(Stdin, r.out))).(keys := k.(mode := KeysSending(r.quit)))
      else if r.quit then EndKeys(Post(s.(keys := k), NoCode), Quit)
      else s.(keys := k)
    case TypeSent =>
      var t := ToServer(c, s, Release(InLoop));
      if s.keys.mode.quit then EndKeys(Post(t, NoCode), Quit) else t.(keys := s.keys.(mode := KeysReading))
    case TypeRefused => EndKeys(ToServer(c, s, Refuse(InLoop)), Refused)
    case TypeEof => ToServer(c, s, Submit(InLoop, EofFrame)).(keys := s.keys.(mode := KeysEof))
    case TypeEofSent => EndKeys(ToServer(c, s, Release(InLoop)), AtEof)
    case TypeFail => EndKeys(Post(s, Failed), StdinFailed)
    case Resized(cols, rows) => ToServer(c, s, Submit(Resizer, ResizeFrame(cols, rows))).(winch := WinchSending)
    case ResizedSent => ToServer(c, s, Release(Resizer)).(winch := WinchIdle)
    case ResizedEnd(ok) => Post(s, if ok then NoCode else Failed).(winch := WinchEnded)
  }

  // ----- runs -----

  datatype Step =
    | OfServer(srv: ServerStep)
    | OfFeeder(feed: FeedStep)
    | OfCommand(cmd: CommandStep)
    | OfClient(cli: ClientStep)
    | OfInput(inp: InputStep)

  predicate Enabled(c: Config, s: State, step: Step) {
    match step
    case OfServer(x) => ServerCan(c, s, x)
    case OfFeeder(x) => FeedCan(c, s, x)
    case OfCommand(x) => CommandCan(c, s, x)
    case OfClient(x) => ClientCan(c, s, x)
    case OfInput(x) => InputCan(c, s, x)
  }

  function After(c: Config, s: State, step: Step): State
    requires Enabled(c, s, step)
  {
    match step
    case OfServer(x) => ServerDo(c, s, x)
    case OfFeeder(x) => FeedDo(c, s, x)
    case OfCommand(x) => CommandDo(c, s, x)
    case OfClient(x) => ClientDo(c, s, x)
    case OfInput(x) => InputDo(c, s, x)
  }

  /** `states` is what `steps` make of `from`. */
  ghost predicate IsPath(c: Config, from: State, states: seq<State>, steps: seq<Step>) {
    && |states| == |steps| + 1
    && states[0] == from
    && forall i :: 0 <= i < |steps| ==>
         Enabled(c, states[i], steps[i]) && states[i + 1] == After(c, states[i], steps[i])
  }

  /** A run of a session, in any interleaving. */
  ghost predicate IsSession(c: Config, states: seq<State>, steps: seq<Step>) {
    Sane(c) && IsPath(c, Init(c), states, steps)
  }
}
