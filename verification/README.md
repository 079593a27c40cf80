# Verified model of the serial session multiplexer

A command runs in a guest under a server; a client on the host shows its output
and forwards the user's input. Everything goes over one serial byte stream as
length-prefixed frames. This project models that session from the codec to whole
runs of all threads and proves what the code relies on.

| module | models |
|---|---|
| `Wire` | frames, their encoding, a pure parser of whole byte strings (`src/lib.rs`) |
| `Streams` | `write_to`, `read_full` and `FrameReader` over streams with short, interrupted and failing reads |
| `WindowSize` | the size of the user's terminal, from its reports to the PTY |
| `Link` | one direction of the channel, byte by byte: writer threads, mutex, bounded FIFO, reader |
| `Escape` | `filter_escape` |
| `Feed`, `Terminal` | what the input pumps write; canonical-mode input processing (section 11.1.6 of the Base Definitions of POSIX.1-2017, VEOF in 11.1.9) |
| `Session` | server, client, command and both channels as one step relation |
| `ServerInv`, `ClientInv`, `ShowInv`, `FeedInv`, `SessionInv` | the invariant, kept by every step |
| `Delivery`, `Results`, `StdinDelivery`, `Progress`, `InputProgress`, `HandshakeProgress` | results about all runs |
| `Completion`, `Jam` | sessions that exist in every configuration: one that returns a code, one whose quit comes too late, one whose quit waits for the command |
| `Pumps` | the loops of server and client as they run: the input loop and the input pumps against the functions the session uses, the output pump and loop against the encoding and the streams of the frames |
| `InitArgs` | `format_init_args` and the tokenizer it targets |

A step of `Session` is one action of one thread: one lock acquisition, one byte
onto the channel, one byte off it, one byte into a pipe or to the local output,
one read of any size, one report to the main thread. `IsSession` is any
interleaving of such steps from the start, with any buffer capacities, any
chunking of reads, any behaviour of the command and any local failure. The
histories of what the command wrote, what the user typed and which frames were
begun are part of the state. No step of a writer but the acquisition looks at the
mutex, so mutual exclusion and whole frames are proved, not assumed. As the code
assumes, the channel itself is reliable: a channel write completes or waits.

How some things are modelled: the start frame is written before the mutex exists,
which is the same as taking a free mutex; a PTY master's EIO at a hangup is the
end of the stream; the `mpsc` channel is the sequence `done`, of which the main
thread returns the first; a process that returns from `run` or `shell` closes its
channel and stops its threads. When the command is on a terminal its stderr is
part of the stdout stream.

Four promises do not hold in general, and the project says when they do:

- The input loop forwards all input unless one payload is refused as oversize.
  `Escape.RefusedExactly` gives the exact reads for which that happens, in terms
  of the bytes read, and `Escape.RefusalExample` a concrete one;
  `StdinDelivery.RefusedInRun` shows that a session refuses a payload if and only
  if it contains such a read, and `StdinDelivery.RefusalLosesEof` the consequence:
  the command's end of input is then never sent.
- An escape quit does not always prevent a code: `shell` returns the first report,
  and the output loop may have reported before. `Results.CodeAfterLoopEnd` says that
  after a quit, a failure of stdin or the end of the resize loop the client returns
  a code if and only if one was the first report by then;
  `Completion.QuitLosesRace` is a session in which the quit comes too late.
  Nor is a typed quit always reported: the input loop reports it only after the
  frame before it is written (`Jam.QuitReported`), so a command that does not read
  its stdin can hold it back for ever (`Jam.JammedSession`, `Jam.JamStays`), and one
  that reads lets it through (`InputProgress.InputSettles`).
- `at_line_start` agrees with the terminal for all text (`Terminal.FlagAgrees`),
  but after an end-of-file frame only if the text before it ended a line or was
  empty (`Terminal.FlagAfterEof`, `Terminal.StaleFlagExample`). Conforming clients
  send one such frame, so whole sessions are not affected.
- The argument line is read back by the modelled tokenizer, which splits on the
  space character only and drops quotes, exactly when no argument is empty
  (`InitArgs.ReadsBackExactly`, `InitArgs.EmptyArgumentLost`). Arguments with other
  white space are outside this claim for a parser that splits on it.

`docs/wire.md` lists no type 7 and says other values decode as `Unknown`; the code
decodes 7 as `StartReply`, and the model follows the code. `pump_output` does not
retry an interrupted read, unlike `read_full`; the model follows that too.

## Model

| member | source | states |
|---|---|---|
| Wire.EncodeParses | src/lib.rs:184-196 | an accepted frame, followed by anything, parses back to itself, so the `u16` cast of the length never loses bits |
| Wire.RoundTrip | src/lib.rs:237-264 | decoding the concatenated encodings of any frames of accepted size gives these frames and a clean end |
| Wire.EncodeInjective | src/lib.rs:184-196 | two frame sequences never share an encoding |
| Wire.CutStream | src/lib.rs:201-203 | for every byte at which a stream is cut there are frames wholly before the cut, exactly these come out, and the end is clean if and only if the cut is on a frame boundary |
| Wire.UnknownTypesStayInSync | src/lib.rs:55-75 | any type bytes decode in sync to the end; re-encoding reproduces the stream with every unassigned type byte set to 0 |
| Wire.ExitRoundTrip | src/lib.rs:139-170 | every `i32` code survives its frame |
| Wire.ControlRoundTrips | src/lib.rs:131-181 | sizes and terminal flags survive their frames |
| Wire.DecodersExact | src/lib.rs:139-181 | the accessors accept exactly the frames that the constructors make, for a start reply any byte but 0 as yes |
| Wire.ExampleBytes | docs/wire.md:8-24 | the documented byte layout, little-endian, on concrete frames, and the limit of 16381 bytes |
| Wire.TypeBytes | src/lib.rs:35-75 | the documented type byte of every type, 0 to 7, for every payload; any other byte names no type |
| Wire.ParserComplete | src/lib.rs:243-261 | whole raw frames followed by nothing, by a header announcing more than 16381 bytes, or by the beginning of a frame decode to these frames and the ending that belongs to the rest |
| Wire.ParserSound | src/lib.rs:243-261 | every byte string is of that kind, so the parser's answer is determined for all of them |
| Wire.OversizeReported | src/lib.rs:251-252 | a corrupt length after any accepted frames is reported as oversize, whatever follows |
| Streams.ItemCases | src/lib.rs:237-264 | in terms of bytes, when `next` ends, rejects the length, or finds a cut frame |
| Streams.WriteTo | src/lib.rs:184-196 | refuses exactly the oversize frames before writing anything; otherwise writes the encoding, or a proper prefix of it when the stream fails |
| Streams.ReadFull | src/lib.rs:221-232 | terminates; fills the buffer or reads to the end whatever the cuts and interruptions, and fails exactly when a read failed, having lost no byte |
| Streams.FrameReader.Next | src/lib.rs:237-264 | for every cutting into reads the result is that of the pure parser on the bytes left, and the stream is left behind that frame |
| Streams.ReadFrames | src/lib.rs:234-264 | iterating gives the parser's frames up to the first error, and all of them with its ending unless a read failed |
| Link.StepKeeps | src/bin/server.rs:415-422 | mutual exclusion, whole frames, a reader in sync and per-thread order are kept by every byte-level step |
| Link.NoInterleaving | src/bin/vmctl.rs:598-605 | at every byte the wire is whole encoded frames plus a prefix of the one lock holder's frame |
| Link.WireDecodes | src/lib.rs:237-264 | the wire parses at any moment to the frames begun in the order of the mutex, less at most the one being written, with no oversize error |
| Link.WireOfRun | src/bin/server.rs:415-422 | the two together, and that the reader returns a prefix of these frames, for every state of every run |
| Link.PerWriterOrder | src/bin/vmctl.rs:598-605 | each thread's frames appear in the order it submitted them, less refused ones and the one it still waits to write |
| Escape.FilterEscape | src/bin/vmctl.rs:573-596 | the loop computes the filter from the carried flag, stopping at a quit |
| Escape.CallsAreOneCall | src/bin/vmctl.rs:570-596 | any number of calls with the carried flag gives the output and decision of one call on all bytes |
| Escape.ChunkInvariant | src/bin/vmctl.rs:570-596 | cutting the input at any point changes nothing |
| Escape.QuitsExactly | src/bin/vmctl.rs:570-596 | it quits exactly when Ctrl-] `q` occurs adjacently, having forwarded the bytes before the first occurrence; otherwise output and held byte are the input |
| Escape.KeyBytes | src/bin/vmctl.rs:39-39 | the keys are the bytes 29 and 113 |
| Escape.NothingLost | src/bin/vmctl.rs:573-596 | without a quit, output plus held byte is what was held plus the input |
| Escape.Sizes | src/bin/vmctl.rs:573-596 | the same for lengths; a quitting call forwards less than it read |
| Escape.RefusedExactly | src/bin/vmctl.rs:531-543 | a payload is refused exactly for a full read that arrives with a held Ctrl-], neither completes nor contains Ctrl-] `q`, and does not end in Ctrl-] |
| Escape.RefusalExample | src/bin/vmctl.rs:541-543 | such a read exists |
| Feed.PipeBytes | src/bin/server.rs:378-394 | on pipes the bytes are exactly the stdin payloads before the first end-of-file frame, and resize frames change nothing |
| Feed.LineBytes | src/bin/server.rs:341-365 | the line ends are the bytes 10 and 13, VEOF is 4, and an end-of-file frame writes one or two of them by the flag |
| Feed.OtherFramesWriteNothing | src/bin/server.rs:349-370 | deleting all other frames changes neither the bytes nor the line flag, on either wiring, also in streams that go on after an end-of-file frame |
| Feed.SizeIsLastResize | src/bin/server.rs:367-369 | the PTY has the size of the last well-formed resize, or the initial one |
| Terminal.FlagAgrees | src/bin/server.rs:345-364 | for plain text in any frames `at_line_start` holds exactly when the terminal's line buffer is empty; all bytes arrive and no end of file |
| Terminal.OneEof | src/bin/server.rs:352-360 | one end-of-file frame gives all the text and then exactly one end of file |
| Terminal.EofReadOnce | src/bin/server.rs:345-348 | for all read sizes the command gets the text, then one zero-length read, never an early or second one |
| Terminal.SecondEof | src/bin/server.rs:352-364 | a second end-of-file frame ends one more read if the text ended a line or was empty, and two more otherwise |
| Terminal.FlagAfterEof | src/bin/server.rs:348-364 | after an end-of-file frame the flag is right if and only if the text before it ended a line or was empty |
| Terminal.StaleFlagExample | src/bin/server.rs:348-364 | a concrete stream on which the flag is wrong |
| Session.ExitCodeMeaning | src/bin/server.rs:654-664 | for every wait status: exit codes are themselves, signals are 128 plus the signal, with or without a core dump, anything else is 1 |
| Session.ShellStatusCases | src/bin/vmctl.rs:363-374 | a code that is a byte is the exit status, any other gives 255; no code gives 0, a failure 1 |
| SessionInv.InvStep | src/bin/server.rs:254-324 | every step of every thread keeps the session invariant |
| SessionInv.InvSession | src/bin/vmctl.rs:401-481 | so it holds in every state of every run |
| ShowInv.ShowEffect | src/bin/vmctl.rs:489-519 | a frame that carries no output ends the output loop, which reports the code of a well-formed exit frame and no code for any other |
| Delivery.DeliveryComplete | src/bin/vmctl.rs:483-522 | if the client returns a code, its stdout and stderr hold every byte the command ever wrote, in order, the pumps ended at the closed ends of their streams, the code is that of the reaped status, and it is the client's exit status |
| Delivery.OutputIsPrefix | src/bin/vmctl.rs:490-501 | at every moment local output is a prefix of what the command wrote |
| Delivery.NoCodeAfterLoss | src/bin/vmctl.rs:492-521 | after a failed local write or the end of the channel the client never returns a code |
| Results.FirstReportWins | src/bin/vmctl.rs:433-480 | once some thread has reported, any result of the client is that first report |
| Results.CodeAfterLoopEnd | src/bin/vmctl.rs:447-480 | after an escape quit, a failure of stdin or the end of the resize loop the client returns a code if and only if a code was the first report before; with no report before the exit status is 0 after a quit, 1 after a failure of stdin, and 0 or 1 as the resize loop ended; a quit happens only after Ctrl-] `q` was typed |
| Results.StatusAfterLoss | src/bin/vmctl.rs:492-521 | a failed local write or the end of the channel, as the first report, gives exit status 0 |
| Completion.QuitLosesRace | src/bin/vmctl.rs:457-480 | in every configuration a session exists in which the user quits and the client still returns the code |
| Completion.SomeSessionReturns | src/bin/vmctl.rs:401-481 | in every configuration and for every status a session exists that returns the code |
| Delivery.NoExitAfterFailure | src/bin/server.rs:130-141 | after a failed start, a failed pump or a failed wait there is never an exit frame and the client never returns a code |
| Delivery.CommandReaped | src/bin/server.rs:302-323 | whatever became of the pumps, the server has joined both and reaped the command when it returns, unless the wait itself failed |
| Delivery.PanicsExactly | src/bin/server.rs:109-128 | with any peer, each side panics exactly at an opening frame of another kind or at the end of the channel instead of one |
| Delivery.ServerTraces | src/bin/server.rs:396-413 | the server sends `Start`, non-empty output frames (no stderr on a terminal) and at most a final well-formed `Exit`; so does any decoding of the raw bytes |
| Delivery.ExitBarrier | src/bin/server.rs:303-323 | an exit frame is begun only when all output pumps ended well with everything read and the child was reaped, with its code; never after a failed pump or wait |
| Delivery.ClientTraces | src/bin/vmctl.rs:529-568 | the client sends `StartReply`, `Resize`, then stdin and resize frames; an empty stdin frame at most once, only at the real end of stdin, with no stdin frame after it |
| Delivery.HandshakeSafe | src/bin/server.rs:109-141 | no run panics in the handshake on either side, and the command gets a terminal exactly when the client's stdin is one |
| HandshakeProgress.HandshakeMoves | src/bin/vmctl.rs:406-429 | until both sides are through, some step of the main threads' opening is enabled and lowers a measure of its phases and bytes, for every buffer size |
| HandshakeProgress.NothingRaises | src/bin/vmctl.rs:435-477 | no step of any other thread raises that measure |
| HandshakeProgress.HandshakeBounded | src/bin/server.rs:101-128 | in every interleaving there are at most 61 handshake steps |
| HandshakeProgress.HandshakeCompletes | src/bin/server.rs:101-134 | from every reachable state handshake steps alone, at most as many as the measure, complete the handshake |
| Progress.NoOutputDeadlock | src/bin/server.rs:283-307 | in every reachable live state with output undelivered, or with the server waiting for anything but the command, some output-path step is enabled and lowers the measure |
| Progress.OutputStepDrops | src/bin/server.rs:396-422 | every output-path step lowers the byte-count measure |
| Progress.NothingElseRaises | src/bin/vmctl.rs:435-477 | no other step of any thread raises it, except that the command writes a byte |
| Progress.Drains | src/bin/server.rs:302-323 | once the command has ended, output-path steps alone, at most as many as the measure, bring the client to report its code with all output, whatever state the input side is in |
| Progress.EveryScheduleDrains | src/bin/vmctl.rs:435-480 | in every interleaving from there with no local failure and no end of an input-side loop, at most that many output-path steps occur, and in each state the code is reported with all output or an output-path step is enabled |
| InputProgress.NoInputDeadlock | src/bin/vmctl.rs:529-558 | in every reachable state of an open session some step of the input path (loops, channel, pump, pipe, the command's reading) is enabled and lowers a byte measure, or everything has reached the command: on either wiring it has read all filtered input, less exactly a refused payload, and once stdin has ended the end of file (on a terminal the one or two VEOF characters that the text calls for, with nothing behind them), and a typed quit is reported |
| InputProgress.InputStepDrops | src/bin/server.rs:343-394 | every input-path step lowers that measure |
| InputProgress.OnlyUserRaises | src/bin/vmctl.rs:435-477 | no other step raises it, except that the user types, ends stdin or resizes |
| InputProgress.InputSettles | src/bin/vmctl.rs:529-558 | from every reachable state of an open session input-path steps alone, at most as many as the measure, bring all of that about, whatever the output side is doing |
| InputProgress.EveryScheduleSettles | src/bin/vmctl.rs:435-477 | while the session stays open and the user does nothing, every interleaving of all threads holds at most that many input-path steps, and in each of its states everything has arrived or such a step is enabled |
| Jam.QuitReported | src/bin/vmctl.rs:540-547 | in every run a quit that has been typed is in effect if and only if the input loop has no frame left to write, and then it is reported |
| Jam.JamStays | src/bin/vmctl.rs:540-547 | once pipe and channel are full and the quit waits behind a resize frame, no step of any thread but the command's reading gets it reported |
| Jam.JammedSession | src/bin/vmctl.rs:540-547 | every configuration has a session that reaches such a state with Ctrl-] `q` typed and nothing reported |
| StdinDelivery.StdinOverPipes | src/bin/server.rs:374-394 | what the command has read is always a prefix of the filtered input; when it sees the end while both sides live and no pipe write failed, stdin has ended and it has read exactly all of it: the typed bytes less a held Ctrl-] |
| StdinDelivery.RefusedInRun | src/bin/vmctl.rs:531-543 | in every run a payload is refused if and only if an earlier full read overflowed behind a Ctrl-] typed last |
| StdinDelivery.RefusalLosesEof | src/bin/vmctl.rs:541-543 | from that read on no end-of-file frame is ever sent |
| StdinDelivery.StdinOverTerminal | src/bin/server.rs:343-372 | in every run, after the end-of-file frame of a plain text the terminal holds all of the filtered input and exactly one end of file, and any reads get just that |
| StdinDelivery.TerminalReads | src/bin/server.rs:343-372 | in every state, between any two bytes and whatever became of the pump, reads of any size interleaved with the arrival of the bytes have got a prefix of the filtered text, and a zero-length read only last, after all of it, when stdin really ended |
| StdinDelivery.FlagInSession | src/bin/server.rs:345-364 | before it, the pump's flag agrees with the terminal in every run |
| StdinDelivery.TerminalSize | src/bin/server.rs:127-134 | in every run the PTY has the size of the last well-formed resize received |
| WindowSize.SizesSubmitted | src/bin/vmctl.rs:561-568 | in every run the resize loop has submitted exactly the sizes the terminal reported, columns and rows as reported, in order |
| WindowSize.PtySize | src/bin/server.rs:367-369 | in every run the sizes that arrived are the first one and those reported since, in order, and the PTY has the last of them |
| WindowSize.LatestSize | src/bin/server.rs:367-369 | once everything has arrived that is the size reported last |
| Pumps.PumpOutput | src/bin/server.rs:396-413 | what was read goes out as non-empty whole frames in order; the first read that is interrupted or fails ends it, well if that is a hangup and badly otherwise, with nothing read after it; without one it ends well at the end of the source |
| Pumps.TypeStdin | src/bin/server.rs:350-366 | a stdin frame writes its payload, or one VEOF at a line start and two elsewhere, and leaves the right flag; without room it writes a part and fails |
| Pumps.PumpTty | src/bin/server.rs:343-372 | bytes and size are those the received frames call for; with room for them it uses every frame and ends well exactly at a clean end of the channel; without room it ends badly in the frame that the PTY refuses |
| Pumps.PumpPipe | src/bin/server.rs:374-394 | the pipe gets the stdin payloads up to the first end-of-file frame of the stream, where the pump stops if there is one; without room it ends badly in the frame that does not fit |
| Pumps.InputLoop | src/bin/vmctl.rs:524-558 | the frames carry the filtered input, the empty frame comes last and exactly at the end of stdin; it ends as quit exactly when the filter quits; only a refusal of more than a full payload loses anything |
| Pumps.OutputLoop | src/bin/vmctl.rs:483-522 | a code is returned only for a well-formed exit frame after output frames that were all written to their own streams; with room and no failing read the first frame that is no output frame decides; without room it stops in the frame that does not fit |
| InitArgs.FormatInitArgs | src/qemu.rs:294-321 | fails exactly when some argument has a double quote, naming the first; otherwise the line reads back, split on spaces, as the arguments if and only if none is empty |
| InitArgs.ExampleLine | src/qemu.rs:312-317 | a concrete line, printed and read |
| InitArgs.ReadsBackExactly | src/qemu.rs:302-319 | tokenizing the printed line gives the argument list if and only if no argument is empty |
| InitArgs.TokensOfLine | src/qemu.rs:312-317 | in general it gives the non-empty arguments, with all quotes closed |
| InitArgs.EmptyArgumentLost | src/qemu.rs:315-317 | a command that loses an argument |

## Left out

- System calls for PTYs, pipes, fork, exec, chroot, mounts and termios: only their effect on byte queues, ends of file and the wait status is modelled.
- A channel write that fails in the middle of a frame: the channel is assumed reliable, as in the code.
- Termination of the server or client by a signal from outside, and a poisoned mutex.
- The threads of `Session` are steps on values, not concurrent methods: Dafny has no threads. The loops themselves are methods in `Pumps`, where each runs alone.
- Pumps.InputLoop: the channel never fails there, as in `Session`.
- Terminal special characters other than VEOF, `MAX_CANON`, and a command that changes its terminal settings: the line-discipline results require plain text.
- Output processing and echo of a terminal: the stdout stream is whatever the PTY master reads.
- The kernel's own command line parser beyond spaces and quotes (other white space, `=`, length limits).
- Process launch of QEMU and gvproxy, disk formats, environment setup, user lookup, clap arguments: plumbing.
- The move of `/dev/pts` and diagnostics on stderr, which do not affect the channel.
