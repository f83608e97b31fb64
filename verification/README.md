# Verified model of acpp

acpp runs coding agents as conversations: on this machine or, over a connection that may drop at any moment, on
another one. This project models the parts of it that have to be right under interruption and interleaving, and
proves what their comments and documentation promise. `dafny verify dfyconfig.toml` checks everything.

**The resumable stream protocol (`remote/`).** `Outbox.dfy` and `Inbuf.dfy` are the two ends of one direction of a
stream: classes with the program's own fields, each proved against a value that remembers the whole stream. `Conn.dfy`
is the send loop and the acker, `Wire.dfy` the frame codec. `Ends.dfy` and `Protocol.dfy` are a transition system for
one stream: both ends, the two queues of the connection, acks, exits, drops, handshakes, restarts of either side.
`Invariant.dfy` proves an invariant of every step, `Guarantees.dfy` what follows for every run, `CatchUp.dfy` that both
directions catch up after a reconnect, `Endings.dfy` how streams start, are refused and end, and `Restarts.dfy` and
`LostLines.dfy` what happens to lines of output when servers are replaced. `Hub.dfy`, `Agent.dfy` and `Handshake.dfy`
are the tables of streams on both sides and prove that the handshake loops over them do, stream by stream, what the
protocol says.

**Conversations (`router/`, `hook/`).** `Registry.dfy` and `RegistryRuns.dfy` cover the registry in every interleaving
of its critical sections (`RegistryWitness.dfy` a run where ids are used again), `Router.dfy` its methods on the heap,
and `Worktree.dfy` the isolated worktrees.
`Scheduler.dfy` is the cron scheduler, a class and a transition system of its calls, the conversations, their prompts
and the events; `SchedulerWedge.dfy` proves when a job's mark is released, `SchedulerOverlap.dfy` when it guards against
overlapping runs, and `SchedulerWitness.dfy` gives the runs where either fails.

**Text and configuration.** `Fragments.dfy` and `EnvFilter.dfy` (sandbox profiles and the environment filter),
`Glob.dfy` and `ToolRules.dfy` (permission rules), `LineBuffer.dfy` (streaming output), `HookList.dfy` (the compact hook
syntax) and `MessageSplit.dfy` (Discord messages), over the string functions of `Strings.dfy`.

## Where the code does less than its comments say

Each of these is proved both ways: the exact condition, and an input or run that fails.

- A server that adopts a stream can miss a complete line of output. `remote/buffer.go:161-163` says that acking only
  what was consumed keeps unprocessed bytes for a server restart, but a resume on the same server acks what was
  *received* (`remote/agent.go:250-252` with `remote/buffer.go:123-125`): `Restarts.LineLostAfterReconnect`. And the
  forget that answers an exit (`remote/hub.go:475-481`) and the kill of a stream the server does not want drop the
  agent's buffer whatever was read: `LostLines.LineLostByForget`. `Restarts.CoveredStep` has all such steps;
  `AdoptionMissesLineIff` says when an adoption misses a line, `LostLines.RecoverableIff` when one is lost for good.
- A tombstone is used up by the attach that answers it, so if that welcome is lost the stream is adopted at the next
  hello: `Guarantees.TombstoneLastsOneWelcome`. A finished mark is dropped after an hour (`remote/hub.go:579-593`), so
  then this happens to a finished stream too: `Guarantees.ComesBackIff`.
- A crashed conversation is not always finalized (`router/router.go:1007-1016`): a restart between the watcher's
  reading of the id and its close leaves the dead process registered. `RegistryRuns.RestartKeepsWatchIff`,
  `RestartStrands`, `CrashLeftBehind`.
- A conversation is not always told closed once (`router/router.go:975-986`), nor is a watcher always a no-op after a
  deliberate close (`router/router.go:1023-1026`): `Adopt` refuses only an id that is registered now, so the server can
  take back a stream it finished. `RegistryRuns.DistinctIff`, `ClosedOncePerId`, `RegistryWitnesses.LateWatcherCloses`.
- A restart of a scheduled job's conversation can leave the job marked running for good
  (`router/scheduler.go:71-77`): no event carries the old id any more. It happens while the prompt is under way, and
  also just before, when the re-keying falls between the end of the handshake and the second read of `WaitReady`
  (`router/router.go:727-734`) and the prompt goes out under the new id. `SchedulerWedges.LosesTrackExactly`,
  `WedgedIff`, `NeverWedged`, `SchedulerWitnesses.EveryJobCanWedge`, `WokenTooLate`.
- Two runs of one scheduled job can overlap (`router/scheduler.go:46-47`), in three ways. A failed handshake finishes
  its run twice, and the second finish releases the next run; a call that waits on a conversation closed meanwhile is
  woken by a late answer and finishes its run after the next one began (`router/router.go:623-645`); and any terminal
  event of the conversation, such as the answer to a user's prompt, releases a job whose own prompt is still
  unanswered (`router/scheduler.go:81-100`).
  `SchedulerOverlaps.OrderlyIff`, `NeverOverlaps`, `EarlyIsAnothers`, `SchedulerWitnesses.DoubleFinishHappens`,
  `SecondFinishIsStale`, `LateWakeOverlaps`, `AnotherAnswerOverlaps`.
- An unforced teardown removes a dirty worktree when git could not be asked for its changes, although
  `hook/worktree.go:128-132` says it must not: `Worktrees.UnforcedTeardown`.
- A refused line inside `LineBuffer.Write` is lost, although `acp/helpers/line_buffer.go` speaks of restoring the
  buffer: `LineBuffers.ProcessKeepsIff`, `RefusedLineIsLost`.
- `splitMessage` never ends on a fence line followed by a line longer than 1991 characters: `MessageSplits.DivergesIff`,
  `LongerLineSticks`.
- `MatchToolPermission` is documented as using `filepath.Match`; the code has its own matcher, in which a star also
  crosses path separators. The model follows the code.

## Model

| member | source | states |
|---|---|---|
| Outboxes.AckTrims | remote/buffer.go:80-101 | what an ack leaves: the buffer starts at the last line start at or before the offset, or where it was; no newline remains between it and the offset; nothing written changes |
| Outboxes.RewindPositions | remote/buffer.go:113-128 | a rewind is accepted exactly when the offset lies in the buffer, and then the cursor is the offset and the buffer still starts at a line start |
| Outboxes.UnsendUndoesNext | remote/buffer.go:103-111 | a failed send is undone completely; whatever was acknowledged meanwhile the cursor is back at the failed chunk, unless acks of that very chunk, which then arrived, trimmed its start away |
| Outboxes.StepKeepsValid | remote/buffer.go:18-128 | every operation, with any argument, keeps base <= sent <= end, the limit, and the line-start rule |
| Outboxes.WindowSafe | remote/buffer.go:18-128 | over any sequence of operations the window stays valid, its buffer never moves back, and the stream only grows |
| Outboxes.NoWriteLost | remote/buffer.go:33-46 | while the stream is open and the unacked bytes stay within the limit, everything written is in the stream, in order |
| Outboxes.ReplayExact | remote/wire.go:8-12 | what a flush puts on the wire after a resume is, back to back, exactly the bytes from the cursor to the end of the stream |
| Outboxes.Outbox.constructor | remote/buffer.go:30-32 | a new outbox holds nothing and starts at the given offset |
| Outboxes.Outbox.Write | remote/buffer.go:35-46 | appends, or refuses when closed or over the limit and then changes nothing |
| Outboxes.Outbox.CloseWrite | remote/buffer.go:49-53 | closes the window, bytes kept |
| Outboxes.Outbox.Next | remote/buffer.go:56-71 | hands out the chunk at the cursor and moves past it |
| Outboxes.Outbox.Drained | remote/buffer.go:74-78 | closed, and everything handed out |
| Outboxes.DrainedIff | remote/buffer.go:74-78 | drained exactly when closed with nothing left for a flush to send, whatever was acknowledged |
| Outboxes.Outbox.Ack | remote/buffer.go:85-101 | the in-place scan for the line start computes the window the specification gives |
| Outboxes.Outbox.Unsend | remote/buffer.go:105-111 | moves the cursor back, never before the buffer |
| Outboxes.Outbox.Rewind | remote/buffer.go:115-128 | refuses an offset outside the buffer; otherwise acks up to it and puts the cursor there |
| Inbufs.AcceptMirrors | remote/buffer.go:177-194 | any frame of the stream, duplicate, overlapping or next, leaves the buffer a mirror of the stream; only a frame past the next offset is a gap |
| Inbufs.DeliverAnyOrder | remote/buffer.go:177-194 | frames in any order, with any repeats, leave a mirror of the stream that reaches at least as far |
| Inbufs.EofAfterEveryByte | remote/buffer.go:211-241 | a reader that goes on until end of file gets every buffered byte first, once and in order |
| Inbufs.ReadTakes | remote/buffer.go:219-241 | a read gives what it is asked for or all there is, never more, and moves past exactly that |
| Inbufs.Inbuf.constructor | remote/buffer.go:169-173 | a new buffer expects the given offset and counts as ending a line |
| Inbufs.Inbuf.Write | remote/buffer.go:177-194 | skips what is already there, takes the rest, and keeps the last-byte flag right |
| Inbufs.Inbuf.EndsLine | remote/buffer.go:197-201 | the flag is the truth about the last byte received |
| Inbufs.Inbuf.Received | remote/buffer.go:204-208 | the offset of the next byte expected |
| Inbufs.Inbuf.CloseWrite | remote/buffer.go:211-216 | ends the stream, buffered bytes kept |
| Inbufs.Inbuf.Read | remote/buffer.go:219-241 | takes from the front, no more than asked for, reports the consumed offset, and gives end of file only once all is read |
| Conns.Conn.Send | remote/conn.go:94-106 | a frame is written whole, or the connection is closed |
| Conns.Conn.FlushLocked | remote/conn.go:174-185 | chunks go out in order and back to back; a failed write leaves the cursor right after the last chunk that went out |
| Conns.FlushStep | remote/conn.go:174-185 | one round of the flush loop takes the next frame of the window, and undoing it restores the cursor |
| Conns.RemoteStream.Flush | remote/agent.go:537-556 | the unsent output in order, and behind all of it, once on each connection, the exit: always when the window is closed and the connection takes every frame |
| Conns.RemoteStream.ReadStdin | remote/agent.go:469-477 | a read of the process queues the consumed offset as its stream's stdin ack, in place of the one before, while there is a connection |
| Conns.Conn.SendAcks | remote/conn.go:131-148 | every stream with an ack queued gets one, with the latest offset, unless the connection fails |
| Wire.FrameRoundTrip | remote/wire.go:127-144 | decoding an encoded frame gives it back; exactly the inputs shorter than a header are refused, and all others re-encode to themselves |
| Wire.BigEndianPut | remote/wire.go:127-134 | a 64-bit offset survives its eight bytes |
| Wire.EncodeData | remote/wire.go:127-134 | the buffer filled in place is the encoded frame |
| Invariant.DroppedKeeps | remote/hub.go:382-401 | a connection that vanishes, with everything in flight, keeps the invariant |
| Invariant.AttachKnownKeeps | remote/hub.go:280-294 | resuming a stream the server knows keeps it, and the offset is never refused |
| Invariant.AdoptedContinues | remote/hub.go:303-326 | the window an adopting server makes continues what the process has, on a line of its own |
| Invariant.AdoptKeeps | remote/hub.go:303-326 | adopting a stream keeps the invariant |
| Invariant.AttachKeeps | remote/hub.go:245-341 | every branch of attach keeps the invariant |
| Invariant.WelcomeKeeps | remote/agent.go:235-273 | the agent acting on the welcome keeps it |
| Invariant.HubStartKeeps | remote/hub.go:612-651 | starting a process on a remote host keeps it |
| Invariant.StartFailsKeeps | remote/hub.go:612-651 | a spawn request that fails or times out keeps it |
| Invariant.AgentStartKeeps | remote/agent.go:424-486 | the agent starting the process keeps it, its reply lost or not |
| Invariant.StdoutWriteKeeps | remote/agent.go:494-533 | the process writing output keeps it |
| Invariant.ProcessExitKeeps | remote/agent.go:494-533 | the process exiting keeps it |
| Invariant.SendStdoutKeeps | remote/agent.go:537-556 | a frame sent, failed, or failed but arrived, keeps it |
| Invariant.SendExitKeeps | remote/agent.go:537-556 | sending the exit, once everything went out on this connection, keeps it |
| Invariant.StdinWriteKeeps | remote/hub.go:813-823 | a write to the process keeps it |
| Invariant.SendStdinKeeps | remote/hub.go:720-731 | a stdin frame sent, failed, or failed but arrived, keeps it |
| Invariant.DeliverUpKeeps | remote/hub.go:425-486 | the server taking any message keeps it |
| Invariant.DeliverDownKeeps | remote/agent.go:387-414 | the agent taking any message keeps it |
| Invariant.HubReadKeeps | remote/buffer.go:219-241 | the reader taking bytes, and the ack it queues, keep it |
| Invariant.SendHubAckKeeps | remote/conn.go:131-148 | an ack sent or lost keeps it |
| Invariant.SendForgetKeeps | remote/hub.go:475-482 | the forget that answers an exit, sent or lost, keeps it |
| Invariant.FinishExitKeeps | remote/hub.go:736-746 | the handle being finished after its exit keeps it |
| Invariant.HubGiveUpKeeps | remote/hub.go:404-423 | an expiry, or a close while the agent is away, keeps it |
| Invariant.ServerRestartKeeps | remote/hub.go:172-188 | the server being replaced keeps it |
| Invariant.MarkExpiresKeeps | remote/hub.go:579-593 | a finished mark dropped after its hour keeps it |
| Invariant.AgentRestartKeeps | remote/hub.go:329-341 | the agent being replaced, its processes with it, keeps it |
| Invariant.ApplyKeeps | remote/wire.go:8-12 | every step of the protocol keeps the invariant |
| Invariant.RunKeeps | remote/wire.go:8-12 | so does every run |
| Guarantees.ExactlyOnceInOrder | remote/wire.go:8-12 | in every run, what a reader has taken is the peer's stream from where the reader began: no gap, no duplicate, in both directions |
| Guarantees.ReaderOnlyAdvances | remote/buffer.go:177-241 | no step takes back, rewrites or reorders what a reader has |
| Guarantees.ResumeNeverGoesWrong | remote/buffer.go:113-128 | in every run no frame that arrives leaves a gap and no offset of a handshake is refused |
| Guarantees.NothingLostSilently | remote/conn.go:174-185 | once a cursor is at the end, in either direction, everything is received or in flight |
| Guarantees.DeliverAllUp | remote/hub.go:425-458 | handling what is in flight brings the server exactly to where the wire reaches |
| Guarantees.DeliverAllDown | remote/agent.go:387-414 | the same for stdin, as long as no forget is among it |
| CatchUps.CatchesUp | remote/hub.go:264-341 | from any state with the connection down and a stream the agent lists and the server holds or adopts: handshake, sends and deliveries leave the server with exactly the whole of stdout from where its end begins |
| CatchUps.StdinCatchesUp | remote/hub.go:280-311 | the other way: the same handshake, sends and deliveries leave the agent with all of the server's stdin |
| CatchUps.WritesJoin | remote/hub.go:813-823 | a write joins the stream to be sent, whole and at its end, when the end is open and has room, in both directions; otherwise it changes nothing |
| CatchUps.ReadIsAcked | remote/buffer.go:231-241 | what the server's reader takes is acknowledged, and the agent's buffer then holds no complete line before it |
| CatchUps.StdinReadIsAcked | remote/agent.go:469-477 | the same for what the process reads |
| Endings.SpawnSucceeds | remote/hub.go:612-651 | a spawn that succeeds leaves both sides an empty stream that may be used |
| Endings.SpawnIsRefused | remote/hub.go:646-649 | one that is refused leaves the server no handle, and no hello ever lists it |
| Endings.TakenInIff | remote/hub.go:295-327 | for any answer of the router: a stream the server does not hold is adopted exactly when the router agrees and nothing speaks against it; any other is answered kill, leaves the server as it was, and the agent lets go of it |
| Endings.HandleEnds | remote/hub.go:749-763 | an exit handled, an expiry, a close while away, and a hello that no longer lists the stream all close the handle both ways: the reader gets everything received and then end of file, and writes are refused |
| Endings.ReaderComesToEnd | remote/hub.go:749-763 | and no later step takes any of it away, in every run of the same server |
| Endings.LetGoIsKilled | remote/hub.go:404-423 | a start that timed out, and a stream given up, are answered kill at the next hello that lists them, however late it comes and with the finished mark expired or not |
| Endings.ExitNotLost | remote/agent.go:537-556 | in every run an exit that went out on the connection is handled or in flight |
| Endings.ExitArrives | remote/agent.go:516-556 | from any state with the connection down, the process gone and the stream known to both: handshake, sends, exit and deliveries leave the server with all of stdout and the exit handled |
| Endings.ExitEndsBoth | remote/hub.go:474-482 | and three steps later the handle is finished, its reader left with the rest of stdout and end of file, and the agent has let go |
| Guarantees.GreetingAgrees | remote/hub.go:264-341 | from any state the invariant allows, hello and welcome leave both ends in agreement |
| Guarantees.HandshakeAgreement | remote/hub.go:264-341 | after hello and welcome with no spawn pending: a handle exactly for a listed stream, an answer exactly for one in the hello, and each sender's cursor at its peer's offset |
| Guarantees.ExitAfterOutput | remote/agent.go:516-556 | when the server handles an exit it holds all output, in every run, so the reader gets every byte before end of file |
| Guarantees.ReadsToTheEnd | remote/buffer.go:211-241 | a closed buffer that holds the rest of the stream gives a reader exactly that rest |
| Guarantees.AdoptedStdin | remote/hub.go:303-310 | an adopting server's stdin continues after what the process has, with a newline in between exactly when that ends mid-line |
| Guarantees.StdinNeverGlued | remote/hub.go:303-310 | in every run the bytes a server itself wrote begin a line of the process's stdin |
| Guarantees.FinishedStays | remote/hub.go:579-593 | exactly two steps take a finished mark: the server restarting, and the mark expiring after its hour |
| Guarantees.FinishedNeverComesBack | remote/hub.go:295-302 | while its mark is kept and until the server restarts, a finished stream is never in the handle table again and every later hello listing it is answered kill |
| Guarantees.ComesBackIff | remote/hub.go:295-326 | beyond that an unlisted stream is adopted exactly when neither mark nor tombstone is left and its process runs, so on the same server too once the mark has expired and a lost welcome used up the tombstone |
| Guarantees.GoneForever | remote/agent.go:567-573 | a stream the agent let go of is listed in no later hello, whatever happens to the server |
| Guarantees.TombstoneLastsOneWelcome | remote/hub.go:596-602 | a tombstone alone is used up by the attach that answers it: if that welcome is lost, the next hello finds a running stream unmarked and adopts it |
| Restarts.MissesLineIff | remote/buffer.go:80-84 | a reader that begins at a line start misses a line of the reader before it exactly when it begins after where that one stopped |
| Restarts.AdoptionMissesLineIff | remote/hub.go:303-326 | in every run, adopting a stream misses a complete line exactly when the agent trimmed past what the old reader consumed |
| Restarts.RewindPasses | remote/agent.go:242-256 | the rewind of a welcome trims past the reader exactly when a complete unread line is buffered |
| Restarts.CoveredStep | remote/buffer.go:160-163 | of all steps exactly these break the promise that unread bytes stay in the peer's buffer: a resume on the same server over a complete unread line, a forget, a kill or the end of the agent while bytes are unread, and a write of a process let go of |
| Restarts.LinesServedBefore | remote/buffer.go:80-84 | each line the readers got past was taken whole by one of them |
| Restarts.NoLineLost | remote/buffer.go:80-84 | over any drops, reconnects and restarts without such a step, every complete line is taken whole by one server or still whole in the buffer of a stream the agent lists |
| Restarts.LineLostAfterReconnect | remote/agent.go:242-256 | a run in which such a resume loses a line across a server restart |
| LostLines.NeverServed | remote/hub.go:295-327 | a line that nobody took, in no buffer a server could adopt or begin before, is taken whole by no reader in any run |
| LostLines.RecoverableIff | remote/hub.go:295-327 | with no server left, a line nobody took can still be taken whole, in some run, exactly when the agent lists the stream, its process has not exited, and its buffer begins no later than the line |
| LostLines.RestartLosesIff | remote/hub.go:295-327 | so replacing the server loses it for good exactly when one of the three is missing |
| LostLines.LineLostByForget | remote/hub.go:474-482 | a run without any reconnect that loses a line for good: the forget that answers an exit does not wait for the reader |
| Hubs.Location.MarkFinished | remote/hub.go:579-593 | marks a stream finished, and drops marks past their retention |
| Hubs.MarkLasts | remote/hub.go:579-593 | a mark outlives everything marked within its retention |
| Hubs.MarksAreFresh | remote/hub.go:579-593 | and no mark outlives its retention: every finish drops the older ones |
| Hubs.Location.FinishHandle | remote/hub.go:749-763 | a finished stream leaves the table, is marked, and is closed both ways with its unread bytes kept; others untouched |
| Hubs.Location.DropHandle | remote/hub.go:570-576 | removes the handle only |
| Hubs.Location.Expire | remote/hub.go:404-423 | every handle is finished, closed both ways and tombstoned |
| Hubs.Location.CloseAway | remote/hub.go:772-781 | a close the agent cannot be told of gives the stream up |
| Hubs.Location.Detach | remote/hub.go:803-806 | lets go of the stream without a mark or a tombstone |
| Hubs.Location.Take | remote/hub.go:425-486 | one message of the read loop does to the table what the protocol does to the stream, gaps and unknown streams included |
| Hubs.Location.FinishAll | remote/hub.go:329-341 | exactly the streams the hello does not list are finished |
| Hubs.Location.AttachOne | remote/hub.go:276-327 | one stream of the hello is answered as the protocol's attach step answers it, others untouched; a refused adoption adds no handle and is answered kill |
| Hubs.Location.AnswerAll | remote/hub.go:266-327 | the loop answers every stream once, in order |
| Hubs.Location.Attach | remote/hub.go:245-361 | attach does to every stream of the table what the protocol's step does to one; every handle it drops is closed both ways, every one it adds was agreed to |
| Agents.RemoteAgent.Hello | remote/agent.go:213-232 | the hello lists each stream of the table once, with its offsets |
| Agents.RemoteAgent.Forget | remote/agent.go:567-573 | drops that stream only |
| Agents.RemoteAgent.Take | remote/agent.go:387-414 | one message of the read loop does to the table what the protocol does to the stream |
| Agents.RemoteAgent.ProcessExited | remote/agent.go:516-533 | the exit is recorded and both directions end |
| Agents.RemoteAgent.Apply | remote/agent.go:237-262 | one answer of the welcome does to the stream what the protocol says |
| Agents.RemoteAgent.Welcome | remote/agent.go:235-273 | welcome does to every stream of the table what the protocol's step does to one |
| Handshakes.Handshake | remote/hub.go:264-341 | the exchange on the two real tables: same streams listed, each answered once, cursors at the peers' offsets, and every stream moved by the protocol's own steps |
| Handshakes.AnswersInOrder | remote/hub.go:264-327 | a welcome that follows the hello answers exactly what it lists |
| Glob.MatchesIsLaid | config/config.go:181-182 | filling in the stars is laying the literal pieces out in order |
| Glob.LeftmostSuffices | config/config.go:199-205 | taking each middle piece at its leftmost place loses no match |
| Glob.WildcardMatch | config/config.go:183-208 | yes exactly when each star can stand for some text |
| ToolRules.MatchRule | config/config.go:154-179 | a rule applies exactly when it names something and everything it names matches |
| ToolRules.MatchToolPermission | config/config.go:142-151 | the first rule that applies decides; none applies exactly when the answer is empty |
| Fragments.ResolveFragment | sandbox/bbwrap.go:100-136 | one walk over the shared visited map: what it adds, each name once, in which order, or a reachable undefined name |
| Fragments.Resolve | sandbox/bbwrap.go:100-136 | terminates on cycles, fails exactly when an undefined fragment is reachable, and otherwise collects each reachable fragment once |
| Fragments.WalkedFlattens | sandbox/bbwrap.go:100-136 | a walk from an empty map visits exactly what is reachable |
| Fragments.LastSetterWins | sandbox/bbwrap.go:81-96 | a variable has the value of the last fragment that sets it |
| Fragments.OwnVariablesWin | sandbox/bbwrap.go:118-135 | a fragment's own variables override what it inherits |
| Fragments.EntriesOf | sandbox/bbwrap.go:81-96 | the collected binds, device binds and environment entries are exactly those of the collected fragments |
| Fragments.InheritedComeFirst | sandbox/bbwrap.go:81-136 | in the merged lists a fragment's own entries come after those of what it extends, unless the two extend each other |
| Fragments.MergedTakePart | sandbox/bbwrap.go:29-48 | the fragments merged are exactly those reachable from the base or from a named profile |
| Fragments.MergedEntries | sandbox/bbwrap.go:29-48 | so the merge carries, of every kind of bind and of the environment entries, exactly those of the fragments that take part |
| Fragments.LastProfileWins | sandbox/bbwrap.go:81-96 | a variable has the value of the last of base and profiles that sets it, directly or by what it extends |
| Fragments.ResolveAll | sandbox/bbwrap.go:24-48 | the profile merge fails exactly when an undefined fragment takes part; otherwise it is the flattening of the base and then of each named profile, which fixes every entry, its place and every variable |
| EnvFilter.NewEnvMatcher | sandbox/env.go:90-104 | a name passes exactly when no entry denies it and a default or an entry grants it |
| EnvFilter.StarIsAnyRest | sandbox/env.go:120-128 | a trailing star stands for any rest, a pattern without one for itself |
| EnvFilter.AgreesWithGlobIff | sandbox/env.go:120-128 | this agrees with the matcher of the permission rules exactly on the patterns with no other star |
| EnvFilter.EntrySays | sandbox/env.go:86-104 | an entry with a leading minus denies, any other grants, a blank one does nothing, whatever space is around it |
| EnvFilter.BaselineIs | sandbox/env.go:16-56 | with no entries exactly the listed names and what begins with one of three prefixes pass |
| EnvFilter.SecretsKeptOut | sandbox/env.go:5-8 | so the variables of AWS and GitHub do not |
| EnvFilter.KeepsIff | sandbox/env.go:131-140 | an entry of the host is kept exactly when it is KEY=VALUE with a key that passes |
| EnvFilter.FilterEnv | sandbox/env.go:131-140 | keeps, in order, exactly the entries whose name passes |
| EnvFilter.FilteredIs | sandbox/env.go:131-140 | the filter keeps exactly the entries that pass and works piece by piece |
| EnvFilter.SandboxEnv | sandbox/bbwrap.go:29-48 | what a sandbox passes depends only on the set of entries its fragments carry; deny beats allow whatever the merge order |
| LineBuffers.SplitContinues | acp/helpers/line_buffer.go:59-101 | splitting a longer text only continues the last piece |
| LineBuffers.ProcessSplits | acp/helpers/line_buffer.go:59-101 | processing accepted output moves whole lines from the buffer to the display |
| LineBuffers.TimerKeeps | acp/helpers/line_buffer.go:104-127 | a timer flush shows the open line and changes no text |
| LineBuffers.TimerShows | acp/helpers/line_buffer.go:104-127 | an accepted timer flush shows the whole open line behind the done ones and leaves nothing to show |
| LineBuffers.StreamingRefinesSplit | acp/helpers/line_buffer.go:49-173 | for any cutting of a text into writes and any timer flushes, one flush later the display is the text split at newlines |
| LineBuffers.FlushEndsLine | acp/helpers/line_buffer.go:150-173 | Flush fails exactly when its output is refused, and one that showed something starts a new line |
| LineBuffers.RefusedFlushKeeps | acp/helpers/line_buffer.go:117-121 | a refused timer flush or Flush keeps the text for a retry |
| LineBuffers.RefusedLineIsLost | acp/helpers/line_buffer.go:76-83 | a refused line inside Write is lost, and what was shown of it is queued again |
| LineBuffers.ProcessKeepsIff | acp/helpers/line_buffer.go:59-101 | for any text: it is kept, as done lines and open text, exactly when no line of the call was refused, and a refusal loses exactly one line |
| LineBuffers.LineBuffer.constructor | acp/helpers/line_buffer.go:31-36 | a new buffer shows nothing |
| LineBuffers.LineBuffer.Output | acp/helpers/line_buffer.go:16-36 | an accepted line is appended, or replaces the one shown last |
| LineBuffers.LineBuffer.Write | acp/helpers/line_buffer.go:49-55 | computes the specified state |
| LineBuffers.LineBuffer.ProcessBuffer | acp/helpers/line_buffer.go:59-101 | the loop over the lines computes the specified state |
| LineBuffers.LineBuffer.TimerFlush | acp/helpers/line_buffer.go:104-127 | computes the specified state |
| LineBuffers.LineBuffer.Flush | acp/helpers/line_buffer.go:150-173 | computes the specified state |
| HookLists.ParseHookList | config/hooklist.go:56-91 | the two loops compute the parse, the first wrong entry deciding |
| HookLists.ParseParamList | config/hooklist.go:70-87 | the inner loop computes the parameters, a later key replacing an earlier one |
| HookLists.FormatHookList | config/hooklist.go:95-114 | whatever order the map is walked in, the text is a canonical print |
| HookLists.SortStrings | config/hooklist.go:106-106 | the keys, each once, in string order |
| HookLists.KeyOrderUnique | config/hooklist.go:93-94 | a map has one list of its keys in order |
| HookLists.PrintsOnce | config/hooklist.go:93-94 | a list has one canonical print |
| HookLists.ParseEntriesGood | config/hooklist.go:56-91 | what a parse gives holds no separator and no outer space, so it can be printed |
| HookLists.EntryParses | config/hooklist.go:56-91 | a printed entry parses to the same entry |
| HookLists.RoundTrip | config/hooklist.go:56-114 | whenever a list parses, its canonical print parses to the same configurations |
| Strings.TrimSpaceIs | config/hooklist.go:59-59 | trimming takes off all outer space and nothing else |
| Strings.AsciiSpaces | config/hooklist.go:59-59 | and of the ASCII characters exactly the six are space |
| HookLists.AddParamRefuses | config/hooklist.go:70-87 | a parameter is refused exactly when it has no key, with which error, and otherwise sets that key |
| HookLists.ParseEntryRefuses | config/hooklist.go:56-91 | an entry is refused exactly when its type is missing or a parameter of it has no key; the type is what stands before the colon |
| HookLists.FirstErrorDecides | config/hooklist.go:56-91 | a list that is refused gives the error of its first wrong entry |
| HookLists.ParseRefusesIff | config/hooklist.go:56-91 | a text is refused exactly when one of its entries is wrong |
| HookLists.LessEqIs | config/hooklist.go:106-106 | the string order: a start comes first, otherwise the first difference decides |
| MessageSplits.Progress | discord/output.go:58-108 | a round of the loop shortens what is left, or, exactly when that is a fence line and a line too long to cut, gives it back unchanged |
| MessageSplits.DivergesIff | discord/output.go:58-108 | the loop runs forever exactly when some round meets such a remainder |
| MessageSplits.ShortLinesFinish | discord/output.go:58-108 | with lines of at most 1991 characters it always ends |
| MessageSplits.LongerLineSticks | discord/output.go:58-108 | the bound is the best possible: one more character under a fence, and it never ends |
| MessageSplits.ChunksFit | discord/output.go:47-49 | every chunk is at most 2000 characters |
| MessageSplits.FencesOverNewline | discord/output.go:86-88 | a newline keeps fences apart, so they add up |
| MessageSplits.ChunksEven | discord/output.go:90-92 | every chunk but the last has an even number of fences |
| MessageSplits.LastParity | discord/output.go:102-107 | with short lines the last chunk has the parity of the message |
| MessageSplits.UnitedIsMessage | discord/output.go:47-49 | taking out the fences put in at the cuts and joining gives the message back |
| MessageSplits.ShortLinesCutAtNewlines | discord/output.go:70-82 | with short lines every cut is at a newline |
| MessageSplits.ReopenedIffInside | discord/output.go:47-49 | with short lines a cut closes and reopens a code block exactly when the message up to there is inside one |
| MessageSplits.Round | discord/output.go:59-107 | the loop body computes the chunk and what is left |
| MessageSplits.SplitMessage | discord/output.go:50-111 | the loop computes the chunks, for every message it ends on |
| MessageSplits.StripCodeBlockLanguage | discord/output.go:119-140 | the in-place edit of the lines changes the opening fence lines only, each to its backticks |
| MessageSplits.StripsOpeningFences | discord/output.go:119-140 | an opening fence line becomes the backticks it starts with; every other line stays as it was |
| MessageSplits.SameFenceLines | discord/output.go:113-118 | after it, the same lines open and close blocks |
| MessageSplits.StripTwice | discord/output.go:113-118 | a second pass changes nothing |
| Schedulers.Scheduler.constructor | router/scheduler.go:59-69 | nothing is running |
| Schedulers.Scheduler.TryStart | router/scheduler.go:178-186 | a job already running is skipped; otherwise it is marked |
| Schedulers.Scheduler.AcquireConversation | router/scheduler.go:255-283 | the kept-alive conversation exactly when the job reuses one that is active, else a new one |
| Schedulers.Scheduler.RunJob | router/scheduler.go:178-250 | run alone, the guard stays up exactly when the prompt was sent, and every failing path takes it down |
| Schedulers.Scheduler.Receive | router/scheduler.go:71-101 | the end of a turn or of the conversation releases the job it was prompted for, and closes the conversation unless the job reuses it; anything else changes nothing |
| Schedulers.OwnedKept | router/scheduler.go:255-283 | a conversation serves one job only, in every interleaving |
| Schedulers.GuardedKept | router/scheduler.go:46-48 | every step keeps each running mark backed by a call not handed off or an inflight conversation |
| Schedulers.GuardNeverLeaks | router/scheduler.go:46-48 | the guard is backed in every reachable state, double finishes, reuse and re-keyings included |
| Schedulers.TerminalEventFinishes | router/scheduler.go:78-101 | delivering a terminal event of an inflight conversation starts the finish of its job |
| SchedulerWedges.AllFollowedKept | router/scheduler.go:71-77 | every step but one kind keeps each inflight conversation followed: a call that will see how it ends, a prompt to be answered under its id, or a terminal event on its way |
| SchedulerWedges.RekeyingFollowedIff | router/router.go:779-802 | a re-keying leaves the conversation followed exactly when a terminal event is on its way or some call will notice the new id |
| SchedulerWedges.LosesTrackExactly | router/router.go:707-736 | of all steps exactly the re-keying that nothing will notice loses track of a run: while it waits for the handshake, is past it and has not read the id again, or has its prompt under way |
| SchedulerWedges.WedgedStays | router/scheduler.go:71-77 | a job nothing is left to release stays so under every step |
| SchedulerWedges.WedgedIff | router/scheduler.go:71-77 | a job is marked running in every future exactly when it is wedged |
| SchedulerWedges.NeverWedged | router/scheduler.go:71-77 | in every run without such a re-keying, every running job can still be released |
| SchedulerWedges.QuietMeansReleased | router/scheduler.go:71-77 | in every such run, once all calls, turns and events are over, no job is marked running |
| SchedulerOverlaps.NumberedKept | router/scheduler.go:197-253 | a run is one call, then at most one prompt, then at most one answer |
| SchedulerOverlaps.SingleKept | router/scheduler.go:46-47 | every step but a finish while a run is going on keeps a job to one run, from its start until its own prompt is answered, and marked while it has one |
| SchedulerOverlaps.FinishKeepsSingleIff | router/scheduler.go:288-292 | a finish keeps it exactly when no run of the job is going on |
| SchedulerOverlaps.OrderlyIff | router/scheduler.go:78-101 | exactly two steps endanger it: delivering a terminal event of the conversation while a run of the job is going on, and starting again while a finish of an earlier run is still to come |
| SchedulerOverlaps.EarlyIsAnothers | router/scheduler.go:81-100 | the event delivered too early is never the answer to the run's own prompt |
| SchedulerOverlaps.NeverOverlaps | router/scheduler.go:46-47 | in every run without such a step a job never has two runs going on, and is marked while it has one |
| SchedulerWitnesses.RestartWedges | router/router.go:779-802 | restarting the only conversation of a running job whose prompt is out stops the job for good |
| SchedulerWitnesses.EveryJobCanWedge | router/router.go:779-802 | every job can get there, in its first run |
| SchedulerWitnesses.WokenTooLate | router/router.go:727-734 | and in a second way: re-keyed between the end of the handshake and the second read of WaitReady, the prompt goes out under the new id and nobody follows it |
| SchedulerWitnesses.DoubleFinishHappens | router/scheduler.go:232-240 | a failed handshake is seen twice and finishes its run twice |
| SchedulerWitnesses.SecondFinishIsStale | router/scheduler.go:288-292 | a second finish of one run releases the next, and two runs overlap |
| SchedulerWitnesses.AnotherAnswerOverlaps | router/scheduler.go:81-100 | a run from the start in which the answer to a user's prompt releases a job that keeps its conversation, and two prompts of the job are then unanswered side by side |
| SchedulerWitnesses.LateWakeOverlaps | router/router.go:623-645 | a run from the start in which the handshake of a closed conversation ends late: the first run's call wakes, fails to send, and releases the second run while it goes on |
| SchedulerWitnesses.BesideIsEarly | router/scheduler.go:46-47 | the start of the second run beside the waiting call is that run's early step |
| Registries.KeyedKept | router/router.go:784-798 | each key stays the id its session carries, which it was registered under, and ids to be given out are new |
| Registries.InvKept | router/router.go:975-1078 | every step of Create, Restart, close, crash watch and shutdown keeps the registry's invariant |
| Registries.BackwardsAt | router/router.go:598-606 | cleanups run last first |
| RegistryRuns.KeysAreIds | router/router.go:62-67 | in every run a conversation is found under the id it carries |
| RegistryRuns.ClosedAtMostOnce | router/router.go:975-986 | in every run each registration of a conversation is told closed at most once, under the id it carries, and never while it is registered |
| RegistryRuns.ToldNoMoreThanRegistered | router/router.go:975-986 | so no id is told closed more often than sessions were registered that carry it |
| RegistryRuns.DistinctIff | router/adopt.go:177-181 | sessions keep distinct ids exactly until one is adopted under the id of one that ended on this server |
| RegistryRuns.ClosedOncePerId | router/router.go:975-1039 | in every run without such an adoption an id is told closed at most once and never while registered, and a watcher closes no session but its own |
| RegistryWitnesses.LateWatcherCloses | router/router.go:1023-1039 | a run with one: the late watcher of the first session closes the running second one, and its id is told closed twice |
| RegistryRuns.CleanupsOnceReversed | router/router.go:182-188 | in every run a session's cleanups run at most once, all of them, last first |
| RegistryRuns.CleanupsDone | router/router.go:987-1005 | and they have run once nothing is under way for a session that was closed or failed to start |
| RegistryRuns.ForceOnlyByForceClose | router/router.go:967-973 | with force only when ForceCloseConversation removed that very session |
| RegistryRuns.AttendedKept | router/router.go:1007-1016 | every step but one keeps a live session watched |
| RegistryRuns.RestartKeepsWatchIff | router/router.go:779-802 | a re-keying keeps every session watched exactly when its watcher is still waiting for the process |
| RegistryRuns.AlwaysAttended | router/router.go:1007-1016 | in every run without such a re-keying every live process is watched |
| RegistryRuns.WatcherFinalizes | router/router.go:1017-1039 | undisturbed, the watcher of a dead process closes its conversation in full |
| RegistryRuns.ZombieStays | router/router.go:1007-1016 | a dead process nobody watches stays registered until closed by hand |
| RegistryRuns.RestartStrands | router/router.go:1017-1039 | a restart between the watcher's look and its close leaves one |
| RegistryRuns.CrashLeftBehind | router/router.go:1007-1016 | a run from the start that does |
| Routers.SessionState.RunCleanups | router/router.go:182-188 | the first call runs every cleanup, last first; later calls run none |
| Routers.LastFirstAt | router/router.go:598-606 | the order the methods and the interleavings use is the same |
| Routers.Router.SetUp | router/router.go:261-274 | the cleanups of the hooks set up, in order, and whether one failed |
| Routers.Router.Create | router/router.go:225-403 | a Create that fails leaves no conversation, tells nobody of an end and undoes what its hooks set up, last first; one that succeeds registers the session with its cleanups in order |
| Routers.Router.Register | router/router.go:321-341 | a new session under an id nobody has |
| Routers.Router.RunningSessionsForDir | router/router.go:586-596 | the count of live conversations asked for in the directory on the location |
| Routers.Router.Restart | router/router.go:779-802 | the same session under a new id, nothing told and nothing torn down |
| Routers.Router.CloseConversation | router/router.go:987-1005 | removes, tells once, tears down once; nothing for an unknown id |
| Routers.Router.TryCloseConversation | router/router.go:950-965 | refused with the first veto, and then nothing is touched; otherwise an unforced close |
| Routers.Router.WatchProcess | router/router.go:1017-1039 | a conversation still registered is told closed once, with an error, and its cleanups run last first without force; otherwise nothing |
| Routers.Router.DetachRemote | router/router.go:1047-1060 | remote conversations are let go, nothing told |
| Routers.Router.CloseAll | router/router.go:1062-1077 | each conversation left is closed and told of exactly once, and none torn down with force |
| Routers.Router.Close | router/router.go:1047-1078 | shutdown: local conversations end, each told of once, none torn down with force; remote ones are untouched |
| Worktrees.WorktreeHook.SetupSession | hook/worktree.go:71-106 | a worktree exactly when the directory is a repository somebody works in; otherwise nothing changes |
| Worktrees.PathLies | hook/worktree.go:206-214 | a relative place lies under the repository, an absolute one does not depend on it, and no two sessions share a worktree |
| Worktrees.WorktreeHook.ResumeSession | hook/worktree.go:119-126 | the next server's hook stands where the old one stood |
| Worktrees.WorktreeHook.CanClose | hook/worktree.go:156-171 | a veto exactly when git reports changes |
| Worktrees.WorktreeHook.Teardown | hook/worktree.go:133-144 | the worktree goes exactly when git can remove it and the close is forced, it is clean, or git cannot tell; the branch and all others stay |
| Worktrees.UnforcedTeardown | hook/worktree.go:128-144 | uncommitted work is destroyed without the user saying so exactly when git could not be asked but could remove it |
| Worktrees.CreateIsolatesIff | hook/worktree.go:31-44 | a new session keeps those of its directory apart exactly when the hook finds a repository or nobody works in the directory itself |
| Worktrees.DirectoryIsOwnIff | hook/worktree.go:31-44 | a session works in the directory itself exactly when the hook finds no repository or nobody works there; otherwise in the worktree of its id |
| Worktrees.ElsewhereKeeps | router/router.go:580-585 | closes, crashes and re-keyings keep them apart |
| Worktrees.StayApart | hook/worktree.go:31-44 | over any run by these rules live sessions of a directory work in pairwise distinct directories |
| Worktrees.AdoptedStayApart | router/adopt.go:124-230 | sessions that worked apart do so under the next server, whichever are adopted |

## Left out

- The network and its framing below one message, TLS, secrets, pings and deadlines: a connection is a queue in each
  direction that may vanish with everything in it; a grace timer is a step that may happen.
- Order between different streams of one connection: each stream has queues of its own, and nothing relates two streams.
- Narrow windows inside `handle.finish`, `Hub.expire` and the waits of `handle.exited`: each is one step.
- A server shutting down detaches its remote conversations just before it goes, so Detach is part of the restart step.
- The handle and stream tables hold the buffers as values, not as shared objects; the buffers' own classes cover
  update in place.
- The stream report of a hello carries the bytes received so far as a history, where the program sends their count.
- Exactly-once finalizing of a stream that exited while no server was connected: the code repeats it when a welcome is
  lost.
- Streams closed while the agent was away and then handed to a restarted server, which knows nothing of the close.
- Inbufs.Inbuf.Read: the wait for bytes is a precondition, since a blocked reader is a step that has not happened.
- Conns.Conn.SendAcks: acks queued while the batch goes out wait for the next turn, as in the program, and are not part
  of one call.
- MessageSplits.SplitMessage: only on messages it ends on, which `GetsStuck` decides exactly.
- Strings are sequences of characters; the program's are bytes. Lengths in `MessageSplit.dfy` are counted in characters.
- HookLists.FormatHookList: configurations are values, so the nil map of the program is the empty one.
- ToolRules.MatchRule: lower-casing is any function.
- Schedulers.Scheduler.AcquireConversation: its look at the kept-alive conversation, the router's answer and the
  recording of a new one are one step; a shutdown of the router, which wakes every waiting call, is not modelled.
- Hooks that swallow a prompt: no hook of the program does.
- RegistryRuns.AlwaysAttended: until the server shuts down; watchers leave when the router's context ends
  (`router/router.go:1018-1022`), which no step models.
- Registry: two Creates counting the same directory at once; a Create counts and registers in one step.
- Router.Opts, Init, Send and the fan-out to subscribers: look-ups and calls with no state of their own. Finalize is one
  step that tells an id that is not registered; what it tells is not counted against a registration.
- SchedulerOverlaps.NeverOverlaps: for conversations this server has not taken back from a remote host; `Adopt` and
  `Finalize` are not among the scheduler's steps, so a job's conversation that was finished here and adopted again an
  hour later is not covered.
- SchedulerWedges.WedgedIff: the same.
- Routers.Router.Create: what the hooks, the process start and the first message come to are parameters; the sandbox is
  left out.
- Worktrees.WorktreeHook.SetupSession: git itself is a set of worktrees and branches, its answers are parameters, and
  the exclude file and notices are left out; so is the parsing of `git status --porcelain`.
- Bind mounts, files and the command line of the sandbox: the model follows fragments only up to their entries.
- The other outputs of `discord/output.go`, JSON messages, the ACP handshake's contents, the database, statistics, web
  handlers and all user interfaces.
