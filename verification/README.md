# tunnix, modelled and proved in Dafny

tunnix carries many TCP connections over one encrypted HTTP/SSE tunnel: the client
POSTs messages to the server, the server answers over one event stream, and a
`conn_id` says which connection a message belongs to. This project models the parts
of it that are hard to get right and proves what they promise. `dafny verify
dfyconfig.toml` checks everything.

**The half-close relay.** `ClientRelay` is one client relay: two halves joined by two
one-shot signals. `ServerRelay` is one server relay: a read task, a write task, the
two session entries that tie them together, and the `handle_send` arms that reach
them. Both are total step functions over an action type whose labels carry every
outcome the code does not control, so a list of actions is an interleaving and a
theorem about all lists is a theorem about all runs. `Tunnel` puts any number of such
pairs behind one SSE queue, one dispatch loop, one session id and one server process,
with stream replacement, failed and retried POSTs, server restarts and session
rotation as further actions. `TunnelInvariant` proves, action by action, what every
step keeps, `TunnelOrder` in what order events travel, and `TunnelSteps` what one
action can do to one connection. `TunnelIntegrity`, `TunnelIsolation`, `TunnelResets`,
`TunnelRelease` and `TunnelSilence` draw the end-to-end theorems from that;
`TunnelLoss`, `TunnelRetry`, `TunnelFate`, `TunnelHangs` and `TunnelTargets` show
exactly when they fail, by building the run that breaks them from every state in which
their condition does not hold; `TunnelExamples` holds such runs from the start. The imperative code is modelled
beside the transition systems and proved to be runs of them: the client's write half
(`ClientRelay.WriteHalf`) and read half, the server's two tasks (`ServerTasks`), the
session's maps (`Sessions`) and the client's dispatch table (`Dispatch`,
`DispatchSteps`).

**Signals, counters, time.** `Reconnect` has the single-permit reconnect signal, the
ready broadcast, the rotating session id and the drain under a read lock. `Streaks`
has the SSE watchdog and the reconnect budget, two counters of an unbroken run.
`Delivery` has the paced retry loop in milliseconds.

**The wire.** `Protocol` is the bincode codec of the thirteen messages, and `Wire`
the Base64, the SSE framing and the incremental parser over arbitrary chunks.

**Transfers and configuration.** `Archive` bridges byte streams and chunk channels,
`Transfer` has both sides of `push` and `pull`, and `Reload` has the two polling
config watchers.

## What turned out to be conditional

Where a stronger promise is false of the code, the model keeps the code, and the
project says when the promise holds and shows a run in which it does not.

- A send succeeds on enqueue, so a dropped or superseded stream can take undelivered
  events with it. Data: `System.lost` marks the responses this harms, by a guard on the
  state at the time: the app has heard no error and is still registered, the server
  is still streaming, and what is discarded holds data (`DiscardHarmsExactly`), or
  data is enqueued on a channel nobody reads and no data queued before it lies behind
  an error or a Reset (`SwallowHarmsExactly`). The guard is exact (`LossIsExact`): a
  connection is marked if and only if some continuation that discards nothing more of
  it ends in a clean end-of-stream on less than the target sent. For every other
  connection the response is intact (`ResponseIntegrity`).
- The end of a response: if the discarded events hold the `Close` or `Error` that was
  the last the server had to say, if that end is enqueued where nobody reads, or if its
  delivery is given up, the app waits for good, also on a healthy stream of a session
  the server knows (`DroppedCloseHangs`). These steps, and the loss of the Reset that a
  relay relies on, are the only ones that lead there, and each of them does
  (`SilenceIsExact`, `DroppedEndsHangExactly`, `SwallowedEndsHangExactly`). Without one
  of them nobody waits in vain (`NobodyWaitsInVain`); and a relay that waits can ever
  move again by itself if and only if its server relay can still say something or a
  Reset is to come (`FateIsExact`).
- A POST that failed after it was applied is sent again without deduplication. The
  target can then receive bytes that were never posted to it if and only if its writer
  is registered and the write task still there to write the second copy; only such a
  retry sets `Conn.resent` (`RetryIsSafeExactly`, `ResentPostDuplicates`).
- After a server restart, the Reset that tells the client to drop its old connections
  is queued on the first new stream only. A parked relay of the old server can ever
  move again by itself if and only if that Reset was not discarded unread
  (`OrphansAreReleasedExactly`, `StrandedForGood`, `LostResetStrands`).
- The config snapshot of a new stream is read before its session id, so the session is
  never stale but URL and headers can be (`ConfigIsCurrentUnlessRaced`,
  `RacedConfigIsOutdated`); the key is read anew for every message.
- A forced reconnect leaves the failure count alone even when its stream delivered
  data, against the comment at src/tunnel.rs:147-152 (`DataClearsUnlessForced`).
- A failed key derivation is tried again or never, depending on whether something else
  changed in the same reload (`FailedDerivationSticksExactly`); in the client's watcher
  a failed header build as well (`ClientFailureSticksExactly`).
- src/relay.rs:39-40 takes a server that reports an error to have released the target,
  and posts no Abort for it. That is so if and only if the read task sent the report or
  had left its loop before it (`ErrorReleasesExactly`): a target that refuses a write
  stays held until it ends by itself, the client is found gone or the process dies
  (`RefusedWriteHoldsTarget`, `TargetStaysHeld`). An Abort can still reach it exactly if
  a POST was under way in its session, and fails (`AbortReachesExactly`).
- The client's watcher starts out believing that the last headers were none: removing
  the startup headers takes effect only after some reload had headers
  (`HeadersConvergeExactly`), and a first reload that changes nothing can still rotate
  the session (`FirstReloadRotates`).
- The upload loop of `push` takes and forgets any `ExitStatus` it picks before it sees
  the end of the archive. A transfer that the server unpacked and confirmed is then
  reported as failed, if and only if the loop picked an event before that end
  (`ConfirmationIsLostExactly`, `UnpackedButFailed`).
- Otherwise a `push` reports what the unpacker said, whatever ended its input
  (`VerdictIsReported`): also on a prefix that the watchdog cut off. Only an input
  ended by the client's own `Close` is known to be whole (`Push`).

Elsewhere the code and its prose disagree, and the model follows the code.
wiki/architecture.md:81-86 describes an older relay that ends when either direction
does. wiki/hot-reload.md:37 says that a changed `client.server_url` needs a restart,
but src/reload.rs:291-295 applies it, also over a URL given on the command line; and
line 13 omits two reloaded fields. src/archive.rs:29 says that the reader takes an empty chunk
for the end, but lines 63-79 skip it.

## Model

| member | source | states |
|---|---|---|
| ClientRelay.ResetDecision | src/relay.rs:163-274 | for every order of events and upload reports: the write half that has left resets the socket if and only if the response was not closed and some input broke the connection with no Close before it; leaving without failure means response closed and upload ended; while it runs, nothing has broken the connection |
| ClientRelay.ClosedIsNeverReset | src/relay.rs:267-273 | once Close has been taken, no later error, channel drop, write failure or upload failure makes the socket reset |
| ClientRelay.WriteHalf.Handle | src/relay.rs:219-258 | each event's effect on the write half's variables is the transition system's, including a socket write that fails part-way |
| ClientRelay.WriteHalf.Run | src/relay.rs:158-274 | the loop is the fold of those steps; on leaving, reset iff broken before Close, and the stop signal is ServerReported exactly for the server's own Error and absent without failure |
| ClientRelay.RunReadHalf | src/relay.rs:73-156 | the read half's loop posts and reports what the transition system does; a reported failure always ends in Abort, and nothing but data is posted before the end |
| ClientRelay.RunKeepsInv | src/relay.rs:67-282 | posts, one-shots, both halves and the socket stay consistent in every interleaving |
| ClientRelay.TerminalReportIsUnique | src/relay.rs:114-154 | no message follows a terminal one, and a finished read half sent exactly one, unless a server Error had been taken |
| ClientRelay.SocketVerdict | src/relay.rs:276-313 | the socket ends only when both halves have; RST only after a failure without Close, FIN only after Close; the app's bytes are a prefix of the delivered data; the event queue is bounded |
| ClientRelay.QueuedCloseIsHonoured | src/relay.rs:176-216 | from every state the invariants allow: some run in which the app's socket takes what it is given ends in a reset, if and only if the response is not closed and no Close is queued behind data alone; neither an upload's end nor the loss of the channel passes it |
| ClientRelay.OwnMovesTerminate | src/relay.rs:75-282 | every move of the relay itself uses up a non-negative rank: with nothing new arriving it stops |
| ClientRelay.AfterExitEverythingTerminates | src/relay.rs:261-282 | once the write half has left, every action at all uses up rank |
| ClientRelay.FailedUploadTerminates | src/relay.rs:196-216 | once the read half has reported failure, the write half is ready or gone, and only newly delivered events can delay it |
| ClientRelay.CanMoveMoves | src/relay.rs:75-282 | the relay is called ready exactly when one of its own moves changes it |
| ClientRelay.ReportedAbortsExactly | src/relay.rs:117-146 | after the server's own report an Abort can still be posted if and only if a POST was under way, which has to fail |
| ClientRelay.ParkedIsHalfOpen | src/relay.rs:57-71 | the only states in which a live relay waits: queue drained and open, not failed, and either direction legitimately still open |
| ClientRelay.StopWinsTheNextPoll | src/relay.rs:76-90 | once the write half has left, the read half reads nothing more from the app and ends at its next poll |
| ServerRelay.RunKeepsInv | src/server.rs:607-825 | the response, upload and teardown invariants hold after every interleaving of both tasks and the handlers |
| ServerRelay.ResponseIsHonest | src/server.rs:643-749 | what was enqueued is a prefix of what the target sent, and Close was enqueued only if the target closed and all of it was |
| ServerRelay.UploadIsIntact | src/server.rs:775-805 | bytes written to the target are a prefix of the Data applied, and all of it when the write task ends because the client's Close dropped the writer; it ends drained only when no handler holds data for it, having written all that was applied unless some found no writer; the channel is bounded |
| ServerRelay.TeardownIsBounded | src/server.rs:710-822 | a finished read task with its writer still registered has enqueued Close and armed the write-side watchdog; on return neither session entry is left; until the read task has ended, a registered writer has a write task that reads it or is about to drop it |
| ServerRelay.AbortIsPermanent | src/server.rs:404-416 | an abort permit stays until the read task takes it or has left its loop |
| ServerRelay.AbortedReadIsSilent | src/server.rs:647-694 | an exit selected by the abort enqueues nothing and reads nothing more |
| ServerRelay.AbortReleasesTarget | src/server.rs:404-416 | after Abort, in every continuation, the permit is pending or the read loop has been left, and the writer never comes back |
| ServerRelay.ErrorReleasesExactly | src/relay.rs:39-40 | in every run an enqueued Error finds the writer gone for good; it finds the target's output let go of, and keeps it so, if and only if the read task sent it or had left its loop before |
| ServerRelay.OneTryForTheGone | src/server.rs:699-733 | the final Error of a relay whose client was found unreachable is given a single attempt, that of a failed target a full budget |
| ServerRelay.ReleasedRelayTerminates | src/server.rs:689-822 | once the read loop has been left and the writer dropped, every action uses up rank but late messages that change only their own bookkeeping |
| ServerRelay.ParkedIsHalfOpen | src/server.rs:643-812 | exactly when a server relay waits: an idle target with no abort pending, or a client that may still upload behind a delivered Close, with a watchdog running either way |
| ServerTasks.ReadTaskLoop | src/server.rs:624-750 | the read task's loop and its three endings are a run of the transition system; it leaves its writer registered only behind a delivered Close |
| ServerTasks.WriteTaskLoop | src/server.rs:754-806 | the write task, beside the Data, Close and Abort handlers and every turn of the read task, is a run of the transition system; the target gets a prefix of what the channel accepted, and exactly that when the channel drains, so what was applied before a Close that closed it |
| Sessions.Session.Connect | src/server.rs:348-357 | a fresh sender and a fresh abort signal without permit are registered, nothing else changes |
| Sessions.Session.HandleData | src/server.rs:382-397 | the data joins the registered writer's queue if the receiver is there and has or makes room, and otherwise is dropped; a full queue is waited on; the maps do not change |
| Sessions.Session.HandleClose | src/server.rs:398-403 | the writer goes, the abort signal stays, as the transition system says |
| Sessions.Session.HandleAbort | src/server.rs:404-416 | writer and signal go and a permit is left behind iff one was registered; no other signal fires |
| Sessions.Session.Cleanup | src/server.rs:814-822 | both entries of this conn_id go and no other |
| TunnelInvariant.NextKeepsInv | src/server.rs:643-806 | every action of the whole tunnel keeps: received, handed-off, in-air and queued events laid end to end are what the server enqueued, and the same for the upload's bytes |
| TunnelIntegrity.ResponseIntegrity | src/relay.rs:175-312 | in every run, for every connection no data of whose response was discarded while it was exposed: the app's bytes are a prefix of the target's, a clean end-of-stream means all of them and the target's own end, and a reset excludes one |
| TunnelLoss.LossIsExact | src/server.rs:1176-1206 | in every state the invariants allow and for every action: it marks an intact connection as lost if and only if some continuation that discards nothing more of it has the app see bytes that are not the target's, or a clean end-of-stream on less than the target sent |
| TunnelLoss.DiscardHarmsExactly | src/server.rs:201-224 | a dropped stream leads to that if and only if the connection is registered, live and has heard no error, its server is still streaming, and its share of the queue holds data |
| TunnelLoss.SwallowHarmsExactly | src/server.rs:1190-1195 | a chunk enqueued on a channel nobody reads leads to that if and only if the same holds and no data queued for the connection lies behind an error or a Reset |
| TunnelExamples.ReplacedStreamCanTruncate | src/server.rs:221-221 | a run in which a replaced stream ends in a clean end-of-stream on a truncated response |
| TunnelIntegrity.UploadIntegrity | src/relay.rs:91-128 | in every run that posts no bytes again that were still on their way: the target's bytes are a prefix of what the read half posted, all of it behind the client's own Close, also across a session rotation |
| TunnelRetry.RetryIsSafeExactly | src/tunnel.rs:386-421 | from every state the invariants allow and for every action: some continuation of the whole tunnel that sends nothing else twice gives the target bytes that are no prefix of those posted, if and only if the action is the first failure of a POST that had been applied to a registered writer whose task is still draining |
| TunnelExamples.ResentPostDuplicates | src/tunnel.rs:393-418 | a run in which the target receives the same bytes twice |
| TunnelOrder.DispatchKeepsOrder | src/tunnel.rs:474-525 | in every run: the events dispatched to a connection are part of those the server enqueued for it, in order and each at most once; its queue received a prefix of them, except that errors may have passed its handed-off Close; while its relay is registered and listening, all of them but what is in the air or handed off; every event received, errors included, was sent |
| TunnelIsolation.DispatchCanLand | src/tunnel.rs:483-494 | whatever the consumer does, the dispatch in the air has an end it can take now |
| TunnelIsolation.DispatchIsIsolated | src/tunnel.rs:474-525 | a dispatch changes no other connection and no queue; only a stalled event that is not Close costs a registration, its own |
| TunnelSilence.NobodyWaitsInVain | src/relay.rs:57-71 | in every run no step of which silences the connection: a relay that waits, with no event on its way, has told its app the end of the response or can still move again without an act of the app, a restart or a rotation |
| TunnelSilence.SilencedExactly | src/server.rs:694-749 | a step leaves nothing that could tell an app the end of its response, where something was left before, if and only if it drops or swallows the last end there was, gives up its delivery, or loses the session's only Reset |
| TunnelHangs.SilenceIsExact | src/server.rs:1176-1206 | from every state the invariants allow and for every action: some continuation without an act of the app, a restart, a rotation or a further loss leaves the app waiting for good, if and only if the action silences its connection |
| TunnelHangs.DroppedEndsHangExactly | src/server.rs:221-221 | a dropped stream leads to that, for a connection whose server has nothing more to say, if and only if it held its Close, an Error of its, or a Reset |
| TunnelHangs.SwallowedEndsHangExactly | src/server.rs:1190-1195 | the read task's end leads to that if and only if it goes to a channel nobody reads and the write task has no error to report |
| TunnelExamples.DroppedCloseHangs | src/server.rs:221-221 | a run in which a dropped Close leaves an app waiting for good on a healthy stream of a live server |
| TunnelIsolation.SupersededStreamIsDeaf | src/server.rs:201-224 | in every run, once the server has answered a GET the client gave up on, an attempt begun before the next stream reaches nobody |
| TunnelIsolation.EndedRelayIsForgotten | src/relay.rs:285-285 | in every run a relay whose socket has ended is out of the dispatch table: its queue is closed once nothing for it is in the air or handed off, and later events for it fall |
| TunnelIsolation.ResetReleasesEveryRelay | src/tunnel.rs:368-380 | after a Reset is dispatched every live relay can move or has a handed-off Close to come |
| TunnelRelease.RelayIsReleased | src/tunnel.rs:368-380 | from every state with a Reset to come, steps of the stream and the dispatch loop alone lead to one in which a given relay can move or has a handed-off Close |
| TunnelFate.StrandedForGood | src/server.rs:643-812 | a parked relay whose server relay is dead or has said all it can, with no event on its way and no Reset to come, stays so in every continuation without a restart, a rotation or an act of its app |
| TunnelFate.FateIsExact | src/relay.rs:57-71 | any parked relay can ever move again by itself if and only if its server relay can still say something, the server does not know its session, or a Reset is queued |
| TunnelFate.OrphansAreReleasedExactly | src/server.rs:226-239 | in every run, a parked relay of a dead server can if and only if the session's only Reset was not discarded unread |
| TunnelExamples.LostResetStrands | src/server.rs:206-224 | a run that ends with a relay stranded in that sense on a live stream |
| TunnelTargets.AbortReachesExactly | src/relay.rs:117-146 | after the server's own report an Abort can ever reach a target that is still being read if and only if a POST was under way in the session the target belongs to |
| TunnelTargets.TargetStaysHeld | src/server.rs:643-694 | where none can, the target is held in every continuation until its own end or failure, a failed delivery, the watchdog or the end of the process |
| TunnelTargets.ClosedUploadCompletes | src/server.rs:398-403 | from every state the invariants allow, an upload that its app has closed, while open at both ends, can complete by its Close and its write task alone: every posted byte is written and the write task ends drained |
| TunnelExamples.RefusedWriteHoldsTarget | src/server.rs:790-804 | a run in which the report of a refused write ends the client's relay while the server holds an idle target with no move left |
| Dispatch.DispatchTable.DispatchEvent | src/tunnel.rs:474-525 | the event's fate by registration, receiver, room and wait; it waits only on a live, full consumer, and for the whole stall timeout if it hands off or evicts; queued at the end of its own queue or not at all; no other queue or registration changes |
| DispatchSteps.FateIsTheStep | src/tunnel.rs:486-524 | however the wait for the consumer went, of the three ways a dispatch can end in the tunnel the table's fate names the only one allowed, with its effect on the connection |
| DispatchSteps.IgnoredIsSkipped | src/tunnel.rs:477-481 | an event is ignored by the table exactly when the tunnel lets it fall, changing no connection |
| Reconnect.SignalsAreNeverLost | src/tunnel.rs:407-414 | in every interleaving of the loop, any number of senders and the watcher: a sender that has fired and is not woken coexists with a ready signal still to come, and a stream for a rotated session with a permit or an unfinished rotation |
| Reconnect.DrainIsSafe | src/tunnel.rs:229-248 | the drain runs for the current session id, which cannot change under it, and leaves a stream that still owes its ready signal |
| Reconnect.ReadyWakesAll | src/tunnel.rs:306-316 | the next ready signal wakes every registered sender; a keepalive is enough on a reconnect |
| Reconnect.StreamSignalsExactly | src/tunnel.rs:306-316 | in every run, a stream that is still read has signalled ready if and only if it has seen a data frame or, any stream having been tried before, any frame |
| Reconnect.FirstReadyIsData | src/tunnel.rs:140-145 | until the loop has come back once, no ready signal is given before a data frame |
| Reconnect.WokenExactly | src/tunnel.rs:306-316 | a sender that has not left is woken if and only if a ready signal was given since its POST failed |
| Reconnect.OnlyNewSignalsForce | src/tunnel.rs:229-248 | a stream is forced down only by a signal fired since its drain, and each forces one down |
| Reconnect.LoopReopens | src/tunnel.rs:146-194 | however a stream ends, the loop alone opens another, for the current session, a reconnect that owes its signal |
| Reconnect.EveryWaiterCanBeWoken | src/tunnel.rs:139-248 | from every state the invariant allows, the loop alone, its GET and one frame succeeding, wakes a given waiter |
| Reconnect.ConfigIsCurrentUnlessRaced | src/tunnel.rs:211-212 | a stream's config is current or about to be replaced unless its snapshot was older than its session id's config |
| Reconnect.AloneIsNotRaced | src/tunnel.rs:211-213 | without the watcher in between, snapshot and session id are current and the stream is not raced |
| Reconnect.RacedConfigIsOutdated | src/tunnel.rs:211-248 | with the watcher idle, the stream opened next keeps an outdated config if and only if it was raced |
| Reconnect.RaceIsReachable | src/reload.rs:312-321 | that race can happen |
| Streaks.StreakIsTheRun | src/server.rs:1112-1129 | the counter is at least n if and only if the last n counted observations were all hits |
| Streaks.StretchesNeverAddUp | src/server.rs:1122-1126 | what came before a miss adds nothing to what comes after |
| Streaks.AwaitSseDead | src/server.rs:1112-1129 | fires at the first tick at which the trailing run of closed observations, contended ticks erased, reaches the grace, and at no other |
| Streaks.ReconnectLoop | src/tunnel.rs:146-194 | gives up at the first run of max counted attempts without a byte and never for max 0; sleeps once per counted attempt, the short time exactly behind a clean end |
| Streaks.TicksCount | src/server.rs:1112-1129 | an open stream clears the watchdog's count, a closed one adds a second, a contended session leaves it alone |
| Streaks.StreamsCount | src/tunnel.rs:155-170 | a forced reconnect leaves the failure count alone; otherwise a stream clears it or adds one, according to whether it delivered anything |
| Streaks.DataClearsUnlessForced | src/tunnel.rs:159-170 | a stream with data clears the count if and only if it did not end in a forced reconnect |
| Delivery.SendWithAttempts | src/server.rs:1163-1206 | succeeds exactly when the message can be encoded and some attempt would be accepted, at the first such; then one enqueue, otherwise none; and when it returns |
| Delivery.FullBudget | src/server.rs:1151-1161 | the 50th attempt starts at 29.4 s or later whatever the lock does; an all-failing call lasts that long, and with no lock delay at most 29.9 s |
| Delivery.RecoveringClientIsReached | src/server.rs:1131-1206 | a channel that accepts from some instant no later than 29.4 s gets the message |
| Delivery.OneStallIsSurvived | src/tunnel.rs:34-52 | one full dispatch stall beginning in the first 14.4 s does not exhaust the budget |
| Delivery.BudgetIsExact | src/server.rs:1163-1206 | with the lock free, a full queue is outlasted if and only if it opens before 29.9 s |
| Protocol.DecodeIsExact | src/protocol.rs:101-111 | bytes decode to a message and a rest if and only if they are its encoding followed by that rest, for all thirteen variants |
| Protocol.EncodingsArePrefixFree | src/protocol.rs:101-111 | no message's encoding begins another's |
| Protocol.VariantsAreNumbered | src/protocol.rs:6-98 | the first four bytes are the variant's number in order of declaration, and tell which variant it is |
| Protocol.SampleEncodings | src/protocol.rs:101-103 | the bytes of sample messages: field order, widths, signs and option tags |
| Protocol.OldPeerRejectsOnlyAbort | src/protocol.rs:93-98 | a decoder without the last variant agrees on all bytes except that it rejects Abort |
| Wire.Base64Round | src/server.rs:255-257 | decoding inverts encoding, and encoded text holds nothing a line splitter or trimmer would touch |
| Wire.Base64IsExact | src/tunnel.rs:293-304 | decoding accepts a text if and only if it is an encoding, and yields what it encodes |
| Wire.DigitsAreTheAlphabet | src/server.rs:255-257 | the sixty-four digits are those of RFC 4648 |
| Wire.LinePayloadIsExact | src/tunnel.rs:290-304 | a line hands over a payload if and only if it is a data field whose trimmed value is that payload's encoding |
| Wire.TrimIsExact | src/tunnel.rs:293-293 | trimming takes off white space at both ends, and all of it |
| Wire.LineBreaks | src/tunnel.rs:291-291 | lines end at a newline or a carriage return and newline; the last may lack one |
| Wire.ParseAppend | src/tunnel.rs:285-317 | parsing the remainder plus the next chunk equals parsing everything at once, for every cut |
| Wire.SseReader.HandleEvent | src/tunnel.rs:288-305 | one event hands over exactly its decodable data lines, in order |
| Wire.SseReader.Feed | src/tunnel.rs:285-317 | after any chunk, everything complete has been handed over, the buffer holds no delimiter, and the ready signal has fired exactly when it is due |
| Wire.ReadStream | src/tunnel.rs:250-324 | the whole loop over any chunking yields what parsing the joined text does |
| Wire.WireRoundTrip | src/tunnel.rs:285-347 | any messages with any keepalives, encrypted, framed, cut anywhere, parsed, decrypted and decoded, come back exactly and in order; a cut-off stream gives a prefix |
| Archive.ChannelWriter.Write | src/archive.rs:27-40 | a non-empty buffer becomes one chunk or an error when nobody receives; an empty one is never sent |
| Archive.ChannelReader.Read | src/archive.rs:56-81 | fills a prefix of the buffer with the next pending bytes and leaves the rest of it; 0 for a non-empty buffer if and only if nothing is pending |
| Archive.ReadAll | src/archive.rs:56-81 | any buffer sizes read a prefix, everything when the end is signalled, and enough real buffers reach the end |
| Archive.Bridge | src/archive.rs:27-81 | writer and reader together lose, repeat and reorder nothing |
| Transfer.UploadArchive | src/transfer.rs:58-85 | the loop posts, takes events and ends as its specification on the chunks, turns and events still to come |
| Transfer.UploadIsExact | src/transfer.rs:58-81 | that goes through if and only if the compressor succeeded, every POST before the turn that sees the archive's end went through, and none of the events picked before that turn ends it; then everything was posted; what was posted is always a prefix |
| Transfer.AwaitConfirmation | src/transfer.rs:88-99 | success exactly when the first remaining event that is not data is Exit(0) |
| Transfer.ConfirmsExactly | src/transfer.rs:88-99 | that is: some Exit(0) stands behind data alone |
| Transfer.PushSession | src/transfer.rs:41-100 | for all inputs: success if and only if the announcement was accepted, the upload goes through in that sense, and of the events from the number picked before the archive's end on, the first that is not data is Exit(0) |
| Transfer.ConfirmationIsLostExactly | src/transfer.rs:67-75 | with every POST through and the server having unpacked and confirmed, success is reported if and only if no event was picked before the archive's end |
| Transfer.VerdictIsReported | src/server.rs:1276-1318 | with no event picked early, success is reported if and only if the unpacker accepted what it was fed, whatever ended its input |
| Transfer.UnpackedButFailed | src/transfer.rs:67-75 | a run of both sides in which one chunk is unpacked in full and confirmed, and the client reports failure |
| Transfer.RelayPush | src/server.rs:1263-1319 | the unpacker is fed the data that arrives until the client's Close, the watchdog or its own end; the verdict is the unpacker's on exactly that; Exit(0) and then Close follow a good one, Error a bad one |
| Transfer.TakenInExactly | src/server.rs:1276-1302 | the unpacker's input runs on exactly while nothing but data comes, and ends by the first thing that is none |
| Transfer.FedIsPosted | src/server.rs:382-403 | what the unpacker is fed is a prefix of what was posted, and all of it when the client's Close ends its input |
| Transfer.Push | src/transfer.rs:41-100 | success means that the whole archive was compressed and posted and that the unpacker accepted what it was fed: all of it when the client's Close ended its input, otherwise a prefix on which it ended by itself or was cut off by the watchdog |
| Transfer.RelayPull | src/server.rs:1210-1259 | all the chunks, then Exit(0) and Close after a good compression and Error after a failed one, up to the first delivery that fails: with every delivery good, all of it |
| Transfer.PullSession | src/transfer.rs:117-176 | the unpacker is fed the data before the first event that is none or that it does not take; success if and only if accepted, unpacked, and that event is Exit(0) or such data |
| Transfer.Pull | src/transfer.rs:117-176 | success if and only if accepted and unpacked, and either everything was compressed, sent, delivered past the last chunk and taken, or the unpacker left at a chunk that was delivered to it; in the first case it was fed the whole archive, in the second a prefix |
| Reload.SettledFileIsReloaded | src/reload.rs:65-106 | a changed file with distinct mtimes that has settled in a parsable state is what was reloaded last, however the ticks fell among earlier versions, deletions and parse failures |
| Reload.SettledFileIsReloadedOnce | src/reload.rs:82-106 | a further look at a settled file that was reloaded reloads nothing |
| Reload.ServerWatcher.Tick | src/reload.rs:65-185 | one tick reloads what it noticed, if anything, and keeps everything otherwise |
| Reload.ServerPublishesTheLastReload | src/reload.rs:106-184 | over any reloads: overridden fields never move, the others are the last reload's, the key is the startup one or the latest non-empty password's |
| Reload.ServerFieldsFollowTheFile | src/reload.rs:139-173 | field by field: an overridden one is startup's, every other the last reload's, and the path prefix the longest prefix of the file's that does not end in a slash |
| Reload.SameContentIsStable | src/reload.rs:111-173 | the same content reloaded again, nothing having failed, changes nothing and derives no key |
| Reload.ServerConverges | src/reload.rs:53-186 | the settled file is what the server publishes |
| Reload.FailedDerivationSticksExactly | src/reload.rs:111-173 | after a failed derivation some number of reloads of the same file content can yet derive its key if and only if nothing else changed with it |
| Reload.ClientWatcher.Tick | src/reload.rs:204-323 | one tick reloads what it noticed and rotates the session exactly when something changed |
| Reload.ClientPublishesUrlAndKey | src/reload.rs:245-312 | over any reloads the URL is the last reload's and the key as on the server |
| Reload.ClientPublishesHeaders | src/reload.rs:275-302 | over any reloads the headers are the last reload's once some reload had any, and the startup ones until then |
| Reload.HeadersConvergeExactly | src/reload.rs:200-202 | the published headers are the file's if and only if some reload had headers or startup had none |
| Reload.ClientFailureSticksExactly | src/reload.rs:251-302 | for the client: after a failed derivation, if and only if neither URL nor headers were applied with it; after a failed header build, if and only if neither URL nor key were |
| Reload.SameContentIsQuiet | src/reload.rs:251-323 | the same content reloaded again, nothing having failed, changes nothing and rotates nothing |
| Reload.RotatesExactly | src/reload.rs:251-323 | a reload that publishes anything new rotates; one that rotates changed the URL or derived or built anew for a changed password or headers; one that does not changes nothing |
| Reload.FirstReloadRotates | src/reload.rs:200-202 | a first reload that says what startup said rotates the session exactly when it names a password or headers that are not overridden |

## Left out

- Sockets, hyper, reqwest, TLS, tracing, process exit and the command line: a socket is a byte sequence whose outcomes are parameters of the actions.
- ChaCha20-Poly1305 and Argon2 (src/crypto.rs): an abstract pair of functions with decryption inverting encryption; a key is named by its password. Both ends are taken to hold the same key, so a message that does not decrypt (answered 200 and dropped, src/server.rs:302-308) does not occur in the tunnel model.
- tar, zstd and the filesystem: the compressor is a list of chunks and a verdict, the unpacker a consumer that may stop early with either verdict.
- PTYs and remote exec (src/exec.rs, `relay_pty_connection`): foreign calls and raw descriptors; what they share with the TCP relay is modelled there.
- SOCKS5 and HTTP proxy parsing, and Connect itself: straight-line code. A connection of the model starts with both relays running; a Connect that fails leaves no relay.
- Non-ASCII SSE text and the wrap-around of `conn_id` after 2^32 connections: frames are ASCII, ids unique, session ids never drawn twice.
- Panics of a relay's own tasks, and `reunite` or `set_zero_linger` failing (src/relay.rs:295-312): taken not to happen.
- Fairness: the server's selects are unbiased, so termination is stated as a rank that every move uses up and as the exact set of waiting states, not as "eventually".
- The 1024-message bound of the SSE channel: the model's one queue stands for channel, socket and parse buffer together; an attempt that finds the channel full is one that fails.
- A Data handler that outlives its failed POST, and two handlers of one connection at once: a POST that fails while its handler waits cancels the handler.
- The text of error messages and the details of logging.
- TunnelSilence.NobodyWaitsInVain: is about the end of the response. Behind it, the loss of a late Error about the upload leaves an app that goes on sending untold; how long it does is not followed.
- Transfer.Pull: takes the server's events to arrive as a prefix of what was sent. The tunnel model has TCP relays only; for those `TunnelOrder.DispatchKeepsOrder` and `TunnelIntegrity.ResponseIntegrity` say when events arrive so.
- Transfer.Push: takes the same of the server's events, and the Data and Close that arrive to be a part of what was posted, in order, each once.
- Reload.SettledFileIsReloaded: needs distinct modification times; an edit that keeps the mtime is invisible to the watcher.
