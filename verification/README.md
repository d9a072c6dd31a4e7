# Verified model of the stdio backend protocol and its bounded browser actions

This Dafny project models the concurrent core of the repository and proves what it
promises. Verify it with `dafny verify dfyconfig.toml` in this directory (Dafny 4.11).

**The protocol, both ends.** `Transport.dfy` states `StdioBackendTransport` as a stepped
system: a step is one synchronous run up to the next await, and steps interleave
arbitrarily, except that timers and I/O wait for a handshake continuation that is due,
because microtasks drain first. Timers are steps that may happen at any time, promise
chains are queues, and a rejected caller's cleanup belongs to the step that rejects it.
`StdioServer.dfy` does the same for `runBackendStdioServer`. `TransportInvariant.dfy`,
`Progress.dfy`, `TransportTheorems.dfy`, `Liveness.dfy` and `Settling.dfy` prove what holds
over every run of the transport against an arbitrary backend. `Steadiness.dfy` is the part
that every step has in common; on it rest `Handshakes.dfy`, what the handshake's state has
to do with what the backend answered, `OneAtATime.dfy` with `SecondLine.dfy`, how far a
backend that serves one call at a time is spared a second, and `Quarantine.dfy`, what
becomes of frames nobody asked for. `Custody.dfy`,
`Correlation.dfy` and `FreshIds.dfy` put the transport and every server it spawns together,
and `StaleWrites.dfy`, `Misrouting.dfy` and `LostAnswers.dfy` show the one way in which
that fails. The step functions specify the objects: `StdioBackendTransport.dfy` (with
`RoutingTables.dfy` and `WriteBudget.dfy`) and `BackendStdioServer.dfy` are classes whose
methods update fields in place and are proved to take exactly those steps.

**The pieces underneath.** `Ndjson.dfy`: both line readers against one specification, the
server's with its growing array. `BoundedQueue.dfy`, `AsyncQueue.dfy`: the bounded queue as
a value and as an object with waiting calls. `StreamDelivery.dfy`: two queues, the pump
between them and the `completed` promise. `Json.dfy`, `Negotiation.dfy`,
`NegotiationTheorems.dfy`, `Acceptance.dfy`, `HelloExchange.dfy`: capability negotiation at
both ends.

**Bounded browser actions.** `Slider.dfy`, `Evidence.dfy`, `GreedyMatching.dfy`,
`Attachment.dfy`, `Probe.dfy` and `WaitLoop.dfy` run the code's own control flow against a
page that answers in any way it likes, as a function of everything done so far.

## What the code does not do

- An id reused across a recycle can be misrouted. A line queued for a retired child fails
  later, with an error that counts as "never sent"; its handler
  (`packages/node/src/backend/client.ts:886-891`) finds its route by id. If a route of the
  same kind is pending under that id by then, which is a hit, that route is rejected without
  a tombstone and its id is freed while the current child still owes the answer. In every
  run without a hit each frame reaches its own route
  (`Correlation.FramesReachTheirOwnRoute`). With one, whatever the child still says under the
  id is delivered to nobody until the id is opened again (`LostAnswers.LateAnswersAreLost`;
  for the next frame, `Misrouting.HitLosesTheAnswer`), and after that it goes to the later
  call: `Misrouting.ReusedIdIsMisrouted` is such a run, of client and servers together.
  Callers that reuse no id still carried by such a line never meet a hit
  (`Correlation.PrudentRunsNeverHit`); the library's own client numbers its ids afresh
  (`packages/node/src/backend/client.ts:244-250`) and is not exposed
  (`FreshIds.FreshRunsAreCorrect`).
- Single-flight keeps a second caller from becoming pending, not a second line from the
  backend. A caller can be let go while the backend is at its line, and the slot moves on:
  `cancel` recycles the child only for a write that is still under way
  (`packages/node/src/backend/client.ts:629-643`), so not once the line's stdin callback has
  come; the same holds of a failing callback and of a stream's overflow.
  `SecondLine.SecondLineIsWritten` is such a run; `OneAtATime.LettingGoExactly` says which
  steps these are, and without them there is never more than one line
  (`OneAtATime.OneLineAtATime`).
- The attachment baseline squeezes and trims labels
  (`packages/node/src/commands/files.ts:606-613`), the readiness check compares them as
  they stand (`packages/node/src/commands/files.ts:760-764`). A chip that was there all
  along and has no `aria-label` or title therefore counts as new evidence for a file of its
  name: `Evidence.StaleChipIsTakenForNew`. No later page can be misjudged so if and only if
  every label of the baseline is written without surplus white space:
  `Evidence.RecordedJudgesExactly`.
- If the baseline cannot be read, an empty one is used
  (`packages/node/src/commands/files.ts:235-246`), and the check of the input's entries does
  not ask whether it was (`packages/node/src/commands/files.ts:767-770`). An entry that was
  in the input all along then counts as new: `Attachment.UnreadEntryIsTakenForNew`. It
  cannot happen if and only if the input was empty (`Evidence.EmptyJudgesExactly`);
  `Attachment.BaselineJudgesExactly` is the condition for both ways of misjudging a page.
- Evidence for several files is matched greedily, in their order. If a chip that shows the
  first file's name shows the second's too, the first may take it and leave the second
  without: `GreedyMatching.SecondIsMissed`. Every page with evidence for all the files is
  found to have it if and only if every name occurs in those before it
  (`GreedyMatching.FoundExactly`).
- The frame limit is documented as excluding the LF
  (`packages/node/src/backend/protocol.ts:8`); both readers and the server's writer keep to
  that, the client's writer counts the LF (`packages/node/src/backend/client.ts:925-937`).
  It refuses every frame that fills the limit, although the readers would take it
  (`Ndjson.FullFrameIsRefused`), and differs on no other (`Ndjson.ClientMissesTheLimit`).
- A deprecated tab alias that is declined without any of its primary fields is granted
  nevertheless if the base has what it stands for (`NegotiationTheorems.DeclinedAliasIsGranted`),
  and only then (`NegotiationTheorems.AliasesServedExactly`); this backend's base never
  does (`HelloExchange.OwnHelloServesAliases`).
- The slider search returns the first match only if every position below it can be read;
  an unreadable position ends it (`Slider.ExpectedIsFirstMatch`).

## Model

The claims come first, by subject. The last rows, from `Request` on, are the methods of the
objects: they take the steps the claims are about. Each changes the object's fields in place,
ends in exactly the state of the specified step, and keeps the object valid.

| member | source | states |
|---|---|---|
| Correlation.FramesReachTheirOwnRoute | packages/node/src/backend/client.ts:724-740 | Over every interleaving of calls, cancels, deadlines, write completions, server tasks, deliveries and child exits, a frame given to a route answers the very line that route wrote, to the same child generation, and an honest backend never causes a quarantine; in every run in which no drained line of a retired child finds a route of its own kind pending under its id |
| Correlation.PrudentRunsNeverHit | packages/node/src/backend/client.ts:877-917 | Callers that never reuse an id still carried by an unstarted line of a retired child meet that condition throughout every run |
| Correlation.OwedIdIsBlocked | packages/node/src/backend/client.ts:1323-1469 | In every run without a hit, as long as the current child still owes a frame for a line, whether unread, in a task or unread by the client, that line's id is held for that very line and cannot be admitted |
| FreshIds.FreshRunsAreCorrect | packages/node/src/backend/client.ts:244-250 | In every run in which each call is opened under an id no call has used before, as the library's own client does, nothing is hit and every frame reaches its own route |
| Correlation.SystemNextKeeps | packages/node/src/backend/client.ts:1115-1196 | The client with all its children, old ones still running: every step that is no hit keeps the invariant that every line a server has yet to answer is held by the client, by its route or by a tombstone; prudence of the callers is kept as well |
| StaleWrites.StaleFailureExactly | packages/node/src/backend/client.ts:877-917 | Draining a retired child's unstarted line keeps every held id held if and only if no route of that line's kind is pending under its id: the guard of the failure handler, which looks its route up by id |
| Misrouting.HitLosesTheAnswer | packages/node/src/backend/client.ts:877-917 | For every system the invariant allows: after a hit on the route whose answer is the current child's next unread frame, reading that frame delivers it to nobody, and quarantines the transport or takes the child down |
| LostAnswers.LateAnswersAreLost | packages/node/src/backend/client.ts:877-917 | The same of every later frame under a caller's id: in every run of client and servers after the hit that does not open the id again, however long and under whatever steps, a frame of the current child under it is delivered to nobody, and quarantines the transport or takes the child down |
| Misrouting.ReusedIdIsMisrouted | packages/node/src/backend/client.ts:1000-1035 | A concrete run of client and servers together, without a hit up to its one bad step: the second child's own server answers line 3, and that answer is delivered to the route of line 4, which has not been written |
| Custody.NextCustody | packages/node/src/backend/client.ts:1323-1376 | Every step that reads no frame and is no hit leaves each held id held by the same write while the child stays, and admits no id that is held |
| Custody.ResponseCustody | packages/node/src/backend/client.ts:1115-1147 | A response for a held id is consumed by the route or the unary tombstone that holds it, which is then the only holding given up |
| Custody.EventCustody | packages/node/src/backend/client.ts:1149-1196 | An event for a held id is consumed by the stream or the stream tombstone that holds it; only a terminal event, or an overflow that leaves a tombstone, ends the holding |
| Wire.ValidTextIsTrimmed | packages/node/src/backend/protocol.ts:297-303 | An id is valid if and only if it says something, is not too long, is what is left of it when it is trimmed, and has no control character |
| TransportTheorems.RoutesArePartitioned | packages/node/src/backend/client.ts:464-478 | An admitted id is in exactly one of the four tables, and in one of the two id sets; control ids are the transport's own active ids; a tombstoned id is in none |
| TransportTheorems.AdmissionIsBounded | packages/node/src/backend/client.ts:1378-1397 | Waiting and active routes never exceed maxInFlight, callers never exceed maxInFlight - 1 while the handshake is unknown, and tombstones and quarantined ids stay within their limits |
| TransportTheorems.HandshakeIsNeverCrowdedOut | packages/node/src/backend/client.ts:742-871 | However many callers race, there is room for the hello and for each legacy probe, and its minted id is free unless the transport is closed or quarantined |
| TransportTheorems.EveryCallSettlesOnce | packages/node/src/backend/client.ts:505-616 | A call is in a table if and only if it has no outcome yet, and an outcome is final over every continuation |
| TransportTheorems.TeardownSettlesEveryone | packages/node/src/backend/client.ts:1198-1220 | terminate, process failure and close give every route its outcome and empty every routing table, and refund no unfinished write |
| TransportTheorems.WritesAreAccounted | packages/node/src/backend/client.ts:919-998 | Queue count and bytes equal the number and the byte sum of the unfinished writes, within both limits; these span at most two child generations, and the current chain holds only the current child's |
| TransportTheorems.RecycleBlockIsTemporary | packages/node/src/backend/client.ts:1000-1035 | While recycling is blocked some write step is due, every write step strictly drains the unfinished writes, and when they are drained it is not blocked |
| TransportTheorems.NegotiationPrecedesWork | packages/node/src/backend/client.ts:742-871 | No child is handed a caller's line, and no caller's route is pending, before that child's own hello or both legacy probes succeeded |
| TransportTheorems.BlockedIsFinal | packages/node/src/backend/client.ts:814-826 | Once a hello is rejected every step leaves the transport blocked, without a child, a pending route, a further spawn or a further line |
| TransportTheorems.BlockedForever | packages/node/src/backend/client.ts:814-826 | The same over every run from a blocked state |
| TransportTheorems.BlockedRequestsFail | packages/node/src/backend/client.ts:742-757 | A request to a blocked transport is refused, or opened and settled at once, and changes nothing else |
| TransportTheorems.SingleFlightIsExclusive | packages/node/src/backend/client.ts:1271-1285 | In single-flight or legacy mode at most one caller's route is pending |
| TransportTheorems.SlotIsFifo | packages/node/src/backend/client.ts:1271-1285 | When a call comes to hold the slot, every call that acquired it before has been settled, over every run between the two moments |
| Handshakes.HandshakeIsWhatItHeard | packages/node/src/backend/client.ts:789-871 | Over every run, with a history of the answers to the transport's own probes since its last hello: while the child lives, ready means that this very child accepted the hello and offered multiplexing, single-flight that it accepted without, and legacy that it did not know the hello and answered both probes compatibly |
| Handshakes.UnlessMultiplexedOneCaller | packages/node/src/backend/client.ts:742-871 | In every reachable state whose child has not itself accepted the hello with multiplexing at most one caller's route is pending |
| Handshakes.OutcomeIsWhatItHeard | packages/node/src/backend/client.ts:789-871 | Once an answer is in, the continuation goes to ready, single-flight, legacy or blocked if and only if the answers come to that, and otherwise gives up or asks the next probe; only a quarantine that has lost its callers recycles instead |
| OneAtATime.OneLineAtATime | packages/node/src/backend/client.ts:1271-1285 | A child that has not offered multiplexing is never at work on two callers' lines, in every run in which no caller is let go while the child is at its line |
| OneAtATime.LettingGoExactly | packages/node/src/backend/client.ts:618-645 | In single-flight and legacy mode, while the child stays, a caller waits for every line the child is at after a step if and only if the step lets nobody go: it is no cancel and no plain deadline of a line whose callback has come, no failing callback, no overflow, and no stale line that takes another call's place |
| OneAtATime.NextAwaited | packages/node/src/backend/client.ts:1243-1269 | In every mode and for every step: whoever is let go otherwise is answered, was not at work, or takes the child along |
| OneAtATime.GoesAlone | packages/node/src/backend/client.ts:1243-1269 | A call whose line is not being written goes alone when it is cancelled, or times out without the slot: the child stays, as long as there is room for its tombstone and no quarantine |
| SecondLine.SecondLineIsWritten | packages/node/src/backend/client.ts:618-645 | A concrete run: a child that has accepted without multiplexing is handed a second caller's line while it is at work on the first, whose caller has cancelled after the line's callback |
| Steadiness.NextSteady | packages/node/src/backend/client.ts:460-1630 | Every step but the handshake's own two leaves the handshake alone, breaks it or begins it with a hello; keeps its outcome or forgets it with the child; and while the child stays keeps every pending caller but those the step is about |
| Quarantining.UnknownFrame | packages/node/src/backend/client.ts:1419-1433 | A frame that belongs to no pending route and no tombstone quarantines the transport and changes nothing for those who are there; a child without callers, or with too many such ids, is taken down, and everyone with it |
| Quarantining.QuarantineIsQuiet | packages/node/src/backend/client.ts:1491-1514 | While it is quarantined and its child stays, no step makes a caller pending or hands a caller's line to the child |
| Quarantining.LastOneRecycles | packages/node/src/backend/client.ts:1556-1577 | Clearing a route never leaves a quarantined transport without callers and without a handshake: the child is recycled |
| Quarantining.WrongKindTakesDown | packages/node/src/backend/client.ts:1115-1196 | A response for a stream or an event for a request, pending or only remembered by a tombstone, takes the child down and settles everyone |
| Quarantining.NothingImproper | packages/node/src/backend/client.ts:925-937 | Over every run no line longer than a frame is ever queued, and no call admitted under an id that is not valid |
| Liveness.NobodyIsStuck | packages/node/src/backend/client.ts:505-616 | In every reachable state the step that serves a call without an outcome is enabled: by its phase its own deadline, its own continuation, the probe's deadline, the handshake's continuation, the slot holder's deadline, or the next grant |
| Settling.ServingAdvances | packages/node/src/backend/client.ts:505-616 | The serving step of a call gives it its outcome or leaves it, as the same call, strictly closer to one |
| Settling.EveryCallCanSettle | packages/node/src/backend/client.ts:505-616 | From every reachable state at most 8 serving steps more than the slot chain is long give a call its outcome, with no frame, no close, no exit of the child and no other call |
| Settling.CancelSettles | packages/node/src/backend/client.ts:618-645 | A cancel gives a live call its outcome at once, whatever it is doing, and does nothing for an id without one |
| Liveness.NextKeepsNoOrphans | packages/node/src/backend/client.ts:742-832 | No step lets a caller wait for a handshake promise that is not there to be settled |
| TransportInvariant.NextKeeps | packages/node/src/backend/client.ts:460-1630 | Every step of the transport keeps the whole invariant: tables, slot chain, write queue, admission, handshake and negotiation |
| TransportInvariant.RunKeeps | packages/node/src/backend/client.ts:460-1630 | The invariant holds after every run |
| TransportInvariant.BeginWriteStarts | packages/node/src/backend/client.ts:944-970 | A line is handed to stdin only from the current child's chain while that child is current, and a caller's line only after that child's negotiation succeeded |
| Progress.RunForward | packages/node/src/backend/client.ts:1271-1285 | Over every run outcomes are never taken back, calls keep their ids, and the slot chain only loses settled calls at its head and gains at its end |
| Ledger.SlotIsExclusive | packages/node/src/backend/client.ts:1271-1285 | Two routes cannot both hold the slot |
| Ledger.SettlingKeeps | packages/node/src/backend/client.ts:1222-1241 | Settling one call, with or without its slot, keeps every other call accounted for and the chain first-in first-out |
| WriteQueue.ReleaseCharges | packages/node/src/backend/client.ts:991-998 | Releasing a write gives back exactly its own charge; the clamps at zero never take effect |
| WriteQueue.RetireKeeps | packages/node/src/backend/client.ts:1000-1024 | Retiring a child's writes keeps both chains single-generation, whether its chain is detached or the recycle is blocked |
| WriteQueue.RetireExactly | packages/node/src/backend/client.ts:1000-1024 | A recycle leaves the queue alone if the child has no unfinished write, detaches its chain if none is detached yet, and otherwise blocks further recycling; no write is lost or reordered |
| WriteQueue.SpawnKeeps | packages/node/src/backend/client.ts:657-700 | A child spawned while recycling is not blocked starts behind an empty chain |
| Routes.FailAllKeeps | packages/node/src/backend/client.ts:1198-1220 | After failAll nothing is admitted, every call ever opened has an outcome, and the slot has been passed on |
| Routes.LaunchKeeps | packages/node/src/backend/client.ts:877-917 | A waiting route becomes pending without changing the admitted count, and with the slot only from the head of the chain |
| StdioBackend.StdioBackendTransport.FailAll | packages/node/src/backend/client.ts:1198-1220 | Settling the routes one by one ends in the state of the one-step specification |
| RoutingTables.RouteTables.FailAll | packages/node/src/backend/client.ts:1198-1220 | The same of the tables: loops over the maps against the closed form |
| RoutingTables.FailAllAbsorbsPending | packages/node/src/backend/client.ts:1198-1220 | Settling a pending route first makes no difference to where failAll ends |
| StdioServer.NextKeeps | packages/node/src/backend/stdio-server.ts:31-235 | Every step of the server keeps task bound, ownership, writer order and the end of each answer |
| StdioServer.RoutesAreDisciplined | packages/node/src/backend/stdio-server.ts:52-106 | Over every run: at most maxInFlight tasks, exactly one live owner for each active id, and nothing is said about a line after its terminal frame |
| StdioServer.FramesAnswerTheirLine | packages/node/src/backend/stdio-server.ts:108-160 | Every frame a step adds carries the id of its task's line, and that line had not been answered |
| StdioServer.DuplicateStopsAdmission | packages/node/src/backend/stdio-server.ts:52-75 | A line that repeats an active id adds no frame, leaves the owner's task and frames alone, and in no run after it does a task start |
| StdioServer.StartIsNotDuplicate | packages/node/src/backend/stdio-server.ts:120-143 | The duplicate checks inside the task never fire from the reader loop: while it waits for a slot the active set only shrinks |
| StdioServer.StoppedForGood | packages/node/src/backend/stdio-server.ts:52-75 | Once reading has stopped no further task starts, in any run |
| StdioServer.FatalIsAbsorbing | packages/node/src/backend/stdio-server.ts:186-235 | After a fatal write the writer stays unusable and the output never grows, in any run |
| StdioServer.FailedWriteIsTheEnd | packages/node/src/backend/stdio-server.ts:199-231 | A frame that does not fit, or whose write fails, is the end: in no run from there is anything more written or a line taken up |
| StdioServer.RefusalIsAnswered | packages/node/src/backend/stdio-server.ts:145-156 | A line that is refused is answered once, under its id and with the code it is refused with, and does not take the id |
| StdioServer.BlankLinesAreSkipped | packages/node/src/backend/stdio-server.ts:58-59 | In no run is a blank line held or made a task |
| Ndjson.ReadClientLines | packages/node/src/backend/client.ts:2232-2271 | For every chunking of every byte stream: the lines and the error of the split-on-LF specification, whose meaning is StreamIsItsFrames |
| Ndjson.ReadServerLines | packages/node/src/backend/stdio-server.ts:281-327 | The same specification, from one growing buffer; fewer than 2 x limit bytes are moved by reallocation over the whole stream |
| Ndjson.GrownCapacity | packages/node/src/backend/stdio-server.ts:297-303 | The doubling loop ends with enough room, within the limit, and at least doubles unless the limit is reached |
| Ndjson.Append | packages/node/src/backend/stdio-server.ts:293-309 | A segment is appended to what the buffer held, reallocating at most within the cost bound |
| Ndjson.StreamIsItsFrames | packages/node/src/backend/client.ts:2232-2271 | Of a stream of frames ended by LF and a tail, whatever bytes they hold: every frame before the first bad one yields its body, decoded, where the body is the frame without one CR at its end; the error says what was wrong with the first bad frame, or with the tail |
| Ndjson.EveryStreamHasFrames | packages/node/src/backend/client.ts:2232-2271 | Every byte stream is made of such frames, bodies and a tail |
| Ndjson.CrIsOptional | packages/node/src/backend/stdio-server.ts:309-316 | A CR before the LF makes no difference to what is read, as long as there is room for it |
| Ndjson.OneCrGoes | packages/node/src/backend/stdio-server.ts:309-316 | Of two CRs before the LF exactly one goes |
| Ndjson.CrLfIsRead | packages/node/src/backend/stdio-server.ts:309-316 | Frames ended by CR LF are read back exactly |
| Ndjson.WrittenIsRead | packages/node/src/backend/stdio-server.ts:200-231 | Frames a writer accepts, concatenated and cut anywhere, are read back exactly, and a cut-off frame is an error and never a line |
| Ndjson.RoundTripExactly | packages/node/src/backend/stdio-server.ts:200-231 | A run of JSON frames is read back without an error if and only if every one of them is within the limit, and then unchanged |
| Ndjson.ClientMissesTheLimit | packages/node/src/backend/client.ts:925-937 | The client's writer agrees with the documented limit on a frame if and only if the frame does not fill it, and on a JSON frame writes exactly what the readers take under the same condition |
| Ndjson.FullFrameIsRefused | packages/node/src/backend/client.ts:925-937 | Every JSON frame that fills the limit is refused by the client's writer and would be read back unchanged |
| BoundedQueues.AccountingIsKept | packages/node/src/backend/client.ts:2129-2189 | Queued bytes are the sum of the sizes queued, count and bytes stay within limits, and the clamp never takes effect, under every operation |
| BoundedQueues.HandingOver | packages/node/src/backend/client.ts:2174-2186 | A pass that finds a value hands over the oldest one not yet handed over, to that call only |
| AsyncQueues.AsyncQueue.Push | packages/node/src/backend/client.ts:2129-2138 | A value is accepted if and only if the queue is open and both limits have room, and then every waiter is woken |
| AsyncQueues.AsyncQueue.Fail | packages/node/src/backend/client.ts:2146-2152 | An open queue is emptied and keeps the error; a finished one is left alone |
| AsyncQueues.AsyncQueue.EndReturn | packages/node/src/backend/client.ts:2154-2172 | After return the queue is empty and done, and every waiter is woken |
| AsyncQueues.AsyncQueue.Resume | packages/node/src/backend/client.ts:2174-2187 | One pass of next: a value, the error, the end, or waiting, which happens only while the queue is empty, open and error-free |
| AsyncQueues.AsyncQueue.Wake | packages/node/src/backend/client.ts:2189-2192 | Every parked call is woken and no other call changes |
| StreamDelivery.NextKeeps | packages/node/src/backend/client.ts:1731-1810 | Every step of transport, pump and caller keeps the two-queue invariant |
| StreamDelivery.ReceivedIsPrefix | packages/node/src/backend/client.ts:1731-1810 | What the caller has received is a prefix of the items the backend emitted under the id, in order and without duplicates |
| StreamDelivery.ResolvedMeansAll | packages/node/src/backend/client.ts:1785-1790 | If completed resolves, its result is that of the first terminal event, and draining yields every item before it |
| StreamDelivery.SettlesOnce | packages/node/src/backend/client.ts:1757-1804 | completed, once settled, never changes |
| StreamDelivery.CompletionIsNotLost | packages/node/src/backend/client.ts:1149-1196 | A completion the transport has taken survives any recycle: unless the stream was abandoned or overflowed, the pump has it ahead, is not stuck, and resolves with it |
| StreamDelivery.RejectedSaysWhy | packages/node/src/backend/client.ts:1173-1195 | A rejected completion and the caller's next say the same reason; as long as nobody abandoned the stream it is the backend's own error if and only if its error event was taken, otherwise an overflow, with an event not taken, or a lost route, and never incompleteness |
| StreamDelivery.SessionStream | packages/node/src/backend/session.ts:107-147 | One event per run item and then exactly one terminal event, the last |
| StreamDelivery.StreamIsTheRun | packages/node/src/backend/session.ts:107-147 | Against a backend streaming a run, completed resolves only with that run's result, and the caller can drain exactly its items |
| NegotiationTheorems.GrantIsSound | packages/node/src/backend/session.ts:528-604 | For every base and every request, however malformed, the grant's lists, flags and scopes never exceed the base; its deprecated aliases agree with the primary fields if and only if the request is a record or the base's own agree |
| NegotiationTheorems.GrantIsFixedPoint | packages/node/src/backend/session.ts:528-660 | Offering a grant back is accepted and granted unchanged |
| Acceptance.AcceptedExactly | packages/node/src/backend/session.ts:149-167 | A hello is accepted if and only if it names no other protocol and its capabilities are absent or a record in which every identity is well-formed, every list names something and nothing the base has not, every flag asked for and every scope is there to give, and the deprecated aliases agree with what is asked for; said of the payload alone |
| Acceptance.GrantedExactly | packages/node/src/backend/session.ts:538-602 | What an accepted request does not mention is granted as the base has it, except cancellation, which is granted only if asked for; without capabilities the whole base is granted |
| NegotiationTheorems.AcceptedServesExactly | packages/node/src/backend/session.ts:149-167 | An accepted hello grants every requested flag that is no deprecated alias as requested, and exactly the requested lists and scopes |
| NegotiationTheorems.AliasesServedExactly | packages/node/src/backend/session.ts:566-602 | An accepted hello grants the three deprecated aliases as requested if and only if none is declined, against what the base has, without one of its primary fields |
| NegotiationTheorems.DeclinedAliasIsGranted | packages/node/src/backend/session.ts:733-749 | For any base with all three stable identities, a request that only declines their alias is accepted and granted it |
| NegotiationTheorems.KeptMembers | packages/node/src/backend/session.ts:538-548 | The intersected list holds exactly the base entries that were requested |
| HelloExchange.OwnHelloIsNegotiated | packages/node/src/backend/client.ts:759-812 | For every valid identity the transport's own hello is accepted, passes isNegotiatedHello and is read as multiplexed |
| HelloExchange.NegotiatedExactly | packages/node/src/backend/client.ts:1994-2065 | Of this backend's answers the transport goes on with exactly the accepted ones whose request named its commands and declined neither request ids nor their scope |
| HelloExchange.AnyAnswerExactly | packages/node/src/backend/client.ts:1994-2065 | Whatever backend wrote the answer: the transport goes on with it if and only if it is accepted, keeps to one identity, and advertises this protocol, every command asked for, stdio and NDJSON without token deltas, required ids of a connection or a process, a known coordination scope and aliases that agree |
| HelloExchange.AnswerIsMultiplexed | packages/node/src/backend/client.ts:2067-2070 | An answer is read as multiplexed if and only if both multiplexing flags were granted |
| HelloExchange.OwnHelloServesAliases | packages/node/src/backend/session.ts:149-167 | Of this backend's own base, every accepted hello grants every requested flag, the deprecated aliases included, as requested |
| Slider.EffortSearch.Select | packages/node/src/commands/chat-popover.ts:405-479 | For every page: a press not seen to move the slider one notch is the last press, and presses are bounded. For a page whose slider moves one notch a key: the expected choice, the slider at it or back at its origin, in at most 2 x (max - min) presses |
| Slider.EffortSearch.Move | packages/node/src/commands/chat-popover.ts:412-455 | 32 rounds are enough to reach any position of an accepted track, one press per notch |
| Slider.EffortSearch.MoveWithin | packages/node/src/commands/chat-popover.ts:412-455 | With any budget of rounds: on a page whose slider moves one notch a key, the target is reached if and only if its distance is less than the budget |
| Slider.BudgetIsTight | packages/node/src/commands/chat-popover.ts:413-413 | A move reaches its target from anywhere to anywhere on every accepted track if and only if its budget is at least 32 rounds |
| Slider.EffortSearch.Search | packages/node/src/commands/chat-popover.ts:457-471 | The search ends at the first match or the first unreadable position from the minimum |
| Slider.ExpectedIsFirstMatch | packages/node/src/commands/chat-popover.ts:457-471 | The choice is the initial position's or the first match from the minimum; there is none if and only if the initial position cannot be read, or does not match and every match lies above an unreadable position |
| Slider.SearchIsShort | packages/node/src/commands/chat-popover.ts:405-479 | Search and restore together take at most 2 x (max - min) presses |
| Slider.PressKeeps | packages/node/src/commands/chat-popover.ts:446-452 | Whether one more press stays confirmed is decided by the look before and the look after it |
| Evidence.NewIsDifference | packages/node/src/commands/files.ts:765-771 | The new indices of a value number exactly max(0, count now - count at the baseline) |
| Evidence.MatchFiles | packages/node/src/commands/files.ts:777-796 | Every file called visible has its own piece of new evidence, no two share one, each takes the first that the earlier files have left, entries before labels, so that a file is called missing only if everything that shows it is used; of each text and entry no more pieces are used than came since the baseline, and if the input holds the baseline and all expected files every one is found there |
| Evidence.EntryIsLeft | packages/node/src/commands/files.ts:779-790 | While the input holds enough entries the greedy search always finds an unused one |
| GreedyMatching.FoundExactly | packages/node/src/commands/files.ts:777-796 | On every page that has evidence of its own for each file every file is found, if and only if every name occurs in the names before it, as for a single file |
| GreedyMatching.SecondIsMissed | packages/node/src/commands/files.ts:777-796 | A page with evidence for two files on which the second is called missing: the first takes the chip that the second needs |
| GreedyMatching.ContainsIsInfix | packages/node/src/commands/files.ts:792-792 | A label shows a name if and only if the name stands somewhere in it |
| Evidence.SqueezingIs | packages/node/src/commands/files.ts:612-612 | Squeezing a label changes white space only, and a label is squeezed if and only if single spaces separate what it has |
| Evidence.UnchangedLabelsAreOld | packages/node/src/commands/files.ts:606-613 | On an unchanged page no label counts as new if and only if every label is written without surplus white space: the baseline squeezes labels, the check does not |
| Evidence.RecordedJudgesExactly | packages/node/src/commands/files.ts:606-613 | No page, however it changes, has a label judged new that is old if and only if every label of the baseline is written without surplus white space |
| Evidence.StaleChipIsTakenForNew | packages/node/src/commands/files.ts:760-776 | A file chip present since the baseline, without aria-label and title, is taken for evidence of a file of its name |
| Evidence.EmptyJudgesExactly | packages/node/src/commands/files.ts:767-770 | Against an empty baseline no later page has an entry judged new that is old if and only if there was none |
| Attachment.BaselineJudgesExactly | packages/node/src/commands/files.ts:235-246 | On every later page and for every file, evidence against the baseline is evidence against the page as it was, if and only if the baseline was read and its labels carry no surplus white space, or it was not read and the input was empty |
| Attachment.UnreadEntryIsTakenForNew | packages/node/src/commands/files.ts:240-246 | When the baseline was not read, an entry that was in the input all along shows as new evidence |
| Attachment.AttachRun.Attach | packages/node/src/commands/files.ts:200-367 | At most one hand-off over all attempts and deadline expiries; the log shows the ways of the page's own plan in its order and the hand-off last; a resumable or plain error means none began; one that began ends attached or indeterminate, which is not resumable; attached means that the last action was a look at a page with nothing in progress and its own evidence for every file, new against the baseline, and new against the page as it was before anything was tried whenever the condition of BaselineJudgesExactly holds; not attached means that no look showed all of them with nothing in progress |
| Attachment.AttachRun.Upload | packages/node/src/commands/files.ts:813-896 | The log shows the first ways of the plan in its order, and after the last of them at most one hand-off, which is there if the upload succeeds; every way but the last ended in an error that is no matter of permission or transport; that no path completed is reported only when all were tried or the deadline has passed |
| Attachment.PlanIsOrdered | packages/node/src/commands/files.ts:813-896 | The plan tries every way that can be tried, once, from the input in sight by menu, button and debugger to setting the input directly, which need an input or the authorization |
| Attachment.AttachRun.UseChooser | packages/node/src/commands/files.ts:985-1011 | The files are handed over only after both validations of the chooser, and the flag is set before they can leave; it succeeds if and only if both find the chooser as it should be and the hand-off succeeds |
| Attachment.AttachRun.ClickFileChooser | packages/node/src/commands/files.ts:953-1011 | The wait for the chooser begins before the click, and the files are handed over only after both and both validations, with nothing in between |
| Attachment.AttachRun.ClickWithCdp | packages/node/src/commands/files.ts:1014-1075 | So does the way by the debugger, after its own inspection |
| Attachment.AttachRun.HandOver | packages/node/src/commands/files.ts:1633-1649 | The flag is set whether or not the hand-off is begun, which succeeds if there is time and the browser says so |
| Attachment.AttachRun.Explain | packages/node/src/commands/files.ts:286-366 | Which result an error becomes: indeterminate if and only if a hand-off began, then the deadline, then transport, permission and path in this order |
| Attachment.AttachRun.WaitReady | packages/node/src/commands/files.ts:622-664 | Readiness means that the last action was a look, and that what the page showed to it is supported, in no progress, and holds new evidence of its own for every file; without it no look showed that, and the waiting went on until a look failed or at most 10 ms were left |
| WaitLoop.WaitRun.Wait | packages/node/src/commands/messages.ts:756-921 | The record of polls is the one the page and the clock determine, from the first moment on; it is over, by the verdict on its last poll or because the time is; and the result is its ending. On completion the record is stable (CompletionIsStable); a completion or a stop is only of more assistant turns and a later turn than before |
| WaitLoop.CompletionIsStable | packages/node/src/commands/messages.ts:787-889 | If a record ends in a completion, every poll that was skipped, timed out, missed the target or found another key was over at least stableMs before the last poll, and so was every reading of the text that did not complete it |
| WaitLoop.EndingWasBeyond | packages/node/src/commands/messages.ts:1420-1431 | Behind a completion or a stop the page itself answered the last probe with strictly more assistant turns than afterAssistantTurnCount, a turn strictly beyond afterTurnCount and text; generation was seen and over, or stopped |
| WaitLoop.NothingIsMissed | packages/node/src/commands/messages.ts:787-889 | If from some poll on every poll shows the answer waited for, finished and readable, the first poll at least stableMs later completes with it, unless the page is blocked |
| WaitLoop.PartialExactly | packages/node/src/commands/messages.ts:891-921 | When the time is over the text is given out as partial if and only if some poll saw the answer waited for with text and it can still be read |
| WaitLoop.BlockedExactly | packages/node/src/commands/messages.ts:804-817 | The wait ends blocked if and only if the page shows a blocker at the first poll or a fourth one after it |
| WaitLoop.CompletionIsOld | packages/node/src/commands/messages.ts:802-814 | And at least stableMs before the last poll its key had already been seen, by a poll or by the fetch after one |
| WaitLoop.CompletionWasShown | packages/node/src/commands/messages.ts:842-883 | Behind a completion the page itself answered the last probe before its timer, showed response actions, by the snapshot or by the copy buttons at that moment, and yielded that very text right after |
| WaitLoop.OnlyTheTextDelays | packages/node/src/commands/messages.ts:852-899 | A round whose poll shows more assistant turns and a later turn than before, a finished answer and its response actions, in a window stable for stableMs, fails to complete only if the text fetched is empty, another or a placeholder |
| WaitLoop.WaitRun.Round | packages/node/src/commands/messages.ts:787-899 | One round adds the one poll the page and the clock determine, ends with the verdict on it, blocked before stopped before complete, and leaves key, time of change and observed length as the record makes them |
| WaitLoop.WaitRun.Confirm | packages/node/src/commands/messages.ts:867-899 | The fetched text completes if and only if it has the polls' hash and is complete itself; another text starts the window again with it, and an unreadable one changes nothing |
| WaitLoop.WaitRun.TakeSnapshot | packages/node/src/commands/messages.ts:956-974 | One poll is added: its probe ends as the page's race at this moment decides, unless an earlier one is still out, and its snapshot is the page's, the degraded one, or, when nothing was learned, one without text |
| Probes.SingleFlightProbe.Run | packages/node/src/commands/probes.ts:11-70 | At most one probe's browser-side work is out; a call is skipped if and only if one is; a timer gives up waiting without ending the work |
| Probes.SingleFlightProbe.Settle | packages/node/src/commands/probes.ts:38-44 | Work that ends clears the closure's memory of it |
| StdioBackend.StdioBackendTransport.Request | packages/node/src/backend/client.ts:505-554 | The object's new state is exactly the specified step, and the invariant holds |
| StdioBackend.StdioBackendTransport.OpenStream | packages/node/src/backend/client.ts:555-584 | The synchronous half of stream, as specified |
| StdioBackend.StdioBackendTransport.StreamHandshake | packages/node/src/backend/client.ts:585-586 | The microtask in which a stream asks for the handshake, as specified |
| StdioBackend.StdioBackendTransport.Resume | packages/node/src/backend/client.ts:523-535 | A request is promoted before it queues for the slot, a stream after; the route is issued or rejected as specified |
| StdioBackend.StdioBackendTransport.Grant | packages/node/src/backend/client.ts:526-531 | The head of the slot chain is issued, rejected, or skipped if it has settled meanwhile |
| StdioBackend.StdioBackendTransport.EnsureHandshake | packages/node/src/backend/client.ts:742-789 | Whether the caller goes on, fails or waits, and the probe this starts, as specified |
| StdioBackend.StdioBackendTransport.ContinueHandshake | packages/node/src/backend/client.ts:789-871 | The reactions to the hello and to both legacy probes: ready, single-flight, legacy, blocked, or unknown again |
| StdioBackend.StdioBackendTransport.Cancel | packages/node/src/backend/client.ts:618-645 | Cancelling a waiting or pending route; the child goes with it if its line may have reached stdin |
| StdioBackend.StdioBackendTransport.Close | packages/node/src/backend/client.ts:647-655 | Closing is a terminate that leaves the transport closed |
| StdioBackend.StdioBackendTransport.Deadline | packages/node/src/backend/client.ts:1243-1269 | An expired route leaves a tombstone, and takes the child with it if it held the slot, was a probe, or was written |
| StdioBackend.StdioBackendTransport.BeginWrite | packages/node/src/backend/client.ts:944-970 | The next link of a write chain: handed to stdin, or released and its route rejected, with a tombstone only if it may have been sent |
| StdioBackend.StdioBackendTransport.EndWrite | packages/node/src/backend/client.ts:963-970 | The stdin callback releases the charge, and its error leaves a tombstone |
| StdioBackend.StdioBackendTransport.FinishRetired | packages/node/src/backend/client.ts:1026-1035 | A drained retired chain is dropped and may unblock recycling |
| StdioBackend.StdioBackendTransport.HandleResponse | packages/node/src/backend/client.ts:1115-1147 | Response dispatch: settle the route, consume the tombstone, quarantine an unknown id, or terminate on a kind mismatch |
| StdioBackend.StdioBackendTransport.HandleEvent | packages/node/src/backend/client.ts:1149-1196 | Event dispatch, with the queue's overflow and both terminal events |
| StdioBackend.StdioBackendTransport.ChildFailed | packages/node/src/backend/client.ts:1590-1629 | terminate and handleProcessFailure leave the same specified state |
| StdioBackend.StdioBackendTransport.QuarantineTimer | packages/node/src/backend/client.ts:1545-1577 | The quarantine timer recycles the child |
| StdioBackend.StdioBackendTransport.ClearPending | packages/node/src/backend/client.ts:1222-1241 | clearResponse and clearStream with their tombstone, its limit, and a pending quarantine's recycle |
| WriteBudgets.WriteBudget.Admit | packages/node/src/backend/client.ts:973-989 | A write is charged if and only if both limits have room for it |
| WriteBudgets.WriteBudget.ReleaseWrite | packages/node/src/backend/client.ts:991-998 | The head of a chain is released with its charge |
| WriteBudgets.WriteBudget.Retire | packages/node/src/backend/client.ts:1000-1024 | One chain is detached; a second recycle with writes unresolved blocks instead |
| BackendServer.BackendStdioServer.ReadLine | packages/node/src/backend/stdio-server.ts:52-68 | The top of the loop, on the object: stop, skip, fail closed on a duplicate, or hold the line |
| BackendServer.BackendStdioServer.StartTask | packages/node/src/backend/stdio-server.ts:69-83 | The line is handled once a task slot is free, unless the loop must stop |
| BackendServer.BackendStdioServer.BeginOutput | packages/node/src/backend/stdio-server.ts:199-231 | The writer reaches a frame: it is written, or the writer turns fatal and reading stops |
| BackendServer.BackendStdioServer.Finish | packages/node/src/backend/stdio-server.ts:156-160 | A task's finally gives back its own id and no other |
| BackendServer.JsonLineWriter.Begin | packages/node/src/backend/stdio-server.ts:199-226 | A frame is written if and only if the writer is usable and the frame fits; otherwise it is unusable for good |

## Left out

- Correlation.FramesReachTheirOwnRoute: holds of the runs without a hit, because with one it is false (see above); a run whose hit does no harm, because the child owed nothing more under the id, is not told apart.
- LostAnswers.LateAnswersAreLost: speaks of callers' ids, because the transport mints its own afresh; what the answers of an id opened again do is shown by one run, Misrouting.ReusedIdIsMisrouted.
- Correlation.SystemNextKeeps: the backend in the composed system is this repository's own server; against an arbitrary backend the transport's claims are those of TransportTheorems, without correlation.
- OneAtATime.OneLineAtATime: of lines as the transport knows them, by the serial its route or tombstone holds; that an honest backend answers each line under its own id is FramesReachTheirOwnRoute's.
- Settling.EveryCallCanSettle: says that the serving steps are enabled one after the other and how many are enough, not that the runtime schedules them; fairness of the JavaScript event loop is not modelled.
- StdioBackend.StdioBackendTransport.Request: the object groups the source's fields in four objects (routing tables, write budget, late output, the rest), and keeps the set of active writes as the two promise chains it is read from; await points are separate methods, and the handlers a promise carries are looked up in the tables instead of being stored as closures.
- BackendServer.BackendStdioServer.ReadLine: the loop's body is a method per await, and its driver, a step relation over values, is StdioServer.Next.
- StreamDelivery.NextKeeps: the pump is a step relation over values rather than a loop, because its awaits interleave with the transport; payloads are opaque numbers, and both queues are the value the AsyncQueue class is proved against.
- Ndjson.ReadClientLines: UTF-8 decoding is an arbitrary partial function of a frame's bytes; a byte order mark, which the decoders strip, is part of that function.
- Negotiation.Hello: property values are JSON, so an explicit undefined, a getter or a prototype's property cannot occur; identity fields are checked by length, surrounding white space and control characters.
- Slider.EffortSearch.Select: a page call that throws is an undefined observation; switching the popover's view is one action whose own clicks are not modelled, and labels are compared after normalization.
- Attachment.AttachRun.Attach: error texts are reduced to the four properties the handlers test; preflight, diagnostics and the reading of the page context are not modelled, and reading the context is taken not to fail.
- WaitLoop.WaitRun.Wait: text is known by its length, hash and placeholder flag, as the loop knows it, so completion means equal hashes and not equal texts; a pause is taken to advance the clock, and the page-state scan is one look at the poll's moment.
- Evidence.MatchFiles: a signature is the pair of name and size, which the string with its NUL determines; which elements count as labels and which input is the composer's are inputs.
- Wire.IsValidText: lengths count characters where JavaScript counts UTF-16 units.
- Process spawning, pipes, kill signals, stderr accounting and the compatibility report carry no protocol state.
- Expiry times of tombstones and of the quarantine are steps that may happen at any time; nothing is claimed about their durations.
- `stopGeneration` is not modelled: its single click has the shape of the attachment hand-off, a flag set before one native call.
- DOM inspection, selectors, locale labels and visibility tests depend on a live page.
- Command dispatch, the facade's argument mapping, error wrappers, downloads and artifacts have no state worth a claim.
