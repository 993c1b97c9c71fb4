# Verified core of the AI gateway

A model, in Dafny 4.11, of the parts of the gateway where a mistake would lose a request-log record, corrupt a
body, dispatch twice or bill wrongly, with proofs of what those parts guarantee. `dafny verify dfyconfig.toml`
checks all of it. Nothing was executed.

## What is modelled

**The durable request log** (`Bytes`, `Frames`, `SpoolFile`, `Slots`, `Spool*`). Every system call of opening,
admission, append, retirement, checkpointing and compaction is a step of a state machine (`Spool.Next`). A disk cell
holds what a process sees and everything that may be found after a power loss. A kill keeps the page cache. A power
loss picks any surviving version of every file and directory entry: synced data stays; an unsynced log tail is some
prefix; an unsynced entry is there or not; a rename may revert until its directory is synced; a checkpoint that was
renamed unsynced may be found short, and `open` refuses it. The 16-byte slot header, within one sector, is written
whole or not at all; the payload behind it may be torn byte by byte. The checksum is an arbitrary function and nothing
is assumed of it: CRC-32 does not tell every torn payload from the whole one. What tells them apart is the codec, since
a torn payload has NULs where bytes are missing. `Codec` says what the codec is trusted with: a payload decodes as the
record it encodes, and no JSON text holds a NUL (sections 2 and 7 of RFC 8259). Only the two results on what recovery
reads need it. The step that appends a recovered record is described for the presented payload only, and the second of
those results shows that no other is ever read. `SpoolTheorems`, `SpoolCapacity`, `SpoolProgress`, `SpoolCompaction`,
`SpoolReservation` and `SpoolBooks` state what holds over every run. `ScanAndRepair` and `SpoolReader.ReadBatch` are the
loops themselves, proved against the functions the state machine uses.

**The multipart guard, base64 and the replayable body** (`Matcher`, `Multipart`, `Base64`, `BodyWriter`): classes
and loops as in the source, proved against a grammar, an encoding and a concatenation over the whole input.

**The request** (`Completion`, `StreamScript`, `Streams`, `Attempts`): the attempt loop, the guard that owns the lease
and the duty to log, and the stream driver. `StreamScript` reads everything upstream sends as one script and decides the
outcome on it; the driver, poll by poll, is proved to log what the script says. Routing, connectors, the network, the usage collector, the framer and the client are
unknown choices: every contract holds for all of them. The only trust in routing is that it does not return an
excluded slot. A client that goes away is a drop at the point of waiting.

**The admission limiter** (`Admission`), **the response adapter's checks** (`ProtectedFields`, `Sse`), **the keyword
matcher** (`Utf8`, `Keywords`) and **billing** (`Billing`).

Results worth knowing beyond the promises themselves:

- The limiter admits at most `2 * limit - 1` requests of a key in any 60 seconds, one less than twice the limit,
  because the first request of a window always uses a slot of it; every positive limit can meet that bound.
- A torn slot can have the right checksum. Its payload then does not decode and `open` refuses; it is never taken for a
  record.
- A log never keeps `open` from starting; among the files of the spool itself only a checkpoint that is cut short or no
  frame boundary, or a slot that does not decode, does.
- `retry_after` is the least sufficient delay exactly if the limit is positive: with a limit of zero no delay is.
- Up to 16 separately encoded images exceed the combined base64 bound by at most 40 bytes, and can.
- A request behind a response adapter can be logged as succeeded without a terminal event in exactly two ways: the
  answer has no body, or it is plain JSON rather than a stream.
- A decoded event can be encoded again exactly if its name holds no NUL and the text is within the frame limit.
- A batch whose checkpoint was stored is not delivered again after a kill. After a power loss it may be: the renamed
  file is not synced, so that the file before it may be back, or `open` refuses one that was cut short.
- A sync of the log before its compaction is what keeps a power loss in the middle from making `open` refuse; without it
  an older checkpoint could lie beyond a shorter log.

## Model

| member | source | states |
|---|---|---|
| Frames.ParseOfFrameHeader | src/request_log_spool.rs:179-186 | the header of every record, written in 32 bytes, parses back to its schema, length, checksum and id |
| Frames.FrameHeaderOfParse | src/request_log_spool.rs:430-456 | a header that parses, over a payload with its checksum, is the header of exactly one record |
| Frames.HeaderErrors | src/request_log_spool.rs:430-456 | which 32 bytes are refused as a header, and with which error: other magic, reserved bits, or a length that no record has |
| Frames.ScanOfCat | src/request_log_spool.rs:463-509 | scanning undoes writing: the frames of any records come back in order, whatever torn tail follows |
| Frames.CatOfScan | src/request_log_spool.rs:463-509 | writing undoes scanning: a log that scans is the frames of its records and a tail without a whole frame |
| Frames.TornFrameIsTail | src/request_log_spool.rs:463-485 | every proper prefix of a frame is a torn tail, never a record and never corruption |
| Frames.TailIff | src/request_log_spool.rs:463-485 | a torn tail is shorter than a header or than the frame its header announces |
| Frames.CorruptIff | src/request_log_spool.rs:463-509 | a log is refused, and with which error, exactly if behind whole frames comes a header that is none or a whole frame with another checksum |
| SpoolFile.ScanAndRepair | src/request_log_spool.rs:463-509 | the loop cuts exactly the torn tail, refuses any other irregularity without touching the file, and says whether the checkpoint is a frame boundary |
| SpoolFile.SpoolReader.ReadBatch | src/request_log_spool.rs:360-408 | the loop reads what the specification reads; a failed batch may already have moved the reader |
| SpoolFile.BatchIsNextRecords | src/request_log_spool.rs:360-408 | from a frame boundary a batch never fails and is precisely the next records, with the reader behind the last |
| SpoolFile.DrainYieldsRest | src/request_log_spool.rs:360-408 | successive batches of any size yield every remaining record once, in append order |
| Slots.CutSlot | src/request_log_admission.rs:92-128 | cutting a slot short never makes an unreadable slot readable and never changes what a readable one says |
| Slots.TrimUnique | src/request_log_admission.rs:92-114 | what is kept of an unreadable slot is its only prefix that ends in a nonzero byte and drops nothing but zeros |
| Slots.ReadableIffImage | src/request_log_admission.rs:179-209 | a slot reads as a record exactly if it holds the header and payload that saving that record writes |
| Slots.TornReadsTrue | src/request_log_admission.rs:155-209 | for every checksum, a slot torn anywhere while being written reads as nothing, as exactly the record that was being written, or as a payload with NULs for its missing bytes |
| SpoolTheorems.NextInv | src/request_log_spool.rs:71-319 | every step of every operation, every kill and every power loss keeps the protocol invariant |
| SpoolTheorems.RunInv | src/request_log_spool.rs:71-319 | the invariant holds in every state of every run |
| SpoolTheorems.TerminalSurvives | src/request_log_spool.rs:137-229 | once `save_terminal` returned for an admitted request, every later successful `open` leaves exactly that record in the log behind the checkpoint, unless it is committed |
| SpoolTheorems.CheckpointNeverPastUncommitted | src/request_log_spool.rs:280-319 | in every crash state, each point of compaction included, the checkpoint found on disk lies past committed records only |
| SpoolTheorems.ServesFromBoundary | src/request_log_spool.rs:94-108 | a serving process without a latched failure has a log of whole frames only, and its checkpoint and published end are frame boundaries |
| SpoolTheorems.LogAlwaysScans | src/request_log_spool.rs:463-509 | every log that is, or that a power loss would leave, is the frames of its records and a torn tail, never corruption |
| SpoolTheorems.LogNeverRefused | src/request_log_spool.rs:92-108 | a stopped spool can be opened as far as its log goes, exactly unless its checkpoint file is cut short |
| SpoolTheorems.AdmittedNeverLost | src/request_log_admission.rs:134-153 | a request whose `reserve` returned is committed, or in the log, or has both its files on disk with the complete intent, at every step and whatever a power loss leaves |
| SpoolTheorems.NeverFabricated | src/request_log_spool.rs:168-229 | every record in every log that could survive was presented for its id and is byte for byte that record, so duplicates for an id are identical |
| SpoolTheorems.RecoveredExactly | src/request_log_admission.rs:179-209 | what `open` decodes from a slot is byte for byte the record that was presented for that request |
| SpoolTheorems.RecoveryAppendsPresented | src/request_log_spool.rs:137-139 | what recovery has read and is about to append is, for every request, the record that was presented |
| SpoolTheorems.UnknownStaysUnknown | src/request_log_admission.rs:92-128 | a request retained as unknown has an unreadable slot in every later state and after any power loss |
| SpoolTheorems.BatchesAreExact | src/request_log_spool.rs:360-408 | in every reachable state the worker's batch succeeds and is the records from the checkpoint on |
| SpoolTheorems.WorkerNeverStops | src/request_log_spool.rs:360-414 | the ingest worker never meets an unreadable log |
| SpoolCapacity.NeverOverLimit | src/request_log_spool.rs:143-229 | a process whose recovery starts within budget keeps log, slots, intents and retained files together, no file counted below 4096 bytes, within `max_bytes` at every step |
| SpoolCapacity.NextCap | src/request_log_admission.rs:82-90 | every step keeps the reservation accounting that covers a record being in its slot and in the log at once |
| SpoolProgress.CheckpointIsStored | src/request_log_spool.rs:242-259 | a running process without a latched failure goes by the very offset in the checkpoint file, and has published its whole log, except while a frame is being synced or the log compacted |
| SpoolProgress.StoredNeverBack | src/request_log_spool.rs:242-259 | only a power loss or the rename of a compaction takes the offset in the checkpoint file back |
| SpoolProgress.NotDeliveredAgain | src/request_log_spool.rs:231-259 | after a batch was checkpointed, and through any kills and reopenings short of those two, the worker reads from behind it |
| SpoolProgress.SyncedNeverLost | src/request_log_spool.rs:261-278 | every record in the log at a periodic sync is committed or in the log in every later state and whatever a power loss leaves |
| SpoolProgress.EvidenceStays | src/request_log_admission.rs:92-128 | the slot of a request retained as unknown ends in no zero byte and stays byte for byte the same in every later state and after any power loss |
| SpoolCompaction.CompactionCrashOpens | src/request_log_spool.rs:280-319 | at every point of a compaction behind its first sync, a checkpoint that a power loss leaves readable is a frame boundary of the log it leaves |
| SpoolCompaction.CompactedStays | src/request_log_spool.rs:298-319 | once compaction returns, every power loss finds an empty log and the checkpoint 0 |
| SpoolCompaction.PressureIff | src/request_log_spool.rs:143-166 | a process is under pressure exactly if it denied an admission since its last compaction |
| SpoolCompaction.CompactsWhenDue | src/request_log_spool.rs:280-298 | with all delivered, compaction may start exactly if the log is at the threshold or an admission was denied since the last one |
| SpoolReservation.ReservationKept | src/request_log_admission.rs:134-153 | from the return of `reserve` on, and as long as the reservation is held, the slot is on disk at full size in every state and after any power loss |
| SpoolBooks.BooksBalance | src/request_log_admission.rs:134-224 | an idle writer has reservations only for admitted requests without a saved record, with both files there, and every other file in the directory belongs to a request retained as unknown: nothing is leaked, nothing left over |
| SpoolBooks.AdmitsWhenRoom | src/request_log_spool.rs:143-166 | in every reachable idle state a new request is admitted exactly if the log, twice each reservation with its own, and what is retained fit |
| SpoolBooks.AppendsWhenRoom | src/request_log_spool.rs:199-207 | a record without a reservation is taken exactly if its frame fits beside all that is spoken for |
| SpoolBooks.ReservedIsTaken | src/request_log_spool.rs:188-195 | a reserved record is taken however full the spool is, also after a latched failure |
| Matcher.Advance | src/application/request_body.rs:1017-1030 | after a byte, the result is the longest prefix of the pattern that ends the bytes seen; every fallback is paid for by an earlier byte |
| Matcher.BuildPrefix | src/application/request_body.rs:997-1015 | the table holds, for each prefix, the length of its longest proper prefix that is also its suffix |
| Matcher.BytePatternMatcher.Push | src/application/request_body.rs:1017-1030 | true exactly when the pattern ends the bytes since the last match or reset; fallbacks never exceed pushes |
| Matcher.BytePatternMatcher.Matched | src/application/request_body.rs:1032-1034 | the longest proper prefix of the pattern that ends the bytes since the last match or reset |
| Multipart.GuardIff | src/application/request_body.rs:883-988 | the guard ends in its final state exactly on the bodies of the grammar: first boundary at offset at most 8192, parts with bounded padding and headers, closing dashes, any epilogue |
| Multipart.MultipartStructureValidator.PushByte | src/application/request_body.rs:922-981 | a byte is refused exactly when the guard rejects, and otherwise moves it as the guard moves |
| Multipart.MultipartStructureValidator.Push | src/application/request_body.rs:915-920 | a chunk moves the validator as its bytes do one by one |
| Multipart.GuardStream | src/application/request_body.rs:860-881 | for every chunking, the guarded stream succeeds exactly on the bodies of the grammar |
| Base64.DecodeEncode | src/application/request_body.rs:1065-1075 | decoding the encoding of any bytes gives the bytes |
| Base64.EncodeLength | src/application/request_body.rs:834-836 | the encoding of `n` bytes has the announced length |
| Base64.EncodeSplit | src/application/request_body.rs:1060-1070 | whole groups of three bytes may be encoded on their own |
| Base64.Alphabet | src/application/request_body.rs:1060-1075 | the 64 symbols in the order of section 4 of RFC 4648, and the padding |
| Base64.SixBits | src/application/request_body.rs:1060-1075 | the text of one group is its bits six at a time, padded by what is missing |
| Base64.SeparateImages | src/application/request_body.rs:555-560 | images encoded one by one need at most four bytes for every two of three more than the combined bound, 40 for 16 images |
| Base64.SeparateImagesTight | src/application/request_body.rs:555-560 | 16 images can need 40 bytes more |
| BodyWriter.WriteGroups | src/application/request_body.rs:1060-1071 | a chunk extends the whole groups encoded so far, with at most two bytes carried over |
| BodyWriter.WriteBase64Field | src/application/request_body.rs:1045-1077 | for every chunking, what is written is the encoding of the whole file; a file is refused as too large only if it is, and never accepted if it is |
| BodyWriter.ReplayableBodyWriter.Write | src/application/request_body.rs:1242-1266 | a write appends its bytes; the body is in memory exactly if it is at most `memory_bytes`; a body over `max_bytes` is refused and left as it was |
| BodyWriter.ReplayableBodyWriter.Spill | src/application/request_body.rs:1268-1286 | the spilled file holds the body; a failure leaves no file in the gauges |
| BodyWriter.ReplayableBodyWriter.Drop | src/application/request_body.rs:1206-1213 | dropping takes exactly this body's file out of the gauges |
| BodyWriter.SpoolMetrics.AddBytes | src/application/request_body.rs:1188-1204 | the gauges stay the number of live files and the sum of their bytes |
| BodyWriter.WriteAll | src/application/request_body.rs:1231-1286 | writes that all succeed leave their concatenation, in memory exactly if it is small enough |
| Completion.CompletionGuard.AdmitRequestLog | src/application/proxy.rs:2864-2885 | a denied request gives up its context and so will log nothing |
| Completion.CompletionGuard.ReplaceRoute | src/application/proxy.rs:2956-3044 | the hand-over releases the old lease and keeps the new one: exactly one is held |
| Completion.CompletionGuard.Finish | src/application/proxy.rs:3180-3305 | the first outcome is logged once, under the request's id; later ones are not |
| Completion.CompletionGuard.Drop | src/application/proxy.rs:3307-3311 | dropping the guard cancels a request that has no outcome and leaves no lease |
| StreamScript.FirstTerminalDecides | src/application/proxy.rs:2528-2573 | whatever follows, the first terminal event decides: completed is success and failed an upstream error behind a successful answer, and neither changes an unsuccessful one |
| StreamScript.EndDecides | src/application/proxy.rs:2528-2558 | without a terminal event, the end of a plain stream or its announced length is as good as the answer |
| StreamScript.FailureDecides | src/application/proxy.rs:2390-2526 | before anything is decided, a broken frame, a body error, idleness and an adapter refusal or missing end each decide with their own outcome |
| Streams.StreamState.AdaptStreamFrame | src/application/proxy.rs:2496-2514 | a frame is shown to the observers, and passes exactly if the adapter has not seen the end and takes it |
| Streams.StreamState.RecordStreamBytes | src/application/proxy.rs:2528-2550 | once the announced length has arrived the request is finished |
| Streams.StreamState.Poll | src/application/proxy.rs:2335-2494 | each poll terminates and keeps the invariant; after a failure the stream yields nothing more |
| Streams.Drive | src/application/proxy.rs:2335-2550 | over every run exactly one event is logged, with the outcome of the part of the script that is done with; a failure is the last item; the items are those of that part and some of the next sight |
| Streams.TerminalIsLogged | src/application/proxy.rs:2528-2573 | the first terminal event whose sight is done with is the outcome: `Completed` is `Succeeded`, `Failed` is `UpstreamSseError`, both only behind a successful answer |
| Streams.YieldedIsDone | src/application/proxy.rs:2335-2494 | a sight whose items were all yielded is done with |
| Streams.EndIsLogged | src/application/proxy.rs:2528-2558 | a plain stream without terminal events that is polled to its end is logged as the answer was |
| Streams.FailureIsLogged | src/application/proxy.rs:2390-2526 | a stream that fails undecided is logged with that failure |
| Streams.DropIsLogged | src/application/proxy.rs:3307-3311 | a stream dropped undecided is logged as cancelled |
| Streams.SuccessIsEarned | src/application/proxy.rs:2335-2573 | success takes a successful answer and, behind an adapter, a terminal event in a frame from upstream |
| Attempts.AttemptedCandidateSlots.Push | src/application/proxy.rs:2593-2627 | the inline array with its overflow list is a plain sequence |
| Attempts.ResponseFromUpstream | src/application/proxy.rs:2070-2249 | every answer ends in exactly one event and no lease; its outcome is that of its stream, or without a stream the one its headers, length and JSON body give; behind a streaming adapter success takes a terminal event unless there is no body |
| Attempts.Attempt | src/application/proxy.rs:550-900 | an attempt goes on to a slot not tried before, or ends in one event whose outcome is that of what sending came to; a retriable failure ends it only if retries are used up or no route is left |
| Attempts.TryRoutes | src/application/proxy.rs:471-900 | the loop terminates, uses each slot once, dispatches at most `max_retries + 1` times, has exactly one lease alive besides those of others as each route is tried, and ends in one event and no lease; it gives up on a retriable failure only without retries or routes, and logs each way of failing before the headers with its own outcome |
| Attempts.ProxyRequest | src/application/proxy.rs:440-900 | a request whose intent the log admits logs exactly one event with the intent's id; a denied one dispatches nothing and logs nothing |
| Admission.AdmissionRuntime.Admit | src/admission/mod.rs:98-154 | the pruning runtime answers as the limiter that never forgets a key, and keeps no other key that has nothing in flight and a window over 60 seconds old |
| Admission.AdmissionRuntime.Drop | src/admission/mod.rs:221-248 | a live lease finds its key; dropping it has the effect it has on the limiter that never forgets, and removes the key exactly if it was the last in flight and the window is over |
| Admission.Replay | src/admission/mod.rs:98-172 | over every trace with a monotone clock the answers are those of the limiter that never forgets |
| Admission.QuotaGate | src/admission/mod.rs:106-117 | over every trace a request is turned away for its quota exactly if the usage of its key, or some usage ever settled for it, reaches the quota |
| Admission.SettledIsGreatest | src/admission/mod.rs:156-172 | the usage remembered for a key reaches an amount exactly if some settled usage did |
| Admission.RateAndConcurrencyGates | src/admission/mod.rs:118-153 | past the quota, the three answers are given exactly by how many requests passed in the window and how many are in flight |
| Admission.InFlightIsLive | src/admission/mod.rs:145-153 | the in-flight count of a key is the number of its live leases |
| Admission.NeverOverConcurrency | src/admission/mod.rs:138-146 | with a constant limit the live leases never exceed it |
| Admission.RateBound | src/admission/mod.rs:118-136 | with a constant limit, any 60 seconds of any trace hold fewer than twice the limit of admissions |
| Admission.RateBoundTight | src/admission/mod.rs:118-136 | for every positive limit there is a trace that reaches the bound |
| Admission.RetryAfterIsLeast | src/admission/mod.rs:201-205 | the rate gate still rejects after `s` seconds exactly if `s` is below the announced delay, or the limit is zero |
| ProtectedFields.ProtectedIdempotent | src/application/response_adapter.rs:184-237 | projecting twice is projecting once |
| ProtectedFields.ProtectedLookup | src/application/response_adapter.rs:184-237 | the projection answers every path that ends at its first protected key as the value itself does |
| ProtectedFields.EqualProjectionsAgree | src/application/response_adapter.rs:184-237 | values with equal projections agree at every such path, at any depth |
| ProtectedFields.SomeFieldIff | src/application/response_adapter.rs:284-310 | the recursive searches find exactly the fields that some path leads to |
| ProtectedFields.EventsKeepProtected | src/application/response_adapter.rs:239-282 | every event that passes validation keeps the name, the id and all protected values of its input |
| ProtectedFields.TopLevelKept | src/application/response_adapter.rs:184-282 | each of the 21 named fields of the event itself is what it was, or as absent as it was |
| ProtectedFields.OthersMayChange | src/application/response_adapter.rs:184-282 | any other field that holds a text, number or the like may be changed or added |
| ProtectedFields.DonePasses | src/application/response_adapter.rs:239-247 | the end mark passes unchanged and in no other way |
| ProtectedFields.DoneMark | src/application/response_adapter.rs:243-243 | white space around the end mark does not matter |
| ProtectedFields.PassesIff | src/application/response_adapter.rs:239-310 | any other event passes exactly as one or more events with its name, id and protected values, and as several exactly if nothing in it ends, meters, numbers or calls anything |
| ProtectedFields.EventsFanOut | src/application/response_adapter.rs:239-310 | an event that becomes several has no terminal mark, usage, sequence number, tool call or finish reason at any depth |
| Sse.DecodeEvent | src/application/response_adapter.rs:312-338 | the loop computes the event that the lines define |
| Sse.FieldsRead | src/application/response_adapter.rs:312-338 | event, id and data are read from their lines with or without the space, ended by either line end; only one space is stripped; frames over the limit are refused |
| Sse.DataRead | src/application/response_adapter.rs:312-338 | a frame of one data line is an event with exactly that data |
| Sse.IgnoredLine | src/application/response_adapter.rs:320-331 | comments, lines without a colon that are no field, and unknown fields change nothing |
| Sse.IgnoredFirst | src/application/response_adapter.rs:312-338 | a frame that starts with such a line reads as the rest of it |
| Sse.EncodeEvent | src/application/response_adapter.rs:340-366 | the loops compute the printed event, refused exactly if it does not fit on lines or is too long |
| Sse.DecodeEncode | src/application/response_adapter.rs:312-366 | every event that can be encoded decodes to itself, with empty, multi-line and space-led data |
| Sse.Reencode | src/application/response_adapter.rs:312-366 | a decoded event encodes again exactly if its name has no NUL and it fits, and then decodes to the same event |
| Utf8.TextInPieces | src/application/channel_automation.rs:185-221 | decoding chunk by chunk with the unfinished bytes carried over is decoding the whole |
| Utf8.FirstOfEncoded | src/application/channel_automation.rs:194-196 | the decoder inverts the encoding of every character |
| Utf8.CharIffEncoded | src/application/channel_automation.rs:194-206 | the decoder finds a character exactly where an encoding of one stands |
| Utf8.BadSkipsNoChar | src/application/channel_automation.rs:194-216 | no byte that is skipped as invalid begins a character |
| Keywords.TrimToSuffix | src/application/channel_automation.rs:237-246 | what is kept is the longest end within the limit, at most three bytes short of it |
| Keywords.WindowSuffices | src/application/channel_automation.rs:223-234 | a window that keeps the longest keyword length less one byte finds every keyword that new text completes, and no other |
| Keywords.ErrorKeywordMatcher.MatchText | src/application/channel_automation.rs:223-234 | a keyword is reported exactly if one occurs in all the text so far; the window stays long enough |
| Keywords.ErrorKeywordMatcher.Observe | src/application/channel_automation.rs:185-221 | a keyword is reported exactly if one occurs in the folded text of what was accepted |
| Keywords.ScanBody | src/application/channel_automation.rs:160-246 | for every chunking a keyword is reported exactly if one occurs in the folded text of the first 64 KiB |
| Billing.RequestCostError | src/application/billing.rs:60-148 | a failed or cancelled request costs zero; any other has no amount exactly without usage, and else, in whole units of 1e-8, the sum of tokens times prices times multiplier over unit, up to half a unit of each rounding |
| Billing.RequestCostMonotone | src/application/billing.rs:60-148 | at prices and a multiplier that are not negative, a request never costs less for more usage |
| Billing.CostMonotone | src/application/billing.rs:139-148 | more input, cache-write or output tokens never cost less at the same prices |
| Billing.CostError | src/application/billing.rs:132-148 | the billed cost differs from the unrounded one by at most 0.5e-8 and 0.5e-12 for each token over the unit |

## Left out

- Slots at an older schema: payloads are taken as encoded at the current schema; decoding one and encoding it again gives the same bytes.
- Request ids: each request draws a fresh UUID, and its callers present one intent and one terminal event for it.
- SpoolProgress.SyncedNeverLost: a `sync_data` that finds everything synced or delivered makes no system call and is no step.
- SpoolBooks.AdmitsWhenRoom: the check of the free space on the device, which can deny more, is not modelled.
- File permissions, the process lock and the directory entry of `events.log`.
- Writes of `checkpoint.tmp` before its rename: its content counts from the rename on.
- SpoolCapacity.NeverOverLimit: starts from a recovery that is within budget; a spool found over its limit at startup is not brought under it by the source either.
- Completion.CompletionGuard.Finish: the fields of the event other than id and outcome, the health and affinity marks on the lease, and the admission lease are not modelled.
- Streams.StreamState.Poll: frame contents and their patching are unknown choices, so byte contents of the stream are not stated.
- The WebSocket path, and everything before the first route is selected.
- BodyWriter.ReplayableBodyWriter.Write: a chunk that fails part way counts as not written, as in the gauges; cleaning up the file itself is not modelled.
- Keywords.ErrorKeywordMatcher.Observe: case folding is per character, so a final sigma is folded like any other; keywords are not empty.
- ProtectedFields.EventsKeepProtected: JSON text is parsed by an arbitrary function; the comparison of usage collectors in `adapt_frame` is not modelled.
- Billing.CostError: division is exact and decimals are not limited to 28 digits; token counts satisfy cached at most input.
- The choice among price tiers and the request, channel and time multipliers: prices and their product are given.
- Machine-integer limits: offsets, counters and sizes are unbounded, so saturation is not modelled.
- Routing, transforms, connectors, plugins, the control plane, persistence, console and health checks.
