# QED64 plumbing, modelled and proved

QED64 runs Lean as WebAssembly in a browser. Between the editor and the Lean runtime sits plumbing that must not lose
or reorder anything: a codec for shared links, a decoder of Lean's byte stream, and a pipeline of four machines that
hold, merge, rebase and replay the editor's document. This project models those parts and proves what they are for,
over every input, every run and every interleaving.

The parts, hardest first:

- **Link codec** (`LzSpec`, `LzWire`, `LzString`). The compressor and the decompressor number their dictionaries in
  different orders and grow their code widths by separate counters. `Lockstep` is the simulation that keeps the
  decoder exactly one entry behind; the round trips for both alphabets, padded, stripped or with text behind them,
  follow from it. `WireFormat` says bit by bit what is written, so that links are those of the npm package, and
  `DecodesTokens` what the decoder makes of any list of tokens.
- **The pipeline** (`RelaySpec`, `CoalescerSpec`, `FrontDoorSpec`, `StdinRing`, and `PipelineSpec`, which puts the
  first three in series with the message channel to the worker, there and back). Two theorems are about all of it
  together, however edits, re-opens, crashes, restarts, halts and re-arms interleave. `DocumentAgreement`: the last
  document text handed to the ring is the relay's last text as soon as nothing is in flight; `RingAgreement` carries
  it to the bytes in the ring. `InOnePlace` and `OneAnswer`: every pending request is in exactly one place between the
  relay and the FileWorker, and every request gets exactly one answer, whoever gives it. Each machine has its own
  invariant over every run, and a class that runs as the source does, proved against the machine step by step. What
  each machine does at an event is also said from outside, by the events alone where that is possible: how a halt ends
  (`RelayWrites`), which lines are imports (`HeaderLines`), when the pool holds a change (`CoalescerPool`,
  `CoalescerMemory`), where each frame goes (`CoalescerRoutes`), and in which versions client and FileWorker hear of
  each other (`FrontDoorReplies`).
- **Frame decoder** (`FrameSpec`, `FrameCuts`, `LspFrames`). Frames come out of any junk between them, junk is counted
  to the byte, and chunking does not matter; the rolling match needs no failure table. `AllBytes` cuts any input at
  all into the frames and junk lines it is reported as.
- **Single-flight protocols** (`RawCacheSpec`, `RawCacheLaws`, `RawCacheCauses`, `RawCache`; `WidgetSpec`,
  `WidgetLaws`, `WidgetServes`, `WidgetSourceCache`), **pack segments** (`Profiles`, `ProfileTables`) and the
  **snapshot choice** (`Snapshots`, `SnapshotNames`).

## How it is put together

Code that changes state is a class or a method with loops (`LzString`, `LspFrames`, `EditCoalescer`, `FrontDoor`,
`StdinRing`, `WorkerHost`, `LspRelay`, `Profiles`, `RawCache`, `WidgetSourceCache`, `Snapshots`). Where the properties
range over whole runs, the class is proved equal, operation by operation, to a machine written as functions on values
(`…Spec`), and the theorems are lemmas about the machine's runs (`…Laws`). A machine's state carries its history (what
it forwarded, replied or wrote), so that "never", "once" and "before" can be said of it.

Numbers are unbounded integers unless a bound is stated. Time is a number carried by each step; a timer is its
deadline. Strings are sequences of 16-bit units in the codec, of bytes in the decoder and the ring, and abstract texts
in the document pipeline, where a frame is a record of method, id, document, version and text.

## What is assumed

- The editor's request ids are unique, the clock does not run backwards, and the FileWorker replies only to requests
  that were written to it, to each at most once, and not to `initialize`. (`PipelineSpec.Orderly`.) That a live
  session answers only what is pending follows for the pipeline; the laws of the relay alone take it from
  `RelaySpec.Enabled`, and `ReplyMustBePending` says that they need it.
- A disposed session emits nothing but a death the relay ignores; a live one starts once, then arms once.
- The client opens a document before it changes it, its versions rise strictly within one open (a re-open may start
  again at 1), and its documents carry full text. (`PipelineSpec.WellBehaved`.)
- For `RingAgreement` the last document fits the ring: `StdinRing.Ring.Accept` says exactly which frames do not.
- The reader of the ring takes available bytes at any moment, any number of them, and writes nothing else.
- Sessions of the widget-source cache do not come back once replaced.
- A Web Lock has one holder.

## Where the code and its comments differ

The model follows the code.

- frontend/src/lz-string.ts:8-10 promises null for any text over `maxChars`; the first character is never checked
  (lines 172-175). `CapMissesOneUnit` is the example, `CapMissedExactly` the exact condition.
- lib/edit-coalescer.ts:171 caps the unanswered requests "at any time"; a flush goes past the cap. `CapStep` is the
  exact condition for one step and `CapHoldsExactly` for a run: every replay, barrier and change of another document
  finds room for all the requests queued before it. `OneReplyMakesNoRoom` is the example; a reply may then free no
  slot, and `ReplyMakesRoom` says exactly when it does.
- lib/edit-coalescer.ts:279 says that a hold the last sample does not justify ends with the memory, with no new sample
  needed. A hold that began under a low sample has no timer for that: `HoldOutlastsMemory` is the example, and
  `MemoryEndsHold` the exact condition. Otherwise such a hold ends at the next sample or at the cap.
- lib/edit-coalescer.ts:192 says a window of 0 forwards every change at once; a full-text change then queues like any
  frame behind a request that waits for a slot. `ChangeAtOnce` is the exact condition for one step,
  `ZeroWindowExactly` over runs, `ZeroWindowHoldsBack` the example. The laws about changes are about a positive
  window; with none, changes are among the frames of `ArrivalOrder`, and `DocumentAgreement` covers both.

## Model

| member | source | states |
|---|---|---|
| LzSpec.Lockstep | frontend/src/lz-string.ts:77-207 | fed any text of two units or more, the encoder has put out exactly the phrases the decoder has read back, and the decoder's dictionary lags by exactly the newest entry (and the character not announced yet) |
| LzSpec.ReadPhrase | frontend/src/lz-string.ts:104-113 | whatever phrase the encoder puts out, code or announcement, the decoder reads that phrase, including the code equal to its next free one, and its dictionary becomes the encoder's |
| LzSpec.RoundTripBits | frontend/src/lz-string.ts:115-137 | decoding any bit stream that continues the compressed bits gives the text back, or null exactly when it has two units or more and is over the cap; the early-end test never fires |
| LzSpec.PackCarries | frontend/src/lz-string.ts:88-98 | the 6-bit values the writer pushes, flush included, carry every bit and at least one more, whatever follows them |
| LzSpec.RoundTripCore | frontend/src/lz-string.ts:34-75 | either alphabet: the unpadded text with anything behind it decodes to the original |
| LzSpec.RoundTripBase64 | frontend/src/lz-string.ts:49-64 | the padded text has a length that is a multiple of 4 and decodes to the original, with anything behind it |
| LzSpec.StripCore | frontend/src/lz-string.ts:49-58 | stripping trailing padding signs removes exactly the padding |
| LzSpec.RoundTripStripped | frontend/src/lz-string.ts:49-64 | a link written without its padding decodes to the original |
| LzSpec.RoundTripEncodedURIComponent | frontend/src/lz-string.ts:66-75 | the URI-safe spelling decodes to the original, also when its plus signs became spaces |
| LzSpec.DecodeWithinCap | frontend/src/lz-string.ts:139-207 | on any input whatever, no decoded text of more than one unit is over the cap |
| LzSpec.CapMissedExactly | frontend/src/lz-string.ts:165-175 | a link decodes to a text over the cap exactly when the text has at most one unit and is over it |
| LzSpec.CapMissesOneUnit | frontend/src/lz-string.ts:172-175 | a one-unit text passes a cap of 0 |
| LzSpec.EncoderWidth | frontend/src/lz-string.ts:96-102 | no text of up to 2^28 units makes the encoder use codes over 30 bits, so its 32-bit shifts are exact |
| LzSpec.WidthBounds | frontend/src/lz-string.ts:96-102 | a code takes exactly the binary digits of the number of codes in use |
| LzWire.WireFormat | frontend/src/lz-string.ts:77-137 | the format: the compressed bits of a text are, token by token, the number of the longest phrase known so far in as many digits as the codes in use take, or a 0 or 1 and the 8 or 16 digits of a unit that occurs for the first time, and at the end a 2; digits least significant first, the dictionary spelled out by phrases |
| LzWire.OneUnit | frontend/src/lz-string.ts:104-135 | a text of one unit is 00, its 8 digits, 010; from 256 on it is 10, its 16 digits, 010 |
| LzWire.DecodesTokens | frontend/src/lz-string.ts:164-207 | any tokens behind a letter, the encoder's or not: with the end marker they decode to what they spell whatever follows, cut off before it to the empty text, and to null exactly when a number is out of range or the text over the cap |
| LzWire.DecodesOthers | frontend/src/lz-string.ts:164-175 | a stream that begins with an end marker is the empty text, one that begins with 3 is null |
| LzWire.LinkIs | frontend/src/lz-string.ts:34-47 | the characters of a link: letters, digits and two signs, six bits each, the highest first, the last padded with zeros |
| LzWire.PaddedLinkIs | frontend/src/lz-string.ts:49-58 | the Base64 link goes on with equals signs to the next multiple of four |
| LzWire.LinkBits | frontend/src/lz-string.ts:148-163 | the decoder reads the same six digits from each character of any link, zeros from a character of no alphabet |
| LzWire.LinkOfA | frontend/src/lz-string.ts:49-58 | the link of the text of the letter a is IZA= |
| LzString.BitWriter.WriteBits | frontend/src/lz-string.ts:88-98 | appends the low bits of the value, least significant first, to the bits written, spelling each full six |
| LzString.BitWriter.Flush | frontend/src/lz-string.ts:131-136 | the text spells the packed bits, zero-padded, with one bit more than was written |
| LzString.Compressor.EmitPhrase | frontend/src/lz-string.ts:99-113 | the mutable counters, map and set follow the specification's output; the width in use is the bit length of the decoder's code count |
| LzString.Compressor.FeedUnit | frontend/src/lz-string.ts:115-128 | one turn of the loop over the input is one step of the specification's encoder |
| LzString.Compress | frontend/src/lz-string.ts:77-137 | the loop's result is the spelled, packed bits of the specification |
| LzString.CompressBase64 | frontend/src/lz-string.ts:50-58 | the padded text whose round trip is proved |
| LzString.GetBaseValue | frontend/src/lz-string.ts:38-47 | the last index of the character in the alphabet, 0 for a stranger |
| LzString.BitReader.ReadCode | frontend/src/lz-string.ts:148-163 | reads the next bits of the unpacked stream, least significant first, zeros past its end |
| LzString.Decompressor.Turn | frontend/src/lz-string.ts:176-206 | one turn decodes one phrase of the specification, reads only defined entries (3 to the next free code), and takes at least 3 bits |
| LzString.Decompress | frontend/src/lz-string.ts:139-207 | computes the specification's decoding on any input, in at most two turns per input character, with codes of at most 30 bits on inputs below 2^26 characters |
| LzString.DecompressBase64 | frontend/src/lz-string.ts:60-64 | the decoding of the Base64 spelling, null for the empty string |
| LzString.DecompressEncodedURIComponent | frontend/src/lz-string.ts:71-75 | the decoding of the URI-safe spelling with spaces read as plus signs |
| PipelineLaws.DocumentAgreement | lib/lsp-relay.ts:99-163 | over every run: when the relay serves a document, nothing of it is in flight and the worker lives, the front door is open, knows the relay's version and the import lines of its text, and the last document it wrote to the ring carries the relay's last text |
| PipelineLaws.NewestInFlight | public/workers/lsp-front-door.js:229-359 | over every run: while a session lives with its loop open, the last document frame among those written, parked, posted and held carries the relay's last text |
| WorkerHost.RingAgreement | public/workers/lean.worker.js:761-818 | in that situation, for the worker of the pipeline's present session, the last document among the frames the ring accepted carries the relay's last text, if it is at most half the ring; what the reader took or can take are the first bytes of these frames, all of them once nothing is queued |
| PipelineWorker.ElsewhereStep | lib/lsp-relay.ts:136-141 | whatever the relay, the coalescer and the channel do while the session stays, the worker's front door is as it was |
| PipelineAnswers.OneAnswer | lib/resident-session.ts:194-213 | over every run of the pipeline a request is answered exactly once or still pending, whether the FileWorker, the front door, the coalescer or the relay answers it |
| PipelineAnswers.InOnePlace | lib/resident-session.ts:194-213 | a pending request is, while the worker lives, exactly once in the coalescer, on the wire, at the front door, at the FileWorker or on its way back, and at most once when it died; any other request is nowhere |
| PipelineAnswers.PipelineRelay | lib/lsp-relay.ts:136-141 | the relay's part of any run is a run `RelayLaws` is about: a reply that comes back, from the FileWorker, the front door or the coalescer, is to a pending request |
| PipelineAnswers.AllAnswered | lib/lsp-relay.ts:99-141 | on a living worker that took and answered all it was sent, every request ever made has had its one answer |
| PipelineRequests.SendGains | lib/edit-coalescer.ts:346-383 | a request that is sent is forwarded, answered, queued or held, once, and no other is lost or doubled by it |
| PipelineRequests.NextSame | lib/edit-coalescer.ts:297-345 | timers, samples and settled slots lose and double no request |
| PipelineRequests.AdmitGains | public/workers/lsp-front-door.js:255-369 | a request that a live front door admits is held, parked, written or answered, once, drained queue included; a dead one may drop it and doubles none |
| PipelineEdits.SendTakes | lib/edit-coalescer.ts:346-383 | a send adds its document frame behind all documents the coalescer passed or holds, or puts it in the place of a held full-text change; no other document is lost or reordered, with or without a window |
| PipelineEdits.NextMoves | lib/edit-coalescer.ts:297-345 | timers, samples and settled requests lose, add and reorder no document frame |
| PipelineDoor.AdmitDoor | public/workers/lsp-front-door.js:255-359 | a document frame that is newer than the last one, or an open, becomes the front door's document with its version and text, in whatever phase; any other frame leaves it |
| PipelineDoor.ArmDoor | public/workers/lsp-front-door.js:445-450 | arming drains the held queue to an open loop on its newest document, and to none when none is held |
| CoalescerLaws.TextOrder | lib/edit-coalescer.ts:297-319 | a frame sent behind a change is forwarded only after that change, or one sent later, was |
| CoalescerLaws.ChangesInOrder | lib/edit-coalescer.ts:346-361 | full-text changes reach the worker in the order they were sent |
| CoalescerLaws.RebaseSafety | lib/edit-coalescer.ts:337-345 | a semantic-tokens or completion request is never forwarded once a change of its document was sent behind it |
| CoalescerLaws.RejectedForAChange | lib/edit-coalescer.ts:337-345 | such a request is answered ContentModified only because a change of its document was sent behind it, before the answer |
| CoalescerLaws.NoneLeftStale | lib/edit-coalescer.ts:337-345 | and one that is queued was sent after every change of its document |
| CoalescerLaws.FateFollowsArrival | lib/edit-coalescer.ts:346-383 | whatever is forwarded, answered, replaced, absorbed or dropped was sent before |
| CoalescerLaws.ChangesApart | lib/edit-coalescer.ts:289-294 | two successive changes are forwarded at least a window apart, unless a flush forced the later one |
| CoalescerLaws.ArrivalOrder | lib/edit-coalescer.ts:362-383 | frames that are no change, cancel or keep-alive are forwarded in the order they were sent |
| CoalescerLaws.SlotsRespected | lib/edit-coalescer.ts:284-307 | outside a flush no request is forwarded with the maximum in flight |
| CoalescerLaws.Conservation | lib/edit-coalescer.ts:346-399 | a sent frame met exactly one fate (forwarded, rejected, replaced, absorbed, dropped or ignored), or is held or queued, once |
| CoalescerLaws.Waiting | lib/edit-coalescer.ts:257-260 | a held change has a timer, the window and the cap are never both armed, and frames behind nothing held wait only for a slot |
| CoalescerLaws.BoundedWait | lib/edit-coalescer.ts:321-336 | with punctual timers a change waits at most the window and the hold's cap, however often newer ones replace it |
| CoalescerPool.PressureIs | lib/edit-coalescer.ts:267-268 | over every run the pool counts as under pressure exactly when the last sample showed 0 to minFree - 1 free workers, or one like it came less than the memory ago |
| CoalescerPool.PoolDecides | lib/edit-coalescer.ts:352-355 | with nothing held and no window open a full-text change is forwarded in its step when the samples show no pressure, and is held with the cap armed when they do |
| CoalescerPool.WindowDecides | lib/edit-coalescer.ts:332-336 | at the window's end what is held goes when the samples show no pressure, and stays with the cap armed when they do |
| CoalescerPool.SampleDecides | lib/edit-coalescer.ts:384-388 | a sample releases a hold for the pool exactly when the samples up to it show no pressure |
| CoalescerPool.MemoryDecides | lib/edit-coalescer.ts:279-283 | the memory's expiry releases a hold for the pool exactly when the samples show no pressure; else only its timer is gone |
| CoalescerPool.CapDecides | lib/edit-coalescer.ts:327-331 | at the cap's end the held change goes whatever the samples show |
| CoalescerPool.HoldStays | lib/edit-coalescer.ts:320-331 | a hold for the pool ends in a step only by the cap, by a sample or the memory's expiry with no pressure left, by a flush, or with the session |
| CoalescerMemory.MemoryEndsHold | lib/edit-coalescer.ts:279-283 | while a hold is on and the last sample shows enough free workers, the memory's expiry is due to end it exactly when the hold began under the memory alone or another low sample came since |
| CoalescerMemory.HoldBegan | lib/edit-coalescer.ts:320-326 | every hold that is on began with one step of the run, which MemoryEndsHold speaks of |
| CoalescerMemory.HoldOutlastsMemory | lib/edit-coalescer.ts:320-326 | a low sample, a change held for it, a free sample: the change stays held with only the cap to end its wait, long after the memory is over |
| CoalescerRoutes.BarrierGoes | lib/edit-coalescer.ts:381-382 | an open, a close, a change of a part and every replay are forwarded in their step, behind the held change and all that is queued, in their order |
| CoalescerRoutes.OtherDocumentFlushes | lib/edit-coalescer.ts:350-350 | a change of another document than the held one first lets everything go that was in front of it |
| CoalescerRoutes.CancelRoutes | lib/edit-coalescer.ts:362-369 | a cancel that names a queued request is consumed and the request answered RequestCancelled; any other goes at once |
| CoalescerRoutes.OthersRoute | lib/edit-coalescer.ts:370-380 | any other frame goes in its step exactly when it needs no slot and no place, or nothing is queued and it needs no slot or finds one; else it queues last |
| CoalescerRoutes.SupersedeIs | lib/edit-coalescer.ts:337-345 | exactly the queued semantic-tokens and completion requests of the document are answered ContentModified, in order, and the others stay in theirs |
| CoalescerRoutes.ChangeAnswers | lib/edit-coalescer.ts:349-361 | over every run a full-text change with nothing of another document held answers just those requests of its document, and no other, last in its step |
| CoalescerLimits.ChangeGoesInTime | lib/edit-coalescer.ts:321-361 | with punctual timers a change that is sent goes within the window and the hold's cap of the step it was sent in, or a change of its document sent later does |
| CoalescerLimits.FlushStep | lib/edit-coalescer.ts:314-319 | a flush puts all queued requests in flight, whatever the cap |
| CoalescerLimits.CapStep | lib/edit-coalescer.ts:170-171 | a step keeps the requests in flight within the cap exactly unless it flushes more of them than there are free slots; over the cap only a flush adds any |
| CoalescerLimits.CapHoldsExactly | lib/edit-coalescer.ts:170-171 | throughout a run at most the maximum is in flight exactly when every replay, barrier and change of another document finds room for all the requests queued before it |
| CoalescerLimits.NothingHeld | lib/edit-coalescer.ts:347-361 | with a window of 0 nothing is ever held |
| CoalescerLimits.ChangeAtOnce | lib/edit-coalescer.ts:191-192 | with a window of 0 a change goes in the step it is sent exactly when nothing is queued (and, had it an id, a slot is free); else it queues last |
| CoalescerLimits.ZeroWindowExactly | lib/edit-coalescer.ts:191-192 | over every run with a window of 0: the change goes at once exactly when nothing is queued, and what is queued waits for a slot |
| CoalescerLimits.ZeroWindowHoldsBack | lib/edit-coalescer.ts:371-377 | two requests and one slot hold a change back |
| CoalescerLimits.ReplyMakesRoom | lib/edit-coalescer.ts:389-391 | a reply lets the queue's head go in that step exactly when the head needs no slot or the reply freed one |
| CoalescerLimits.OneReplyMakesNoRoom | lib/edit-coalescer.ts:314-319 | a barrier's flush puts two requests in flight with one slot, and a reply then frees none |
| EditCoalescer.Coalescer.Send | lib/edit-coalescer.ts:347-383 | the closure state after a send, and the calls of forward and reject it makes, are the machine's |
| EditCoalescer.Coalescer.Drain | lib/edit-coalescer.ts:295-307 | the loop forwards the queue's head while slots allow, and past a waiting request only keep-alives |
| EditCoalescer.Coalescer.PassKeepAlives | lib/edit-coalescer.ts:300-302 | the splice loop forwards every keep-alive behind the waiting request, in order |
| EditCoalescer.Coalescer.FlushAll | lib/edit-coalescer.ts:314-319 | the held change, then the whole queue |
| EditCoalescer.Coalescer.Supersede | lib/edit-coalescer.ts:337-345 | the loop answers exactly the overtaken rebased requests of the document |
| EditCoalescer.Coalescer.Place | lib/edit-coalescer.ts:352-360 | a change goes, is held for the window or the pool, or replaces the held one |
| EditCoalescer.Coalescer.SendOther | lib/edit-coalescer.ts:362-379 | cancels, keep-alives and requests: answered here, forwarded or queued |
| EditCoalescer.Coalescer.Observe | lib/edit-coalescer.ts:384-388 | a sample updates the pressure memory and releases a hold it does not justify |
| EditCoalescer.Coalescer.Settle | lib/edit-coalescer.ts:389-391 | a reply frees its slot and drains |
| EditCoalescer.Coalescer.Tick | lib/edit-coalescer.ts:332-336 | the window's end holds or releases |
| EditCoalescer.Coalescer.Recheck | lib/edit-coalescer.ts:279-283 | the memory's expiry ends a hold the pool no longer justifies |
| EditCoalescer.Coalescer.Dispose | lib/edit-coalescer.ts:392-399 | everything waiting is dropped and every timer stopped |
| FrontDoorLaws.VersionsRise | public/workers/lsp-front-door.js:229-244 | the document versions written to the ring rise strictly over every run |
| FrontDoorLaws.OpeningSequence | public/workers/lsp-front-door.js:318-332 | the loop starts at most once, the first two frames written are initialize and didOpen, and nothing is written before |
| FrontDoorLaws.NothingAfterDeath | public/workers/lsp-front-door.js:458-465 | after a death nothing is written, whatever comes |
| FrontDoorLaws.ArrivalOrder | public/workers/lsp-front-door.js:212-227 | the frames that are no documents are written, parked or held in arrival order and none is lost: with the completions it answered itself between them they are all that arrived; after a death what was lost stands behind the written ones |
| FrontDoorLaws.StaleFramesStayBelow | public/workers/lsp-front-door.js:304-316 | after a re-open at version v, a server frame about any earlier document version reaches the client below v |
| FrontDoorLaws.ReadyIsNewest | public/workers/lsp-front-door.js:371-386 | ready is reported only when the server drained the newest version written and none newer is parked |
| FrontDoorLaws.LastReport | public/workers/lsp-front-door.js:430-438 | the progress the phase is decided by is the last report with a version |
| FrontDoorReplies.RepliesFollowTheOpen | public/workers/lsp-front-door.js:404-441 | from an open at the client's version v, given to the FileWorker as its version w, to the next, a frame of the FileWorker's about version w + d is heard as about v + d, otherwise unchanged, and one about no version as it is; the opening frame itself is the sequence of initialize and didOpen, or a full-text change behind all that was given, above all its versions |
| FrontDoorReplies.FramesFollowTheOpen | public/workers/lsp-front-door.js:229-359 | in the same versions the client's frames are written or parked at once, but those answered here, the notifications the FileWorker does not know and the changes at or below the last version |
| FrontDoorReplies.ClientHears | public/workers/lsp-front-door.js:255-303 | a client's frame is answered here exactly when it is initialize (no replay), shutdown, or a completion on an import line or under the last verdict's refusal |
| FrontDoorReplies.LastVersionIsNewest | public/workers/lsp-front-door.js:304-316 | when changes carry versions, the last version is the newest document's the FileWorker was given, through drains, parks and re-opens |
| FrontDoorReplies.TextsFollow | public/workers/lsp-front-door.js:229-359 | on the open loop the import lines are those of the last full text passed on, and each frame dropped is counted |
| FrontDoorReplies.FirstText | public/workers/lsp-front-door.js:318-331 | a document that starts the loop with nothing held brings its own import lines |
| FrontDoorReplies.ParkedIs | public/workers/lsp-front-door.js:451-457 | frames are parked only while the ring last said that it is, and all are written once it drained |
| FrontDoorReplies.StatusIs | public/workers/lsp-front-door.js:371-386 | the status shown is decided by the death, the boot, the loop, the last versioned report and the last verdict among the events, and the last version |
| FrontDoor.Work.Admit | public/workers/lsp-front-door.js:255-359 | one client frame through the mutable state and effects of a step is the machine's, the completions on an import line or under a refused header answered at once included; with Drain it terminates |
| FrontDoor.Work.Drain | public/workers/lsp-front-door.js:361-369 | the loop re-admits the held queue in order |
| FrontDoor.Work.Emit | public/workers/lsp-front-door.js:229-244 | remembers the version and the import lines, rebases the frame, writes or parks it |
| FrontDoor.Work.OpenLoop | public/workers/lsp-front-door.js:318-331 | the opening sequence, with nothing between its two frames |
| FrontDoor.Work.Step | public/workers/lsp-front-door.js:401-471 | a step's new state and effects are the machine's |
| StdinRing.Ring.Fifo | public/workers/lean.worker.js:201-266 | at every moment, with the reader running at will, the bytes taken and those in the ring are a prefix of the accepted frames concatenated in acceptance order |
| StdinRing.Ring.CompletedAreIn | public/workers/lean.worker.js:225-260 | completed frames are in the ring or taken to their last byte, and every accepted frame is completed, aborted or queued |
| StdinRing.StoreKeeps | public/workers/lean.worker.js:252-253 | storing a chunk behind WRITE overwrites no unread byte |
| StdinRing.PublishBack | public/workers/lean.worker.js:255-255 | moving WRITE past stored bytes puts them behind the unread ones |
| StdinRing.TakeFront | public/workers/lean.worker.js:241-243 | what the reader takes comes off the front of the unread bytes |
| StdinRing.AckedIn | public/workers/lean.worker.js:258-259 | when only queued frames have unwritten bytes, the completed ones are wholly in the stream |
| StdinRing.Ring.StoreChunk | public/workers/lean.worker.js:251-256 | one chunk joins the end of the stream and the item's offset moves by it, with the reader running between the store of the bytes and that of WRITE |
| StdinRing.Ring.PumpQueue | public/workers/lean.worker.js:235-261 | the pump drains the queue or parks on a frame that is not whole, keeping order and whole frames under any reader |
| StdinRing.Ring.Accept | public/workers/lean.worker.js:216-234 | a frame is accepted exactly when it is at most half the ring and the worker lives; otherwise nothing changes and the error says which |
| StdinRing.Ring.Die | public/workers/lean.worker.js:910-925 | a death empties the queue, aborts each frame not completed, and writes nothing more |
| WorkerHost.Host.Hand | public/workers/lean.worker.js:809-817 | a frame the front door wrote goes behind all it wrote before, unless it is over half the ring or the worker is dead |
| WorkerHost.Host.Pump | public/workers/lean.worker.js:235-266 | a park is told to the front door once; a drain behind it releases the held frames in order through re-entrant writes, and the ring has again all that was written |
| WorkerHost.Host.Apply | public/workers/lean.worker.js:761-819 | between two steps the frames the ring accepted are those the front door wrote, in order, but for the oversized; a loop that does not start is a death; the calls are the worker's steps in a run of the pipeline |
| WorkerHost.Host.Die | public/workers/lean.worker.js:909-925 | the front door and the ring learn of a death together |
| RelayLaws.OneAnswer | lib/lsp-relay.ts:112-121 | over every run whose sessions reply to pending requests only, a request is answered exactly once or still pending; a halted relay has none pending |
| RelayLaws.ReplyMustBePending | lib/lsp-relay.ts:138-138 | the relay passes on any reply: the account of answers stays right exactly when the reply is to a pending request |
| RelayLaws.NoRebootStorm | lib/lsp-relay.ts:165-183 | between two re-arms no 120 s window holds three reboots that deaths caused |
| RelayLaws.BreakerHalts | lib/lsp-relay.ts:165-183 | a death halts exactly when it is an engine-stack one (uncounted, options kept) or two counted deaths lie in its window (options forgotten); either way everything pending is answered, and the halted answers name the cause of this death |
| RelayLaws.DeathsAreTheWindow | lib/lsp-relay.ts:175-177 | the remembered deaths are exactly the counted ones in the window of the latest |
| RelayLaws.SupersededIsMute | lib/lsp-relay.ts:136-167 | whatever a superseded session still reports, and a death after a halt, can be struck out of any run without changing where it ends |
| RelayLaws.OptionsOfTheLatestRestart | lib/lsp-relay.ts:199-214 | over every run, a session made after a crash or a re-arm gets no options, or those of the latest user restart with the header it was made for unchanged |
| RelayWrites.HaltEnds | lib/lsp-relay.ts:112-121 | over every run a halt ends exactly with an edit or a re-arm: deaths forgotten, one new session, and the edit sent to it and nothing else; until then a request is answered and nothing else is logged |
| RelayWrites.ClientWrites | lib/lsp-relay.ts:112-121 | on a relay not halted a client's frame is sent to the session, and only a request becomes pending |
| RelayWrites.RestartWrites | lib/lsp-relay.ts:123-131 | a restart is taken by a serving relay only: pending answered in order, the session disposed of, a new one made with the options and the header of the last text, no death counted |
| RelayWrites.DeathWrites | lib/lsp-relay.ts:165-183 | a death of the present session answers everything pending in order, disposes of the session, and makes one more unless the relay halts; any other death does nothing |
| RelayWrites.BootWrites | lib/lsp-relay.ts:147-162 | a started session gets the last initialize as a replay and the document as the relay knows it, and serves once it armed |
| RelayWrites.Remembers | lib/lsp-relay.ts:100-111 | what is remembered of each frame of the client: the initialize, the document with its version, the full text |
| HeaderLines.ImportIs | lib/lsp-relay.ts:45-53 | the relay's prefix tests accept a line exactly when the import pattern of the front door matches it: spaces, an access word, meta, import, each with its gap |
| HeaderLines.SpaceIs | lib/lsp-relay.ts:39-44 | what counts as space are the 25 characters ECMAScript lists |
| HeaderLines.LinesAre | lib/lsp-relay.ts:54-54 | the lines hold no line feed and joined by them are the text |
| HeaderLines.ImportLinesAre | public/workers/lsp-front-door.js:122-126 | the import lines are the numbers of just the lines the pattern matches |
| HeaderLines.SameHeader | lib/lsp-relay.ts:55-55 | two texts have one header exactly when the pattern matches the same lines of both, in the same order |
| LspRelay.Relay.FromClient | lib/lsp-relay.ts:99-121 | records, answers while halted, re-arms on a change, forwards: the machine's step |
| LspRelay.Relay.FailInFlight | lib/lsp-relay.ts:216-223 | the loop answers every pending request, each out of the map before its reply |
| LspRelay.Relay.Restart | lib/lsp-relay.ts:123-131 | a deliberate replacement: options and header remembered, pending answered, no death counted |
| LspRelay.Relay.OnDied | lib/lsp-relay.ts:165-183 | a death of the current session: pending answered, disposed, halted or rebooted |
| LspRelay.Relay.RecentDeaths | lib/lsp-relay.ts:176-176 | the filter keeps exactly the deaths of the window, in order |
| LspRelay.Relay.ReusableOpts | lib/lsp-relay.ts:210-214 | the remembered options while the header stands, else none, forgotten |
| LspRelay.Relay.Started | lib/lsp-relay.ts:148-155 | the replay: initialize, then the document as the relay knows it |
| FrameSpec.Recovery | public/workers/lsp-frames.js:64-199 | for any interleaving of framed bodies with junk that holds no header, exactly those bodies come out in order and the junk count is all the junk |
| FrameSpec.RecoveryWithTail | public/workers/lsp-frames.js:178-199 | with junk behind the last frame: counted or still pending, to the byte |
| FrameSpec.FrameBehindJunk | public/workers/lean.worker.js:268-275 | one printed frame behind any junk is recovered and leaves the decoder clean |
| FrameSpec.RollingMatch | public/workers/lsp-frames.js:81-86 | restarting at the byte at hand keeps the longest tail that begins a header, without a failure table |
| FrameSpec.Reachable | public/workers/lsp-frames.js:64-92 | on any input the match is the longest tail of the junk run that begins a header, also across the cap's flush |
| FrameSpec.LengthRead | public/workers/lsp-frames.js:145-165 | the length parsed from a printed header is the number that was printed |
| FrameSpec.PushAllConcat | public/workers/lsp-frames.js:102-117 | feeding two byte strings one after the other is feeding their concatenation |
| FrameCuts.AllBytes | public/workers/lsp-frames.js:64-199 | any input is its events' bytes one after the other, and what is pending: a frame is a header in letters of either case, the shortest that ends blank, and as many bytes as its digits say; a junk line is the bytes up to a line feed, a header or the cap, less the line ends behind them |
| FrameCuts.JunkThenFrame | public/workers/lsp-frames.js:94-101 | junk on one line in front of a frame is reported as it is but for its line end, then the body; an empty line between them exactly when the cap cuts the header |
| FrameCuts.LengthIs | public/workers/lsp-frames.js:145-165 | the length read is the number written behind the spaces, and none exactly when no digit is there |
| FrameCuts.FramedIs | public/workers/lean.worker.js:268-275 | a printed frame, character by character |
| FrameCuts.DecimalIs | public/workers/lean.worker.js:268-275 | the digits of its length are the number's, with no leading zero |
| LspFrames.LspFrameDecoder.Push | public/workers/lsp-frames.js:64-92 | one byte through the buffer is one step of the automaton |
| LspFrames.LspFrameDecoder.PushBytes | public/workers/lsp-frames.js:102-117 | a chunk, bodies copied in bulk, leaves the decoder where feeding it byte by byte would |
| LspFrames.LspFrameDecoder.Grow | public/workers/lsp-frames.js:119-133 | compacting and doubling make room and keep the run |
| LspFrames.LspFrameDecoder.ParseHeader | public/workers/lsp-frames.js:145-165 | the digit loops find the length or report junk, as the automaton does |
| LspFrames.LspFrameDecoder.FlushJunk | public/workers/lsp-frames.js:181-199 | the bytes up to the end are reported trimmed and counted untrimmed, the rest kept |
| LspFrames.LspFrameDecoder.EmitBody | public/workers/lsp-frames.js:167-176 | the body is the needed bytes; what follows stays |
| Profiles.MemoryInstall | lib/profiles.ts:560-568 | segment fidelity: for an accepted table and pieces that make up the profile pack, in whatever cut, the segments exist, are those of greedy plans, and each entry's bytes are its file's bytes in the profile pack |
| Profiles.InOnePlan | lib/profiles.ts:66-92 | the plans hold the files of the table, and each is in one plan and no other |
| ProfileTables.EveryFile | lib/profiles.ts:66-136 | every file of an accepted table stands in a segment under its own name, and the bytes its entry names there are its bytes of the profile pack |
| Profiles.PlanSegments | lib/profiles.ts:66-92 | the plans hold the ordered table, cut at file boundaries; each is at most the limit or one oversized file, starts and ends with its files, and could not have taken the next one's first file |
| Profiles.BuildSegments | lib/profiles.ts:96-136 | the two cursors cut every plan's bytes out of the concatenated pieces, empty pieces included; it fails exactly when a plan asks for bytes past their end, on the first such plan |
| Profiles.Cut | lib/profiles.ts:106-124 | the inner loop ends and collects exactly the stream's bytes between the plan's ends, or reports that they end before |
| Profiles.Assemble | lib/profiles.ts:125-132 | the buffer is the parts, one after the other |
| Profiles.ValidateFiles | lib/profiles.ts:322-344 | accepts a table exactly when it is not empty, its names and ranges are good, and no file begins before an earlier-ordered one ends; otherwise names the first fault |
| ProfileTables.AcceptsIs | lib/profiles.ts:322-344 | a table is accepted exactly when it has files, each has an absolute name without two dots in a row and a range within the profile pack, and of any two the one that starts first, or stands first, ends before the other starts: empty files and touching ones may be there |
| ProfileTables.FaultIs | lib/profiles.ts:326-343 | what is reported of a file: its name before its range before an overlap |
| Profiles.NeighboursSuffice | lib/profiles.ts:325-344 | comparing neighbours in order excludes every overlap |
| Profiles.SortedIs | lib/profiles.ts:67-67 | the order used is ascending by start, a permutation, and stable |
| Profiles.PieceAt | lib/profiles.ts:98-105 | a piece lies in the stream where the running offset says |
| RawCacheLaws.OneWorker | lib/raw-cache.ts:191-219 | with Web Locks at most one prefetch worker of a key is alive across all tabs, and its flight holds the lock |
| RawCacheLaws.OneFlightPerTab | lib/raw-cache.ts:148-162 | in one tab at most one flight of a key takes callers or runs a worker, with or without locks |
| RawCacheLaws.SettlesOnce | lib/raw-cache.ts:152-181 | a caller's promise settles at most once, and has settled exactly when it left its flight or the flight settled |
| RawCacheLaws.OnlyWaitersQueue | lib/raw-cache.ts:150-173 | only callers that asked to wait are in a flight queued behind another tab |
| RawCacheLaws.ClosedForGood | lib/raw-cache.ts:185-189 | a closed flight gains no caller whatever comes, and a settled one keeps its result |
| RawCacheLaws.ToldForGood | lib/raw-cache.ts:155-155 | after a caller was answered no message or timer changes its answer |
| RawCacheLaws.SixStepsSettle | lib/raw-cache.ts:191-287 | a flight settles after at most six steps of its own, whatever other calls, aborts, timers and flights come between them |
| RawCacheLaws.NoDeadlock | lib/raw-cache.ts:191-287 | a flight that has not settled has a step due, or is queued behind the lock's holder, which has one |
| RawCacheLaws.IdleMeansAnswered | lib/raw-cache.ts:152-181 | once nothing is due every flight has settled and every caller's promise settled exactly once |
| RawCacheCauses.StatusByCause | lib/raw-cache.ts:134-181 | over every run a caller settles with a status exactly when there is that reason: the checks before any flight, busy for a queued flight it would not wait for, aborted by its own signal, busy at its own wait's end or another tab's lock, its flight's result |
| RawCacheCauses.StatusHasCause | lib/raw-cache.ts:134-181 | every answer given has its reason at an event of the run |
| RawCacheCauses.CallGoes | lib/raw-cache.ts:148-182 | a call makes one caller: told at once, or joined to the one flight of its tab that takes callers, or alone in a new one when there is none |
| RawCacheCauses.WaitRuns | lib/raw-cache.ts:168-173 | a caller's own wait runs exactly while it is unanswered, asked to wait, and its flight waits for another tab |
| RawCacheCauses.EndByCause | lib/raw-cache.ts:191-287 | a flight ends with a status, or its worker is given up as silent or aborted, exactly when there is that reason, and keeps what it ended with |
| RawCacheCauses.EndHasCause | lib/raw-cache.ts:191-287 | every flight's end has its reason at an event of the run |
| RawCache.Prefetches.Call | lib/raw-cache.ts:148-182 | a call is turned away, joins the open flight, or starts one |
| RawCache.Prefetches.Detach | lib/raw-cache.ts:163-167 | an abort or an expired wait takes out that caller only; the last one aborts the flight |
| RawCache.Prefetches.Refuse | lib/raw-cache.ts:210-214 | callers that do not wait are answered busy, the others queue with their own timers |
| RawCache.Prefetches.GiveUp | lib/raw-cache.ts:242-256 | silence or the last abort ends the worker and closes the flight; later ones do nothing |
| RawCache.Prefetches.Settle | lib/raw-cache.ts:176-179 | the flight closes and every caller it has is resolved with its result |
| RawCache.Prefetches.Step | lib/raw-cache.ts:134-287 | every event changes the flights, callers and lock as the protocol does |
| WidgetLaws.OneReply | frontend/src/widget-source-cache.ts:57-106 | over every run a request is answered once, or leads, or waits behind a leader that is out: across results, errors, waiter and leader cancels, promotions and session changes |
| WidgetLaws.AllAnswered | frontend/src/widget-source-cache.ts:83-106 | once every forwarded leader got its reply, every request has been answered exactly once |
| WidgetLaws.OneLeader | frontend/src/widget-source-cache.ts:74-80 | at most one leader per hash and session is out |
| WidgetLaws.CacheServesItsSession | frontend/src/widget-source-cache.ts:49-53 | what the cache serves was delivered in this session, to a leader of this session, for that hash |
| WidgetLaws.RepliesAreSound | frontend/src/widget-source-cache.ts:55-106 | each reply sent from here is to a request for that hash, and is a cancellation, this session's cached source, or what the leader it waited behind got |
| WidgetServes.RequestGoes | frontend/src/widget-source-cache.ts:70-80 | over every run a request is answered from here exactly when its session was delivered a source for the hash, with the last one; it waits exactly when none was and a request for it is under way in the session; else it is forwarded |
| WidgetServes.DeliveryServes | frontend/src/widget-source-cache.ts:83-97 | once a source was delivered to a leader in its session, every later request of the session for that hash is answered from here with a source, and not forwarded |
| WidgetServes.RequestWaits | frontend/src/widget-source-cache.ts:74-77 | a request that waits is the last behind the one under way |
| WidgetServes.ReplyGoes | frontend/src/widget-source-cache.ts:83-106 | an answer to a request under way is passed on and given to all behind it in order, except that a cancelled one in its own session makes the next one lead the rest; any other answer only passes |
| WidgetServes.CancelGoes | frontend/src/widget-source-cache.ts:58-69 | a cancel is answered here, and not passed on, exactly when its request waits |
| WidgetSourceCache.Cache.Request | frontend/src/widget-source-cache.ts:70-80 | from the cache, behind a leader, or as a leader: the machine's step |
| WidgetSourceCache.Cache.Cancel | frontend/src/widget-source-cache.ts:58-69 | a waiter's cancel is answered here and consumed; any other goes on |
| WidgetSourceCache.Cache.Out | frontend/src/widget-source-cache.ts:83-106 | a leader's reply is cached in its session, answers its waiters, or promotes the next one |
| Snapshots.FixedHeaderWidensOnce | lib/snapshots.ts:232-259 | a page whose header stays the same widens at most once, whatever of it is refused and in whatever order |
| Snapshots.WidenedOnce | lib/snapshots.ts:243-259 | with the target loaded, no later refusal drawn from that header widens again |
| Snapshots.TargetIsSmallest | lib/snapshots.ts:246-259 | the target is a smallest entry not loaded that covers all that is missing and all the header needs; there is none exactly when no entry does or the loaded ones claim everything missing |
| Snapshots.SmallestCover | lib/snapshots.ts:210-230 | when an entry covers every required module, the chosen one does and is a smallest that does |
| Snapshots.RootsOfCover | lib/snapshots.ts:247-248 | a module is under the collected roots exactly when one of the named entries covers it |
| Snapshots.ChooseSnapshots | lib/snapshots.ts:217-230 | the base alone exactly when no other entry covers a required module, else the base and the first entry no other beats in coverage, then size |
| Snapshots.BestIsOne | lib/snapshots.ts:221-228 | the choice is determined: there is one best entry at most |
| Snapshots.WidenTarget | lib/snapshots.ts:246-259 | the loop finds the first smallest entry that serves, unless every missing module is already claimed |
| SnapshotNames.UnderIs | lib/snapshots.ts:204-205 | a root covers the modules whose dotted names begin with its parts, itself among them |
| SnapshotNames.ClaimsIs | lib/snapshots.ts:201-205 | an entry covers a module by its declared roots, or as the umbrella without any by the module's first part |
| SnapshotNames.CandidateIs | lib/snapshots.ts:217-230 | what can be chosen beside the base is an entry outside it that claims a module of the header that is neither Init's nor the base's |
| SnapshotNames.RefutedIs | lib/snapshots.ts:246-249 | nothing is widened to when each missing module is Init's or claimed by an entry the session has |
| SnapshotNames.ServesIs | lib/snapshots.ts:250-257 | a target is not loaded and claims all that is missing and the header's modules outside Init that the base does not claim and some entry does |

## Left out

- RelayLaws.OneAnswer: is about the relay alone and takes it that its sessions reply to pending requests only; PipelineAnswers.OneAnswer, with the machines around it, does not.
- WorkerHost.RingAgreement: takes it that the last document is at most half the ring; the ring refuses a larger one, and the worker keeps the text before it.
- The wasm boot, the pthread pool, the mailbox, snapshot loading and the Lock a predecessor holds in public/workers/lean.worker.js: foreign calls and memory layout.
- Fetching, OPFS, gzip and SHA-256 in lib/profiles.ts, lib/qed64-boot.ts and the prefetch worker: I/O around library calls; their outcomes are parameters.
- UTF-8 decoding and JSON: bodies and junk lines stay bytes, frames stay records.
- The frame decoder's `junkLines` counter and its hiding of blank junk lines: decided by the decoded text, which is abstract; every junk run is an event here.
- The frame decoder's length counter is a JavaScript number; here it is exact, and round trips are stated for bodies of at most 2^53 bytes.
- Collision notes, capabilities and the header line of the front door: message content with no effect on order or versions.
- The liveness probes of public/workers/lean.worker.js:636-646, which share the ring: `WorkerHost` has the front door as its only writer.
- `onEvent` and the hold's age in lib/edit-coalescer.ts: telemetry.
- Callbacks that re-enter the coalescer or the relay while it answers: the state is complete before each such call, so a re-entry is a later step.
- The relay's halted note, its status and its counters: display.
- The relay's pending map is a sequence of unique ids in insertion order.
- The flights of frontend/src/widget-source-cache.ts are numbered records rather than heap objects, and a cancel looks through them in creation order; ids are unique, so at most one can match.
- The tabs of lib/raw-cache.ts share one record of flights and callers here; each of its steps belongs to one tab, and progress messages, which only call back, are no step.
- That a due promise, timer or lock is eventually served is not stated: what must hold whenever it is, is.
- The other fields of a manifest (transport parts, digests, modules): checks read off one branch each.
- main.ts, the Monaco and InfoView adapters, the pill and the boot card, page-api.ts and infra/edge-worker.js: user interface, event glue and routing.
- lib/failure.ts, lib/params.ts, lib/urls.ts, boot-checklist.ts, check-fallback.ts and stale-notice.ts: tables or machines settled by reading one branch.
