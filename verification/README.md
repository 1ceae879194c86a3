# Pilotage verification model

A Dafny model of the parts of Pilotage where a wrong step matters most, with proofs about every input, every run or every interleaving:

- the hand-written Protocol Buffers codec of the web client and the incremental readers above it (`Varint`, `Numbers`, `Fields`, `ControlFrame`, `FrameRoundTrip`, `RepeatedVarints`, `Framing`, `UniStream`);
- the DJI USB owner, a worker thread and a client sharing a failure latch, two bounded channels and a clock (`UsbOwner`);
- motion authority: the bootstrap reader, the connect, resume and control-run steps racing with blur, the transport session owner and the reconnect controller (`Bootstrap`, `Authority`, `TransportSession`, `Reconnect`);
- capture identity and snapshot association for video (`Serial`, `WireBounds`, `VideoIdentity`, `SnapshotAssociation`);
- flight numerics, the simulator frame change and shared-memory freshness (`OuterLoop`, `Shm`);
- the instrument state frame writer and the display health latch (`StateFrame`, `StateAbi`, `StateEncoders`, `PanelHealth`);
- two decision procedures in the scripts: the cfg analysis and the weather convergence loop (`CfgTest`, `WeatherClear`).

Code that changes state is modelled by methods and classes, each proved equal to a specification function; the lemmas are about those functions. Concurrent code is a step system: an action is what runs between two points where another task may run, and a run is any sequence of enabled actions. `dafny verify dfyconfig.toml` checks everything.

Octets are integers below 256. Wire floats are four opaque octets. A decoder that throws is a `Failure`.

## Where the code and its documentation differ

- `clients/web/reconnect.js:19-21` says that jitter 0 gives the un-jittered delay. The code subtracts the whole spread there, also for the default random source (`Reconnect.DefaultJitterSubtractsTheSpread`). The delay before rounding is the un-jittered one if and only if there is no spread or the jitter is one half (`Reconnect.UnjitteredExactlyAtOneHalf`); `Reconnect.RoundingHidesLessThanAMillisecond` says what rounding adds.
- Every grant on connect should end in control, unavailable control or a release. The bootstrap reader can come back completed without the answer to its own request in two ways: `clients/web/bootstrap.js:67-70` returns at any later `ServerWelcome` that wants no lease, and `clients/web/bootstrap.js:76-78` returns at any LeaseResponse, also one of another scope that `clients/web/session-bootstrap.js:94-97` ignores. A grant that then arrives on the session stream is left alone by `clients/web/control-loop.js:225-232` unless a resume is pending. `Bootstrap.OpenExactlyWhenAskedAndEndedOpen` and `Authority.OwnGrantEndsOnceOrIsLeftAlone` are the exact conditions, `Authority.SecondWelcomeStrandsAGrant` and `Authority.StrayResponseStrandsAGrant` are such runs, the second with one welcome, no loss of focus and the gate open throughout. A grant whose session is superseded or closed before its bootstrap comes back has no conclusion either (`Authority.UnfinishedGrants`).
- `clients/web/wire.js:464-466` speaks of seven required fields. The code always emits six; the seventh, the profile revision, is omitted when it is 0 and reads back as 0.
- The control frame round trip is not the identity on four families of frames: a button edge with button 0 and no edge code encodes to no octets and is dropped; NaN is omitted; the number -0 is omitted, though a number that only narrows to -0 travels; and an id, code, target or revision with more than 53 significant bits is written whole and read rounded. `FrameRoundTrip.RoundTripExactlyWhenLossless` says exactly which frames come back, `FrameRoundTrip.LargeActionIdIsRounded` and `FrameRoundTrip.NegativeZeroGoesNegativeUnderflowStays` show two of the inputs.
- `scripts/check-flight-tune-contracts.py:1436` says the analysis returns true when an expression cannot select a non-test build. It answers false for `any()`, `not(all())`, `not(not(test))` and `all(a, not(a))` (`CfgTest.FalseCanBeWrong`). When every atom occurs in one polarity, counted through the nesting of `not`, an answer is right if and only if it is true or the expression holds in the one environment that suits its atoms; it is always right when, besides, `not` stands only over single atoms or `test` and no `any` is empty (`CfgTest.ExactOnOnePolarity`).

## Model

| member | source | states |
|---|---|---|
| Varint.ByteArray.WriteVarint | clients/web/wire.js:110-121 | the loop appends the LEB128 form of every natural and refuses negative values |
| Varint.ReadVarintBigInt | clients/web/wire.js:128-141 | the loop reads what the recursive reading defines, zeros past the end included |
| Varint.ReadAfterWrite | clients/web/wire.js:110-141 | a written varint reads back at any offset, whatever follows it, for every natural |
| Varint.CompleteReadingIsStable | clients/web/wire.js:128-141 | a reading that ended inside the octets is unchanged by appended ones |
| Varint.TruncatedReadingOvershoots | clients/web/wire.js:128-150 | a reading ends past the octets exactly when every octet left has its continuation bit |
| Varint.EncodingsArePrefixFree | clients/web/wire.js:110-121 | no varint is the beginning of another |
| Fields.FieldVarint | clients/web/wire.js:163-168 | appends the field, or nothing for 0 |
| Fields.FieldBytes | clients/web/wire.js:171-176 | appends the field, or nothing for an empty payload |
| Fields.FieldMessage | clients/web/wire.js:183-187 | appends the field always, an empty message included |
| Fields.FieldFloat | clients/web/wire.js:196-203 | appends the narrowed word, or nothing for the numbers that are falsy before narrowing: either zero and NaN |
| Fields.ParseFields | clients/web/wire.js:584-614 | the loop fails exactly when an entry does, with that error, and otherwise its map groups every value by field number in order |
| Fields.ParseSerialized | clients/web/wire.js:163-203 | any list of fields serialized one after the other parses back to exactly those fields in order |
| ControlFrame.EncodeControlPayload | clients/web/wire.js:323-340 | axes always, edges when they have octets, in order |
| ControlFrame.EncodeAxisSample | clients/web/wire.js:316-321 | an axis is its fields 1 and 2, zeros omitted |
| ControlFrame.EncodeButtonEdgeSample | clients/web/wire.js:344-349 | an edge is its fields 1 and 2, zeros omitted |
| ControlFrame.EncodeScopeId | clients/web/wire.js:223-227 | a scope is its field 1, omitted when empty |
| ControlFrame.EncodeUint64 | clients/web/wire.js:550-573 | an id, generation, sequence or timestamp is its field 1, omitted at 0 |
| ControlFrame.EncodeVelocityIntent | clients/web/wire.js:382-391 | frame first, then the four components, zeros omitted |
| ControlFrame.EncodeAttitudeThrustIntent | clients/web/wire.js:393-403 | frame, quaternion and thrust, zeros omitted |
| ControlFrame.EncodeGimbalRateIntent | clients/web/wire.js:405-410 | two rates, zeros omitted |
| ControlFrame.EncodeControlActionRequest | clients/web/wire.js:424-446 | action, targets and id, zeros omitted |
| ControlFrame.EncodeControlIntent | clients/web/wire.js:412-422 | one arm: velocity first, then attitude and thrust, then gimbal rate |
| ControlFrame.EncodeControlFrameEnvelope | clients/web/wire.js:448-486 | the octets are those of the frame's field list inside envelope field 2 |
| FrameRoundTrip.FrameReturns | clients/web/wire.js:784-844 | decoding an encoded frame gives its scope, revisions, every axis, the edges that have octets, the intents and the actions in order, over three levels of nesting, each number rounded to the nearest 53-bit one |
| FrameRoundTrip.RoundTripExactlyWhenLossless | clients/web/wire.js:448-486 | the decoded command is the encoded one if and only if no edge vanishes, no float is NaN or the number -0, and no id, code, target or revision has more than 53 significant bits |
| FrameRoundTrip.LargeActionIdIsRounded | clients/web/wire.js:621-624 | an action id of 2^53 + 1 comes back as 2^53 |
| FrameRoundTrip.NegativeZeroGoesNegativeUnderflowStays | clients/web/wire.js:196-203 | -0 comes back as 0, a number that narrows to -0 comes back as -0 |
| FrameRoundTrip.IdentityIsPresent | clients/web/wire.js:464-473 | fields 1 to 6 are on the wire, each with its value, even when all are 0 |
| FrameRoundTrip.NeutralAxisStaysEmptyEdgeGoes | clients/web/wire.js:316-340 | axis 0 at value 0 survives, the edge of button 0 without a code does not |
| FrameRoundTrip.EdgeVanishes | clients/web/wire.js:344-349 | an edge encodes to nothing exactly when its button and code are both 0 |
| FrameRoundTrip.ActionReturns | clients/web/wire.js:424-446 | an encoded action request decodes to its four numbers, each as `Number()` has it |
| FrameRoundTrip.ScopeReturns | clients/web/wire.js:637-642 | an encoded scope decodes to itself, the empty one included |
| FrameRoundTrip.PayloadReturns | clients/web/wire.js:323-340 | an encoded payload decodes to every axis and the edges that have octets, ids and codes as `Number()` has them |
| FrameRoundTrip.IntentReturns | clients/web/wire.js:412-422 | an encoded intent decodes to its velocity or gimbal rate |
| FrameRoundTrip.ParsedShows | clients/web/wire.js:584-614 | parsing a serialized field list shows, for every number, the values under it in order |
| Numbers.SurvivesExactlyWhenExact | clients/web/wire.js:621-624 | a varint read as a Number is itself if and only if no bit below its 53 leading ones is set and it is below 2^1024 |
| Numbers.NearestIsNear | clients/web/wire.js:621-624 | rounding moves a varint by at most half the distance between neighbouring Numbers |
| Numbers.SmallSurvives | clients/web/wire.js:621-624 | everything up to 2^53 is read exactly |
| Numbers.FirstToBeRounded | clients/web/wire.js:621-624 | 2^53 + 1 is not: it is read as 2^53 |
| RepeatedVarints.RepeatedVarints | clients/web/wire.js:980-995 | the loop collects packed and single entries as the specification does |
| RepeatedVarints.CollectReturnsTheNumbers | clients/web/wire.js:980-995 | every list, cut in any way into packed blobs of safe integers and single entries of any size, comes back as the nearest Numbers |
| RepeatedVarints.CollectReturnsTheList | clients/web/wire.js:980-995 | every list up to 2^53-1, cut in any way into packed blobs and single entries, comes back whole |
| RepeatedVarints.MessageReturnsTheList | clients/web/wire.js:584-614 | the same through a whole message with other fields around it |
| Framing.LengthDelimit | clients/web/envelope-framing.js:2-19 | the buffer filled in place is the length prefix and the envelope |
| Framing.VerdictIsPrefixStable | clients/web/wire.js:760-772 | once a length-delimited decode has a verdict, appended octets do not change it |
| Framing.TruncatedPrefixNeedsMore | clients/web/wire.js:144-150 | a length prefix that is cut off is never accepted |
| Framing.FramedDecodes | clients/web/wire.js:760-772 | a framed envelope decodes to its body's verdict and is consumed exactly |
| Framing.PartialFrameNeedsMore | clients/web/wire.js:760-772 | every proper prefix of a framed envelope asks for more |
| Framing.EnvelopeReturns | clients/web/wire.js:846-890 | an encoded control frame envelope decodes to the control frame arm, with the frame as it reads back |
| UniStream.DrainAuthorityEnvelopes | clients/web/authority-stream.js:10-17 | the loop delivers what the drain specification lists, in order, and returns its tail |
| UniStream.DrainVideoRecords | clients/web/uni-stream.js:30-42 | the same for length-prefixed video records |
| UniStream.DrainEnvelopesInTwo | clients/web/authority-stream.js:10-17 | draining a longer buffer is draining its front, then the tail with the rest appended; after a throw the rest is never looked at |
| UniStream.DrainRecordsInTwo | clients/web/uni-stream.js:30-42 | the same for records |
| UniStream.ReadUniStream | clients/web/uni-stream.js:65-119 | for every split into chunks, kind, deliveries and tail are those of the chunks read, taken as one piece |
| UniStream.ReadBodyInTwo | clients/web/uni-stream.js:86-119 | a chunk boundary leaves no trace |
| UniStream.ChunksReadAsOneBody | clients/web/uni-stream.js:86-119 | for every split, reading chunk by chunk is reading the concatenation in one piece |
| UniStream.RecordsRebuildTheBody | clients/web/uni-stream.js:30-42 | the records framed again and the tail are the body, and the tail holds no complete record |
| UniStream.EnvelopeTailIsIncomplete | clients/web/authority-stream.js:10-17 | the tail of a drain that did not throw needs more |
| UniStream.FramesSurviveAnyChunking | clients/web/uni-stream.js:86-119 | control frames encoded, framed, cut into any chunks and read chunk by chunk are delivered in order, each as it reads back, with nothing left |
| UsbOwner.ReadsAreAPrefix | adapters/dji-usb/src/connection.rs:98-116 | in every interleaving the bytes returned are a prefix of the bytes polled, and at most 64 chunks of at most 16384 bytes are buffered |
| UsbOwner.EmptyReadMissesNothing | adapters/dji-usb/src/connection.rs:98-116 | a read that finds the channel empty has returned every queued byte |
| UsbOwner.OverflowLosesOnlyTheLastChunk | adapters/dji-usb/src/worker.rs:143-162 | overflow drops one chunk and no earlier one |
| UsbOwner.DroppedStaysMissing | adapters/dji-usb/src/worker.rs:143-162 | after a drop, in every continuation, nothing more is polled or queued and the bytes returned stay a proper prefix of the bytes polled |
| UsbOwner.DeviceIsCalledAtMostOnce | adapters/dji-usb/src/worker.rs:117-141 | each submitted request reaches the device at most once |
| UsbOwner.SuccessIsWholeAndInTime | adapters/dji-usb/src/connection.rs:127-166 | success means the whole length, finished before a deadline no later than the caller's and 50 ms after submission |
| UsbOwner.WriteSlotIsNeverFull | adapters/dji-usb/src/connection.rs:145-155 | the write slot is empty at every submission, so no caller is told it would block |
| UsbOwner.ErrorIsFinalWhenReachable | adapters/dji-usb/src/connection.rs:155-166 | after an error for a submitted request no later request is submitted and no byte is returned |
| UsbOwner.FirstFailureStays | adapters/dji-usb/src/worker.rs:47-73 | stopping and the first failure are never undone |
| UsbOwner.RunKeepsInv | adapters/dji-usb/src/worker.rs:83-162 | every sequence of enabled steps keeps the bytes in order and every write accounted for |
| Bootstrap.RunBootstrapReader | clients/web/bootstrap.js:42-81 | for every split into chunks, and superseded after any number of reads, the reader does what it would do with what it read as one piece |
| Bootstrap.RequestedExactlyAtAWantedWelcome | clients/web/bootstrap.js:63-75 | at most one lease request, and one exactly when the reader reaches a welcome at which authority is wanted |
| Bootstrap.OpenExactlyAtAnOpenEnd | clients/web/bootstrap.js:63-78 | after its request the reader returns completed but unanswered if and only if it reaches a welcome at which authority is not wanted or a LeaseResponse that is not its answer |
| Bootstrap.OpenExactlyWhenAskedAndEndedOpen | clients/web/bootstrap.js:50-80 | from the start, the reader leaves its own request open if and only if it asks at its first welcome and then reaches such a message |
| Bootstrap.OneWelcomeIsAnswered | clients/web/bootstrap.js:63-78 | a host that sends one welcome, and no LeaseResponse but the answer, never leaves the request open |
| Bootstrap.SecondWelcomeLeavesRequestOpen | clients/web/bootstrap.js:63-70 | two welcomes with a blur between them do |
| Bootstrap.StrayResponseLeavesRequestOpen | clients/web/bootstrap.js:76-78 | so do one welcome and then a LeaseResponse of another scope |
| Authority.EveryRunKeepsInv | clients/web/connect-authority.js:45-62 | every sequence of enabled steps keeps the gate equal to its history and every attempt's books in balance |
| Authority.NoFrameWhileLatched | clients/web/control-loop.js:601-660 | in every interleaving no motion or gimbal frame is sent while the gate is latched |
| Authority.FrameNeedsExplicitReset | clients/web/control-gate.js:15-39 | between a latch and a later frame lies a reset by a manual connect or a resume, never by an automatic reconnect |
| Authority.LatchHoldsUntilReset | clients/web/control-gate.js:15-39 | an open gate after a latch has a reset in between |
| Authority.LeaseOnlyWhenManualAndOpen | clients/web/connect-authority.js:45-62 | a bootstrap lease is requested only on a manual connect whose gate was open at the welcome, decided once and emitted at most once |
| Authority.OwnGrantEndsOnceOrIsLeftAlone | clients/web/connect-authority.js:49-61 | in every reachable state the grant of a completed attempt's own request has ended exactly once, in control, unavailable control, or a release exactly when latched, or with a resume that took it; or not at all, if and only if, after its emission, its bootstrap ended at an unwanted welcome or another's response and no resume was pending when the answer came |
| Authority.UnfinishedGrants | clients/web/connect-authority.js:45-62 | a granted attempt without a conclusion is still on its way to one, or is superseded |
| Authority.LateGrantIsLeftAloneWithoutAResume | clients/web/control-loop.js:225-258 | a grant that answers the bootstrap's request on the session stream is left alone exactly when no resume of that session is pending; nothing starts, nothing is given back and the lease stays granted |
| Authority.BlurGivesBackALiveLease | clients/web/control-loop.js:139-146 | a loss of focus latches the gate and asks for the release of any lease the live session holds |
| Authority.SecondWelcomeStrandsAGrant | clients/web/bootstrap.js:63-70 | a run of ten steps that ends with a granted lease, no control run and no release |
| Authority.StrayResponseStrandsAGrant | clients/web/session-bootstrap.js:93-97 | the same with one welcome, no loss of focus and the gate open: a response of another scope comes first |
| Authority.SurrenderAsksForARelease | clients/web/session-transport.js:90-101 | a granted attempt that concludes without starting control asks for a release exactly when its session is still the active one |
| Authority.ConclusionIsFinal | clients/web/connect-authority.js:49-61 | no continuation adds or changes a conclusion |
| Authority.RunsStartOnlyOpen | clients/web/resume-control.js:54-59 | a control run starts only with the gate open, from a granted connect or the pending resume's grant |
| TransportSession.TransportSessionLifecycle.Begin | clients/web/transport-session.js:49-65 | issues the next token and disposes the session it replaces: its readers, its writers, then its transport |
| TransportSession.TransportSessionLifecycle.TrackReader | clients/web/transport-session.js:81-91 | tracks for the active token, cancels at once for any other, rejects what cannot be cancelled |
| TransportSession.TransportSessionLifecycle.TrackWriter | clients/web/transport-session.js:97-107 | the same for writers |
| TransportSession.TransportSessionLifecycle.UntrackReader | clients/web/transport-session.js:93-95 | lets go of a reader of the active session, and of nothing for another token |
| TransportSession.TransportSessionLifecycle.UntrackWriter | clients/web/transport-session.js:109-111 | the same for writers |
| TransportSession.TransportSessionLifecycle.Dispose | clients/web/transport-session.js:35-41 | cancels readers, aborts writers, each once and in insertion order, then closes if asked |
| TransportSession.TransportSessionLifecycle.Close | clients/web/transport-session.js:113-119 | disposes the active session and its transport once |
| TransportSession.TransportSessionLifecycle.Retire | clients/web/transport-session.js:121-127 | disposes the active session and leaves its transport open |
| TransportSession.EachHandleIsInOnePlace | clients/web/transport-session.js:35-127 | over every run a reader or writer offered once is tracked by the active session, or disposed exactly once, or untracked by its owner |
| TransportSession.StrangersAreLeftAlone | clients/web/transport-session.js:35-41 | one never offered is never disposed |
| TransportSession.EachBeginEndsOnce | clients/web/transport-session.js:49-127 | begins of a transport equal its active session, closes and retirements together, so it is closed at most once per begin |
| TransportSession.InactiveForGood | clients/web/transport-session.js:67-69 | a token that is not active is never active again |
| TransportSession.TokensRetireForGood | clients/web/transport-session.js:49-79 | from the start, over every run, an issued token that is not active never is again |
| TransportSession.GenerationRepeatsTokenDoesNot | clients/web/transport-session.js:54-55 | after 2^32 begins the generation repeats on another token and the old one stays inactive |
| Reconnect.DelayBounds | clients/web/reconnect.js:23-28 | the delay never shrinks with more attempts and stays within the spread around base and cap |
| Reconnect.CapIsReached | clients/web/reconnect.js:19-28 | past the cap the delay no longer depends on the attempts |
| Reconnect.UnjitteredExactlyAtOneHalf | clients/web/reconnect.js:23-28 | for every backoff the delay before rounding is the un-jittered one if and only if there is no spread or the jitter is one half |
| Reconnect.RoundingHidesLessThanAMillisecond | clients/web/reconnect.js:23-28 | rounding changes what the jitter adds by less than a millisecond; where the un-jittered delay is a whole number of milliseconds the rounded delays agree if and only if the offset is in [-0.5, 0.5) |
| Reconnect.DefaultJitterSubtractsTheSpread | clients/web/reconnect.js:23-28 | jitter 0 takes the whole spread off |
| Reconnect.Controller.PlanNext | clients/web/reconnect.js:64-88 | halts on a non-retryable failure, or sets the one timer when nothing forbids it |
| Reconnect.Controller.FinishAttempt | clients/web/reconnect.js:90-98 | an outcome of a stopped or superseded attempt, or a success, changes nothing |
| Reconnect.Controller.OnRequestConnect | clients/web/reconnect.js:103-110 | clears halt, stop, backoff and timer, and connects manually |
| Reconnect.Controller.StartAttempt | clients/web/reconnect.js:90-94 | a new current attempt and one call of connect, unless stopped or unwanted |
| Reconnect.Controller.OnTimer | clients/web/reconnect.js:82-87 | counts the attempt and connects automatically |
| Reconnect.Controller.CancelTimer | clients/web/reconnect.js:57-62 | cancels the pending timer, if any |
| Reconnect.Controller.OnBootstrapComplete | clients/web/reconnect.js:119-121 | resets the backoff and nothing else |
| Reconnect.Controller.OnStop | clients/web/reconnect.js:128-132 | stops and cancels |
| Reconnect.ConnectsAreAccountedFor | clients/web/reconnect.js:54-132 | over every run manual connects are the user's requests, and every timer was cancelled, became one automatic connect, or is pending |
| Reconnect.QuietUntilRequested | clients/web/reconnect.js:64-77 | after a halt or a stop nothing connects and no timer is set until the user asks |
| Reconnect.WhatMakesItQuiet | clients/web/reconnect.js:64-132 | a stop or a non-retryable failure does that; a superseded attempt's failure does nothing |
| Serial.ExactlyOneIsNewer | clients/web/telemetry-ingress.js:35-46 | of two distinct values exactly one is newer, unless they are half the range apart |
| Serial.ChainTravels | clients/web/telemetry-ingress.js:35-46 | a serial-newer chain ends where its forward distances take it, counting wraps |
| Serial.ReturningGoesAllTheWayRound | adapters/aviate/src/shm.rs:237-240 | a chain back at its start has gone round a positive whole number of times in at least three steps |
| Serial.StartLooksNewerExactlyPastHalf | clients/web/telemetry-ingress.js:35-46 | within one round the start of a chain looks newer than its end if and only if the chain has travelled more than half the range |
| WireBounds.FirstFault | clients/web/wire-bounds.js:114-120 | the loop reports what the specification's first fault is |
| WireBounds.FirstFaultIsFirst | clients/web/wire-bounds.js:39-120 | nothing is reported exactly when every field is in its wire range, and otherwise the fault of the first field that is not |
| VideoIdentity.CheckedExactlyWhenLawful | clients/web/video-identity.js:135-162 | metadata passes every check exactly when it spells a lawful frame of exact wire integers, known clocks, and a target clock tied to availability |
| VideoIdentity.DefaultGateIsShut | clients/web/video-identity.js:71-114 | without a calibration registry no frame is conformal-ready |
| VideoIdentity.VideoIdentityTracker.AdmitFrame | clients/web/video-identity.js:199-232 | the verdict and the new state of every admission, in the order of its checks |
| VideoIdentity.VideoIdentityTracker.AdmitWithinIncarnation | clients/web/video-identity.js:234-256 | the epoch and sequence checks; only an accepted frame changes the state |
| VideoIdentity.VideoIdentityTracker.Establish | clients/web/video-identity.js:258-268 | the source's state becomes the frame's |
| VideoIdentity.FrameOf | clients/web/video-identity.js:135-162 | checked metadata is the spelling of the frame it yields |
| VideoIdentity.SegmentsAreChains | clients/web/video-identity.js:199-274 | over every run a source's state is its last accepted frame, and since the last discontinuity camera, incarnation, calibration and epoch are one and sequences are serial-newer |
| VideoIdentity.CameraNeverChanges | clients/web/video-identity.js:212-215 | a source keeps its first camera |
| VideoIdentity.SequencesRepeatOnlyAfterAFullWrap | clients/web/video-identity.js:234-256 | two acceptances of one sequence in a segment lie a positive multiple of 2^32 apart, with at least two other accepted frames between |
| VideoIdentity.ReplayIsRefused | clients/web/video-identity.js:245-252 | a frame shown again at once is not admitted and refreshes nothing |
| VideoIdentity.EarlierFramesAreStale | clients/web/video-identity.js:234-256 | any frame of the current segment, shown again within one round of the sequence range, is admitted if and only if the segment has travelled more than half the range since, and changes nothing when refused |
| VideoIdentity.OtherIncarnationsAreAdmitted | clients/web/video-identity.js:216-230 | a frame of any other incarnation or calibration of the same camera is admitted as a discontinuity, an earlier one included |
| SnapshotAssociation.RingIsTheEndOfTheLog | clients/web/snapshot-association.js:154-183 | over every run the ring is the last `capacity` entries of the log of valid, non-repeated observations since reset, and the current stream that of the newest |
| SnapshotAssociation.SnapshotAssociator.ObserveIdentity | clients/web/snapshot-association.js:154-175 | records a valid new identity, drops the oldest when full, and says whether it recorded |
| SnapshotAssociation.SnapshotAssociator.ResetHistory | clients/web/snapshot-association.js:180-183 | empties the ring and the current stream |
| SnapshotAssociation.IdentityOf | clients/web/snapshot-association.js:59-84 | a checked identity is the spelling of the one it yields |
| SnapshotAssociation.SnapshotAssociator.AssociateMeta | clients/web/snapshot-association.js:192-238 | the scan over the ring returns the specified verdict |
| SnapshotAssociation.AssociateIfAccepted | clients/web/snapshot-association.js:260-266 | association runs only on an admitted frame |
| SnapshotAssociation.NearestIsFirstNearest | clients/web/snapshot-association.js:205-216 | the scan's choice is the first of the nearest entries on the clock |
| SnapshotAssociation.ReadyExactlyWhenAnchored | clients/web/snapshot-association.js:192-238 | a verdict is ready if and only if the nearest retained snapshot on the mapping's clock is of the current stream, the total error is in budget and the calibration recognized; it names that snapshot, time and error |
| SnapshotAssociation.GateRefusesOnlyCalibration | clients/web/snapshot-association.js:230-236 | the final gate's only reachable refusal is the calibration |
| SnapshotAssociation.HostClockNeverAssociates | clients/web/snapshot-association.js:69-71 | a frame mapped to the host clock is never associated |
| OuterLoop.Loop.UpdatePhase | adapters/betaflight/src/outer_loop.rs:223-242 | the take-off and landing step |
| OuterLoop.Loop.Hold | adapters/betaflight/src/outer_loop.rs:283-302 | the captured position and the hold velocity |
| OuterLoop.Loop.StepHorizontal | adapters/betaflight/src/outer_loop.rs:245-279 | the integrals, the hold and the body accelerations |
| OuterLoop.Loop.StepVertical | adapters/betaflight/src/outer_loop.rs:305-344 | the altitude hold, the learned throttles and the throttle |
| OuterLoop.Loop.Step | adapters/betaflight/src/outer_loop.rs:199-221 | one whole update |
| OuterLoop.Loop.Restart | adapters/betaflight/src/outer_loop.rs:168-175 | forgets the flight and keeps the learned throttles |
| OuterLoop.Loop.TakeOver | adapters/betaflight/src/outer_loop.rs:181-189 | takes over airborne or not, with the given throttle clamped as hover |
| OuterLoop.RunsStaySafe | adapters/betaflight/src/outer_loop.rs:168-344 | over every run of updates, resets and resumes the hover throttles stay in [0.2, 0.8], the integrals in [-1.5, 1.5], tilt sticks within 25/30, throttle in [0, 1] and yaw in [-1, 1] |
| OuterLoop.ClockIsTheStreak | adapters/betaflight/src/outer_loop.rs:234-238 | while flying the dwell clock is the clamped time of the unbroken settled streak |
| OuterLoop.StreakIsUnbroken | adapters/betaflight/src/outer_loop.rs:234-238 | every step of the streak is a flying update that found the quad settled |
| OuterLoop.LandsExactlyAfterTheDwell | adapters/betaflight/src/outer_loop.rs:223-242 | an update lands if and only if its settled streak lasted 1 s and its demand sinks, and then the streak is at least ten updates |
| OuterLoop.HoldPullsHomeSlowly | adapters/betaflight/src/outer_loop.rs:283-302 | the hold velocity points straight home, never exceeds 1 m/s, and is zero while braking |
| OuterLoop.FramesAgree | adapters/betaflight/src/outer_loop.rs:246-269 | body to north-east and back is the identity and keeps the speed |
| OuterLoop.PulsesAreLegalAndClose | adapters/betaflight/src/rc.rs:68-92 | any sticks give the first six pulses in [1000, 2000], within half a microsecond of exact, monotonically |
| OuterLoop.UpdatesInPulses | adapters/betaflight/src/outer_loop.rs:203-220 | an update's roll and pitch pulses stay within 417 of centre, and a grounded one cuts the throttle |
| Shm.FrameChangePreservesRotation | adapters/aviate/src/shm.rs:137-150 | for every quaternion and vector, rotating by the converted quaternion is converting the vector, rotating by the original, and converting the result |
| Shm.FrameChangePreservesNorm | adapters/aviate/src/shm.rs:146-150 | the conversion keeps the norm |
| Shm.FrameChangeIsTheNamedProduct | adapters/aviate/src/shm.rs:143-150 | the conversion is the documented product of three quaternions, exactly |
| Shm.OuterFactorsAreTheFrameChanges | adapters/aviate/src/shm.rs:137-150 | its two constant factors rotate vectors as the frame changes they are named for |
| Shm.ShmFreshness.ObserveAt | adapters/aviate/src/shm.rs:199-234 | the verdict and new state of each observation |
| Shm.AdvancesAreOrdered | adapters/aviate/src/shm.rs:199-234 | over every run the times of advances strictly increase and their steps are a serial-newer chain |
| Shm.QuarantineIsAbsorbing | adapters/aviate/src/shm.rs:205-207 | once quarantined, always |
| Shm.ReplayQuarantines | adapters/aviate/src/shm.rs:223-226 | any accepted pair other than the latest quarantines when shown again |
| Shm.VerdictsMean | adapters/aviate/src/shm.rs:208-227 | each verdict in terms of the last advance; Unchanged carries exactly the time since it |
| Shm.StepsRepeatOnlyAfterAFullWrap | adapters/aviate/src/shm.rs:217-240 | a step is accepted again only after a whole wrap of the u64 range |
| StateFrame.TextComesBackOrIsMarked | clients/web/state-abi.js:61-85 | vetted text reads back whole and everything else reads as invalid |
| StateFrame.PutTextAtom | clients/web/state-abi.js:61-85 | the in-place stores leave exactly the atom, or fail past the end without touching anything before it |
| StateFrame.Put | clients/web/state-abi.js:91-95 | one store of an encoder, at the offset where the store before it ended; once one throws, nothing more is stored and nothing before the group has changed |
| StateEncoders.PutAttitude | clients/web/state-abi.js:97-111 | the stores at the source's offsets make up the field list without gap or overlap: attitude, 32 octets |
| StateEncoders.PutKinematics | clients/web/state-abi.js:112-125 | the stores at the source's offsets make up the field list without gap or overlap: kinematics, 28 octets |
| StateEncoders.PutAir | clients/web/state-abi.js:126-139 | the stores at the source's offsets make up the field list without gap or overlap: air data, 16 octets, absent floats as NaN |
| StateEncoders.PutNav | clients/web/state-abi.js:140-161 | the stores at the source's offsets make up the field list without gap or overlap: navigation, 43 octets, unknown course reference and scale as 255 |
| StateEncoders.PutWind | clients/web/state-abi.js:162-171 | the stores at the source's offsets make up the field list without gap or overlap: wind, 12 octets |
| StateEncoders.PutSelections | clients/web/state-abi.js:172-188 | the stores at the source's offsets make up the field list without gap or overlap: selections, 20 octets |
| StateEncoders.PutTrust | clients/web/state-abi.js:205-229 | the stores at the source's offsets make up the field list without gap or overlap: trust, 8 octets, ten validity bits |
| StateEncoders.PutAltitude | clients/web/state-abi.js:231-243 | the stores at the source's offsets make up the field list without gap or overlap: altitude, 12 octets |
| StateEncoders.PutHeading | clients/web/state-abi.js:244-256 | the stores at the source's offsets make up the field list without gap or overlap: heading, 12 octets |
| StateEncoders.PutVariation | clients/web/state-abi.js:257-269 | the stores at the source's offsets make up the field list without gap or overlap: variation, 12 octets |
| StateEncoders.PutDynamics | clients/web/state-abi.js:270-286 | the stores at the source's offsets make up the field list without gap or overlap: dynamics, 20 octets |
| StateEncoders.PutMonitor | clients/web/state-abi.js:287-315 | the stores at the source's offsets make up the field list without gap or overlap: monitor text, 274 octets in eight slots, or a refusal of more than eight lines before any store |
| StateEncoders.PutDirector | clients/web/state-abi-equipment.js:38-51 | the stores at the source's offsets make up the field list without gap or overlap: flight director, 16 octets |
| StateEncoders.PutBearings | clients/web/state-abi-equipment.js:27-61 | the stores at the source's offsets make up the field list without gap or overlap: two bearing pointers, 20 octets |
| StateEncoders.PutAirframe | clients/web/state-abi-equipment.js:62-76 | the stores at the source's offsets make up the field list without gap or overlap: airframe, 24 octets, sensed flap before selected flap |
| StateEncoders.PutApModes | clients/web/state-abi-equipment.js:77-94 | the stores at the source's offsets make up the field list without gap or overlap: autoflight modes, 12 octets |
| StateEncoders.PutApTargets | clients/web/state-abi-equipment.js:95-111 | the stores at the source's offsets make up the field list without gap or overlap: autoflight targets, 20 octets |
| StateEncoders.PutEntry | clients/web/state-abi.js:335-343 | one turn of the table: absent groups leave the buffer alone, present ones are stored payload first, then tag and length |
| StateFrame.FrameReturns | clients/web/state-abi.js:327-346 | a tag, length and value reading returns the groups written, whatever follows |
| StateFrame.FailedWriteIsEmpty | clients/web/state-abi.js:328-332 | a buffer with the header of a failed write parses as the empty frame |
| StateEncoders.EncodeState | clients/web/state-abi.js:327-346 | for every state and buffer the frame is written whole and the rest left alone exactly when it fits and has at most eight text lines; otherwise the buffer parses as the empty frame |
| StateAbi.StateFrameReturns | clients/web/state-abi.js:327-346 | for every state the reading yields exactly its present groups in ascending tag order and stops at the returned length |
| StateAbi.FramesAreCanonical | clients/web/state-abi.js:4-8 | states with the same octets have the same groups, and no frame begins another |
| StateAbi.GroupsHaveFixedLengths | clients/web/state-abi-equipment.js:37-112 | every present group has the payload length its encoder returns |
| StateAbi.LongestFrame | clients/web/state-abi.js:348-372 | no frame exceeds 634 octets, and one is that long exactly when all 17 groups are present |
| StateEncoders.MaxFrameBytes | clients/web/state-abi.js:369-372 | the measured probe bounds every frame |
| StateAbi.TrustIsOmittedExactlyWhenDefault | clients/web/state-abi.js:189-230 | an omitted trust group would have been all defaults; one that is all defaults is omitted if and only if no declared value wrapped round its field |
| StateAbi.WrappedQualityIsDeclared | clients/web/state-abi.js:189-230 | a quality of 511 is stored as 255 and still declared |
| PanelHealth.PanelHealth.ReportSuccess | clients/web/instrument-health.js:155-173 | a repeated generation earns nothing; an advancing one moves the clock and feeds recovery |
| PanelHealth.PanelHealth.ReportFailure | clients/web/instrument-health.js:176-182 | latches at once with the reason |
| PanelHealth.PanelHealth.Reinitialize | clients/web/instrument-health.js:129-149 | clears the latch and restarts both clocks |
| PanelHealth.PanelHealth.OnTick | clients/web/instrument-health.js:191-208 | a starved tick re-arms the deadline, a late one latches |
| PanelHealth.ClearsExactlyOnRecovery | clients/web/instrument-health.js:155-182 | over every run a latched panel clears if and only if it is reset or this is the recovering advance counted since the latest failure, trip or reset |
| PanelHealth.WatchdogLatchesStagnation | clients/web/instrument-health.js:191-208 | without an advance, a starved tick or a reset, one tick later than the deadline latches the panel, and it stays latched |
| CfgTest.SplitTopLevel | scripts/check-flight-tune-contracts.py:1230-1250 | the loop splits as the specification does |
| CfgTest.RenderIsTakenWhole | scripts/check-flight-tune-contracts.py:1236-1248 | a rendered expression is never split, at any depth |
| CfgTest.SegmentsAreTheArguments | scripts/check-flight-tune-contracts.py:1230-1250 | splitting rendered arguments returns exactly their renderings, nested commas and a trailing comma included |
| CfgTest.AnalysisReadsTheExpression | scripts/check-flight-tune-contracts.py:1435-1448 | on the tokens of an expression the analysis computes a structural predicate of it |
| CfgTest.TrueIsSound | scripts/check-flight-tune-contracts.py:1435-1448 | a true answer means no build without test selects the expression, for every expression |
| CfgTest.ExactOnOnePolarity | scripts/check-flight-tune-contracts.py:1435-1448 | when every atom occurs in one polarity through any nesting of not, an answer is right if and only if it is true or the expression holds in the one best environment; always when not stands only over atoms or test and no any is empty |
| CfgTest.FalseCanBeWrong | scripts/check-flight-tune-contracts.py:1444-1448 | `any()`, `not(all())`, `not(not(test))` and `all(a, not(a))` are answered false and never hold |
| CfgTest.ItemsMarkedAreTestOnly | scripts/check-flight-tune-contracts.py:1451-1461 | an item marked by its attributes is in no build without test |
| CfgTest.ItemsMarkedExactly | scripts/check-flight-tune-contracts.py:1451-1461 | when the cfgs of an item keep one polarity between them, it is marked rightly if and only if it is marked or compiled in the one best environment; always when its cfgs are plain as above |
| WeatherClear.WaitForClear | scripts/xplane_weather_clear.py:196-241 | the loop ends as the turn by turn specification does, after as many frames |
| WeatherClear.ClearsExactlyAtTheFirstProof | scripts/xplane_weather_clear.py:196-241 | it returns after n frames if and only if the first n are a calm proof and no fewer are: first acknowledgement, clear ever after, never refused, last three later observations calm |
| WeatherClear.ProofShowsThreeCalmObservations | scripts/xplane_weather_clear.py:159-173 | a proof ends in three complete calm observations made only of frames after the acknowledgement |

## Left out

- Sockets, IOKit, WebTransport objects, DOM, canvas painting, logging and diagnostic counters: only step order and data are kept.
- Threads and timers as an API: the USB owner and the authority flow are step systems on values, because their properties are about interleavings; the client and worker fields are those of the source.
- Floating-point rounding: the flight numerics and the frame change are over reals, and the f32 narrowing of the frame change is not modelled.
- UTF-8: scope names are octets. A text with an unpaired surrogate is replaced by `TextEncoder` and a leading byte order mark is dropped by `TextDecoder`; neither is modelled.
- Payloads of the wrong wire type are modelled as errors, not as JavaScript coercions. `Number()` of a varint is modelled, rounding included.
- The attitude and thrust intent is encoded but not decoded by the source, so it does not come back in the round trip.
- Envelope messages other than control frames keep their octets; their own decoders are not modelled.
- Octets left over when the bootstrap reader hands the stream to the session reader: each reader is proved alone.
- The learned steady-hover estimator and `hover_throttle()`, which nothing modelled reads.
- The authority table and its lease actions inside the wasm control shell, gimbal and lifecycle leases, the switch of the motion scope in `clients/web/control-loop.js:876-891`, and the requests made by the control run and after a revoked frame (`clients/web/control-loop.js:444-457,656-657`): they are not part of this model.
- The release tracker of `clients/web/lease-release.js`: a one-slot promise; the authority model lets its settlement come at any time, and records that a release was asked for where the wasm control shell decides which messages that takes.
- Which request a lease response answers: the messages do not say and the client does not ask, so an action of the authority model says it, and what the authority table holds after it.
- Stream cancellation reasons of `clients/web/transport-session.js`.
- The Rust decoder of the state frame is not part of this model; the tag, length and value reading stands for it.
- Allowlists, digests, Cargo metadata checks and the token scanners of the Python guards other than the top-level split and the cfg analysis.
- Discovery and packet decoding in `scripts/xplane_weather_clear.py`.
- Small machines that would only add easy members: action tracker, media recovery, video stall, direct thrust map, composition and layout helpers, map style.
