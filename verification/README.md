# Verified model of the DongLoRa Python client

The client talks to a LoRa radio dongle over a byte stream. This project models its three layers and proves
what each promises, and how they fit together.

* **Wire layer** (`Bytes`, `Sequences`, `Poly`, `Crc`, `Words`, `Detect`, `Order`, `Cobs`, `Frame`, `FrameDetect`,
  `FewErrors`, `Stream`, `Vectors`): the CRC register, COBS, frames, the byte-at-a-time reader and the offline
  splitter. The CRC is proved to be a remainder of polynomials over GF(2), and what the frame check notices follows
  from that algebra. `Vectors` holds published frames and payloads byte by byte.
* **Payloads** (`Modulation`, `Info`, `Events`, `Layouts`, `Connect`): every payload codec in both directions, the
  place of every field by byte position, and the check of a requested configuration against the device's
  capabilities.
* **Session** (`Shared`, `Machine`, `Safety`, `Runs`, `Endings`, `Session`, `Dispatching`, `Refinement`, `Receive`,
  `Exchange`, `Returns`, `Witnesses`): the demultiplexer. `Machine` is an interleaving state machine: any number of
  calling threads, the reader thread, closing threads and packet consumers, one step for each access to shared state,
  with the sections under the pending lock that treat slots one by one as several steps. `Safety` proves an invariant
  of every step, `Runs`, `Endings` and `Returns` what follows for whole runs. `Session` is the object with its fields
  and methods; `Refinement` proves that each method, run alone, is a run of the machine with the same effect.
  `Dispatching` says by message number what a frame does. `Receive` and `Exchange` go from bytes on the wire to
  packets and answers in the caller's hand. `Witnesses` holds inputs and runs at which a tempting claim fails.
* **Dongle** (`Layers`, `Recovery`, `Outcomes`, `Dongle`, `Stories`, `Reconnect`, `Keepalive`): recovery and retry as
  methods over a log of what was done to the outside, for every sequence of outcomes; what each call comes to, read
  off the log by position (`Outcomes`) and from what the outside answers (`Stories`); the double-checked recovery
  lock as an interleaving machine; the timing of the keepalive thread.

Findings, where the code does less than it seems to. Each has the exact condition and an input or a run at which
it happens:

* Two adjacent wrong bytes are always noticed by the frame check, with exactly one exception: the last body byte
  changed by 0x89 together with the first trailer byte changed by 0xA1. The trailer travels low byte first, so
  these two bytes are not neighbours in the polynomial (`FrameDetect.AdjacentBytesRejected`). Every accepted frame
  has such a neighbour that is accepted too (`FrameDetect.MissedNeighbour`).
* What decodes to a frame is what it is sent as and, when that ends in a full COBS block, the same with an empty
  block added, and nothing else (`Cobs.DecodesTo`, `Frame.DecodesToFrame`). There are frames with two such wire
  forms (`Witnesses.TwoWireForms`).
* The comment on a pending slot says one of its result fields is filled. Several can be: `close` overwrites the
  error of a command that already has its answer, and the reader's exit puts an error on a slot that has only an
  OK (`Exchange.ShutdownAgainstAnswer`). In the runs `Witnesses.CloseOverridesOk` and `Witnesses.ExitOverridesOk`
  a PING whose OK had been stored and signalled raises the shutdown's error.
* A command other than TX that gets a TX_DONE returns, without an answer. In every interleaving it does so exactly
  when, at the moment it looked for an error, no shutdown had put one in its slot and the frames stored for it were
  TX_DONEs saying TRANSMITTED, one at least and nothing else, and by the moment it took its answer no well-formed OK
  had been stored (`Returns.EmptyReturn`; for frames handled without interruption also `Exchange.EmptyAnswer`). A
  GET_INFO ends so in the run `Witnesses.InfoAnsweredByTxDone`; its caller gets `None` instead of an info. The
  caller of a PING, RX_START or RX_STOP cannot tell, for these get `None` from a proper OK as well; the model
  writes that as `Some(Empty)`.
* A command registered after the reader's exit block is ended by its timeout or a later `close`, by nothing else
  (`Runs.LateCommandWaits`, `Runs.LateCommandNeedsClose`, and the run `Witnesses.CommandAfterExit`).
* The documentation of `_recover_session_locked` says it re-applies the cached configuration. It does not: the
  reopener applies the one given at connect time, and that one, whenever there is one, replaces the cached one
  (`Dongle.Dongle.RecoverSession`); recovery itself sends no configuration at all (`Recovery.RecoverySends`). In
  `Stories.ConfigOutlivedByReopener` a configuration set by the user is lost in this way; with a reopener that applies
  none it stays (`Stories.ConfigOutlivesSession`).
* After NOT_CONFIGURED the cached configuration is sent again, which ends reception on the device, but the dongle
  goes on believing that reception is on. The same happens when restarting reception fails with an OSError, which
  also leaves `_recover_session_locked` as that error. `Dongle.Dongle.Tx` says exactly when belief and
  acknowledgements part; `Stories.BeliefOutlivesReception` is a device with which they do.
* `close` leaves a live session behind exactly in the case of a reopener call in flight at that moment whose
  session is alive when put in place (`Reconnect.CloseIsFinal`, `Reconnect.ReopenOutlivesClose`, and the run
  `Reconnect.CloseLosesRace`).
* A prepared configuration is inside the device's limits, and preparing is idempotent, exactly when the device's
  minimum power is not above its maximum (`Connect.PreparedWithinDevice`). `Connect.UnorderedLimits` is an info that
  can be received, and a request, for which neither holds.

Conventions: a byte is an `int` from 0 to 255; the CRC register is a `bv16`; Python exceptions are `Option` or
`Result` values or constructors of an error datatype; RSSI and SNR are the signed tenths of the wire.

Tags repeat after 65535 allocations. Only three results about sessions speak of runs in which no command outlives
that window, and say so in their `requires` or `ensures` (`Machine.Window`): that running commands have different
tags, that the table entry of one is never touched by another, and that no registered command is stranded by a
shutdown. For each of them the fact that holds in every run stands beside it.

## Model

| member | source | states |
|---|---|---|
| Crc.Crc16 | donglora/crc.py:16-23 | the nested shift-and-xor loop computes `Checksum` of the bytes, for every byte string |
| Crc.ChecksumIsTheRemainder | donglora/crc.py:16-23 | the checksum is the one polynomial of degree below 16 congruent, modulo x^16+x^12+x^5+1, to the message times x^16 plus the 0xFFFF preset in front of it |
| Crc.RunIsRemainder | donglora/crc.py:18-22 | the register after any message, from any start, is that remainder |
| Detect.RunAppend | donglora/crc.py:18-22 | a message may be fed in two parts |
| Detect.ChecksumAffine | donglora/crc.py:16-23 | equal xor differences of equal-length messages give equal xor differences of checksums |
| Detect.ChecksumOfXor | donglora/crc.py:16-23 | the checksum of the bytewise xor of three messages of one length is the xor of their checksums |
| Detect.RunInjective | donglora/crc.py:18-22 | feeding any message is one-to-one on registers |
| Detect.BurstDetected | donglora/crc.py:16-23 | different messages that differ within 16 consecutive bits have different checksums |
| Detect.ChecksumParity | donglora/crc.py:16-23 | the checksum has the bit parity of the message |
| Vectors.CheckValue | tests/test_crc.py:8 | the catalogue's check value of CRC-16/IBM-3740 |
| Vectors.PingFrame | tests/test_frame.py:29-31 | the published bytes of a PING frame |
| Vectors.OkFrame | tests/test_frame.py:34-36 | the published bytes of an OK frame |
| Vectors.AlarmFrame | tests/test_frame.py:85-87 | the published bytes of an error frame without a tag |
| Vectors.LostFrame | tests/test_frame.py:76-79 | the published bytes of the error frame that says NOT_CONFIGURED |
| Vectors.TxDoneFrame | tests/test_frame.py:54-60 | the published bytes of a TX_DONE frame |
| Vectors.PacketFrame | donglora/frame.py:44-58 | the bytes on the wire of the frame that carries the published packet event |
| Vectors.PacketPayload | tests/test_events.py:75-115 | the published bytes of a packet event |
| Vectors.TxDonePayload | tests/test_events.py:61-64 | the published bytes of a TX_DONE payload |
| Vectors.DefaultLoRa | tests/test_modulation.py:32-52 | the published 15 bytes of the default LoRa configuration |
| Vectors.AppliedLoRa | tests/test_events.py:25-55 | the published bytes of a SET_CONFIG result |
| Cobs.EncodeShape | donglora/frame.py:58 | encoded bytes are never zero and one longer per started 254 bytes at most |
| Cobs.RoundTrip | donglora/frame.py:58-95 | decoding undoes encoding for every byte string |
| Cobs.Canonical | donglora/frame.py:95 | an accepted string is the encoding of what it decodes to, if and only if it is neither empty nor padded by an empty block after a full one |
| Cobs.DecodesTo | donglora/frame.py:95 | the strings that decode to given data, all of them: its encoding, the same with an empty block added when it ends in a full one, and the empty string for no data |
| Frame.FrameRoundTrip | donglora/frame.py:44-108 | encoding succeeds exactly on types and tags in range and payloads of up to 275 bytes; the wire form has its only zero at the end, is shorter than the maximum, and decodes to the same frame |
| Frame.DecodedFrameReencodes | donglora/frame.py:89-108 | a decoded frame encodes to the bytes it came from, if and only if they are not padded |
| Frame.DecodesToFrame | donglora/frame.py:89-108 | the wire bytes that decode to a given frame, all of them |
| Layouts.FrameLayout | donglora/frame.py:89-108 | decoding by byte position: number, little-endian tag, payload, trailer, and which error has which cause |
| Witnesses.TwoWireForms | donglora/frame.py:89-108 | a frame with two wire forms that decode to it |
| FrameDetect.AcceptedFrameIsEven | donglora/frame.py:98-104 | every accepted frame has an even number of one bits |
| FrameDetect.OddErrorsRejected | donglora/frame.py:98-104 | flipping an odd number of bits of an accepted frame makes its CRC check fail |
| Order.OrderOfX | donglora/crc.py:18-22 | the period of the shift register: x^n is 1 modulo the generator exactly when n is a multiple of 32767 |
| FewErrors.TwoTerms | donglora/crc.py:18-22 | two terms form a multiple of the generator exactly when their distance is a multiple of 32767 |
| FewErrors.FewErrorsRejected | donglora/frame.py:98-104 | one, two or three flipped bits anywhere in an accepted frame of up to 4095 bytes make the check fail |
| FrameDetect.BodyBurstRejected | donglora/frame.py:98-104 | a burst of up to 16 bits in the checked part makes the check fail |
| FrameDetect.AdjacentBytesRejected | donglora/frame.py:98-104 | changing two adjacent bytes makes the check fail, except for exactly one pattern at one place |
| FrameDetect.MissedNeighbour | donglora/frame.py:98-104 | every accepted frame has another accepted one that differs from it in two adjacent bytes |
| Stream.ReadFrame | donglora/frame.py:121-137 | the reading loop gives the outcome of, and leaves unread, what one pass over the script of bytes and timeouts says |
| Stream.ReaderReportsFrames | donglora/frame.py:121-137 | repeated reading reports the decoding of each non-empty run that ends at a zero with no timeout inside, in order, and nothing else |
| Stream.Resynchronises | donglora/frame.py:128-137 | from any buffered bytes, what follows a zero or a timeout is read as if nothing came before |
| Stream.WireOutcome | donglora/frame.py:44-137 | a frame sent is the one frame received |
| Stream.IterFrames | donglora/frame.py:140-150 | the offline splitter yields what the reader delivers on the same bytes, up to the first corrupt frame, and that frame's error |
| Modulation.LoRaDecodeEncode | donglora/modulation.py:124-165 | a LoRa configuration is encoded exactly when every field fits, and read back unchanged |
| Modulation.LoRaEncodeDecode | donglora/modulation.py:141-165 | accepted LoRa bytes are the encoding of what they decode to |
| Modulation.FskDecodeEncode | donglora/modulation.py:182-216 | the same for FSK: what is encoded is read back unchanged |
| Modulation.FskEncodeDecode | donglora/modulation.py:196-216 | accepted FSK bytes are the encoding of what they decode to |
| Modulation.LrFhssDecodeEncode | donglora/modulation.py:258-287 | what is encoded for LR-FHSS is read back unchanged |
| Modulation.LrFhssEncodeDecode | donglora/modulation.py:268-287 | accepted LR-FHSS bytes are the encoding of what they decode to |
| Modulation.FlrcDecodeEncode | donglora/modulation.py:338-376 | what is encoded for FLRC is read back unchanged |
| Modulation.FlrcEncodeDecode | donglora/modulation.py:354-376 | accepted FLRC bytes are the encoding of what they decode to |
| Modulation.ModulationRoundTrip | donglora/modulation.py:380-406 | the tagged union is read back as sent |
| Modulation.ModulationCanonical | donglora/modulation.py:393-406 | accepted bytes are the encoding of what they decode to |
| Layouts.LoRaLayout | donglora/modulation.py:124-165 | the place of every LoRa field by byte number, for every byte string: what is accepted, and what it and only it encodes |
| Layouts.FskLayout | donglora/modulation.py:182-216 | the same for FSK |
| Layouts.LrFhssLayout | donglora/modulation.py:258-287 | the same for LR-FHSS |
| Layouts.FlrcLayout | donglora/modulation.py:338-376 | the same for FLRC |
| Layouts.ModulationLayout | donglora/modulation.py:380-406 | the modulation numbers 1 to 4, and nothing else, select the codec |
| Info.InfoRoundTrip | donglora/info.py:114-196 | an encoded info followed by anything decodes to the info |
| Info.InfoCanonical | donglora/info.py:141-196 | an accepted info re-encodes to a prefix of the bytes: trailing bytes are all that is lost |
| Layouts.InfoLayout | donglora/info.py:141-196 | the place of every field of an info by byte number, and exactly which bytes are accepted |
| Events.SetConfigResultRoundTrip | donglora/events.py:41-52 | read back as sent |
| Events.SetConfigResultCanonical | donglora/events.py:44-52 | accepted bytes are the encoding of what they decode to |
| Events.TxDoneCodec | donglora/events.py:69-80 | both directions for TX_DONE |
| Events.RxEventRoundTrip | donglora/events.py:109-142 | a packet event is read back as sent |
| Events.RxEventCanonical | donglora/events.py:121-142 | accepted packet bytes are the encoding of what they decode to |
| Layouts.RxEventLayout | donglora/events.py:109-142 | the place of every field of a packet event by byte number, both ways |
| Layouts.TxDoneLayout | donglora/events.py:69-80 | the same for TX_DONE |
| Layouts.SetConfigResultLayout | donglora/events.py:41-52 | the same for a SET_CONFIG result |
| Layouts.ErrLayout | donglora/events.py:178-187 | the same for an error code |
| Events.ErrCodec | donglora/events.py:178-187 | both directions for ERR, unknown codes included |
| Events.OkCodec | donglora/events.py:150-175 | an OK payload is read for its command as sent; what is accepted is what that command's answer encodes to, but for trailing bytes after an info |
| Layouts.OkByNumber | donglora/events.py:150-175 | by command number 1 to 6, which payload an OK carries; no other number has one |
| Connect.AdmittedIsSendable | donglora/connect.py:140-198 | for any info off the wire, an accepted LoRa request is changed only in power, fits its wire fields, and its payload decodes to it |
| Connect.PrepareOutcome | donglora/connect.py:140-198 | acceptance exactly on the frequency range and the capability bits, each error by its cause, and the power nearest to what was asked |
| Connect.BitSetMeans | donglora/connect.py:170-177 | a capability bit is the binary digit of its weight |
| Connect.PreparedWithinDevice | donglora/connect.py:165-198 | accepted means inside the device's limits, and preparing twice is preparing once, exactly when the power limits are in order |
| Connect.UnorderedLimits | donglora/connect.py:182-198 | an info off the wire and a request for which preparing goes outside the limits and is not idempotent |
| Shared.TagSequence | donglora/session.py:196-202 | the counter that wraps at 16 bits and skips zero gives the n-th command tag n mod 65535 plus 1 |
| Shared.TagRepeats | donglora/session.py:196-202 | two commands share a tag exactly when a multiple of 65535 allocations lies between them |
| Safety.StepKeepsInv | donglora/session.py:119-366 | every step of every thread keeps the invariant: tags, slots, table, wake-ups, lock, provenance of results, endings, queue; with no assumption on callers |
| Runs.RunReaches | donglora/session.py:119-296 | in every run within the tag window, a registered command is in the table or has been woken with an outcome |
| Runs.SharedTag | donglora/session.py:196-202 | in every run, two commands have the same tag exactly when a multiple of 65535 allocations lies between them |
| Runs.RunningTagsDiffer | donglora/session.py:196-255 | in every interleaving, running commands have different tags while none of them has outlived the tag window |
| Runs.OtherEntriesStay | donglora/session.py:212-220 | registering or forgetting a command leaves another's entry in place exactly when their tags differ, which within the window they do |
| Runs.StoredAfterLookup | donglora/session.py:321-366 | what the reader stores in a slot comes from a frame with its tag, looked up while the command was registered |
| Runs.TxEnding | donglora/session.py:235-255 | a finished TX timed out, failed to write, raised, or returned a TX_DONE for its own tag saying TRANSMITTED; the internal error is unreachable |
| Runs.TxWokenWithOutcome | donglora/session.py:328-366 | a TX whose event is set has an error or a TX_DONE, so an OK never wakes it |
| Runs.CommandEnding | donglora/session.py:222-233 | a finished command returned the parsed OK for its own tag, or nothing only because a TX_DONE came for it |
| Returns.EmptyReturn | donglora/session.py:222-366 | in every interleaving, exactly when a command other than TX returns without an answer |
| Returns.SlotTells | donglora/session.py:119-366 | each field of a slot is set exactly when a frame stored in it, or a shutdown, accounts for it |
| Exchange.EmptyAnswer | donglora/session.py:328-366 | for frames handled without interruption, exactly which leave a command other than TX woken without an answer |
| Witnesses.InfoAnsweredByTxDone | donglora/session.py:222-366 | a run in which a GET_INFO returns so |
| Endings.RaisedForCause | donglora/session.py:119-366 | what a command raises was said by a frame with its own tag, or is the error of a shutdown that had begun |
| Runs.SweptWaiterReleased | donglora/session.py:119-132 | in every run, once `close` or the reader's exit has cleared the table, every command that was in it or had been woken is finished or woken with an outcome, from then on |
| Runs.NoStrandedWaiter | donglora/session.py:119-132 | within the tag window up to then, that is every command registered before |
| Runs.LateCommandNeedsClose | donglora/session.py:282-296 | after the exit block only a closing thread can wake a command |
| Runs.LateCommandWaits | donglora/session.py:282-296 | without one, a waiting command stays unanswered for the rest of the run |
| Witnesses.CommandAfterExit | donglora/session.py:212-296 | a run in which a command registered after the reader's exit waits unanswered |
| Runs.PacketsConserved | donglora/session.py:166-313 | packets taken followed by packets queued are the packets dispatched, in order, in every reachable state |
| Runs.OneSentinelAtTheEnd | donglora/session.py:174-296 | no sentinel before the reader is gone; then exactly one, last in the queue or in a consumer's hand, and some consumer can go on |
| Session.Session.AllocTag | donglora/session.py:196-202 | returns the current tag and moves the counter on |
| Session.Session.RegisterPending | donglora/session.py:212-216 | a new empty slot, entered under the tag |
| Session.Session.ForgetPending | donglora/session.py:218-220 | the tag's entry is gone, nothing else changes |
| Session.Session.Dispatch | donglora/session.py:298-368 | the object's new state is `Shared.Dispatch` of the old, for every frame |
| Session.Pending.Reply | donglora/session.py:328-368 | the OK, ERR and TX_DONE branches leave in the slot what `Shared.Given` says |
| Dispatching.UntaggedByNumber | donglora/session.py:298-319 | without a tag, 0xC0 queues a packet, 0x81 records a device error, anything else leaves no trace |
| Dispatching.GivenByNumber | donglora/session.py:328-368 | what 0x80, 0x81 and 0xC1 leave in the slot of the command, field by field; anything else nothing |
| Dispatching.TaggedByNumber | donglora/session.py:321-368 | a tagged frame changes that slot only, and nothing when no command has its tag |
| Session.Session.NextRx | donglora/session.py:166-182 | head of the queue, or nothing; a sentinel is put back |
| Session.Session.DrainAsyncErrors | donglora/session.py:184-192 | all errors in order, and none left |
| Session.Session.Close | donglora/session.py:119-132 | every slot in the table gets the error and is signalled, the table is emptied, the transport is closed, nothing else changes |
| Dispatching.CloseMeans | donglora/session.py:119-132 | `close` field by field: every command in the table gets its error and is woken, the others stay |
| Dispatching.ExitMeans | donglora/session.py:282-296 | the exit block field by field: every command in the table is woken, with an error unless it had one or a TX_DONE |
| Session.Session.ReaderLoop | donglora/session.py:259-296 | the loop handles every outcome the reader gives until the transport drops, or none when closed, and then runs the exit block |
| Refinement.DispatchRefined | donglora/session.py:298-368 | an uninterrupted dispatch is a run of the machine with the same effect |
| Refinement.CloseRefined | donglora/session.py:119-126 | so is an uninterrupted `close` |
| Refinement.ReaderLoopRefined | donglora/session.py:259-296 | so is the reader loop, whatever the transport yields |
| Refinement.NextRxRefined | donglora/session.py:166-182 | so is `next_rx`, on any queue |
| Refinement.DrainRefined | donglora/session.py:184-192 | so is draining the errors |
| Refinement.AllocRefined | donglora/session.py:196-202 | allocating a tag is one step of the machine |
| Refinement.RegisterRefined | donglora/session.py:212-216 | registering a command is one step |
| Refinement.ForgetRefined | donglora/session.py:218-220 | forgetting a command is one step |
| Refinement.CommandSent | donglora/session.py:222-230 | from any state with the lock free, a command can take a tag, register, write and wait |
| Refinement.CommandReturns | donglora/session.py:230-255 | a woken command without an error can return what its slot holds |
| Refinement.CommandRaises | donglora/session.py:230-255 | a woken command with an error can raise it |
| Receive.ReceiveEndToEnd | donglora/session.py:259-319 | from bytes to `next_rx`: exactly the packets sent, in order, then nothing; one error per corrupt segment, per malformed packet and per error the device reports, none for frames of unknown type |
| Receive.ReceiveInEveryRun | donglora/session.py:166-319 | the same in every interleaving: packets taken, queued and in flight are the packets sent; errors drained, waiting and in flight are one for each cause |
| Receive.SegmentsInTurn | donglora/frame.py:121-137 | corrupt segments, cut-off frames and stray zeros disturb no other segment |
| Exchange.OnlyOwnFramesCount | donglora/session.py:321-366 | a command's slot depends only on the frames with its tag, whatever else is handled |
| Exchange.AnswerReachesCaller | donglora/session.py:222-366 | a conforming device's answer wakes the caller, not earlier, and the caller gets what the device said |
| Exchange.AnswerOverTheWire | donglora/session.py:222-366 | the same from the encoded bytes, among other traffic and corruption |
| Exchange.AnswerInEveryRun | donglora/session.py:119-366 | the same in every interleaving: a finished command timed out, failed to write, raised a shutdown error, or got the conforming device's final answer |
| Exchange.ShutdownAgainstAnswer | donglora/session.py:119-290 | what `close` and the reader's exit do to an answer already stored |
| Witnesses.CloseOverridesOk | donglora/session.py:119-126 | a run in which a PING whose OK had arrived raises "session closed" |
| Witnesses.ExitOverridesOk | donglora/session.py:282-292 | a run in which a PING whose OK had arrived raises "transport closed" |
| Layers.AnswerSeenByDongle | donglora/errors.py:114-129 | what a conforming device answers is the failure the recovery code acts upon: code 3 is NOT_CONFIGURED, everything else that fails another library error |
| Recovery.BackOffBounds | donglora/dongle.py:250-259 | the back-off stays within 0.5 to 2.0 s, never shrinks, and is 2.0 from the fifth wait on |
| Recovery.BoundedRetry | donglora/dongle.py:212-301 | for every course of a guarded call: at most two runs, success exactly when the last run succeeded, other errors surface after exactly one run; and the command goes out in these runs only, whatever recovery and repair do |
| Recovery.RecoverySends | donglora/dongle.py:233-274 | a recovery sends nothing but RX_START, to the new session, at its very end |
| Outcomes.RecoveryOutcome | donglora/dongle.py:233-274 | every recovery by position: the old session closed; each failure of the library or the system slept off 0.5, 0.75, 1.125, 1.6875, then 2.0 s; then given up, an uncaught error, or the new session in place with its info, the applied configuration or the one from before, and reception restarted or given up |
| Outcomes.RecoverySettles | donglora/dongle.py:250-260 | while nobody closes, it tries what the reopener offers up to the first answer that ends the loop, and does not stop before |
| Outcomes.CheckOutcome | donglora/dongle.py:212-231 | every liveness check by position: a look, without a reopener an error, a second look, a recovery |
| Outcomes.ListeningMeans | donglora/dongle.py:123-176 | reception as acknowledged: some RX_START with no later RX_STOP or SET_CONFIG |
| Outcomes.DiedMidCall | donglora/dongle.py:296-301 | after another library error the session is looked at; if it is dead and there is a reopener, a liveness check follows, and exactly if that is passed the operation runs again, on the session then in place |
| Outcomes.LostMidCall | donglora/dongle.py:290-295 | after NOT_CONFIGURED with a cached configuration, that is sent to the same session and, once acknowledged, the operation runs again there |
| Recovery.SecondRunEarned | donglora/dongle.py:276-301 | a second run happens exactly after the acknowledged re-sending of the cached configuration and after a passed liveness check when the session was found dead |
| Recovery.RunSessions | donglora/dongle.py:276-301 | the first run goes to the session the check left, the second after NOT_CONFIGURED to the same, otherwise to the one the repair left |
| Stories.DeathStory | donglora/dongle.py:212-301 | for every device whose session dies during the operation and every reopener: the whole log, position by position, with the operation run again on the new session |
| Stories.TxOutlivesSession | donglora/dongle.py:296-300 | the whole log of a transmission that outlives its session, with the user's configuration still cached |
| Dongle.Dongle.Reopen | donglora/dongle.py:250-260 | the retry loop uses up the reopener's results in order, each failure it catches followed by the next wait of the back-off sequence, does nothing else, and leaves only with a new session, on close, or on an error it does not catch |
| Dongle.Dongle.RecoverSession | donglora/dongle.py:233-274 | all that it does, event by event; once the reopener has yielded a session, that and its info are in place and the configuration is the one it applied, or as before if it applied none; otherwise nothing remembered changes |
| Stories.ConfigOutlivedByReopener | donglora/dongle.py:262-265 | a device with which a configuration set by the user gives way to the reopener's |
| Stories.ConfigOutlivesSession | donglora/dongle.py:262-265 | with a reopener that applied none, the configuration set by the user stays |
| Dongle.Dongle.EnsureSessionAlive | donglora/dongle.py:212-231 | nothing happens on a live session; otherwise the second look, then recovery; without a reopener an error |
| Dongle.Dongle.WithRecovery | donglora/dongle.py:276-301 | every call tells a story that obeys the retry rule of `Recovery.BoundedRetry`, on the right sessions, and leaves session, info, configuration and reception as that story says |
| Dongle.Dongle.Tx | donglora/dongle.py:109-121 | at most two transmissions, recovery included; what is remembered afterwards, reconnects included; belief in reception stays backed by acknowledgements exactly unless a configuration was re-sent or a restart failed badly |
| Stories.BeliefOutlivesReception | donglora/dongle.py:290-295 | a device with which the dongle believes in a reception that is off |
| Dongle.Dongle.Rx | donglora/dongle.py:123-136 | reception is on exactly on success, acknowledged on the current session; what is remembered afterwards, reconnects included |
| Dongle.Dongle.Recv | donglora/dongle.py:138-158 | one wait on the session that was made ready, with reception on, and what it gave is the result; after an empty one the session is looked at, and replaced if it died; what is remembered afterwards, and when belief in reception is backed |
| Outcomes.BeforeWait | donglora/dongle.py:146-151 | before it waits: a liveness check, and a guarded RX_START exactly if that was passed and reception is off |
| Outcomes.EmptyWait | donglora/dongle.py:152-157 | after an empty wait a live session is left alone and a dead one checked |
| Dongle.Dongle.RxStop | donglora/dongle.py:160-166 | on success RX_STOP was acknowledged last and reception is off |
| Dongle.Dongle.SetConfig | donglora/dongle.py:168-176 | on success the cached configuration is the one acknowledged and reception is off |
| Dongle.Dongle.Ping | donglora/dongle.py:178-185 | one PING after a liveness check; what is remembered is what that check left |
| Outcomes.PlainOutcome | donglora/dongle.py:160-185 | an unguarded command goes out once, to the session a passed check has left, and its failure is the failure of the call |
| Dongle.Dongle.Close | donglora/dongle.py:187-193 | closes the session once |
| Dongle.Dongle.KeepaliveTurn | donglora/dongle.py:303-336 | all that a turn does: that it pings a live session exactly if the last write is half a second old or older, that it sends the cached configuration once after NOT_CONFIGURED, what it swallows, what is remembered afterwards, and that only an error outside the library's own ends the thread |
| Outcomes.TurnOutcome | donglora/dongle.py:303-336 | every turn by position: a dead session checked, an idle line pinged, NOT_CONFIGURED answered with the cached configuration |
| Reconnect.StepKeepsInv | donglora/dongle.py:212-274 | every step keeps mutual exclusion and the chain of replaced sessions |
| Reconnect.OneReconnectPerDeath | donglora/dongle.py:212-274 | in every interleaving: no session replaced twice, only dead ones replaced, reopened sessions never outnumber deaths |
| Reconnect.CurrentOnlyAdvances | donglora/dongle.py:227-265 | the session is replaced only by the holder of the lock, by the next one |
| Reconnect.RecoveryEnds | donglora/dongle.py:252-274 | recovery ends with a session in place, by close, or by an uncaught error |
| Reconnect.CloseIsFinal | donglora/dongle.py:187-193 | with no reopener call in flight, `close` leaves the dongle with a dead session for good |
| Reconnect.ReopenOutlivesClose | donglora/dongle.py:252-262 | with one in flight, every `close` can end and a new live session still be put in place |
| Reconnect.CloseLosesRace | donglora/dongle.py:187-274 | a run from the start to such an end |
| Keepalive.KeepaliveLoop | donglora/dongle.py:303-324 | the loop records and sends exactly at the times of `After` |
| Keepalive.KeepaliveBound | donglora/dongle.py:303-324 | whatever the user writes, consecutive writes are less than 1 s apart, recorded ones too when every ping is acknowledged |
| Keepalive.OnePeriodMore | donglora/dongle.py:303-324 | ticks fall at multiples of half a second, and one pings exactly if the last recorded write is half a second old or older |
| Keepalive.SilentUser | donglora/dongle.py:303-324 | a silent user means a ping every half second, acknowledged or not |
| Keepalive.BoundIsTight | donglora/dongle.py:27-30 | no bound below 1 s holds |

## Left out

- Session.Session.Dispatch: as a method it runs uninterrupted, like the other methods of the class; what
  interleaving adds is in `Machine`, to which `Refinement` connects it.
- Session.Session.Close: an error raised by closing the transport is suppressed, so it is not modelled.
- Session.Session.NextRx: returns at once when the queue is empty; the blocking wait and its timeout are not modelled.
- Runs.NoStrandedWaiter: blocking and fairness are not modelled; a waiter is shown woken, not shown to be scheduled.
- Dongle.Dongle.Recv: which packet `next_rx` gives is not tied to the session model, only whether it gives one.
- Layers.AnswerSeenByDongle: the dongle is not run on top of the session machine; its log takes any failures.
- Dongle.Dongle.RecoverSession: the reopener is an arbitrary source of sessions and errors; its own handshake in
  `connect` is not modelled, except `_prepare_config`.
- Keepalive.KeepaliveBound: the timer fires on time and a ping is answered at once; real delays are not modelled.
- `_send_and_wait` and `_send_tx` are steps of the machine, not methods of the class: they wait for another thread.
- The COBS library is not part of this repository; it is written from Cheshire and Baker, "Consistent Overhead Byte
  Stuffing" (SIGCOMM 1997), in the variant that adds nothing after data ending in a full block.
- Transports, device discovery, sockets and serial ports, and the mux fallback: foreign calls.
- The exception hierarchy and messages, logging, enum display helpers, the top-level singleton.
- Floating-point dB values of packet events.
- Device firmware: the device sends any bytes; only the answers in `Exchange` assume it conforms.
