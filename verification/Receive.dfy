/** From bytes on the wire to packets in the caller's hand. */
module Receive {
  import opened Bytes
  import opened Sequences
  import opened Events
  import opened Frame
  import opened Stream
  import opened Shared
  import opened Session
  import opened Machine
  import opened Runs
  import Cobs

  /** A stretch of what arrives: a packet's frame; an error the device reports on its own; bytes of any other
      frame without a tag; a tagged frame; non-zero bytes and a zero that fail the frame check; bytes cut off by
      a timeout; a stray zero. */
  datatype Segment =
    | Good(rx: RxEvent) | Alarm(code: int) | Odd(bytes: Octets) | Tagged(frame: Frame)
    | Bad(bytes: Octets) | Cut(part: Octets) | Blank

  /** A frame without a tag that is neither a packet nor a device error. */
  predicate IsOdd(f: Frame) {
    f.tag == 0 && (f.typeId == TYPE_RX ==> RxEvent.Decode(f.payload).None?)
    && (f.typeId == TYPE_ERR ==> DecodeErr(f.payload).None?)
  }

  predicate Admissible(seg: Segment) {
    match seg
    case Good(rx) => rx.Encode().Some? && |rx.data| <= MAX_OTA_PAYLOAD
    case Alarm(code) => EncodeErr(code).Some?
    case Odd(bytes) =>
      bytes != [] && Cobs.ZeroFree(bytes) && DecodeFrame(bytes).Ok? && IsOdd(DecodeFrame(bytes).value)
    case Tagged(f) => Sendable(f) && f.tag != 0
    case Bad(bytes) => bytes != [] && Cobs.ZeroFree(bytes) && DecodeFrame(bytes).Err?
    case Cut(part) => Cobs.ZeroFree(part)
    case Blank => true
  }

  predicate AllAdmissible(segs: seq<Segment>) { forall i :: 0 <= i < |segs| ==> Admissible(segs[i]) }

  function PacketFrame(rx: RxEvent): Frame
    requires rx.Encode().Some?
  {
    Frame(TYPE_RX, 0, rx.Encode().value)
  }

  function AlarmFrame(code: int): Frame
    requires EncodeErr(code).Some?
  {
    Frame(TYPE_ERR, 0, EncodeErr(code).value)
  }

  lemma AlarmSendable(code: int)
    requires EncodeErr(code).Some?
    ensures Sendable(AlarmFrame(code)) && EncodeFrame(AlarmFrame(code)).Ok?
  {
    PackOne(code);
    FrameRoundTrip(AlarmFrame(code));
  }

  lemma PacketSendable(rx: RxEvent)
    requires Admissible(Good(rx))
    ensures Sendable(PacketFrame(rx)) && EncodeFrame(PacketFrame(rx)).Ok?
  {
    hide RxEvent.Encode;
    RxEventRoundTrip(rx);
    FrameRoundTrip(PacketFrame(rx));
  }

  function Arrival(seg: Segment): Script
    requires Admissible(seg)
  {
    match seg
    case Good(rx) =>
      PacketSendable(rx);
      Arriving(EncodeFrame(PacketFrame(rx)).value)
    case Alarm(code) =>
      AlarmSendable(code);
      Arriving(EncodeFrame(AlarmFrame(code)).value)
    case Tagged(f) =>
      FrameRoundTrip(f);
      Arriving(EncodeFrame(f).value)
    case Odd(bytes) => Arriving(bytes + [0])
    case Bad(bytes) => Arriving(bytes + [0])
    case Cut(part) => Arriving(part) + [Timeout]
    case Blank => [Got(0)]
  }

  function Arrivals(segs: seq<Segment>): Script
    requires AllAdmissible(segs)
  {
    if segs == [] then [] else Arrival(segs[0]) + Arrivals(segs[1..])
  }

  function Expected(seg: Segment): Outcome
    requires Admissible(seg)
  {
    match seg
    case Good(rx) => Delivered(PacketFrame(rx))
    case Alarm(code) => Delivered(AlarmFrame(code))
    case Odd(bytes) => Delivered(DecodeFrame(bytes).value)
    case Tagged(f) => Delivered(f)
    case Bad(bytes) => Corrupt(DecodeFrame(bytes).error)
    case _ => Nothing
  }

  function ExpectedAll(segs: seq<Segment>): seq<Outcome>
    requires AllAdmissible(segs)
  {
    if segs == [] then [] else [Expected(segs[0])] + ExpectedAll(segs[1..])
  }

  function SentIn(seg: Segment): seq<RxEvent> {
    match seg
    case Good(rx) => [rx]
    case _ => []
  }

  function FailuresIn(seg: Segment): seq<AsyncError>
    requires Admissible(seg)
  {
    match seg
    case Alarm(code) => [AsyncDeviceError(code)]
    case Odd(bytes) => if DecodeFrame(bytes).value.typeId == TYPE_RX then [BadRxPayload] else []
    case Bad(bytes) => [FrameFailure(DecodeFrame(bytes).error)]
    case _ => []
  }

  /** The packets sent, in order. */
  function Sent(segs: seq<Segment>): seq<RxEvent> {
    if segs == [] then [] else SentIn(segs[0]) + Sent(segs[1..])
  }

  /** One error for every corrupt segment, every malformed packet and every error the device reports, in order. */
  function Failures(segs: seq<Segment>): seq<AsyncError>
    requires AllAdmissible(segs)
  {
    if segs == [] then [] else FailuresIn(segs[0]) + Failures(segs[1..])
  }

  // ----- the reader meets each segment on its own

  lemma {:induction false} CutOutcome(buf: Octets, part: Octets)
    requires Cobs.ZeroFree(part)
    ensures Outcomes(buf, Arriving(part) + [Timeout]) == [Nothing]
    decreases |part|
  {
    var s := Arriving(part) + [Timeout];
    if part == [] {
      assert s[1..] == [];
    } else {
      assert s[1..] == Arriving(part[1..]) + [Timeout];
      CutOutcome(buf + [part[0]], part[1..]);
    }
  }

  lemma SegmentAlone(seg: Segment)
    requires Admissible(seg)
    ensures Outcomes([], Arrival(seg)) == [Expected(seg)]
    ensures Arrival(seg) != [] && Settled(Arrival(seg))
  {
    hide DecodeFrame, EncodeFrame, RxEvent.Encode, Outcomes;
    match seg
    case Good(rx) =>
      PacketSendable(rx);
      var f := PacketFrame(rx);
      FrameRoundTrip(f);
      WireOutcome(f);
    case Alarm(code) =>
      AlarmSendable(code);
      FrameRoundTrip(AlarmFrame(code));
      WireOutcome(AlarmFrame(code));
    case Tagged(f) =>
      FrameRoundTrip(f);
      WireOutcome(f);
    case Odd(bytes) =>
      SegmentOutcome([], bytes);
      assert [] + bytes == bytes;
    case Bad(bytes) =>
      SegmentOutcome([], bytes);
      assert [] + bytes == bytes;
    case Cut(part) => CutOutcome([], part);
    case Blank => BlankOutcome();
  }

  lemma BlankOutcome()
    ensures Outcomes([], [Got(0)]) == [Nothing]
  {
  }

  lemma {:induction false} SegmentsInTurn(segs: seq<Segment>)
    requires AllAdmissible(segs)
    ensures ReadAll(Arrivals(segs)) == ExpectedAll(segs)
  {
    hide Arrival, Expected, ReadAll, Outcomes;
    ReadAllIsOutcomes(Arrivals(segs));
    if segs == [] {
      NoOutcomes();
    } else {
      var rest := Arrivals(segs[1..]);
      SegmentAlone(segs[0]);
      Resynchronises([], Arrival(segs[0]), rest);
      SegmentsInTurn(segs[1..]);
      ReadAllIsOutcomes(rest);
    }
  }

  lemma NoOutcomes()
    ensures Outcomes([], []) == []
  {
  }

  // ----- what one outcome adds

  function PacketsOf(o: Outcome): seq<RxEvent> {
    match o
    case Delivered(f) => (match PacketOf(f) case None => [] case Some(rx) => [rx])
    case _ => []
  }

  function ErrorsOf(o: Outcome): seq<AsyncError> {
    match o
    case Delivered(f) => if f.tag == 0 then Async(INITIAL, f).asyncErrors else []
    case Corrupt(e) => [FrameFailure(e)]
    case _ => []
  }

  function AllPackets(os: seq<Outcome>): seq<RxEvent> {
    if os == [] then [] else PacketsOf(os[0]) + AllPackets(os[1..])
  }

  function AllErrors(os: seq<Outcome>): seq<AsyncError> {
    if os == [] then [] else ErrorsOf(os[0]) + AllErrors(os[1..])
  }

  lemma {:induction false} OneOutcomeMore(os: seq<Outcome>, o: Outcome)
    ensures AllPackets(os + [o]) == AllPackets(os) + PacketsOf(o)
    ensures AllErrors(os + [o]) == AllErrors(os) + ErrorsOf(o)
  {
    hide PacketsOf, ErrorsOf;
    if os == [] {
      assert [o][1..] == [] && os + [o] == [o];
    } else {
      assert (os + [o])[1..] == os[1..] + [o];
      OneOutcomeMore(os[1..], o);
    }
  }

  lemma {:induction false} ExpectedContents(segs: seq<Segment>)
    requires AllAdmissible(segs)
    ensures AllPackets(ExpectedAll(segs)) == Sent(segs)
    ensures AllErrors(ExpectedAll(segs)) == Failures(segs)
  {
    if segs != [] {
      var o := Expected(segs[0]);
      var rest := ExpectedAll(segs[1..]);
      assert ([o] + rest)[1..] == rest;
      ExpectedContent(segs[0]);
      ExpectedContents(segs[1..]);
    }
  }

  lemma ExpectedContent(seg: Segment)
    requires Admissible(seg)
    ensures PacketsOf(Expected(seg)) == SentIn(seg)
    ensures ErrorsOf(Expected(seg)) == FailuresIn(seg)
  {
    hide DecodeFrame, RxEvent.Encode, RxEvent.Decode, EncodeErr, DecodeErr;
    if seg.Good? { RxEventRoundTrip(seg.rx); }
    if seg.Alarm? { ErrCodec(seg.code, []); }
  }

  // ----- end to end, reader first and consumer after

  function Queued(rxs: seq<RxEvent>): (q: seq<QueueItem>)
    ensures |q| == |rxs|
  {
    seq(|rxs|, i requires 0 <= i < |rxs| => Packet(rxs[i]))
  }

  lemma HandleExpected(sh: Shared, seg: Segment)
    requires WellFormed(sh) && Admissible(seg)
    ensures var sh' := Handle(sh, Expected(seg));
            sh'.rxQueue == sh.rxQueue + Queued(SentIn(seg)) && sh'.asyncErrors == sh.asyncErrors + FailuresIn(seg)
  {
    hide DecodeFrame, RxEvent.Encode, RxEvent.Decode, EncodeErr, DecodeErr, ReplyFor;
    match seg
    case Good(rx) => RxEventRoundTrip(rx);
    case Alarm(code) => ErrCodec(code, []);
    case _ =>
  }

  lemma {:induction false} HandleAllExpected(sh: Shared, segs: seq<Segment>)
    requires WellFormed(sh) && AllAdmissible(segs)
    ensures var sh' := HandleAll(sh, ExpectedAll(segs));
            sh'.rxQueue == sh.rxQueue + Queued(Sent(segs)) && sh'.asyncErrors == sh.asyncErrors + Failures(segs)
    decreases |segs|
  {
    hide Handle, HandleAll, Expected, SentIn, FailuresIn, Queued, WellFormed;
    if segs == [] {
      HandleNone(sh);
      QueuedJoin(sh.rxQueue, [], []);
    } else {
      var o, rest := Expected(segs[0]), segs[1..];
      HandleExpected(sh, segs[0]);
      HandleFirst(sh, o, ExpectedAll(rest));
      HandleAllExpected(Handle(sh, o), rest);
      QueuedJoin(sh.rxQueue, SentIn(segs[0]), Sent(rest));
      Regroup(sh.asyncErrors, FailuresIn(segs[0]), Failures(rest));
    }
  }

  lemma QueuedJoin(q: seq<QueueItem>, a: seq<RxEvent>, b: seq<RxEvent>)
    ensures q + Queued(a) + Queued(b) == q + Queued(a + b) && Queued([]) == []
  {
  }

  /** The results of `n` successive calls of `next_rx`. */
  function Taken(sh: Shared, n: nat): seq<Option<RxEvent>>
    decreases n
  {
    if n == 0 then [] else [NextRxOf(sh).0] + Taken(NextRxOf(sh).1, n - 1)
  }

  lemma {:induction false} TakenFromQueue(sh: Shared, rxs: seq<RxEvent>, n: nat)
    requires sh.rxQueue == Queued(rxs) + [DeadSentinel]
    ensures |Taken(sh, n)| == n
    ensures forall i :: 0 <= i < n ==> Taken(sh, n)[i] == if i < |rxs| then Some(rxs[i]) else None
    decreases n
  {
    if n > 0 {
      var rest := if rxs == [] then [] else rxs[1..];
      assert NextRxOf(sh).1.rxQueue == Queued(rest) + [DeadSentinel];
      TakenFromQueue(NextRxOf(sh).1, rest, n - 1);
    }
  }

  /** However device errors, other frames with or without a tag, corrupt segments, cut-off frames and stray
      zeros lie between the packets: after the reader has read everything, successive `next_rx` calls return
      exactly the packets sent, in order, and then nothing; and there is one error for each corrupt segment,
      malformed packet and device error. */
  lemma ReceiveEndToEnd(segs: seq<Segment>, n: nat)
    requires AllAdmissible(segs)
    ensures var sh := ExitReader(HandleAll(INITIAL, ReadAll(Arrivals(segs))));
            && sh.asyncErrors == Failures(segs)
            && |Taken(sh, n)| == n
            && forall i :: 0 <= i < n ==> Taken(sh, n)[i] == if i < |Sent(segs)| then Some(Sent(segs)[i]) else None
  {
    hide Sent, Failures, Arrivals, ReadAll, ExpectedAll, HandleAll, SweptSlots, Taken;
    SegmentsInTurn(segs);
    HandleAllExpected(INITIAL, segs);
    var sh := ExitReader(HandleAll(INITIAL, ReadAll(Arrivals(segs))));
    assert [] + Queued(Sent(segs)) == Queued(Sent(segs)) && [] + Failures(segs) == Failures(segs);
    TakenFromQueue(sh, Sent(segs), n);
  }

  // ----- end to end, in every interleaving

  function OutcomeOf(step: Step): seq<Outcome> {
    match step
    case Reader(ReadNothing) => [Nothing]
    case Reader(ReadCorrupt(e)) => [Corrupt(e)]
    case Reader(ReadFrame(f)) => [Delivered(f)]
    case _ => []
  }

  /** What `read_frame` has given the reader in these steps. */
  function ReadBy(steps: seq<Step>): seq<Outcome> {
    if steps == [] then [] else ReadBy(steps[..|steps| - 1]) + OutcomeOf(steps[|steps| - 1])
  }

  /** The frame read but not yet dispatched. */
  function InFlight(r: ReaderPc): Outcome {
    match r
    case Dispatching(f) => Delivered(f)
    case _ => Nothing
  }

  predicate Heard(s: State, os: seq<Outcome>) {
    && s.dispatched + PacketsOf(InFlight(s.reader)) == AllPackets(os)
    && s.drained + s.sh.asyncErrors + ErrorsOf(InFlight(s.reader)) == AllErrors(os)
  }

  lemma ReaderStepHeard(s: State, k: ReaderStep, os: seq<Outcome>)
    requires ReaderCan(s, k) && Heard(s, os)
    ensures Heard(ByReader(s, k), os + OutcomeOf(Reader(k)))
  {
    hide AllPackets, AllErrors, ReplyFor, Put, DecodeErr, RxEvent.Decode;
    if OutcomeOf(Reader(k)) == [] {
      assert os + [] == os;
      match k
      case DispatchAsync =>
        AsyncAdds(s.sh, s.reader.frame);
        Regroup(s.drained, s.sh.asyncErrors, ErrorsOf(InFlight(s.reader)));
      case StoreReply =>
      case _ =>
    } else {
      OneOutcomeMore(os, OutcomeOf(Reader(k))[0]);
    }
  }

  lemma AsyncAdds(sh: Shared, f: Frame)
    ensures Async(sh, f).asyncErrors == sh.asyncErrors + Async(INITIAL, f).asyncErrors
  {
  }

  lemma StepHeard(s: State, step: Step, os: seq<Outcome>)
    requires Enabled(s, step) && LockOk(s) && Heard(s, os)
    ensures Heard(Apply(s, step), os + OutcomeOf(step))
  {
    if step.Reader? {
      hide Heard, ByReader;
      ReaderStepHeard(s, step.reader, os);
    } else {
      hide ByCaller, ByShutdown, ByConsumer, AllPackets, AllErrors, PacketsOf, ErrorsOf;
      assert os + [] == os;
      match step
      case Caller(k) => CallerErrors(s, k);
      case Shutdown(k) => ShutdownErrors(s, k);
      case Consumer(k) => ConsumerErrors(s, k);
    }
  }

  lemma CallerErrors(s: State, k: CallerStep)
    requires CallerCan(s, k)
    ensures var s' := ByCaller(s, k);
            && s'.sh.asyncErrors == s.sh.asyncErrors && s'.drained == s.drained
            && s'.dispatched == s.dispatched && s'.reader == s.reader
  {
    hide EndingOf, TagAfter;
  }

  lemma ConsumerErrors(s: State, k: ConsumerStep)
    requires ConsumerCan(s, k)
    ensures var s' := ByConsumer(s, k);
            && s'.drained + s'.sh.asyncErrors == s.drained + s.sh.asyncErrors
            && s'.dispatched == s.dispatched && s'.reader == s.reader
  {
  }

  lemma ShutdownErrors(s: State, k: ShutdownStep)
    requires ShutdownCan(s, k) && LockOk(s)
    ensures var s' := ByShutdown(s, k);
            && s'.sh.asyncErrors == s.sh.asyncErrors && s'.drained == s.drained && s'.dispatched == s.dispatched
            && InFlight(s'.reader) == InFlight(s.reader)
  {
    hide CloseSlot;
  }

  lemma RunLockOk(states: seq<State>, steps: seq<Step>, k: nat)
    requires IsRun(states, steps) && k < |states|
    ensures LockOk(states[k])
  {
    hide IsRun, LockOk, Tags, Slots, Table, Woken, ReaderOk, Provenance, Pcs, Queue;
    RunIsSafe(states, steps, k);
  }

  lemma NothingHeard()
    ensures Heard(START, ReadBy([]))
  {
  }

  lemma {:induction false} RunHeard(states: seq<State>, steps: seq<Step>, k: nat)
    requires IsRun(states, steps) && k < |states|
    ensures Heard(states[k], ReadBy(steps[..k]))
    decreases k
  {
    hide Apply, Enabled, OutcomeOf, Heard, LockOk;
    if k == 0 {
      assert steps[..0] == [];
      NothingHeard();
    } else {
      RunHeard(states, steps, k - 1);
      assert Follows(states[k - 1], steps[k - 1], states[k]);
      RunLockOk(states, steps, k - 1);
      StepHeard(states[k - 1], steps[k - 1], ReadBy(steps[..k - 1]));
      assert steps[..k][..k - 1] == steps[..k - 1];
    }
  }

  /** In every interleaving with callers, closers and other consumers: when the reader has read these
      segments, the packets consumers took, those still queued and the one about to be dispatched are
      exactly the packets sent, in order, and the errors drained, waiting and about to be reported are one for
      each corrupt segment, malformed packet and device error, in order. */
  lemma ReceiveInEveryRun(states: seq<State>, steps: seq<Step>, k: nat, segs: seq<Segment>)
    requires IsRun(states, steps) && k < |states| && AllAdmissible(segs)
    requires ReadBy(steps[..k]) == ReadAll(Arrivals(segs))
    ensures var s := states[k];
            && s.dequeued + Packets(s.sh.rxQueue) + PacketsOf(InFlight(s.reader)) == Sent(segs)
            && s.drained + s.sh.asyncErrors + ErrorsOf(InFlight(s.reader)) == Failures(segs)
  {
    hide IsRun, Arrivals, ReadAll, ReadBy, AllPackets, AllErrors, Sent, Failures, Packets, PacketsOf, ErrorsOf;
    RunHeard(states, steps, k);
    PacketsConserved(states, steps, k);
    SegmentsInTurn(segs);
    ExpectedContents(segs);
  }

  // ----- what the reader stored it had read

  lemma FrameArrives(s: State, step: Step)
    requires Enabled(s, step) && Apply(s, step).reader.Dispatching? && Apply(s, step).reader != s.reader
    ensures step == Reader(ReadFrame(Apply(s, step).reader.frame))
  {
    hide ByCaller, ByConsumer, ReplyFor, Async, PacketOf, CloseSlot;
    match step
    case Caller(k) => CallerErrors(s, k);
    case Consumer(k) => ConsumerErrors(s, k);
    case _ =>
  }

  lemma {:induction false} DispatchedWasRead(states: seq<State>, steps: seq<Step>, k: nat)
    requires IsRun(states, steps) && k < |states| && states[k].reader.Dispatching?
    ensures Delivered(states[k].reader.frame) in ReadBy(steps[..k])
    decreases k
  {
    hide Apply, Enabled;
    if k > 0 {
      assert Follows(states[k - 1], steps[k - 1], states[k]);
      assert steps[..k][..k - 1] == steps[..k - 1];
      if states[k - 1].reader != states[k].reader {
        FrameArrives(states[k - 1], steps[k - 1]);
      } else {
        DispatchedWasRead(states, steps, k - 1);
      }
    }
  }

  lemma {:induction false} StillRead(steps: seq<Step>, i: nat, k: nat, o: Outcome)
    requires i <= k <= |steps| && o in ReadBy(steps[..i])
    ensures o in ReadBy(steps[..k])
    decreases k
  {
    hide OutcomeOf;
    if i < k {
      StillRead(steps, i, k - 1, o);
      assert steps[..k][..k - 1] == steps[..k - 1];
    }
  }

  lemma StoredWasRead(states: seq<State>, steps: seq<Step>, k: nat, c: nat, f: Frame)
    requires IsRun(states, steps) && k < |states| && (c, f) in states[k].stores
    ensures Delivered(f) in ReadBy(steps[..k])
  {
    hide IsRun, ReadBy;
    var i := StoredAfterLookup(states, steps, k, c, f);
    DispatchedWasRead(states, steps, i);
    OneStateMore(states, steps);
    StillRead(steps, i, k, Delivered(f));
  }

  lemma OneStateMore(states: seq<State>, steps: seq<Step>)
    requires IsRun(states, steps)
    ensures |states| == |steps| + 1
  {
  }
}
