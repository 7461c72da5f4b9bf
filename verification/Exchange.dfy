/** A command and its answer: from the frames a device sends to what the calling thread gets. */
module Exchange {
  import opened Bytes
  import opened Events
  import opened Frame
  import opened Stream
  import opened Shared
  import opened Session
  import opened Machine
  import opened Receive
  import opened Runs

  /** The table leads to slot `id` from `tag` and from nowhere else. */
  predicate Registered(sh: Shared, id: nat, tag: int) {
    && WellFormed(sh) && tag != 0 && tag in sh.pending && sh.pending[tag] == id
    && forall t :: t in sh.pending && sh.pending[t] == id ==> t == tag
  }

  function GivenAll(slot: Slot, frames: seq<Frame>): Slot
    decreases |frames|
  {
    if frames == [] then slot else GivenAll(Given(slot, frames[0]), frames[1..])
  }

  function FramesFor(os: seq<Outcome>, tag: int): seq<Frame> {
    if os == [] then []
    else (if os[0].Delivered? && os[0].frame.tag == tag then [os[0].frame] else []) + FramesFor(os[1..], tag)
  }

  lemma HandleSlot(sh: Shared, o: Outcome, id: nat, tag: int)
    requires Registered(sh, id, tag)
    ensures Handle(sh, o).pending == sh.pending && Registered(Handle(sh, o), id, tag)
    ensures Handle(sh, o).slots[id]
         == if o.Delivered? && o.frame.tag == tag then Given(sh.slots[id], o.frame) else sh.slots[id]
  {
    hide ReplyFor, Put, RxEvent.Decode, DecodeErr;
    HandleKeeps(sh, o);
  }

  /** Whatever else the reader handles, a command's slot depends on the frames with the command's tag only. */
  lemma {:induction false} OnlyOwnFramesCount(sh: Shared, os: seq<Outcome>, id: nat, tag: int)
    requires Registered(sh, id, tag)
    ensures id in HandleAll(sh, os).slots && HandleAll(sh, os).pending == sh.pending
    ensures HandleAll(sh, os).slots[id] == GivenAll(sh.slots[id], FramesFor(os, tag))
    decreases |os|
  {
    hide Handle, Given;
    if os != [] {
      HandleSlot(sh, os[0], id, tag);
      OnlyOwnFramesCount(Handle(sh, os[0]), os[1..], id, tag);
      var rest := FramesFor(os[1..], tag);
      if os[0].Delivered? && os[0].frame.tag == tag {
        assert ([os[0].frame] + rest)[1..] == rest;
      } else {
        assert [] + rest == rest;
      }
    }
  }

  // ----- a conforming device

  datatype Response = Accepted(ok: OkPayload) | Refused(code: int) | Finished(txDone: TxDone)

  function ResponseFrame(cmd: int, tag: int, r: Response): Option<Frame> {
    match r
    case Accepted(ok) => (match EncodeOk(cmd, ok) case None => None case Some(p) => Some(Frame(TYPE_OK, tag, p)))
    case Refused(code) => (match EncodeErr(code) case None => None case Some(p) => Some(Frame(TYPE_ERR, tag, p)))
    case Finished(td) => (match td.Encode() case None => None case Some(p) => Some(Frame(TYPE_TX_DONE, tag, p)))
  }

  /** TX is accepted and later finished, or refused; every other command is accepted or refused. */
  predicate Conversation(cmd: int, rs: seq<Response>) {
    || (|rs| == 1 && rs[0].Refused?)
    || (cmd != TYPE_TX && |rs| == 1 && rs[0].Accepted?)
    || (cmd == TYPE_TX && |rs| == 2 && rs[0].Accepted? && rs[1].Finished?)
  }

  /** What the caller should get. */
  function Answer(tag: int, r: Response): Ending {
    match r
    case Accepted(ok) => ReturnedOk(Some(ok))
    case Refused(code) => Raised(DeviceError(code, tag))
    case Finished(td) =>
      if td.result == TRANSMITTED then ReturnedTx(td)
      else if td.result == CHANNEL_BUSY then Raised(ChannelBusy)
      else Raised(Cancelled)
  }

  /** What the waiting thread makes of its slot when its event is set. */
  function WaiterResult(slot: Slot): Ending {
    if slot.err.Some? then Raised(slot.err.value) else EndingOf(slot)
  }

  lemma GivenResponse(slot: Slot, r: Response)
    requires slot.err.None? && !slot.event && ResponseFrame(slot.cmd, slot.tag, r).Some?
    ensures var after := Given(slot, ResponseFrame(slot.cmd, slot.tag, r).value);
            && after.cmd == slot.cmd && after.tag == slot.tag
            && (r.Accepted? && slot.cmd == TYPE_TX ==> !after.event && after.err.None?)
            && (r.Accepted? && slot.cmd != TYPE_TX ==> after.event && WaiterResult(after) == Answer(slot.tag, r))
            && (r.Refused? ==> after.event && WaiterResult(after) == Answer(slot.tag, r))
            && (r.Finished? && slot.cmd == TYPE_TX ==> after.event && WaiterResult(after) == Answer(slot.tag, r))
  {
    hide ParseOk, EncodeOk, TxDone.Decode, TxDone.Encode, DecodeErr, EncodeErr;
    match r
    case Accepted(ok) => OkCodec(slot.cmd, ok, []);
    case Refused(code) => ErrCodec(code, []);
    case Finished(td) => TxDoneCodec(td, []);
  }

  lemma GivenFew(slot: Slot, a: Frame, b: Frame)
    ensures GivenAll(slot, []) == slot && GivenAll(slot, [a]) == Given(slot, a)
    ensures GivenAll(slot, [a, b]) == Given(Given(slot, a), b)
  {
    hide Given;
    assert [a][1..] == [] && [b][1..] == [] && [a, b][1..] == [b];
    assert GivenAll(Given(slot, a), [b]) == Given(Given(slot, a), b);
  }

  /** The caller of a command that a conforming device answers is woken by the last of its answers and gets
      what the device said, whatever else arrives before, between and after, and not earlier. */
  lemma AnswerReachesCaller(sh: Shared, script: Script, id: nat, rs: seq<Response>, frames: seq<Frame>)
    requires id in sh.slots
    requires var slot := sh.slots[id];
             && Registered(sh, id, slot.tag) && slot == Slot(slot.tag, slot.cmd, false, None, None, None)
             && Conversation(slot.cmd, rs) && |frames| == |rs|
             && (forall i :: 0 <= i < |rs| ==> ResponseFrame(slot.cmd, slot.tag, rs[i]) == Some(frames[i]))
    ensures var tag := sh.slots[id].tag;
            var got := FramesFor(ReadAll(script), tag);
            var after := HandleAll(sh, ReadAll(script));
            && id in after.slots
            && (got == frames ==> after.slots[id].event && WaiterResult(after.slots[id]) == Answer(tag, rs[|rs| - 1]))
            && (got < frames ==> !after.slots[id].event)
  {
    hide ReadAll, HandleAll, FramesFor, Given, GivenAll, ResponseFrame, WaiterResult, Answer;
    var slot := sh.slots[id];
    OnlyOwnFramesCount(sh, ReadAll(script), id, slot.tag);
    var got := FramesFor(ReadAll(script), slot.tag);
    GivenResponse(slot, rs[0]);
    if |rs| == 2 {
      GivenResponse(Given(slot, frames[0]), rs[1]);
      GivenFew(slot, frames[0], frames[1]);
      assert frames == [frames[0], frames[1]];
    } else {
      GivenFew(slot, frames[0], frames[0]);
      assert frames == [frames[0]];
    }
    if got < frames {
      assert got == frames[..|got|];
      assert got == [] || got == [frames[0]];
    }
  }

  /** `close` replaces whatever answer a waiting command already has by its own error. The reader's exit
      leaves the answer standing exactly when it is an error or a TX_DONE, and so not when it is an OK. */
  lemma ShutdownAgainstAnswer(slot: Slot)
    requires HasOutcome(slot)
    ensures WaiterResult(ShutSlot(slot, false)) == Raised(SessionClosed)
    ensures WaiterResult(ShutSlot(slot, true)) == WaiterResult(slot) <==> slot.err.Some? || slot.txDone.Some?
  {
  }

  // ----- an answer of the wrong kind

  /** A TX_DONE that says the packet was sent. */
  predicate StrayDone(f: Frame) {
    && f.typeId == TYPE_TX_DONE && TxDone.Decode(f.payload).Some?
    && TxDone.Decode(f.payload).value.result == TRANSMITTED
  }

  /** A frame the dispatcher does nothing about. */
  predicate Unheard(f: Frame) {
    || (f.typeId != TYPE_OK && f.typeId != TYPE_ERR && f.typeId != TYPE_TX_DONE)
    || (f.typeId == TYPE_ERR && |f.payload| != 2)
  }

  lemma GivenKinds(slot: Slot, f: Frame)
    requires slot.cmd != TYPE_TX
    ensures Given(slot, f).cmd == slot.cmd
    ensures StrayDone(f) ==> TxDone.Decode(f.payload).Some?
    ensures StrayDone(f) ==> Given(slot, f) == slot.(txDone := TxDone.Decode(f.payload), event := true)
    ensures Unheard(f) ==> Given(slot, f) == slot
    ensures !StrayDone(f) && !Unheard(f) ==> Decided(Given(slot, f))
    ensures Decided(slot) ==> Decided(Given(slot, f))
  {
    hide ParseOk, TxDone.Decode;
  }

  predicate Decided(slot: Slot) { slot.ok.Some? || slot.err.Some? }

  lemma {:induction false} DecidedStays(slot: Slot, frames: seq<Frame>)
    requires slot.cmd != TYPE_TX && Decided(slot)
    ensures Decided(GivenAll(slot, frames)) && GivenAll(slot, frames).cmd == slot.cmd
    decreases |frames|
  {
    hide Given, Decided, Unheard, StrayDone;
    if frames != [] {
      GivenKinds(slot, frames[0]);
      DecidedStays(Given(slot, frames[0]), frames[1..]);
    }
  }

  lemma {:induction false} OnlyStrayDones(slot: Slot, frames: seq<Frame>)
    requires slot.cmd != TYPE_TX && !Decided(slot) && (slot.event <==> slot.txDone.Some?)
    ensures (GivenAll(slot, frames).event && WaiterResult(GivenAll(slot, frames)) == ReturnedOk(None)) <==>
              && (slot.event || exists f :: f in frames && StrayDone(f))
              && (forall f :: f in frames ==> StrayDone(f) || Unheard(f))
    decreases |frames|
  {
    hide Given, Unheard, StrayDone;
    if frames != [] {
      var f, rest := frames[0], frames[1..];
      assert frames == [f] + rest;
      assert forall g :: g in frames <==> g == f || g in rest;
      GivenKinds(slot, f);
      var next := Given(slot, f);
      if StrayDone(f) || Unheard(f) {
        OnlyStrayDones(next, rest);
      } else {
        DecidedStays(next, rest);
      }
    }
  }

  /** A command other than TX returns an empty answer, as no conforming device gives, exactly when a TX_DONE
      that says the packet was sent came for it, and no OK, no well-formed ERR and no other TX_DONE. */
  lemma EmptyAnswer(tag: int, cmd: int, frames: seq<Frame>)
    requires cmd != TYPE_TX
    ensures var slot := GivenAll(Slot(tag, cmd, false, None, None, None), frames);
            (slot.event && WaiterResult(slot) == ReturnedOk(None)) <==>
              && (exists f :: f in frames && StrayDone(f))
              && (forall f :: f in frames ==> StrayDone(f) || Unheard(f))
  {
    OnlyStrayDones(Slot(tag, cmd, false, None, None, None), frames);
  }

  // ----- over the wire

  function TaggedIn(segs: seq<Segment>, tag: int): seq<Frame> {
    if segs == [] then []
    else (if segs[0].Tagged? && segs[0].frame.tag == tag then [segs[0].frame] else []) + TaggedIn(segs[1..], tag)
  }

  lemma OddHasNoTag(seg: Segment)
    requires Admissible(seg)
    ensures seg.Odd? ==> Expected(seg).Delivered? && Expected(seg).frame.tag == 0
  {
  }

  lemma {:induction false} TaggedArrive(segs: seq<Segment>, tag: int)
    requires AllAdmissible(segs) && tag != 0
    ensures FramesFor(ExpectedAll(segs), tag) == TaggedIn(segs, tag)
  {
    hide Admissible, DecodeFrame, RxEvent.Encode, EncodeErr;
    if segs != [] {
      var rest := ExpectedAll(segs[1..]);
      assert ([Expected(segs[0])] + rest)[1..] == rest;
      OddHasNoTag(segs[0]);
      TaggedArrive(segs[1..], tag);
    }
  }

  /** The same, from the bytes on the wire: answers encoded as frames, arriving among packets, device errors,
      answers to other commands, corrupt segments, cut-off frames and stray zeros. */
  lemma AnswerOverTheWire(sh: Shared, segs: seq<Segment>, id: nat, rs: seq<Response>)
    requires AllAdmissible(segs) && id in sh.slots
    requires var slot := sh.slots[id];
             && Registered(sh, id, slot.tag) && slot == Slot(slot.tag, slot.cmd, false, None, None, None)
             && Conversation(slot.cmd, rs) && |TaggedIn(segs, slot.tag)| == |rs|
             && (forall i :: 0 <= i < |rs| ==>
                   ResponseFrame(slot.cmd, slot.tag, rs[i]) == Some(TaggedIn(segs, slot.tag)[i]))
    ensures var after := HandleAll(sh, ReadAll(Arrivals(segs)));
            && id in after.slots && after.slots[id].event
            && WaiterResult(after.slots[id]) == Answer(sh.slots[id].tag, rs[|rs| - 1])
  {
    hide ReadAll, HandleAll, Arrivals, ExpectedAll, FramesFor, TaggedIn, ResponseFrame, WaiterResult, Answer;
    var slot := sh.slots[id];
    SegmentsInTurn(segs);
    TaggedArrive(segs, slot.tag);
    AnswerReachesCaller(sh, Arrivals(segs), id, rs, TaggedIn(segs, slot.tag));
  }

  // ----- in every interleaving

  lemma {:induction false} TaggedWasSent(segs: seq<Segment>, f: Frame)
    requires AllAdmissible(segs) && Delivered(f) in ExpectedAll(segs) && f.tag != 0
    ensures f in TaggedIn(segs, f.tag)
  {
    hide Admissible, DecodeFrame, RxEvent.Encode, EncodeErr;
    if segs != [] {
      OddHasNoTag(segs[0]);
      if Expected(segs[0]) != Delivered(f) { TaggedWasSent(segs[1..], f); }
    }
  }

  /** What the reader stores for an answer of a conforming device. */
  function UpdateOf(tag: int, r: Response): Update {
    match r
    case Accepted(ok) => SetOk(ok)
    case Refused(code) => SetErr(DeviceError(code, tag))
    case Finished(td) =>
      if td.result == TRANSMITTED then SetTxDone(td)
      else if td.result == CHANNEL_BUSY then SetErr(ChannelBusy)
      else SetErr(Cancelled)
  }

  lemma ReplyToResponse(cmd: int, tag: int, r: Response)
    requires ResponseFrame(cmd, tag, r).Some?
    ensures var reply := ReplyFor(cmd, ResponseFrame(cmd, tag, r).value);
            reply.Store? && reply.update == UpdateOf(tag, r)
  {
    hide ParseOk, EncodeOk, TxDone.Decode, TxDone.Encode, DecodeErr, EncodeErr;
    match r
    case Accepted(ok) => OkCodec(cmd, ok, []);
    case Refused(code) => ErrCodec(code, []);
    case Finished(td) => TxDoneCodec(td, []);
  }

  /** Only answers in `rs` arrive under `tag`. */
  predicate OnlyAnswers(segs: seq<Segment>, cmd: int, tag: int, rs: seq<Response>) {
    forall f :: f in TaggedIn(segs, tag) ==> exists i :: 0 <= i < |rs| && ResponseFrame(cmd, tag, rs[i]) == Some(f)
  }

  lemma ExplainedByAnswer(
    states: seq<State>, steps: seq<Step>, k: nat, c: nat, segs: seq<Segment>, rs: seq<Response>, u: Update)
    returns (i: nat)
    requires IsRun(states, steps) && k < |states| && c < |states[k].commands| && AllAdmissible(segs)
    requires ReadBy(steps[..k]) == ReadAll(Arrivals(segs))
    requires OnlyAnswers(segs, states[k].commands[c].cmd, states[k].commands[c].tag, rs)
    requires Explained(states[k], c, states[k].commands[c].cmd, u)
    ensures i < |rs| && UpdateOf(states[k].commands[c].tag, rs[i]) == u
  {
    hide IsRun, ReadBy, ReadAll, Arrivals, ExpectedAll, TaggedIn, ReplyFor, ResponseFrame, UpdateOf, TagAt;
    RunIsSafe(states, steps, k);
    var s, cmd, tag := states[k], states[k].commands[c].cmd, states[k].commands[c].tag;
    var f :| (c, f) in s.stores && ReplyFor(cmd, f).Store? && ReplyFor(cmd, f).update == u;
    StoredWasRead(states, steps, k, c, f);
    SegmentsInTurn(segs);
    TagSequence(c);
    TaggedWasSent(segs, f);
    i :| 0 <= i < |rs| && ResponseFrame(cmd, tag, rs[i]) == Some(f);
    ReplyToResponse(cmd, tag, rs[i]);
  }

  /** In every run whose reader has read these segments, among which only a conforming device's answers carry
      the command's tag: a finished command timed out, failed to write, raised a shutdown error, or got the
      device's final answer. */
  lemma AnswerInEveryRun(
    states: seq<State>, steps: seq<Step>, k: nat, c: nat, segs: seq<Segment>, rs: seq<Response>)
    requires IsRun(states, steps) && k < |states| && c < |states[k].commands| && states[k].commands[c].pc.Done?
    requires AllAdmissible(segs) && ReadBy(steps[..k]) == ReadAll(Arrivals(segs))
    requires Conversation(states[k].commands[c].cmd, rs)
    requires OnlyAnswers(segs, states[k].commands[c].cmd, states[k].commands[c].tag, rs)
    ensures var r := states[k].commands[c].pc.ending;
            || r == TimedOut || r == WriteFailed || (r.Raised? && ShutdownError(r.err))
            || r == Answer(states[k].commands[c].tag, rs[|rs| - 1])
  {
    hide IsRun, ReadBy, ReadAll, Arrivals, OnlyAnswers, Explained, TagAt;
    RunIsSafe(states, steps, k);
    var s, cmd, r := states[k], states[k].commands[c].cmd, states[k].commands[c].pc.ending;
    assert PcOk(s, c);
    match r
    case Raised(e) =>
      if !ShutdownError(e) { var i := ExplainedByAnswer(states, steps, k, c, segs, rs, SetErr(e)); }
    case ReturnedOk(Some(ok)) =>
      var i := ExplainedByAnswer(states, steps, k, c, segs, rs, SetOk(ok));
    case ReturnedOk(None) =>
      var td :| Explained(s, c, cmd, SetTxDone(td));
      var i := ExplainedByAnswer(states, steps, k, c, segs, rs, SetTxDone(td));
    case ReturnedTx(td) =>
      var i := ExplainedByAnswer(states, steps, k, c, segs, rs, SetTxDone(td));
    case _ =>
  }
}
