/** Why a command raised: every error it can raise has its cause in the run. */
module Endings {
  import opened Bytes
  import opened Events
  import opened Frame
  import opened Shared
  import opened Machine
  import opened Safety
  import opened Runs

  predicate ExitBegun(r: ReaderPc) { r == ExitLoop || PastExit(r) }

  /** A shutdown error is about only after that shutdown has begun. */
  predicate Timely(s: State, e: CommandError) {
    (e == SessionClosed ==> s.sh.closed) && (e == TransportClosed ==> ExitBegun(s.reader))
  }

  predicate TimelySlot(s: State, slot: Slot) { slot.err.Some? ==> Timely(s, slot.err.value) }

  predicate TimelyPc(s: State, pc: Pc) {
    match pc
    case Leaving(Raised(e)) => Timely(s, e)
    case Done(Raised(e)) => Timely(s, e)
    case _ => true
  }

  predicate AllTimely(s: State) {
    && (s.lock.Held? && !s.lock.byReader ==> s.sh.closed)
    && (forall id :: id in s.sh.slots ==> TimelySlot(s, s.sh.slots[id]))
    && (forall c :: 0 <= c < |s.commands| ==> TimelyPc(s, s.commands[c].pc))
  }

  predicate NoLess(s: State, s': State) {
    (s.sh.closed ==> s'.sh.closed) && (ExitBegun(s.reader) ==> ExitBegun(s'.reader))
  }

  lemma ShutdownsStay(s: State, step: Step)
    requires Enabled(s, step) && LockOk(s)
    ensures NoLess(s, Apply(s, step))
  {
    hide ByCaller, ByConsumer, ReplyFor, PacketOf, CloseSlot, RxEvent.Decode, DecodeErr;
    match step
    case Caller(k) => CallerClosed(s, k);
    case Consumer(k) => ConsumerFrame(s, k);
    case _ =>
  }

  lemma CallerClosed(s: State, k: CallerStep)
    requires CallerCan(s, k)
    ensures ByCaller(s, k).reader == s.reader && ByCaller(s, k).sh.closed == s.sh.closed
  {
    hide EndingOf, TagAfter;
  }

  lemma CallerTimely(s: State, k: CallerStep)
    requires CallerCan(s, k) && AllTimely(s)
    ensures AllTimely(ByCaller(s, k))
  {
    hide EndingOf, TagAfter;
    CallerClosed(s, k);
    if k.Return? { ReturnRaisesNothing(s.sh.slots[k.c]); }
  }

  lemma ReturnRaisesNothing(slot: Slot)
    ensures !EndingOf(slot).Raised?
  {
  }

  lemma RepliesAreNotShutdowns(cmd: int, f: Frame)
    ensures match ReplyFor(cmd, f)
            case Store(SetErr(e), _) => !ShutdownError(e)
            case _ => true
  {
    hide ParseOk, TxDone.Decode, DecodeErr;
  }

  lemma StoredTimely(s: State, id: nat, f: Frame)
    requires id in s.sh.slots && TimelySlot(s, s.sh.slots[id])
    ensures Stored(s, id, f).sh.slots.Keys == s.sh.slots.Keys
    ensures TimelySlot(s, Stored(s, id, f).sh.slots[id])
    ensures forall i :: i in s.sh.slots && i != id ==> Stored(s, id, f).sh.slots[i] == s.sh.slots[i]
  {
    hide ReplyFor;
    RepliesAreNotShutdowns(s.sh.slots[id].cmd, f);
  }

  lemma ReaderTimely(s: State, k: ReaderStep, id: nat)
    requires ReaderCan(s, k) && id in s.sh.slots && AllTimely(s)
    ensures id in ByReader(s, k).sh.slots && TimelySlot(s, ByReader(s, k).sh.slots[id])
  {
    hide ReplyFor, Async, PacketOf, Stored, Timely;
    ReaderFrame(s, k);
    if k == StoreReply { StoredTimely(s, s.reader.id, s.reader.held); }
  }

  lemma ShutdownTimely(s: State, k: ShutdownStep, id: nat)
    requires ShutdownCan(s, k) && id in s.sh.slots && AllTimely(s) && LockOk(s)
    ensures id in ByShutdown(s, k).sh.slots && TimelySlot(s, ByShutdown(s, k).sh.slots[id])
  {
    ShutdownFrame(s, k);
  }

  lemma StepTimely(s: State, step: Step)
    requires Enabled(s, step) && AllTimely(s) && LockOk(s)
    ensures AllTimely(Apply(s, step))
  {
    if step.Caller? {
      hide ByCaller, AllTimely;
      CallerTimely(s, step.caller);
    } else {
      var s' := Apply(s, step);
      OtherFrame(s, step);
      ShutdownsStay(s, step);
      LockTimely(s, step);
      forall id | id in s'.sh.slots ensures TimelySlot(s', s'.sh.slots[id]) {
        hide ByReader, ByShutdown, ByConsumer, Timely;
        match step
        case Reader(k) => ReaderTimely(s, k, id);
        case Shutdown(k) => ShutdownTimely(s, k, id);
        case Consumer(k) => ConsumerFrame(s, k);
        SlotStaysTimely(s, s', s'.sh.slots[id]);
      }
      forall c | 0 <= c < |s'.commands| ensures TimelyPc(s', s'.commands[c].pc) {
        hide Apply;
        assert TimelyPc(s, s.commands[c].pc);
      }
    }
  }

  lemma SlotStaysTimely(s: State, s': State, slot: Slot)
    requires TimelySlot(s, slot) && NoLess(s, s')
    ensures TimelySlot(s', slot)
  {
  }

  lemma LockTimely(s: State, step: Step)
    requires Enabled(s, step) && !step.Caller? && AllTimely(s)
    ensures var s' := Apply(s, step);
            s'.lock.Held? && !s'.lock.byReader ==> s'.sh.closed
  {
    hide ReplyFor, PacketOf, CloseSlot, RxEvent.Decode, DecodeErr, TimelySlot, TimelyPc;
    match step
    case Reader(k) => ReaderFrame(s, k);
    case Consumer(k) => ConsumerFrame(s, k);
    case _ =>
  }

  lemma {:induction false} RunTimely(states: seq<State>, steps: seq<Step>, k: nat)
    requires IsRun(states, steps) && k < |states|
    ensures AllTimely(states[k])
    decreases k
  {
    hide Apply, Enabled;
    if k > 0 {
      hide AllTimely;
      RunTimely(states, steps, k - 1);
      RunIsSafe(states, steps, k - 1);
      assert Follows(states[k - 1], steps[k - 1], states[k]);
      StepTimely(states[k - 1], steps[k - 1]);
    }
  }

  /** What can have made a command with this type raise `e`. */
  ghost predicate Cause(s: State, c: nat, cmd: int, tag: int, e: CommandError) {
    match e
    case SessionClosed => s.sh.closed
    case TransportClosed => ExitBegun(s.reader)
    case BadOkPayload =>
      exists f :: (c, f) in s.stores && f.tag == tag && f.typeId == TYPE_OK && ParseOk(cmd, f.payload) == None
    case BadTxDonePayload =>
      exists f :: (c, f) in s.stores && f.tag == tag && f.typeId == TYPE_TX_DONE && TxDone.Decode(f.payload) == None
    case DeviceError(code, t) =>
      t == tag &&
      exists f :: (c, f) in s.stores && f.tag == tag && f.typeId == TYPE_ERR && DecodeErr(f.payload) == Some(code)
    case ChannelBusy => Ended(s, c, tag, CHANNEL_BUSY)
    case Cancelled => Ended(s, c, tag, CANCELLED)
  }

  ghost predicate Ended(s: State, c: nat, tag: int, result: TxResult) {
    exists f :: (c, f) in s.stores && f.tag == tag && f.typeId == TYPE_TX_DONE
             && TxDone.Decode(f.payload).Some? && TxDone.Decode(f.payload).value.result == result
  }

  /** A command that raised, other than for a timeout or a failed write, raised what a frame with its own tag
      said, or the error of a shutdown that had begun. */
  lemma RaisedForCause(states: seq<State>, steps: seq<Step>, k: nat, c: nat)
    requires IsRun(states, steps) && k < |states|
    requires c < |states[k].commands| && states[k].commands[c].pc.Done? && states[k].commands[c].pc.ending.Raised?
    ensures var command := states[k].commands[c];
            Cause(states[k], c, command.cmd, command.tag, command.pc.ending.err)
  {
    hide Apply, Enabled, TagAt, TxDone.Decode, ParseOk, DecodeErr, ReplyFor;
    RunIsSafe(states, steps, k);
    RunTimely(states, steps, k);
    var s, command := states[k], states[k].commands[c];
    var e := command.pc.ending.err;
    assert PcOk(s, c) && TimelyPc(s, command.pc);
    if !ShutdownError(e) {
      var f :| (c, f) in s.stores && ReplyFor(command.cmd, f).Store? && ReplyFor(command.cmd, f).update == SetErr(e);
      ReplyError(s, c, command.cmd, f, e);
    }
  }

  lemma ReplyError(s: State, c: nat, cmd: int, f: Frame, e: CommandError)
    requires (c, f) in s.stores && ReplyFor(cmd, f).Store? && ReplyFor(cmd, f).update == SetErr(e)
    ensures Cause(s, c, cmd, f.tag, e)
  {
    hide TxDone.Decode, ParseOk, DecodeErr;
  }
}
