/** What holds over whole runs of the session machine. */
module Runs {
  import opened Bytes
  import opened Events
  import opened Frame
  import opened Shared
  import opened Machine
  import opened Safety

  ghost predicate IsRun(states: seq<State>, steps: seq<Step>) {
    && |states| == |steps| + 1
    && states[0] == START
    && (forall k {:trigger steps[k]} :: 0 <= k < |steps| ==> Follows(states[k], steps[k], states[k + 1]))
  }

  /** Up to state `k`, no command outlived the tag window. */
  ghost predicate InWindow(states: seq<State>, k: nat) { forall i :: 0 <= i < |states| && i <= k ==> Window(states[i]) }

  predicate Follows(s: State, step: Step, s': State) { Enabled(s, step) && s' == Apply(s, step) }

  lemma StartIsSafe()
    ensures Inv(START)
  {
    assert TagAt(0) == 1;
  }

  lemma {:induction false} RunIsSafe(states: seq<State>, steps: seq<Step>, k: nat)
    requires IsRun(states, steps) && k < |states|
    ensures Inv(states[k])
    decreases k
  {
    hide Inv, Apply, Enabled;
    if k == 0 {
      StartIsSafe();
    } else {
      RunIsSafe(states, steps, k - 1);
      assert Follows(states[k - 1], steps[k - 1], states[k]);
      StepKeepsInv(states[k - 1], steps[k - 1]);
    }
  }

  /** Within the tag window, every registered command is in the table or has been woken with an outcome. */
  lemma {:induction false} RunReaches(states: seq<State>, steps: seq<Step>, k: nat)
    requires IsRun(states, steps) && k < |states| && InWindow(states, k)
    ensures Reachable(states[k])
    decreases k
  {
    hide Apply, Enabled, Window, Owns, Answered;
    if k > 0 {
      hide Reachable;
      RunReaches(states, steps, k - 1);
      RunIsSafe(states, steps, k - 1);
      assert Follows(states[k - 1], steps[k - 1], states[k]);
      ReachableKept(states[k - 1], steps[k - 1]);
    }
  }

  // ----- tag isolation

  /** In every run, two commands have the same tag exactly when a multiple of 65535 allocations lies between. */
  lemma SharedTag(states: seq<State>, steps: seq<Step>, k: nat, c: nat, d: nat)
    requires IsRun(states, steps) && k < |states| && c <= d < |states[k].commands|
    ensures states[k].commands[c].tag == states[k].commands[d].tag <==> (d - c) % 0xFFFF == 0
  {
    hide Apply, Enabled, TagAt;
    RunIsSafe(states, steps, k);
    TagRepeats(c, d);
  }

  /** So within the tag window, running commands have different tags. */
  lemma RunningTagsDiffer(states: seq<State>, steps: seq<Step>, k: nat, c: nat, d: nat)
    requires IsRun(states, steps) && k < |states| && Window(states[k])
    requires c < |states[k].commands| && d < |states[k].commands| && c != d
    requires Live(states[k].commands[c].pc) && Live(states[k].commands[d].pc)
    ensures states[k].commands[c].tag != states[k].commands[d].tag
  {
    hide Apply, Enabled, TagAt;
    RunIsSafe(states, steps, k);
    LiveTagsDiffer(states[k], c, d);
  }

  /** Registering or forgetting a command leaves another command's table entry in place exactly when their
      tags differ, and so always within the tag window. */
  lemma OtherEntriesStay(states: seq<State>, steps: seq<Step>, k: nat, c: nat, t: int)
    requires IsRun(states, steps) && k < |steps|
    requires steps[k] == Caller(RegisterSlot(c)) || steps[k] == Caller(ForgetSlot(c))
    requires t in states[k].sh.pending && states[k].sh.pending[t] != c
    ensures c < |states[k].commands|
    ensures (t in states[k + 1].sh.pending && states[k + 1].sh.pending[t] == states[k].sh.pending[t])
       <==> t != states[k].commands[c].tag
    ensures Window(states[k]) ==> t != states[k].commands[c].tag
  {
    hide TagAt, Window;
    RunIsSafe(states, steps, k);
    assert Follows(states[k], steps[k], states[k + 1]);
    if Window(states[k]) { TableEntryIsOwn(states[k], c); }
  }

  /** The reader found slot `id` for frame `f` while the command was registered under the frame's tag. */
  predicate LookedUp(s: State, step: Step, id: nat, f: Frame) {
    && step == Reader(Lookup) && s.reader == Dispatching(f)
    && f.tag in s.sh.pending && s.sh.pending[f.tag] == id
    && id < |s.commands| && InTable(s.commands[id].pc) && s.commands[id].tag == f.tag
  }

  lemma HoldingStarts(s: State, step: Step, f: Frame, id: nat)
    requires Enabled(s, step) && Apply(s, step).reader == Holding(f, id) && s.reader != Holding(f, id)
    ensures step == Reader(Lookup) && s.reader == Dispatching(f) && f.tag in s.sh.pending && s.sh.pending[f.tag] == id
  {
    hide ByCaller, ByConsumer, ReplyFor, Async, PacketOf, CloseSlot;
    match step
    case Caller(k) => CallerFrame(s, k);
    case Consumer(k) => ConsumerFrame(s, k);
    case _ =>
  }

  lemma {:induction false} HeldAfterLookup(states: seq<State>, steps: seq<Step>, j: nat, f: Frame, id: nat)
    returns (i: nat)
    requires IsRun(states, steps) && j < |states| && states[j].reader == Holding(f, id)
    ensures i < j && LookedUp(states[i], steps[i], id, f)
    decreases j
  {
    hide Apply, Enabled;
    if j > 0 {
      assert Follows(states[j - 1], steps[j - 1], states[j]);
      if states[j - 1].reader == Holding(f, id) {
        i := HeldAfterLookup(states, steps, j - 1, f, id);
      } else {
        HoldingStarts(states[j - 1], steps[j - 1], f, id);
        RunIsSafe(states, steps, j - 1);
        i := j - 1;
      }
    } else {
      assert false;
    }
  }

  lemma StoreComesFromReader(s: State, step: Step, id: nat, f: Frame)
    requires Enabled(s, step) && (id, f) in Apply(s, step).stores && (id, f) !in s.stores
    ensures step == Reader(StoreReply) && s.reader == Holding(f, id)
  {
    hide ByCaller, ByShutdown, ByConsumer, ReplyFor, Async, PacketOf, StoreIn;
    match step
    case Caller(k) => CallerFrame(s, k);
    case Shutdown(k) => ShutdownFrame(s, k);
    case Consumer(k) => ConsumerFrame(s, k);
    case Reader(k) => ReaderFrame(s, k);
  }

  /** Whatever the reader stored in a slot came from a frame with the command's tag, dispatched through a
      lookup made while that command was registered. */
  lemma {:induction false} StoredAfterLookup(states: seq<State>, steps: seq<Step>, j: nat, id: nat, f: Frame)
    returns (i: nat)
    requires IsRun(states, steps) && j < |states| && (id, f) in states[j].stores
    ensures i < j && LookedUp(states[i], steps[i], id, f)
    decreases j
  {
    hide Apply, Enabled, LookedUp;
    if j > 0 {
      assert Follows(states[j - 1], steps[j - 1], states[j]);
      if (id, f) in states[j - 1].stores {
        i := StoredAfterLookup(states, steps, j - 1, id, f);
      } else {
        StoreComesFromReader(states[j - 1], steps[j - 1], id, f);
        i := HeldAfterLookup(states, steps, j - 1, f, id);
      }
    } else {
      assert false;
    }
  }

  // ----- how commands end

  /** A finished TX: an error, a timeout, a failed write, or a TX_DONE for its own tag that says TRANSMITTED.
      The "TX completed without TX_DONE" error never happens. */
  lemma TxEnding(states: seq<State>, steps: seq<Step>, k: nat, c: nat)
    requires IsRun(states, steps) && k < |states|
    requires c < |states[k].commands| && states[k].commands[c].pc.Done? && states[k].commands[c].cmd == TYPE_TX
    ensures var r := states[k].commands[c].pc.ending;
            && (r == TimedOut || r == WriteFailed || r.Raised? || r.ReturnedTx?)
            && (r.ReturnedTx? ==>
                  && r.txDone.result == TRANSMITTED
                  && exists f :: (c, f) in states[k].stores && f.tag == states[k].commands[c].tag
                              && f.typeId == TYPE_TX_DONE && TxDone.Decode(f.payload) == Some(r.txDone))
  {
    hide Apply, Enabled, TagAt, TxDone.Decode, ParseOk, DecodeErr;
    RunIsSafe(states, steps, k);
    assert PcOk(states[k], c);
  }

  /** A finished command other than TX returns the payload of an OK for its own tag; it returns without
      one only when a TX_DONE came for its tag instead, which the dispatcher does not refuse. */
  lemma CommandEnding(states: seq<State>, steps: seq<Step>, k: nat, c: nat)
    requires IsRun(states, steps) && k < |states|
    requires c < |states[k].commands| && states[k].commands[c].pc.Done? && states[k].commands[c].cmd != TYPE_TX
    ensures var r := states[k].commands[c].pc.ending;
            && (r == TimedOut || r == WriteFailed || r.Raised? || r.ReturnedOk?)
            && (r.ReturnedOk? && r.ok.Some? ==>
                  exists f :: (c, f) in states[k].stores && f.tag == states[k].commands[c].tag
                           && f.typeId == TYPE_OK && ParseOk(states[k].commands[c].cmd, f.payload) == r.ok)
            && (r == ReturnedOk(None) ==>
                  exists f :: (c, f) in states[k].stores && f.tag == states[k].commands[c].tag
                           && f.typeId == TYPE_TX_DONE)
  {
    hide Apply, Enabled, TagAt, TxDone.Decode, ParseOk, DecodeErr;
    RunIsSafe(states, steps, k);
    assert PcOk(states[k], c);
  }

  /** A TX whose event is set has an error or a TX_DONE: the intermediate OK never wakes it. */
  lemma TxWokenWithOutcome(states: seq<State>, steps: seq<Step>, k: nat, c: nat)
    requires IsRun(states, steps) && k < |states| && c in states[k].sh.slots
    requires states[k].sh.slots[c].cmd == TYPE_TX && states[k].sh.slots[c].event
    ensures states[k].sh.slots[c].err.Some? || states[k].sh.slots[c].txDone.Some?
  {
    hide Apply, Enabled, TagAt;
    RunIsSafe(states, steps, k);
  }

  // ----- no stranded waiter

  predicate Released(s: State, c: nat) {
    c < |s.commands| && (s.commands[c].pc.Done? || Answered(s, c))
  }

  lemma CallerKeepsReleased(s: State, k: CallerStep, c: nat)
    requires CallerCan(s, k) && Slots(s) && Released(s, c)
    ensures Released(ByCaller(s, k), c)
  {
    hide EndingOf, TagAfter, TagAt;
    CallerFrame(s, k);
  }

  lemma ReleasedStays(s: State, step: Step, c: nat)
    requires Enabled(s, step) && Slots(s) && Released(s, c)
    ensures Released(Apply(s, step), c)
  {
    if step.Caller? {
      hide ByCaller;
      CallerKeepsReleased(s, step.caller, c);
    } else {
      hide Apply, TagAt;
      OtherFrame(s, step);
      if Answered(s, c) { OtherSlots(s, step, c); }
    }
  }

  lemma {:induction false} ReleasedFrom(states: seq<State>, steps: seq<Step>, j: nat, k: nat, c: nat)
    requires IsRun(states, steps) && j <= k < |states| && Released(states[j], c)
    ensures Released(states[k], c)
    decreases k
  {
    hide Apply, Enabled, Released;
    if j < k {
      ReleasedFrom(states, steps, j, k - 1, c);
      assert Follows(states[k - 1], steps[k - 1], states[k]);
      RunIsSafe(states, steps, k - 1);
      ReleasedStays(states[k - 1], steps[k - 1], c);
    }
  }

  /** Once `close` or the reader's exit block has cleared the table, every command that was in it, or had been
      woken, is finished or woken with an outcome, from then on, whatever the reader still holds. */
  lemma SweptWaiterReleased(states: seq<State>, steps: seq<Step>, j: nat, k: nat, c: nat)
    requires IsRun(states, steps) && j < |steps| && steps[j] == Shutdown(ClearPending) && j < k < |states|
    requires c < |states[j].commands| && (Owns(states[j], c) || Answered(states[j], c))
    ensures Released(states[k], c)
  {
    hide Apply, TagAt;
    RunIsSafe(states, steps, j);
    assert Follows(states[j], steps[j], states[j + 1]);
    assert Answered(states[j], c);
    OtherFrame(states[j], steps[j]);
    OtherSlots(states[j], steps[j], c);
    ReleasedFrom(states, steps, j + 1, k, c);
  }

  /** Within the tag window up to the clearing, that is every command registered before it. */
  lemma NoStrandedWaiter(states: seq<State>, steps: seq<Step>, j: nat, k: nat, c: nat)
    requires IsRun(states, steps) && j < |steps| && steps[j] == Shutdown(ClearPending) && j < k < |states|
    requires InWindow(states, j) && c < |states[j].commands| && InTable(states[j].commands[c].pc)
    ensures Released(states[k], c)
  {
    hide Apply, InWindow, Owns, Answered, Released;
    RunReaches(states, steps, j);
    SweptWaiterReleased(states, steps, j, k, c);
  }

  predicate PastExit(r: ReaderPc) { r == Cleared || r == DeadSet || r == Gone }

  /** A command registered after the reader's exit block is woken by a closing thread or not at all. */
  lemma LateCommandNeedsClose(s: State, step: Step, c: nat)
    requires Enabled(s, step) && LockOk(s) && PastExit(s.reader)
    requires c in s.sh.slots && !s.sh.slots[c].event
    requires c in Apply(s, step).sh.slots && Apply(s, step).sh.slots[c].event
    ensures step == Shutdown(SignalMarked) && !s.lock.byReader && s.lock.marked == Some(c)
  {
    hide ByConsumer, ReplyFor, Async, PacketOf, EndingOf, TagAfter, TagAt, Answered;
    match step
    case Consumer(k) => ConsumerFrame(s, k);
    case Reader(k) => ReaderFrame(s, k);
    case _ =>
  }

  lemma {:induction false} ReaderStaysPastExit(states: seq<State>, steps: seq<Step>, j: nat, k: nat)
    requires IsRun(states, steps) && j <= k < |states| && PastExit(states[j].reader)
    ensures PastExit(states[k].reader)
    decreases k
  {
    hide Apply, Enabled, PastExit;
    if j < k {
      ReaderStaysPastExit(states, steps, j, k - 1);
      assert Follows(states[k - 1], steps[k - 1], states[k]);
      RunIsSafe(states, steps, k - 1);
      PastExitStays(states[k - 1], steps[k - 1]);
    }
  }

  lemma PastExitStays(s: State, step: Step)
    requires Enabled(s, step) && LockOk(s) && PastExit(s.reader)
    ensures PastExit(Apply(s, step).reader)
  {
    hide ByCaller, ByConsumer, ReplyFor, Async, PacketOf, CloseSlot, Answered;
    match step
    case Caller(k) => CallerFrame(s, k);
    case Consumer(k) => ConsumerFrame(s, k);
    case _ =>
  }

  /** After the reader's exit block, a waiting command that no closing thread signals stays unanswered for
      the rest of the run: only its own timeout ends it. */
  lemma {:induction false} LateCommandWaits(states: seq<State>, steps: seq<Step>, j: nat, k: nat, c: nat)
    requires IsRun(states, steps) && j <= k < |states| && PastExit(states[j].reader)
    requires c in states[j].sh.slots && !states[j].sh.slots[c].event
    requires forall m :: j <= m < k ==> steps[m] != Shutdown(SignalMarked)
    ensures c in states[k].sh.slots && !states[k].sh.slots[c].event
    decreases k
  {
    hide Apply, Enabled, PastExit;
    if j < k {
      LateCommandWaits(states, steps, j, k - 1, c);
      ReaderStaysPastExit(states, steps, j, k - 1);
      assert Follows(states[k - 1], steps[k - 1], states[k]);
      RunIsSafe(states, steps, k - 1);
      SlotStays(states[k - 1], steps[k - 1], c);
      if states[k].sh.slots[c].event { LateCommandNeedsClose(states[k - 1], steps[k - 1], c); }
    }
  }

  lemma SlotStays(s: State, step: Step, c: nat)
    requires Enabled(s, step) && c in s.sh.slots
    ensures c in Apply(s, step).sh.slots
  {
    if step.Caller? {
      hide EndingOf, TagAfter;
      CallerFrame(s, step.caller);
    } else {
      hide Apply;
      OtherFrame(s, step);
    }
  }

  // ----- packets

  /** In every interleaving, what consumers took and then what is queued is what the reader dispatched, in order. */
  lemma PacketsConserved(states: seq<State>, steps: seq<Step>, k: nat)
    requires IsRun(states, steps) && k < |states|
    ensures states[k].dequeued + Packets(states[k].sh.rxQueue) == states[k].dispatched
  {
    hide Apply, Enabled, Packets;
    RunIsSafe(states, steps, k);
  }

  /** Before the reader is gone there is no sentinel; afterwards there is exactly one, in a consumer's hand
      or at the very end of the queue, and some consumer step is possible. */
  lemma OneSentinelAtTheEnd(states: seq<State>, steps: seq<Step>, k: nat)
    requires IsRun(states, steps) && k < |states|
    ensures var s := states[k];
            && (s.reader != Gone ==> DeadSentinel !in s.sh.rxQueue && s.inHand == 0)
            && (s.reader == Gone ==>
                  && multiset(s.sh.rxQueue)[DeadSentinel] + s.inHand == 1
                  && (forall i :: 0 <= i < |s.sh.rxQueue| && s.sh.rxQueue[i] == DeadSentinel ==>
                        i == |s.sh.rxQueue| - 1)
                  && (Enabled(s, Consumer(Get)) || Enabled(s, Consumer(Repost))))
  {
    hide Apply, Packets;
    RunIsSafe(states, steps, k);
    var s := states[k];
    if s.reader == Gone && s.inHand == 0 {
      var q := s.sh.rxQueue;
      var front := q[..|q| - 1];
      assert q == front + [DeadSentinel];
      assert multiset(front)[DeadSentinel] == 0;
      forall i | 0 <= i < |q| - 1 ensures q[i] != DeadSentinel { assert front[i] == q[i]; }
    }
  }
}
