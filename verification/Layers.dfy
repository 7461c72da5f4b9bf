/** Between the session and the dongle: how the ending of a command looks to the recovery code. */
module Layers {
  import opened Bytes
  import opened Frame
  import opened Stream
  import opened Shared
  import opened Session
  import opened Exchange
  import Machine
  import Recovery

  /** ERR with code 3 is told apart from all the library's other errors; a write fails as the transport says. */
  function FailureOf(ending: Machine.Ending, transportError: Recovery.Error): Option<Recovery.Error> {
    match ending
    case ReturnedOk(_) => None
    case ReturnedTx(_) => None
    case WriteFailed => Some(transportError)
    case Raised(DeviceError(code, _)) => Some(if code == 3 then Recovery.NotConfigured else Recovery.OtherDonglora)
    case _ => Some(Recovery.OtherDonglora)
  }

  /** What a conforming device answers is what the recovery code acts upon: no failure when it accepts a command or
      has transmitted, NOT_CONFIGURED when it refuses with code 3, some other library error otherwise. */
  lemma AnswerSeenByDongle(
    sh: Shared, script: Script, id: nat, rs: seq<Response>, frames: seq<Frame>, transportError: Recovery.Error)
    requires id in sh.slots
    requires var slot := sh.slots[id];
             && Registered(sh, id, slot.tag) && slot == Slot(slot.tag, slot.cmd, false, None, None, None)
             && Conversation(slot.cmd, rs) && |frames| == |rs|
             && (forall i :: 0 <= i < |rs| ==> ResponseFrame(slot.cmd, slot.tag, rs[i]) == Some(frames[i]))
             && FramesFor(ReadAll(script), slot.tag) == frames
    ensures var after := HandleAll(sh, ReadAll(script));
            && id in after.slots && after.slots[id].event
            && var failure := FailureOf(WaiterResult(after.slots[id]), transportError);
               match rs[|rs| - 1]
               case Accepted(_) => failure == None
               case Refused(code) =>
                 failure == Some(if code == 0x0003 then Recovery.NotConfigured else Recovery.OtherDonglora)
               case Finished(td) => failure == if td.result == 0 then None else Some(Recovery.OtherDonglora)
  {
    hide HandleAll, ReadAll, FramesFor, WaiterResult, ResponseFrame;
    AnswerReachesCaller(sh, script, id, rs, frames);
  }
}
