/** Inputs and runs at which the code does less than it seems to. */
module Witnesses {
  import opened Bytes
  import opened Sequences
  import opened Crc
  import opened Frame
  import opened Events
  import opened Stream
  import opened Shared
  import opened Session
  import opened Machine
  import opened Runs
  import opened Refinement
  import opened Exchange
  import opened Vectors
  import Cobs
  import Operations = Shared

  // ----- two wire forms of one frame

  function Tabs(n: nat): Octets { seq(n, _ => 0x09) }

  function TabFrame(): Frame { Frame(TYPE_OK, 0x0107, Tabs(249)) }

  const TAB_REGISTER: bv16 := 0x7E70

  const TAB_HEADER: Octets := [0x80, 0x07, 0x01]

  lemma TabHeader()
    ensures RegisterAt(TAB_HEADER, 3, TAB_REGISTER)
  {
    hide RegisterAt;
    Start(TAB_HEADER);
    Feed1(TAB_HEADER, 0, 0x80, 0xFFFF, 0x7078);
    Feed1(TAB_HEADER, 1, 0x07, 0x7078, 0x7670);
    Feed1(TAB_HEADER, 2, 0x01, 0x7670, TAB_REGISTER);
  }

  /** This register is not changed by feeding it 0x09. */
  lemma {:induction false} TabsKeepRegister(n: nat)
    ensures Run(INIT, ToBits([0x80, 0x07, 0x01] + Tabs(n))) == TAB_REGISTER
    decreases n
  {
    hide Run, ToBits;
    if n == 0 {
      assert TAB_HEADER + Tabs(0) == TAB_HEADER == TAB_HEADER[..3];
      TabHeader();
    } else {
      TabsKeepRegister(n - 1);
      FeedOne(TAB_HEADER + Tabs(n - 1), 0x09, 0x09, 0x7E70, 0x7E70);
      assert TAB_HEADER + Tabs(n) == (TAB_HEADER + Tabs(n - 1)) + [0x09];
    }
  }

  lemma TabPreCobs()
    ensures PreCobs(TabFrame()) == [0x80, 0x07, 0x01] + Tabs(249) + [0x70, 0x7E]
  {
    hide Run, ToBits, Header;
    HeaderBytes(TabFrame());
    TabsKeepRegister(249);
    assert Checksum([0x80, 0x07, 0x01] + Tabs(249)) == 0x7E70;
    assert Le(0x7E70, 2) == [0x70, 0x7E] by { assert Le(0x7E, 1) == [0x7E]; }
  }

  /** A frame with two wire forms that decode to it: the one it is sent as, and that with an empty block added. */
  lemma TwoWireForms()
    ensures var f, e := TabFrame(), Cobs.Encode(PreCobs(TabFrame()));
            && Sendable(f) && EncodeFrame(f) == Ok(e + [0])
            && DecodeFrame(e) == Ok(f) && DecodeFrame(e + [1]) == Ok(f)
  {
    hide Cobs.Encode, DecodeFrame, PreCobs;
    var f := TabFrame();
    var d := PreCobs(f);
    TabPreCobs();
    assert Cobs.ZeroFree(d) && |d| == 254;
    Cobs.EndsFullParts(d, []);
    assert d + [] == d;
    DecodesToFrame(Cobs.Encode(d), f);
    DecodesToFrame(Cobs.Encode(d) + [1], f);
  }

  // ----- runs of the session machine

  lemma PlayedRun(steps: seq<Step>) returns (states: seq<State>)
    requires Play(Successor, START, steps).Some?
    ensures IsRun(states, steps) && states[|steps|] == Play(Successor, START, steps).value
  {
    hide Play, Enabled, Apply;
    states := PlayPath(Successor, START, steps);
    forall k {:trigger steps[k]} | 0 <= k < |steps| ensures Follows(states[k], steps[k], states[k + 1]) {
      assert Successor(states[k], steps[k]) == Some(states[k + 1]);
    }
  }

  /** The TX_DONE of a packet that was sent, for the first command of a session. */
  lemma StrayFrame() returns (f: Frame)
    ensures f.tag == 1 && StrayDone(f)
  {
    var done := TxDone(TRANSMITTED, 0);
    assert TX_DONE[0].Fits(0) && TX_DONE[1].Fits(0);
    assert AllFit(TX_DONE, [done.result, done.airtimeUs]);
    TxDoneCodec(done, []);
    f := Frame(TYPE_TX_DONE, 1, done.Encode().value);
  }

  /** A GET_INFO that is answered with a TX_DONE returns without an info. */
  lemma InfoAnsweredByTxDone() returns (states: seq<State>, steps: seq<Step>)
    ensures IsRun(states, steps)
    ensures var command := states[|steps|].commands;
            |command| == 1 && command[0].cmd == TYPE_GET_INFO && command[0].pc == Done(ReturnedOk(None))
  {
    hide Play, IsRun, Operations.Dispatch, StrayDone;
    var f := StrayFrame();
    var send := CommandSent(START, TYPE_GET_INFO);
    var s1 := WithNewCommand(START, TYPE_GET_INFO);
    var answer := TurnRefined(s1, Delivered(f));
    var s2 := Play(Successor, s1, answer).value;
    StrayHandled(s1.sh, f);
    var back := CommandReturns(s2, 0);
    PlayMore(Successor, s1, answer, back);
    PlayMore(Successor, START, send, answer + back);
    steps := send + (answer + back);
    states := PlayedRun(steps);
  }

  lemma StrayHandled(sh: Shared, f: Frame)
    requires WellFormed(sh) && f.tag == 1 && StrayDone(f) && 1 in sh.pending && sh.pending[1] == 0
    requires sh.slots[0] == Slot(1, TYPE_GET_INFO, false, None, None, None)
    ensures var sh' := Handle(sh, Delivered(f));
            && 0 in sh'.slots && sh'.slots[0].cmd == TYPE_GET_INFO && sh'.slots[0].event
            && sh'.slots[0].ok == None && sh'.slots[0].err == None && sh'.slots[0].txDone.Some?
  {
    hide Given, Replied, StrayDone;
    ReplyIsGiven(sh, 0, f);
    GivenKinds(sh.slots[0], f);
  }

  const PING_OK := Frame(TYPE_OK, 1, [])

  lemma PingOkHandled(sh: Shared)
    requires WellFormed(sh) && 1 in sh.pending && sh.pending[1] == 0
    requires sh.slots[0] == Slot(1, TYPE_PING, false, None, None, None)
    ensures var slot := Slot(1, TYPE_PING, true, Some(Empty), None, None);
            Handle(sh, Delivered(PING_OK)) == sh.(slots := sh.slots[0 := slot])
  {
    ReplyIsGiven(sh, 0, PING_OK);
  }

  /** A PING has been sent, and its OK has arrived and been signalled. */
  lemma PingAnswered() returns (s: State, steps: seq<Step>)
    ensures Play(Successor, START, steps) == Some(s)
    ensures s.lock == Free && s.reader == Checking && !s.sh.closed && WellFormed(s.sh)
    ensures At(s, 0, Waiting) && |s.commands| == 1 && s.commands[0].cmd == TYPE_PING && s.sh.pending == map[1 := 0]
    ensures s.sh.slots == map[0 := Slot(1, TYPE_PING, true, Some(Empty), None, None)]
  {
    hide Play, Operations.Dispatch;
    var send := CommandSent(START, TYPE_PING);
    var s1 := WithNewCommand(START, TYPE_PING);
    var answer := TurnRefined(s1, Delivered(PING_OK));
    s := Play(Successor, s1, answer).value;
    PingOkHandled(s1.sh);
    PlayMore(Successor, START, send, answer);
    steps := send + answer;
  }

  lemma ShutPing(slots: map<nat, Slot>, byReader: bool)
    requires slots == map[0 := Slot(1, TYPE_PING, true, Some(Empty), None, None)]
    ensures var e := if byReader then TransportClosed else SessionClosed;
            SweptSlots(slots, {0}, byReader) == map[0 := Slot(1, TYPE_PING, true, Some(Empty), Some(e), None)]
  {
  }

  lemma OnlyZero(sh: Shared)
    requires sh.pending == map[1 := 0]
    ensures PendingIds(sh) == {0}
  {
    assert 1 in sh.pending && sh.pending[1] in PendingIds(sh);
  }

  /** A PING whose OK was there raises "session closed": `close` came before its thread looked. */
  lemma CloseOverridesOk() returns (states: seq<State>, steps: seq<Step>)
    ensures IsRun(states, steps)
    ensures var s := states[|steps|];
            && |s.commands| == 1 && s.commands[0].cmd == TYPE_PING && s.commands[0].pc == Done(Raised(SessionClosed))
            && 0 in s.sh.slots && s.sh.slots[0].ok == Some(Empty)
  {
    hide Play, IsRun, SweptSlots, PendingIds;
    var s1, answered := PingAnswered();
    OnlyZero(s1.sh.(closed := true));
    ShutPing(s1.sh.slots, false);
    var close := CloseRefined(s1);
    var s2 := s1.(sh := CloseAll(s1.sh));
    var raise := CommandRaises(s2, 0);
    PlayMore(Successor, s1, close, raise);
    PlayMore(Successor, START, answered, close + raise);
    steps := answered + (close + raise);
    states := PlayedRun(steps);
  }

  /** A PING whose OK was there raises "transport closed": the reader left before its thread looked. */
  lemma ExitOverridesOk() returns (states: seq<State>, steps: seq<Step>)
    ensures IsRun(states, steps)
    ensures var s := states[|steps|];
            && |s.commands| == 1 && s.commands[0].cmd == TYPE_PING && s.commands[0].pc == Done(Raised(TransportClosed))
            && 0 in s.sh.slots && s.sh.slots[0].ok == Some(Empty)
  {
    hide Play, IsRun, SweptSlots, PendingIds, HandleAll;
    var s1, answered := PingAnswered();
    OnlyZero(s1.sh);
    ShutPing(s1.sh.slots, true);
    HandleNone(s1.sh);
    NoOutcomesLeft();
    var exit := ReaderLoopRefined(s1, []);
    var s2 := Play(Successor, s1, exit).value;
    var raise := CommandRaises(s2, 0);
    PlayMore(Successor, s1, exit, raise);
    PlayMore(Successor, START, answered, exit + raise);
    steps := answered + (exit + raise);
    states := PlayedRun(steps);
  }

  /** A command sent after the reader has left waits with nothing to wake it. */
  lemma CommandAfterExit() returns (states: seq<State>, steps: seq<Step>)
    ensures IsRun(states, steps)
    ensures var s := states[|steps|];
            && PastExit(s.reader) && |s.commands| == 1 && s.commands[0].pc == Waiting && Owns(s, 0)
            && 0 in s.sh.slots && !s.sh.slots[0].event
  {
    hide Play, IsRun, HandleAll, SweptSlots;
    var exit := ReaderLoopRefined(START, []);
    var s1 := Play(Successor, START, exit).value;
    HandleNone(INITIAL);
    NoOutcomesLeft();
    var send := CommandSent(s1, TYPE_PING);
    PlayMore(Successor, START, exit, send);
    steps := exit + send;
    states := PlayedRun(steps);
  }

  lemma NoOutcomesLeft()
    ensures ReadAll([]) == []
  {
  }
}
