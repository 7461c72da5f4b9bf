/** The byte-at-a-time frame reader, and the offline splitter used for replay. */
module Stream {
  import opened Bytes
  import opened Sequences
  import opened Frame
  import Cobs

  /** What one `read(1)` on the transport yields; when a script is used up, the next read raises OSError. */
  datatype Item = Got(b: byte) | Timeout

  type Script = seq<Item>

  datatype Outcome = Delivered(frame: Frame) | Corrupt(error: FrameError) | Nothing | Dropped

  datatype OsError = OsError

  class Transport {
    var script: Script

    constructor (script: Script)
      ensures this.script == script
    {
      this.script := script;
    }

    /** `read(1)`: one byte, or no bytes on a timeout. */
    method Read() returns (r: Result<Octets, OsError>)
      modifies this
      ensures old(script) == [] ==> r == Err(OsError) && script == []
      ensures old(script) != [] ==> script == old(script)[1..]
      ensures old(script) != [] ==> r == Ok(match old(script)[0] case Got(b) => [b] case Timeout => [])
    {
      if script == [] { return Err(OsError); }
      r := Ok(match script[0] case Got(b) => [b] case Timeout => []);
      script := script[1..];
    }

    method Close()
      modifies this
      ensures script == []
    {
      script := [];
    }
  }

  function Decoded(wire: Octets): Outcome {
    match DecodeFrame(wire)
    case Ok(f) => Delivered(f)
    case Err(e) => Corrupt(e)
  }

  /** One call of `read_frame` that has already buffered `buf`: its outcome and what it leaves unread. */
  function Next(buf: Octets, script: Script): (r: (Outcome, Script))
    ensures script != [] ==> |r.1| < |script|
    ensures r.0 == Dropped ==> r.1 == []
    decreases |script|
  {
    if script == [] then (Dropped, [])
    else if script[0] == Timeout then (Nothing, script[1..])
    else if script[0] == Got(0) then (if buf == [] then Nothing else Decoded(buf), script[1..])
    else Next(buf + [script[0].b], script[1..])
  }

  method ReadFrame(reader: Transport) returns (r: Outcome)
    modifies reader
    ensures (r, reader.script) == Next([], old(reader.script))
  {
    var buf: Octets := [];
    while true
      invariant Next(buf, reader.script) == Next([], old(reader.script))
      decreases |reader.script|
    {
      var b := reader.Read();
      if b.Err? { return Dropped; }
      if b.value == [] { return Nothing; }
      if b.value == [0] {
        if buf == [] { return Nothing; }
        return Decoded(buf);
      }
      buf := buf + b.value;
    }
  }

  /** Calling `read_frame` until the transport drops. */
  function ReadAll(script: Script): seq<Outcome>
    decreases |script|
  {
    if script == [] then []
    else
      var (o, rest) := Next([], script);
      if o == Dropped then [] else [o] + ReadAll(rest)
  }

  // ----- what the reader delivers, read off the script

  /** The bytes received since the last zero or timeout before position `i`. */
  function RunBefore(script: Script, i: nat): Octets
    requires i <= |script|
  {
    if i == 0 || script[i - 1] == Timeout || script[i - 1] == Got(0) then []
    else RunBefore(script, i - 1) + [script[i - 1].b]
  }

  /** A zero byte that closes a non-empty run is a frame, good or corrupt; nothing else is. */
  function FrameAt(script: Script, i: nat): seq<Outcome>
    requires i < |script|
  {
    if script[i] == Got(0) && RunBefore(script, i) != [] then [Decoded(RunBefore(script, i))] else []
  }

  function FramesBefore(script: Script, i: nat): seq<Outcome>
    requires i <= |script|
  {
    if i == 0 then [] else FramesBefore(script, i - 1) + FrameAt(script, i - 1)
  }

  function Frames(script: Script): seq<Outcome> { FramesBefore(script, |script|) }

  function Reports(outcomes: seq<Outcome>): seq<Outcome> {
    if outcomes == [] then []
    else (if outcomes[0] == Nothing then [] else [outcomes[0]]) + Reports(outcomes[1..])
  }

  /** All outcomes of a reader that has already buffered `buf`. */
  function Outcomes(buf: Octets, script: Script): seq<Outcome>
    decreases |script|
  {
    if script == [] then []
    else if script[0] == Timeout then [Nothing] + Outcomes([], script[1..])
    else if script[0] == Got(0) then
      [if buf == [] then Nothing else Decoded(buf)] + Outcomes([], script[1..])
    else Outcomes(buf + [script[0].b], script[1..])
  }

  lemma {:induction false} OutcomesNext(buf: Octets, script: Script)
    ensures var (o, rest) := Next(buf, script);
            Outcomes(buf, script) == if o == Dropped then [] else [o] + Outcomes([], rest)
    decreases |script|
  {
    if script != [] && script[0] != Timeout && script[0] != Got(0) {
      OutcomesNext(buf + [script[0].b], script[1..]);
    }
  }

  lemma {:induction false} ReadAllIsOutcomes(script: Script)
    ensures ReadAll(script) == Outcomes([], script)
    decreases |script|
  {
    if script != [] {
      OutcomesNext([], script);
      ReadAllIsOutcomes(Next([], script).1);
    }
  }

  lemma ReportsCons(o: Outcome, rest: seq<Outcome>)
    ensures Reports([o] + rest) == (if o == Nothing then [] else [o]) + Reports(rest)
  {
    assert ([o] + rest)[1..] == rest;
  }

  lemma {:induction false} OutcomesAreFrames(script: Script, i: nat)
    requires i <= |script|
    ensures FramesBefore(script, i) + Reports(Outcomes(RunBefore(script, i), script[i..])) == Frames(script)
    decreases |script| - i
  {
    hide FrameAt, RunBefore;
    if i == |script| {
      assert script[i..] == [];
      assert FramesBefore(script, i) + [] == Frames(script);
    } else {
      OutcomesAreFrames(script, i + 1);
      OneItem(script, i);
      var rest := Reports(Outcomes(RunBefore(script, i + 1), script[i + 1..]));
      Regroup(FramesBefore(script, i), FrameAt(script, i), rest);
      assert FramesBefore(script, i + 1) == FramesBefore(script, i) + FrameAt(script, i);
    }
  }

  lemma OneItem(script: Script, i: nat)
    requires i < |script|
    ensures Reports(Outcomes(RunBefore(script, i), script[i..]))
         == FrameAt(script, i) + Reports(Outcomes(RunBefore(script, i + 1), script[i + 1..]))
  {
    hide Decoded;
    var buf := RunBefore(script, i);
    var tail := Outcomes(RunBefore(script, i + 1), script[i + 1..]);
    assert script[i..][0] == script[i] && script[i..][1..] == script[i + 1..];
    if script[i] == Timeout {
      assert Outcomes(buf, script[i..]) == [Nothing] + tail;
      ReportsCons(Nothing, tail);
    } else if script[i] == Got(0) {
      var o := if buf == [] then Nothing else Decoded(buf);
      assert Outcomes(buf, script[i..]) == [o] + tail;
      ReportsCons(o, tail);
      DecodedReports(buf);
    }
  }

  lemma DecodedReports(wire: Octets)
    ensures Decoded(wire) != Nothing && Decoded(wire) != Dropped
  {
  }

  /** Repeated `read_frame` reports the decoding of every non-empty run that ends at a zero byte with no
      timeout inside, in order, and nothing else. */
  lemma ReaderReportsFrames(script: Script)
    ensures Reports(ReadAll(script)) == Frames(script)
  {
    ReadAllIsOutcomes(script);
    OutcomesAreFrames(script, 0);
    assert script[0..] == script;
  }

  // ----- resynchronisation

  predicate Settled(script: Script) {
    script == [] || script[|script| - 1] == Timeout || script[|script| - 1] == Got(0)
  }

  /** Whatever was buffered or received before, the reader starts afresh after a zero or a timeout. */
  lemma {:induction false} Resynchronises(buf: Octets, before: Script, after: Script)
    requires Settled(before) && (before == [] ==> buf == [])
    ensures Outcomes(buf, before + after) == Outcomes(buf, before) + Outcomes([], after)
    decreases |before|
  {
    if before == [] {
      assert before + after == after;
    } else {
      assert (before + after)[1..] == before[1..] + after;
      if before[0] == Timeout || before[0] == Got(0) {
        Resynchronises([], before[1..], after);
      } else {
        assert before[1..] != [];
        Resynchronises(buf + [before[0].b], before[1..], after);
      }
    }
  }

  // ----- bytes that arrive without a timeout

  function Arriving(data: Octets): (s: Script)
    ensures |s| == |data|
    ensures forall i :: 0 <= i < |data| ==> s[i] == Got(data[i])
  {
    if data == [] then [] else Arriving(data[..|data| - 1]) + [Got(data[|data| - 1])]
  }

  lemma {:induction false} SegmentOutcome(buf: Octets, segment: Octets)
    requires Cobs.ZeroFree(segment) && buf + segment != []
    ensures Outcomes(buf, Arriving(segment + [0])) == [Decoded(buf + segment)]
    decreases |segment|
  {
    var s := Arriving(segment + [0]);
    if segment == [] {
      assert s[1..] == [] && buf + segment == buf;
    } else {
      assert s[1..] == Arriving(segment[1..] + [0]);
      assert buf + segment == buf + [segment[0]] + segment[1..];
      SegmentOutcome(buf + [segment[0]], segment[1..]);
    }
  }

  /** A sent frame is received as sent. */
  lemma WireOutcome(f: Frame)
    requires Sendable(f)
    ensures Outcomes([], Arriving(EncodeFrame(f).value)) == [Delivered(f)]
  {
    FrameRoundTrip(f);
    var wire := EncodeFrame(f).value;
    var segment := wire[..|wire| - 1];
    assert wire == segment + [0];
    SegmentOutcome([], segment);
    assert [] + segment == segment;
  }

  // ----- the offline splitter

  function UpToCorrupt(outcomes: seq<Outcome>): (seq<Frame>, Option<FrameError>) {
    if outcomes == [] then ([], None)
    else match outcomes[0]
      case Delivered(f) =>
        var (fs, e) := UpToCorrupt(outcomes[1..]);
        ([f] + fs, e)
      case Corrupt(e) => ([], Some(e))
      case _ => UpToCorrupt(outcomes[1..])
  }

  lemma {:induction false} UpToCorruptSplit(good: seq<Frame>, outcomes: seq<Outcome>)
    ensures UpToCorrupt(Deliveries(good) + outcomes)
         == (good + UpToCorrupt(outcomes).0, UpToCorrupt(outcomes).1)
    decreases |good|
  {
    if good == [] {
      assert Deliveries(good) + outcomes == outcomes;
      assert good + UpToCorrupt(outcomes).0 == UpToCorrupt(outcomes).0;
    } else {
      var all := Deliveries(good) + outcomes;
      assert all[1..] == Deliveries(good[1..]) + outcomes;
      UpToCorruptSplit(good[1..], outcomes);
      assert good == [good[0]] + good[1..];
      assert all[0] == Delivered(good[0]);
      var (fs, e) := UpToCorrupt(outcomes);
      assert [good[0]] + (good[1..] + fs) == good + fs;
      assert Deliveries(good[1..]) == Deliveries(good)[1..];
    }
  }

  function Deliveries(frames: seq<Frame>): (os: seq<Outcome>)
    ensures |os| == |frames|
    ensures forall i :: 0 <= i < |os| ==> os[i] == Delivered(frames[i])
  {
    seq(|frames|, i requires 0 <= i < |frames| => Delivered(frames[i]))
  }

  lemma {:induction false} FramesPrefix(script: Script, i: nat)
    requires i <= |script|
    ensures FramesBefore(script, i) <= Frames(script)
    decreases |script| - i
  {
    if i < |script| { FramesPrefix(script, i + 1); }
  }

  /** Frames of `data` up to the first corrupt one, and that one's error. */
  method IterFrames(data: Octets) returns (frames: seq<Frame>, error: Option<FrameError>)
    ensures (frames, error) == UpToCorrupt(Reports(ReadAll(Arriving(data))))
  {
    ghost var script := Arriving(data);
    hide DecodeFrame, Outcomes, ReadAll, Reports, UpToCorrupt, Frames, RunBefore, FramesBefore, FrameAt;
    ReaderReportsFrames(script);
    NothingBefore(script);
    frames := [];
    var start := 0;
    for i := 0 to |data|
      invariant 0 <= start <= i
      invariant RunBefore(script, i) == data[start..i]
      invariant FramesBefore(script, i) == Deliveries(frames)
    {
      ByteAt(script, data, start, i);
      if data[i] == 0 {
        if i > start {
          match DecodeFrame(data[start..i]) {
            case Err(e) =>
              FramesPrefix(script, i + 1);
              StopAt(frames, e, Frames(script));
              return frames, Some(e);
            case Ok(f) =>
              frames := frames + [f];
          }
        }
        start := i + 1;
      }
    }
    StopAtEnd(frames);
    error := None;
  }

  lemma NothingBefore(script: Script)
    ensures RunBefore(script, 0) == [] && FramesBefore(script, 0) == [] && Deliveries([]) == []
    ensures FramesBefore(script, |script|) == Frames(script)
  {
  }

  lemma ByteAt(script: Script, data: Octets, start: nat, i: nat)
    requires script == Arriving(data) && start <= i < |data| && RunBefore(script, i) == data[start..i]
    ensures RunBefore(script, i + 1) == if data[i] == 0 then [] else data[start..i + 1]
    ensures FramesBefore(script, i + 1)
         == FramesBefore(script, i) + (if data[i] == 0 && i > start then [Decoded(data[start..i])] else [])
  {
    hide Decoded;
    assert script[i] == Got(data[i]);
    assert data[start..i + 1] == data[start..i] + [data[i]];
  }

  lemma StopAtEnd(good: seq<Frame>)
    ensures UpToCorrupt(Deliveries(good)) == (good, None)
  {
    UpToCorruptSplit(good, []);
    assert Deliveries(good) + [] == Deliveries(good) && good + [] == good;
  }

  lemma StopAt(good: seq<Frame>, e: FrameError, all: seq<Outcome>)
    requires Deliveries(good) + [Corrupt(e)] <= all
    ensures UpToCorrupt(all) == (good, Some(e))
  {
    var rest := all[|good|..];
    assert all == Deliveries(good) + rest;
    UpToCorruptSplit(good, rest);
    assert good + [] == good;
  }
}
