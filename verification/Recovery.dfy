/** What a dongle does to the outside world, as a log: session commands, reopening, waiting. */
module Recovery {
  import opened Bytes
  import opened Modulation
  import Info

  /** The errors the recovery code tells apart; `Foreign` is neither a DongloraError nor an OSError. */
  datatype Error = NotConfigured | OtherDonglora | OsFailure | Foreign

  predicate IsDonglora(e: Error) { e == NotConfigured || e == OtherDonglora }

  /** `StillTrying`: the call has not come back from the reopener. */
  datatype CallResult = Done | Raised(error: Error) | StillTrying

  datatype Command = Transmit | StartRx | StopRx | SendPing | SendConfig(config: Modulation)

  /** What the reopener yields: a new session comes with its info and the configuration it applied, if any. */
  datatype Opening = Opened(info: Info.Info, applied: Option<Modulation>) | Failed(error: Error)

  /** Everything the dongle does to the outside, in order. `Ran` is the operation under `_with_recovery`,
      `Polled` a wait for a packet. */
  datatype Event =
    | Asked(session: nat, alive: bool)
    | Ran(session: nat, command: Command, failure: Option<Error>)
    | Sent(session: nat, command: Command, failure: Option<Error>)
    | Shut(session: nat)
    | Tried(opening: Opening)
    | Waited(seconds: real)
    | Polled(session: nat, got: bool)

  /** Answers for whatever sessions, the reopener and other threads do; any answers. The entry at position `i`
      of the log holds the answer number `i`. */
  class World {
    const alive: nat -> bool
    const failures: nat -> Option<Error>
    const stops: nat -> bool
    const packets: nat -> bool

    /** What the reopener will yield, all of it, and what it has still to yield. */
    const supply: seq<Opening>
    var openings: seq<Opening>
    var time: nat
    var log: seq<Event>

    /** Sessions are numbered as they are opened; the first is there from the start. */
    var sessions: nat

    /** Another thread has closed the dongle. */
    var closedElsewhere: bool

    constructor (
      alive: nat -> bool, failures: nat -> Option<Error>, stops: nat -> bool, packets: nat -> bool,
      openings: seq<Opening>)
      ensures log == [] && sessions == 1 && !closedElsewhere && this.openings == openings
      ensures this.alive == alive && this.failures == failures && this.stops == stops && this.packets == packets
      ensures supply == openings && Truthful()
    {
      this.alive, this.failures, this.stops, this.packets := alive, failures, stops, packets;
      this.openings, supply := openings, openings;
      time, log, sessions, closedElsewhere := 0, [], 1, false;
      new;
      assert [] + this.openings == this.openings;
    }

    ghost predicate Truthful()
      reads this`log, this`closedElsewhere, this`openings
    {
      && (closedElsewhere ==> exists i :: stops(i))
      && supply == Tries(log) + openings
      && (forall i :: 0 <= i < |log| ==>
            match log[i]
            case Asked(_, a) => a == alive(i)
            case Ran(_, _, f) => f == failures(i)
            case Sent(_, _, f) => f == failures(i)
            case Polled(_, g) => g == packets(i)
            case _ => true)
    }

    method Ask(session: nat) returns (a: bool)
      requires Truthful()
      modifies this`log
      ensures Truthful() && log == old(log) + [Asked(session, a)]
    {
      a := alive(|log|);
      OneMore(log, Asked(session, a));
      log := log + [Asked(session, a)];
    }

    method Run(session: nat, command: Command) returns (f: Option<Error>)
      requires Truthful()
      modifies this`log
      ensures Truthful() && log == old(log) + [Ran(session, command, f)]
    {
      f := failures(|log|);
      OneMore(log, Ran(session, command, f));
      log := log + [Ran(session, command, f)];
    }

    method Send(session: nat, command: Command) returns (f: Option<Error>)
      requires Truthful()
      modifies this`log
      ensures Truthful() && log == old(log) + [Sent(session, command, f)]
    {
      f := failures(|log|);
      OneMore(log, Sent(session, command, f));
      log := log + [Sent(session, command, f)];
    }

    method Shutdown(session: nat)
      requires Truthful()
      modifies this`log
      ensures Truthful() && log == old(log) + [Shut(session)]
    {
      OneMore(log, Shut(session));
      log := log + [Shut(session)];
    }

    /** Has another thread closed the dongle by now? */
    method Stopped() returns (s: bool)
      requires Truthful()
      modifies this`time, this`closedElsewhere
      ensures Truthful() && s == closedElsewhere && (old(closedElsewhere) ==> closedElsewhere)
    {
      s := closedElsewhere || stops(time);
      time, closedElsewhere := time + 1, s;
    }

    /** Does `next_rx` of that session give a packet? */
    method Packet(session: nat) returns (got: bool)
      requires Truthful()
      modifies this`log
      ensures Truthful() && log == old(log) + [Polled(session, got)]
    {
      got := packets(|log|);
      OneMore(log, Polled(session, got));
      log := log + [Polled(session, got)];
    }

    method Wait(seconds: real) returns (stopped: bool)
      requires Truthful()
      modifies this`time, this`log, this`closedElsewhere
      ensures Truthful() && log == old(log) + [Waited(seconds)]
      ensures stopped == closedElsewhere && (old(closedElsewhere) ==> closedElsewhere)
    {
      stopped := closedElsewhere || stops(time);
      OneMore(log, Waited(seconds));
      time, log, closedElsewhere := time + 1, log + [Waited(seconds)], stopped;
    }

    method Reopen() returns (o: Opening)
      requires Truthful() && openings != []
      modifies this`openings, this`log, this`sessions
      ensures Truthful()
      ensures o == old(openings[0]) && openings == old(openings)[1..] && log == old(log) + [Tried(o)]
      ensures sessions == old(sessions) + if o.Opened? then 1 else 0
    {
      hide Tries;
      o := openings[0];
      SupplyMoves(log, openings);
      openings, log := openings[1..], log + [Tried(o)];
      if o.Opened? { sessions := sessions + 1; }
    }
  }

  // ----- back-off

  /** The wait after the failed attempt number `n`. */
  function BackOffAt(n: nat): real {
    if n == 0 then 0.5 else Longer(BackOffAt(n - 1))
  }

  function BackOffs(n: nat): (waits: seq<real>)
    ensures |waits| == n && forall k :: 0 <= k < n ==> waits[k] == BackOffAt(k)
  {
    if n == 0 then [] else BackOffs(n - 1) + [BackOffAt(n - 1)]
  }

  function Longer(b: real): real { if b * 1.5 < 2.0 then b * 1.5 else 2.0 }

  lemma {:induction false} BackOffBounds(m: nat, n: nat)
    requires m <= n
    ensures 0.5 <= BackOffAt(m) <= BackOffAt(n) <= 2.0
    ensures BackOffAt(n) == 2.0 <==> n >= 4
    ensures BackOffAt(0) == 0.5 && BackOffAt(1) == 0.75 && BackOffAt(2) == 1.125 && BackOffAt(3) == 1.6875
    decreases n
  {
    if m < n {
      BackOffBounds(m, n - 1);
    } else if n > 0 {
      BackOffBounds(n - 1, n - 1);
    }
    assert BackOffAt(0) == 0.5 && BackOffAt(1) == 0.75 && BackOffAt(2) == 1.125 && BackOffAt(3) == 1.6875;
  }

  // ----- reading the log

  function Waits(log: seq<Event>): seq<real> {
    if log == [] then []
    else Waits(log[..|log| - 1]) + (match log[|log| - 1] case Waited(s) => [s] case _ => [])
  }

  function Tries(log: seq<Event>): seq<Opening> {
    if log == [] then []
    else Tries(log[..|log| - 1]) + (match log[|log| - 1] case Tried(o) => [o] case _ => [])
  }

  /** The runs of the guarded operation: where they ran and how they ended. */
  function Runs(log: seq<Event>): seq<Event> {
    if log == [] then []
    else Runs(log[..|log| - 1]) + (if log[|log| - 1].Ran? then [log[|log| - 1]] else [])
  }

  /** The commands sent other than as the guarded operation. */
  function Sends(log: seq<Event>): seq<Event> {
    if log == [] then []
    else Sends(log[..|log| - 1]) + (if log[|log| - 1].Sent? then [log[|log| - 1]] else [])
  }

  /** All the events that carry `command` to a session. */
  function Carrying(log: seq<Event>, command: Command): seq<Event> {
    if log == [] then []
    else
      var e := log[|log| - 1];
      Carrying(log[..|log| - 1], command) + (if (e.Ran? || e.Sent?) && e.command == command then [e] else [])
  }

  function LastTry(log: seq<Event>): Option<Opening> {
    var ts := Tries(log);
    if ts == [] then None else Some(ts[|ts| - 1])
  }

  predicate Reopened(log: seq<Event>) { LastTry(log).Some? && LastTry(log).value.Opened? }

  lemma {:induction false} Joined(a: seq<Event>, b: seq<Event>)
    ensures Waits(a + b) == Waits(a) + Waits(b)
    ensures Tries(a + b) == Tries(a) + Tries(b)
    ensures Runs(a + b) == Runs(a) + Runs(b)
    ensures Sends(a + b) == Sends(a) + Sends(b)
    decreases |b|
  {
    if b == [] {
      assert a + b == a;
    } else {
      assert (a + b)[..|a + b| - 1] == a + b[..|b| - 1];
      Joined(a, b[..|b| - 1]);
    }
  }

  /** Event `e` is the acknowledgement of a command on `session`. */
  predicate Acked(e: Event, session: nat, command: Command) {
    e == Ran(session, command, None) || e == Sent(session, command, None)
  }

  /** As far as acknowledgements tell, `session`'s radio is receiving: RX_START was acknowledged, and since
      then neither RX_STOP nor SET_CONFIG, which aborts reception. */
  predicate Listening(log: seq<Event>, session: nat) {
    log != [] &&
    var e, before := log[|log| - 1], log[..|log| - 1];
    if Acked(e, session, StartRx) then true
    else if Acked(e, session, StopRx) || Configures(e, session) then false
    else Listening(before, session)
  }

  predicate Configures(e: Event, session: nat) {
    (e.Ran? || e.Sent?) && e.session == session && e.command.SendConfig? && e.failure == None
  }

  /** No command has gone to sessions numbered `n` and up. */
  predicate Known(log: seq<Event>, n: nat) {
    forall i :: 0 <= i < |log| && (log[i].Ran? || log[i].Sent?) ==> log[i].session < n
  }

  /** No session is sent any command. */
  predicate Quiet(done: seq<Event>) { forall i :: 0 <= i < |done| ==> !done[i].Ran? && !done[i].Sent? }

  lemma {:induction false} ListeningQuiet(log: seq<Event>, done: seq<Event>, session: nat, n: nat)
    requires Quiet(done)
    ensures Listening(log + done, session) == Listening(log, session)
    ensures Known(log, n) ==> Known(log + done, n)
    decreases |done|
  {
    if done == [] {
      assert log + done == log;
    } else {
      var front, e := done[..|done| - 1], done[|done| - 1];
      assert log + done == log + front + [e];
      ListeningQuiet(log, front, session, n);
      ListeningStep(log + front, e, session);
    }
  }

  /** After such an event the dongle may believe in a reception the radio has given up, or never began:
      a cached configuration re-sent, or a restart that failed with something other than a DongloraError. */
  predicate Strays(e: Event) {
    || (e.Sent? && e.command.SendConfig? && e.failure == None)
    || (e.Sent? && e.command == StartRx && e.failure.Some? && !IsDonglora(e.failure.value))
  }

  predicate Strayed(done: seq<Event>) { exists i :: 0 <= i < |done| && Strays(done[i]) }

  lemma StrayedJoin(a: seq<Event>, b: seq<Event>)
    ensures Strayed(a + b) <==> Strayed(a) || Strayed(b)
  {
    if Strayed(a) {
      var i :| 0 <= i < |a| && Strays(a[i]);
      assert (a + b)[i] == a[i];
    }
    if Strayed(b) {
      var i :| 0 <= i < |b| && Strays(b[i]);
      assert (a + b)[|a| + i] == b[i];
    }
  }

  lemma NotStrayed(done: seq<Event>)
    requires Quiet(done)
    ensures !Strayed(done)
  {
  }

  lemma {:induction false} SilentBefore(log: seq<Event>, session: nat)
    requires Known(log, session)
    ensures !Listening(log, session)
    decreases |log|
  {
    if log != [] { SilentBefore(log[..|log| - 1], session); }
  }

  lemma ListeningStep(log: seq<Event>, e: Event, session: nat)
    ensures Listening(log + [e], session) ==
              if Acked(e, session, StartRx) then true
              else if Acked(e, session, StopRx) || Configures(e, session) then false
              else Listening(log, session)
  {
    assert (log + [e])[..|log + [e]| - 1] == log;
  }

  /** Only failures that recovery sleeps off and tries again. */
  predicate AllCaught(tries: seq<Opening>) { forall i :: 0 <= i < |tries| ==> Caught(tries[i]) }

  predicate Caught(o: Opening) { o.Failed? && o.error != Foreign }

  /** Failed attempts, each with its wait. */
  function Attempted(tries: seq<Opening>): seq<Event> {
    if tries == [] then []
    else
      var n := |tries| - 1;
      Attempted(tries[..n]) + [Tried(tries[n])] + [Waited(BackOffAt(n))]
  }

  /** All that the recovery loop does, event by event. */
  predicate Course(done: seq<Event>) {
    var tries := Tries(done);
    if tries != [] && !Caught(tries[|tries| - 1]) then
      var n := |tries| - 1;
      AllCaught(tries[..n]) && done == Attempted(tries[..n]) + [Tried(tries[n])]
    else AllCaught(tries) && done == Attempted(tries)
  }

  lemma {:induction false} AttemptedQuiet(tries: seq<Opening>)
    ensures Quiet(Attempted(tries))
    decreases |tries|
  {
    if tries != [] { AttemptedQuiet(tries[..|tries| - 1]); }
  }

  lemma CourseQuiet(done: seq<Event>)
    requires Course(done)
    ensures Quiet(done)
  {
    var tries := Tries(done);
    AttemptedQuiet(tries);
    if tries != [] { AttemptedQuiet(tries[..|tries| - 1]); }
  }

  lemma {:induction false} QuietSends(done: seq<Event>)
    requires Quiet(done)
    ensures Sends(done) == [] && Runs(done) == []
    decreases |done|
  {
    if done != [] { QuietSends(done[..|done| - 1]); }
  }

  /** How recovery ends without a new session. */
  function GaveUp(closed: bool, done: seq<Event>): CallResult {
    if LastTry(done) == Some(Failed(Foreign)) then Raised(Foreign)
    else if closed then Done
    else StillTrying
  }

  /** `n` attempts have failed, each followed by its wait. */
  predicate Retried(done: seq<Event>, n: nat) {
    && Runs(done) == [] && Waits(done) == BackOffs(n) && |Tries(done)| == n && AllCaught(Tries(done))
    && done == Attempted(Tries(done))
  }

  /** How `done` reads when recovery leaves the loop, with a new session or without. */
  predicate Attempts(done: seq<Event>) {
    && Runs(done) == [] && Waits(done) == BackOffs(|Waits(done)|)
    && |Waits(done)| <= |Tries(done)| <= |Waits(done)| + 1
    && (Tries(done) != [] ==> AllCaught(Tries(done)[..|Tries(done)| - 1]))
  }

  lemma NothingTried()
    ensures Retried([], 0) && BackOffAt(0) == 0.5
  {
  }

  lemma LastAttempt(done: seq<Event>, n: nat, o: Opening)
    requires Retried(done, n)
    ensures Attempts(done + [Tried(o)]) && LastTry(done + [Tried(o)]) == Some(o)
    ensures Tries(done + [Tried(o)]) == Tries(done) + [o]
    ensures o.Opened? || o.error == Foreign ==> Course(done + [Tried(o)])
    ensures Reopened(done + [Tried(o)]) == o.Opened?
    ensures o == Failed(Foreign) ==> forall closed :: GaveUp(closed, done + [Tried(o)]) == Raised(Foreign)
  {
    hide Waits, Tries, Runs, BackOffAt, Attempted;
    OneMore(done, Tried(o));
    assert (Tries(done) + [o])[..n] == Tries(done);
  }

  lemma AttemptsEnd(done: seq<Event>, n: nat)
    requires Retried(done, n)
    ensures Attempts(done) && Course(done) && !Reopened(done) && LastTry(done) != Some(Failed(Foreign))
    ensures forall closed :: GaveUp(closed, done) == if closed then Done else StillTrying
  {
    hide Waits, Tries, Runs, BackOffAt, Attempted;
  }

  lemma AttemptedMore(tries: seq<Opening>, o: Opening)
    ensures Attempted(tries + [o]) == Attempted(tries) + [Tried(o)] + [Waited(BackOffAt(|tries|))]
  {
    hide BackOffAt;
    var all := tries + [o];
    assert all[..|all| - 1] == tries && all[|all| - 1] == o && |all| - 1 == |tries|;
    assert Attempted(all) == Attempted(tries) + [Tried(o)] + [Waited(BackOffAt(|tries|))];
  }

  lemma CaughtMore(tries: seq<Opening>, o: Opening)
    requires AllCaught(tries) && Caught(o)
    ensures AllCaught(tries + [o])
  {
  }

  lemma LongerWait(n: nat)
    ensures BackOffAt(n + 1) == Longer(BackOffAt(n)) && BackOffs(n + 1) == BackOffs(n) + [BackOffAt(n)]
  {
  }

  lemma OneMoreAttempt(done: seq<Event>, n: nat, o: Opening)
    requires Retried(done, n) && o.Failed? && o.error != Foreign
    ensures Retried(done + [Tried(o)] + [Waited(BackOffAt(n))], n + 1)
    ensures Tries(done + [Tried(o)] + [Waited(BackOffAt(n))]) == Tries(done) + [o]
    ensures BackOffAt(n + 1) == Longer(BackOffAt(n))
  {
    hide Waits, Tries, Runs, BackOffAt, BackOffs, Attempted, AllCaught, Longer;
    OneMore(done, Tried(o));
    OneMore(done + [Tried(o)], Waited(BackOffAt(n)));
    AttemptedMore(Tries(done), o);
    CaughtMore(Tries(done), o);
    LongerWait(n);
  }

  /** Looking at a session or closing it is not an attempt. */
  lemma LookedFirst(e: Event, done: seq<Event>)
    requires e.Asked? || e.Shut?
    ensures var all := [e] + done;
            Attempts(all) == Attempts(done) && Tries(all) == Tries(done) && Runs(all) == Runs(done)
            && LastTry(all) == LastTry(done)
  {
    hide Waits, Tries, Runs, Attempts, LastTry;
    OneLook(e);
    Joined([e], done);
    assert [] + Waits(done) == Waits(done) && [] + Tries(done) == Tries(done) && [] + Runs(done) == Runs(done);
    SameAttempts([e] + done, done);
  }

  lemma SameAttempts(a: seq<Event>, b: seq<Event>)
    requires Waits(a) == Waits(b) && Tries(a) == Tries(b) && Runs(a) == Runs(b)
    ensures Attempts(a) == Attempts(b) && LastTry(a) == LastTry(b)
  {
    hide Waits, Tries, Runs, AllCaught, BackOffs;
  }

  lemma OneLook(e: Event)
    requires e.Asked? || e.Shut?
    ensures Waits([e]) == [] && Tries([e]) == [] && Runs([e]) == []
  {
    assert [e][..0] == [];
  }

  lemma SentLast(done: seq<Event>, session: nat, command: Command, f: Option<Error>)
    ensures var all := done + [Sent(session, command, f)];
            Attempts(all) == Attempts(done) && Tries(all) == Tries(done) && LastTry(all) == LastTry(done)
  {
    hide Waits, Tries, Runs, Attempts, LastTry;
    OneMore(done, Sent(session, command, f));
    SameAttempts(done + [Sent(session, command, f)], done);
  }

  lemma SupplyMoves(log: seq<Event>, openings: seq<Opening>)
    requires openings != []
    ensures Tries(log + [Tried(openings[0])]) + openings[1..] == Tries(log) + openings
  {
    hide Tries, Waits, Runs, Sends;
    OneMore(log, Tried(openings[0]));
    var first, rest := [openings[0]], openings[1..];
    assert openings == first + rest;
    assert Tries(log) + first + rest == Tries(log) + (first + rest);
  }

  lemma OneMore(log: seq<Event>, e: Event)
    ensures Waits(log + [e]) == if e.Waited? then Waits(log) + [e.seconds] else Waits(log)
    ensures Tries(log + [e]) == if e.Tried? then Tries(log) + [e.opening] else Tries(log)
    ensures Runs(log + [e]) == if e.Ran? then Runs(log) + [e] else Runs(log)
    ensures Sends(log + [e]) == if e.Sent? then Sends(log) + [e] else Sends(log)
  {
    assert (log + [e])[..|log + [e]| - 1] == log;
  }

  // ----- retrying

  /** A liveness check that let its caller go on: the session was found alive, or a new one was opened and
      put in place, or the dongle was closed meanwhile. */
  predicate Passed(done: seq<Event>, closed: bool) {
    done != [] && (Alive(done[|done| - 1]) || Reopened(done) || closed)
  }

  predicate Alive(e: Event) { e.Asked? && e.alive }

  function Opt(e: Option<Event>): seq<Event> {
    match e
    case None => []
    case Some(v) => [v]
  }

  function Ended(failure: Option<Error>): CallResult {
    match failure
    case None => Done
    case Some(e) => Raised(e)
  }

  lemma PassedLater(e: Event, done: seq<Event>, closed: bool)
    requires e.Asked? && done != []
    ensures Passed([e] + done, closed) == Passed(done, closed)
    ensures Strayed([e] + done) == Strayed(done)
  {
    hide Attempts;
    LookedFirst(e, done);
    StrayedJoin([e], done);
    NotStrayed([e]);
  }

  lemma StillPassed(done: seq<Event>, m: Memory, hasReopener: bool, closed: bool, later: bool)
    requires CheckTells(done, m, hasReopener, closed, Done) && (closed ==> later)
    ensures CheckTells(done, m, hasReopener, later, Done)
    ensures Passed(done, closed) ==> Passed(done, later)
  {
  }

  lemma AskedOnly(e: Event, closed: bool)
    requires e.Asked?
    ensures Attempts([e]) && Tries([e]) == [] && Runs([e]) == []
    ensures (e.alive ==> Passed([e], closed)) && !Strayed([e])
  {
    assert [e][..0] == [];
    NotStrayed([e]);
  }

  lemma AttemptsRunNothing(done: seq<Event>)
    requires Attempts(done)
    ensures Runs(done) == []
  {
  }

  lemma LooksFirst(done: seq<Event>, m: Memory, hasReopener: bool, closed: bool, r: CallResult)
    requires CheckTells(done, m, hasReopener, closed, r)
    ensures done != [] && done[0].Asked? && done[0].session == m.session
    ensures done[0].alive ==> |done| == 1 && r == Done && Remember(m, done) == m
  {
    if done[0].alive {
      NoTries(done[0]);
      assert done == [done[0]];
    }
  }

  lemma CheckedOnly(e: Event, m: Memory, hasReopener: bool, closed: bool)
    requires e.Asked? && e.session == m.session && (e.alive || !hasReopener)
    ensures CheckTells([e], m, hasReopener, closed, if e.alive then Done else Raised(OtherDonglora))
  {
  }

  lemma CheckedLater(e: Event, done: seq<Event>, m: Memory, hasReopener: bool, closed: bool, r: CallResult)
    requires e.Asked? && e.session == m.session && !e.alive
    ensures LockTells(done, m, closed, r) && hasReopener ==> CheckTells([e] + done, m, hasReopener, closed, r)
    ensures RecoveryTells(done, m, closed, r) ==> LockTells([e] + done, m, closed, r)
  {
    assert ([e] + done)[1..] == done;
  }

  /** A run that is not an acknowledged RX_START, RX_STOP or SET_CONFIG leaves reception as it was. */
  lemma RanOnce(log: seq<Event>, session: nat, command: Command, f: Option<Error>, n: nat)
    requires session < n && Known(log, n)
    ensures var e := Ran(session, command, f);
            && Known(log + [e], n) && !Strayed([e])
            && (command == Transmit || (command == StartRx && f.Some?) ==>
                  Listening(log + [e], session) == Listening(log, session))
            && (command == StartRx && f.None? ==> Listening(log + [e], session))
  {
    ListeningStep(log, Ran(session, command, f), session);
  }

  /** A command sent without a guard, other than RX_START: unless it is an acknowledged RX_STOP or
      SET_CONFIG, reception stays as it was. */
  lemma SentOnce(log: seq<Event>, session: nat, command: Command, f: Option<Error>, n: nat)
    requires session < n && Known(log, n) && command != StartRx
    ensures var e := Sent(session, command, f);
            && Known(log + [e], n) && Tries([e]) == []
            && (Strayed([e]) <==> f.None? && command.SendConfig?)
            && (f.Some? || command == SendPing ==> Listening(log + [e], session) == Listening(log, session))
  {
    var e := Sent(session, command, f);
    ListeningStep(log, e, session);
    NoTries(e);
    if f.None? && command.SendConfig? { assert Strays([e][0]); }
  }

  lemma Reconfigured(log: seq<Event>, session: nat, config: Modulation, f: Option<Error>, n: nat)
    requires session < n && Known(log, n)
    ensures var e := Sent(session, SendConfig(config), f);
            && Known(log + [e], n) && Runs([e]) == [] && (Strayed([e]) <==> f.None?)
            && Listening(log + [e], session) == (f.Some? && Listening(log, session))
  {
    var e := Sent(session, SendConfig(config), f);
    ListeningStep(log, e, session);
    assert [e][..0] == [];
    if f.None? { assert Strays([e][0]); }
  }

  lemma NothingDone()
    ensures Runs([]) == [] && Sends([]) == [] && Tries([]) == [] && LastTry([]) == None && !Strayed([])
  {
  }

  lemma NoTries(e: Event)
    requires !e.Tried?
    ensures Tries([e]) == []
  {
    assert [e][..0] == [];
  }

  lemma AskedQuietly(log: seq<Event>, e: Event, session: nat, n: nat)
    requires e.Asked?
    ensures Listening(log + [e], session) == Listening(log, session)
    ensures Known(log, n) ==> Known(log + [e], n)
  {
    ListeningQuiet(log, [e], session, n);
  }

  lemma PolledQuietly(log: seq<Event>, session: nat, got: bool, n: nat)
    ensures Listening(log + [Polled(session, got)], session) == Listening(log, session)
    ensures Known(log, n) ==> Known(log + [Polled(session, got)], n)
  {
    ListeningQuiet(log, [Polled(session, got)], session, n);
  }

  /** What a dongle remembers, and the number the next session opened for it will have. */
  datatype Memory = Memory(
    session: nat, info: Info.Info, config: Option<Modulation>, rxStarted: bool, next: nat)

  /** The new session in place: config as the reopener left it, or as it was; reception restarted if it was
      on, and given up if the new session refused it. */
  function Reconnected(m: Memory, o: Opening, restart: Option<Error>): Memory
    requires o.Opened?
  {
    Memory(m.next, o.info, if o.applied.Some? then o.applied else m.config,
           m.rxStarted && (restart == None || !IsDonglora(restart.value)), m.next + 1)
  }

  /** What is remembered after `done`, in which at most one session was opened. */
  function Remember(m: Memory, done: seq<Event>): Memory {
    if !Reopened(done) then m else Reconnected(m, LastTry(done).value, RestartOf(done))
  }

  /** How the command at the very end failed, if there is one. */
  function RestartOf(done: seq<Event>): Option<Error> {
    if done != [] && done[|done| - 1].Sent? then done[|done| - 1].failure else None
  }

  lemma RememberLater(e: Event, done: seq<Event>, m: Memory)
    requires (e.Asked? || e.Shut?) && done != []
    ensures Remember(m, [e] + done) == Remember(m, done)
  {
    hide Attempts, LastTry;
    LookedFirst(e, done);
  }

  lemma RememberNothing(done: seq<Event>, m: Memory)
    requires Tries(done) == []
    ensures Remember(m, done) == m
  {
  }

  /** What restarting reception makes of a recovery. */
  function AfterRestart(failure: Option<Error>): CallResult {
    if failure == None || IsDonglora(failure.value) then Done else Raised(failure.value)
  }

  /** A session was opened, and reception, which was on, is restarted on it. */
  predicate Restarts(done: seq<Event>, m: Memory) { Reopened(done) && m.rxStarted }

  /** How a recovery goes, event by event, and what its caller gets: the old session is closed, then there are
      attempts and waits and, at the very end, RX_START if reception is to be restarted; nothing else is sent. */
  predicate RecoveryTells(done: seq<Event>, m: Memory, closed: bool, r: CallResult) {
    && done != [] && done[0] == Shut(m.session) && Attempts(done)
    && (if Restarts(done, m) then |done| > 1 && Course(done[1..|done| - 1]) else Course(done[1..]))
    && var last := done[|done| - 1];
       if !Reopened(done) then r == GaveUp(closed, done)
       else if m.rxStarted then
         last.Sent? && last == Sent(m.next, StartRx, last.failure) && r == AfterRestart(last.failure)
       else last == Tried(LastTry(done).value) && r == Done
  }

  lemma RecoveryGoes(m: Memory, tried: seq<Event>, closed: bool, r: CallResult)
    requires Attempts(tried) && Course(tried)
    requires if Reopened(tried) then tried != [] && tried[|tried| - 1] == Tried(LastTry(tried).value) && r == Done
             else r == GaveUp(closed, tried)
    ensures var done := [Shut(m.session)] + tried;
            && (!Reopened(tried) || !m.rxStarted ==> RecoveryTells(done, m, closed, r))
            && RestartOf(done) == RestartOf(tried) && (Reopened(tried) ==> RestartOf(done) == None)
            && (!Reopened(tried) ==> Remember(m, done) == m)
  {
    hide Attempts, LastTry, Course;
    LookedFirst(Shut(m.session), tried);
    assert ([Shut(m.session)] + tried)[1..] == tried;
  }

  lemma RecoveryRestarts(m: Memory, tried: seq<Event>, f: Option<Error>, closed: bool)
    requires Attempts(tried) && Course(tried) && Reopened(tried) && m.rxStarted
    ensures var e := Sent(m.next, StartRx, f);
            var done := [Shut(m.session)] + tried + [e];
            && RecoveryTells(done, m, closed, AfterRestart(f)) && RestartOf(done) == f
            && (Strayed(done) <==> Strayed([Shut(m.session)] + tried) || AfterRestart(f) != Done)
  {
    hide Attempts, LastTry, Course;
    var e := Sent(m.next, StartRx, f);
    var done := [Shut(m.session)] + tried + [e];
    assert done[1..|done| - 1] == tried;
    LookedFirst(Shut(m.session), tried);
    SentLast([Shut(m.session)] + tried, m.next, StartRx, f);
    StrayedJoin([Shut(m.session)] + tried, [e]);
    if AfterRestart(f) != Done { assert Strays([e][0]); }
  }

  /** A recovery sends nothing but RX_START, to the new session, at its very end, and no configuration. */
  lemma RecoverySends(done: seq<Event>, m: Memory, closed: bool, r: CallResult)
    requires RecoveryTells(done, m, closed, r)
    ensures Sends(done) == if Restarts(done, m) then [Sent(m.next, StartRx, RestartOf(done))] else []
    ensures forall i :: 0 <= i < |done| && done[i].Sent? ==> i == |done| - 1 && done[i].command == StartRx
  {
    hide Attempts, LastTry, Course, Sends, Reopened;
    if Restarts(done, m) { SendsAtTheEnd(done, m.session); } else { SendsNothing(done, m.session); }
  }

  lemma SendsAtTheEnd(done: seq<Event>, session: nat)
    requires |done| > 1 && done[0] == Shut(session) && Course(done[1..|done| - 1]) && done[|done| - 1].Sent?
    ensures Sends(done) == [done[|done| - 1]]
    ensures forall i :: 0 <= i < |done| - 1 ==> !done[i].Sent?
  {
    hide Course, Sends, Quiet, Waits, Tries, Runs;
    var n := |done| - 1;
    CourseQuiet(done[1..n]);
    ShutQuietly(session, done[1..n]);
    assert done[..n] == [Shut(session)] + done[1..n] && done == done[..n] + [done[n]];
    OneMore(done[..n], done[n]);
    QuietMeans(done[..n]);
    forall i | 0 <= i < n ensures !done[i].Sent? { assert done[i] == done[..n][i]; }
  }

  lemma SendsNothing(done: seq<Event>, session: nat)
    requires done != [] && done[0] == Shut(session) && Course(done[1..])
    ensures Sends(done) == [] && forall i :: 0 <= i < |done| ==> !done[i].Sent?
  {
    hide Course, Sends, Quiet;
    CourseQuiet(done[1..]);
    ShutQuietly(session, done[1..]);
    assert done == [Shut(session)] + done[1..];
    QuietMeans(done);
  }

  lemma QuietMeans(done: seq<Event>)
    requires Quiet(done)
    ensures forall i :: 0 <= i < |done| ==> !done[i].Sent?
  {
  }

  lemma ShutQuietly(session: nat, done: seq<Event>)
    requires Quiet(done)
    ensures Quiet([Shut(session)] + done) && Sends([Shut(session)] + done) == []
  {
    QuietSends([Shut(session)] + done);
  }

  /** Under the recovery lock: a second look, then recovery. */
  predicate LockTells(done: seq<Event>, m: Memory, closed: bool, r: CallResult) {
    && done != [] && done[0].Asked? && done[0].session == m.session
    && if done[0].alive then |done| == 1 && r == Done else RecoveryTells(done[1..], m, closed, r)
  }

  /** A liveness check: a look, and if need be the lock. */
  predicate CheckTells(done: seq<Event>, m: Memory, hasReopener: bool, closed: bool, r: CallResult) {
    && done != [] && done[0].Asked? && done[0].session == m.session
    && if done[0].alive then |done| == 1 && r == Done
       else if !hasReopener then |done| == 1 && r == Raised(OtherDonglora)
       else LockTells(done[1..], m, closed, r)
  }

  lemma LookedSends(e: Event, done: seq<Event>, m: Memory)
    requires e.Asked?
    ensures Sends([e] + done) == Sends(done)
    ensures done != [] ==> Restarts([e] + done, m) == Restarts(done, m) && RestartOf([e] + done) == RestartOf(done)
    ensures !Restarts([e], m)
  {
    hide Attempts, LastTry, Tries, Waits, Runs;
    LookedFirst(e, done);
    LookedFirst(e, []);
    assert [e] + [] == [e];
    NothingDone();
    Joined([e], done);
    assert Sends([e]) == [] by { assert [e][..0] == []; }
    assert [] + Sends(done) == Sends(done);
  }

  /** Nor does a liveness check send anything else. */
  lemma CheckSends(done: seq<Event>, m: Memory, hasReopener: bool, closed: bool, r: CallResult)
    requires CheckTells(done, m, hasReopener, closed, r)
    ensures Sends(done) == if Restarts(done, m) then [Sent(m.next, StartRx, RestartOf(done))] else []
  {
    hide RecoveryTells, Sends, Restarts, RestartOf;
    var e := done[0];
    assert done == [e] + done[1..];
    LookedSends(e, done[1..], m);
    if e.alive || !hasReopener {
      assert done == [e];
      NothingDone();
    } else {
      LockSends(done[1..], m, closed, r);
    }
  }

  lemma LockSends(done: seq<Event>, m: Memory, closed: bool, r: CallResult)
    requires LockTells(done, m, closed, r)
    ensures Sends(done) == if Restarts(done, m) then [Sent(m.next, StartRx, RestartOf(done))] else []
  {
    hide RecoveryTells, Sends, Restarts, RestartOf;
    var e := done[0];
    assert done == [e] + done[1..];
    LookedSends(e, done[1..], m);
    if e.alive {
      assert done == [e];
      NothingDone();
    } else {
      RecoveryIsSomething(done[1..], m, closed, r);
      RecoverySends(done[1..], m, closed, r);
    }
  }

  lemma RecoveryIsSomething(done: seq<Event>, m: Memory, closed: bool, r: CallResult)
    requires RecoveryTells(done, m, closed, r)
    ensures done != []
  {
  }

  /** A command sent without a guard, after a liveness check. */
  predicate PlainTells(
    checked: seq<Event>, sent: Option<Event>, m: Memory, command: Command, hasReopener: bool, closed: bool,
    r: CallResult)
  {
    match sent
    case None => r != Done && CheckTells(checked, m, hasReopener, closed, r)
    case Some(e) =>
      && CheckTells(checked, m, hasReopener, closed, Done)
      && e.Sent? && e == Sent(Remember(m, checked).session, command, e.failure) && r == Ended(e.failure)
  }

  /** What `recv` does about a session that gave it nothing. */
  predicate Replaces(done: seq<Event>, m: Memory, hasReopener: bool, closed: bool, r: CallResult) {
    && done != [] && done[0].Asked? && done[0].session == m.session
    && if done[0].alive then |done| == 1 && r == Done else CheckTells(done[1..], m, hasReopener, closed, r)
  }

  /** The keepalive thread drops the library's own errors. */
  function Swallowed(r: CallResult): CallResult { if r.Raised? && IsDonglora(r.error) then Done else r }

  /** A keepalive ping; if the device answers that it has lost its configuration, the cached one is sent once. */
  predicate PingTells(done: seq<Event>, m: Memory, acknowledged: bool) {
    && done != [] && done[0].Sent? && done[0] == Sent(m.session, SendPing, done[0].failure)
    && acknowledged == done[0].failure.None?
    && if done[0].failure == Some(NotConfigured) && m.config.Some? then
         |done| == 2 && done[1].Sent? && done[1] == Sent(m.session, SendConfig(m.config.value), done[1].failure)
       else |done| == 1
  }

  /** One turn of the keepalive thread: a dead session is recovered, a live one pinged if it was `idle` for long. */
  ghost predicate TurnTells(
    done: seq<Event>, m: Memory, idle: bool, hasReopener: bool, closed: bool, marked: bool, r: CallResult)
  {
    && done != [] && done[0].Asked? && done[0].session == m.session
    && if !done[0].alive && hasReopener then
         !marked && exists t :: CheckTells(done[1..], m, hasReopener, closed, t) && r == Swallowed(t)
       else r == Done && if idle then PingTells(done[1..], m, marked) else |done| == 1 && !marked
  }

  /** A guarded call: the liveness check, a run of the operation, repair, another run. */
  datatype Story = Story(before: seq<Event>, first: Option<Event>, repair: seq<Event>, second: Option<Event>) {
    function Events(): seq<Event> { before + Opt(first) + repair + Opt(second) }
  }

  /** How a failed first run is repaired, by a dongle that remembers `m`. */
  predicate Repairs(
    e: Error, m: Memory, hasReopener: bool, closed: bool, repair: seq<Event>, r: CallResult, again: bool)
  {
    if e == NotConfigured && m.config.Some? then
      && |repair| == 1 && repair[0].Sent?
      && repair[0] == Sent(m.session, SendConfig(m.config.value), repair[0].failure)
      && again == repair[0].failure.None?
      && (!again ==> r == Ended(repair[0].failure))
    else if e == OtherDonglora then
      && repair != [] && repair[0].Asked? && repair[0].session == m.session
      && (repair[0].alive || !hasReopener ==> |repair| == 1 && !again && r == Raised(e))
      && (!repair[0].alive && hasReopener ==>
            && CheckTells(repair[1..], m, hasReopener, closed, if again then Done else r)
            && (if again then Passed(repair[1..], closed) else r != Done))
    else repair == [] && !again && r == Raised(e)
  }

  /** What is remembered when the first run starts, and when the call is over. */
  function Checkpoint(m: Memory, story: Story): Memory { Remember(m, story.before) }

  function Afterwards(m: Memory, story: Story): Memory { Remember(Checkpoint(m, story), story.repair) }

  /** How a guarded call on a dongle that remembers `m` goes, and what its caller gets. */
  predicate Tells(
    story: Story, m: Memory, command: Command, hasReopener: bool, closed: bool, r: CallResult)
  {
    && Runs(story.before) == [] && Runs(story.repair) == []
    && CheckTells(story.before, m, hasReopener, closed, if story.first.None? then r else Done)
    && (story.first.None? ==> r != Done && story.repair == [] && story.second == None)
    && (story.first.Some? ==>
          && Passed(story.before, closed)
          && var run := story.first.value;
             && run.Ran? && run == Ran(Checkpoint(m, story).session, command, run.failure)
             && (run.failure.None? ==> r == Done && story.repair == [] && story.second == None)
             && (run.failure.Some? ==>
                   Repairs(run.failure.value, Checkpoint(m, story), hasReopener, closed, story.repair, r,
                           story.second.Some?)))
    && (story.second.Some? ==>
          var run := story.second.value;
          run.Ran? && run == Ran(Afterwards(m, story).session, command, run.failure) && r == Ended(run.failure))
  }

  lemma RepairedAnyway(
    e: Error, m: Memory, hasReopener: bool, closed: bool, repair: seq<Event>, r: CallResult, later: CallResult)
    requires Repairs(e, m, hasReopener, closed, repair, r, true)
    ensures Repairs(e, m, hasReopener, closed, repair, later, true)
  {
  }

  /** What `recv` does before it waits: a liveness check, and RX_START if reception is off. It leaves `ready`. */
  predicate ReadyTells(
    checked: seq<Event>, story: Story, m: Memory, hasReopener: bool, closed: bool, r: CallResult, ready: Memory)
  {
    var left := Remember(m, checked);
    if story.Events() == [] then
      && CheckTells(checked, m, hasReopener, closed, r) && ready == left
      && (r == Done ==> left.rxStarted)
    else
      && CheckTells(checked, m, hasReopener, closed, Done) && !left.rxStarted
      && Tells(story, left, StartRx, hasReopener, closed, r)
      && ready == Afterwards(left, story).(rxStarted := r == Done)
  }

  lemma StillReady(
    checked: seq<Event>, story: Story, m: Memory, hasReopener: bool, closed: bool, ready: Memory, later: bool)
    requires ReadyTells(checked, story, m, hasReopener, closed, Done, ready) && (closed ==> later)
    ensures ReadyTells(checked, story, m, hasReopener, later, Done, ready)
  {
    hide Runs, Remember;
    StillPassed(checked, m, hasReopener, closed, later);
    if story.Events() != [] { StillTold(story, Remember(m, checked), StartRx, hasReopener, closed, later); }
  }

  lemma StillTold(story: Story, m: Memory, command: Command, hasReopener: bool, closed: bool, later: bool)
    requires Tells(story, m, command, hasReopener, closed, Done) && (closed ==> later)
    ensures Tells(story, m, command, hasReopener, later, Done)
  {
    hide Runs, Remember, CheckTells, Reopened;
    if story.first.Some? { StillPassed(story.before, m, hasReopener, closed, later); }
    if story.repair != [] && story.second.Some? {
      var left := Checkpoint(m, story);
      if story.first.value.failure == Some(OtherDonglora) && !story.repair[0].alive && hasReopener {
        StillPassed(story.repair[1..], left, hasReopener, closed, later);
      }
    }
  }

  lemma ToldSomething(story: Story, m: Memory, command: Command, hasReopener: bool, closed: bool, r: CallResult)
    requires Tells(story, m, command, hasReopener, closed, r)
    ensures story.Events() != []
  {
    hide Runs, Repairs;
  }

  lemma StoryStrays(story: Story)
    requires (story.first.Some? ==> story.first.value.Ran?) && (story.second.Some? ==> story.second.value.Ran?)
    ensures Strayed(story.Events()) <==> Strayed(story.before) || Strayed(story.repair)
  {
    StrayedJoin(story.before, Opt(story.first));
    StrayedJoin(story.before + Opt(story.first), story.repair);
    StrayedJoin(story.before + Opt(story.first) + story.repair, Opt(story.second));
  }

  lemma StoryRuns(story: Story)
    requires Runs(story.before) == [] && Runs(story.repair) == []
    requires (story.first.Some? ==> story.first.value.Ran?) && (story.second.Some? ==> story.second.value.Ran?)
    ensures Runs(story.Events()) == Opt(story.first) + Opt(story.second)
  {
    hide Runs;
    OptRuns(story.first);
    OptRuns(story.second);
    Joined(story.before, Opt(story.first));
    Joined(story.before + Opt(story.first), story.repair);
    Joined(story.before + Opt(story.first) + story.repair, Opt(story.second));
  }

  lemma OptRuns(e: Option<Event>)
    requires e.Some? ==> e.value.Ran?
    ensures Runs(Opt(e)) == Opt(e)
  {
    if e.Some? { assert [e.value][..0] == []; }
  }

  lemma {:induction false} CarriedByRuns(log: seq<Event>, command: Command)
    requires forall i :: 0 <= i < |Runs(log)| ==> Runs(log)[i].Ran? && Runs(log)[i].command == command
    requires forall i :: 0 <= i < |Sends(log)| ==> Sends(log)[i].Sent? && Sends(log)[i].command != command
    ensures Carrying(log, command) == Runs(log)
    decreases |log|
  {
    if log != [] {
      var front, e := log[..|log| - 1], log[|log| - 1];
      assert forall i :: 0 <= i < |Runs(front)| ==> Runs(front)[i] == Runs(log)[i];
      assert forall i :: 0 <= i < |Sends(front)| ==> Sends(front)[i] == Sends(log)[i];
      CarriedByRuns(front, command);
      if e.Ran? { assert Runs(log)[|Runs(front)|] == e; }
      if e.Sent? { assert Sends(log)[|Sends(front)|] == e; }
    }
  }

  /** What a guarded call may send besides its operation: RX_START if reception was on, and configurations. */
  predicate Aside(e: Event, m: Memory) { e.Sent? && (e.command.SendConfig? || (e.command == StartRx && m.rxStarted)) }

  lemma StorySends(story: Story, m: Memory, command: Command, hasReopener: bool, closed: bool, r: CallResult)
    requires Tells(story, m, command, hasReopener, closed, r)
    ensures forall i :: 0 <= i < |Sends(story.before)| ==> Aside(Sends(story.before)[i], m)
    ensures forall i :: 0 <= i < |Sends(story.repair)| ==> Aside(Sends(story.repair)[i], m)
    ensures Sends(story.Events()) == Sends(story.before) + Sends(story.repair)
  {
    hide Runs, Sends, CheckTells, Passed, LastTry, Aside, Repairs;
    var first := if story.first.None? then r else Done;
    CheckAside(story.before, m, hasReopener, closed, first);
    if story.first.Some? && story.first.value.failure.Some? {
      var left := Checkpoint(m, story);
      RepairSends(story.first.value.failure.value, left, hasReopener, closed, story.repair, r, story.second.Some?);
      forall i | 0 <= i < |Sends(story.repair)| ensures Aside(Sends(story.repair)[i], m) {
        AsideBefore(Sends(story.repair)[i], m, story.before);
      }
    } else {
      NothingDone();
    }
    OptSends(story.first);
    OptSends(story.second);
    Joined(story.before, Opt(story.first));
    Joined(story.before + Opt(story.first), story.repair);
    Joined(story.before + Opt(story.first) + story.repair, Opt(story.second));
  }

  lemma AsideBefore(e: Event, m: Memory, done: seq<Event>)
    requires Aside(e, Remember(m, done))
    ensures Aside(e, m)
  {
  }

  lemma CheckAside(done: seq<Event>, m: Memory, hasReopener: bool, closed: bool, r: CallResult)
    requires CheckTells(done, m, hasReopener, closed, r)
    ensures forall i :: 0 <= i < |Sends(done)| ==> Aside(Sends(done)[i], m)
  {
    hide CheckTells, Sends, LastTry;
    CheckSends(done, m, hasReopener, closed, r);
  }

  lemma OptSends(e: Option<Event>)
    requires e.Some? ==> e.value.Ran?
    ensures Sends(Opt(e)) == []
  {
    if e.Some? { assert [e.value][..0] == []; }
  }

  lemma RepairSends(
    e: Error, m: Memory, hasReopener: bool, closed: bool, repair: seq<Event>, r: CallResult, again: bool)
    requires Repairs(e, m, hasReopener, closed, repair, r, again)
    ensures forall i :: 0 <= i < |Sends(repair)| ==> Aside(Sends(repair)[i], m)
  {
    hide CheckTells, Passed, LastTry, Sends, Aside;
    if repair == [] {
      NothingDone();
    } else {
      var first := repair[0];
      assert repair == [first] + repair[1..];
      Joined([first], repair[1..]);
      OneEvent(first, m);
      if |repair| == 1 {
        NothingDone();
      } else {
        CheckAside(repair[1..], m, hasReopener, closed, if again then Done else r);
      }
    }
  }

  lemma OneEvent(e: Event, m: Memory)
    ensures Sends([e]) == if e.Sent? then [e] else []
    ensures e.Sent? && e.command.SendConfig? ==> Aside(e, m)
  {
    assert [e][..0] == [];
  }

  /** The operation runs at most twice, and the caller gets what the last run gave, unless the repair failed.
      A first run that fails with an OSError, with anything foreign, or for want of a configuration that was
      never cached, is the last thing that happens. And the operation's command goes out in these runs only:
      besides them nothing is sent but configurations and, if reception was on, RX_START. */
  lemma BoundedRetry(story: Story, m: Memory, command: Command, hasReopener: bool, closed: bool, r: CallResult)
    requires Tells(story, m, command, hasReopener, closed, r)
    ensures var runs, all := Runs(story.Events()), story.Events();
            && |runs| <= 2
            && (forall i :: 0 <= i < |runs| ==> runs[i].Ran? && runs[i].command == command)
            && (r == Done <==> runs != [] && runs[|runs| - 1].failure == None)
            && (r == Done ==> all[|all| - 1] == runs[|runs| - 1])
            && (|runs| == 2 ==> all[|all| - 1] == runs[1] && r == Ended(runs[1].failure))
            && (runs != [] && runs[0].failure.Some?
                && (var e := runs[0].failure.value;
                    !IsDonglora(e) || (e == NotConfigured && Checkpoint(m, story).config.None?)) ==>
                  |runs| == 1 && all[|all| - 1] == runs[0] && r == Raised(runs[0].failure.value))
            && (forall i :: 0 <= i < |Sends(all)| ==> Aside(Sends(all)[i], m))
            && (command == Transmit || (command == StartRx && !m.rxStarted) ==> Carrying(all, command) == runs)
  {
    hide Runs, Sends, Carrying, Reopened, CheckTells;
    StoryRuns(story);
    StorySends(story, m, command, hasReopener, closed, r);
    if command == Transmit || (command == StartRx && !m.rxStarted) {
      forall i | 0 <= i < |Sends(story.Events())| 
        ensures Sends(story.Events())[i].Sent? && Sends(story.Events())[i].command != command
      {
        assert Aside(Sends(story.Events())[i], m);
      }
      CarriedByRuns(story.Events(), command);
    }
  }

  /** A second run follows exactly the acknowledged re-sending of the cached configuration after NOT_CONFIGURED, and
      a passed liveness check after the session was found dead. */
  lemma SecondRunEarned(story: Story, m: Memory, command: Command, hasReopener: bool, closed: bool, r: CallResult)
    requires Tells(story, m, command, hasReopener, closed, r) && story.first.Some?
    ensures var left := Checkpoint(m, story);
            |Runs(story.Events())| == 2 <==>
              || (story.first == Some(Ran(left.session, command, Some(NotConfigured))) && left.config.Some?
                  && story.repair == [Sent(left.session, SendConfig(left.config.value), None)])
              || (story.first == Some(Ran(left.session, command, Some(OtherDonglora))) && hasReopener
                  && story.repair != [] && story.repair[0] == Asked(left.session, false)
                  && CheckTells(story.repair[1..], left, hasReopener, closed, Done))
  {
    hide Runs, Tries, Attempts, Course, Reopened, Passed;
    StoryRuns(story);
    if story.first.value.failure == Some(OtherDonglora) && story.second.None? && |story.repair| > 1 {
      OneResult(story.repair[1..], Checkpoint(m, story), hasReopener, closed, r);
    }
  }

  /** The first run goes to the session the liveness check left; the second to the same one after NOT_CONFIGURED,
      and otherwise to the one the repair left. */
  lemma RunSessions(story: Story, m: Memory, command: Command, hasReopener: bool, closed: bool, r: CallResult)
    requires Tells(story, m, command, hasReopener, closed, r) && story.first.Some?
    ensures var left := Checkpoint(m, story);
            && story.first == Some(Ran(left.session, command, story.first.value.failure))
            && (story.second.Some? ==>
                  var lost, failure := story.first.value.failure == Some(NotConfigured), story.second.value.failure;
                  story.second == Some(Ran(
                    if lost then left.session else Remember(left, story.repair).session, command, failure)))
  {
    hide Runs, Tries, Attempts, Course, CheckTells;
    if story.first.value.failure == Some(NotConfigured) && |story.repair| == 1 {
      assert story.repair == [story.repair[0]];
      NoTries(story.repair[0]);
      RememberNothing(story.repair, Checkpoint(m, story));
    }
  }

  /** A liveness check comes to one thing only. */
  lemma OneResult(done: seq<Event>, m: Memory, hasReopener: bool, closed: bool, r: CallResult)
    requires CheckTells(done, m, hasReopener, closed, r)
    ensures CheckTells(done, m, hasReopener, closed, Done) <==> r == Done
  {
    hide Attempts, Course, LastTry;
  }
}
