/** What recovery and the dongle's calls come to, read off the log by position. */
module Outcomes {
  import opened Bytes
  import opened Recovery

  /** Seconds to wait after the failed attempt number `n`, counting from zero. */
  function WaitAfter(n: nat): real {
    match n
    case 0 => 0.5
    case 1 => 0.75
    case 2 => 1.125
    case 3 => 1.6875
    case _ => 2.0
  }

  lemma WaitIs(n: nat)
    ensures BackOffAt(n) == WaitAfter(n)
  {
    hide BackOffAt;
    BackOffBounds(0, n);
  }

  /** Attempt number `k` of a recovery failed with an error of the library or of the system, and was slept off. */
  predicate SleptOff(done: seq<Event>, k: nat) {
    && 2 * k + 2 < |done|
    && (done[2 * k + 1] == Tried(Failed(NotConfigured)) || done[2 * k + 1] == Tried(Failed(OtherDonglora))
        || done[2 * k + 1] == Tried(Failed(OsFailure)))
    && done[2 * k + 2] == Waited(WaitAfter(k))
  }

  lemma WaitOf(done: seq<Event>, k: nat)
    requires SleptOff(done, k)
    ensures 2 * k + 2 < |done| && done[2 * k + 2] == Waited(WaitAfter(k))
  {
  }

  lemma {:induction false} AttemptedAt(tries: seq<Opening>)
    requires AllCaught(tries)
    ensures |Attempted(tries)| == 2 * |tries|
    ensures forall k :: 0 <= k < |tries| ==>
              Attempted(tries)[2 * k] == Tried(tries[k]) && Attempted(tries)[2 * k + 1] == Waited(WaitAfter(k))
    decreases |tries|
  {
    if tries != [] {
      var n := |tries| - 1;
      AttemptedAt(tries[..n]);
      WaitIs(n);
      forall k | 0 <= k < |tries|
        ensures Attempted(tries)[2 * k] == Tried(tries[k]) && Attempted(tries)[2 * k + 1] == Waited(WaitAfter(k))
      {
        if k < n { assert tries[..n][k] == tries[k]; }
      }
    }
  }

  /** How the loop inside a recovery goes, by position; `done` starts with the event before the loop. */
  lemma CourseAt(done: seq<Event>, tried: seq<Event>) returns (n: nat)
    requires Course(tried) && done != [] && tried <= done[1..]
    ensures 2 * n <= |tried| <= 2 * n + 1 && forall k :: 0 <= k < n ==> SleptOff(done, k)
    ensures |Tries(tried)| == |tried| - n
    ensures forall k :: 0 <= k < |Tries(tried)| ==> tried[2 * k] == Tried(Tries(tried)[k])
    ensures |tried| == 2 * n ==> !Reopened(tried) && LastTry(tried) != Some(Failed(Foreign))
    ensures |tried| == 2 * n + 1 ==>
              LastTry(tried).Some? && tried[2 * n] == Tried(LastTry(tried).value)
              && (LastTry(tried) == Some(Failed(Foreign)) || LastTry(tried).value.Opened?)
  {
    hide Tries, Attempted, SleptOff;
    var tries := Tries(tried);
    n := if tries != [] && !Caught(tries[|tries| - 1]) then |tries| - 1 else |tries|;
    assert tries[..|tries|] == tries;
    AttemptedAt(tries[..n]);
    AttemptsSleptOff(done, tried, tries[..n]);
    forall k | 0 <= k < |tries| ensures tried[2 * k] == Tried(tries[k]) {
      if k < n { assert tries[..n][k] == tries[k]; }
    }
  }

  lemma AttemptsSleptOff(done: seq<Event>, tried: seq<Event>, tries: seq<Opening>)
    requires AllCaught(tries) && done != [] && tried <= done[1..] && Attempted(tries) <= tried
    ensures 2 * |tries| <= |tried| && forall k :: 0 <= k < |tries| ==> SleptOff(done, k)
    ensures forall k :: 0 <= k < |tries| ==> tried[2 * k] == Tried(tries[k])
  {
    hide Attempted;
    AttemptedAt(tries);
    forall k | 0 <= k < |tries| ensures SleptOff(done, k) && tried[2 * k] == Tried(tries[k]) {
      assert Caught(tries[k]) && Attempted(tries)[2 * k + 1] == Waited(WaitAfter(k));
      assert tried[2 * k] == done[2 * k + 1] && tried[2 * k + 1] == done[2 * k + 2];
    }
  }

  /** The part of a recovery that its loop did. */
  lemma LoopOf(done: seq<Event>, m: Memory, closed: bool, r: CallResult) returns (tried: seq<Event>)
    requires RecoveryTells(done, m, closed, r)
    ensures done != [] && tried <= done[1..] && |done| == 1 + |tried| + (if Restarts(done, m) then 1 else 0)
    ensures Course(tried) && Tries(done) == Tries(tried) && LastTry(done) == LastTry(tried)
  {
    hide Course, Attempts, Tries, LastTry;
    if Restarts(done, m) {
      tried := done[1..|done| - 1];
      assert done == [done[0]] + tried + [done[|done| - 1]];
      SentLast([done[0]] + tried, m.next, StartRx, done[|done| - 1].failure);
    } else {
      tried := done[1..];
      assert done == [done[0]] + tried;
    }
    LookedFirst(done[0], tried);
  }

  /** What is remembered once session `m.next` is in place: its info; the configuration the reopener applied, or if
      it applied none the one from before; and whether reception is on. */
  predicate InPlace(left: Memory, m: Memory, o: Opening, rxStarted: bool)
    requires o.Opened?
  {
    && left.session == m.next && left.next == m.next + 1 && left.info == o.info
    && (o.applied == None ==> left.config == m.config) && (o.applied.Some? ==> left.config == o.applied)
    && left.rxStarted == rxStarted
  }

  /** A recovery closes the old session, then sleeps off `n` failed attempts. It may end there, because the dongle
      was closed or the reopener never returned; or an error it does not catch ends it; or a new session comes, and
      reception, if it was on, is restarted there. */
  lemma RecoveryOutcome(done: seq<Event>, m: Memory, closed: bool, r: CallResult) returns (n: nat)
    requires RecoveryTells(done, m, closed, r)
    ensures |done| > 2 * n && done[0] == Shut(m.session) && forall k :: 0 <= k < n ==> SleptOff(done, k)
    ensures var end := 2 * n + 1;
            var left := Remember(m, done);
            if |done| == end then
              left == m && r == (if closed then Done else StillTrying)
            else if done[end] == Tried(Failed(Foreign)) then
              left == m && r == Raised(Foreign) && |done| == end + 1
            else
              && done[end].Tried? && done[end].opening.Opened?
              && if !m.rxStarted then
                   InPlace(left, m, done[end].opening, false) && r == Done && |done| == end + 1
                 else
                   && |done| == end + 2 && done[end + 1].Sent?
                   && var f := done[end + 1].failure;
                      && done[end + 1] == Sent(m.next, StartRx, f)
                      && (f == None ==> InPlace(left, m, done[end].opening, true) && r == Done)
                      && (f == Some(NotConfigured) || f == Some(OtherDonglora) ==>
                            InPlace(left, m, done[end].opening, false) && r == Done)
                      && (f == Some(OsFailure) || f == Some(Foreign) ==>
                            InPlace(left, m, done[end].opening, true) && r == Raised(f.value))
  {
    hide Course, Attempts, Tries, SleptOff;
    var tried := LoopOf(done, m, closed, r);
    n := CourseAt(done, tried);
  }
  lemma SleptOffOnly(done: seq<Event>, n: nat)
    requires forall k :: 0 <= k < n ==> SleptOff(done, k)
    ensures forall i :: 0 < i < 2 * n + 1 && i < |done| ==> !(done[i].Tried? && done[i].opening.Opened?)
  {
    forall i | 0 < i < 2 * n + 1 && i < |done| ensures !(done[i].Tried? && done[i].opening.Opened?) {
      assert SleptOff(done, (i - 1) / 2);
    }
  }

  /** The reopener's session is in place after a recovery in which it yielded one; otherwise nothing has changed. */
  lemma OpenedIn(done: seq<Event>, m: Memory, closed: bool, r: CallResult)
    requires RecoveryTells(done, m, closed, r)
    ensures var left := Remember(m, done);
            && (forall o: Opening :: o.Opened? && Tried(o) in done ==> InPlace(left, m, o, left.rxStarted))
            && ((forall o: Opening :: o.Opened? ==> Tried(o) !in done) ==> left == m)
            && ((exists o: Opening :: o.Opened? && Tried(o) in done) && m.rxStarted ==>
                  var e := done[|done| - 1];
                  && e.Sent? && e == Sent(left.session, StartRx, e.failure)
                  && (left.rxStarted <==> e.failure != Some(NotConfigured) && e.failure != Some(OtherDonglora)))
            && (left.rxStarted ==> m.rxStarted)
  {
    hide RecoveryTells, Remember;
    var n := RecoveryOutcome(done, m, closed, r);
    var left, end := Remember(m, done), 2 * n + 1;
    SleptOffOnly(done, n);
    forall o: Opening | o.Opened? && Tried(o) in done ensures |done| > end && done[end] == Tried(o) {
      var i :| 0 <= i < |done| && done[i] == Tried(o);
    }
    if |done| > end && done[end].opening.Opened? {
      assert Tried(done[end].opening) in done;
      if m.rxStarted {
        match done[end + 1].failure
        case None =>
        case Some(NotConfigured) =>
        case Some(OtherDonglora) =>
        case Some(OsFailure) =>
        case Some(Foreign) =>
      }
    }
  }

  /** A failure that the recovery loop catches, and an answer that ends the loop. */
  predicate Soft(o: Opening) {
    o == Failed(NotConfigured) || o == Failed(OtherDonglora) || o == Failed(OsFailure)
  }

  predicate Final(o: Opening) { o.Opened? || o == Failed(Foreign) }

  /** While nobody closes the dongle, a recovery tries what the reopener has to offer, one after the other, up to
      the first answer that ends the loop, and does not stop before. */
  lemma RecoverySettles(
    done: seq<Event>, m: Memory, r: CallResult, openings: seq<Opening>, rest: seq<Opening>, n: nat)
    requires RecoveryTells(done, m, false, r)
    requires openings == Tries(done) + rest && (r == StillTrying ==> rest == [])
    requires n <= |openings| && (forall k :: 0 <= k < n ==> Soft(openings[k]))
    requires n < |openings| ==> Final(openings[n])
    ensures |done| > 2 * n && forall k :: 0 <= k < n ==> SleptOff(done, k) && done[2 * k + 1] == Tried(openings[k])
    ensures n < |openings| ==> |done| > 2 * n + 1 && done[2 * n + 1] == Tried(openings[n])
    ensures n == |openings| ==> |done| == 2 * n + 1 && r == StillTrying
  {
    hide Course, Attempts, Tries, SleptOff;
    var tried := LoopOf(done, m, false, r);
    var k := CourseAt(done, tried);
    Slept(done, tried, openings, rest, k);
    assert k == n;
  }

  /** The loop of a recovery is as long as the failures it slept off say. */
  lemma LoopLength(done: seq<Event>, openings: seq<Opening>, k: nat, n: nat)
    requires n < |openings| && 2 * n + 1 < |done| && done[2 * n + 1] == Tried(openings[n]) && openings[n].Opened?
    requires forall i :: 0 <= i < n ==> SleptOff(done, i)
    requires forall i :: 0 <= i < k ==> SleptOff(done, i)
    requires |done| == 2 * k + 1 || (2 * k + 1 < |done| && (!done[2 * k + 1].Tried? || Final(done[2 * k + 1].opening)))
    ensures k == n
  {
    SleptOffOnly(done, k);
    assert k < n ==> SleptOff(done, k);
  }

  lemma Slept(done: seq<Event>, tried: seq<Event>, openings: seq<Opening>, rest: seq<Opening>, n: nat)
    requires openings == Tries(tried) + rest && done != [] && tried <= done[1..] && n <= |Tries(tried)|
    requires forall k :: 0 <= k < |Tries(tried)| ==> 2 * k < |tried| && tried[2 * k] == Tried(Tries(tried)[k])
    requires forall k :: 0 <= k < n ==> SleptOff(done, k)
    ensures forall k :: 0 <= k < |Tries(tried)| ==> 2 * k + 1 < |done| && done[2 * k + 1] == Tried(openings[k])
    ensures forall k :: 0 <= k < n ==> Soft(openings[k])
  {
    hide Tries;
    forall k | 0 <= k < |Tries(tried)|
      ensures 2 * k + 1 < |done| && done[2 * k + 1] == Tried(openings[k]) && (k < n ==> Soft(openings[k]))
    {
      assert tried[2 * k] == done[2 * k + 1];
      assert openings[k] == Tries(tried)[k];
      assert k < n ==> SleptOff(done, k);
    }
  }

  // ----- liveness checks

  /** A liveness check looks at the session and is done if that lives. Without a reopener a dead one is an error;
      with one it is looked at again, under the lock, and if still dead recovered. */
  lemma CheckOutcome(done: seq<Event>, m: Memory, hasReopener: bool, closed: bool, r: CallResult)
    requires CheckTells(done, m, hasReopener, closed, r)
    ensures done != [] && done[0].Asked? && done[0] == Asked(m.session, done[0].alive)
    ensures var left := Remember(m, done);
            if done[0].alive then
              |done| == 1 && r == Done && left == m
            else if !hasReopener then
              |done| == 1 && r == Raised(OtherDonglora) && left == m
            else
              && |done| > 1 && done[1].Asked? && done[1] == Asked(m.session, done[1].alive)
              && if done[1].alive then
                   |done| == 2 && r == Done && left == m
                 else
                   RecoveryTells(done[2..], m, closed, r) && left == Remember(m, done[2..])
  {
    hide RecoveryTells, Remember, Tries;
    NoTries(done[0]);
    RememberNothing([done[0]], m);
    if |done| > 1 {
      NoTries(done[1]);
      RememberNothing([done[1]], m);
      assert done == [done[0]] + done[1..] && done[1..] == [done[1]] + done[2..];
      RememberLater(done[0], done[1..], m);
      assert done[1..][1..] == done[2..];
      if done[1].alive {
        assert done[1..] == [done[1]];
      } else {
        RecoveryIsSomething(done[2..], m, closed, r);
        RememberLater(done[1], done[2..], m);
      }
    } else {
      assert done == [done[0]];
    }
  }

  /** After an empty wait `recv` looks at the session; it leaves a live one alone and has a dead one checked. */
  lemma EmptyWait(done: seq<Event>, m: Memory, hasReopener: bool, closed: bool, r: CallResult)
    requires Replaces(done, m, hasReopener, closed, r)
    ensures done != [] && done[0].Asked? && done[0] == Asked(m.session, done[0].alive)
    ensures if done[0].alive then |done| == 1 && r == Done && Remember(m, done) == m
            else CheckTells(done[1..], m, hasReopener, closed, r) && Remember(m, done) == Remember(m, done[1..])
  {
    hide CheckTells, Remember, Tries;
    if done[0].alive {
      assert done == [done[0]];
      NoTries(done[0]);
      RememberNothing(done, m);
    } else {
      assert done == [done[0]] + done[1..];
      CheckIsSomething(done[1..], m, hasReopener, closed, r);
      RememberLater(done[0], done[1..], m);
    }
  }

  lemma CheckIsSomething(done: seq<Event>, m: Memory, hasReopener: bool, closed: bool, r: CallResult)
    requires CheckTells(done, m, hasReopener, closed, r)
    ensures done != []
  {
  }

  /** A command sent without a guard goes out once, to the session a passed liveness check has left, and its
      failure is the failure of the call. */
  lemma PlainOutcome(
    checked: seq<Event>, sent: Option<Event>, m: Memory, command: Command, hasReopener: bool, closed: bool,
    r: CallResult)
    returns (c: CallResult)
    requires PlainTells(checked, sent, m, command, hasReopener, closed, r)
    ensures CheckTells(checked, m, hasReopener, closed, c)
    ensures if c != Done then sent == None && r == c
            else
              && sent.Some? && sent.value.Sent?
              && var f := sent.value.failure;
                 && sent.value == Sent(Remember(m, checked).session, command, f)
                 && r == if f.Some? then Raised(f.value) else Done
  {
    hide CheckTells, Remember;
    c := if sent == None then r else Done;
  }

  /** What `recv` does before it waits: a liveness check; nothing more if that failed or reception is on then;
      otherwise a guarded RX_START. */
  lemma BeforeWait(
    checked: seq<Event>, story: Story, m: Memory, hasReopener: bool, closed: bool, r: CallResult, ready: Memory)
    returns (c: CallResult)
    requires ReadyTells(checked, story, m, hasReopener, closed, r, ready)
    ensures CheckTells(checked, m, hasReopener, closed, c)
    ensures var left := Remember(m, checked);
            if c != Done || left.rxStarted then
              r == c && story.Events() == [] && ready == left
            else
              Tells(story, left, StartRx, hasReopener, closed, r) && story.Events() != []
              && ready == Remember(Remember(left, story.before), story.repair).(rxStarted := r == Done)
  {
    hide CheckTells, Tells, Remember;
    c := if story.Events() == [] then r else Done;
  }

  // ----- guarded calls

  /** If the operation fails with NOT_CONFIGURED and a configuration is cached, that is sent to the same session;
      once it is acknowledged the operation runs again, and a failure to send it is the failure of the call. */
  lemma LostMidCall(story: Story, m: Memory, command: Command, hasReopener: bool, closed: bool, r: CallResult)
    requires Tells(story, m, command, hasReopener, closed, r)
    requires story.first.Some? && story.first.value.failure == Some(NotConfigured)
    ensures var all, k, left := story.Events(), |story.before|, Remember(m, story.before);
            && |all| > k && all[k] == Ran(left.session, command, Some(NotConfigured))
            && (left.config == None ==> |all| == k + 1 && r == Raised(NotConfigured))
            && (left.config.Some? ==>
                  && |all| > k + 1 && all[k + 1].Sent?
                  && var f := all[k + 1].failure;
                     && all[k + 1] == Sent(left.session, SendConfig(left.config.value), f)
                     && (f.Some? ==> |all| == k + 2 && r == Raised(f.value))
                     && (f == None ==>
                           && |all| == k + 3 && all[k + 2].Ran?
                           && all[k + 2] == Ran(left.session, command, all[k + 2].failure)
                           && r == Ended(all[k + 2].failure)))
  {
    hide Runs, CheckTells, Passed, Remember;
    var left := Remember(m, story.before);
    if left.config.Some? {
      assert story.repair == [story.repair[0]];
      NoTries(story.repair[0]);
      RememberNothing(story.repair, left);
    }
  }

  /** If the session is dead after the operation failed with another library error, and there is a reopener, a
      liveness check `check` follows, which comes to `c`; and exactly if it is passed, the operation runs again, on
      the session that is then in place. In all other cases the error is the failure of the call. */
  lemma DiedMidCall(
    world: World, start: seq<Event>, story: Story, m: Memory, command: Command, hasReopener: bool, closed: bool,
    r: CallResult)
    returns (check: seq<Event>, c: CallResult)
    requires Tells(story, m, command, hasReopener, closed, r)
    requires world.Truthful() && start + story.Events() <= world.log
    requires story.first.Some? && story.first.value.failure == Some(OtherDonglora)
    ensures var all, k, left := story.Events(), |story.before|, Remember(m, story.before);
            var alive := world.alive(|start| + k + 1);
            && |all| > k + 1 && all[k] == Ran(left.session, command, Some(OtherDonglora))
            && all[k + 1] == Asked(left.session, alive)
            && if alive || !hasReopener then
                 |all| == k + 2 && r == Raised(OtherDonglora) && |Runs(all)| == 1
               else
                 && CheckTells(check, left, hasReopener, closed, c) && story.repair == [all[k + 1]] + check
                 && Remember(left, story.repair) == Remember(left, check)
                 && if c != Done then
                      all == all[..k + 2] + check && r == c && |Runs(all)| == 1
                    else
                      && |Runs(all)| == 2 && all[|all| - 1].Ran?
                      && var second := Ran(Remember(left, check).session, command, all[|all| - 1].failure);
                         all == all[..k + 2] + check + [second] && r == Ended(second.failure)
  {
    hide Runs, CheckTells, Passed, Remember, World.Truthful;
    var all, k, left := story.Events(), |story.before|, Remember(m, story.before);
    StoryRuns(story);
    check, c := story.repair[1..], if story.second.Some? then Done else r;
    AnswerAt(world, start, all, k + 1);
    assert all[k + 1] == story.repair[0];
    assert story.repair == [story.repair[0]] + check;
    assert all[..k + 2] == story.before + Opt(story.first) + [story.repair[0]];
    if !story.repair[0].alive && hasReopener {
      CheckIsSomething(check, left, hasReopener, closed, c);
      RememberLater(story.repair[0], check, left);
      assert all == all[..k + 2] + check + Opt(story.second);
    }
  }

  lemma AnswerAt(world: World, start: seq<Event>, events: seq<Event>, k: nat)
    requires world.Truthful() && start + events <= world.log && k < |events|
    ensures events[k].Asked? ==> events[k].alive == world.alive(|start| + k)
    ensures events[k].Ran? || events[k].Sent? ==> events[k].failure == world.failures(|start| + k)
  {
    hide Tries;
    assert events[k] == (start + events)[|start| + k] == world.log[|start| + k];
  }

  // ----- the keepalive thread

  /** A turn of the keepalive thread: it has a dead session checked if there is a reopener, and drops the errors
      of the library; otherwise it pings, if the line has been idle, and answers NOT_CONFIGURED with the cached
      configuration, whatever that comes to. */
  lemma TurnOutcome(
    done: seq<Event>, m: Memory, idle: bool, hasReopener: bool, closed: bool, marked: bool, r: CallResult)
    returns (c: CallResult)
    requires TurnTells(done, m, idle, hasReopener, closed, marked, r)
    ensures done != [] && done[0].Asked? && done[0] == Asked(m.session, done[0].alive)
    ensures if !done[0].alive && hasReopener then
              && CheckTells(done[1..], m, hasReopener, closed, c) && !marked
              && r == (if c == Raised(NotConfigured) || c == Raised(OtherDonglora) then Done else c)
              && Remember(m, done) == Remember(m, done[1..])
            else
              && r == Done && Remember(m, done) == m
              && if !idle then |done| == 1 && !marked
                 else
                   && |done| > 1 && done[1].Sent? && done[1] == Sent(m.session, SendPing, done[1].failure)
                   && marked == (done[1].failure == None)
                   && if done[1].failure == Some(NotConfigured) && m.config.Some? then
                        && |done| == 3 && done[2].Sent?
                        && done[2] == Sent(m.session, SendConfig(m.config.value), done[2].failure)
                      else |done| == 2
  {
    hide CheckTells, Remember, Tries;
    var first := done[0];
    assert done == [first] + done[1..];
    c := r;
    if !first.alive && hasReopener {
      c :| CheckTells(done[1..], m, hasReopener, closed, c) && r == Swallowed(c);
      CheckIsSomething(done[1..], m, hasReopener, closed, c);
      RememberLater(first, done[1..], m);
    } else {
      NothingTriedIn(done);
      RememberNothing(done, m);
    }
  }

  lemma {:induction false} NothingTriedIn(done: seq<Event>)
    requires forall i :: 0 <= i < |done| ==> !done[i].Tried?
    ensures Tries(done) == []
    decreases |done|
  {
    if done != [] { NothingTriedIn(done[..|done| - 1]); }
  }

  // ----- reception

  /** Event `e` tells that `session` acknowledged RX_START; that it acknowledged what ends reception. */
  predicate StartsIt(e: Event, session: nat) {
    e == Ran(session, StartRx, None) || e == Sent(session, StartRx, None)
  }

  predicate EndsIt(e: Event, session: nat) {
    && (e.Ran? || e.Sent?) && e.session == session && e.failure == None
    && (e.command == StopRx || e.command.SendConfig?)
  }

  /** RX_START was acknowledged as event number `i`, and nothing that ends reception after it. */
  predicate OnSince(log: seq<Event>, session: nat, i: nat) {
    i < |log| && StartsIt(log[i], session) && forall j :: i < j < |log| ==> !EndsIt(log[j], session)
  }

  /** As far as acknowledgements tell, a radio is receiving if and only if there is such an event. */
  lemma {:induction false} ListeningMeans(log: seq<Event>, session: nat)
    ensures Listening(log, session) <==> exists i :: OnSince(log, session, i)
    decreases |log|
  {
    if log != [] {
      var n := |log| - 1;
      var before := log[..n];
      ListeningMeans(before, session);
      forall i | 0 <= i < n
        ensures OnSince(log, session, i) <==> OnSince(before, session, i) && !EndsIt(log[n], session)
      {
        assert forall j :: 0 <= j < n ==> before[j] == log[j];
      }
      assert OnSince(log, session, n) <==> StartsIt(log[n], session);
    }
  }
}
