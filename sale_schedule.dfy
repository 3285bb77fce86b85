/** The wait for the sale to open, shared by `wait_until_start_time` in
    ticket_bot.py and test1.py and by the waiting part of `run` in main.py:
    one long sleep up to the preparation time, then a polling loop that sleeps
    15 s while the sale is more than 30 s away and a short step otherwise, then
    exactly one page refresh. Time is integer milliseconds on a `Clock` that
    only sleeping advances. */
module SaleSchedule {
  import opened Wrappers
  import opened Browser

  /** The coarse polling sleep and the distance above which it is used. */
  const CoarseSleepMs: nat := 15000
  const CoarseThresholdMs: int := 30000

  /** The fine polling sleep of ticket_bot.py (1 s) and of main.py and
      test1.py (0.5 s). */
  const TicketBotFineMs: nat := 1000
  const ScriptFineMs: nat := 500

  /** Milliseconds in one of the `prepare_minutes`. */
  const MinuteMs: int := 60000

  /** What the wait does: the browser and sleep calls in order, and the clock
      reading at which the page is refreshed. */
  datatype Schedule = Schedule(steps: seq<Action>, refreshAt: int)

  /** The sleep the polling loop takes when the sale is `diff` ms away. */
  function PollSleep(diff: int, fineMs: nat): nat {
    if diff > CoarseThresholdMs then CoarseSleepMs else fineMs
  }

  /** The `while True` polling loop started at clock reading `now`: refresh
      at the first reading not before `start`, otherwise sleep and read again. */
  function Polls(start: int, now: int, fineMs: nat): Schedule
    requires fineMs > 0
    decreases start - now
  {
    if start - now <= 0 then Schedule([Refresh], now)
    else
      var d := PollSleep(start - now, fineMs);
      var rest := Polls(start, now + d, fineMs);
      Schedule([Pause(d)] + rest.steps, rest.refreshAt)
  }

  /** The time the polling loop starts: after the long sleep, if there was one. */
  function PollStart(start: int, prepareMs: int, now: int): int {
    if now < start - prepareMs then start - prepareMs else now
  }

  /** The whole wait. Without a start time the page is refreshed at once; with
      one, a single sleep brings the clock to `start - prepareMs` when it is
      earlier than that, and then the polling loop runs. */
  function WaitPlan(start: Option<int>, prepareMs: int, now: int, fineMs: nat): Schedule
    requires fineMs > 0
  {
    match start
    case None => Schedule([Refresh], now)
    case Some(s) =>
      var ready := s - prepareMs;
      var long: seq<Action> := if now < ready then [Pause(ready - now)] else [];
      var polls := Polls(s, PollStart(s, prepareMs, now), fineMs);
      Schedule(long + polls.steps, polls.refreshAt)
  }

  /** Total milliseconds slept along a trace. */
  function SleptMs(t: seq<Action>): nat {
    if |t| == 0 then 0
    else (if t[0].Pause? then t[0].ms else 0) + SleptMs(t[1..])
  }

  lemma {:induction false} SleptMsAppend(t: seq<Action>, u: seq<Action>)
    ensures SleptMs(t + u) == SleptMs(t) + SleptMs(u)
    decreases |t|
  {
    if t == [] {
      assert t + u == u;
    } else {
      SleptMsAppend(t[1..], u);
      assert (t + u)[1..] == t[1..] + u;
    }
  }

  /** A poll sleep: the coarse step or the fine one. */
  predicate IsPollSleep(a: Action, fineMs: nat) {
    a == Pause(CoarseSleepMs) || a == Pause(fineMs)
  }

  /** A trace that, from index `from` on, holds only poll sleeps and then
      one refresh as its last step, the only refresh of the trace. */
  ghost predicate PollTail(t: seq<Action>, from: nat, fineMs: nat) {
    |t| >= from + 1 && t[|t| - 1] == Refresh
    && (forall j :: from <= j < |t| - 1 ==> IsPollSleep(t[j], fineMs))
    && Occurrences(t, Refresh) == 1
  }

  /** One sleep `x` put in front of a polling trace: only poll sleeps after
      `x`, and the trace still ends with its only refresh. */
  lemma SleepBefore(x: Action, p: seq<Action>, fineMs: nat)
    requires x.Pause? && PollTail(p, 0, fineMs)
    ensures var t := [x] + p;
      t[0] == x && PollTail(t, 1, fineMs) && SleptMs(t) == x.ms + SleptMs(p)
  {
    var t := [x] + p;
    forall j | 1 <= j < |t| - 1 ensures IsPollSleep(t[j], fineMs) {
      assert t[j] == p[j - 1];
    }
    assert t[|t| - 1] == p[|p| - 1];
    OccurrencesAppend([x], p, Refresh);
    OccurrencesOne(x, Refresh);
    SleptMsAppend([x], p);
  }

  /** The polling loop: only poll sleeps, then one refresh as its last step;
      the refresh comes exactly when the clock, advanced by every sleep, is no
      longer before `start`; and nothing is slept once the sale is open. */
  lemma {:induction false} PollsShape(start: int, now: int, fineMs: nat)
    requires fineMs > 0
    ensures var p := Polls(start, now, fineMs);
      PollTail(p.steps, 0, fineMs)
      && p.refreshAt == now + SleptMs(p.steps)
      && p.refreshAt >= start
      && (start <= now ==> p == Schedule([Refresh], now))
    decreases start - now
  {
    if start - now > 0 {
      var d := PollSleep(start - now, fineMs);
      var rest := Polls(start, now + d, fineMs);
      PollsShape(start, now + d, fineMs);
      assert Polls(start, now, fineMs) == Schedule([Pause(d)] + rest.steps, rest.refreshAt);
      SleepBefore(Pause(d), rest.steps, fineMs);
    } else {
      OccurrencesOne(Refresh, Refresh);
    }
  }

  /** Landing precision: a polling loop that starts before `start` refreshes
      no earlier than `start` and less than one fine step after it. */
  lemma {:induction false} PollsLandOnTime(start: int, now: int, fineMs: nat)
    requires fineMs > 0 && now < start
    ensures start <= Polls(start, now, fineMs).refreshAt < start + fineMs
    decreases start - now
  {
    var d := PollSleep(start - now, fineMs);
    if now + d < start {
      PollsLandOnTime(start, now + d, fineMs);
    } else {
      assert d == fineMs;
    }
  }

  /** The coarse step never overshoots: the clock reading after any 15 s
      sleep of the polling loop, which is every sleep up to and including it
      added to the start reading, is still more than 15 s before the sale
      opens. */
  lemma {:induction false} CoarseSleepsEndBeforeStart(start: int, now: int, fineMs: nat, j: nat)
    requires fineMs > 0 && fineMs != CoarseSleepMs
    requires j < |Polls(start, now, fineMs).steps| && Polls(start, now, fineMs).steps[j] == Pause(CoarseSleepMs)
    ensures now + SleptMs(Polls(start, now, fineMs).steps[..j + 1]) < start - CoarseSleepMs
    decreases start - now
  {
    if start - now <= 0 {
      assert false;
    }
    var d := PollSleep(start - now, fineMs);
    var rest := Polls(start, now + d, fineMs).steps;
    assert Polls(start, now, fineMs).steps == [Pause(d)] + rest;
    SleptMsPrefixCons(Pause(d), rest, j);
    if j > 0 {
      assert rest[j - 1] == Pause(CoarseSleepMs);
      CoarseSleepsEndBeforeStart(start, now + d, fineMs, j - 1);
    }
  }

  /** The time slept over a prefix of a trace that starts with `x`. */
  lemma SleptMsPrefixCons(x: Action, r: seq<Action>, j: nat)
    requires j <= |r|
    ensures SleptMs(([x] + r)[..j + 1]) == (if x.Pause? then x.ms else 0) + (if j == 0 then 0 else SleptMs(r[..j]))
  {
    assert ([x] + r)[..j + 1] == [x] + r[..j];
    assert ([x] + r[..j])[1..] == r[..j];
  }

  /** Without a start time: one refresh, no sleep, and the clock is untouched. */
  lemma NoStartTimeRefreshesAtOnce(prepareMs: int, now: int, fineMs: nat)
    requires fineMs > 0
    ensures WaitPlan(None, prepareMs, now, fineMs) == Schedule([Refresh], now)
  {
  }

  /** A trace without sleeps takes no time. */
  lemma {:induction false} SleptMsNoPause(t: seq<Action>)
    requires forall x :: x in t ==> !x.Pause?
    ensures SleptMs(t) == 0
    decreases |t|
  {
    if |t| > 0 {
      assert forall x :: x in t[1..] ==> x in t;
      SleptMsNoPause(t[1..]);
    }
  }

  /** With a start time: at most one long sleep, taken first and only when the
      clock is before the preparation time; after it only poll sleeps; exactly
      one refresh, as the last step, once the sale is open; and the refresh
      happens at the clock reading reached by all the sleeps. */
  lemma WaitShape(start: int, prepareMs: int, now: int, fineMs: nat)
    requires fineMs > 0
    ensures var w := WaitPlan(Some(start), prepareMs, now, fineMs);
      PollTail(w.steps, if now < start - prepareMs then 1 else 0, fineMs)
      && (now < start - prepareMs ==> w.steps[0] == Pause(start - prepareMs - now))
      && w.refreshAt == now + SleptMs(w.steps)
      && w.refreshAt >= start
  {
    var ready := start - prepareMs;
    var t0 := PollStart(start, prepareMs, now);
    var polls := Polls(start, t0, fineMs);
    var w := WaitPlan(Some(start), prepareMs, now, fineMs);
    PollsShape(start, t0, fineMs);
    if now < ready {
      assert w == Schedule([Pause(ready - now)] + polls.steps, polls.refreshAt);
      SleepBefore(Pause(ready - now), polls.steps, fineMs);
      assert PollTail(w.steps, 1, fineMs) && w.refreshAt == now + SleptMs(w.steps);
    } else {
      assert [] + polls.steps == polls.steps;
      assert w == polls;
    }
  }
  /** Waiting, with or without a start time, moves the clock by exactly what
      it sleeps. */
  lemma WaitClock(start: Option<int>, prepareMs: int, now: int, fineMs: nat)
    requires fineMs > 0
    ensures WaitPlan(start, prepareMs, now, fineMs).refreshAt == now + SleptMs(WaitPlan(start, prepareMs, now, fineMs).steps)
  {
    if start.Some? {
      WaitShape(start.value, prepareMs, now, fineMs);
    } else {
      assert SleptMs([Refresh]) == 0;
    }
  }


  /** The polling loop calls nothing but sleeps and the refresh. */
  lemma {:induction false} PollsOnlySleepsAndRefresh(start: int, now: int, fineMs: nat)
    requires fineMs > 0
    ensures forall a :: a in Polls(start, now, fineMs).steps ==> a.Pause? || a == Refresh
    decreases start - now
  {
    if start - now > 0 {
      var d := PollSleep(start - now, fineMs);
      PollsOnlySleepsAndRefresh(start, now + d, fineMs);
      assert Polls(start, now, fineMs).steps == [Pause(d)] + Polls(start, now + d, fineMs).steps;
    }
  }

  /** The whole wait calls nothing but sleeps and the refresh: in particular
      it never touches the page otherwise. */
  lemma WaitOnlySleepsAndRefresh(start: Option<int>, prepareMs: int, now: int, fineMs: nat)
    requires fineMs > 0
    ensures forall a :: a in WaitPlan(start, prepareMs, now, fineMs).steps ==> a.Pause? || a == Refresh
  {
    if start.Some? {
      PollsOnlySleepsAndRefresh(start.value, PollStart(start.value, prepareMs, now), fineMs);
    }
  }

  /** When the preparation time is still ahead of the sale, the wait refreshes
      within one fine step after the sale opens. */
  lemma WaitLandsOnTime(start: int, prepareMs: int, now: int, fineMs: nat)
    requires fineMs > 0
    requires prepareMs > 0 && now < start
    ensures start <= WaitPlan(Some(start), prepareMs, now, fineMs).refreshAt < start + fineMs
  {
    PollsLandOnTime(start, PollStart(start, prepareMs, now), fineMs);
  }

  /** The wait as the sources run it, on the clock. */
  method WaitForSale(clock: Clock, start: Option<int>, prepareMs: int, fineMs: nat) returns (trace: seq<Action>)
    requires fineMs > 0
    modifies clock
    ensures Schedule(trace, clock.now) == WaitPlan(start, prepareMs, old(clock.now), fineMs)
  {
    if start.None? {
      return [Refresh];
    }
    var s := start.value;
    var ready := s - prepareMs;
    trace := [];
    if clock.now < ready {
      trace := [Pause(ready - clock.now)];
      clock.Sleep(ready - clock.now);
    }
    ghost var t0 := clock.now;
    ghost var prefix := trace;
    assert WaitPlan(start, prepareMs, old(clock.now), fineMs)
        == Schedule(prefix + Polls(s, t0, fineMs).steps, Polls(s, t0, fineMs).refreshAt);
    while s - clock.now > 0
      invariant WaitPlan(start, prepareMs, old(clock.now), fineMs)
             == Schedule(trace + Polls(s, clock.now, fineMs).steps, Polls(s, clock.now, fineMs).refreshAt)
      decreases s - clock.now
    {
      var d := PollSleep(s - clock.now, fineMs);
      ghost var before := clock.now;
      clock.Sleep(d);
      assert Polls(s, before, fineMs).steps == [Pause(d)] + Polls(s, clock.now, fineMs).steps;
      AppendAssociative(trace, [Pause(d)], Polls(s, clock.now, fineMs).steps);
      trace := trace + [Pause(d)];
    }
    trace := trace + [Refresh];
  }
}
