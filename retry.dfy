/** The generic `retry` decorator of utils/retry.py: call the wrapped
    function up to `max_attempts` times, sleeping `delay` between caught
    failures, and re-raise the last one when every attempt has failed. The
    wrapped function is an oracle: `calls(k)` is what attempt `k` does. */
module RetryDecorator {

  /** What one call of the wrapped function does: return a value, raise an
      exception listed in `exceptions`, or raise any other exception. */
  datatype Call<T> = Value(v: T) | Caught(e: string) | Uncaught(e: string)

  /** What the wrapper does, in order: call the function (attempt number) or
      sleep (`delay` in milliseconds). */
  datatype Event = Called(attempt: nat) | Slept(ms: nat)

  /** How the wrapper ends: with the function's value, with None after a loop
      that never ran, or by raising. */
  datatype Outcome<T> = Returned(value: T) | ReturnedNone | Raised(error: string)

  datatype WrapperReport<T> = WrapperReport(outcome: Outcome<T>, events: seq<Event>)

  /** The wrapper's loop from attempt `k` on. */
  function WrapperFrom<T>(maxAttempts: int, delay: nat, calls: nat -> Call<T>, k: nat): WrapperReport<T>
    requires k >= 1
    decreases maxAttempts + 1 - k
  {
    if k > maxAttempts then WrapperReport(ReturnedNone, [])
    else match calls(k)
      case Value(v) => WrapperReport(Returned(v), [Called(k)])
      case Uncaught(e) => WrapperReport(Raised(e), [Called(k)])
      case Caught(e) =>
        if k < maxAttempts then
          var rest := WrapperFrom(maxAttempts, delay, calls, k + 1);
          WrapperReport(rest.outcome, [Called(k), Slept(delay)] + rest.events)
        else WrapperReport(Raised(e), [Called(k)])
  }

  /** Calls numbered from `first`, alternating with sleeps of `delay`. */
  ghost predicate Alternating(events: seq<Event>, first: nat, delay: nat) {
    forall j :: 0 <= j < |events| ==> events[j] == (if j % 2 == 0 then Called(first + j / 2) else Slept(delay))
  }

  /** Every run calls the function on consecutive attempts with one sleep
      between two calls and none after the last; it calls at most
      `maxAttempts` times; and it returns None exactly when it never calls. */
  lemma {:induction false} WrapperShape<T>(maxAttempts: int, delay: nat, calls: nat -> Call<T>, k: nat)
    requires k >= 1
    ensures var r := WrapperFrom(maxAttempts, delay, calls, k);
      Alternating(r.events, k, delay)
      && (r.events == [] <==> k > maxAttempts)
      && (r.outcome.ReturnedNone? <==> k > maxAttempts)
      && (r.events != [] ==> |r.events| % 2 == 1 && |r.events| <= 2 * (maxAttempts - k) + 1)
    decreases maxAttempts + 1 - k
  {
    if k <= maxAttempts && calls(k).Caught? && k < maxAttempts {
      var rest := WrapperFrom(maxAttempts, delay, calls, k + 1);
      WrapperShape(maxAttempts, delay, calls, k + 1);
      var events := [Called(k), Slept(delay)] + rest.events;
      forall j | 2 <= j < |events|
        ensures events[j] == (if j % 2 == 0 then Called(k + j / 2) else Slept(delay))
      {
        assert events[j] == rest.events[j - 2];
      }
    }
  }

  /** Attempt `k` is the first that returns: the wrapper returns its value
      after exactly `k - i + 1` calls and `k - i` sleeps. */
  lemma {:induction false} FirstSuccessReturned<T>(maxAttempts: int, delay: nat, calls: nat -> Call<T>, i: nat, k: nat)
    requires 1 <= i <= k <= maxAttempts
    requires forall j :: i <= j < k ==> calls(j).Caught?
    requires calls(k).Value?
    ensures var r := WrapperFrom(maxAttempts, delay, calls, i);
      r.outcome == Returned(calls(k).v) && |r.events| == 2 * (k - i) + 1
    decreases k - i
  {
    if i < k {
      FirstSuccessReturned(maxAttempts, delay, calls, i + 1, k);
    }
  }

  /** A returned value is the value of a call preceded only by caught failures. */
  lemma {:induction false} ReturnedIsFirstSuccess<T>(maxAttempts: int, delay: nat, calls: nat -> Call<T>, i: nat)
    requires i >= 1
    ensures var r := WrapperFrom(maxAttempts, delay, calls, i);
      r.outcome.Returned? ==>
        exists k :: i <= k <= maxAttempts && calls(k) == Value(r.outcome.value)
          && forall j :: i <= j < k ==> calls(j).Caught?
    decreases maxAttempts + 1 - i
  {
    var r := WrapperFrom(maxAttempts, delay, calls, i);
    if i <= maxAttempts && calls(i).Caught? && i < maxAttempts {
      ReturnedIsFirstSuccess(maxAttempts, delay, calls, i + 1);
      if r.outcome.Returned? {
        var k :| i + 1 <= k <= maxAttempts && calls(k) == Value(r.outcome.value)
          && forall j :: i + 1 <= j < k ==> calls(j).Caught?;
        assert forall j :: i <= j < k ==> calls(j).Caught?;
      }
    } else if i <= maxAttempts && calls(i).Value? {
      assert calls(i) == Value(r.outcome.value);
    }
  }

  /** Every attempt fails with a listed exception: the wrapper calls
      `maxAttempts - i + 1` times, sleeps one time fewer, and re-raises the
      last failure unchanged. */
  lemma {:induction false} AllCaughtReraisesLast<T>(maxAttempts: int, delay: nat, calls: nat -> Call<T>, i: nat)
    requires 1 <= i <= maxAttempts
    requires forall j :: i <= j <= maxAttempts ==> calls(j).Caught?
    ensures var r := WrapperFrom(maxAttempts, delay, calls, i);
      r.outcome == Raised(calls(maxAttempts).e) && |r.events| == 2 * (maxAttempts - i) + 1
    decreases maxAttempts - i
  {
    if i < maxAttempts {
      AllCaughtReraisesLast(maxAttempts, delay, calls, i + 1);
    }
  }

  /** An exception outside `exceptions` leaves the wrapper at once: no further
      call and no sleep. */
  lemma {:induction false} UncaughtPropagates<T>(maxAttempts: int, delay: nat, calls: nat -> Call<T>, i: nat, k: nat)
    requires 1 <= i <= k <= maxAttempts
    requires forall j :: i <= j < k ==> calls(j).Caught?
    requires calls(k).Uncaught?
    ensures var r := WrapperFrom(maxAttempts, delay, calls, i);
      r.outcome == Raised(calls(k).e) && |r.events| == 2 * (k - i) + 1
    decreases k - i
  {
    if i < k {
      UncaughtPropagates(maxAttempts, delay, calls, i + 1, k);
    }
  }

  /** The decorated function as it runs. */
  method Wrapper<T>(maxAttempts: int, delay: nat, calls: nat -> Call<T>) returns (outcome: Outcome<T>, events: seq<Event>)
    ensures WrapperReport(outcome, events) == WrapperFrom(maxAttempts, delay, calls, 1)
  {
    events := [];
    var attempt := 1;
    while attempt <= maxAttempts
      invariant attempt >= 1
      invariant WrapperFrom(maxAttempts, delay, calls, 1)
             == var rest := WrapperFrom(maxAttempts, delay, calls, attempt);
                WrapperReport(rest.outcome, events + rest.events)
      decreases maxAttempts + 1 - attempt
    {
      match calls(attempt) {
        case Value(v) =>
          return Returned(v), events + [Called(attempt)];
        case Uncaught(e) =>
          return Raised(e), events + [Called(attempt)];
        case Caught(e) =>
          if attempt < maxAttempts {
            assert events + ([Called(attempt), Slept(delay)] + WrapperFrom(maxAttempts, delay, calls, attempt + 1).events)
                == (events + [Called(attempt), Slept(delay)]) + WrapperFrom(maxAttempts, delay, calls, attempt + 1).events;
            events := events + [Called(attempt), Slept(delay)];
          } else {
            return Raised(e), events + [Called(attempt)];
          }
      }
      attempt := attempt + 1;
    }
    assert events + [] == events;
    outcome := ReturnedNone;
  }
}
