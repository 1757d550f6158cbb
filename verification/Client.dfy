/**
 The retry loop of internal/ticketbutler/client.go over an arbitrary script of outcomes.

 The network is a script: for every attempt it says what the call came back with, whether the
 context had ended by then, and whether the following sleep was cut short.
 */
module Client {
  import opened Wrappers
  import opened Decimals

  datatype Failure = Upstream(status: int) | Transport

  datatype Answer<+O> = Got(orders: O) | Failed(failure: Failure)

  datatype Attempt<+O> = Attempt(answer: Answer<O>, contextEnded: bool, sleepCut: bool)

  datatype Act = Call | Sleep(nanos: int)

  datatype Outcome<+O> =
    | Fetched(orders: O)
    | Refused(failure: Failure)                       // returned at once, unwrapped
    | Cancelled(failure: Failure)                     // joined with the context's or the sleep's error
    | GaveUp(attempts: nat, last: Failure)

  predicate OriginExhausted(status: int) {
    status == 520 || status == 522 || status == 523 || status == 524
  }

  /** An answer that asking again cannot improve. */
  predicate Final(f: Failure) {
    f.Upstream? && (f.status < 500 || OriginExhausted(f.status))
  }

  function Attempts(configured: int): (n: nat)
    ensures n >= 1
  {
    if configured <= 0 then 3 else configured
  }

  // ---- int64 durations ----

  const SECOND := 1_000_000_000

  function Wrap64(x: int): (r: int)
    ensures FitsInt64(r)
  {
    (x + 0x8000_0000_0000_0000) % 0x1_0000_0000_0000_0000 - 0x8000_0000_0000_0000
  }

  function Pow2(n: nat): (r: nat)
    ensures r >= 1
  {
    if n == 0 then 1 else 2 * Pow2(n - 1)
  }

  /** The sleep after the k-th attempt: 30 seconds shifted left, in 64 bits. */
  function Backoff(k: nat): int
    requires k >= 1
  {
    Wrap64(30 * SECOND * Pow2(k - 1))
  }

  // ---- what a run should be ----

  /** The loop does not go on to another attempt after this one, whatever the limit. */
  predicate Stops<O>(a: Attempt<O>) {
    a.answer.Got? || Final(a.answer.failure) || a.contextEnded || a.sleepCut
  }

  /** The number of calls: up to the first attempt that stops the loop, or the limit. */
  ghost predicate IsLast<O>(script: nat -> Attempt<O>, limit: nat, last: nat) {
    && 1 <= last <= limit
    && (forall k | 1 <= k < last :: !Stops(script(k)))
    && (last == limit || Stops(script(last)))
  }

  lemma LastIsUnique<O>(script: nat -> Attempt<O>, limit: nat, a: nat, b: nat)
    requires IsLast(script, limit, a) && IsLast(script, limit, b)
    ensures a == b
  {
    hide Stops;
    assert a < b ==> !Stops(script(a));
    assert b < a ==> !Stops(script(b));
  }

  /** Calls with one sleep between each two. */
  function Log(calls: nat): seq<Act> {
    if calls == 0 then []
    else if calls == 1 then [Call]
    else Log(calls - 1) + [Sleep(Backoff(calls - 1)), Call]
  }

  lemma {:induction false} LogAlternates(calls: nat, i: nat)
    requires i < |Log(calls)|
    ensures |Log(calls)| == 2 * calls - 1
    ensures Log(calls)[i] == if i % 2 == 0 then Call else Sleep(Backoff(i / 2 + 1))
  {
    hide Backoff;
    if calls > 1 {
      LogAlternates(calls - 1, if i < |Log(calls - 1)| then i else 0);
    }
  }

  /** The last sleep was begun only to be cut short. */
  predicate EndsAsleep<O>(a: Attempt<O>, limit: nat, last: nat) {
    last < limit && a.answer.Failed? && !Final(a.answer.failure) && !a.contextEnded && a.sleepCut
  }

  function ResultOf<O>(a: Attempt<O>, limit: nat, last: nat): Outcome<O> {
    match a.answer
    case Got(orders) => Fetched(orders)
    case Failed(f) =>
      if Final(f) then Refused(f)
      else if a.contextEnded || last < limit then Cancelled(f)
      else GaveUp(limit, f)
  }

  /** A failure after which asking again is no use: refused by the service, or given up by the proxy in front of it. */
  predicate Hopeless(f: Failure) {
    f.Upstream? && (f.status < 500 || f.status in {520, 522, 523, 524})
  }

  /** The loop goes on after this attempt, if there is another one. */
  predicate GoesOn<O>(a: Attempt<O>) {
    a.answer.Failed? && !Hopeless(a.answer.failure) && !a.contextEnded && !a.sleepCut
  }

  lemma GoesOnIff<O>(a: Attempt<O>)
    ensures GoesOn(a) <==> !Stops(a)
  {
  }

  /** The number of attempts a setting stands for: itself, or 3 when it is not positive. */
  ghost predicate Allows(configured: int, n: nat) {
    (configured >= 1 ==> n == configured) && (configured <= 0 ==> n == 3)
  }

  /** The first n attempts with the loop going on after each. */
  ghost predicate AllGoOn<O>(script: nat -> Attempt<O>, n: nat) {
    forall k | 1 <= k <= n :: GoesOn(script(k))
  }

  /**
   As many calls as the setting allows while the loop goes on, and none after the first that ends it. The run
   succeeds exactly when a call within the setting does.
   */
  ghost predicate AsConfigured<O>(script: nat -> Attempt<O>, configured: int, calls: nat, r: Outcome<O>) {
    forall n | Allows(configured, n) ::
      && 1 <= calls <= n && AllGoOn(script, calls - 1)
      && (calls < n ==> !GoesOn(script(calls)))
      && (AllGoOn(script, n) ==> calls == n && r == GaveUp(n, script(n).answer.failure))
      && (r.Fetched? <==> exists k | 1 <= k <= n :: AllGoOn(script, k - 1) && script(k).answer.Got?)
      && (r.Fetched? ==> script(calls).answer == Got(r.orders))
  }

  lemma RunAsConfigured<O>(script: nat -> Attempt<O>, configured: int)
    ensures forall last | IsLast(script, Attempts(configured), last) ::
      AsConfigured(script, configured, last, ResultOf(script(last), Attempts(configured), last))
  {
    var limit := Attempts(configured);
    forall last | IsLast(script, limit, last)
      ensures AsConfigured(script, configured, last, ResultOf(script(last), limit, last))
    {
      forall n | Allows(configured, n) ensures n == limit { }
      RunWithin(script, limit, last);
    }
  }

  lemma RunWithin<O>(script: nat -> Attempt<O>, n: nat, last: nat)
    requires IsLast(script, n, last)
    ensures var r := ResultOf(script(last), n, last);
      && AllGoOn(script, last - 1) && (last < n ==> !GoesOn(script(last)))
      && (AllGoOn(script, n) ==> last == n && r == GaveUp(n, script(n).answer.failure))
      && (r.Fetched? <==> exists k | 1 <= k <= n :: AllGoOn(script, k - 1) && script(k).answer.Got?)
      && (r.Fetched? ==> script(last).answer == Got(r.orders))
  {
    forall k | 1 <= k <= n ensures GoesOn(script(k)) <==> !Stops(script(k)) { GoesOnIff(script(k)); }
    var r := ResultOf(script(last), n, last);
    FetchedIff(script, n, last);
    if AllGoOn(script, n) { assert GoesOn(script(last)); }
    if r.Fetched? { assert AllGoOn(script, last - 1) && script(last).answer.Got?; }
    if k :| 1 <= k <= n && AllGoOn(script, k - 1) && script(k).answer.Got? {
      assert forall j | 1 <= j < k :: GoesOn(script(j));
      assert script(k).answer.Got? && forall j | 1 <= j < k :: !Stops(script(j));
    }
  }

  /** The retry loop. With a file configured it is read instead, and nothing is retried. */
  method FetchOrders<O>(file: Option<Answer<O>>, configured: int, script: nat -> Attempt<O>)
    returns (r: Outcome<O>, acts: seq<Act>, calls: nat)
    ensures file.Some? ==> calls == 0 && acts == []
    ensures file.Some? ==> r == match file.value { case Got(orders) => Fetched(orders) case Failed(f) => Refused(f) }
    ensures file.None? ==>
      && IsLast(script, Attempts(configured), calls)
      && r == ResultOf(script(calls), Attempts(configured), calls)
      && acts == Log(calls) +
           if EndsAsleep(script(calls), Attempts(configured), calls) then [Sleep(Backoff(calls))] else []
    ensures file.None? ==> AsConfigured(script, configured, calls, r)
  {
    hide Backoff, OriginExhausted, AsConfigured;
    RunAsConfigured(script, configured);
    calls, acts := 0, [];
    if file.Some? {
      match file.value {
        case Got(orders) => return Fetched(orders), [], 0;
        case Failed(f) => return Refused(f), [], 0;
      }
    }
    var attempts := Attempts(configured);
    var lastErr := Transport;
    for attempt := 1 to attempts + 1
      invariant calls == attempt - 1
      invariant forall k | 1 <= k < attempt && k < attempts :: !Stops(script(k))
      invariant acts == if attempt == 1 then []
                        else Log(calls) + if calls < attempts then [Sleep(Backoff(calls))] else []
      invariant attempt > 1 ==> script(calls).answer == Failed(lastErr)
      invariant attempt == attempts + 1 ==> !script(calls).contextEnded && !Final(lastErr)
    {
      acts := acts + [Call];
      calls := attempt;
      assert acts == Log(calls);
      var step := script(attempt);
      if step.answer.Got? {
        return Fetched(step.answer.orders), acts, calls;
      }
      if step.answer.failure.Upstream? {
        if step.answer.failure.status < 500 {
          return Refused(step.answer.failure), acts, calls;
        }
        if OriginExhausted(step.answer.failure.status) {
          return Refused(step.answer.failure), acts, calls;
        }
      }
      if step.contextEnded {
        return Cancelled(step.answer.failure), acts, calls;
      }
      lastErr := step.answer.failure;
      if attempt < attempts {
        acts := acts + [Sleep(Backoff(attempt))];
        if step.sleepCut {
          return Cancelled(lastErr), acts, calls;
        }
      }
    }
    return GaveUp(attempts, lastErr), acts, calls;
  }

  /** The fetch succeeds exactly when some call within the limit does and every earlier failure could be retried. */
  lemma FetchedIff<O>(script: nat -> Attempt<O>, limit: nat, last: nat)
    requires IsLast(script, limit, last)
    ensures ResultOf(script(last), limit, last).Fetched? <==> script(last).answer.Got?
    ensures ResultOf(script(last), limit, last).Fetched? <==>
            exists k | 1 <= k <= limit :: script(k).answer.Got? && forall j | 1 <= j < k :: !Stops(script(j))
  {
    hide Final;
    if k :| 1 <= k <= limit && script(k).answer.Got? && forall j | 1 <= j < k :: !Stops(script(j)) {
      assert Stops(script(k));
      assert last < k ==> !Stops(script(last));
    }
  }

  // ---- the backoff in 64 bits ----

  lemma {:induction false} Pow2Monotone(a: nat, b: nat)
    requires a <= b
    ensures Pow2(a) <= Pow2(b)
    ensures a < b ==> 2 * Pow2(a) <= Pow2(b)
  {
    if a < b { Pow2Monotone(a, b - 1); }
  }

  lemma {:induction false} Pow2Add(a: nat, b: nat)
    ensures Pow2(a + b) == Pow2(a) * Pow2(b)
  {
    if a > 0 { Pow2Add(a - 1, b); }
  }

  lemma Pow2Of28()
    ensures Pow2(28) == 0x1000_0000 && Pow2(29) == 0x2000_0000
  {
    assert Pow2(7) == 2 * Pow2(6) == 4 * Pow2(5) == 8 * Pow2(4) == 16 * Pow2(3) == 32 * Pow2(2) == 64 * Pow2(1) == 128;
    Pow2Add(7, 7);
    Pow2Add(14, 14);
  }

  /** The k-th backoff is 30s times 2^(k-1), exactly up to the 29th; the 30th is the first that wraps. */
  lemma BackoffExactIff(k: nat)
    requires k >= 1
    ensures Backoff(k) == 30 * SECOND * Pow2(k - 1) <==> k <= 29
  {
    Pow2Of28();
    if k <= 29 { Pow2Monotone(k - 1, 28); } else { Pow2Monotone(29, k - 1); }
  }

  /** Up to 30 attempts every sleep is positive and twice the one before; the sleep after a 30th would be negative. */
  lemma BackoffGrows(k: nat)
    requires 1 <= k <= 29
    ensures Backoff(k) >= 30 * SECOND
    ensures k > 1 ==> Backoff(k) == 2 * Backoff(k - 1)
    ensures Backoff(30) < 0
    ensures Backoff(1) == 30_000_000_000
  {
    assert Pow2(0) == 1;
    BackoffExactIff(k);
    if k > 1 { BackoffExactIff(k - 1); }
    Pow2Of28();
    hide Pow2;
  }

  // ---- how long it can take ----

  function Sum(xs: seq<int>): int {
    if xs == [] then 0 else Sum(xs[..|xs| - 1]) + xs[|xs| - 1]
  }

  /** Calls keep the timeout, and sleeps do not oversleep. */
  predicate WithinLimits(acts: seq<Act>, took: seq<int>, timeout: nat) {
    |took| == |acts| &&
    forall i | 0 <= i < |acts| :: took[i] <= match acts[i] case Call => timeout case Sleep(d) => d
  }

  lemma SumAppend(xs: seq<int>, x: int)
    ensures Sum(xs + [x]) == Sum(xs) + x
  {
    assert (xs + [x])[..|xs|] == xs;
  }

  /** A sum cut after its first n numbers, with one or two more behind them. */
  lemma SumTail(xs: seq<int>, n: nat)
    requires n <= |xs|
    ensures |xs| == n + 1 ==> Sum(xs) == Sum(xs[..n]) + xs[n]
    ensures |xs| == n + 2 ==> Sum(xs) == Sum(xs[..n]) + xs[n] + xs[n + 1]
  {
    if |xs| == n + 2 { assert xs[..n + 1][..n] == xs[..n]; }
  }

  /** What one more sleep and call add to the bound. */
  lemma OneMoreCall(calls: nat, timeout: nat, p: nat, sum: int, slept: int, called: int)
    requires calls >= 2 && sum <= (calls - 1) * timeout + 30 * SECOND * (p - 1)
    requires slept <= 30 * SECOND * p && called <= timeout
    ensures sum + slept + called <= calls * timeout + 30 * SECOND * (2 * p - 1)
  {
    assert (calls - 1) * timeout + timeout == calls * timeout;
  }

  lemma LogPrefix(calls: nat, took: seq<int>, timeout: nat)
    requires calls >= 2 && WithinLimits(Log(calls), took, timeout)
    ensures var n := |Log(calls - 1)|;
      && |took| == n + 2 && WithinLimits(Log(calls - 1), took[..n], timeout)
      && took[n] <= Backoff(calls - 1) && took[n + 1] <= timeout
  {
    hide Backoff;
    var n := |Log(calls - 1)|;
    assert forall i | 0 <= i < n :: Log(calls)[i] == Log(calls - 1)[i];
    assert Log(calls)[n] == Sleep(Backoff(calls - 1)) && Log(calls)[n + 1] == Call;
  }

  lemma OneCallTime(took: seq<int>, timeout: nat)
    requires WithinLimits(Log(1), took, timeout)
    ensures Sum(took) <= timeout
  {
    assert Log(1)[0] == Call && took[..0] == [];
  }

  /** The most that `calls` calls with their sleeps in between can take. */
  lemma {:induction false} LogTime(calls: nat, took: seq<int>, timeout: nat)
    requires 1 <= calls <= 30 && WithinLimits(Log(calls), took, timeout)
    ensures Sum(took) <= calls * timeout + 30 * SECOND * (Pow2(calls - 1) - 1)
  {
    if calls == 1 {
      OneCallTime(took, timeout);
    } else {
      hide Log, Backoff, Sum, WithinLimits;
      var n := |Log(calls - 1)|;
      LogPrefix(calls, took, timeout);
      LogTime(calls - 1, took[..n], timeout);
      BackoffExactIff(calls - 1);
      SumTail(took, n);
      assert Pow2(calls - 1) == 2 * Pow2(calls - 2);
      hide Pow2;
      OneMoreCall(calls, timeout, Pow2(calls - 2), Sum(took[..n]), took[n], took[n + 1]);
    }
  }

  lemma LimitsOfPrefix(acts: seq<Act>, more: seq<Act>, took: seq<int>, timeout: nat)
    requires WithinLimits(acts + more, took, timeout)
    ensures WithinLimits(acts, took[..|acts|], timeout)
    ensures forall d | more == [Sleep(d)] :: |took| == |acts| + 1 && took[|acts|] <= d
  {
    assert forall i | 0 <= i < |acts| :: (acts + more)[i] == acts[i];
    assert |more| > 0 ==> (acts + more)[|acts|] == more[0];
  }

  /** A whole fetch with up to 30 attempts ends within attempts * timeout + 30s * (2^(attempts-1) - 1). */
  lemma FetchTime<O>(script: nat -> Attempt<O>, limit: nat, last: nat, acts: seq<Act>, took: seq<int>, timeout: nat)
    requires IsLast(script, limit, last) && limit <= 30
    requires acts == Log(last) + if EndsAsleep(script(last), limit, last) then [Sleep(Backoff(last))] else []
    requires WithinLimits(acts, took, timeout)
    ensures Sum(took) <= limit * timeout + 30 * SECOND * (Pow2(limit - 1) - 1)
  {
    var n := |Log(last)|;
    var asleep := EndsAsleep(script(last), limit, last);
    assert asleep ==> last < limit;
    hide Log, Backoff, Sum, WithinLimits, EndsAsleep, IsLast;
    LimitsOfPrefix(Log(last), if asleep then [Sleep(Backoff(last))] else [], took, timeout);
    LogTime(last, took[..n], timeout);
    SumTail(took, n);
    Multiples(last, limit, timeout);
    Pow2Monotone(last - 1, limit - 1);
    if asleep { BackoffExactIff(last); } else { SameLength(acts, took, n, timeout); }
    hide Pow2;
  }

  lemma SameLength(acts: seq<Act>, took: seq<int>, n: nat, timeout: nat)
    requires WithinLimits(acts, took, timeout) && |acts| == n
    ensures took[..n] == took
  {
  }

  lemma Multiples(a: nat, b: nat, c: nat)
    requires a <= b
    ensures a * c <= b * c
  {
  }

  /** The bound is met: a script that only times out, with every call and sleep taking all it may. */
  lemma {:induction false} SlowestLog(calls: nat, timeout: nat) returns (took: seq<int>)
    requires 1 <= calls <= 30
    ensures WithinLimits(Log(calls), took, timeout)
    ensures Sum(took) == calls * timeout + 30 * SECOND * (Pow2(calls - 1) - 1)
  {
    if calls == 1 {
      took := [timeout];
      assert took[..0] == [];
    } else {
      var before := SlowestLog(calls - 1, timeout);
      var d := Backoff(calls - 1);
      took := before + [d] + [timeout];
      SumAppend(before, d);
      SumAppend(before + [d], timeout);
      WithinOneMore(calls, before, d, timeout);
      BackoffExactIff(calls - 1);
      hide Backoff, Log, Sum, WithinLimits;
      assert Pow2(calls - 1) == 2 * Pow2(calls - 2);
      assert (calls - 1) * timeout + timeout == calls * timeout;
    }
  }

  lemma WithinOneMore(calls: nat, before: seq<int>, d: int, timeout: nat)
    requires calls >= 2 && WithinLimits(Log(calls - 1), before, timeout) && d == Backoff(calls - 1)
    ensures WithinLimits(Log(calls), before + [d] + [timeout], timeout)
  {
    hide Backoff;
  }
}
