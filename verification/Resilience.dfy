/** Circuit breakers and the fallback chain (scr/resilience.py). Clock readings are arguments. */
module Resilience {
  import opened Basics

  datatype Phase = Closed | Open | HalfOpen

  datatype Breaker = Breaker(threshold: nat, cooldown: real, phase: Phase, failures: nat, openedAt: real)

  function NewBreaker(threshold: nat, cooldown: real): Breaker {
    Breaker(threshold, cooldown, Closed, 0, 0.0)
  }

  predicate Allows(b: Breaker, now: real) {
    b.phase == Open ==> now - b.openedAt >= b.cooldown
  }

  /** The state after asking; a cooled-down breaker lets one trial through. */
  function Asked(b: Breaker, now: real): Breaker {
    if b.phase == Open && Allows(b, now) then b.(phase := HalfOpen) else b
  }

  function Succeeded(b: Breaker): Breaker {
    b.(failures := 0, phase := Closed)
  }

  function Failed(b: Breaker, now: real): Breaker {
    var c := b.(failures := b.failures + 1);
    if b.phase == HalfOpen || c.failures >= b.threshold then c.(phase := Open, openedAt := now) else c
  }

  class CircuitBreaker {
    const threshold: nat
    const cooldown: real
    var phase: Phase
    var failures: nat
    var openedAt: real

    constructor (threshold: nat, cooldown: real)
      ensures View() == NewBreaker(threshold, cooldown)
    {
      this.threshold, this.cooldown := threshold, cooldown;
      phase, failures, openedAt := Closed, 0, 0.0;
    }

    function View(): Breaker
      reads this
    {
      Breaker(threshold, cooldown, phase, failures, openedAt)
    }

    method Allow(now: real) returns (ok: bool)
      modifies this
      ensures ok == Allows(old(View()), now) && View() == Asked(old(View()), now)
    {
      if phase == Open {
        if now - openedAt >= cooldown {
          phase := HalfOpen;
          return true;
        }
        return false;
      }
      return true;
    }

    method RecordSuccess()
      modifies this
      ensures View() == Succeeded(old(View()))
    {
      failures := 0;
      phase := Closed;
    }

    method RecordFailure(now: real)
      modifies this
      ensures View() == Failed(old(View()), now)
    {
      failures := failures + 1;
      if phase == HalfOpen || failures >= threshold {
        phase := Open;
        openedAt := now;
      }
    }
  }

  // ------------------------------------------------- an adapter that always fails

  // ------------------------------------------------------- consecutive failures

  /** Failures recorded one after another, at these times. */
  function AllFailed(b: Breaker, times: seq<real>): Breaker {
    if times == [] then b else Failed(AllFailed(b, times[..|times| - 1]), times[|times| - 1])
  }

  /** A success forgets every failure before it, whatever the breaker's state: it then takes threshold
      consecutive failures to open, not fewer, and that many do, from the last of them on. */
  lemma {:induction false} SuccessForgives(b: Breaker, times: seq<real>)
    requires b.threshold >= 1
    ensures var after := AllFailed(Succeeded(b), times);
      && after.failures == |times| && after.threshold == b.threshold && after.cooldown == b.cooldown
      && (|times| < b.threshold ==> after.phase == Closed && forall now :: Allows(after, now))
      && (|times| >= b.threshold ==> after.phase == Open && after.openedAt == times[|times| - 1])
    decreases |times|
  {
    if times != [] {
      SuccessForgives(b, times[..|times| - 1]);
    }
  }

  /** One visit of `complete` to the adapter: the clock when its breaker is asked, and the clock
      when the failure is recorded if the adapter gets called. */
  datatype Visit = Visit(asked: real, failed: real)

  predicate Ordered(visits: seq<Visit>) {
    && (forall i :: 0 <= i < |visits| ==> visits[i].asked <= visits[i].failed)
    && (forall i, j :: 0 <= i < j < |visits| ==> visits[i].failed <= visits[j].asked)
  }

  function VisitOnce(b: Breaker, v: Visit): Breaker {
    if Allows(b, v.asked) then Failed(Asked(b, v.asked), v.failed) else b
  }

  function After(b: Breaker, visits: seq<Visit>): Breaker {
    if visits == [] then b
    else VisitOnce(After(b, visits[..|visits| - 1]), visits[|visits| - 1])
  }

  /** When the adapter's failures were recorded, one per call made to it. */
  function FailTimes(b: Breaker, visits: seq<Visit>): seq<real> {
    if visits == [] then []
    else
      var n := |visits| - 1;
      FailTimes(b, visits[..n])
      + (if Allows(After(b, visits[..n]), visits[n].asked) then [visits[n].failed] else [])
  }

  /** After the threshold, consecutive calls are a cooldown apart. */
  predicate Spaced(times: seq<real>, threshold: nat, cooldown: real) {
    forall i :: 1 <= i < |times| && threshold <= i ==> times[i] - times[i - 1] >= cooldown
  }

  lemma {:induction false} CallsAreSpaced(threshold: nat, cooldown: real, visits: seq<Visit>)
    requires threshold >= 1 && cooldown > 0.0 && Ordered(visits)
    ensures var b := After(NewBreaker(threshold, cooldown), visits);
      var times := FailTimes(NewBreaker(threshold, cooldown), visits);
      && b.threshold == threshold && b.cooldown == cooldown && b.failures == |times|
      && (|times| < threshold ==> b.phase == Closed)
      && (|times| >= threshold ==> b.phase == Open && b.openedAt == times[|times| - 1])
      && Spaced(times, threshold, cooldown)
    decreases |visits|
  {
    if visits != [] {
      var n := |visits| - 1;
      CallsAreSpaced(threshold, cooldown, visits[..n]);
      FailedBefore(NewBreaker(threshold, cooldown), visits[..n], visits[n].asked);
    }
  }

  /** Recorded failures lie before any time that all the visits precede. */
  lemma {:induction false} FailedBefore(b: Breaker, visits: seq<Visit>, now: real)
    requires forall i :: 0 <= i < |visits| ==> visits[i].failed <= now
    ensures forall i :: 0 <= i < |FailTimes(b, visits)| ==> FailTimes(b, visits)[i] <= now
    decreases |visits|
  {
    hide Allows, VisitOnce;
    if visits != [] {
      FailedBefore(b, visits[..|visits| - 1], now);
    }
  }

  lemma {:induction false} SpacedGrows(times: seq<real>, threshold: nat, cooldown: real, n: nat)
    requires 1 <= threshold <= n < |times| + 1 && Spaced(times, threshold, cooldown)
    ensures times[n - 1] - times[threshold - 1] >= (n - threshold) as real * cooldown
    decreases n
  {
    if n > threshold {
      SpacedGrows(times, threshold, cooldown, n - 1);
      assert times[n - 1] - times[n - 2] >= cooldown;
      assert (n - threshold) as real * cooldown == (n - 1 - threshold) as real * cooldown + cooldown;
    }
  }

  lemma FloorBound(n: nat, cooldown: real, span: real)
    requires cooldown > 0.0 && n as real * cooldown <= span
    ensures n <= (span / cooldown).Floor
  {
    assert span / cooldown >= n as real;
  }

  /** Over any non-decreasing clock, an adapter that always fails is called at most `threshold` times
      plus once per full cooldown since its threshold-th failure. */
  lemma FailingAdapterIsRarelyCalled(threshold: nat, cooldown: real, visits: seq<Visit>, now: real)
    requires threshold >= 1 && cooldown > 0.0 && Ordered(visits)
    requires forall i :: 0 <= i < |visits| ==> visits[i].failed <= now
    ensures var times := FailTimes(NewBreaker(threshold, cooldown), visits);
      |times| >= threshold ==> |times| <= threshold + ((now - times[threshold - 1]) / cooldown).Floor
  {
    hide After, FailTimes;
    CallsAreSpaced(threshold, cooldown, visits);
    FailedBefore(NewBreaker(threshold, cooldown), visits, now);
    var times := FailTimes(NewBreaker(threshold, cooldown), visits);
    if |times| >= threshold {
      var n := |times|;
      SpacedGrows(times, threshold, cooldown, n);
      assert times[n - 1] <= now;
      FloorBound(n - threshold, cooldown, now - times[threshold - 1]);
    }
  }

  // ------------------------------------------------------------ the bound is met

  /** Time zero until the threshold, then one cooldown later each time. */
  function BusyTime(threshold: nat, cooldown: real, i: nat): real {
    if i < threshold then 0.0
    else (if i == 0 then 0.0 else BusyTime(threshold, cooldown, i - 1)) + cooldown
  }

  function BusySchedule(threshold: nat, cooldown: real, n: nat): (visits: seq<Visit>)
    ensures |visits| == n
  {
    if n == 0 then []
    else BusySchedule(threshold, cooldown, n - 1)
         + [Visit(BusyTime(threshold, cooldown, n - 1), BusyTime(threshold, cooldown, n - 1))]
  }

  /** The breaker after n visits of the schedule. */
  function BusyBreaker(threshold: nat, cooldown: real, n: nat): Breaker {
    if n < threshold || n == 0 then Breaker(threshold, cooldown, Closed, n, 0.0)
    else Breaker(threshold, cooldown, Open, n, BusyTime(threshold, cooldown, n - 1))
  }

  lemma BusyVisit(threshold: nat, cooldown: real, n: nat)
    requires threshold >= 1 && cooldown > 0.0 && n >= 1
    ensures var b, t := BusyBreaker(threshold, cooldown, n - 1), BusyTime(threshold, cooldown, n - 1);
      Allows(b, t) && VisitOnce(b, Visit(t, t)) == BusyBreaker(threshold, cooldown, n)
  {
  }

  lemma LastVisit(b: Breaker, init: seq<Visit>, v: Visit)
    ensures After(b, init + [v]) == VisitOnce(After(b, init), v)
    ensures FailTimes(b, init + [v])
         == FailTimes(b, init) + (if Allows(After(b, init), v.asked) then [v.failed] else [])
  {
    hide VisitOnce, Allows;
    assert (init + [v])[..|init|] == init;
  }

  lemma {:induction false} BusyScheduleIsCalledEachTime(threshold: nat, cooldown: real, n: nat)
    requires threshold >= 1 && cooldown > 0.0
    ensures var b, visits := NewBreaker(threshold, cooldown), BusySchedule(threshold, cooldown, n);
      && |FailTimes(b, visits)| == n
      && (forall i :: 0 <= i < n ==> FailTimes(b, visits)[i] == BusyTime(threshold, cooldown, i))
      && After(b, visits) == BusyBreaker(threshold, cooldown, n)
    decreases n
  {
    hide VisitOnce, Allows, BusyTime;
    if n > 0 {
      BusyScheduleIsCalledEachTime(threshold, cooldown, n - 1);
      BusyVisit(threshold, cooldown, n);
      var t := BusyTime(threshold, cooldown, n - 1);
      LastVisit(NewBreaker(threshold, cooldown), BusySchedule(threshold, cooldown, n - 1), Visit(t, t));
    }
  }

  lemma {:induction false} BusyTimeIs(threshold: nat, cooldown: real, extra: nat)
    requires threshold >= 1
    ensures BusyTime(threshold, cooldown, threshold - 1 + extra) == extra as real * cooldown
    decreases extra
  {
    if extra > 0 {
      BusyTimeIs(threshold, cooldown, extra - 1);
      Distribute((extra - 1) as real, cooldown);
    }
  }

  lemma Distribute(a: real, c: real)
    ensures (a + 1.0) * c == a * c + c
  {
  }

  lemma CancelDivision(a: real, c: real)
    requires c > 0.0
    ensures (a * c) / c == a
  {
  }

  /** The bound is exact: for every number of cooldowns some clock reaches it. */
  lemma BoundIsReached(threshold: nat, cooldown: real, extra: nat)
    requires threshold >= 1 && cooldown > 0.0
    ensures var visits := BusySchedule(threshold, cooldown, threshold + extra);
      var times := FailTimes(NewBreaker(threshold, cooldown), visits);
      && |times| == threshold + extra
      && ((times[threshold + extra - 1] - times[threshold - 1]) / cooldown).Floor == extra
  {
    hide FailTimes, BusySchedule, BusyBreaker;
    BusyScheduleIsCalledEachTime(threshold, cooldown, threshold + extra);
    BusyTimeIs(threshold, cooldown, extra);
    CancelDivision(extra as real, cooldown);
    var times := FailTimes(NewBreaker(threshold, cooldown), BusySchedule(threshold, cooldown, threshold + extra));
    assert times[threshold - 1] == 0.0 && times[threshold + extra - 1] == extra as real * cooldown;
    assert (times[threshold + extra - 1] - times[threshold - 1]) / cooldown == extra as real;
  }

  // ----------------------------------------------------------------- the chain

  class FallbackChain {
    const breakers: seq<CircuitBreaker>

    constructor (breakers: seq<CircuitBreaker>)
      ensures this.breakers == breakers
    {
      this.breakers := breakers;
    }

    /** `outcome(i)` is what adapter i answers if called now (None: it raises); the clock readings
        of its breaker are `asked(i)` and `failed(i)`. The answer comes from the first adapter that
        is both allowed and successful; those before it that were called are marked failed, those
        after it are untouched. None: AllAdaptersFailed. */
    method Complete(outcome: nat -> Option<string>, asked: nat -> real, failed: nat -> real)
      returns (r: Option<(nat, string)>)
      requires forall i, j :: 0 <= i < j < |breakers| ==> breakers[i] != breakers[j]
      modifies breakers
      ensures r.Some? ==>
        && r.value.0 < |breakers| && outcome(r.value.0) == Some(r.value.1)
        && Allows(old(breakers[r.value.0].View()), asked(r.value.0))
      ensures var upto := if r.Some? then r.value.0 else |breakers|;
        forall i :: 0 <= i < upto ==>
          && (Allows(old(breakers[i].View()), asked(i)) ==> outcome(i).None?)
          && breakers[i].View() == (if Allows(old(breakers[i].View()), asked(i))
                                    then Failed(Asked(old(breakers[i].View()), asked(i)), failed(i))
                                    else old(breakers[i].View()))
      ensures r.Some? ==>
        breakers[r.value.0].View() == Succeeded(Asked(old(breakers[r.value.0].View()), asked(r.value.0)))
      ensures r.Some? ==> forall i :: r.value.0 < i < |breakers| ==> breakers[i].View() == old(breakers[i].View())
    {
      hide Asked, Failed, Succeeded;
      for n := 0 to |breakers|
        invariant forall i :: 0 <= i < n ==>
          && (Allows(old(breakers[i].View()), asked(i)) ==> outcome(i).None?)
          && breakers[i].View() == (if Allows(old(breakers[i].View()), asked(i))
                                    then Failed(Asked(old(breakers[i].View()), asked(i)), failed(i))
                                    else old(breakers[i].View()))
        invariant forall i :: n <= i < |breakers| ==> breakers[i].View() == old(breakers[i].View())
      {
        var ok := breakers[n].Allow(asked(n));
        if ok {
          var answer := outcome(n);
          if answer.Some? {
            breakers[n].RecordSuccess();
            return Some((n, answer.value));
          }
          breakers[n].RecordFailure(failed(n));
        } else {
          BlockedAskIsIdle(old(breakers[n].View()), asked(n));
        }
      }
      return None;
    }
  }

  lemma BlockedAskIsIdle(b: Breaker, now: real)
    requires !Allows(b, now)
    ensures Asked(b, now) == b
  {
  }
}
