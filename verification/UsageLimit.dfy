/** Waiting for a usage limit to reset, outside the frontier. */
module UsageLimit {
  import opened Wrappers

  const SLICE := 5.0

  /** The wait looks for a stop before each slice; it completes if no look finds one. */
  predicate Interrupted(seconds: real, stops: nat -> bool, upTo: nat) {
    exists k | 0 <= k < upTo :: (k as real) * SLICE < seconds && stops(k)
  }

  /** The slices that fit into a wait. */
  function Slices(seconds: real): (n: nat)
    ensures (n as real) * SLICE >= seconds && (n > 0 ==> ((n - 1) as real) * SLICE < seconds)
  {
    if seconds <= 0.0 then 0 else SlicesFrom(seconds, 0)
  }

  function SlicesFrom(seconds: real, k: nat): (n: nat)
    requires (k as real) * SLICE < seconds
    ensures n > k && (n as real) * SLICE >= seconds && ((n - 1) as real) * SLICE < seconds
    decreases (seconds - (k as real) * SLICE).Floor
  {
    assert ((k + 1) as real) * SLICE == (k as real) * SLICE + SLICE;
    if ((k + 1) as real) * SLICE >= seconds then k + 1 else SlicesFrom(seconds, k + 1)
  }

  /** Sleep in slices, so that a stop cuts the wait short within one slice. */
  method WaitForReset(seconds: real, stops: nat -> bool) returns (done: bool, slept: real)
    ensures done <==> !Interrupted(seconds, stops, Slices(seconds))
    ensures done && seconds >= 0.0 ==> slept == seconds
    ensures !done ==> exists k: nat ::
      stops(k) && slept == (k as real) * SLICE < seconds && !Interrupted(seconds, stops, k)
  {
    var remaining, k := seconds, 0;
    slept := 0.0;
    while remaining > 0.0
      invariant k <= Slices(seconds) && !Interrupted(seconds, stops, k)
      invariant remaining > 0.0 ==> remaining == seconds - (k as real) * SLICE && slept == (k as real) * SLICE
      invariant remaining <= 0.0 ==> k == Slices(seconds) && (seconds >= 0.0 ==> slept == seconds)
      decreases Slices(seconds) - k
    {
      if stops(k) {
        assert k < Slices(seconds);
        return false, slept;
      }
      var step := if SLICE < remaining then SLICE else remaining;
      slept := slept + step;
      remaining := remaining - step;
      k := k + 1;
    }
    done := true;
  }

  datatype Guarded<T> = Answer(value: T) | LimitRaised | StillTrying

  /** Try `i` hit the limit, and the wait after it completed. */
  predicate Retried<T>(waits: bool, seconds: real, outcomes: seq<Option<T>>, stops: nat -> nat -> bool, i: nat) {
    i < |outcomes| && outcomes[i].None? && waits && !Interrupted(seconds, stops(i), Slices(seconds))
  }

  /** Run a step, and run it again after every completed wait, as long as it hits the limit. `outcomes`
      are the step's answers, None for a hit; `stops` are the stop looks of each wait. */
  method Guard<T>(waits: bool, seconds: real, outcomes: seq<Option<T>>, stops: nat -> nat -> bool)
    returns (r: Guarded<T>, tried: nat)
    ensures tried <= |outcomes|
    ensures forall i | 0 <= i < tried - 1 :: Retried(waits, seconds, outcomes, stops, i)
    ensures r.Answer? ==> tried > 0 && outcomes[tried - 1] == Some(r.value)
    ensures r.LimitRaised? ==> tried > 0 && outcomes[tried - 1].None?
                               && (!waits || Interrupted(seconds, stops(tried - 1), Slices(seconds)))
    ensures r.StillTrying? ==>
      tried == |outcomes| && (tried > 0 ==> Retried(waits, seconds, outcomes, stops, tried - 1))
  {
    hide Interrupted, Slices;
    tried := 0;
    while tried < |outcomes|
      invariant tried <= |outcomes|
      invariant forall i | 0 <= i < tried :: Retried(waits, seconds, outcomes, stops, i)
    {
      var outcome := outcomes[tried];
      tried := tried + 1;
      if outcome.Some? {
        return Answer(outcome.value), tried;
      }
      if !waits {
        return LimitRaised, tried;
      }
      var done, _ := WaitForReset(seconds, stops(tried - 1));
      if !done {
        return LimitRaised, tried;
      }
    }
    assert tried > 0 ==> Retried(waits, seconds, outcomes, stops, tried - 1);
    r := StillTrying;
  }
}
