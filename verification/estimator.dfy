/** The retransmission-timeout estimator: the smoothed round-trip time and
    its deviation, in the style of Jacobson/Karels, and the exponential
    backoff applied to consecutive timeouts of one wait. Unlike section 2
    of RFC 6298, the deviation is measured from the new mean, the estimate
    starts from fixed defaults rather than the first sample, the distance
    is truncated to an integer, and the timeout has no lower bound. */
module Estimator {

  /** The two estimator fields, `estimated_rtt` and `dev_rtt`, in milliseconds. */
  datatype Rtt = Rtt(est: real, dev: real)

  /** The constructor's conservative defaults. */
  const Initial: Rtt := Rtt(100.0, 10.0)

  /** The timeout derived from an estimate: `estimated_rtt + 4 * dev_rtt`. */
  function Rto(r: Rtt): real
  {
    r.est + 4.0 * r.dev
  }

  function Abs(x: real): real
  {
    if x < 0.0 then -x else x
  }

  /** C's conversion of a floating value to `int`: truncation toward zero. */
  function TruncToInt(x: real): (n: int)
    ensures 0.0 <= x ==> 0 <= n && n as real <= x < n as real + 1.0
    ensures x < 0.0 ==> n <= 0 && n as real - 1.0 < x <= n as real
  {
    if x >= 0.0 then x.Floor else -((-x).Floor)
  }

  /** The exact update the estimator stands for: the mean moves an eighth of
      the way to the sample, then the deviation a quarter of the way to the
      sample's distance from the NEW mean. */
  function Jacobson(r: Rtt, sample: real): Rtt
  {
    var est := 0.875 * r.est + 0.125 * sample;
    Rtt(est, 0.75 * r.dev + 0.25 * Abs(sample - est))
  }

  /** One round-trip sample applied (`set_estimated_rtt`). The distance to
      the new mean passes through an `int` local, so it is truncated to a
      whole number of milliseconds before it is weighted. */
  function Sample(r: Rtt, sample: nat): (r': Rtt)
    ensures r'.est == Jacobson(r, sample as real).est
    ensures Jacobson(r, sample as real).dev - 0.25 < r'.dev <= Jacobson(r, sample as real).dev
    ensures r.est <= sample as real ==> r.est <= r'.est <= sample as real
    ensures sample as real <= r.est ==> sample as real <= r'.est <= r.est
    ensures r.est >= 0.0 && r.dev >= 0.0 ==> r'.est >= 0.0 && r'.dev >= 0.0
  {
    var est := r.est * (1.0 - 0.125) + sample as real * 0.125;
    var absDev := TruncToInt(sample as real - est);
    var absDev := if absDev < 0 then absDev * -1 else absDev;
    Rtt(est, r.dev * (1.0 - 0.25) + absDev as real * 0.25)
  }

  /** The estimate after the samples, applied in order. */
  function Smooth(r: Rtt, samples: seq<nat>): Rtt
    decreases |samples|
  {
    if samples == [] then r else Smooth(Sample(r, samples[0]), samples[1..])
  }

  /** One more sample is one more update of the estimate so far. */
  lemma {:induction false} SmoothSnoc(r: Rtt, samples: seq<nat>, e: nat)
    ensures Smooth(r, samples + [e]) == Sample(Smooth(r, samples), e)
    decreases |samples|
  {
    if samples == [] {
      assert [] + [e] == [e];
      assert [e][1..] == [];
    } else {
      assert (samples + [e])[1..] == samples[1..] + [e];
      SmoothSnoc(Sample(r, samples[0]), samples[1..], e);
    }
  }

  /** Non-negative estimates stay non-negative whatever the samples. */
  lemma {:induction false} SmoothNonNegative(r: Rtt, samples: seq<nat>)
    requires r.est >= 0.0 && r.dev >= 0.0
    ensures Smooth(r, samples).est >= 0.0 && Smooth(r, samples).dev >= 0.0
    decreases |samples|
  {
    if samples != [] {
      SmoothNonNegative(Sample(r, samples[0]), samples[1..]);
    }
  }

  /** The smoothed mean never leaves a range holding the start value and every sample. */
  lemma {:induction false} SmoothWithin(r: Rtt, samples: seq<nat>, lo: real, hi: real)
    requires lo <= r.est <= hi
    requires forall i :: 0 <= i < |samples| ==> lo <= samples[i] as real <= hi
    ensures lo <= Smooth(r, samples).est <= hi
    decreases |samples|
  {
    if samples != [] {
      SmoothWithin(Sample(r, samples[0]), samples[1..], lo, hi);
    }
  }

  function Pow2(k: nat): (p: nat)
    ensures p >= 1
  {
    if k == 0 then 1 else 2 * Pow2(k - 1)
  }

  /** A timeout doubled `k` times. */
  function Doubled(rto: real, k: nat): real
  {
    Pow2(k) as real * rto
  }

  /** Doubling once more is doubling the value doubled so far: the step
      `doubled_timeout *= 2` of a wait. */
  lemma DoubledTwice(rto: real, k: nat)
    ensures Doubled(rto, k + 1) == 2.0 * Doubled(rto, k)
  {
    assert Pow2(k + 1) as real == 2.0 * Pow2(k) as real;
  }

  /** The timeouts applied after the first `k` consecutive timeouts of a
      wait that began with timeout `rto`: each doubles the one before. */
  function Backoff(rto: real, k: nat): (s: seq<real>)
    ensures |s| == k
  {
    if k == 0 then [] else Backoff(rto, k - 1) + [Doubled(rto, k)]
  }

  /** After the (i+1)-th consecutive timeout the applied timeout is 2^(i+1) times the first. */
  lemma {:induction false} BackoffAt(rto: real, k: nat, i: nat)
    requires i < k
    ensures Backoff(rto, k)[i] == Doubled(rto, i + 1)
  {
    if i < k - 1 {
      BackoffAt(rto, k - 1, i);
    }
  }

  /** Each backed-off timeout doubles the previous one. */
  lemma BackoffDoubles(rto: real, k: nat, i: nat)
    requires i + 1 < k
    ensures Backoff(rto, k)[i + 1] == 2.0 * Backoff(rto, k)[i]
  {
    BackoffAt(rto, k, i);
    BackoffAt(rto, k, i + 1);
    assert Pow2(i + 2) as real * rto == 2.0 * (Pow2(i + 1) as real * rto);
  }
}
