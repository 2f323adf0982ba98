/**
 * What the sampling meters share: the reading `stop` returns, the errors
 * meters raise, the fixed sampling step, the trapezoidal rule over equally
 * spaced samples (and the loop that computes it), and the list of samples a
 * polling loop keeps when some of its reads fail.
 */
module Energy {
  import opened Wrappers

  /** The dictionary `{energy_wh_raw, duration_s, sampling_ms}` that every meter's `stop` returns. */
  datatype MeterReading = MeterReading(energyWhRaw: real, durationS: real, samplingMs: int)

  /** The exceptions a meter's `start` and `stop` raise. */
  datatype MeterError = RuntimeError | PermissionError

  /** `(sampling_ms / 1000.0) / 3600.0`: the fixed time between two samples, in hours. */
  function DtHours(samplingMs: int): (dt: real)
    ensures dt * 3600000.0 == samplingMs as real
    ensures samplingMs >= 0 ==> dt >= 0.0
  {
    (samplingMs as real / 1000.0) / 3600.0
  }

  /** The number of intervals between consecutive samples: `len(samples) - 1`, never negative. */
  function Intervals(p: seq<real>): nat {
    if |p| == 0 then 0 else |p| - 1
  }

  /** The first `k` trapezoids: the sum over i < k of (p[i] + p[i+1]) / 2 * dt. */
  function PartialTrapezoid(p: seq<real>, dt: real, k: nat): real
    requires k == 0 || k < |p|
  {
    if k == 0 then 0.0 else PartialTrapezoid(p, dt, k - 1) + (p[k - 1] + p[k]) / 2.0 * dt
  }

  /** The trapezoidal rule over equally spaced samples `p`, `dt` apart. */
  function Trapezoid(p: seq<real>, dt: real): real {
    PartialTrapezoid(p, dt, Intervals(p))
  }

  /**
   * The accumulation loop of every sampling meter's `stop`:
   * `for i in range(len(p) - 1): energy_wh += (p[i] + p[i + 1]) / 2.0 * dt_hours`.
   */
  method IntegrateTrapezoid(powerWatts: seq<real>, dtHours: real) returns (energyWh: real)
    ensures energyWh == Trapezoid(powerWatts, dtHours)
  {
    energyWh := 0.0;
    for i := 0 to Intervals(powerWatts)
      invariant energyWh == PartialTrapezoid(powerWatts, dtHours, i)
    {
      var avgPower := (powerWatts[i] + powerWatts[i + 1]) / 2.0;
      energyWh := energyWh + avgPower * dtHours;
    }
  }

  /** `[p / 1000.0 for p in samples]`: milliwatts to watts. */
  function MilliwattsToWatts(samples: seq<real>): (watts: seq<real>)
    ensures |watts| == |samples|
    ensures forall i :: 0 <= i < |samples| ==> watts[i] * 1000.0 == samples[i]
  {
    seq(|samples|, i requires 0 <= i < |samples| => samples[i] / 1000.0)
  }

  /**
   * The energy in Wh that a sampling meter reports for samples already in
   * watts: nothing below two samples, the trapezoidal rule otherwise.
   */
  function SampledEnergyWh(powerWatts: seq<real>, samplingMs: int): (energyWh: real)
    ensures |powerWatts| < 2 ==> energyWh == 0.0
  {
    if |powerWatts| < 2 then 0.0 else Trapezoid(powerWatts, DtHours(samplingMs))
  }

  /** Non-negative samples and a non-negative interval never give negative energy. */
  lemma SampledEnergyNonNegative(powerWatts: seq<real>, samplingMs: int)
    requires samplingMs >= 0
    requires forall i :: 0 <= i < |powerWatts| ==> powerWatts[i] >= 0.0
    ensures SampledEnergyWh(powerWatts, samplingMs) >= 0.0
  {
    if |powerWatts| >= 2 {
      TrapezoidBounds(powerWatts, DtHours(samplingMs), 0.0, 0.0);
    }
  }

  // ---------------------------------------------------------------------
  // Properties of the trapezoidal rule

  lemma MulMonotone(a: real, b: real, c: real)
    requires a <= b && c >= 0.0
    ensures a * c <= b * c
  {
  }

  /** Constant power `c` over `n >= 1` samples integrates to `c * (n - 1) * dt`. */
  lemma {:induction false} TrapezoidConstant(p: seq<real>, dt: real, c: real)
    requires |p| >= 1
    requires forall i :: 0 <= i < |p| ==> p[i] == c
    ensures Trapezoid(p, dt) == c * (|p| - 1) as real * dt
  {
    PartialConstant(p, dt, c, |p| - 1);
  }

  lemma {:induction false} PartialConstant(p: seq<real>, dt: real, c: real, k: nat)
    requires k < |p|
    requires forall i :: 0 <= i < |p| ==> p[i] == c
    ensures PartialTrapezoid(p, dt, k) == c * k as real * dt
  {
    if k > 0 {
      PartialConstant(p, dt, c, k - 1);
      assert (p[k - 1] + p[k]) / 2.0 == c;
    }
  }

  /**
   * Samples bounded by `lo` and `hi` give energy between `lo` and `hi` times
   * the elapsed `(n - 1) * dt` hours; in particular non-negative samples give
   * non-negative energy (with `hi` unconstrained below, take `lo = 0`).
   */
  lemma {:induction false} TrapezoidBounds(p: seq<real>, dt: real, lo: real, hi: real)
    requires dt >= 0.0
    requires forall i :: 0 <= i < |p| ==> lo <= p[i]
    ensures lo * Intervals(p) as real * dt <= Trapezoid(p, dt)
    ensures (forall i :: 0 <= i < |p| ==> p[i] <= hi) ==> Trapezoid(p, dt) <= hi * Intervals(p) as real * dt
  {
    PartialLowerBound(p, dt, lo, Intervals(p));
    if forall i :: 0 <= i < |p| ==> p[i] <= hi {
      PartialUpperBound(p, dt, hi, Intervals(p));
    }
  }

  lemma {:induction false} PartialLowerBound(p: seq<real>, dt: real, lo: real, k: nat)
    requires k == 0 || k < |p|
    requires dt >= 0.0
    requires forall i :: 0 <= i < |p| ==> lo <= p[i]
    ensures lo * k as real * dt <= PartialTrapezoid(p, dt, k)
  {
    if k > 0 {
      PartialLowerBound(p, dt, lo, k - 1);
      MulMonotone(lo, (p[k - 1] + p[k]) / 2.0, dt);
      assert lo * k as real * dt == lo * (k - 1) as real * dt + lo * dt;
    }
  }

  lemma {:induction false} PartialUpperBound(p: seq<real>, dt: real, hi: real, k: nat)
    requires k == 0 || k < |p|
    requires dt >= 0.0
    requires forall i :: 0 <= i < |p| ==> p[i] <= hi
    ensures PartialTrapezoid(p, dt, k) <= hi * k as real * dt
  {
    if k > 0 {
      PartialUpperBound(p, dt, hi, k - 1);
      MulMonotone((p[k - 1] + p[k]) / 2.0, hi, dt);
      assert hi * k as real * dt == hi * (k - 1) as real * dt + hi * dt;
    }
  }

  /**
   * One more sample adds exactly one trapezoid: with non-negative power the
   * running energy never decreases as samples accumulate.
   */
  lemma {:induction false} TrapezoidAppend(p: seq<real>, x: real, dt: real)
    requires |p| >= 1
    ensures Trapezoid(p + [x], dt) == Trapezoid(p, dt) + (p[|p| - 1] + x) / 2.0 * dt
  {
    PartialPrefix(p, [x], dt, |p| - 1);
  }

  lemma {:induction false} PartialPrefix(p: seq<real>, q: seq<real>, dt: real, k: nat)
    requires k == 0 || k < |p|
    ensures PartialTrapezoid(p + q, dt, k) == PartialTrapezoid(p, dt, k)
  {
    if k > 0 {
      PartialPrefix(p, q, dt, k - 1);
      assert (p + q)[k - 1] == p[k - 1] && (p + q)[k] == p[k];
      assert PartialTrapezoid(p + q, dt, k) == PartialTrapezoid(p + q, dt, k - 1) + (p[k - 1] + p[k]) / 2.0 * dt;
    }
  }

  /** Converting every sample from milliwatts to watts divides the energy by 1000. */
  lemma {:induction false} TrapezoidMilliwatts(p: seq<real>, dt: real)
    ensures Trapezoid(MilliwattsToWatts(p), dt) * 1000.0 == Trapezoid(p, dt)
  {
    PartialMilliwatts(p, dt, Intervals(p));
  }

  lemma {:induction false} PartialMilliwatts(p: seq<real>, dt: real, k: nat)
    requires k == 0 || k < |p|
    ensures PartialTrapezoid(MilliwattsToWatts(p), dt, k) * 1000.0 == PartialTrapezoid(p, dt, k)
  {
    if k > 0 {
      PartialMilliwatts(p, dt, k - 1);
      var w := MilliwattsToWatts(p);
      assert (w[k - 1] + w[k]) / 2.0 * dt * 1000.0 == (p[k - 1] + p[k]) / 2.0 * dt;
    }
  }

  // ---------------------------------------------------------------------
  // The samples a polling loop keeps

  /**
   * The samples kept from a run of polls, in order: a poll that read a value
   * contributes it, a poll that raised (None) contributes nothing.
   */
  function Collected(readings: seq<Option<real>>): (samples: seq<real>)
    ensures |samples| <= |readings|
    ensures (forall i :: 0 <= i < |readings| ==> readings[i].Some?) ==> |samples| == |readings|
  {
    if readings == [] then []
    else
      var last := readings[|readings| - 1];
      Collected(readings[..|readings| - 1]) + (if last.Some? then [last.value] else [])
  }

  /** Polls are independent: the samples of two runs of polls are the samples of each, in order. */
  lemma {:induction false} CollectedConcat(a: seq<Option<real>>, b: seq<Option<real>>)
    ensures Collected(a + b) == Collected(a) + Collected(b)
    decreases |b|
  {
    if b != [] {
      var init := b[..|b| - 1];
      assert (a + b)[..|a + b| - 1] == a + init;
      CollectedConcat(a, init);
    } else {
      assert a + b == a;
    }
  }

  /** One more poll: the samples of the first `i + 1` polls are those of the first `i` and then the `i`-th, if it read a value. */
  lemma CollectedSnoc(readings: seq<Option<real>>, i: nat)
    requires i < |readings|
    ensures Collected(readings[..i + 1]) ==
            Collected(readings[..i]) + (if readings[i].Some? then [readings[i].value] else [])
  {
    assert readings[..i + 1][..i] == readings[..i];
  }
}
