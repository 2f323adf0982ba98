/**
 * The AMD meter (src/energy_meter/rocm_smi_meter.py). A background thread
 * runs `rocm-smi -d <device> -p` every `sampling_ms`, reads a power figure in
 * watts out of its output and keeps it; `stop` integrates the samples with
 * the trapezoidal rule at a fixed step. Whether `rocm-smi` is on the PATH and
 * what each run produced are parameters.
 */
module RocmSmi {
  import opened Wrappers
  import opened Text
  import opened Patterns
  import opened Energy

  /** The three patterns `_parse_power` tries, in order, all with `re.IGNORECASE` and a unit of "W". */
  const AveragePackagePower := Pattern("Average Graphics Package Power:", "W", 0, true)
  const AnyPower := Pattern("Power:", "W", 0, true)
  const GpuPower := Pattern("GPU Power:", "W", 0, true)

  function RocmPatterns(): seq<Pattern> {
    [AveragePackagePower, AnyPower, GpuPower]
  }

  /** `_parse_power`: the figure of the first pattern that matches and converts, in watts; None otherwise. */
  function ParsePower(output: string): (watts: Option<real>)
    ensures watts.Some? ==> watts.value >= 0.0
  {
    FirstYield(output, RocmPatterns())
  }

  /** `_parse_power` tries the patterns in order: the first one that yields a number decides, and if none does the result is None. */
  lemma {:induction false} ParsePowerOrder(output: string)
    ensures Yield(output, AveragePackagePower).Some? ==> ParsePower(output) == Yield(output, AveragePackagePower)
    ensures Yield(output, AveragePackagePower).None? && Yield(output, AnyPower).Some? ==>
              ParsePower(output) == Yield(output, AnyPower)
    ensures Yield(output, AveragePackagePower).None? && Yield(output, AnyPower).None? ==>
              ParsePower(output) == Yield(output, GpuPower)
  {
    var ps := RocmPatterns();
    FirstYieldStep(output, ps);
    assert ps[1..] == [AnyPower, GpuPower];
    FirstYieldStep(output, [AnyPower, GpuPower]);
    assert [AnyPower, GpuPower][1..] == [GpuPower];
    FirstYieldStep(output, [GpuPower]);
    assert FirstYield(output, []) == None;
  }

  /** One run of `rocm-smi`: it raised (a timeout, say), or it exited with a code and printed `stdout`. */
  datatype SmiRun = RunRaised | Ran(returnCode: int, stdout: string)

  /** The sample one poll contributes: only a run that exits with 0 and whose output parses. */
  function PollSample(run: SmiRun): (sample: Option<real>)
    ensures sample.Some? ==> run.Ran? && run.returnCode == 0 && sample == ParsePower(run.stdout)
    ensures run.Ran? && run.returnCode == 0 ==> sample == ParsePower(run.stdout)
  {
    match run
    case RunRaised => None
    case Ran(returnCode, stdout) => if returnCode == 0 then ParsePower(stdout) else None
  }

  /** The samples of a sequence of runs, one reading per run. */
  function PollSamples(runs: seq<SmiRun>): (readings: seq<Option<real>>)
    ensures |readings| == |runs|
    ensures forall i :: 0 <= i < |runs| ==> readings[i] == PollSample(runs[i])
  {
    seq(|runs|, i requires 0 <= i < |runs| => PollSample(runs[i]))
  }

  class RocmSmiMeter {
    const samplingMs: int
    const deviceIndex: int
    var powerSamples: seq<real>
    var startTime: real
    var stopTime: real
    var running: bool

    constructor (samplingMs: int, deviceIndex: int)
      ensures this.samplingMs == samplingMs && this.deviceIndex == deviceIndex
      ensures powerSamples == [] && startTime == 0.0 && stopTime == 0.0 && !running
    {
      this.samplingMs := samplingMs;
      this.deviceIndex := deviceIndex;
      powerSamples := [];
      startTime, stopTime := 0.0, 0.0;
      running := false;
    }

    /** `start`: RuntimeError when `rocm-smi` is not on the PATH; otherwise clears the samples, records the start time and sets the running flag. */
    method Start(onPath: bool, now: real) returns (r: Outcome<MeterError>)
      modifies this
      ensures !onPath ==> r == Fail(RuntimeError) && unchanged(this)
      ensures onPath ==> r == Pass && running && powerSamples == [] && startTime == now
      ensures stopTime == old(stopTime)
    {
      if !onPath {
        return Fail(RuntimeError);
      }
      running := true;
      powerSamples := [];
      startTime := now;
      r := Pass;
    }

    /** One pass of the polling loop: the sample of one run, if it gave one, is appended. */
    method PollOnce(run: SmiRun)
      modifies this`powerSamples
      ensures powerSamples == old(powerSamples) + Collected([PollSample(run)])
    {
      if run.Ran? && run.returnCode == 0 {
        var watts := ParsePower(run.stdout);
        if watts.Some? {
          powerSamples := powerSamples + [watts.value];
        }
      }
    }

    /** `_poll_power` over the runs it gets to make: polls only while the running flag is set. */
    method PollPower(runs: seq<SmiRun>)
      modifies this`powerSamples
      ensures powerSamples == old(powerSamples) + (if running then Collected(PollSamples(runs)) else [])
    {
      ghost var readings := PollSamples(runs);
      var i := 0;
      while running && i < |runs|
        invariant 0 <= i <= |runs|
        invariant !running ==> i == 0
        invariant powerSamples == old(powerSamples) + Collected(readings[..i])
      {
        PollOnce(runs[i]);
        CollectedSnoc(readings, i);
        i := i + 1;
      }
      assert i == |runs| ==> readings[..i] == readings;
    }

    /** `stop`: records the stop time, clears the running flag and reports the trapezoidal energy of the samples, which are already in watts. */
    method Stop(now: real) returns (reading: MeterReading)
      modifies this`stopTime, this`running
      ensures stopTime == now && !running
      ensures reading == MeterReading(SampledEnergyWh(powerSamples, samplingMs), now - startTime, samplingMs)
    {
      stopTime := now;
      running := false;
      var durationS := stopTime - startTime;
      if |powerSamples| < 2 {
        return MeterReading(0.0, durationS, samplingMs);
      }
      var dtHours := DtHours(samplingMs);
      var energyWh := IntegrateTrapezoid(powerSamples, dtHours);
      reading := MeterReading(energyWh, durationS, samplingMs);
    }
  }

  // ---------------------------------------------------------------------
  // Properties

  /**
   * The third pattern never gets the first word: wherever "GPU Power: <n> W"
   * occurs, the second pattern "Power:" (tried before it) finds a match as
   * well, four characters further on.
   */
  lemma GpuPowerShadowed(output: string)
    requires Search(output, GpuPower).Some?
    ensures Search(output, AnyPower).Some?
  {
    assert GpuPower.caption[4..] == AnyPower.caption;
    CaptionSuffixSearch(output, GpuPower, AnyPower);
  }

  /** The same holds of the first pattern: "Average Graphics Package Power: <n> W" is also a match of "Power:". */
  lemma AveragePowerAlsoMatchesAnyPower(output: string)
    requires Search(output, AveragePackagePower).Some?
    ensures Search(output, AnyPower).Some?
  {
    assert AveragePackagePower.caption[25..] == AnyPower.caption;
    CaptionSuffixSearch(output, AveragePackagePower, AnyPower);
  }

  /** Every sample the polling loop keeps is a non-negative wattage. */
  lemma {:induction false} CollectedSamplesNonNegative(runs: seq<SmiRun>)
    ensures forall i :: 0 <= i < |Collected(PollSamples(runs))| ==> Collected(PollSamples(runs))[i] >= 0.0
    decreases |runs|
  {
    if runs != [] {
      var init := runs[..|runs| - 1];
      CollectedSamplesNonNegative(init);
      assert PollSamples(runs)[..|runs| - 1] == PollSamples(init);
    }
  }

  /** So the energy of a run of polls is never negative. */
  lemma PolledEnergyNonNegative(runs: seq<SmiRun>, samplingMs: int)
    requires samplingMs >= 0
    ensures SampledEnergyWh(Collected(PollSamples(runs)), samplingMs) >= 0.0
  {
    CollectedSamplesNonNegative(runs);
    SampledEnergyNonNegative(Collected(PollSamples(runs)), samplingMs);
  }

  /** A constant draw of `p` W over `n >= 2` samples gives p * (n - 1) * sampling_ms / 3,600,000 Wh: the samples are watts, not milliwatts. */
  lemma EnergyOfConstantDraw(samples: seq<real>, samplingMs: int, p: real)
    requires |samples| >= 2
    requires forall i :: 0 <= i < |samples| ==> samples[i] == p
    ensures SampledEnergyWh(samples, samplingMs) == p * (|samples| - 1) as real * samplingMs as real / 3600000.0
  {
    TrapezoidConstant(samples, DtHours(samplingMs), p);
  }

  /** `float("12")`. */
  lemma ParsesTo12(number: string)
    requires number == "12"
    ensures ParseDecimal(number) == Some(12.0)
  {
    ParseDecimalDigits(number);
    assert number[..1][..0] == [] && DigitsValue(number[..1]) == 1;
  }

  /** A line such as "Power: 12 W" reads as 12 W. */
  lemma PlainPowerLine(text: string)
    requires text == "Power: 12 W"
    ensures ParsePower(text) == Some(12.0)
  {
    assert text == AnyPower.caption + " " + "12" + " " + AnyPower.unit;
    FormattedYield(AnyPower, "12");
    ParsesTo12("12");
    ShortTextNoMatch(text, AveragePackagePower);
    ParsePowerOrder(text);
  }
}
