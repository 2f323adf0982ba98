/**
 * The Apple meter (src/energy_meter/macos_meter.py). `start` launches
 * `sudo powermetrics -i <sampling_ms> --samplers cpu_power`, a background
 * thread keeps every line it prints (stripped), and `stop` reads one power
 * figure in milliwatts out of each line and integrates those figures. The
 * platform name, whether the process could be spawned and the lines it
 * printed are parameters.
 */
module Macos {
  import opened Wrappers
  import opened Text
  import opened Patterns
  import opened Energy

  /** The four patterns of `_parse_power_samples`, case-sensitive, each needing whitespace before "mW". */
  const CombinedPower := Pattern("Combined Power (CPU + GPU + ANE):", "mW", 1, false)
  const CpuPower := Pattern("CPU Power:", "mW", 1, false)
  const GpuPower := Pattern("GPU Power:", "mW", 1, false)
  const PackagePower := Pattern("Package Power:", "mW", 1, false)

  function MacPatterns(): seq<Pattern> {
    [CombinedPower, CpuPower, GpuPower, PackagePower]
  }

  /** The patterns tried when the combined figure is missing or does not convert: `patterns[1:]`. */
  function IndividualPatterns(): seq<Pattern> {
    [CpuPower, GpuPower, PackagePower]
  }

  /**
   * The sample one output line contributes: the combined figure if it
   * converts, otherwise the first individual pattern that matches and
   * converts, otherwise none.
   */
  function LineSample(line: string): (mw: Option<real>)
    ensures mw.Some? ==> mw.value >= 0.0
  {
    FirstYield(line, MacPatterns())
  }

  /** Reading one more line stores one more stripped line. */
  lemma StrippedLinesSnoc(lines: seq<string>, i: nat)
    requires i < |lines|
    ensures StripAll(lines[..i + 1]) == StripAll(lines[..i]) + [Strip(lines[i])]
  {
    assert lines[..i + 1][i] == lines[i];
  }

  /** What each output line yields, line by line. */
  function LineReadings(lines: seq<string>): (readings: seq<Option<real>>)
    ensures |readings| == |lines|
    ensures forall i :: 0 <= i < |lines| ==> readings[i] == LineSample(lines[i])
  {
    seq(|lines|, i requires 0 <= i < |lines| => LineSample(lines[i]))
  }

  /** The samples of all output lines, in order, one per line at most. */
  function LineSamples(lines: seq<string>): (samples: seq<real>)
    ensures |samples| <= |lines|
  {
    Collected(LineReadings(lines))
  }

  /**
   * The energy `stop` reports for milliwatt samples: nothing without samples,
   * the single sample held for the whole measured duration, or the
   * trapezoidal rule at the fixed step.
   */
  function MacEnergyWh(samplesMw: seq<real>, durationS: real, samplingMs: int): (energyWh: real)
    ensures samplesMw == [] ==> energyWh == 0.0
    ensures |samplesMw| == 1 ==> energyWh * 3600000.0 == samplesMw[0] * durationS
    ensures |samplesMw| >= 2 ==> energyWh == SampledEnergyWh(MilliwattsToWatts(samplesMw), samplingMs)
  {
    if samplesMw == [] then 0.0
    else if |samplesMw| == 1 then samplesMw[0] / 1000.0 * (durationS / 3600.0)
    else SampledEnergyWh(MilliwattsToWatts(samplesMw), samplingMs)
  }

  /** The inner loop of `_parse_power_samples`: the individual patterns in order, skipping a figure that does not convert. */
  method FirstIndividual(line: string) returns (mw: Option<real>)
    ensures mw == FirstYield(line, IndividualPatterns())
  {
    var patterns := IndividualPatterns();
    var i := 0;
    mw := None;
    while i < |patterns|
      invariant 0 <= i <= |patterns|
      invariant FirstYield(line, patterns) == FirstYield(line, patterns[i..])
    {
      FirstYieldStep(line, patterns[i..]);
      var found := Yield(line, patterns[i]);
      if found.Some? {
        mw := found;
        break;
      }
      assert patterns[i..][1..] == patterns[i + 1..];
      i := i + 1;
    }
  }

  /** The body of the outer loop: the combined figure first, then the individual patterns. */
  method ParseLine(line: string) returns (mw: Option<real>)
    ensures mw == LineSample(line)
  {
    FirstYieldStep(line, MacPatterns());
    assert MacPatterns()[1..] == IndividualPatterns();
    var combined := Yield(line, CombinedPower);
    if combined.Some? {
      return combined;
    }
    mw := FirstIndividual(line);
  }

  class MacosMeter {
    const samplingMs: int
    /** Whether `self.process` holds a spawned `powermetrics`. */
    var processStarted: bool
    var outputLines: seq<string>
    var startTime: real
    var stopTime: real
    var running: bool

    constructor (samplingMs: int)
      ensures this.samplingMs == samplingMs
      ensures !processStarted && outputLines == [] && startTime == 0.0 && stopTime == 0.0 && !running
    {
      this.samplingMs := samplingMs;
      processStarted := false;
      outputLines := [];
      startTime, stopTime := 0.0, 0.0;
      running := false;
    }

    /**
     * `start`: RuntimeError off macOS, with nothing changed. On macOS the
     * running flag, the empty line buffer and the start time are set first;
     * a process that cannot be spawned then still raises RuntimeError.
     */
    method Start(platform: string, spawnOk: bool, now: real) returns (r: Outcome<MeterError>)
      modifies this
      ensures platform != "darwin" ==> r == Fail(RuntimeError) && unchanged(this)
      ensures platform == "darwin" ==>
                running && outputLines == [] && startTime == now
                && processStarted == (old(processStarted) || spawnOk)
                && r == (if spawnOk then Pass else Fail(RuntimeError))
      ensures stopTime == old(stopTime)
    {
      if platform != "darwin" {
        return Fail(RuntimeError);
      }
      running := true;
      outputLines := [];
      startTime := now;
      if !spawnOk {
        return Fail(RuntimeError);
      }
      processStarted := true;
      r := Pass;
    }

    /** `_read_output` over the lines the process prints: each is stripped and kept while the running flag is set. */
    method ReadOutput(lines: seq<string>)
      modifies this`outputLines
      ensures processStarted && running ==> outputLines == old(outputLines) + StripAll(lines)
      ensures !(processStarted && running) ==> outputLines == old(outputLines)
    {
      if !processStarted {
        return;
      }
      var i := 0;
      while i < |lines|
        invariant 0 <= i <= |lines|
        invariant !running ==> outputLines == old(outputLines)
        invariant outputLines == old(outputLines) + StripAll(lines[..i])
      {
        if !running {
          break;
        }
        StrippedLinesSnoc(lines, i);
        outputLines := outputLines + [Strip(lines[i])];
        i := i + 1;
      }
      assert lines[..|lines|] == lines;
    }

    /** `_parse_power_samples`: one sample per line at most, in line order. */
    method ParsePowerSamples() returns (samples: seq<real>)
      ensures samples == LineSamples(outputLines)
    {
      var lines := outputLines;
      ghost var readings := LineReadings(lines);
      samples := [];
      for i := 0 to |lines|
        invariant samples == Collected(readings[..i])
      {
        var mw := ParseLine(lines[i]);
        assert mw == readings[i];
        CollectedSnoc(readings, i);
        if mw.Some? {
          samples := samples + [mw.value];
        }
      }
      assert readings[..|lines|] == readings;
    }

    /** `stop`: records the stop time, clears the running flag and reports the energy of the parsed samples. */
    method Stop(now: real) returns (reading: MeterReading)
      modifies this`stopTime, this`running
      ensures stopTime == now && !running
      ensures reading == MeterReading(MacEnergyWh(LineSamples(outputLines), now - startTime, samplingMs),
                                      now - startTime, samplingMs)
    {
      stopTime := now;
      running := false;
      var durationS := stopTime - startTime;
      var powerSamples := ParsePowerSamples();
      if |powerSamples| < 2 {
        if |powerSamples| == 1 {
          var avgPowerWatts := powerSamples[0] / 1000.0;
          var energyWh := avgPowerWatts * (durationS / 3600.0);
          return MeterReading(energyWh, durationS, samplingMs);
        } else {
          return MeterReading(0.0, durationS, samplingMs);
        }
      }
      var powerWatts := MilliwattsToWatts(powerSamples);
      var dtHours := DtHours(samplingMs);
      var energyWh := IntegrateTrapezoid(powerWatts, dtHours);
      reading := MeterReading(energyWh, durationS, samplingMs);
    }
  }

  // ---------------------------------------------------------------------
  // Properties

  /** The combined figure wins whenever it converts; otherwise the individual patterns decide, in order. */
  lemma LineSampleOrder(line: string)
    ensures Yield(line, CombinedPower).Some? ==> LineSample(line) == Yield(line, CombinedPower)
    ensures Yield(line, CombinedPower).None? ==> LineSample(line) == FirstYield(line, IndividualPatterns())
  {
    FirstYieldStep(line, MacPatterns());
    assert MacPatterns()[1..] == IndividualPatterns();
  }

  /** Every sample kept is a non-negative milliwatt figure. */
  lemma {:induction false} LineSamplesNonNegative(lines: seq<string>)
    ensures forall i :: 0 <= i < |LineSamples(lines)| ==> LineSamples(lines)[i] >= 0.0
    decreases |lines|
  {
    if lines != [] {
      var init := lines[..|lines| - 1];
      LineSamplesNonNegative(init);
      var readings := LineReadings(lines);
      assert readings[..|lines| - 1] == LineReadings(init);
      assert LineSamples(lines) == LineSamples(init) + Collected([readings[|lines| - 1]]);
    }
  }

  /** Non-negative figures, duration and interval never give negative energy. */
  lemma MacEnergyNonNegative(lines: seq<string>, durationS: real, samplingMs: int)
    requires durationS >= 0.0 && samplingMs >= 0
    ensures MacEnergyWh(LineSamples(lines), durationS, samplingMs) >= 0.0
  {
    var samples := LineSamples(lines);
    LineSamplesNonNegative(lines);
    if |samples| >= 2 {
      var watts := MilliwattsToWatts(samples);
      assert forall i :: 0 <= i < |watts| ==> watts[i] >= 0.0 by {
        forall i | 0 <= i < |watts| ensures watts[i] >= 0.0 {
          assert watts[i] * 1000.0 == samples[i];
        }
      }
      SampledEnergyNonNegative(watts, samplingMs);
    }
  }

  /**
   * The one-sample estimate agrees with the trapezoidal rule on a constant
   * draw: `n >= 2` equal samples over the `(n - 1) * sampling_ms` they span
   * give the same energy as the first of them held for that duration.
   */
  lemma SingleSampleConsistent(samplesMw: seq<real>, samplingMs: int, p: real)
    requires |samplesMw| >= 2
    requires forall i :: 0 <= i < |samplesMw| ==> samplesMw[i] == p
    ensures MacEnergyWh(samplesMw, (|samplesMw| - 1) as real * samplingMs as real / 1000.0, samplingMs)
            == MacEnergyWh([p], (|samplesMw| - 1) as real * samplingMs as real / 1000.0, samplingMs)
  {
    var watts := MilliwattsToWatts(samplesMw);
    TrapezoidConstant(watts, DtHours(samplingMs), p / 1000.0);
  }

  /** `float("1234")`. */
  lemma ParsesTo1234(number: string)
    requires number == "1234"
    ensures ParseDecimal(number) == Some(1234.0)
  {
    ParseDecimalDigits(number);
    assert number[..1][..0] == [] && DigitsValue(number[..1]) == 1;
    assert number[..2][..1] == number[..1] && DigitsValue(number[..2]) == 12;
    assert number[..3][..2] == number[..2] && DigitsValue(number[..3]) == 123;
    assert number[..3] == number[..|number| - 1];
  }

  /** A line such as "CPU Power: 1234 mW" reads as 1234 mW. */
  lemma CpuPowerLine(text: string)
    requires text == "CPU Power: 1234 mW"
    ensures LineSample(text) == Some(1234.0)
  {
    assert text == CpuPower.caption + " " + "1234" + " " + CpuPower.unit;
    FormattedYield(CpuPower, "1234");
    ParsesTo1234("1234");
    ShortTextNoMatch(text, CombinedPower);
    LineSampleOrder(text);
    FirstYieldStep(text, IndividualPatterns());
  }
}
