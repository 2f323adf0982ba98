/**
 * The NVIDIA meter (src/energy_meter/nvml_meter.py). A background thread
 * polls the GPU's power draw in milliwatts every `sampling_ms`; `stop`
 * integrates the samples with the trapezoidal rule at a fixed step. The NVML
 * library calls are parameters: what the probe, the initialisation, each
 * power read and the shutdown yielded.
 */
module Nvml {
  import opened Wrappers
  import opened Energy

  /** What `is_available` sees: no pynvml module, `nvmlInit` raising, the device count raising, or a count followed by a shutdown that may raise. */
  datatype Probe = LibraryMissing | InitRaises | CountRaises | Counted(count: int, shutdownRaises: bool)

  /** What `start` sees: `nvmlInit` raising, the handle lookup raising, or the device handle. */
  datatype Init = InitFails | HandleFails | Handle(device: nat)

  /** `is_available`: any exception counts as unavailable, and so does a device count of zero. */
  predicate IsAvailable(probe: Probe)
    ensures IsAvailable(probe) <==> probe.Counted? && probe.count > 0 && !probe.shutdownRaises
  {
    match probe
    case Counted(count, shutdownRaises) => !shutdownRaises && count > 0
    case _ => false
  }

  /** The energy `stop` reports for milliwatt samples taken `samplingMs` apart. */
  function EnergyWh(samplesMw: seq<real>, samplingMs: int): (energyWh: real)
    ensures |samplesMw| < 2 ==> energyWh == 0.0
  {
    SampledEnergyWh(MilliwattsToWatts(samplesMw), samplingMs)
  }

  class NvmlMeter {
    const samplingMs: int
    const deviceIndex: nat
    /** Whether `import pynvml` succeeded (the module flag `NVML_AVAILABLE`). */
    const libraryInstalled: bool
    var handle: Option<nat>
    var powerSamples: seq<real>
    var startTime: real
    var stopTime: real
    var running: bool
    var nvmlInitialized: bool

    constructor (samplingMs: int, deviceIndex: nat, libraryInstalled: bool)
      ensures this.samplingMs == samplingMs && this.deviceIndex == deviceIndex
      ensures this.libraryInstalled == libraryInstalled
      ensures handle == None && powerSamples == [] && startTime == 0.0 && stopTime == 0.0
      ensures !running && !nvmlInitialized
    {
      this.samplingMs := samplingMs;
      this.deviceIndex := deviceIndex;
      this.libraryInstalled := libraryInstalled;
      handle := None;
      powerSamples := [];
      startTime, stopTime := 0.0, 0.0;
      running, nvmlInitialized := false, false;
    }

    /**
     * `start`: raises RuntimeError without pynvml or when NVML cannot be
     * initialised; otherwise clears the samples, records the start time and
     * sets the running flag that keeps the polling loop alive.
     */
    method Start(init: Init, now: real) returns (r: Outcome<MeterError>)
      modifies this
      ensures !libraryInstalled || init.InitFails? ==> r == Fail(RuntimeError) && unchanged(this)
      ensures libraryInstalled && init.HandleFails? ==>
                r == Fail(RuntimeError) && nvmlInitialized
                && running == old(running) && powerSamples == old(powerSamples)
                && startTime == old(startTime) && handle == old(handle)
      ensures libraryInstalled && init.Handle? ==>
                r == Pass && running && powerSamples == [] && startTime == now
                && nvmlInitialized && handle == Some(init.device)
      ensures stopTime == old(stopTime)
    {
      if !libraryInstalled {
        return Fail(RuntimeError);
      }
      match init {
        case InitFails =>
          return Fail(RuntimeError);
        case HandleFails =>
          nvmlInitialized := true;
          return Fail(RuntimeError);
        case Handle(device) =>
          nvmlInitialized := true;
          handle := Some(device);
      }
      running := true;
      powerSamples := [];
      startTime := now;
      r := Pass;
    }

    /** One pass of the polling loop: a read appends its milliwatt value; a read that raised is skipped. */
    method PollOnce(reading: Option<real>)
      modifies this`powerSamples
      ensures powerSamples == old(powerSamples) + Collected([reading])
    {
      if reading.Some? {
        powerSamples := powerSamples + [reading.value];
      }
    }

    /** `_poll_power` over the reads it gets to make: polls only while the running flag is set. */
    method PollPower(readings: seq<Option<real>>)
      modifies this`powerSamples
      ensures powerSamples == old(powerSamples) + (if running then Collected(readings) else [])
    {
      var i := 0;
      while running && i < |readings|
        invariant 0 <= i <= |readings|
        invariant !running ==> i == 0
        invariant powerSamples == old(powerSamples) + Collected(readings[..i])
      {
        PollOnce(readings[i]);
        CollectedSnoc(readings, i);
        i := i + 1;
      }
      assert i == |readings| ==> readings[..i] == readings;
    }

    /**
     * `stop`: records the stop time, clears the running flag, shuts NVML
     * down if it was initialised (a failing shutdown is ignored and leaves
     * the flag set) and reports the trapezoidal energy of the samples.
     */
    method Stop(now: real, shutdownOk: bool) returns (reading: MeterReading)
      modifies this`stopTime, this`running, this`nvmlInitialized
      ensures stopTime == now && !running
      ensures nvmlInitialized == (old(nvmlInitialized) && !shutdownOk)
      ensures reading == MeterReading(EnergyWh(powerSamples, samplingMs), now - startTime, samplingMs)
    {
      stopTime := now;
      running := false;
      if nvmlInitialized && shutdownOk {
        nvmlInitialized := false;
      }
      var durationS := stopTime - startTime;
      if |powerSamples| < 2 {
        return MeterReading(0.0, durationS, samplingMs);
      }
      var powerWatts := MilliwattsToWatts(powerSamples);
      var dtHours := DtHours(samplingMs);
      var energyWh := IntegrateTrapezoid(powerWatts, dtHours);
      reading := MeterReading(energyWh, durationS, samplingMs);
    }
  }

  // ---------------------------------------------------------------------
  // What `stop` reports

  /** With two or more samples the energy is the milliwatt trapezoid divided by 1000: the sum of (p[i] + p[i+1]) / 2000 * dt. */
  lemma EnergyIsMilliwattTrapezoid(samplesMw: seq<real>, samplingMs: int)
    requires |samplesMw| >= 2
    ensures EnergyWh(samplesMw, samplingMs) * 1000.0 == Trapezoid(samplesMw, DtHours(samplingMs))
  {
    TrapezoidMilliwatts(samplesMw, DtHours(samplingMs));
  }

  /** A constant draw of `p` mW over `n >= 2` samples gives p / 1000 * (n - 1) * sampling_ms / 3,600,000 Wh. */
  lemma EnergyOfConstantDraw(samplesMw: seq<real>, samplingMs: int, p: real)
    requires |samplesMw| >= 2
    requires forall i :: 0 <= i < |samplesMw| ==> samplesMw[i] == p
    ensures EnergyWh(samplesMw, samplingMs) == p / 1000.0 * (|samplesMw| - 1) as real * samplingMs as real / 3600000.0
  {
    var watts := MilliwattsToWatts(samplesMw);
    TrapezoidConstant(watts, DtHours(samplingMs), p / 1000.0);
  }

  /** Ten 20 W samples 100 ms apart span 0.9 s and give 20 * 0.9 / 3600 = 0.005 Wh. */
  lemma TenSamplesOfTwentyWatts()
    ensures EnergyWh(seq(10, _ => 20000.0), 100) == 0.005
  {
    EnergyOfConstantDraw(seq(10, _ => 20000.0), 100, 20000.0);
  }

  /** Non-negative samples give non-negative energy. */
  lemma EnergyNonNegative(samplesMw: seq<real>, samplingMs: int)
    requires samplingMs >= 0
    requires forall i :: 0 <= i < |samplesMw| ==> samplesMw[i] >= 0.0
    ensures EnergyWh(samplesMw, samplingMs) >= 0.0
  {
    SampledEnergyNonNegative(MilliwattsToWatts(samplesMw), samplingMs);
  }
}
