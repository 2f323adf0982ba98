/**
 * The CPU meter (src/energy_meter/rapl_meter.py). It reads the kernel's
 * RAPL energy counter, in microjoules, under `/sys/class/powercap` at
 * `start` and at `stop`, and reports the difference in watt-hours, allowing
 * for one wrap of a 32-bit counter. The powercap directory, the file
 * permission and every counter read are parameters.
 */
module Rapl {
  import opened Wrappers
  import opened Text
  import opened Energy

  /** An entry of `/sys/class/powercap`: its name and whether it holds an `energy_uj` file. */
  datatype Zone = Zone(name: string, hasEnergyFile: bool)

  /** Whether `/sys/class/powercap` exists, and its entries in the order the directory lists them. */
  datatype Powercap = Powercap(baseExists: bool, entries: seq<Zone>)

  /** The entries `glob("intel-rapl:*")` yields. */
  predicate IsRaplZone(z: Zone) {
    StartsWith(z.name, "intel-rapl:")
  }

  /** A zone the meter can read: a RAPL zone with an energy counter. */
  predicate IsEnergyZone(z: Zone) {
    IsRaplZone(z) && z.hasEnergyFile
  }

  /** The index of the first entry at or after `i` that is a RAPL zone with an energy counter. */
  function FirstEnergyZoneFrom(entries: seq<Zone>, i: nat): (k: Option<nat>)
    requires i <= |entries|
    ensures k.Some? ==> i <= k.value < |entries| && IsEnergyZone(entries[k.value])
    ensures k.Some? ==> forall j :: i <= j < k.value ==> !IsEnergyZone(entries[j])
    ensures k.None? <==> forall j :: i <= j < |entries| ==> !IsEnergyZone(entries[j])
    decreases |entries| - i
  {
    if i == |entries| then None
    else if IsEnergyZone(entries[i]) then Some(i)
    else FirstEnergyZoneFrom(entries, i + 1)
  }

  /** The zone `is_available` settles on: none without the powercap directory, else the first zone with a counter. */
  function RaplZone(fs: Powercap): (zone: Option<string>)
    ensures zone.Some? ==> fs.baseExists && exists k :: 0 <= k < |fs.entries| && fs.entries[k].name == zone.value && IsEnergyZone(fs.entries[k])
    ensures zone.None? <==> !fs.baseExists || forall j :: 0 <= j < |fs.entries| ==> !IsEnergyZone(fs.entries[j])
  {
    if !fs.baseExists then None
    else
      match FirstEnergyZoneFrom(fs.entries, 0)
      case None => None
      case Some(k) => Some(fs.entries[k].name)
  }

  /** The counter range the meter assumes: 2^32 microjoules. */
  const CounterRange: real := 4294967296.0

  /** `energy_diff_uj / 3_600_000_000`, after adding 2^32 once to a negative difference. */
  function RaplEnergyWh(startUj: real, stopUj: real): (energyWh: real)
    ensures stopUj >= startUj ==> energyWh * 3600000000.0 == stopUj - startUj
    ensures stopUj < startUj ==> energyWh * 3600000000.0 == stopUj - startUj + CounterRange
  {
    var diffUj := stopUj - startUj;
    var wrappedUj := if diffUj < 0.0 then diffUj + CounterRange else diffUj;
    wrappedUj / 3600000000.0
  }

  class RaplMeter {
    const samplingMs: int
    var raplPath: Option<string>
    var startEnergyUj: real
    var startTime: real
    var stopTime: real

    constructor (samplingMs: int)
      ensures this.samplingMs == samplingMs
      ensures raplPath == None && startEnergyUj == 0.0 && startTime == 0.0 && stopTime == 0.0
    {
      this.samplingMs := samplingMs;
      raplPath := None;
      startEnergyUj := 0.0;
      startTime, stopTime := 0.0, 0.0;
    }

    /**
     * `is_available`: walks the RAPL zones in order and, at the first one with
     * an energy counter, remembers it as the meter's path and answers true.
     * Without one the answer is false and the path is left as it was.
     */
    method IsAvailable(fs: Powercap) returns (available: bool)
      modifies this`raplPath
      ensures available <==> RaplZone(fs).Some?
      ensures available ==> raplPath == RaplZone(fs)
      ensures !available ==> raplPath == old(raplPath)
    {
      if !fs.baseExists {
        return false;
      }
      var i := 0;
      while i < |fs.entries|
        invariant 0 <= i <= |fs.entries|
        invariant FirstEnergyZoneFrom(fs.entries, 0) == FirstEnergyZoneFrom(fs.entries, i)
        invariant raplPath == old(raplPath)
      {
        var zone := fs.entries[i];
        if IsRaplZone(zone) && zone.hasEnergyFile {
          raplPath := Some(zone.name);
          return true;
        }
        i := i + 1;
      }
      return false;
    }

    /**
     * `_read_energy_uj`: RuntimeError when no path was found, and when the
     * counter file cannot be opened or its text is not a number (`counter`
     * is None); otherwise the counter value.
     */
    function ReadEnergyUj(counter: Option<real>): (r: Result<real, MeterError>)
      reads this
      ensures r.Success? <==> raplPath.Some? && counter.Some?
      ensures r.Success? ==> r.value == counter.value
      ensures r.Failure? ==> r.error == RuntimeError
    {
      if raplPath.None? then Failure(RuntimeError)
      else if counter.None? then Failure(RuntimeError)
      else Success(counter.value)
    }

    /**
     * `start`: RuntimeError without an energy zone, PermissionError when its
     * counter file is not readable, and otherwise the start time is set
     * before the counter is read, so a failing read (RuntimeError) still
     * leaves the new start time behind.
     */
    method Start(fs: Powercap, readable: bool, counter: Option<real>, now: real) returns (r: Outcome<MeterError>)
      modifies this
      ensures RaplZone(fs).None? ==>
                r == Fail(RuntimeError) && raplPath == old(raplPath)
                && startTime == old(startTime) && startEnergyUj == old(startEnergyUj)
      ensures RaplZone(fs).Some? ==> raplPath == RaplZone(fs)
      ensures RaplZone(fs).Some? && !readable ==>
                r == Fail(PermissionError) && startTime == old(startTime) && startEnergyUj == old(startEnergyUj)
      ensures RaplZone(fs).Some? && readable ==> startTime == now
      ensures RaplZone(fs).Some? && readable && counter.None? ==>
                r == Fail(RuntimeError) && startEnergyUj == old(startEnergyUj)
      ensures RaplZone(fs).Some? && readable && counter.Some? ==>
                r == Pass && startEnergyUj == counter.value
      ensures stopTime == old(stopTime)
    {
      var available := IsAvailable(fs);
      if !available {
        return Fail(RuntimeError);
      }
      if raplPath.Some? && !readable {
        return Fail(PermissionError);
      }
      startTime := now;
      var read := ReadEnergyUj(counter);
      if read.Failure? {
        return Fail(read.error);
      }
      startEnergyUj := read.value;
      r := Pass;
    }

    /**
     * `stop`: sets the stop time, reads the counter again (RuntimeError if
     * that fails) and reports the counter difference in watt-hours.
     */
    method Stop(counter: Option<real>, now: real) returns (r: Result<MeterReading, MeterError>)
      modifies this`stopTime
      ensures stopTime == now
      ensures r.Failure? <==> raplPath.None? || counter.None?
      ensures r.Failure? ==> r.error == RuntimeError
      ensures r.Success? ==>
                r.value == MeterReading(RaplEnergyWh(startEnergyUj, counter.value), now - startTime, samplingMs)
    {
      stopTime := now;
      var read := ReadEnergyUj(counter);
      if read.Failure? {
        return Failure(read.error);
      }
      var stopEnergyUj := read.value;
      var durationS := stopTime - startTime;
      var energyDiffUj := stopEnergyUj - startEnergyUj;
      if energyDiffUj < 0.0 {
        var maxCounter := 4294967296.0;
        energyDiffUj := energyDiffUj + maxCounter;
      }
      var energyWh := energyDiffUj / 3600000000.0;
      r := Success(MeterReading(energyWh, durationS, samplingMs));
    }
  }

  // ---------------------------------------------------------------------
  // Properties of the counter difference

  /**
   * For counters within [0, 2^32), the reported energy is never negative and
   * stays below one full counter range, 2^32 µJ (about 1.19 Wh).
   */
  lemma EnergyBounds(startUj: real, stopUj: real)
    requires 0.0 <= startUj < CounterRange && 0.0 <= stopUj < CounterRange
    ensures 0.0 <= RaplEnergyWh(startUj, stopUj)
    ensures RaplEnergyWh(startUj, stopUj) * 3600000000.0 < CounterRange
  {
  }

  /**
   * The wrap-around correction recovers the energy actually consumed when the
   * counter advanced by less than one full range: a counter that went from
   * `startUj` up by `deltaUj` modulo 2^32 reports exactly `deltaUj`.
   */
  lemma WrapRecoversDelta(startUj: real, deltaUj: real)
    requires 0.0 <= startUj < CounterRange && 0.0 <= deltaUj < CounterRange
    ensures var stopUj := if startUj + deltaUj < CounterRange then startUj + deltaUj else startUj + deltaUj - CounterRange;
            RaplEnergyWh(startUj, stopUj) * 3600000000.0 == deltaUj
  {
  }

  /** One watt-hour is 3.6e9 µJ: a counter that advanced by 3.6e9 reports 1 Wh. */
  lemma OneWattHour(startUj: real)
    ensures RaplEnergyWh(startUj, startUj + 3600000000.0) == 1.0
  {
  }

  /** Every meter the walk finds is a RAPL zone with a counter, and no earlier entry is one. */
  lemma {:induction false} RaplZoneIsFirst(fs: Powercap, k: nat)
    requires fs.baseExists && k < |fs.entries| && IsEnergyZone(fs.entries[k])
    requires forall j :: 0 <= j < k ==> !IsEnergyZone(fs.entries[j])
    ensures RaplZone(fs) == Some(fs.entries[k].name)
  {
    FirstZoneAt(fs.entries, 0, k);
  }

  lemma {:induction false} FirstZoneAt(entries: seq<Zone>, i: nat, k: nat)
    requires i <= k < |entries| && IsEnergyZone(entries[k])
    requires forall j :: i <= j < k ==> !IsEnergyZone(entries[j])
    ensures FirstEnergyZoneFrom(entries, i) == Some(k)
    decreases k - i
  {
    if i < k {
      FirstZoneAt(entries, i + 1, k);
    }
  }
}
