/**
 * Platform detection (src/energy_meter/integrator.py): `get_platform_meter`
 * picks the meter for the host. macOS always gets the powermetrics meter;
 * Linux tries NVIDIA (NVML), then AMD (rocm-smi), then the CPU's RAPL
 * counter; anything else raises NotImplementedError. What each meter's
 * availability probe sees is part of the host description.
 */
module Integrator {
  import opened Wrappers
  import Nvml
  import Rapl

  /** What the probes of a host see: `sys.platform`, NVML, `rocm-smi` on the PATH, and the powercap directory. */
  datatype Host = Host(platform: string, nvmlProbe: Nvml.Probe, rocmOnPath: bool, powercap: Rapl.Powercap)

  /** The meter chosen; a RAPL meter carries the zone its availability probe settled on. */
  datatype MeterKind = MacosKind | NvmlKind | RocmSmiKind | RaplKind(zone: string)

  datatype Selection = Selection(kind: MeterKind, samplingMs: int)

  /** The two NotImplementedError cases: Linux with no usable meter, or another platform. */
  datatype PlatformError = NoLinuxMeter | UnsupportedPlatform(platform: string)

  /** `MacosMeter.is_available`. */
  predicate MacosAvailable(host: Host) {
    host.platform == "darwin"
  }

  /** `get_platform_meter`: the first available meter in priority order, built with the caller's sampling interval. */
  function GetPlatformMeter(host: Host, samplingMs: int): (r: Result<Selection, PlatformError>)
    ensures r.Success? ==> r.value.samplingMs == samplingMs
    ensures r.Success? <==>
              host.platform == "darwin"
              || (host.platform == "linux"
                  && (Nvml.IsAvailable(host.nvmlProbe) || host.rocmOnPath || Rapl.RaplZone(host.powercap).Some?))
    ensures r.Failure? ==>
              r.error == (if host.platform == "linux" then NoLinuxMeter else UnsupportedPlatform(host.platform))
  {
    if host.platform == "darwin" && MacosAvailable(host) then Success(Selection(MacosKind, samplingMs))
    else if host.platform == "linux" then
      if Nvml.IsAvailable(host.nvmlProbe) then Success(Selection(NvmlKind, samplingMs))
      else if host.rocmOnPath then Success(Selection(RocmSmiKind, samplingMs))
      else match Rapl.RaplZone(host.powercap)
        case Some(zone) => Success(Selection(RaplKind(zone), samplingMs))
        case None => Failure(NoLinuxMeter)
    else Failure(UnsupportedPlatform(host.platform))
  }

  /** Whether the availability probe of the meter `kind` succeeds on the host. */
  predicate Available(host: Host, kind: MeterKind) {
    match kind
    case MacosKind => MacosAvailable(host)
    case NvmlKind => Nvml.IsAvailable(host.nvmlProbe)
    case RocmSmiKind => host.rocmOnPath
    case RaplKind(zone) => Rapl.RaplZone(host.powercap) == Some(zone)
  }

  /** The Linux priority, highest first: a meter's rank. */
  function LinuxRank(kind: MeterKind): nat {
    match kind
    case NvmlKind => 0
    case RocmSmiKind => 1
    case RaplKind(_) => 2
    case MacosKind => 3
  }

  /**
   * The meters `get_platform_meter` would try on the host, in its order: the
   * powermetrics meter on darwin; NVIDIA, AMD and RAPL on linux, the RAPL
   * meter carrying the zone its probe settles on; none elsewhere.
   */
  function Candidates(host: Host): seq<MeterKind> {
    if host.platform == "darwin" then [MacosKind]
    else if host.platform == "linux" then
      [NvmlKind, RocmSmiKind, RaplKind(match Rapl.RaplZone(host.powercap) case Some(zone) => zone case None => "")]
    else []
  }

  /** The probes run over `candidates`: each in turn, stopping at the first that answers. */
  function ProbesRun(host: Host, candidates: seq<MeterKind>): (probed: seq<MeterKind>)
    ensures |probed| <= |candidates| && probed == candidates[..|probed|]
    ensures probed == [] <==> candidates == []
    ensures forall i :: 0 <= i < |probed| - 1 ==> !Available(host, probed[i])
    ensures probed != [] && !Available(host, probed[|probed| - 1]) ==> probed == candidates
  {
    if candidates == [] then []
    else if Available(host, candidates[0]) then [candidates[0]]
    else [candidates[0]] + ProbesRun(host, candidates[1..])
  }

  /**
   * No probe runs once one has answered: the meter chosen is the last one
   * probed, and every earlier probe failed; a failure comes after every
   * candidate was probed and none answered.
   */
  lemma {:induction false} ProbesEndAtChoice(host: Host, samplingMs: int)
    ensures var r, probed := GetPlatformMeter(host, samplingMs), ProbesRun(host, Candidates(host));
            r.Success? ==> probed != [] && probed[|probed| - 1] == r.value.kind
    ensures var r, probed := GetPlatformMeter(host, samplingMs), ProbesRun(host, Candidates(host));
            r.Failure? ==> probed == Candidates(host) && forall i :: 0 <= i < |probed| ==> !Available(host, probed[i])
  {
    var cs := Candidates(host);
    var probed := ProbesRun(host, cs);
    if host.platform == "linux" {
      var rapl := cs[2];
      assert Available(host, rapl) <==> Rapl.RaplZone(host.powercap).Some?;
      if !Nvml.IsAvailable(host.nvmlProbe) && !host.rocmOnPath {
        assert ProbesRun(host, cs[2..]) == [rapl];
      }
    }
  }

  /**
   * The meter chosen is available, and on Linux every meter of higher
   * priority is not: NVIDIA before AMD before RAPL.
   */
  lemma ChosenIsFirstAvailable(host: Host, samplingMs: int)
    requires GetPlatformMeter(host, samplingMs).Success?
    ensures Available(host, GetPlatformMeter(host, samplingMs).value.kind)
    ensures host.platform == "darwin" <==> GetPlatformMeter(host, samplingMs).value.kind == MacosKind
    ensures host.platform == "linux" ==>
              var chosen := GetPlatformMeter(host, samplingMs).value.kind;
              (LinuxRank(chosen) > 0 ==> !Nvml.IsAvailable(host.nvmlProbe))
              && (LinuxRank(chosen) > 1 ==> !host.rocmOnPath)
  {
  }

  /** Whatever the other probes see, an available NVIDIA GPU wins on Linux. */
  lemma NvidiaFirst(host: Host, samplingMs: int)
    requires host.platform == "linux" && Nvml.IsAvailable(host.nvmlProbe)
    ensures GetPlatformMeter(host, samplingMs) == Success(Selection(NvmlKind, samplingMs))
  {
  }

  /** RAPL is chosen exactly when neither GPU meter is available and a RAPL zone with a counter exists. */
  lemma RaplLast(host: Host, samplingMs: int)
    requires host.platform == "linux"
    ensures (GetPlatformMeter(host, samplingMs).Success? && GetPlatformMeter(host, samplingMs).value.kind.RaplKind?)
            <==> !Nvml.IsAvailable(host.nvmlProbe) && !host.rocmOnPath && Rapl.RaplZone(host.powercap).Some?
  {
  }
}
