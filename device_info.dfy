/**
 * Device detection (src/utils/device_info.py). The runner describes the
 * machine it measures: a name, a category ("apple", "nvidia", "amd",
 * "intel" or "unknown"), the operating system and optional CPU, GPU, RAM
 * and architecture fields. Detection reads `platform`, a few commands
 * (`sysctl`, `system_profiler`, `nvidia-smi`, `rocm-smi`, `wmic`) and on
 * Linux `/proc/cpuinfo` and `/proc/meminfo`; everything it reads is a
 * field of `Probes`.
 */
module Device {
  import opened Wrappers
  import opened Text
  import opened Json

  /** The `DeviceInfo` dataclass: four required fields and four optional ones. */
  datatype DeviceInfo = DeviceInfo(
    deviceName: string,
    deviceType: string,
    osName: string,
    osVersion: string,
    cpuModel: Option<string>,
    gpuModel: Option<string>,
    ramGb: Option<real>,
    chipArchitecture: Option<string>)

  /** Python truthiness of an `Optional[float]`: present and not zero. */
  predicate PresentReal(x: Option<real>) {
    x.Some? && x.value != 0.0
  }

  // ---------------------------------------------------------------------
  // to_dict

  function RequiredKeys(): set<string> {
    {"device_name", "device_type", "os_name", "os_version"}
  }

  function OptionalKeys(): set<string> {
    {"cpu_model", "gpu_model", "ram_gb", "chip_architecture"}
  }

  /** The four required fields, always written. */
  function RequiredFields(info: DeviceInfo): (fields: Record)
    ensures fields.Keys == RequiredKeys()
  {
    map["device_name" := JStr(info.deviceName), "device_type" := JStr(info.deviceType),
        "os_name" := JStr(info.osName), "os_version" := JStr(info.osVersion)]
  }

  /**
   * The optional fields as `to_dict` (and the result record of `run_test`)
   * writes them: each one only when its value is truthy, so an empty string
   * or a RAM size of 0.0 is left out just like a missing value.
   */
  function OptionalFields(info: DeviceInfo): (extra: Record)
    ensures extra.Keys <= OptionalKeys()
    ensures "cpu_model" in extra <==> Present(info.cpuModel)
    ensures "gpu_model" in extra <==> Present(info.gpuModel)
    ensures "ram_gb" in extra <==> PresentReal(info.ramGb)
    ensures "chip_architecture" in extra <==> Present(info.chipArchitecture)
    ensures "cpu_model" in extra ==> extra["cpu_model"] == JStr(info.cpuModel.value)
    ensures "gpu_model" in extra ==> extra["gpu_model"] == JStr(info.gpuModel.value)
    ensures "ram_gb" in extra ==> extra["ram_gb"] == JReal(info.ramGb.value)
    ensures "chip_architecture" in extra ==> extra["chip_architecture"] == JStr(info.chipArchitecture.value)
  {
    var withCpu: Record := if Present(info.cpuModel) then map["cpu_model" := JStr(info.cpuModel.value)] else map[];
    var withGpu := if Present(info.gpuModel) then withCpu["gpu_model" := JStr(info.gpuModel.value)] else withCpu;
    var withRam := if PresentReal(info.ramGb) then withGpu["ram_gb" := JReal(info.ramGb.value)] else withGpu;
    if Present(info.chipArchitecture) then withRam["chip_architecture" := JStr(info.chipArchitecture.value)] else withRam
  }

  /** The optional fields written over `base` one at a time, as both `to_dict` and the result record do. */
  function WithOptionalFields(base: Record, info: DeviceInfo): (r: Record)
    ensures r == base + OptionalFields(info)
  {
    var withCpu := if Present(info.cpuModel) then base["cpu_model" := JStr(info.cpuModel.value)] else base;
    var withGpu := if Present(info.gpuModel) then withCpu["gpu_model" := JStr(info.gpuModel.value)] else withCpu;
    var withRam := if PresentReal(info.ramGb) then withGpu["ram_gb" := JReal(info.ramGb.value)] else withGpu;
    if Present(info.chipArchitecture) then withRam["chip_architecture" := JStr(info.chipArchitecture.value)] else withRam
  }

  /** `DeviceInfo.to_dict`: the required fields, then each optional field that is truthy. */
  method ToDict(info: DeviceInfo) returns (result: Record)
    ensures result == RequiredFields(info) + OptionalFields(info)
    ensures RequiredKeys() <= result.Keys <= RequiredKeys() + OptionalKeys()
  {
    result := map["device_name" := JStr(info.deviceName), "device_type" := JStr(info.deviceType),
                  "os_name" := JStr(info.osName), "os_version" := JStr(info.osVersion)];
    if Present(info.cpuModel) {
      result := result["cpu_model" := JStr(info.cpuModel.value)];
    }
    if Present(info.gpuModel) {
      result := result["gpu_model" := JStr(info.gpuModel.value)];
    }
    if PresentReal(info.ramGb) {
      result := result["ram_gb" := JReal(info.ramGb.value)];
    }
    if Present(info.chipArchitecture) {
      result := result["chip_architecture" := JStr(info.chipArchitecture.value)];
    }
    assert result.Keys == RequiredKeys() + OptionalFields(info).Keys;
  }

  // ---------------------------------------------------------------------
  // What detection reads

  /** One run of a command: it raised (timeout, not found, OS error) or it exited with a code and printed `stdout`. */
  datatype Command = Raised | Exited(returnCode: int, stdout: string)

  /** `_run_command`: the stripped output of a run that exits with 0, and None otherwise. */
  function RunCommand(c: Command): (out: Option<string>)
    ensures out.Some? <==> c.Exited? && c.returnCode == 0
    ensures out.Some? ==> out.value == Strip(c.stdout)
    ensures Present(out) ==> !IsSpace(out.value[0]) && !IsSpace(out.value[|out.value| - 1])
  {
    if c.Exited? && c.returnCode == 0 then Some(Strip(c.stdout)) else None
  }

  /**
   * Everything detection reads: `platform.system()`, `platform.platform()`,
   * `platform.version()`, `platform.release()`, `platform.mac_ver()[0]`,
   * `platform.machine()`, the commands it runs and the lines of the two
   * `/proc` files (None when the file cannot be opened).
   */
  datatype Probes = Probes(
    system: string,
    platformText: string,
    version: string,
    release: string,
    macVersion: string,
    machine: string,
    hwModel: Command,
    cpuBrand: Command,
    hardwareReport: Command,
    memSize: Command,
    cpuinfo: Option<seq<string>>,
    meminfo: Option<seq<string>>,
    nvidiaSmi: Command,
    rocmSmi: Command,
    wmicCpu: Command,
    wmicMemory: Command)

  /** The uncaught exception of detection: `line.split()[1]` on a "MemTotal" line with a single word raises IndexError. */
  datatype DeviceError = MemTotalIndexError

  // ---------------------------------------------------------------------
  // Line scans

  /** The four line tests of the detection loops. */
  datatype LineTest = ChipLine | ModelNameLine | MemTotalLine | GpuProductLine

  predicate Selects(t: LineTest, line: string) {
    match t
    case ChipLine => Contains(line, "Chip:") || Contains(line, "Processor Name:")
    case ModelNameLine => StartsWith(line, "model name")
    case MemTotalLine => StartsWith(line, "MemTotal")
    case GpuProductLine => Contains(line, "GPU") || Contains(line, "Radeon") || Contains(line, "Instinct")
  }

  /** Line `k` is the first line the test selects. */
  predicate IsFirstSelected(lines: seq<string>, t: LineTest, k: int) {
    0 <= k < |lines| && Selects(t, lines[k]) && forall j :: 0 <= j < k ==> !Selects(t, lines[j])
  }

  /** The index of the first line at or after `i` that the test selects. */
  function FirstSelected(lines: seq<string>, t: LineTest, i: nat): (k: Option<nat>)
    requires i <= |lines|
    ensures k.Some? ==> i <= k.value < |lines| && Selects(t, lines[k.value])
    ensures k.Some? ==> forall j :: i <= j < k.value ==> !Selects(t, lines[j])
    ensures k.None? <==> forall j :: i <= j < |lines| ==> !Selects(t, lines[j])
    decreases |lines| - i
  {
    if i == |lines| then None
    else if Selects(t, lines[i]) then Some(i)
    else FirstSelected(lines, t, i + 1)
  }

  /** The `for line in ...: if ...: break` loops: the first line the test selects. */
  method FindLine(lines: seq<string>, t: LineTest) returns (k: Option<nat>)
    ensures k == FirstSelected(lines, t, 0)
  {
    var i := 0;
    k := None;
    while i < |lines|
      invariant 0 <= i <= |lines|
      invariant FirstSelected(lines, t, 0) == FirstSelected(lines, t, i)
    {
      if Selects(t, lines[i]) {
        k := Some(i);
        break;
      }
      i := i + 1;
    }
  }

  /** `line.split(":")[-1].strip()`: the text after the last colon. */
  function AfterColon(line: string): (field: string)
    ensures ':' !in field
    ensures ':' !in line ==> field == Strip(line)
  {
    var parts := Split(line, ':');
    assert ':' !in parts[|parts| - 1];
    assert ':' !in line ==> parts == [line];
    Strip(LastField(line, ':'))
  }

  /** `line.split("\n")[0].strip()`: the first line, stripped. */
  function FirstLine(s: string): (line: string)
    ensures '\n' !in s ==> line == Strip(s)
    ensures '\n' in s ==> line == Strip(s[..IndexOf(s, '\n')])
  {
    Strip(FirstField(s, '\n'))
  }

  /** Output that starts with a visible character has a non-blank first line. */
  lemma FirstLineNonBlank(s: string)
    requires s != [] && !IsSpace(s[0])
    ensures FirstLine(s) != ""
  {
    var first := FirstField(s, '\n');
    if '\n' in s {
      var k := IndexOf(s, '\n');
      assert first == s[..k];
    } else {
      assert first == s;
    }
    assert first != [] && first[0] == s[0];
  }

  /** `[l.strip() for l in lines if l.strip()]`. */
  function NonBlank(lines: seq<string>): (kept: seq<string>)
    ensures |kept| <= |lines|
    ensures forall i :: 0 <= i < |kept| ==> kept[i] != ""
    ensures kept == [] <==> BlankLines(lines)
  {
    NonEmpty(StripAll(lines))
  }

  /** Every line strips to nothing. */
  predicate BlankLines(lines: seq<string>) {
    forall i :: 0 <= i < |lines| ==> Strip(lines[i]) == ""
  }

  /** `[s for s in ss if s]`, in order. */
  function NonEmpty(ss: seq<string>): (kept: seq<string>)
    ensures |kept| <= |ss|
    ensures forall i :: 0 <= i < |kept| ==> kept[i] != ""
    ensures kept == [] <==> forall i :: 0 <= i < |ss| ==> ss[i] == ""
  {
    if ss == [] then []
    else
      var rest := NonEmpty(ss[1..]);
      assert forall i :: 1 <= i < |ss| ==> ss[i] == ss[1..][i - 1];
      if ss[0] != "" then [ss[0]] + rest else rest
  }

  // ---------------------------------------------------------------------
  // Classification and naming

  /** The CPU keyword rule: "intel" is checked before "amd", case-insensitively. */
  function KeywordType(cpu: string): (kind: string)
    ensures kind == "intel" <==> Contains(Lower(cpu), "intel")
    ensures kind == "amd" <==> !Contains(Lower(cpu), "intel") && Contains(Lower(cpu), "amd")
    ensures kind == "unknown" <==> !Contains(Lower(cpu), "intel") && !Contains(Lower(cpu), "amd")
    ensures kind != "apple"
  {
    var cpuLower := Lower(cpu);
    if Contains(cpuLower, "intel") then "intel"
    else if Contains(cpuLower, "amd") then "amd"
    else "unknown"
  }

  /** The type after the CPU fallback: only a machine with no GPU type is classified by its CPU. */
  function ClassifyType(gpuType: string, cpu: Option<string>): (kind: string)
    ensures gpuType != "unknown" ==> kind == gpuType
    ensures gpuType == "unknown" && !Present(cpu) ==> kind == "unknown"
    ensures gpuType == "unknown" && Present(cpu) ==> kind == KeywordType(cpu.value)
    ensures gpuType != "apple" ==> kind != "apple"
  {
    if gpuType == "unknown" && Present(cpu) then KeywordType(cpu.value) else gpuType
  }

  /** `cpu_model.split("@")[0].strip()`: the CPU name without its clock speed. */
  function ShortCpu(cpu: string): (short: string)
    ensures '@' !in short
    ensures '@' !in cpu ==> short == Strip(cpu)
  {
    var parts := Split(cpu, '@');
    assert '@' !in parts[0];
    assert '@' !in cpu ==> parts == [cpu];
    Strip(FirstField(cpu, '@'))
  }

  /**
   * The Linux and Windows device name: "<prefix> with <GPU>", else
   * "<prefix> with <short CPU>", else "<prefix> (<architecture>)".
   */
  function DeviceName(prefix: string, gpu: Option<string>, cpu: Option<string>, arch: string): (name: string)
    ensures StartsWith(name, prefix + " ")
    ensures Present(gpu) ==> name == prefix + " with " + gpu.value
    ensures !Present(gpu) && Present(cpu) ==> name == prefix + " with " + ShortCpu(cpu.value)
    ensures !Present(gpu) && !Present(cpu) ==> name == prefix + " (" + arch + ")"
  {
    if Present(gpu) then prefix + " with " + gpu.value
    else if Present(cpu) then prefix + " with " + ShortCpu(cpu.value)
    else prefix + " (" + arch + ")"
  }

  /**
   * The GPU section of the Linux detection: `nvidia-smi` first (its first
   * line is the GPU), and `rocm-smi` only while no GPU is known (its first
   * line naming a GPU, Radeon or Instinct). Windows runs the first half only.
   */
  function GpuDetection(nvidia: Option<string>, rocm: Option<string>): (gpu: (Option<string>, string))
    ensures gpu.1 == "nvidia" || gpu.1 == "amd" || gpu.1 == "unknown"
    ensures gpu.1 != "apple"
    ensures gpu.1 == "unknown" <==> gpu.0.None?
    ensures gpu.1 == "nvidia" ==> Present(nvidia) && gpu.0 == Some(FirstLine(nvidia.value))
    ensures !Present(nvidia) ==> gpu == RocmDetection(rocm)
  {
    var nvidiaGpu := if Present(nvidia) then Some(FirstLine(nvidia.value)) else None;
    var nvidiaType := if Present(nvidia) then "nvidia" else "unknown";
    if !Present(nvidiaGpu) then
      match RocmDetection(rocm)
      case (None, _) => (nvidiaGpu, nvidiaType)
      case amd => amd
    else (nvidiaGpu, nvidiaType)
  }

  /** The `rocm-smi --showproductname` scan on its own. */
  function RocmDetection(rocm: Option<string>): (gpu: (Option<string>, string))
    ensures gpu.0.None? <==> gpu.1 == "unknown"
    ensures gpu.0.Some? ==> gpu.1 == "amd" && Present(rocm)
    ensures gpu.0.Some? <==>
              Present(rocm) && exists k :: 0 <= k < |Split(rocm.value, '\n')| && Selects(GpuProductLine, Split(rocm.value, '\n')[k])
    ensures gpu.0.Some? ==>
              var lines := Split(rocm.value, '\n');
              exists k :: IsFirstSelected(lines, GpuProductLine, k) && gpu.0.value == Strip(lines[k])
  {
    if !Present(rocm) then (None, "unknown")
    else
      var lines := Split(rocm.value, '\n');
      match FirstSelected(lines, GpuProductLine, 0)
      case None => (None, "unknown")
      case Some(k) =>
        assert IsFirstSelected(lines, GpuProductLine, k);
        (Some(Strip(lines[k])), "amd")
  }

  // ---------------------------------------------------------------------
  // macOS

  /** The chip name: on arm64 only, the text after the colon of the first "Chip:" or "Processor Name:" line of `system_profiler`. */
  function MacChip(p: Probes): (chip: Option<string>)
    ensures chip.Some? ==> p.machine == "arm64" && ':' !in chip.value
    ensures chip.Some? <==>
              p.machine == "arm64" && Present(RunCommand(p.hardwareReport))
              && exists k :: 0 <= k < |ChipReportLines(p)| && Selects(ChipLine, ChipReportLines(p)[k])
    ensures chip.Some? ==>
              exists k :: IsFirstSelected(ChipReportLines(p), ChipLine, k) && chip.value == AfterColon(ChipReportLines(p)[k])
  {
    if p.machine != "arm64" || !Present(RunCommand(p.hardwareReport)) then None
    else
      var lines := ChipReportLines(p);
      match FirstSelected(lines, ChipLine, 0)
      case None => None
      case Some(k) =>
        assert IsFirstSelected(lines, ChipLine, k);
        Some(AfterColon(lines[k]))
  }

  /** The lines of the `system_profiler SPHardwareDataType` output (none when the command fails). */
  function ChipReportLines(p: Probes): seq<string> {
    var report := RunCommand(p.hardwareReport);
    if report.Some? then Split(report.value, '\n') else []
  }

  /** `chip_name and "Apple" in chip_name`. */
  predicate MentionsApple(chip: Option<string>) {
    Present(chip) && Contains(chip.value, "Apple")
  }

  /** `round(int(text) / 1024**3, 1)` on truthy text, without the rounding; None when `int` fails. */
  function BytesToGb(text: Option<string>): (gb: Option<real>)
    ensures gb.Some? <==> Present(text) && ParseInt(text.value).Some?
    ensures gb.Some? ==> gb.value * 1073741824.0 == ParseInt(text.value).value as real
  {
    if !Present(text) then None
    else match ParseInt(text.value)
      case None => None
      case Some(n) => Some(n as real / 1073741824.0)
  }

  /** `sysctl -n hw.model`, or "Unknown Mac" when it fails or prints nothing. */
  function HwModel(p: Probes): (model: string)
    ensures model != ""
    ensures Present(RunCommand(p.hwModel)) ==> model == Strip(p.hwModel.stdout)
    ensures !Present(RunCommand(p.hwModel)) ==> model == "Unknown Mac"
  {
    var model := RunCommand(p.hwModel);
    if Present(model) then model.value else "Unknown Mac"
  }

  /** `_detect_macos_device`. */
  function MacDevice(p: Probes): (info: DeviceInfo)
    ensures info.osName == "macOS" && info.osVersion == (if p.macVersion != "" then p.macVersion else "Unknown")
    ensures Present(MacChip(p)) ==> info.deviceName == MacChip(p).value + " Mac (" + HwModel(p) + ")"
    ensures !Present(MacChip(p)) ==> info.deviceName == "Mac (" + HwModel(p) + ")"
    ensures info.deviceType == (if p.machine == "arm64" then "apple" else "intel")
    ensures info.deviceType == "apple" ==> info.gpuModel == MacChip(p)
    ensures info.deviceType == "apple" && !Present(MacChip(p)) ==> info.cpuModel == Some("Apple Silicon")
    ensures info.deviceType == "intel" ==> info.cpuModel == RunCommand(p.cpuBrand) && info.gpuModel == None
    ensures Present(MacChip(p)) ==> info.cpuModel == MacChip(p)
    ensures info.ramGb == BytesToGb(RunCommand(p.memSize))
    ensures info.chipArchitecture == Some(p.machine)
  {
    var chip := MacChip(p);
    var apple := p.machine == "arm64" || MentionsApple(chip);
    var name := if Present(chip) then chip.value + " Mac (" + HwModel(p) + ")" else "Mac (" + HwModel(p) + ")";
    DeviceInfo(name,
               if apple then "apple" else "intel",
               "macOS",
               if p.macVersion != "" then p.macVersion else "Unknown",
               if apple then Some(if Present(chip) then chip.value else "Apple Silicon") else RunCommand(p.cpuBrand),
               if apple then chip else None,
               BytesToGb(RunCommand(p.memSize)),
               Some(p.machine))
  }

  /** `_detect_macos_device`, step by step. */
  method DetectMacos(p: Probes) returns (info: DeviceInfo)
    ensures info == MacDevice(p)
  {
    var osVersion := if p.macVersion != "" then p.macVersion else "Unknown";
    var chipArch := p.machine;
    var hwModel := RunCommand(p.hwModel);
    var hw := if Present(hwModel) then hwModel.value else "Unknown Mac";
    var cpuBrand := RunCommand(p.cpuBrand);
    var chipName: Option<string> := None;
    if chipArch == "arm64" {
      var chipInfo := RunCommand(p.hardwareReport);
      if Present(chipInfo) {
        var lines := Split(chipInfo.value, '\n');
        var k := FindLine(lines, ChipLine);
        if k.Some? {
          chipName := Some(AfterColon(lines[k.value]));
        }
      }
    }
    var deviceType: string;
    var cpuModel: Option<string>;
    if chipArch == "arm64" || MentionsApple(chipName) {
      deviceType := "apple";
      cpuModel := Some(if Present(chipName) then chipName.value else "Apple Silicon");
    } else {
      deviceType := "intel";
      cpuModel := cpuBrand;
    }
    var ramGb := BytesToGb(RunCommand(p.memSize));
    var deviceName := if Present(chipName) then chipName.value + " Mac (" + hw + ")" else "Mac (" + hw + ")";
    info := DeviceInfo(deviceName, deviceType, "macOS", osVersion, cpuModel,
                       if deviceType == "apple" then chipName else None, ramGb, Some(chipArch));
  }

  // ---------------------------------------------------------------------
  // Linux

  /** The CPU model: the text after the colon of the first "model name" line of `/proc/cpuinfo`. */
  function CpuInfoModel(cpuinfo: Option<seq<string>>): (cpu: Option<string>)
    ensures cpu.Some? ==>
              cpuinfo.Some?
              && exists k :: IsFirstSelected(cpuinfo.value, ModelNameLine, k) && cpu.value == AfterColon(cpuinfo.value[k])
    ensures cpu.None? <==> cpuinfo.None? || forall k :: 0 <= k < |cpuinfo.value| ==> !StartsWith(cpuinfo.value[k], "model name")
  {
    if cpuinfo.None? then None
    else match FirstSelected(cpuinfo.value, ModelNameLine, 0)
      case None => None
      case Some(k) =>
        assert IsFirstSelected(cpuinfo.value, ModelNameLine, k);
        Some(AfterColon(cpuinfo.value[k]))
  }

  /**
   * The RAM of `/proc/meminfo`: the second word of the first "MemTotal" line
   * in kB, over 1024**2 (rounding left out). A file that cannot be read, no
   * such line, or a second word that `int` rejects leaves it None; a line
   * with only one word raises IndexError, which nothing catches.
   */
  function MemTotalRam(meminfo: Option<seq<string>>): (ram: Result<Option<real>, DeviceError>)
    ensures meminfo.None? ==> ram == Success(None)
  {
    if meminfo.None? then Success(None)
    else match FirstSelected(meminfo.value, MemTotalLine, 0)
      case None => Success(None)
      case Some(k) =>
        var words := Words(meminfo.value[k]);
        if |words| < 2 then Failure(MemTotalIndexError)
        else Success(KibToGb(words[1]))
  }

  /** `round(int(word) / 1024**2, 1)` without the rounding; None when `int` raises ValueError. */
  function KibToGb(word: string): (gb: Option<real>)
    ensures gb.Some? <==> ParseInt(word).Some?
    ensures gb.Some? ==> gb.value * 1048576.0 == ParseInt(word).value as real
  {
    match ParseInt(word)
    case None => None
    case Some(memKb) => Some(memKb as real / 1048576.0)
  }

  /** `_detect_linux_device`. */
  function LinuxDevice(p: Probes): (r: Result<DeviceInfo, DeviceError>)
    ensures r.Failure? <==> MemTotalRam(p.meminfo).Failure?
    ensures r.Success? ==>
              r.value.osName == "Linux" && r.value.osVersion == p.release
              && r.value.cpuModel == CpuInfoModel(p.cpuinfo) && r.value.ramGb == MemTotalRam(p.meminfo).value
              && r.value.chipArchitecture == Some(p.machine)
    ensures r.Success? ==>
              var gpu := GpuDetection(RunCommand(p.nvidiaSmi), RunCommand(p.rocmSmi));
              r.value.gpuModel == gpu.0 && r.value.deviceType == ClassifyType(gpu.1, r.value.cpuModel)
              && r.value.deviceName == DeviceName("Linux", gpu.0, r.value.cpuModel, p.machine)
  {
    match MemTotalRam(p.meminfo)
    case Failure(e) => Failure(e)
    case Success(ramGb) =>
      var cpu := CpuInfoModel(p.cpuinfo);
      var gpu := GpuDetection(RunCommand(p.nvidiaSmi), RunCommand(p.rocmSmi));
      Success(DeviceInfo(DeviceName("Linux", gpu.0, cpu, p.machine), ClassifyType(gpu.1, cpu), "Linux", p.release,
                         cpu, gpu.0, ramGb, Some(p.machine)))
  }

  /** The `/proc/cpuinfo` loop. */
  method ReadCpuModel(cpuinfo: Option<seq<string>>) returns (cpuModel: Option<string>)
    ensures cpuModel == CpuInfoModel(cpuinfo)
  {
    cpuModel := None;
    if cpuinfo.Some? {
      var k := FindLine(cpuinfo.value, ModelNameLine);
      if k.Some? {
        cpuModel := Some(AfterColon(cpuinfo.value[k.value]));
      }
    }
  }

  /** The `/proc/meminfo` loop, with the IndexError it lets through. */
  method ReadMemTotal(meminfo: Option<seq<string>>) returns (ramGb: Result<Option<real>, DeviceError>)
    ensures ramGb == MemTotalRam(meminfo)
  {
    ramGb := Success(None);
    if meminfo.Some? {
      var k := FindLine(meminfo.value, MemTotalLine);
      if k.Some? {
        var words := Words(meminfo.value[k.value]);
        if |words| < 2 {
          return Failure(MemTotalIndexError);
        }
        ramGb := Success(KibToGb(words[1]));
      }
    }
  }

  /** The GPU section: `nvidia-smi`, then the `rocm-smi` loop while no GPU is known. */
  method DetectGpu(nvidiaInfo: Option<string>, rocmInfo: Option<string>) returns (gpuModel: Option<string>, deviceType: string)
    ensures (gpuModel, deviceType) == GpuDetection(nvidiaInfo, rocmInfo)
  {
    deviceType := "unknown";
    gpuModel := None;
    if Present(nvidiaInfo) {
      gpuModel := Some(FirstLine(nvidiaInfo.value));
      deviceType := "nvidia";
    }
    if !Present(gpuModel) {
      if Present(rocmInfo) {
        var lines := Split(rocmInfo.value, '\n');
        var k := FindLine(lines, GpuProductLine);
        if k.Some? {
          gpuModel := Some(Strip(lines[k.value]));
          deviceType := "amd";
        }
      }
    }
  }

  /** `_detect_linux_device`, step by step. */
  method DetectLinux(p: Probes) returns (r: Result<DeviceInfo, DeviceError>)
    ensures r == LinuxDevice(p)
  {
    var cpuModel := ReadCpuModel(p.cpuinfo);
    var ramGb := ReadMemTotal(p.meminfo);
    if ramGb.Failure? {
      return Failure(ramGb.error);
    }
    var gpuModel, deviceType := DetectGpu(RunCommand(p.nvidiaSmi), RunCommand(p.rocmSmi));
    if deviceType == "unknown" {
      if Present(cpuModel) {
        deviceType := KeywordType(cpuModel.value);
      }
    }
    var deviceName := DeviceName("Linux", gpuModel, cpuModel, p.machine);
    r := Success(DeviceInfo(deviceName, deviceType, "Linux", p.release, cpuModel, gpuModel, ramGb.value, Some(p.machine)));
  }

  /** What `MemTotalRam` reports: IndexError exactly for a one-word "MemTotal" line, and otherwise kB over 1024**2. */
  lemma MemTotalRamSpec(meminfo: Option<seq<string>>)
    ensures MemTotalRam(meminfo).Failure? <==>
              meminfo.Some? && FirstSelected(meminfo.value, MemTotalLine, 0).Some?
              && |Words(meminfo.value[FirstSelected(meminfo.value, MemTotalLine, 0).value])| < 2
    ensures var ram := MemTotalRam(meminfo);
            ram.Success? && ram.value.Some? ==>
              meminfo.Some? && FirstSelected(meminfo.value, MemTotalLine, 0).Some? &&
              var line := meminfo.value[FirstSelected(meminfo.value, MemTotalLine, 0).value];
              |Words(line)| >= 2 && ParseInt(Words(line)[1]).Some? && ram.value.value * 1048576.0 == ParseInt(Words(line)[1]).value as real
    ensures meminfo.Some? && FirstSelected(meminfo.value, MemTotalLine, 0).None? ==> MemTotalRam(meminfo) == Success(None)
    ensures meminfo.Some? && FirstSelected(meminfo.value, MemTotalLine, 0).Some? ==>
              var words := Words(meminfo.value[FirstSelected(meminfo.value, MemTotalLine, 0).value]);
              |words| >= 2 ==> MemTotalRam(meminfo) == Success(KibToGb(words[1]))
  {
  }

  // ---------------------------------------------------------------------
  // Windows

  /** `wmic ... get <field>` output: blank lines dropped, the second line (under the header) if there are several, else the first. */
  function WmicCpu(output: Option<string>): (cpu: Option<string>)
    ensures !Present(output) ==> cpu == output
    ensures Present(output) && cpu.Some? ==> cpu.value != "" && cpu.value in NonBlank(Split(output.value, '\n'))
    ensures Present(output) && |NonBlank(Split(output.value, '\n'))| > 1 ==> cpu == Some(NonBlank(Split(output.value, '\n'))[1])
    ensures Present(output) && |NonBlank(Split(output.value, '\n'))| == 1 ==> cpu == Some(NonBlank(Split(output.value, '\n'))[0])
  {
    if !Present(output) then output
    else
      var lines := NonBlank(Split(output.value, '\n'));
      if |lines| > 1 then Some(lines[1])
      else if lines != [] then Some(lines[0])
      else None
  }

  /** The RAM of `wmic computersystem get totalphysicalmemory`: the second non-blank line in bytes, over 1024**3. */
  function WmicRam(output: Option<string>): (gb: Option<real>)
    ensures gb.Some? <==>
              Present(output) && |NonBlank(Split(output.value, '\n'))| > 1
              && BytesToGb(Some(NonBlank(Split(output.value, '\n'))[1])).Some?
    ensures gb.Some? ==> gb == BytesToGb(Some(NonBlank(Split(output.value, '\n'))[1]))
  {
    if !Present(output) then None
    else
      var lines := NonBlank(Split(output.value, '\n'));
      if |lines| > 1 then BytesToGb(Some(lines[1])) else None
  }

  /** `_detect_windows_device`. */
  function WindowsDevice(p: Probes): (info: DeviceInfo)
    ensures info.osName == "Windows" && info.osVersion == p.version
    ensures info.cpuModel == WmicCpu(RunCommand(p.wmicCpu)) && info.ramGb == WmicRam(RunCommand(p.wmicMemory))
    ensures info.deviceType != "apple"
    ensures info.deviceType == "nvidia" <==> Present(RunCommand(p.nvidiaSmi))
    ensures info.gpuModel == GpuDetection(RunCommand(p.nvidiaSmi), None).0
    ensures info.deviceName == DeviceName("Windows PC", info.gpuModel, info.cpuModel, p.machine)
    ensures info.chipArchitecture == Some(p.machine)
  {
    var cpu := WmicCpu(RunCommand(p.wmicCpu));
    var gpu := GpuDetection(RunCommand(p.nvidiaSmi), None);
    DeviceInfo(DeviceName("Windows PC", gpu.0, cpu, p.machine), ClassifyType(gpu.1, cpu), "Windows", p.version,
               cpu, gpu.0, WmicRam(RunCommand(p.wmicMemory)), Some(p.machine))
  }

  /** The `wmic cpu get name` parsing. */
  method ReadWmicCpu(output: Option<string>) returns (cpuModel: Option<string>)
    ensures cpuModel == WmicCpu(output)
  {
    cpuModel := output;
    if Present(cpuModel) {
      var lines := NonBlank(Split(cpuModel.value, '\n'));
      if |lines| > 1 {
        cpuModel := Some(lines[1]);
      } else {
        cpuModel := if lines != [] then Some(lines[0]) else None;
      }
    }
  }

  /** The `wmic computersystem get totalphysicalmemory` parsing. */
  method ReadWmicRam(output: Option<string>) returns (ramGb: Option<real>)
    ensures ramGb == WmicRam(output)
  {
    ramGb := None;
    if Present(output) {
      var lines := NonBlank(Split(output.value, '\n'));
      if |lines| > 1 {
        ramGb := BytesToGb(Some(lines[1]));
      }
    }
  }

  /** `_detect_windows_device`, step by step. */
  method DetectWindows(p: Probes) returns (info: DeviceInfo)
    ensures info == WindowsDevice(p)
  {
    var cpuModel := ReadWmicCpu(RunCommand(p.wmicCpu));
    var ramGb := ReadWmicRam(RunCommand(p.wmicMemory));
    var deviceType := "unknown";
    var gpuModel: Option<string> := None;
    var nvidiaInfo := RunCommand(p.nvidiaSmi);
    if Present(nvidiaInfo) {
      gpuModel := Some(FirstLine(nvidiaInfo.value));
      deviceType := "nvidia";
    }
    assert (gpuModel, deviceType) == GpuDetection(nvidiaInfo, None);
    if deviceType == "unknown" && Present(cpuModel) {
      deviceType := KeywordType(cpuModel.value);
    }
    var deviceName := DeviceName("Windows PC", gpuModel, cpuModel, p.machine);
    info := DeviceInfo(deviceName, deviceType, "Windows", p.version, cpuModel, gpuModel, ramGb, Some(p.machine));
  }

  // ---------------------------------------------------------------------
  // Dispatch and overrides

  /** `detect_device_info`: by `platform.system()`, with a generic record for any other system. */
  function DetectedDevice(p: Probes): (r: Result<DeviceInfo, DeviceError>)
    ensures r.Failure? ==> p.system == "Linux"
    ensures p.system == "Darwin" ==> r == Success(MacDevice(p))
    ensures p.system == "Linux" ==> r == LinuxDevice(p)
    ensures p.system == "Windows" ==> r == Success(WindowsDevice(p))
    ensures p.system !in {"Darwin", "Linux", "Windows"} ==>
              r == Success(DeviceInfo("Unknown (" + p.platformText + ")", "unknown", p.system, p.version,
                                      None, None, None, Some(p.machine)))
    ensures r.Success? ==> r.value.osName == (if p.system == "Darwin" then "macOS" else p.system)
    ensures r.Success? ==> r.value.chipArchitecture == Some(p.machine)
  {
    if p.system == "Darwin" then Success(MacDevice(p))
    else if p.system == "Linux" then LinuxDevice(p)
    else if p.system == "Windows" then Success(WindowsDevice(p))
    else Success(DeviceInfo("Unknown (" + p.platformText + ")", "unknown", p.system, p.version,
                            None, None, None, Some(p.machine)))
  }

  /**
   * `get_device_info`: the detected record, with the name and the type
   * replaced by the overrides that are truthy; every other field as detected.
   */
  method GetDeviceInfo(p: Probes, deviceName: Option<string>, deviceType: Option<string>)
    returns (r: Result<DeviceInfo, DeviceError>)
    ensures r.Failure? <==> DetectedDevice(p).Failure?
    ensures r.Success? ==>
              var detected := DetectedDevice(p).value;
              r.value.deviceName == (if Present(deviceName) then deviceName.value else detected.deviceName)
              && r.value.deviceType == (if Present(deviceType) then deviceType.value else detected.deviceType)
              && r.value.(deviceName := detected.deviceName, deviceType := detected.deviceType) == detected
  {
    var info: DeviceInfo;
    if p.system == "Darwin" {
      info := DetectMacos(p);
    } else if p.system == "Linux" {
      r := DetectLinux(p);
      if r.Failure? {
        return;
      }
      info := r.value;
    } else if p.system == "Windows" {
      info := DetectWindows(p);
    } else {
      info := DeviceInfo("Unknown (" + p.platformText + ")", "unknown", p.system, p.version,
                         None, None, None, Some(p.machine));
    }
    if Present(deviceName) {
      info := info.(deviceName := deviceName.value);
    }
    if Present(deviceType) {
      info := info.(deviceType := deviceType.value);
    }
    r := Success(info);
  }

  // ---------------------------------------------------------------------
  // Properties

  /** An NVIDIA GPU wins: with `nvidia-smi` output, the type is "nvidia" and `rocm-smi` is never consulted. */
  lemma NvidiaBeforeAmd(nvidia: Command, rocm: Option<string>)
    requires Present(RunCommand(nvidia))
    ensures GpuDetection(RunCommand(nvidia), rocm) == (Some(FirstLine(RunCommand(nvidia).value)), "nvidia")
  {
    FirstLineNonBlank(RunCommand(nvidia).value);
  }

  /** On Linux, the type is the GPU vendor when a GPU is found, and only otherwise the CPU keyword. */
  lemma LinuxTypeOrder(p: Probes)
    requires LinuxDevice(p).Success?
    ensures Present(RunCommand(p.nvidiaSmi)) ==> LinuxDevice(p).value.deviceType == "nvidia"
    ensures !Present(RunCommand(p.nvidiaSmi)) && RocmDetection(RunCommand(p.rocmSmi)).0.Some? ==>
              LinuxDevice(p).value.deviceType == "amd"
    ensures LinuxDevice(p).value.gpuModel.None? ==>
              LinuxDevice(p).value.deviceType == ClassifyType("unknown", CpuInfoModel(p.cpuinfo))
  {
    if Present(RunCommand(p.nvidiaSmi)) {
      NvidiaBeforeAmd(p.nvidiaSmi, RunCommand(p.rocmSmi));
    }
  }

  /** The Linux name follows the GPU when there is one, then the CPU, then the architecture. */
  lemma LinuxNamePrecedence(p: Probes)
    requires LinuxDevice(p).Success?
    ensures var info := LinuxDevice(p).value;
            info.deviceName == DeviceName("Linux", info.gpuModel, info.cpuModel, p.machine)
  {
  }

  /** A Windows machine without an NVIDIA GPU is classified by the wmic CPU name alone. */
  lemma WindowsCpuFallback(p: Probes)
    requires !Present(RunCommand(p.nvidiaSmi))
    ensures WindowsDevice(p).gpuModel == None
    ensures WindowsDevice(p).deviceType == ClassifyType("unknown", WmicCpu(RunCommand(p.wmicCpu)))
  {
  }

  /** Splitting "<a>\n<b>" at newlines gives back `a` and `b` when neither holds a newline. */
  lemma SplitTwoLines(a: string, b: string)
    requires '\n' !in a && '\n' !in b
    ensures Split(a + "\n" + b, '\n') == [a, b]
  {
    var s := a + "\n" + b;
    assert s[..|a|] == a && s[|a| + 1..] == b;
    assert IndexOf(s, '\n') == |a| by {
      assert s[|a|] == '\n';
      assert '\n' !in s[..|a|];
    }
  }

  /**
   * A two-line wmic table (header, then value) yields the value: `split`
   * gives the two lines back and neither is blank.
   */
  lemma WmicTableValue(header: string, value: string)
    requires header != "" && value != ""
    requires Strip(header) == header && Strip(value) == value
    requires '\n' !in header && '\n' !in value
    ensures WmicCpu(Some(header + "\n" + value)) == Some(value)
  {
    var s := header + "\n" + value;
    SplitTwoLines(header, value);
    assert NonBlank([header, value]) == [header, value] by {
      assert StripAll([header, value]) == [header, value];
      assert [header, value][1..] == [value];
      assert NonEmpty([value]) == [value] by { assert [value][1..] == []; }
    }
    assert s != [] && s[0] == header[0];
    assert Present(Some(s));
  }
}
