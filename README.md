# Energy leaderboard runner — a Dafny model of its metering core

The energy leaderboard runner sends a fixed set of prompts to a language
model, measures the energy each prompt costs on the local machine and writes
one JSON record per prompt. This project models the parts of that program
that decide the numbers and the records:

- the four energy meters: NVIDIA through NVML, AMD through `rocm-smi`, macOS
  through `powermetrics`, and the CPU's RAPL counter;
- the choice of meter per platform;
- the derived per-token and CO2 metrics, and the export;
- the test-set lookup and validation, the prompt loop and the record
  assembled for each prompt;
- device detection and classification;
- the batch script that runs the four test sets.

**How the model is built.**
- Sensor readings, subprocess outputs, file contents and clock readings are
  parameters.
- The meters are classes whose methods update their fields the way the
  Python methods update `self`.
- Energy integration, pattern matching and record building are pure
  functions, proved against their contracts and lemmas.
- Every loop of the source is a `method` with a `while` or `for` loop. Each
  such method is proved equal to the function that specifies it.
- Arithmetic is exact (`real`); Python's floats and `round(x, n)` are not
  modelled.

**Files.**

| file | models |
|---|---|
| `wrappers.dfy` | Option, Result and a pass/fail Outcome |
| `text.dfy` | the `str` methods the code uses: `strip`, `lower`, `rstrip(chars)`, `split`, `find`, `int()`/`float()` on plain decimal text, lexicographic order |
| `json.dfy` | JSON values, `dict.get` |
| `patterns.dfy` | the fixed `caption: number unit` regular expressions, `re.search` and `float(match.group(1))` |
| `energy.dfy` | the trapezoid sum with fixed step shared by the sampling meters, the mW to W conversion, the sample list built by polling |
| `nvml_meter.dfy`, `rocm_smi_meter.dfy`, `macos_meter.dfy`, `rapl_meter.dfy` | the four meters |
| `integrator.dfy` | `get_platform_meter` |
| `result_exporter.dfy` | `export_results`, `validate_result_schema` |
| `device_info.dfy` | `DeviceInfo.to_dict`, `_run_command`, the three detectors, `get_device_info` |
| `result_record.dfy` | the record `run_test` assembles per prompt |
| `main.dfy` | `resolve_testset_path`, `load_testset`, `get_available_testsets`, the prompt loop and the export at the end of `run_test` |
| `run_all_tests.dfy` | `sanitize_model_name`, the output path, the command vector and the loop over the four test sets |

**Where the design description and the code differ, the model follows the
code:**
- No meter subtracts an idle baseline; `energy_wh_net` is the raw energy.
- The sampling meters integrate with the fixed step `sampling_ms`, whatever
  the real spacing of the samples.
- `start` and `stop` do not check whether the meter is already running, and
  no meter counts failed samples.
- The ROCm meter integrates its samples as watts, with no milliwatt
  conversion.
- The RAPL counter is corrected for one wrap at 2^32 µJ at most.
- When `generate` raises, the prompt is skipped before `meter.stop()` is
  called.
- Selecting a meter raises NotImplementedError when no meter fits. On macOS
  the meter reports itself available whenever the platform is darwin, so
  selection there always succeeds.
- A macOS `start` whose `powermetrics` cannot be spawned has already set the
  running flag and cleared the line buffer before it raises.
- `rstrip(".json")` strips any trailing run of the characters `.`, `j`, `s`,
  `o` and `n`, not the suffix. For example `"lesson"` normalises to `"le"`.
  `Benchmark.Normalize` and `Benchmark.JsonSuffixDropped` state this.

## Model

| member | source | states |
|---|---|---|
| Energy.DtHours | src/energy_meter/nvml_meter.py:139 | the step in hours is `sampling_ms / 3 600 000`, non-negative for a non-negative interval |
| Energy.IntegrateTrapezoid | src/energy_meter/nvml_meter.py:142-145 | the accumulating loop equals the trapezoid sum over consecutive pairs of samples |
| Energy.MilliwattsToWatts | src/energy_meter/nvml_meter.py:136 | same length; each watt value times 1000 is the milliwatt sample |
| Energy.SampledEnergyWh | src/energy_meter/rocm_smi_meter.py:140-157 | fewer than two samples give 0.0 |
| Energy.SampledEnergyNonNegative | src/energy_meter/rocm_smi_meter.py:151-157 | non-negative samples and interval give non-negative energy |
| Energy.MulMonotone | src/energy_meter/nvml_meter.py:142-145 | multiplying by a non-negative factor keeps order (used by the bounds) |
| Energy.TrapezoidConstant | src/energy_meter/nvml_meter.py:142-145 | a constant draw c over n samples gives `c·(n−1)·dt` |
| Energy.PartialConstant | src/energy_meter/nvml_meter.py:142-145 | the first k intervals of a constant draw give `c·k·dt` |
| Energy.TrapezoidBounds | src/energy_meter/nvml_meter.py:142-145 | samples between lo and hi give energy between `lo·intervals·dt` and `hi·intervals·dt` |
| Energy.PartialLowerBound | src/energy_meter/nvml_meter.py:142-145 | lower bound for the first k intervals |
| Energy.PartialUpperBound | src/energy_meter/nvml_meter.py:142-145 | upper bound for the first k intervals |
| Energy.TrapezoidAppend | src/energy_meter/nvml_meter.py:142-145 | one more sample adds exactly the trapezoid of the last pair |
| Energy.PartialPrefix | src/energy_meter/nvml_meter.py:142-145 | samples appended later do not change the sum over earlier intervals |
| Energy.TrapezoidMilliwatts | src/energy_meter/nvml_meter.py:136-145 | converting to watts first scales the sum by exactly 1/1000 |
| Energy.PartialMilliwatts | src/energy_meter/nvml_meter.py:136-145 | the same for the first k intervals |
| Energy.Collected | src/energy_meter/nvml_meter.py:91-96 | polling keeps at most one sample per step, and all of them when every read succeeds |
| Energy.CollectedConcat | src/energy_meter/nvml_meter.py:91-96 | the samples of two polling runs are the samples of the first followed by those of the second |
| Energy.CollectedSnoc | src/energy_meter/nvml_meter.py:91-96 | one more step adds its reading when there is one and nothing otherwise |
| Nvml.IsAvailable | src/energy_meter/nvml_meter.py:42-58 | available exactly when pynvml is present, init and the device count succeed, the count is above 0 and shutdown does not raise |
| Nvml.EnergyWh | src/energy_meter/nvml_meter.py:127-145 | fewer than two samples give 0.0 |
| Nvml.NvmlMeter.constructor | src/energy_meter/nvml_meter.py:24-40 | the configured interval and device index, no handle, no samples, zero times, not running |
| Nvml.NvmlMeter.Start | src/energy_meter/nvml_meter.py:60-83 | RuntimeError with nothing changed when pynvml is missing or init raises; after a handle error NVML stays initialised; on success samples empty, running set, start time recorded |
| Nvml.NvmlMeter.PollOnce | src/energy_meter/nvml_meter.py:89-96 | a read that raises leaves the samples unchanged, otherwise exactly the reading is appended |
| Nvml.NvmlMeter.PollPower | src/energy_meter/nvml_meter.py:85-98 | while running, the samples grow by the successful readings in order; a stopped meter collects nothing |
| Nvml.NvmlMeter.Stop | src/energy_meter/nvml_meter.py:100-151 | running cleared, stop time recorded, NVML shut down unless shutdown raises, and the reading is `EnergyWh(samples)`, `now − start_time` and the configured interval |
| Nvml.EnergyIsMilliwattTrapezoid | src/energy_meter/nvml_meter.py:136-145 | with two or more samples the energy is the milliwatt trapezoid divided by 1000 |
| Nvml.EnergyOfConstantDraw | src/energy_meter/nvml_meter.py:136-145 | p mW over n ≥ 2 samples gives `p/1000·(n−1)·sampling_ms/3 600 000` |
| Nvml.TenSamplesOfTwentyWatts | src/energy_meter/nvml_meter.py:136-145 | ten 20 W samples at 100 ms give 0.005 Wh |
| Nvml.EnergyNonNegative | src/energy_meter/nvml_meter.py:142-145 | non-negative samples give non-negative energy |
| Patterns.LiteralAt | src/energy_meter/rocm_smi_meter.py:107-111 | a literal found at i fits inside the text |
| Patterns.SpaceRun | src/energy_meter/rocm_smi_meter.py:107-111 | `\s+`: the maximal run of whitespace at i |
| Patterns.NumberRun | src/energy_meter/rocm_smi_meter.py:107-111 | `([\d.]+)`: the maximal run of digits and dots at i |
| Patterns.NumberRunChars | src/energy_meter/rocm_smi_meter.py:107-111 | every character of that run is a digit or a dot |
| Patterns.MatchAt | src/energy_meter/rocm_smi_meter.py:107-111 | a match starting at i captures a non-empty group of digits and dots |
| Patterns.SearchFrom | src/energy_meter/rocm_smi_meter.py:114 | `re.search` finds the leftmost match at or after i, and None means no position matches |
| Patterns.Search | src/energy_meter/rocm_smi_meter.py:114 | the captured group of the leftmost match is non-empty digits and dots |
| Patterns.Yield | src/energy_meter/rocm_smi_meter.py:114-118 | `float(match.group(1))` on a search: a value exactly when the pattern matches and its group holds a digit and at most one dot; then that decimal's value, non-negative |
| Patterns.FirstYield | src/energy_meter/rocm_smi_meter.py:113-121 | a value found is a non-negative number |
| Patterns.FirstYieldSpec | src/energy_meter/rocm_smi_meter.py:113-121 | the value is the first pattern's in order that matches and converts; None exactly when no pattern yields |
| Patterns.FirstYieldStep | src/energy_meter/rocm_smi_meter.py:113-119 | the head pattern decides when it yields, the remaining patterns otherwise |
| Patterns.ShortTextNoMatch | src/energy_meter/rocm_smi_meter.py:114 | a text shorter than the caption never matches |
| Patterns.LiteralAtSuffix | src/energy_meter/rocm_smi_meter.py:107-111 | each suffix of a literal found at i is found further on |
| Patterns.CaptionSuffixMatch | src/energy_meter/rocm_smi_meter.py:107-111 | a match of a caption is also a match of any caption that is its suffix, with the same group |
| Patterns.CaptionSuffixSearch | src/energy_meter/rocm_smi_meter.py:107-114 | a search with the longer caption succeeding means one with the suffix caption succeeds |
| Patterns.LiteralAtWritten | src/energy_meter/rocm_smi_meter.py:107-111 | a literal written at i is found there |
| Patterns.SpaceRunOne | src/energy_meter/rocm_smi_meter.py:107-111 | one whitespace character then another character is a run of length one |
| Patterns.NumberRunWritten | src/energy_meter/rocm_smi_meter.py:107-111 | a number written at i and followed by a non-number character is exactly the run |
| Patterns.MatchAtParts | src/energy_meter/rocm_smi_meter.py:107-111 | caption, gap, number, gap and unit in place make a match capturing the number |
| Patterns.FormattedLayout | src/energy_meter/macos_meter.py:187 | where caption, number and unit sit in a line `caption number unit` |
| Patterns.FormattedCaption | src/energy_meter/macos_meter.py:189-192 | such a line has its caption at 0 and one space after it |
| Patterns.FormattedNumber | src/energy_meter/macos_meter.py:189-192 | the number spans exactly its length, followed by one space |
| Patterns.FormattedUnit | src/energy_meter/macos_meter.py:189-192 | a literal that ends the line, such as the unit, is found where it starts |
| Patterns.FormattedMatch | src/energy_meter/macos_meter.py:189-192 | the pattern matches such a line at 0 and captures the number written |
| Patterns.FormattedYield | src/energy_meter/macos_meter.py:197-201 | `float(re.search(...).group(1))` on such a line reads back the number written |
| RocmSmi.ParsePower | src/energy_meter/rocm_smi_meter.py:95-121 | a parsed power is non-negative |
| RocmSmi.ParsePowerOrder | src/energy_meter/rocm_smi_meter.py:107-121 | average package power first, then `Power`, then `GPU Power`, case-insensitively; the first that converts wins; None when none does |
| RocmSmi.PollSample | src/energy_meter/rocm_smi_meter.py:68-93 | a sample exists only for a zero return code, and then it is the parsed power |
| RocmSmi.PollSamples | src/energy_meter/rocm_smi_meter.py:68-93 | one reading per invocation, each `PollSample` of it |
| RocmSmi.RocmSmiMeter.constructor | src/energy_meter/rocm_smi_meter.py:22-36 | configured interval and device, no samples, zero times, not running |
| RocmSmi.RocmSmiMeter.Start | src/energy_meter/rocm_smi_meter.py:47-66 | RuntimeError with nothing changed without `rocm-smi`; otherwise samples cleared, running set, start time recorded |
| RocmSmi.RocmSmiMeter.PollOnce | src/energy_meter/rocm_smi_meter.py:76-91 | appends exactly the sample of a successful, parsable run and nothing otherwise |
| RocmSmi.RocmSmiMeter.PollPower | src/energy_meter/rocm_smi_meter.py:68-93 | while running, the samples grow by the collected readings in order |
| RocmSmi.RocmSmiMeter.Stop | src/energy_meter/rocm_smi_meter.py:123-163 | running cleared, stop time recorded, reading is the watt trapezoid (0.0 below two samples), the duration and the interval |
| RocmSmi.GpuPowerShadowed | src/energy_meter/rocm_smi_meter.py:107-111 | whenever `GPU Power` matches, the plainer `Power` pattern matches too, so the third pattern can only decide when `Power` does not convert |
| RocmSmi.AveragePowerAlsoMatchesAnyPower | src/energy_meter/rocm_smi_meter.py:107-111 | an average-package-power line matches the `Power` pattern too |
| RocmSmi.CollectedSamplesNonNegative | src/energy_meter/rocm_smi_meter.py:84-91 | every collected sample is non-negative |
| RocmSmi.PolledEnergyNonNegative | src/energy_meter/rocm_smi_meter.py:148-157 | the energy of collected samples is non-negative |
| RocmSmi.EnergyOfConstantDraw | src/energy_meter/rocm_smi_meter.py:148-157 | p W over n ≥ 2 samples gives `p·(n−1)·sampling_ms/3 600 000`, with no milliwatt conversion |
| RocmSmi.ParsesTo12 | src/energy_meter/rocm_smi_meter.py:116 | `float("12")` is 12.0 |
| RocmSmi.PlainPowerLine | src/energy_meter/rocm_smi_meter.py:107-121 | `Power: 12 W` parses to 12.0 |
| Text.StripAll | src/energy_meter/macos_meter.py:97-100 | one stripped line per input line, in order (also `[l.strip() for l in …]` at src/utils/device_info.py:211) |
| Macos.StrippedLinesSnoc | src/energy_meter/macos_meter.py:97-100 | reading one more line stores exactly that line stripped after the others |
| Macos.LineSample | src/energy_meter/macos_meter.py:195-215 | a line's sample is non-negative |
| Macos.LineReadings | src/energy_meter/macos_meter.py:195-215 | one reading per line, each the line's own sample |
| Macos.LineSamples | src/energy_meter/macos_meter.py:184-217 | at most one sample per output line |
| Macos.MacEnergyWh | src/energy_meter/macos_meter.py:138-169 | no samples give 0.0; one sample p gives `p/1000·duration/3600`; two or more give the mW to W trapezoid with fixed step |
| Macos.FirstIndividual | src/energy_meter/macos_meter.py:207-215 | the loop over CPU, GPU and Package Power equals the first of them that matches and converts |
| Macos.ParseLine | src/energy_meter/macos_meter.py:196-215 | the per-line body equals `LineSample`: combined first, then the individual patterns |
| Macos.MacosMeter.constructor | src/energy_meter/macos_meter.py:20-33 | configured interval, no process, no lines, zero times, not running |
| Macos.MacosMeter.Start | src/energy_meter/macos_meter.py:44-91 | RuntimeError with nothing changed off darwin; on darwin running set, lines cleared and start time recorded, then RuntimeError if the process cannot be spawned |
| Macos.MacosMeter.ReadOutput | src/energy_meter/macos_meter.py:93-102 | with a process and the running flag set, the stored lines grow by `StrippedLines` of the output, in order; otherwise nothing changes |
| Macos.MacosMeter.ParsePowerSamples | src/energy_meter/macos_meter.py:177-217 | the samples are `LineSamples` of the stored lines |
| Macos.MacosMeter.Stop | src/energy_meter/macos_meter.py:104-175 | running cleared, stop time recorded, reading is `MacEnergyWh` of the parsed samples, `now − start_time` and the interval |
| Macos.LineSampleOrder | src/energy_meter/macos_meter.py:197-215 | a combined figure that converts wins; otherwise the individual patterns decide in order |
| Macos.LineSamplesNonNegative | src/energy_meter/macos_meter.py:195-216 | every parsed sample is non-negative |
| Macos.MacEnergyNonNegative | src/energy_meter/macos_meter.py:138-169 | non-negative duration and interval give non-negative energy |
| Macos.SingleSampleConsistent | src/energy_meter/macos_meter.py:141-169 | for a constant draw lasting exactly the sampled span, the single-sample estimate equals the trapezoid |
| Macos.ParsesTo1234 | src/energy_meter/macos_meter.py:211 | `float("1234")` is 1234.0 |
| Macos.CpuPowerLine | src/energy_meter/macos_meter.py:190-212 | `CPU Power: 1234 mW` yields 1234.0 |
| Rapl.FirstEnergyZoneFrom | src/energy_meter/rapl_meter.py:50-54 | the first `intel-rapl:*` zone at or after i with an `energy_uj` file; None exactly when there is none |
| Rapl.RaplZone | src/energy_meter/rapl_meter.py:42-56 | a zone found is an existing energy zone under an existing base; None exactly when the base is missing or no zone has a counter |
| Rapl.RaplEnergyWh | src/energy_meter/rapl_meter.py:129-140 | `(stop − start)/3.6e9` for a non-negative difference, `(stop − start + 2^32)/3.6e9` otherwise |
| Rapl.RaplMeter.constructor | src/energy_meter/rapl_meter.py:21-32 | configured interval, no path, zero counter and times |
| Rapl.RaplMeter.IsAvailable | src/energy_meter/rapl_meter.py:34-56 | true exactly when a zone exists; then the path is that zone, otherwise the path is unchanged |
| Rapl.RaplMeter.ReadEnergyUj | src/energy_meter/rapl_meter.py:86-106 | the counter value when the path is set and the read succeeds, RuntimeError otherwise |
| Rapl.RaplMeter.Start | src/energy_meter/rapl_meter.py:58-84 | RuntimeError when unavailable, PermissionError when unreadable, RuntimeError when the read fails; otherwise the start time and counter are recorded |
| Rapl.RaplMeter.Stop | src/energy_meter/rapl_meter.py:108-146 | stop time recorded; RuntimeError when the path is unset or the read fails; otherwise `RaplEnergyWh`, the duration and the unused interval |
| Rapl.EnergyBounds | src/energy_meter/rapl_meter.py:129-140 | counters in [0, 2^32) give energy ≥ 0 and below 2^32/3.6e9 Wh |
| Rapl.WrapRecoversDelta | src/energy_meter/rapl_meter.py:131-136 | a true increase below 2^32, wrapped once by the counter, is recovered exactly |
| Rapl.OneWattHour | src/energy_meter/rapl_meter.py:138-140 | 3.6e9 µJ is one watt-hour |
| Rapl.RaplZoneIsFirst | src/energy_meter/rapl_meter.py:50-54 | the zone chosen is the first energy zone in glob order |
| Rapl.FirstZoneAt | src/energy_meter/rapl_meter.py:50-54 | an energy zone preceded by none is what the scan returns |
| Integrator.GetPlatformMeter | src/energy_meter/integrator.py:13-70 | succeeds exactly on darwin, or on linux with NVML, rocm-smi or a RAPL zone available; the meter keeps the caller's interval; the two NotImplementedError cases otherwise |
| Integrator.ProbesRun | src/energy_meter/integrator.py:35-55 | the probes run are a prefix of the candidates, non-empty when there is a candidate; every probe but the last failed; a last probe that failed means every candidate was probed |
| Integrator.ProbesEndAtChoice | src/energy_meter/integrator.py:35-70 | no probe runs after one succeeds: the meter chosen is the last one probed; a NotImplementedError comes only after every candidate was probed and none answered |
| Integrator.ChosenIsFirstAvailable | src/energy_meter/integrator.py:35-55 | the chosen meter is available, the macOS meter exactly on darwin, and on linux every higher-priority meter is unavailable |
| Integrator.NvidiaFirst | src/energy_meter/integrator.py:43-45 | on linux an available NVIDIA GPU wins whatever else is present |
| Integrator.RaplLast | src/energy_meter/integrator.py:47-55 | RAPL is chosen exactly when neither GPU meter is available and a RAPL zone exists |
| Json.Get | src/utils/result_exporter.py:39-42 | `dict.get`: the stored value for a present key, the default otherwise |
| Json.AsNumber | src/utils/result_exporter.py:45-57 | the values arithmetic accepts, exactly: a boolean as 1.0 or 0.0, an integer or a float as its value; the number is non-zero exactly when the value is truthy |
| Exporter.ComputeMetrics | src/utils/result_exporter.py:44-57 | with tokens, Wh per 1k tokens times tokens is 1000·net and kWh per token times tokens times 1000 is net; with no tokens both are 0.0; gCO2·1000 is net times intensity |
| Exporter.EnrichRecord | src/utils/result_exporter.py:37-65 | fails with TypeError exactly when a token count or the net energy is not a number; otherwise keeps every input key, adds exactly the three metric keys, and stores the metrics of the record's own values |
| Exporter.EnrichAll | src/utils/result_exporter.py:35-67 | succeeds exactly when every record enriches; then same length and order, each the record's enrichment |
| Exporter.CheckSchema | src/utils/result_exporter.py:69-78 | fails exactly when a schema path is given and the schema is missing, malformed or rejects the list |
| Exporter.ExportOutcome | src/utils/result_exporter.py:35-89 | succeeds exactly when every record enriches, the schema check passes and the write succeeds, with the enriched list of the same length; otherwise TypeError first, then the schema error, then the write failure |
| Exporter.ExportResults | src/utils/result_exporter.py:11-89 | the enrichment loop then validation then the write: the result is the export outcome of the whole list |
| Exporter.ValidateResultSchema | src/utils/result_exporter.py:92-114 | true exactly for a conforming schema; ValueError otherwise |
| Exporter.EnrichAllFailsOnPrefix | src/utils/result_exporter.py:37-67 | a record that fails makes every longer prefix fail |
| Exporter.PerTokenFiguresAgree | src/utils/result_exporter.py:48-53 | Wh per 1k tokens is always 10^6 times kWh per token |
| Exporter.EnrichIdempotent | src/utils/result_exporter.py:60-65 | enriching an enriched record changes nothing |
| Exporter.NetDefaultsToRaw | src/utils/result_exporter.py:41-42 | without `energy_wh_net` the net energy is `energy_wh_raw`, or 0.0 without either |
| Exporter.NetEnergy | src/utils/result_exporter.py:41-42 | `get("energy_wh_net", energy_wh_raw)`: the stored net energy when present, else the raw energy, else 0.0 |
| Exporter.NullNetEnergyFails | src/utils/result_exporter.py:42-49 | an explicit null net energy is kept, not replaced, and the record raises TypeError |
| Exporter.ExportWritesEnriched | src/utils/result_exporter.py:69-89 | with no schema or a conforming one and a successful write, the list written is the enriched list, same length and order |
| Device.RequiredFields | src/utils/device_info.py:33-38 | the four required keys, always |
| Device.OptionalFields | src/utils/device_info.py:39-46 | each optional key is present exactly when its value is truthy, with that value; so `ram_gb` 0.0 is left out |
| Device.WithOptionalFields | src/main.py:376-383 | the four conditional updates add exactly the optional fields |
| Device.ToDict | src/utils/device_info.py:31-47 | the dict built is the required fields plus the optional ones |
| Device.RunCommand | src/utils/device_info.py:50-60 | output exactly when the process exited with code 0; it is stdout stripped, with no whitespace at either end |
| Device.FirstLine | src/utils/device_info.py:157 | `split("\n")[0].strip()`: the stripped text before the first newline, or the whole text stripped when there is none |
| Device.FirstSelected | src/utils/device_info.py:81-84 | the first line at or after i that the test selects; None exactly when no line does |
| Device.FindLine | src/utils/device_info.py:81-84 | the scanning loop with `break` equals `FirstSelected` from 0 |
| Device.AfterColon | src/utils/device_info.py:83 | `split(":")[-1].strip()` holds no colon, and is the stripped line when there is none |
| Device.FirstLineNonBlank | src/utils/device_info.py:157 | a stripped non-empty output has a non-empty first line |
| Device.NonBlank | src/utils/device_info.py:211 | the stripped non-blank lines; empty exactly when every line is blank |
| Device.KeywordType | src/utils/device_info.py:173-177 | "intel" exactly when the lower-cased CPU contains intel; "amd" when it contains amd but not intel; otherwise "unknown"; never "apple" |
| Device.ClassifyType | src/utils/device_info.py:170-177 | a GPU type is kept; without one the CPU keyword decides; without a CPU it stays unknown; a type other than "apple" never becomes "apple" |
| Device.ShortCpu | src/utils/device_info.py:184 | the text before the first `@`, stripped |
| Device.DeviceName | src/utils/device_info.py:179-187 | GPU name first, then the short CPU, then the architecture in parentheses |
| Device.GpuDetection | src/utils/device_info.py:152-168 | nvidia output gives its first line and "nvidia"; otherwise the rocm rule; "unknown" exactly when no GPU; never "apple" |
| Device.RocmDetection | src/utils/device_info.py:160-168 | a GPU exactly when rocm output is present and some line names GPU, Radeon or Instinct; then it is the first such line, stripped, with type "amd"; otherwise no GPU and "unknown" |
| Device.MacChip | src/utils/device_info.py:76-84 | a chip exactly on arm64 when the hardware report answers and has a line containing `Chip:` or `Processor Name:`; then the text after the last colon of the first such line, stripped, holding no colon |
| Device.BytesToGb | src/utils/device_info.py:94-101 | a value exactly when `int()` accepts the output; then the value times 2^30 is that byte count |
| Device.HwModel | src/utils/device_info.py:70 | `sysctl -n hw.model` stripped when it answers with text, otherwise "Unknown Mac"; never empty |
| Device.MacDevice | src/utils/device_info.py:63-118 | macOS with the product version or "Unknown"; type apple on arm64 and intel otherwise; a chip found is the CPU model, and on apple also the GPU, with "Apple Silicon" as CPU when no chip is found; intel takes the brand string and no GPU; the name is chip, "Mac" and hardware model; RAM from bytes; the architecture kept |
| Device.DetectMacos | src/utils/device_info.py:76-84 | the chip scanning loop gives `MacDevice` |
| Device.CpuInfoModel | src/utils/device_info.py:128-136 | the value after the colon of the first line starting `model name`; None exactly without cpuinfo or without such a line |
| Device.MemTotalRam | src/utils/device_info.py:138-148 | no meminfo gives no RAM and no error |
| Device.KibToGb | src/utils/device_info.py:144-145 | defined exactly when `int()` accepts the word; then the value times 1024² is the kB count |
| Device.LinuxDevice | src/utils/device_info.py:121-198 | fails exactly when the MemTotal line raises; otherwise Linux with the release, the cpuinfo CPU, the meminfo RAM, the GPU from nvidia-smi then rocm-smi, the type by `ClassifyType`, the name by `DeviceName` and the architecture |
| Device.ReadCpuModel | src/utils/device_info.py:128-136 | the cpuinfo loop equals `CpuInfoModel` |
| Device.ReadMemTotal | src/utils/device_info.py:138-148 | the meminfo loop equals `MemTotalRam` |
| Device.DetectGpu | src/utils/device_info.py:152-168 | the GPU statements and the rocm loop equal `GpuDetection` |
| Device.DetectLinux | src/utils/device_info.py:121-198 | the Linux detector equals `LinuxDevice` |
| Device.MemTotalRamSpec | src/utils/device_info.py:138-148 | no MemTotal line gives no RAM and no error; the uncaught IndexError arises exactly when the first MemTotal line has fewer than two words; otherwise the RAM is `KibToGb` of its second word, i.e. that kB count over 1024² when `int()` accepts it |
| Device.WmicCpu | src/utils/device_info.py:207-215 | non-blank lines: the second when there are several, the first when there is one |
| Device.WmicRam | src/utils/device_info.py:217-226 | a value exactly when the output has at least two non-blank lines and `int()` accepts the second; then it is those bytes in GB |
| Device.WindowsDevice | src/utils/device_info.py:201-264 | Windows with the version; CPU and RAM from wmic; the GPU only from nvidia-smi; type "nvidia" exactly when nvidia-smi answers, never apple; the name by GPU, CPU and architecture; the architecture kept |
| Device.ReadWmicCpu | src/utils/device_info.py:207-215 | the list comprehension and choice equal `WmicCpu` |
| Device.ReadWmicRam | src/utils/device_info.py:217-226 | the same for RAM |
| Device.DetectWindows | src/utils/device_info.py:201-264 | the Windows detector equals `WindowsDevice` |
| Device.DetectedDevice | src/utils/device_info.py:267-290 | Darwin, Linux and Windows go to their detectors; any other system gives the "Unknown (platform)" record with type unknown; only Linux can fail; the OS name is macOS on Darwin and the system name otherwise; the architecture kept |
| Device.GetDeviceInfo | src/utils/device_info.py:293-314 | the detected info with name and type replaced only by truthy overrides, every other field unchanged |
| Device.NvidiaBeforeAmd | src/utils/device_info.py:154-168 | nvidia output decides the GPU whatever rocm says |
| Device.LinuxTypeOrder | src/utils/device_info.py:154-177 | nvidia, then amd, then the CPU keyword |
| Device.LinuxNamePrecedence | src/utils/device_info.py:179-187 | the Linux name follows GPU, then CPU, then architecture |
| Device.WindowsCpuFallback | src/utils/device_info.py:232-244 | without nvidia output the type comes from the wmic CPU text |
| Device.SplitTwoLines | src/utils/device_info.py:211 | two lines joined by a newline split back into both |
| Device.WmicTableValue | src/utils/device_info.py:207-215 | a header line and a value line give the value |
| Records.MeasuredFields | src/main.py:354-367 | the thirteen measured keys; net energy equals raw energy; the token counts as returned |
| Records.MeasuredKeysNotDevice | src/main.py:354-383 | measured keys never collide with device keys |
| Records.MeasuredKeysNotMetadata | src/main.py:354-409 | measured keys never collide with metadata keys or `tags` |
| Records.DeviceKeysDisjoint | src/main.py:368-409 | device, metadata and `tags` keys are pairwise disjoint |
| Records.MetadataFields | src/main.py:385-400 | ten fields with distinct metadata keys; without `id` or `name` in the test set's metadata, the id and the name are the selected test set |
| Records.MetadataAdded | src/main.py:402-405 | the non-None loop adds only metadata keys |
| Records.BaseRecord | src/main.py:354-383 | keys are measured plus required device plus the truthy optional device fields; net equals raw; token counts as returned |
| Records.NonNullKeys | src/main.py:402-405 | only non-None values are added; every non-None field's key is present; nothing else is |
| Records.NonNullDistinct | src/main.py:402-405 | with distinct keys, a field is present exactly when its value is not None, and with that value |
| Records.AddNonNull | src/main.py:402-405 | the loop over metadata fields adds exactly the non-None ones |
| Records.PromptRecord | src/main.py:354-409 | every measured and required device key is present; net equals raw; token counts as returned; `tags` present exactly when the question's tags are not None |
| Records.PromptRecordDeviceFields | src/main.py:376-383 | each optional device key is present exactly when truthy, with the device's value |
| Records.MetadataKeyNotInBase | src/main.py:385-409 | no metadata key is in the base record or is `tags` |
| Records.WithMetadataField | src/main.py:402-409 | a field whose key is listed once and is neither in the base record nor `tags` is in the record exactly when its value is not None, with that value |
| Records.WithMetadata | src/main.py:402-409 | the keys are the base keys, the non-None field keys and `tags` when not None; `tags` holds the question's tags, a non-None field's value wins over the base, every other base value is kept |
| Records.PromptRecordMetadata | src/main.py:385-405 | each metadata key is present exactly when its value is not None, with that value |
| Records.BuildBaseRecord | src/main.py:354-383 | the dict literal and the four conditional updates build `BaseRecord` |
| Records.BuildRecord | src/main.py:402-411 | copy, non-None loop and tags build `PromptRecord` |
| Benchmark.Normalize | src/main.py:44 | lower-cased, then the longest trailing run of `.`, `j`, `s`, `o`, `n` removed: nothing but that run is removed |
| Benchmark.CandidateFiles | src/main.py:47-53 | the normalised name first; `testset_` + name second exactly when not already prefixed |
| Benchmark.ResolvedFile | src/main.py:55-63 | an existing candidate, the first one when it exists; None exactly when no candidate exists |
| Benchmark.ResolveTestsetPath | src/main.py:41-63 | the loop returns the resolved file, or FileNotFoundError exactly when there is none |
| Benchmark.HasPrompt | src/main.py:99-101 | `"prompt" in question` for a dict; TypeError for a value `in` cannot search |
| Benchmark.PromptCheck | src/main.py:99-101 | passes exactly when every question has a prompt; otherwise ValueError or TypeError |
| Benchmark.CheckTestset | src/main.py:83-101 | a dict with `questions` or a list is accepted, anything else is ValueError; a `questions` that is not a list, or an empty list, is ValueError; a non-empty list succeeds exactly when every question has a prompt and otherwise fails with the prompt check's error; the questions and metadata as the two shapes define them |
| Benchmark.LoadTestset | src/main.py:66-103 | FileNotFoundError without a file, ValueError on invalid JSON, otherwise `CheckTestset` |
| Benchmark.SortedNames | src/main.py:114 | `sorted(names)`: the same names, strictly increasing |
| Benchmark.GetAvailableTestsets | src/main.py:106-114 | exactly the display names of the stems, without duplicates, sorted |
| Benchmark.SelectedTestSet | src/main.py:188 | `test_set`, else `legacy_test_set`, else "easy"; never empty |
| Benchmark.PromptStep | src/main.py:320-421 | a record exactly for a well-formed question whose run completes, and then the record built from it; a skip exactly when start, generate or stop raised; an abort exactly for a malformed question (MalformedQuestion) or a denied start (PermissionDenied) |
| Benchmark.PromptResults | src/main.py:318-421 | never more records than prompts |
| Benchmark.PromptResultsExtend | src/main.py:320-421 | one more prompt that is skipped leaves the records as they were; one that completes appends its record |
| Benchmark.PromptResultsSucceed | src/main.py:320-334 | the loop runs to the end exactly when no question is malformed and no start is denied |
| Benchmark.ResultsAreCompletedRecords | src/main.py:320-421 | the records are exactly the records of the completed prompts, in prompt order |
| Benchmark.RunOutcome | src/main.py:423-453 | success only with at least one record |
| Benchmark.PromptLoop | src/main.py:318-421 | the loop over the questions returns `PromptResults` |
| Benchmark.RunPrompts | src/main.py:423-453 | the loop's records, the empty check and the export give `RunOutcome` |
| Benchmark.PromptResultsAbort | src/main.py:329-334 | a PermissionError or malformed question ends the whole run with that error |
| Benchmark.FailureSticks | src/main.py:320-334 | once the run has ended, later prompts change nothing |
| Benchmark.OneRecordPerCompletedPrompt | src/main.py:411 | the number of records is the number of completed prompts |
| Benchmark.SkippedPromptLeavesNoTrace | src/main.py:327-421 | a well-formed prompt whose start, generate or stop raises adds nothing and the loop continues |
| Benchmark.KeptRecordExportable | src/main.py:354-411 | the record kept for a completed prompt has numeric token counts and net energy |
| Benchmark.RecordsExportable | src/main.py:354-411 | every record built has numeric token counts and net energy |
| Benchmark.RunExports | src/main.py:424-438 | with records, no schema or a conforming one and a successful write, one enriched record is written per completed prompt |
| Benchmark.JsonSuffixDropped | src/main.py:44 | a name ending in a character outside the set loses exactly `.json` |
| Benchmark.DisplayName | src/main.py:112 | `replace("testset_", "", 1)`: a stem without `testset_` is kept; otherwise exactly 8 characters go, and a stem starting with `testset_` displays without it |
| RunAllTests.SanitizeModelName | run_all_tests.py:15-17 | same length; `:` and `/` become `_`, everything else is kept; the result holds neither |
| RunAllTests.SanitizeIdempotent | run_all_tests.py:15-17 | sanitising twice is sanitising once |
| RunAllTests.DateString | run_all_tests.py:52 | `%d_%m`: two digits for the day, `_`, two digits for the month |
| RunAllTests.OutputPath | run_all_tests.py:67-68 | starts `results/output_`, ends `.json`, with the length of its parts |
| RunAllTests.OutputPathsDistinct | run_all_tests.py:64-68 | the four test sets never share an output file |
| RunAllTests.OptionalFlags | run_all_tests.py:84-91 | flag and value pairs; each optional flag is present exactly when its value is truthy, and reads back that value |
| RunAllTests.FlagsOnlyOptional | run_all_tests.py:84-91 | the optional part holds no flag other than the three optional ones |
| RunAllTests.FlagValuePair | run_all_tests.py:84-91 | a single flag pair reads back its value |
| RunAllTests.FlagValueConcat | run_all_tests.py:70-91 | pairs appended later take precedence over earlier ones |
| RunAllTests.BuildCommand | run_all_tests.py:70-91 | the list literal and the three `extend`s build the command |
| RunAllTests.Command | run_all_tests.py:70-91 | interpreter, `src/main.py`, `run-test`; then model, test set, output and provider each read back their value; then exactly the optional flags |
| RunAllTests.CommandNamesItsRun | run_all_tests.py:70-82 | the command's fixed prefix names the interpreter, script, model, test set, output and provider |
| RunAllTests.RunAll | run_all_tests.py:64-98 | one command per test set in the order easy, medium, hard, mixed; the finished sets are exactly those that did not fail |
| RunAllTests.Finished | run_all_tests.py:93-98 | a test set finishes exactly when it is run and does not fail |
| RunAllTests.NoFailureAllFinish | run_all_tests.py:64-98 | with no failure every set finishes, in order |
| RunAllTests.FinishedConcat | run_all_tests.py:64-98 | the finished sets of a longer list are those of its parts, in order |
| RunAllTests.FailureSkipsOnlyItself | run_all_tests.py:93-98 | a failing set does not stop the later ones |
| Text.LStrip | src/utils/device_info.py:57 | removes exactly the leading whitespace |
| Text.RStrip | src/utils/device_info.py:57 | removes exactly the trailing whitespace |
| Text.Strip | src/utils/device_info.py:57 | never longer; no whitespace at either end; empty exactly for blank text |
| Text.StripInfixOf | src/utils/device_info.py:57 | the stripped text is the input's infix after its leading whitespace, and everything outside that infix is whitespace |
| Text.RStripChars | src/main.py:44 | removes exactly the trailing run of characters in the set |
| Text.Lower | src/main.py:44 | same length, each character lower-cased |
| Text.Find | src/main.py:112 | the first occurrence of a substring, or -1 when there is none |
| Text.RemoveFirst | src/main.py:112 | `replace(sub, "", 1)`: unchanged without an occurrence; otherwise putting `sub` back at the first occurrence gives the text |
| Text.IndexOf | src/utils/device_info.py:157 | the first position of a character that occurs |
| Text.Split | src/utils/device_info.py:81 | the parts hold no separator and joined back give the text |
| Text.WordLength | src/utils/device_info.py:144 | the length of the leading run of non-whitespace |
| Text.Words | src/utils/device_info.py:144 | `split()`: non-empty words without whitespace, exactly the non-empty parts of the text cut at every whitespace character |
| Text.LeadingSpacesDropped | src/utils/device_info.py:144 | leading whitespace does not change the words |
| Text.ReplaceChar | run_all_tests.py:17 | same length, every `a` replaced by `b`, nothing else changed |
| Text.Pow10 | run_all_tests.py:52 | powers of ten are positive |
| Text.TwoDigits | run_all_tests.py:52 | a number below 100 as two digits with that value |
| Text.CountCharZero | src/energy_meter/macos_meter.py:200 | a character counted zero times does not occur |
| Text.CountCharSplit | src/energy_meter/macos_meter.py:200 | counts add over a split |
| Text.HasDigitAround | src/energy_meter/macos_meter.py:200 | a text has a digit exactly when one of the two sides of a position does |
| Text.ParseDecimal | src/energy_meter/macos_meter.py:200 | `float()` on digits and dots succeeds exactly with a digit and at most one dot; the value is the whole digits plus the fraction digits over 10 to their number, non-negative |
| Text.ParseDecimalDigits | src/energy_meter/macos_meter.py:200 | on plain digits `float()` gives their value |
| Text.ParseIntDigits | src/utils/device_info.py:99 | on plain digits `int()` gives their value |
| Text.ParseInt | src/utils/device_info.py:99 | `int()` succeeds exactly when the stripped text is an optional `-` or `+` and digits; the value is the sign times the digits' value |
| Text.LexLessIrreflexive | src/main.py:114 | no string sorts before itself |
| Text.LexLessTotal | src/main.py:114 | of two different strings one sorts first |
| Text.LexLessTransitive | src/main.py:114 | sorting order is transitive |
| Text.LeastExists | src/main.py:114 | a non-empty set of names has a least one |

## Left out

- Threads, `daemon`, `join` and `time.sleep`: polling and output reading are sequences of discrete steps given as parameters; the race on `_running` is not modelled.
- Hardware and subprocess I/O (pynvml, `rocm-smi`, `powermetrics`, `sudo`, `sysctl`, `system_profiler`, `nvidia-smi`, `wmic`, `/proc` and sysfs reads): their outputs, exit codes and exceptions are parameters.
- `time.time()` and `datetime.now()`: the clock readings, and the day and month, are parameters.
- Floating point and `round(x, n)`: values are exact reals, so records hold unrounded numbers and `energy_wh_net` equals the exact raw energy.
- `float()` and `int()` are modelled on plain decimal text only (with an optional sign for `int()`); exponents, `inf`/`nan`, underscores and non-ASCII digits are not.
- Whitespace and case follow ASCII, not Unicode: `strip()` and `split()` treat space, tab, newline, carriage return, vertical tab and form feed as whitespace, but not the separators `\x1c` to `\x1f`, `\x85`, `\xa0` or the other Unicode spaces that Python also strips.
- The RAPL counter file's text conversion: the counter read is a parameter.
- JSON parsing, the JSON schema validator and file writing: the parsed document, the validator's verdict and whether the write succeeds are parameters; `SchemaError` and the creation of the output directory are not modelled.
- Filesystem existence and globbing: the existing file names and the test-set stems are parameters.
- Python dict insertion order: records are maps, so key order in the written JSON is not modelled.
- Exception and console messages, `rich`/`typer` output, `atexit` and `sys.exit` (exits are error values).
- The LLM clients (`src/llm_integrations/*.py`) and `src/config.py`: the completion and the configuration values are parameters.
- The meter object inside the prompt loop: each prompt's run is given as its outcome, so the meter state left by a prompt whose `generate` raised is not modelled there; the meter classes model that state on their own.
- Meter selection returns which meter is chosen rather than a meter object.
- The console preview `prompt[:80]` and `question.get("id", "no-id")`, outside the loop's `try`: a question that is not a dict or has no `prompt`, or a prompt that cannot be sliced, ends the run as a malformed question.
- run_all_tests.py: argparse parsing, `choices` and the required `--model` are not modelled (arguments arrive already parsed); a missing Python executable raising FileNotFoundError is not modelled.
- Device.MemTotalRam: states only the no-meminfo case in its own contract; the no-line, error and value cases are stated by the lemma `Device.MemTotalRamSpec`.
