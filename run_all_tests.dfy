/**
 * The batch script (run_all_tests.py): it runs `src/main.py run-test` once
 * for each of the four test sets, in a fixed order, writing each result to
 * `results/output_<model>_<test set>_<day>_<month>.json`. The clock is a
 * parameter (the day and month), and so is the exit status of each run.
 */
module RunAllTests {
  import opened Wrappers
  import opened Text

  /** `TEST_SETS`, in the order they run. */
  function TestSets(): seq<string> {
    ["easy", "medium", "hard", "mixed"]
  }

  /** `sanitize_model_name`: every ':' and every '/' becomes '_'. */
  function SanitizeModelName(model: string): (name: string)
    ensures |name| == |model|
    ensures forall i :: 0 <= i < |model| ==>
              name[i] == (if model[i] == ':' || model[i] == '/' then '_' else model[i])
    ensures ':' !in name && '/' !in name
  {
    ReplaceChar(ReplaceChar(model, ':', '_'), '/', '_')
  }

  /** Sanitising a sanitised name changes nothing. */
  lemma SanitizeIdempotent(model: string)
    ensures SanitizeModelName(SanitizeModelName(model)) == SanitizeModelName(model)
  {
    var once := SanitizeModelName(model);
    assert forall i :: 0 <= i < |once| ==> once[i] != ':' && once[i] != '/' by {
      forall i | 0 <= i < |once|
        ensures once[i] != ':' && once[i] != '/'
      {
        assert once[i] in once;
      }
    }
  }

  /** `strftime("%d_%m")` of the current date. */
  function DateString(day: nat, month: nat): (date: string)
    requires 1 <= day <= 31 && 1 <= month <= 12
    ensures |date| == 5 && date[2] == '_'
    ensures AllDigits(date[..2]) && DigitsValue(date[..2]) == day
    ensures AllDigits(date[3..]) && DigitsValue(date[3..]) == month
  {
    var date := TwoDigits(day) + "_" + TwoDigits(month);
    assert date[..2] == TwoDigits(day) && date[3..] == TwoDigits(month);
    date
  }

  /** `results_dir / f"output_{sanitized_model}_{test_set}_{date_str}.json"`. */
  function OutputPath(sanitizedModel: string, testSet: string, date: string): (path: string)
    ensures StartsWith(path, "results/output_")
    ensures |path| == 15 + |sanitizedModel| + 1 + |testSet| + 1 + |date| + 5
    ensures path[|path| - 5..] == ".json"
  {
    var path := "results/output_" + sanitizedModel + "_" + testSet + "_" + date + ".json";
    assert path[..15] == "results/output_";
    path
  }

  /** Two runs of the same model on the same day write to different files. */
  lemma OutputPathsDistinct(sanitizedModel: string, date: string, i: nat, j: nat)
    requires i < j < |TestSets()|
    ensures OutputPath(sanitizedModel, TestSets()[i], date) != OutputPath(sanitizedModel, TestSets()[j], date)
  {
    var prefix := "results/output_" + sanitizedModel + "_";
    var a := TestSets()[i];
    var b := TestSets()[j];
    var p := OutputPath(sanitizedModel, a, date);
    var q := OutputPath(sanitizedModel, b, date);
    assert p == prefix + (a + "_" + date + ".json");
    assert q == prefix + (b + "_" + date + ".json");
    if |a| == |b| {
      // "easy" and "hard": they differ in their first letter.
      assert a[0] != b[0];
      assert p[|prefix|] == a[0] && q[|prefix|] == b[0];
    } else {
      assert |p| != |q|;
    }
  }

  /** The command-line arguments of the script. `--api-key` defaults to a placeholder, the others to None. */
  datatype Args = Args(model: string, provider: string, baseUrl: Option<string>, apiKey: string, deviceName: Option<string>)

  /** The fixed part of every command. */
  function FixedPrefix(python: string, args: Args, testSet: string, outputPath: string): seq<string> {
    [python, "src/main.py", "run-test", "--model", args.model, "--test-set", testSet,
     "--output", outputPath, "--provider", args.provider]
  }

  /** The optional flag pairs, in order, each only when its value is truthy: `run-test` reads each value back exactly then. */
  function OptionalFlags(args: Args): (flags: seq<string>)
    ensures |flags| % 2 == 0
    ensures FlagValue(flags, "--base-url") == (if Present(args.baseUrl) then args.baseUrl else None)
    ensures FlagValue(flags, "--api-key") == (if args.apiKey != "" then Some(args.apiKey) else None)
    ensures FlagValue(flags, "--device-name") == (if Present(args.deviceName) then args.deviceName else None)
  {
    var b := if Present(args.baseUrl) then ["--base-url", args.baseUrl.value] else [];
    var k := if args.apiKey != "" then ["--api-key", args.apiKey] else [];
    var d := if Present(args.deviceName) then ["--device-name", args.deviceName.value] else [];
    FlagValuePair(d, "--base-url");
    FlagValuePair(d, "--api-key");
    FlagValuePair(d, "--device-name");
    FlagValueConcat(k, d, "--base-url");
    FlagValueConcat(k, d, "--api-key");
    FlagValueConcat(k, d, "--device-name");
    FlagValuePair(k, "--base-url");
    FlagValuePair(k, "--api-key");
    FlagValuePair(k, "--device-name");
    FlagValueConcat(b, k + d, "--base-url");
    FlagValueConcat(b, k + d, "--api-key");
    FlagValueConcat(b, k + d, "--device-name");
    FlagValuePair(b, "--base-url");
    FlagValuePair(b, "--api-key");
    FlagValuePair(b, "--device-name");
    b + k + d
  }

  /**
   * The command for one test set: the script and `run-test`, then flag/value
   * pairs from which `run-test` reads back the model, the test set, the
   * output path and the provider, whatever optional flags follow.
   */
  function Command(python: string, args: Args, testSet: string, outputPath: string): (cmd: seq<string>)
    ensures |cmd| >= 11 && cmd[..3] == [python, "src/main.py", "run-test"]
    ensures FlagValue(cmd[3..], "--model") == Some(args.model)
    ensures FlagValue(cmd[3..], "--test-set") == Some(testSet)
    ensures FlagValue(cmd[3..], "--output") == Some(outputPath)
    ensures FlagValue(cmd[3..], "--provider") == Some(args.provider)
    ensures cmd[11..] == OptionalFlags(args)
  {
    var fixed := FixedPrefix(python, args, testSet, outputPath);
    var flags := OptionalFlags(args);
    var cmd := fixed + flags;
    assert cmd[3..] == fixed[3..] + flags;
    FixedPairReadBack(args, testSet, outputPath, flags, "--model");
    FixedPairReadBack(args, testSet, outputPath, flags, "--test-set");
    FixedPairReadBack(args, testSet, outputPath, flags, "--output");
    FixedPairReadBack(args, testSet, outputPath, flags, "--provider");
    cmd
  }

  /** The value given for `flag` among flag/value pairs, as `run-test`'s parser would read it (the last occurrence wins). */
  function FlagValue(pairs: seq<string>, flag: string): Option<string>
    decreases |pairs|
  {
    if |pairs| < 2 then None
    else
      var rest := FlagValue(pairs[2..], flag);
      if rest.Some? then rest
      else if pairs[0] == flag then Some(pairs[1])
      else None
  }

  /** The value a fixed flag of the command carries. */
  function FixedValue(args: Args, testSet: string, outputPath: string, flag: string): string {
    if flag == "--model" then args.model
    else if flag == "--test-set" then testSet
    else if flag == "--output" then outputPath
    else args.provider
  }

  /** A fixed flag is read back with its value, since no optional flag repeats it. */
  lemma FixedPairReadBack(args: Args, testSet: string, outputPath: string, flags: seq<string>, flag: string)
    requires flags == OptionalFlags(args)
    requires flag in {"--model", "--test-set", "--output", "--provider"}
    ensures FlagValue(["--model", args.model, "--test-set", testSet, "--output", outputPath, "--provider", args.provider] + flags, flag)
            == Some(FixedValue(args, testSet, outputPath, flag))
  {
    FlagsOnlyOptional(args, flag);
    var s4 := ["--provider", args.provider] + flags;
    var s3 := ["--output", outputPath] + s4;
    var s2 := ["--test-set", testSet] + s3;
    var s1 := ["--model", args.model] + s2;
    assert ["--model", args.model, "--test-set", testSet, "--output", outputPath, "--provider", args.provider] + flags == s1;
    FlagValueCons("--provider", args.provider, flags, flag);
    FlagValueCons("--output", outputPath, s4, flag);
    FlagValueCons("--test-set", testSet, s3, flag);
    FlagValueCons("--model", args.model, s2, flag);
  }

  /** One flag/value pair in front of the others. */
  lemma FlagValueCons(name: string, value: string, rest: seq<string>, flag: string)
    ensures FlagValue([name, value] + rest, flag)
            == if FlagValue(rest, flag).Some? then FlagValue(rest, flag) else if name == flag then Some(value) else None
  {
    assert ([name, value] + rest)[2..] == rest;
  }

  /** The optional flags hold no other flag. */
  lemma FlagsOnlyOptional(args: Args, flag: string)
    requires flag !in {"--base-url", "--api-key", "--device-name"}
    ensures FlagValue(OptionalFlags(args), flag) == None
  {
    var b := if Present(args.baseUrl) then ["--base-url", args.baseUrl.value] else [];
    var k := if args.apiKey != "" then ["--api-key", args.apiKey] else [];
    var d := if Present(args.deviceName) then ["--device-name", args.deviceName.value] else [];
    FlagValuePair(d, flag);
    FlagValuePair(k, flag);
    FlagValuePair(b, flag);
    FlagValueConcat(k, d, flag);
    FlagValueConcat(b, k + d, flag);
  }

  lemma FlagValuePair(pair: seq<string>, flag: string)
    requires |pair| == 0 || |pair| == 2
    ensures FlagValue(pair, flag) == (if |pair| == 2 && pair[0] == flag then Some(pair[1]) else None)
  {
    if |pair| == 2 {
      assert FlagValue(pair[2..], flag) == None;
    }
  }

  /** A value given later overrides one given earlier. */
  lemma {:induction false} FlagValueConcat(front: seq<string>, back: seq<string>, flag: string)
    requires |front| % 2 == 0
    ensures FlagValue(front + back, flag) == if FlagValue(back, flag).Some? then FlagValue(back, flag) else FlagValue(front, flag)
    decreases |front|
  {
    if |front| == 0 {
      assert front + back == back;
    } else {
      assert (front + back)[2..] == front[2..] + back;
      FlagValueConcat(front[2..], back, flag);
    }
  }

  /** `cmd` and its `extend` calls, step by step. */
  method BuildCommand(python: string, args: Args, testSet: string, outputPath: string) returns (cmd: seq<string>)
    ensures cmd == Command(python, args, testSet, outputPath)
  {
    cmd := [python, "src/main.py", "run-test", "--model", args.model, "--test-set", testSet,
            "--output", outputPath, "--provider", args.provider];
    if Present(args.baseUrl) {
      cmd := cmd + ["--base-url", args.baseUrl.value];
    }
    if args.apiKey != "" {
      cmd := cmd + ["--api-key", args.apiKey];
    }
    if Present(args.deviceName) {
      cmd := cmd + ["--device-name", args.deviceName.value];
    }
  }

  /** The command for a test set names the test set and its output path, and passes the model and provider unchanged. */
  lemma CommandNamesItsRun(python: string, args: Args, testSet: string, outputPath: string)
    ensures var cmd := Command(python, args, testSet, outputPath);
            |cmd| >= 11 && cmd[3] == "--model" && cmd[4] == args.model && cmd[5] == "--test-set" && cmd[6] == testSet
            && cmd[7] == "--output" && cmd[8] == outputPath && cmd[9] == "--provider" && cmd[10] == args.provider
            && cmd[11..] == OptionalFlags(args)
  {
  }

  /** The command the script runs for the `i`-th test set on the given day. */
  function TestSetCommand(python: string, args: Args, day: nat, month: nat, i: nat): seq<string>
    requires 1 <= day <= 31 && 1 <= month <= 12 && i < |TestSets()|
  {
    var testSet := TestSets()[i];
    Command(python, args, testSet, OutputPath(SanitizeModelName(args.model), testSet, DateString(day, month)))
  }

  /**
   * `main` after argument parsing: one command per test set, in order, and
   * the test sets that finished; a run that exits non-zero (its test set in
   * `failing`) is reported and the loop goes on.
   */
  method RunAll(python: string, args: Args, day: nat, month: nat, failing: set<string>)
    returns (commands: seq<seq<string>>, finished: seq<string>)
    requires 1 <= day <= 31 && 1 <= month <= 12
    ensures |commands| == |TestSets()|
    ensures forall i :: 0 <= i < |TestSets()| ==> commands[i] == TestSetCommand(python, args, day, month, i)
    ensures finished == Finished(TestSets(), failing)
  {
    var dateStr := DateString(day, month);
    var sanitizedModel := SanitizeModelName(args.model);
    var testSets := TestSets();
    commands := [];
    finished := [];
    for i := 0 to |testSets|
      invariant |commands| == i
      invariant forall k :: 0 <= k < i ==> commands[k] == TestSetCommand(python, args, day, month, k)
      invariant finished == Finished(testSets[..i], failing)
    {
      var testSet := testSets[i];
      var outputPath := OutputPath(sanitizedModel, testSet, dateStr);
      var cmd := BuildCommand(python, args, testSet, outputPath);
      commands := commands + [cmd];
      assert testSets[..i + 1][..i] == testSets[..i];
      if testSet !in failing {
        finished := finished + [testSet];
      }
    }
    assert testSets[..|testSets|] == testSets;
  }

  /** The test sets, in order, whose run exited zero. */
  function Finished(testSets: seq<string>, failing: set<string>): (done: seq<string>)
    ensures forall t :: t in done <==> t in testSets && t !in failing
    ensures |done| <= |testSets|
  {
    if testSets == [] then []
    else
      var init := Finished(testSets[..|testSets| - 1], failing);
      var last := testSets[|testSets| - 1];
      assert forall t :: t in testSets <==> t in testSets[..|testSets| - 1] || t == last;
      if last !in failing then init + [last] else init
  }

  /** With no run failing, every test set finishes, in order. */
  lemma {:induction false} NoFailureAllFinish(testSets: seq<string>)
    ensures Finished(testSets, {}) == testSets
  {
    if testSets != [] {
      NoFailureAllFinish(testSets[..|testSets| - 1]);
    }
  }

  /** The runs are independent: what finishes of a list is what finishes of its parts. */
  lemma {:induction false} FinishedConcat(front: seq<string>, back: seq<string>, failing: set<string>)
    ensures Finished(front + back, failing) == Finished(front, failing) + Finished(back, failing)
    decreases |back|
  {
    if back == [] {
      assert front + back == front;
    } else {
      var init := back[..|back| - 1];
      assert (front + back)[..|front + back| - 1] == front + init;
      FinishedConcat(front, init, failing);
    }
  }

  /** A failing test set does not stop the ones after it: it is the only one missing from the finished list. */
  lemma FailureSkipsOnlyItself(before: seq<string>, failed: string, after: seq<string>, failing: set<string>)
    requires failed in failing
    ensures Finished(before + [failed] + after, failing) == Finished(before, failing) + Finished(after, failing)
  {
    FinishedConcat(before + [failed], after, failing);
    FinishedConcat(before, [failed], failing);
    assert Finished([failed], failing) == [] by {
      assert [failed][..0] == [];
    }
  }
}
