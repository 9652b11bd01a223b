/**
  The setup validator of src/health_check/__init__.py: a `HealthCheck` object
  that records named pass/fail results with three counters, the validators that
  feed it, and the exit code `run_all_checks` derives from the counters. File
  reads, imports, the interpreter version and the configuration are inputs;
  printing is left out.
 */
module HealthChecks {
  import opened Text

  /** One entry of `results`: `(name, passed, message)`. */
  datatype CheckResult = CheckResult(name: string, passed: bool, message: string)

  /** The arguments of one `check(name, passed, message, warning)` call. */
  datatype Report = Report(name: string, passed: bool, message: string, warning: bool)

  function PassedCount(rs: seq<CheckResult>): nat {
    if rs == [] then 0 else PassedCount(rs[..|rs| - 1]) + (if rs[|rs| - 1].passed then 1 else 0)
  }

  function FailedCount(rs: seq<CheckResult>): nat {
    if rs == [] then 0 else FailedCount(rs[..|rs| - 1]) + (if rs[|rs| - 1].passed then 0 else 1)
  }

  /** Every result is counted exactly once, as passed or as failed. */
  lemma {:induction false} CountsAddUp(rs: seq<CheckResult>)
    ensures PassedCount(rs) + FailedCount(rs) == |rs|
  {
    if rs != [] {
      CountsAddUp(rs[..|rs| - 1]);
    }
  }

  /** No failure is counted exactly when every result passed. */
  lemma {:induction false} NoFailureMeansAllPassed(rs: seq<CheckResult>)
    ensures FailedCount(rs) == 0 <==> forall i :: 0 <= i < |rs| ==> rs[i].passed
  {
    if rs != [] {
      var init := rs[..|rs| - 1];
      NoFailureMeansAllPassed(init);
      assert forall i :: 0 <= i < |init| ==> init[i] == rs[i];
    }
  }

  /** The result one `check` call records. */
  function ResultOf(r: Report): CheckResult {
    CheckResult(r.name, r.passed, r.message)
  }

  /** The results a sequence of `check` calls records, in order. */
  function ResultsOf(reports: seq<Report>): seq<CheckResult> {
    seq(|reports|, i requires 0 <= i < |reports| => ResultOf(reports[i]))
  }

  /** How many of the reports raise `warnings`: those that pass with the warning flag. */
  function WarningCount(reports: seq<Report>): nat {
    if reports == [] then 0
    else WarningCount(reports[..|reports| - 1]) + (if reports[|reports| - 1].passed && reports[|reports| - 1].warning then 1 else 0)
  }

  /** Recording two runs of checks one after the other records their concatenation. */
  lemma {:induction false} RecordAppend(a: seq<Report>, b: seq<Report>)
    ensures ResultsOf(a + b) == ResultsOf(a) + ResultsOf(b)
    ensures WarningCount(a + b) == WarningCount(a) + WarningCount(b)
  {
    if b != [] {
      var init := b[..|b| - 1];
      RecordAppend(a, init);
      assert (a + b)[..|a + b| - 1] == a + init;
    } else {
      assert a + b == a;
    }
  }

  /**
    The exit code of `run_all_checks`: 1 when any check failed, otherwise 2
    when any passed with a warning, otherwise 0.
   */
  function ExitCode(failed: nat, warnings: nat): (code: int)
    ensures 0 <= code <= 2
    ensures code == 1 <==> failed > 0
    ensures code == 2 <==> failed == 0 && warnings > 0
  {
    if failed > 0 then 1 else if warnings > 0 then 2 else 0
  }

  class HealthCheck {
    var checksPassed: nat
    var checksFailed: nat
    var warnings: nat
    var results: seq<CheckResult>

    /** The counters agree with the results; a warning is only ever counted for a passed check. */
    ghost predicate Valid()
      reads this
    {
      checksPassed == PassedCount(results) && checksFailed == FailedCount(results) && warnings <= checksPassed
    }

    constructor ()
      ensures Valid()
      ensures checksPassed == 0 && checksFailed == 0 && warnings == 0 && results == []
    {
      checksPassed, checksFailed, warnings, results := 0, 0, 0, [];
    }

    /** `check(name, passed, message, warning)`: records one result and counts it. */
    method Check(name: string, passed: bool, message: string, warning: bool)
      requires Valid()
      modifies this
      ensures Valid()
      ensures results == old(results) + [CheckResult(name, passed, message)]
      ensures checksPassed == old(checksPassed) + (if passed then 1 else 0)
      ensures checksFailed == old(checksFailed) + (if passed then 0 else 1)
      ensures warnings == old(warnings) + (if passed && warning then 1 else 0)
      ensures checksPassed + checksFailed == |results|
    {
      assert (results + [CheckResult(name, passed, message)])[..|results|] == results;
      results := results + [CheckResult(name, passed, message)];
      if passed {
        checksPassed := checksPassed + 1;
      } else {
        checksFailed := checksFailed + 1;
      }
      if warning && passed {
        warnings := warnings + 1;
      }
      CountsAddUp(results);
    }

    /** Since the previous state, exactly the `check` calls of `reports` were made. */
    twostate predicate Recorded(reports: seq<Report>)
      reads this
    {
      results == old(results) + ResultsOf(reports) && warnings == old(warnings) + WarningCount(reports)
    }

    /** `check` with the arguments of one report. */
    method Record(r: Report)
      requires Valid()
      modifies this
      ensures Valid() && Recorded([r])
    {
      Check(r.name, r.passed, r.message, r.warning);
      assert [r][..0] == [];
    }

    /** A sequence of `check` calls, one per report, in order. */
    method CheckAll(reports: seq<Report>)
      requires Valid()
      modifies this
      ensures Valid() && Recorded(reports)
    {
      var i := 0;
      while i < |reports|
        invariant 0 <= i <= |reports| && Valid()
        invariant results == old(results) + ResultsOf(reports[..i])
        invariant warnings == old(warnings) + WarningCount(reports[..i])
      {
        Record(reports[i]);
        assert reports[..i + 1] == reports[..i] + [reports[i]];
        RecordAppend(reports[..i], [reports[i]]);
        i := i + 1;
      }
      assert reports[..i] == reports;
    }

    /** `check_python_version`, given the interpreter's version triple. */
    method CheckPythonVersion(major: nat, minor: nat, micro: nat) returns (passed: bool)
      requires Valid()
      modifies this
      ensures Valid() && Recorded([PythonVersionReport(major, minor, micro)])
      ensures passed == PythonVersionOk(major, minor)
    {
      var r := PythonVersionReport(major, minor, micro);
      Record(r);
      return r.passed;
    }

    /** `check_packages`, given what reading requirements.txt gave and which module names import. */
    method CheckPackages(file: RequirementsFile, importable: string -> bool) returns (passed: bool)
      requires Valid()
      modifies this
      ensures Valid() && Recorded([PackagesReport(file, importable)])
      ensures passed == PackagesReport(file, importable).passed
    {
      match file {
        case RequirementsMissing =>
          Record(Report("Package Installation", false, "requirements.txt not found", false));
          return false;
        case RequirementsUnreadable(detail) =>
          Record(Report("Package Installation", false, "Error checking packages: " + detail, false));
          return false;
        case RequirementsLines(_) =>
      }
      var requirements := Requirements(file.lines);
      var missing := FindMissing(requirements, importable);
      if missing != [] {
        Record(Report("Package Installation", false, "Missing: " + Join(missing, ", "), false));
        return false;
      }
      Record(Report("Package Installation", true, NatToString(|requirements|) + " packages installed", false));
      return true;
    }

    /** `check_env_file`, given whether .env exists. */
    method CheckEnvFile(found: bool) returns (passed: bool)
      requires Valid()
      modifies this
      ensures Valid() && Recorded([EnvFileReport(found)])
      ensures passed == found
    {
      if found {
        Record(Report(".env File", true, "Found", false));
        return true;
      }
      Record(Report(".env File", false, "Missing (copy env.example to .env)", false));
      return false;
    }

    /** `check_api_keys` over the four configuration values it reads. */
    method CheckApiKeys(messageProvider: string, openAiKey: string, ttsProvider: string, elevenLabsKey: string)
      returns (passed: bool)
      requires Valid()
      modifies this
      ensures Valid() && Recorded(ApiKeyReports(messageProvider, openAiKey, ttsProvider, elevenLabsKey))
      ensures passed == ApiKeysPassed(messageProvider, openAiKey, ttsProvider, elevenLabsKey)
    {
      var openAi := OpenAiReport(messageProvider, openAiKey);
      Record(openAi);
      if !openAi.passed {
        return false;
      }
      var elevenLabs := ElevenLabsReport(ttsProvider, elevenLabsKey);
      Record(elevenLabs);
      RecordAppend([openAi], [elevenLabs]);
      return elevenLabs.passed;
    }

    /** `check_prompts`, given what reading and parsing prompts.json produced. */
    method CheckPrompts(file: PromptsFile) returns (passed: bool)
      requires Valid()
      modifies this
      ensures Valid() && Recorded([PromptsReport(file)])
      ensures passed == PromptsReport(file).passed
    {
      match file {
        case NotFound =>
          Record(Report("prompts.json", false, "File not found", false));
          return false;
        case InvalidJson(detail) =>
          Record(Report("prompts.json", false, "Invalid JSON: " + detail, false));
          return false;
        case Unreadable(detail) =>
          Record(Report("prompts.json", false, "Error: " + detail, false));
          return false;
        case Parsed(value) =>
      }
      var value := file.value;
      if !value.JArr? {
        Record(Report("prompts.json", false, "Invalid format (should be array)", false));
        return false;
      }
      var personas := value.items;
      if |personas| == 0 {
        Record(Report("prompts.json", false, "Empty (no personas defined)", false));
        return false;
      }
      var i := 0;
      while i < |personas|
        invariant 0 <= i <= |personas|
        invariant forall j :: 0 <= j < i ==> ProblemOf(personas[j]).None?
      {
        var problem := ProblemOf(personas[i]);
        if problem.Some? {
          assert FirstProblem(personas) == Some(i);
          Record(Report("prompts.json", false, ProblemMessage(i, problem.value), false));
          return false;
        }
        i := i + 1;
      }
      Record(Report("prompts.json", true, NatToString(|personas|) + " persona(s) defined", false));
      return true;
    }

    /** The exit code `run_all_checks` returns for the counters as they stand. */
    function Status(): (code: int)
      reads this
      requires Valid()
      ensures code == 1 <==> exists i :: 0 <= i < |results| && !results[i].passed
      ensures code == 0 ==> warnings == 0 && forall i :: 0 <= i < |results| ==> results[i].passed
      ensures code == 2 ==> warnings > 0 && forall i :: 0 <= i < |results| ==> results[i].passed
    {
      NoFailureMeansAllPassed(results);
      ExitCode(checksFailed, warnings)
    }

    /**
      `run_all_checks`: the validators in their fixed order, then the exit
      code. The environment supplies every input they read; the three optional
      components (Tesseract, audio devices, ROIs) arrive as finished reports.
     */
    method RunAllChecks(env: Environment) returns (code: int)
      requires Valid()
      modifies this
      ensures Valid() && Recorded(RunReports(env))
      ensures code == Status()
    {
      ghost var r0, w0 := results, warnings;
      var _ := CheckPythonVersion(env.major, env.minor, env.micro);
      ghost var r1, w1 := results, warnings;
      var _ := CheckPackages(env.requirements, env.importable);
      ghost var r2, w2 := results, warnings;
      var _ := CheckEnvFile(env.envFileExists);
      ghost var r3, w3 := results, warnings;
      var _ := CheckApiKeys(env.messageProvider, env.openAiKey, env.ttsProvider, env.elevenLabsKey);
      ghost var r4, w4 := results, warnings;
      var _ := CheckPrompts(env.prompts);
      ghost var r5, w5 := results, warnings;
      CheckAll(env.optional);
      ghost var a := [PythonVersionReport(env.major, env.minor, env.micro)];
      ghost var b := [PackagesReport(env.requirements, env.importable)];
      ghost var c := [EnvFileReport(env.envFileExists)];
      ghost var d := ApiKeyReports(env.messageProvider, env.openAiKey, env.ttsProvider, env.elevenLabsKey);
      ghost var e := [PromptsReport(env.prompts)];
      StepCompose((r0, w0), a, (r1, w1), b, (r2, w2));
      StepCompose((r0, w0), a + b, (r2, w2), c, (r3, w3));
      StepCompose((r0, w0), a + b + c, (r3, w3), d, (r4, w4));
      StepCompose((r0, w0), a + b + c + d, (r4, w4), e, (r5, w5));
      StepCompose((r0, w0), a + b + c + d + e, (r5, w5), env.optional, (results, warnings));
      code := ExitCode(checksFailed, warnings);
    }
  }

  /**
    The reports of one `run_all_checks`: Python version, packages, .env, the API
    keys, prompts.json, then the optional components.
   */
  function RunReports(env: Environment): (rs: seq<Report>)
    ensures |rs| >= 5
  {
    [PythonVersionReport(env.major, env.minor, env.micro)] + [PackagesReport(env.requirements, env.importable)]
    + [EnvFileReport(env.envFileExists)]
    + ApiKeyReports(env.messageProvider, env.openAiKey, env.ttsProvider, env.elevenLabsKey)
    + [PromptsReport(env.prompts)] + env.optional
  }

  /** One step of a run: `after` is `before` with the reports' results and warnings added. */
  predicate Step(before: (seq<CheckResult>, nat), reports: seq<Report>, after: (seq<CheckResult>, nat)) {
    after.0 == before.0 + ResultsOf(reports) && after.1 == before.1 + WarningCount(reports)
  }

  /** Two steps one after the other are one step over the concatenated reports. */
  lemma StepCompose(s0: (seq<CheckResult>, nat), a: seq<Report>, s1: (seq<CheckResult>, nat),
                    b: seq<Report>, s2: (seq<CheckResult>, nat))
    requires Step(s0, a, s1) && Step(s1, b, s2)
    ensures Step(s0, a + b, s2)
  {
    RecordAppend(a, b);
  }

  /**
    On a fresh `HealthCheck`, the exit code is 1 exactly when some report
    failed and 0 exactly when every report passed without a warning.
   */
  lemma {:induction false} FreshRunExitCode(reports: seq<Report>)
    ensures var code := ExitCode(FailedCount(ResultsOf(reports)), WarningCount(reports));
      && (code == 1 <==> exists i :: 0 <= i < |reports| && !reports[i].passed)
      && (code == 0 <==> forall i :: 0 <= i < |reports| ==> reports[i].passed && !reports[i].warning)
  {
    var rs := ResultsOf(reports);
    NoFailureMeansAllPassed(rs);
    assert forall i :: 0 <= i < |reports| ==> rs[i].passed == reports[i].passed;
    WarningCountZero(reports);
  }

  lemma {:induction false} WarningCountZero(reports: seq<Report>)
    ensures WarningCount(reports) == 0 <==> forall i :: 0 <= i < |reports| ==> !(reports[i].passed && reports[i].warning)
  {
    if reports != [] {
      var init := reports[..|reports| - 1];
      WarningCountZero(init);
      assert forall i :: 0 <= i < |init| ==> init[i] == reports[i];
    }
  }

  /** What opening requirements.txt gives: not found, another error, or its lines. */
  datatype RequirementsFile = RequirementsMissing | RequirementsUnreadable(detail: string) | RequirementsLines(lines: seq<string>)

  /** Every input `run_all_checks` reads from outside. */
  datatype Environment = Environment(
    major: nat, minor: nat, micro: nat,
    requirements: RequirementsFile, importable: string -> bool,
    envFileExists: bool,
    messageProvider: string, openAiKey: string, ttsProvider: string, elevenLabsKey: string,
    prompts: PromptsFile,
    optional: seq<Report>)

  // ---------------------------------------------------------------------------
  // Python version
  // ---------------------------------------------------------------------------

  predicate PythonVersionOk(major: nat, minor: nat) {
    major == 3 && minor >= 10
  }

  function VersionText(major: nat, minor: nat, micro: nat): string {
    NatToString(major) + "." + NatToString(minor) + "." + NatToString(micro)
  }

  function PythonVersionReport(major: nat, minor: nat, micro: nat): (r: Report)
    ensures r.name == "Python Version" && !r.warning
    ensures r.passed <==> major == 3 && minor >= 10
  {
    var text := "Python " + VersionText(major, minor, micro);
    if PythonVersionOk(major, minor) then Report("Python Version", true, text, false)
    else Report("Python Version", false, text + " (need >= 3.10)", false)
  }

  /** 3.10 and later 3.x pass; 3.9 and 4.0 fail. */
  lemma PythonVersionBoundary()
    ensures PythonVersionReport(3, 10, 0).passed && PythonVersionReport(3, 13, 1).passed
    ensures !PythonVersionReport(3, 9, 18).passed && !PythonVersionReport(4, 0, 0).passed
  {
  }

  // ---------------------------------------------------------------------------
  // .env
  // ---------------------------------------------------------------------------

  function EnvFileReport(found: bool): (r: Report)
    ensures r.name == ".env File" && !r.warning && r.passed == found
  {
    if found then Report(".env File", true, "Found", false)
    else Report(".env File", false, "Missing (copy env.example to .env)", false)
  }

  // ---------------------------------------------------------------------------
  // Requirements
  // ---------------------------------------------------------------------------

  /**
    `[line.strip() for line in f if line.strip() and not line.startswith("#")]`.
    The comment test looks at the unstripped line.
   */
  function Requirements(lines: seq<string>): (reqs: seq<string>)
    ensures |reqs| <= |lines|
  {
    if lines == [] then []
    else
      var rest := Requirements(lines[1..]);
      if Strip(lines[0]) != "" && !("#" <= lines[0]) then [Strip(lines[0])] + rest else rest
  }

  /** Each requirement is a non-blank, stripped line that did not start with `#`. */
  lemma {:induction false} RequirementsAreStrippedLines(lines: seq<string>, req: string)
    requires req in Requirements(lines)
    ensures req != "" && Strip(req) == req
    ensures exists i :: 0 <= i < |lines| && Strip(lines[i]) == req && !("#" <= lines[i])
  {
    if Strip(lines[0]) != "" && !("#" <= lines[0]) && req == Strip(lines[0]) {
      StripIdempotent(lines[0]);
    } else {
      RequirementsAreStrippedLines(lines[1..], req);
      var i :| 0 <= i < |lines[1..]| && Strip(lines[1..][i]) == req && !("#" <= lines[1..][i]);
      assert lines[i + 1] == lines[1..][i];
    }
  }

  /** A comment indented by a space is not recognised as a comment: it becomes a requirement. */
  lemma IndentedCommentKept()
    ensures Requirements([" # pinned"]) == ["# pinned"]
  {
    assert " # pinned"[1..] == "# pinned";
    assert LStrip("# pinned") == "# pinned";
    assert RStrip("# pinned") == "# pinned";
  }

  /** `req.split("==")[0].split(">=")[0].split("<")[0].strip()` */
  function PackageName(req: string): string {
    Strip(SplitHead(SplitHead(SplitHead(req, "=="), ">="), "<"))
  }

  /** A package name never contains a version operator. */
  lemma PackageNameHasNoOperator(req: string)
    ensures var name := PackageName(req);
      !Contains(name, "==") && !Contains(name, ">=") && !Contains(name, "<")
  {
    var a := SplitHead(req, "==");
    var b := SplitHead(a, ">=");
    var c := SplitHead(b, "<");
    SliceAvoids(a, "==", 0, |b|);
    assert a[0..|b|] == b;
    SliceAvoids(b, "==", 0, |c|);
    SliceAvoids(b, ">=", 0, |c|);
    assert b[0..|c|] == c;
    StripAvoids(c, "==");
    StripAvoids(c, ">=");
    StripAvoids(c, "<");
  }

  /** A requirement without a version specifier names its package as written, trimmed. */
  lemma PackageNameUnpinned(req: string)
    requires !Contains(req, "==") && !Contains(req, ">=") && !Contains(req, "<")
    ensures PackageName(req) == Strip(req)
  {
  }

  /** The package name is what precedes the first `==`, `>=` or `<`. */
  lemma PackageNameIsPrefix(req: string)
    ensures exists k :: 0 <= k <= |req| && PackageName(req) == Strip(req[..k])
  {
    var a := SplitHead(req, "==");
    var b := SplitHead(a, ">=");
    var c := SplitHead(b, "<");
    assert c == req[..|c|];
  }

  /** The module a package is imported as: four distribution names differ from it. */
  function ImportName(pkg: string): (m: string)
    ensures pkg !in {"python-dotenv", "opencv-python", "pydirectinput-rgx", "pillow"} ==> m == pkg
  {
    if pkg == "python-dotenv" then "dotenv"
    else if pkg == "opencv-python" then "cv2"
    else if pkg == "pydirectinput-rgx" then "pydirectinput"
    else if pkg == "pillow" then "PIL"
    else pkg
  }

  /** The package name of each requirement, in order. */
  function PackageNames(reqs: seq<string>): (names: seq<string>)
    ensures |names| == |reqs|
    ensures forall i :: 0 <= i < |reqs| ==> names[i] == PackageName(reqs[i])
  {
    seq(|reqs|, i requires 0 <= i < |reqs| => PackageName(reqs[i]))
  }

  /** `__import__` of the package's module succeeds. */
  predicate Imports(pkg: string, importable: string -> bool) {
    importable(ImportName(pkg))
  }

  /** The package names whose module does not import, in requirement order. */
  function MissingPackages(names: seq<string>, importable: string -> bool): (missing: seq<string>)
    ensures |missing| <= |names|
  {
    if names == [] then []
    else
      var rest := MissingPackages(names[..|names| - 1], importable);
      if Imports(names[|names| - 1], importable) then rest else rest + [names[|names| - 1]]
  }

  /** A name is reported missing exactly when it is required and its module does not import. */
  lemma {:induction false} MissingMember(names: seq<string>, importable: string -> bool, pkg: string)
    ensures pkg in MissingPackages(names, importable) <==> pkg in names && !Imports(pkg, importable)
  {
    if names != [] {
      var init := names[..|names| - 1];
      MissingMember(init, importable, pkg);
      assert names == init + [names[|names| - 1]];
    }
  }

  /** Nothing is missing exactly when every required module imports. */
  lemma NothingMissing(names: seq<string>, importable: string -> bool)
    ensures MissingPackages(names, importable) == [] <==> forall i :: 0 <= i < |names| ==> Imports(names[i], importable)
  {
    var missing := MissingPackages(names, importable);
    if missing != [] {
      MissingMember(names, importable, missing[0]);
    } else {
      forall i | 0 <= i < |names| ensures Imports(names[i], importable) {
        MissingMember(names, importable, names[i]);
      }
    }
  }

  /** The names of one more requirement are the names so far and its own. */
  lemma PackageNamesSnoc(reqs: seq<string>, i: nat)
    requires i < |reqs|
    ensures PackageNames(reqs[..i + 1]) == PackageNames(reqs[..i]) + [PackageName(reqs[i])]
  {
    assert reqs[..i + 1] == reqs[..i] + [reqs[i]];
  }

  /** The loop of `check_packages` that parses each requirement, tries its import and collects the failures. */
  method FindMissing(reqs: seq<string>, importable: string -> bool) returns (missing: seq<string>)
    ensures missing == MissingPackages(PackageNames(reqs), importable)
  {
    missing := [];
    var i := 0;
    while i < |reqs|
      invariant 0 <= i <= |reqs|
      invariant missing == MissingPackages(PackageNames(reqs[..i]), importable)
    {
      var pkg := PackageName(reqs[i]);
      PackageNamesSnoc(reqs, i);
      assert (PackageNames(reqs[..i]) + [pkg])[..i] == PackageNames(reqs[..i]);
      if !importable(ImportName(pkg)) {
        missing := missing + [pkg];
      }
      i := i + 1;
    }
    assert reqs[..i] == reqs;
  }

  function PackagesReport(file: RequirementsFile, importable: string -> bool): (r: Report)
    ensures r.name == "Package Installation" && !r.warning
    ensures r.passed <==> file.RequirementsLines? && MissingPackages(PackageNames(Requirements(file.lines)), importable) == []
  {
    match file
    case RequirementsMissing => Report("Package Installation", false, "requirements.txt not found", false)
    case RequirementsUnreadable(detail) => Report("Package Installation", false, "Error checking packages: " + detail, false)
    case RequirementsLines(lines) =>
      var reqs := Requirements(lines);
      var missing := MissingPackages(PackageNames(reqs), importable);
      if missing != [] then Report("Package Installation", false, "Missing: " + Join(missing, ", "), false)
      else Report("Package Installation", true, NatToString(|reqs|) + " packages installed", false)
  }

  // ---------------------------------------------------------------------------
  // API keys
  // ---------------------------------------------------------------------------

  /** The OpenAI key check: required and format-checked only for the chatgpt provider. */
  function OpenAiReport(provider: string, key: string): (r: Report)
    ensures r.name == "OpenAI API Key"
    ensures r.warning <==> provider != "chatgpt"
  {
    if provider == "chatgpt" then
      if key == "" || "sk-YOUR" <= key then
        Report("OpenAI API Key", false, "Not configured (needed for chatgpt provider)", false)
      else if !("sk-" <= key) then
        Report("OpenAI API Key", false, "Invalid format (should start with 'sk-')", false)
      else Report("OpenAI API Key", true, "Configured", false)
    else Report("OpenAI API Key", true, "Not required (provider: " + provider + ")", true)
  }

  /**
    Under the chatgpt provider a key passes exactly when it starts with `sk-`
    but not with the placeholder `sk-YOUR`; any other provider passes with a
    warning whatever the key.
   */
  lemma OpenAiKeyRule(provider: string, key: string)
    ensures provider == "chatgpt" ==> (OpenAiReport(provider, key).passed <==> "sk-" <= key && !("sk-YOUR" <= key))
    ensures provider != "chatgpt" ==> OpenAiReport(provider, key).passed && OpenAiReport(provider, key).warning
  {
    if "sk-YOUR" <= key {
      assert key[..3] == "sk-YOUR"[..3];
    }
  }

  function ElevenLabsReport(provider: string, key: string): (r: Report)
    ensures r.name == "ElevenLabs API Key"
    ensures r.passed <==> provider != "elevenlabs" || key != ""
    ensures r.warning <==> provider != "elevenlabs"
  {
    if provider == "elevenlabs" then
      if key == "" then Report("ElevenLabs API Key", false, "Not configured (needed for elevenlabs TTS)", false)
      else Report("ElevenLabs API Key", true, "Configured", false)
    else Report("ElevenLabs API Key", true, "Not required (provider: " + provider + ")", true)
  }

  /** The reports `check_api_keys` makes: it stops after a failed OpenAI check. */
  function ApiKeyReports(messageProvider: string, openAiKey: string, ttsProvider: string, elevenLabsKey: string)
    : (rs: seq<Report>)
    ensures |rs| == 1 || |rs| == 2
    ensures rs[0] == OpenAiReport(messageProvider, openAiKey)
    ensures |rs| == 1 <==> !rs[0].passed
  {
    var openAi := OpenAiReport(messageProvider, openAiKey);
    if !openAi.passed then [openAi] else [openAi, ElevenLabsReport(ttsProvider, elevenLabsKey)]
  }

  /** What `check_api_keys` returns: the outcome of its last check. */
  function ApiKeysPassed(messageProvider: string, openAiKey: string, ttsProvider: string, elevenLabsKey: string)
    : (passed: bool)
    ensures passed <==>
      OpenAiReport(messageProvider, openAiKey).passed && ElevenLabsReport(ttsProvider, elevenLabsKey).passed
  {
    var rs := ApiKeyReports(messageProvider, openAiKey, ttsProvider, elevenLabsKey);
    rs[|rs| - 1].passed
  }

  // ---------------------------------------------------------------------------
  // prompts.json
  // ---------------------------------------------------------------------------

  /** A parsed JSON value; numbers are integers. */
  datatype Json =
    | JNull
    | JBool(b: bool)
    | JNum(n: int)
    | JStr(s: string)
    | JArr(items: seq<Json>)
    | JObj(fields: map<string, Json>)

  /** What reading prompts.json gives: missing, not JSON, another error, or a value. */
  datatype PromptsFile = NotFound | InvalidJson(detail: string) | Unreadable(detail: string) | Parsed(value: Json)

  /**
    Python's `key in v` on a parsed value: a key of an object, an element of
    an array, a substring of a string; `None` where it raises `TypeError`.
   */
  function HasMember(v: Json, key: string): Option<bool> {
    match v
    case JObj(fields) => Some(key in fields)
    case JArr(items) => Some(JStr(key) in items)
    case JStr(s) => Some(Contains(s, key))
    case _ => None
  }

  /** The Python type name in the `TypeError` message. */
  function TypeName(v: Json): string {
    match v
    case JNull => "NoneType"
    case JBool(_) => "bool"
    case JNum(_) => "int"
    case JStr(_) => "str"
    case JArr(_) => "list"
    case JObj(_) => "dict"
  }

  datatype PersonaProblem = MissingName | MissingPrompts | NotIterable(typeName: string)

  /** What is wrong with one persona entry, if anything. */
  function ProblemOf(p: Json): Option<PersonaProblem> {
    match HasMember(p, "name")
    case None => Some(NotIterable(TypeName(p)))
    case Some(false) => Some(MissingName)
    case Some(true) =>
      if HasMember(p, "prompts") == Some(true) || HasMember(p, "prompt") == Some(true) then None
      else Some(MissingPrompts)
  }

  /** An object persona is accepted exactly when it has `name` and one of `prompts` and `prompt`. */
  lemma ObjectPersonaRule(fields: map<string, Json>)
    ensures ProblemOf(JObj(fields)).None? <==> "name" in fields && ("prompts" in fields || "prompt" in fields)
  {
  }

  /** Scalars are rejected with the `TypeError` of the membership test. */
  lemma ScalarPersonaRejected(p: Json)
    requires p.JNull? || p.JBool? || p.JNum?
    ensures ProblemOf(p) == Some(NotIterable(TypeName(p)))
  {
  }

  function ProblemMessage(i: nat, problem: PersonaProblem): string {
    match problem
    case MissingName => "Persona " + NatToString(i) + " missing 'name' field"
    case MissingPrompts => "Persona " + NatToString(i) + " missing 'prompts' field"
    case NotIterable(t) => "Error: argument of type '" + t + "' is not iterable"
  }

  /** The index of the first persona with a problem. */
  function FirstProblem(ps: seq<Json>): (r: Option<nat>)
    ensures r.Some? ==> r.value < |ps| && ProblemOf(ps[r.value]).Some?
    ensures forall j :: 0 <= j < |ps| && (r.None? || j < r.value) ==> ProblemOf(ps[j]).None?
  {
    if ps == [] then None
    else if ProblemOf(ps[0]).Some? then Some(0)
    else match FirstProblem(ps[1..])
      case None => None
      case Some(i) => Some(i + 1)
  }

  function PromptsReport(file: PromptsFile): (r: Report)
    ensures r.name == "prompts.json" && !r.warning
  {
    match file
    case NotFound => Report("prompts.json", false, "File not found", false)
    case InvalidJson(detail) => Report("prompts.json", false, "Invalid JSON: " + detail, false)
    case Unreadable(detail) => Report("prompts.json", false, "Error: " + detail, false)
    case Parsed(value) =>
      if !value.JArr? then Report("prompts.json", false, "Invalid format (should be array)", false)
      else if |value.items| == 0 then Report("prompts.json", false, "Empty (no personas defined)", false)
      else match FirstProblem(value.items)
        case Some(i) => Report("prompts.json", false, ProblemMessage(i, ProblemOf(value.items[i]).value), false)
        case None => Report("prompts.json", true, NatToString(|value.items|) + " persona(s) defined", false)
  }

  /**
    prompts.json passes exactly when it parses to a non-empty array every entry
    of which is accepted; a failure names the first rejected entry.
   */
  lemma PromptsRule(file: PromptsFile)
    ensures PromptsReport(file).passed <==>
      file.Parsed? && file.value.JArr? && |file.value.items| > 0
      && forall i :: 0 <= i < |file.value.items| ==> ProblemOf(file.value.items[i]).None?
    ensures file.Parsed? && file.value.JArr? && FirstProblem(file.value.items).Some? ==>
      var i := FirstProblem(file.value.items).value;
      PromptsReport(file).message == ProblemMessage(i, ProblemOf(file.value.items[i]).value)
  {
  }
}
