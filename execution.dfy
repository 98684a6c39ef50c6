/**
 * The execution harness of website/code_execution.py: one run of user code on
 * one test input through the remote runner service (execute_code_with_test),
 * the test loop (run_tests) and the two routes that use it.
 *
 * The POST to the runner is not made here: its outcome is an input value
 * (`Exchange`), and the service is a function from the payload to that outcome.
 */
module Execution {
  import opened Wrappers
  import opened Json
  import opened Models
  import Text
  import CodeGen

  // ---------------------------------------------------------------------------
  // One run
  // ---------------------------------------------------------------------------

  /** The JSON body posted to the runner service. */
  datatype Payload = Payload(language: string, code: string, timeout: nat)

  /**
   * What one POST to the runner comes to: a `requests.RequestException`; any
   * other exception before the runner's output text is in hand; or a response
   * with its status, its body text and the body's `output` field. A response
   * body that is not JSON makes `response.json()` raise requests'
   * `JSONDecodeError`, a `RequestException` since requests 2.27, so it is a
   * `RequestFailed` there and a `Crashed` with older versions.
   */
  datatype Exchange =
    | RequestFailed(message: string)
    | Crashed(message: string)
    | Answered(status: int, text: string, output: string)

  /** execute_code_with_test's record; an `output` of `JNull` is `None`. */
  datatype ExecutionResult = ExecutionResult(output: Json, stdout: Option<seq<string>>, stderr: Option<seq<string>>)

  /** The shape of every failure: no output, no stdout, one line of stderr. */
  function Failure(message: string): ExecutionResult {
    ExecutionResult(JNull, None, Some([message]))
  }

  /** A field present and truthy but not a string: calling `.split` on it raises. */
  predicate Unsplittable(field: Option<Json>) {
    field.Some? && Truthy(field.value) && !field.value.JString?
  }

  /** `d.get(key, "").split("\n") if d.get(key) else None`, for a field that is not unsplittable. */
  function Lines(field: Option<Json>): Option<seq<string>> {
    if field.Some? && Truthy(field.value) && field.value.JString? then Some(Text.Split(field.value.s, '\n'))
    else None
  }

  /**
   * The normalisation of lines 41-91: what execute_code_with_test returns for
   * one exchange with the runner. Every exception is caught and turned into
   * one line of stderr: without a 200 answer there is no output and no
   * stdout, and an output comes only from a decoded envelope object.
   */
  function Normalize(ex: Exchange, rt: Runtime): (r: ExecutionResult)
    ensures !(ex.Answered? && ex.status == 200) ==>
      r.output == JNull && r.stdout.None? && r.stderr.Some? && |r.stderr.value| == 1
    ensures r.output != JNull ==>
      ex.Answered? && ex.status == 200 && rt.loads(Text.Strip(ex.output)).Some? &&
      rt.loads(Text.Strip(ex.output)).value.JObject?
  {
    match ex
    case RequestFailed(m) => Failure("Request failed: " + m)
    case Crashed(m) => Failure("Unexpected error: " + m)
    case Answered(status, text, out) =>
      if status != 200 then Failure("Code execution service error: " + text)
      else
        match rt.loads(Text.Strip(out))
        case None => ExecutionResult(JNull, if out == "" then None else Some(Text.Split(out, '\n')), None)
        case Some(JObject(fields)) =>
          var stdout, stderr := Get(fields, "stdout"), Get(fields, "stderr");
          if Unsplittable(stdout) then Failure("Unexpected error: " + AttributeError(stdout.value, "split"))
          else if Unsplittable(stderr) then Failure("Unexpected error: " + AttributeError(stderr.value, "split"))
          else ExecutionResult(GetOr(fields, "result", JNull), Lines(stdout), Lines(stderr))
        case Some(v) => Failure("Unexpected error: " + AttributeError(v, "get"))
  }

  /** Every failure path gives no output, no stdout and one stderr line with its own prefix. */
  lemma NormalizeFailures(ex: Exchange, rt: Runtime)
    ensures ex.RequestFailed? ==>
      var r := Normalize(ex, rt);
      r.output == JNull && r.stdout == None && r.stderr == Some(["Request failed: " + ex.message])
    ensures ex.Crashed? ==>
      var r := Normalize(ex, rt);
      r.output == JNull && r.stdout == None && r.stderr == Some(["Unexpected error: " + ex.message])
    ensures ex.Answered? && ex.status != 200 ==>
      var r := Normalize(ex, rt);
      r.output == JNull && r.stdout == None && r.stderr == Some(["Code execution service error: " + ex.text])
  {
  }

  /**
   * When the runner's output decodes to an envelope object with string fields,
   * the result is its `result` field, and the stdout and stderr lines joined
   * with newlines give back the envelope's text: one line more than it has
   * newlines, empty lines included. A missing or empty field gives `None`.
   */
  lemma NormalizeEnvelope(ex: Exchange, rt: Runtime, fields: seq<(string, Json)>)
    requires ex.Answered? && ex.status == 200 && rt.loads(Text.Strip(ex.output)) == Some(JObject(fields))
    requires !Unsplittable(Get(fields, "stdout")) && !Unsplittable(Get(fields, "stderr"))
    ensures Normalize(ex, rt).output == GetOr(fields, "result", JNull)
    ensures Normalize(ex, rt).stdout.None? <==> !Truthy(GetOr(fields, "stdout", JNull))
    ensures Normalize(ex, rt).stderr.None? <==> !Truthy(GetOr(fields, "stderr", JNull))
    ensures Normalize(ex, rt).stdout.Some? ==>
      var lines := Normalize(ex, rt).stdout.value;
      var text := GetOr(fields, "stdout", JNull).s;
      Text.Join(lines, "\n") == text && |lines| == multiset(text)['\n'] + 1
    ensures Normalize(ex, rt).stderr.Some? ==>
      var lines := Normalize(ex, rt).stderr.value;
      var text := GetOr(fields, "stderr", JNull).s;
      Text.Join(lines, "\n") == text && |lines| == multiset(text)['\n'] + 1
  {
    var stdout, stderr := Get(fields, "stdout"), Get(fields, "stderr");
    if Lines(stdout).Some? {
      Text.JoinSplit(stdout.value.s, '\n');
      Text.SplitSegments(stdout.value.s, '\n');
    }
    if Lines(stderr).Some? {
      Text.JoinSplit(stderr.value.s, '\n');
      Text.SplitSegments(stderr.value.s, '\n');
    }
  }

  /**
   * When the runner's output does not decode, it is all stdout: its lines
   * joined with newlines give back the raw text, and an empty text gives `None`.
   */
  lemma NormalizePlainOutput(ex: Exchange, rt: Runtime)
    requires ex.Answered? && ex.status == 200 && rt.loads(Text.Strip(ex.output)).None?
    ensures Normalize(ex, rt).output == JNull && Normalize(ex, rt).stderr == None
    ensures Normalize(ex, rt).stdout.None? <==> ex.output == ""
    ensures Normalize(ex, rt).stdout.Some? ==>
      Text.Join(Normalize(ex, rt).stdout.value, "\n") == ex.output &&
      |Normalize(ex, rt).stdout.value| == multiset(ex.output)['\n'] + 1
  {
    if ex.output != "" {
      Text.JoinSplit(ex.output, '\n');
      Text.SplitSegments(ex.output, '\n');
    }
  }

  /** A decoded output that is not an object cannot be read with `.get`. */
  lemma NormalizeNonObject(ex: Exchange, rt: Runtime, v: Json)
    requires ex.Answered? && ex.status == 200 && rt.loads(Text.Strip(ex.output)) == Some(v) && !v.JObject?
    ensures Normalize(ex, rt) == Failure("Unexpected error: " + AttributeError(v, "get"))
  {
  }

  /** The four languages execute_code_with_test generates programs for. */
  datatype Target = Python | Javascript | Typescript | Go

  /** The dispatch on the language token. */
  function TargetOf(language: string): (target: Option<Target>)
    ensures target == Some(Python) <==> language == "python"
    ensures target == Some(Javascript) <==> language == "javascript"
    ensures target == Some(Typescript) <==> language == "typescript"
    ensures target == Some(Go) <==> language == "go"
  {
    if language == "python" then Some(Python)
    else if language == "javascript" then Some(Javascript)
    else if language == "typescript" then Some(Typescript)
    else if language == "go" then Some(Go)
    else None
  }

  /** The language named in the payload: TypeScript runs as JavaScript. */
  function RunnerLanguage(target: Target): string {
    match target
    case Python => "python"
    case Javascript => "javascript"
    case Typescript => "javascript"
    case Go => "go"
  }

  /** The generated program for one target. */
  function ProgramOf(target: Target, code: string, input: string, entry: string, rt: Runtime): string {
    match target
    case Python => CodeGen.FormatPython(code, input, entry)
    case Javascript => CodeGen.FormatJavascript(code, input, entry, rt)
    case Typescript => CodeGen.FormatTypescript(code, input, entry, rt)
    case Go => CodeGen.GoProgram(code, CodeGen.GoDeclaration(CodeGen.GoInputValue(input, rt), entry, rt))
  }

  /**
   * What execute_code_with_test returns when the runner answers `service` to a
   * payload. An unsupported language gives no output, no stdout and a single
   * stderr line; an output comes only from a supported language's run.
   */
  function ExecutionOf(code: string, input: string, entry: string, language: string, rt: Runtime,
                       service: Payload -> Exchange): (r: ExecutionResult)
    ensures TargetOf(language).None? ==>
      r.output == JNull && r.stdout.None? && r.stderr == Some(["Language '" + language + "' is not supported yet"])
    ensures r.output != JNull ==> TargetOf(language).Some?
  {
    match TargetOf(language)
    case None => Failure("Language '" + language + "' is not supported yet")
    case Some(target) => Normalize(service(Payload(RunnerLanguage(target), ProgramOf(target, code, input, entry, rt), 5)), rt)
  }

  /**
   * An unsupported language is answered without asking the runner: the same
   * one-line error whatever the service would have said.
   */
  lemma UnsupportedLanguage(code: string, input: string, entry: string, language: string, rt: Runtime,
                            s1: Payload -> Exchange, s2: Payload -> Exchange)
    requires language != "python" && language != "javascript" && language != "typescript" && language != "go"
    ensures ExecutionOf(code, input, entry, language, rt, s1) == ExecutionOf(code, input, entry, language, rt, s2)
    ensures ExecutionOf(code, input, entry, language, rt, s1) ==
      ExecutionResult(JNull, None, Some(["Language '" + language + "' is not supported yet"]))
  {
  }

  /** A supported language is one exchange with the runner, normalised. */
  lemma SupportedLanguage(code: string, input: string, entry: string, language: string, rt: Runtime,
                          service: Payload -> Exchange)
    requires TargetOf(language).Some?
    ensures ExecutionOf(code, input, entry, language, rt, service) ==
      Normalize(service(Payload(RunnerLanguage(TargetOf(language).value),
                                ProgramOf(TargetOf(language).value, code, input, entry, rt), 5)), rt)
    ensures language == "typescript" ==> RunnerLanguage(TargetOf(language).value) == "javascript"
    ensures language != "typescript" ==> RunnerLanguage(TargetOf(language).value) == language
  {
  }

  /** execute_code_with_test: build the program for the language, post it, normalise the answer. */
  method Execute(code: string, input: string, entry: string, language: string, rt: Runtime,
                 service: Payload -> Exchange) returns (r: ExecutionResult)
    ensures r == ExecutionOf(code, input, entry, language, rt, service)
  {
    var target := TargetOf(language);
    if target.None? {
      return Failure("Language '" + language + "' is not supported yet");
    }
    var program: string;
    if target.value == Go {
      program := CodeGen.FormatGo(code, input, entry, rt);
    } else {
      program := ProgramOf(target.value, code, input, entry, rt);
    }
    r := Normalize(service(Payload(RunnerLanguage(target.value), program, 5)), rt);
  }

  // ---------------------------------------------------------------------------
  // The test loop
  // ---------------------------------------------------------------------------

  /** One entry of run_tests' result list. */
  datatype TestReport = TestReport(
    passed: bool, input: string, expected: string,
    output: Json, stdout: Option<seq<string>>, stderr: Option<seq<string>>)

  /** The expected output decoded as JSON, or the raw text when it does not decode. */
  function ExpectedValue(t: TestCase, rt: Runtime): Json {
    match rt.loads(t.expectedOutput)
    case Some(v) => v
    case None => JString(t.expectedOutput)
  }

  /**
   * The report of one case: compared with Python's `==`, and hidden unless a
   * sample. The run's output and both streams are passed on as they are.
   */
  function Report(t: TestCase, r: ExecutionResult, rt: Runtime): (report: TestReport)
    ensures report.output == r.output && report.stdout == r.stdout && report.stderr == r.stderr
    ensures report.passed <==> PyEq(r.output, ExpectedValue(t, rt))
  {
    TestReport(
      PyEq(r.output, ExpectedValue(t, rt)),
      if t.isSample then t.inputData else "Hidden",
      if t.isSample then t.expectedOutput else "Hidden",
      r.output, r.stdout, r.stderr)
  }

  /**
   * A case's input and expected output reach the report only for a sample
   * case, whether or not it passed; the verdict compares the output with the
   * decoded expectation.
   */
  lemma ReportRedaction(t: TestCase, r: ExecutionResult, rt: Runtime)
    ensures Report(t, r, rt).input == "Hidden" <== !t.isSample
    ensures Report(t, r, rt).expected == "Hidden" <== !t.isSample
    ensures t.isSample ==> Report(t, r, rt).input == t.inputData && Report(t, r, rt).expected == t.expectedOutput
    ensures Report(t, r, rt).passed <==> PyEq(r.output, ExpectedValue(t, rt))
    ensures Report(t, r, rt).output == r.output
  {
  }

  /** A failed run has no output, so it passes only a case expecting `null`. */
  lemma FailurePassesOnlyNull(t: TestCase, message: string, rt: Runtime)
    ensures Report(t, Failure(message), rt).passed <==> ExpectedValue(t, rt) == JNull
  {
  }

  /** Whether every report passed. */
  predicate AllPassed(reports: seq<TestReport>) {
    reports == [] || (AllPassed(reports[..|reports| - 1]) && reports[|reports| - 1].passed)
  }

  lemma {:induction false} AllPassedEach(reports: seq<TestReport>)
    ensures AllPassed(reports) <==> forall i :: 0 <= i < |reports| ==> reports[i].passed
  {
    if reports != [] {
      var n := |reports| - 1;
      AllPassedEach(reports[..n]);
      assert forall i :: 0 <= i < n ==> reports[..n][i] == reports[i];
    }
  }

  /** Reading one more report keeps the fold: all passed iff they did before and the new one passed. */
  lemma AllPassedStep(reports: seq<TestReport>, r: TestReport)
    ensures AllPassed(reports + [r]) <==> AllPassed(reports) && r.passed
  {
    assert (reports + [r])[..|reports|] == reports;
  }

  /** The reports of the first `n` cases, case `k` reported as `report(k)`. */
  function ReportsUpTo(report: nat -> TestReport, n: nat): seq<TestReport> {
    if n == 0 then [] else ReportsUpTo(report, n - 1) + [report(n - 1)]
  }

  /** The first `n` reports are one per case, in case order. */
  lemma {:induction false} ReportsUpToEach(report: nat -> TestReport, n: nat)
    ensures |ReportsUpTo(report, n)| == n
    ensures forall k :: 0 <= k < n ==> ReportsUpTo(report, n)[k] == report(k)
  {
    if n > 0 {
      ReportsUpToEach(report, n - 1);
    }
  }

  /** One iteration of run_tests: run the case and report on it. */
  method RunCase(code: string, test: TestCase, entry: string, language: string, rt: Runtime,
                 service: Payload -> Exchange) returns (report: TestReport)
    ensures report == Report(test, ExecutionOf(code, test.inputData, entry, language, rt, service), rt)
  {
    var execution := Execute(code, test.inputData, entry, language, rt, service);
    report := Report(test, execution, rt);
  }

  /**
   * run_tests: every case is run, in order, even after a failure; `allPassed`
   * says whether every report passed. The `i`-th case is answered by `service(i)`.
   */
  method RunTests(code: string, tests: seq<TestCase>, entry: string, language: string, rt: Runtime,
                  service: nat -> Payload -> Exchange) returns (results: seq<TestReport>, allPassed: bool)
    ensures |results| == |tests|
    ensures forall i :: 0 <= i < |tests| ==>
      results[i] == Report(tests[i], ExecutionOf(code, tests[i].inputData, entry, language, rt, service(i)), rt)
    ensures allPassed <==> forall i :: 0 <= i < |results| ==> results[i].passed
  {
    ghost var report := (k: nat) =>
      if k < |tests| then Report(tests[k], ExecutionOf(code, tests[k].inputData, entry, language, rt, service(k)), rt)
      else TestReport(false, "", "", JNull, None, None);
    results := [];
    allPassed := true;
    for i := 0 to |tests|
      invariant results == ReportsUpTo(report, i)
      invariant allPassed == AllPassed(results)
    {
      var r := RunCase(code, tests[i], entry, language, rt, service(i));
      assert r == report(i);
      AllPassedStep(results, r);
      results := results + [r];
      allPassed := allPassed && r.passed;
    }
    ReportsUpToEach(report, |tests|);
    AllPassedEach(results);
  }

  // ---------------------------------------------------------------------------
  // The routes
  // ---------------------------------------------------------------------------

  /** The `code` and `language` fields of the request body (`None` when missing). */
  datatype RunRequest = RunRequest(code: Option<string>, language: Option<string>)

  /** A route's JSON answer: the run, or an error with its status. */
  datatype RouteResponse = Ran(passed: bool, results: seq<TestReport>) | Refused(status: int, error: string)

  /** The text of the `NotFound` that `get_or_404` raises. */
  const NotFoundText := "404 Not Found: The requested URL was not found on the server. If you entered the URL manually please check your spelling and try again."

  /** The route's language token: `js` and `ts` are expanded, anything else passes through. */
  function RouteLanguage(language: Option<string>): (r: string)
    ensures language == Some("js") ==> r == "javascript"
    ensures language == Some("ts") ==> r == "typescript"
    ensures r != "js" && r != "ts"
    ensures language.None? ==> r == "python"
    ensures language.Some? && language.value != "js" && language.value != "ts" ==> r == language.value
  {
    var l := language.GetOr("python");
    if l == "js" then "javascript" else if l == "ts" then "typescript" else l
  }

  /** Expanding a token twice is expanding it once. */
  lemma RouteLanguageIdempotent(language: Option<string>)
    ensures RouteLanguage(Some(RouteLanguage(language))) == RouteLanguage(language)
  {
  }

  /** The stored verdict of a submission. */
  function Verdict(allPassed: bool): (result: string)
    ensures result == "Passed" <==> allPassed
    ensures result == "Failed" <==> !allPassed
  {
    if allPassed then "Passed" else "Failed"
  }

  /** No code, or empty code. */
  predicate NoCode(request: RunRequest) {
    request.code.None? || request.code.value == ""
  }

  /**
   * run_code_samples: the sample cases of the question, run in order. The
   * `NotFound` of a missing question is caught by the route's own handler and
   * reported as a 500.
   */
  method RunCodeSamples(request: RunRequest, question: Option<Question>, rt: Runtime,
                        service: nat -> Payload -> Exchange) returns (response: RouteResponse)
    ensures NoCode(request) ==> response == Refused(400, "No code provided")
    ensures !NoCode(request) && question.None? ==>
      response == Refused(500, "Error running sample tests: " + NotFoundText)
    ensures !NoCode(request) && question.Some? ==>
      var samples := SampleTests(question.value.testCases);
      && response.Ran?
      && |response.results| == |samples|
      && (forall i :: 0 <= i < |samples| ==>
            response.results[i] ==
            Report(samples[i], ExecutionOf(request.code.value, samples[i].inputData, question.value.expectedMethod,
                                           RouteLanguage(request.language), rt, service(i)), rt))
      && (response.passed <==> forall i :: 0 <= i < |response.results| ==> response.results[i].passed)
  {
    var language := RouteLanguage(request.language);
    if NoCode(request) {
      return Refused(400, "No code provided");
    }
    if question.None? {
      return Refused(500, "Error running sample tests: " + NotFoundText);
    }
    var samples := SampleTests(question.value.testCases);
    var results, allPassed := RunTests(request.code.value, samples, question.value.expectedMethod, language, rt, service);
    response := Ran(allPassed, results);
  }

  /**
   * submit_solution: every case of the question is run and a submission is
   * stored with "Passed" exactly when all of them passed. `saveError` is the
   * database's failure to commit, if any. A missing question is a plain 404.
   */
  method SubmitSolution(userId: int, questionId: int, request: RunRequest, question: Option<Question>, rt: Runtime,
                        service: nat -> Payload -> Exchange, saveError: Option<string>)
    returns (response: RouteResponse, saved: Option<Submission>)
    ensures NoCode(request) ==> response == Refused(400, "No code provided") && saved.None?
    ensures !NoCode(request) && question.None? ==> response == Refused(404, NotFoundText) && saved.None?
    ensures !NoCode(request) && question.Some? && saveError.Some? ==>
      response == Refused(500, "Failed to save submission: " + saveError.value) && saved.None?
    ensures !NoCode(request) && question.Some? && saveError.None? ==>
      var tests := question.value.testCases;
      && response.Ran?
      && |response.results| == |tests|
      && (forall i :: 0 <= i < |tests| ==>
            response.results[i] ==
            Report(tests[i], ExecutionOf(request.code.value, tests[i].inputData, question.value.expectedMethod,
                                         RouteLanguage(request.language), rt, service(i)), rt))
      && (response.passed <==> forall i :: 0 <= i < |response.results| ==> response.results[i].passed)
      && saved == Some(Submission(userId, questionId, request.code.value, Verdict(response.passed),
                                  RouteLanguage(request.language)))
  {
    var language := RouteLanguage(request.language);
    if NoCode(request) {
      return Refused(400, "No code provided"), None;
    }
    if question.None? {
      return Refused(404, NotFoundText), None;
    }
    var results, allPassed := RunTests(request.code.value, question.value.testCases, question.value.expectedMethod,
                                       language, rt, service);
    if saveError.Some? {
      return Refused(500, "Failed to save submission: " + saveError.value), None;
    }
    saved := Some(Submission(userId, questionId, request.code.value, Verdict(allPassed), language));
    response := Ran(allPassed, results);
  }
}
