/** The reader that looks for a failure indication among the failed tests of a
    build's test reports.

    The regular-expression engine, the console-note stripper and the clocks are
    not modelled: a pattern carries its full-match relation as an uninterpreted
    function, the host supplies the note stripper, and the two timeouts are
    given as a `Timing` oracle saying which match attempts the watchdog
    interrupts and whether the per-file budget is exceeded. */
module TestResultFailureReader {
  import opened Wrappers

  /** The four text fields of a failed test. */
  datatype Field = ErrorDetails | ErrorStackTrace | Stderr | Stdout

  /** The order in which the fields of one failed test are tried. */
  const Priority: seq<Field> := [ErrorDetails, ErrorStackTrace, Stderr, Stdout]

  /** A failed test: each text field may be null; `url` locates it in the test report. */
  datatype TestResult = TestResult(
    errorDetails: Option<string>,
    errorStackTrace: Option<string>,
    stderr: Option<string>,
    stdout: Option<string>,
    url: string)
  {
    function Text(f: Field): Option<string> {
      match f
      case ErrorDetails => errorDetails
      case ErrorStackTrace => errorStackTrace
      case Stderr => stderr
      case Stdout => stdout
    }
  }

  /** One test-report action of a build, reduced to its failed tests. */
  datatype TestAction = TestAction(failedTests: seq<TestResult>)

  /** The identity of a build as the indication records it. */
  datatype BuildRef = BuildRef(displayName: string, url: string)

  /** A build with its test-report actions, in the order the build lists them. */
  datatype Build = Build(ref: BuildRef, testActions: seq<TestAction>)

  /** A compiled pattern: its source text (`toString`) and whether it matches a whole string. */
  datatype Pattern = Pattern(text: string, fullMatch: string -> bool)

  /** What the scanner takes from its host: the root URL and the console-note stripper. */
  datatype Host = Host(rootUrl: string, removeNotes: string -> string)

  /** The result record of a successful scan. */
  datatype FoundIndication = FoundIndication(
    build: BuildRef,
    pattern: string,
    testUrl: string,
    matchingString: string)

  /** What happens to one match attempt apart from the pattern itself: it runs to
      completion, the watchdog interrupts it, or some other runtime fault ends it. */
  datatype Interference = Calm | Interrupt | Fault

  /** The time-dependent part of one scan. `probe(i, f)` tells what happens to the
      attempt on field `f` of the `i`-th failed test of the examined action;
      `fileBudgetExceeded` is the elapsed-time check made after that action. */
  datatype Timing = Timing(probe: (nat, Field) -> Interference, fileBudgetExceeded: bool)

  /** The outcome of trying one field, or of trying one whole failed test. */
  datatype Attempt = Hit(field: Field, line: string) | Miss | Interrupted | Faulted(field: Field)

  /** The outcome of scanning the failed tests of one action: the scan stopped at
      test `index` because of `attempt` (a hit, an interrupt or a fault), or it
      ran through the whole list. */
  datatype ActionOutcome = Stopped(index: nat, attempt: Attempt) | Exhausted

  /** A runtime exception other than an interrupt, thrown by the attempt on `field` of test `test`. */
  datatype ScanError = RuntimeFault(test: nat, field: Field)

  /** The message written to the build log when a scan throws. */
  const CouldNotScan: string := "[BFA] Could not scan test results for indication."

  /** One match attempt on field `f` of the `i`-th failed test: a null field is
      skipped without an attempt; otherwise the whole text must match. */
  function Try(t: TestResult, i: nat, f: Field, p: Pattern, timing: Timing): (a: Attempt)
    ensures a.Hit? <==> t.Text(f).Some? && timing.probe(i, f) == Calm && p.fullMatch(t.Text(f).value)
    ensures a.Hit? ==> a == Hit(f, t.Text(f).value)
    ensures a == Interrupted <==> t.Text(f).Some? && timing.probe(i, f) == Interrupt
    ensures a.Faulted? <==> t.Text(f).Some? && timing.probe(i, f) == Fault
    ensures a.Faulted? ==> a.field == f
  {
    match t.Text(f)
    case None => Miss
    case Some(s) =>
      match timing.probe(i, f)
      case Interrupt => Interrupted
      case Fault => Faulted(f)
      case Calm => if p.fullMatch(s) then Hit(f, s) else Miss
  }

  /** The first `k` fields in priority order are all tried without deciding anything. */
  ghost predicate FieldsMiss(t: TestResult, i: nat, p: Pattern, timing: Timing, k: nat)
  {
    forall j :: 0 <= j < k && j < |Priority| ==> Try(t, i, Priority[j], p, timing) == Miss
  }

  /** Scans one failed test: the first field, in priority order, whose attempt
      hits, is interrupted or faults decides the test; if none does, it misses. */
  function ScanTest(t: TestResult, i: nat, p: Pattern, timing: Timing): (a: Attempt)
    ensures a == Miss <==> FieldsMiss(t, i, p, timing, |Priority|)
    ensures a.Hit? ==> t.Text(a.field) == Some(a.line) && timing.probe(i, a.field) == Calm && p.fullMatch(a.line)
    ensures a.Faulted? ==> t.Text(a.field).Some? && timing.probe(i, a.field) == Fault
  {
    assert Priority[0] == ErrorDetails && Priority[1] == ErrorStackTrace;
    assert Priority[2] == Stderr && Priority[3] == Stdout;
    var details := Try(t, i, ErrorDetails, p, timing);
    if details != Miss then details
    else
      var trace := Try(t, i, ErrorStackTrace, p, timing);
      if trace != Miss then trace
      else
        var err := Try(t, i, Stderr, p, timing);
        if err != Miss then err
        else Try(t, i, Stdout, p, timing)
  }

  /** The first field, in priority order, whose attempt does not miss decides
      the test. */
  lemma FirstDecidingFieldDecides(t: TestResult, i: nat, p: Pattern, timing: Timing, k: nat)
    requires k < |Priority|
    requires FieldsMiss(t, i, p, timing, k)
    requires Try(t, i, Priority[k], p, timing) != Miss
    ensures ScanTest(t, i, p, timing) == Try(t, i, Priority[k], p, timing)
  {
    assert Priority[0] == ErrorDetails && Priority[1] == ErrorStackTrace;
    assert Priority[2] == Stderr && Priority[3] == Stdout;
  }

  /** Every failed test at a position in `[from, to)` misses. */
  ghost predicate TestsMiss(tests: seq<TestResult>, from: nat, to: nat, p: Pattern, timing: Timing)
  {
    forall j :: from <= j < to && j < |tests| ==> ScanTest(tests[j], j, p, timing) == Miss
  }

  /** Scans the failed tests of one action from position `from` on: the first test
      that does not miss stops the scan; no later test is looked at. */
  function ScanFailedTests(tests: seq<TestResult>, from: nat, p: Pattern, timing: Timing): (o: ActionOutcome)
    requires from <= |tests|
    ensures o == Exhausted <==> TestsMiss(tests, from, |tests|, p, timing)
    ensures o.Stopped? ==> from <= o.index < |tests| && TestsMiss(tests, from, o.index, p, timing)
                           && o.attempt == ScanTest(tests[o.index], o.index, p, timing) && o.attempt != Miss
    decreases |tests| - from
  {
    if from == |tests| then Exhausted
    else
      var a := ScanTest(tests[from], from, p, timing);
      if a == Miss then
        var o := ScanFailedTests(tests, from + 1, p, timing);
        assert TestsMiss(tests, from, |tests|, p, timing) == TestsMiss(tests, from + 1, |tests|, p, timing);
        assert o.Stopped? ==> TestsMiss(tests, from, o.index, p, timing);
        o
      else Stopped(from, a)
  }

  /** The scan stops exactly at the first failed test from `from` on that does
      not miss, and records that test's outcome. */
  lemma FirstDecidingTestStops(tests: seq<TestResult>, from: nat, p: Pattern, timing: Timing, k: nat)
    requires from <= k < |tests|
    requires TestsMiss(tests, from, k, p, timing)
    requires ScanTest(tests[k], k, p, timing) != Miss
    ensures ScanFailedTests(tests, from, p, timing) == Stopped(k, ScanTest(tests[k], k, p, timing))
  {
  }

  /** The indication reported for a hit on `line` in failed test `t`. */
  function Indication(build: Build, p: Pattern, host: Host, t: TestResult, line: string): FoundIndication
  {
    FoundIndication(build.ref, p.text, host.rootUrl + build.ref.url + "testReport" + t.url, host.removeNotes(line))
  }

  /** `fi` is the indication for a non-null field of some failed test in `tests`
      that the pattern matches in full, its attempt having run undisturbed. */
  ghost predicate Reports(build: Build, tests: seq<TestResult>, p: Pattern, host: Host, timing: Timing, fi: FoundIndication)
  {
    exists k: nat, f: Field :: k < |tests| && tests[k].Text(f).Some?
      && timing.probe(k, f) == Calm && p.fullMatch(tests[k].Text(f).value)
      && fi == Indication(build, p, host, tests[k], tests[k].Text(f).value)
  }

  /** Scans the test results of a build for the pattern. Only the first test
      action is examined: the scan returns as soon as that action is done.
      An interrupt abandons the rest of the action's failed tests; any other
      runtime fault propagates; exceeding the file budget discards a hit. */
  function ScanTestResults(build: Build, p: Pattern, host: Host, timing: Timing): (r: Result<Option<FoundIndication>, ScanError>)
    ensures |build.testActions| == 0 ==> r == Success(None)
    ensures timing.fileBudgetExceeded ==> r.Failure? || r == Success(None)
    ensures r.Success? && r.value.Some? ==>
              |build.testActions| > 0 && Reports(build, build.testActions[0].failedTests, p, host, timing, r.value.value)
    ensures r.Failure? ==>
              |build.testActions| > 0 && r.error.test < |build.testActions[0].failedTests|
              && build.testActions[0].failedTests[r.error.test].Text(r.error.field).Some?
              && timing.probe(r.error.test, r.error.field) == Fault
  {
    if |build.testActions| == 0 then Success(None)
    else
      var tests := build.testActions[0].failedTests;
      var o := ScanFailedTests(tests, 0, p, timing);
      if o.Stopped? && o.attempt.Faulted? then Failure(RuntimeFault(o.index, o.attempt.field))
      else if o.Stopped? && o.attempt.Hit? && !timing.fileBudgetExceeded then
        Success(Some(Indication(build, p, host, tests[o.index], o.attempt.line)))
      else Success(None)
  }

  /** The first failed test of the first action that does not miss decides the
      scan: a hit is reported unless the file budget is exceeded, an interrupt
      yields no indication, and a fault propagates. */
  lemma FirstDecidingTestDecides(build: Build, p: Pattern, host: Host, timing: Timing, k: nat)
    requires |build.testActions| > 0
    requires k < |build.testActions[0].failedTests|
    requires TestsMiss(build.testActions[0].failedTests, 0, k, p, timing)
    requires ScanTest(build.testActions[0].failedTests[k], k, p, timing) != Miss
    ensures var t := build.testActions[0].failedTests[k];
            var a := ScanTest(t, k, p, timing);
            && ((a.Hit? && !timing.fileBudgetExceeded)
                  ==> ScanTestResults(build, p, host, timing) == Success(Some(Indication(build, p, host, t, a.line))))
            && (a.Hit? && timing.fileBudgetExceeded ==> ScanTestResults(build, p, host, timing) == Success(None))
            && (a == Interrupted ==> ScanTestResults(build, p, host, timing) == Success(None))
            && (a.Faulted? ==> ScanTestResults(build, p, host, timing) == Failure(RuntimeFault(k, a.field)))
  {
  }

  /** The variant that writes to the build log: it never throws; when the scan
      throws it returns no indication and writes exactly one diagnostic line. */
  function ScanWithLog(build: Build, p: Pattern, host: Host, timing: Timing): (r: (Option<FoundIndication>, seq<string>))
    ensures r.1 == [] || r.1 == [CouldNotScan]
    ensures r.1 == [CouldNotScan] <==> ScanTestResults(build, p, host, timing).Failure?
    ensures ScanTestResults(build, p, host, timing).Success? ==> r.0 == ScanTestResults(build, p, host, timing).value
    ensures ScanTestResults(build, p, host, timing).Failure? ==> r.0 == None
  {
    match ScanTestResults(build, p, host, timing)
    case Success(found) => (found, [])
    case Failure(_) => (None, [CouldNotScan])
  }

  /** Only the first test action is ever examined: builds that agree on it get
      the same result, whatever their other actions hold. */
  lemma OnlyFirstActionExamined(b1: Build, b2: Build, p: Pattern, host: Host, timing: Timing)
    requires b1.ref == b2.ref
    requires |b1.testActions| > 0 && |b2.testActions| > 0
    requires b1.testActions[0] == b2.testActions[0]
    ensures ScanTestResults(b1, p, host, timing) == ScanTestResults(b2, p, host, timing)
  {
  }

  /** Once a failed test decides the scan (a hit, an interrupt or a fault) no
      later failed test is examined: two first actions that agree up to and
      including that test give the same result. */
  lemma LaterTestsNotExamined(b1: Build, b2: Build, p: Pattern, host: Host, timing: Timing, k: nat)
    requires b1.ref == b2.ref
    requires |b1.testActions| > 0 && |b2.testActions| > 0
    requires k < |b1.testActions[0].failedTests| && k < |b2.testActions[0].failedTests|
    requires forall j :: 0 <= j <= k ==> b1.testActions[0].failedTests[j] == b2.testActions[0].failedTests[j]
    requires TestsMiss(b1.testActions[0].failedTests, 0, k, p, timing)
    requires ScanTest(b1.testActions[0].failedTests[k], k, p, timing) != Miss
    ensures ScanTestResults(b1, p, host, timing) == ScanTestResults(b2, p, host, timing)
  {
  }
}
