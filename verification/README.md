# Build Failure Analyzer: test-result scanning and scan on demand

A Dafny model of two pieces of decision logic from the Jenkins Build Failure
Analyzer plugin:

- **`TestResultFailureReader`** looks for a failure-cause pattern in the failed
  tests of a build's test reports. It tries the fields of each failed test in a
  fixed order (error details, error stack trace, stderr, stdout), reports the
  first field that the pattern matches in full, and builds a found indication
  from the pattern text, a test-report URL and the matched text with console
  notes removed. A watchdog may interrupt a match attempt, and an elapsed-time
  check after the test action may discard the result.
- **`ScanOnDemandTask`** rescans a build on demand. A plain build is rescanned
  by itself. For a matrix build, the task rescans each child run that has no
  failure-cause action, has a result worse than success and carries the
  parent's number. Then it attaches one aggregate action to the parent, listing
  every run that carries the parent's number, and saves the parent. Rescanning a
  run means three steps: remove its stored cause, scan it, save it. An exception
  in any step is logged and the task moves on to the next run.

Both are pure functions over immutable datatypes:

- `wrappers.dfy`: `Option` models Java's nullable references; `Result` models a call that may throw.
- `seqs.dfy`: an order-preserving `Filter`. Its contract covers membership. One lemma shows each kept element keeps its multiplicity; another shows the filter distributes over concatenation.
- `test_result_failure_reader.dfy`: the scanner. The regular-expression engine is a `Pattern` with an uninterpreted full-match function. The console-note stripper and the Jenkins root URL form a `Host`. The two timeouts are a `Timing` oracle: `probe(i, f)` says whether the attempt on field `f` of the `i`-th failed test runs undisturbed, is interrupted by the watchdog, or throws some other runtime exception. `fileBudgetExceeded` is the outcome of the elapsed-time check.
- `scan_on_demand_task.dfy`: the task as a function from a build and a `Faults` oracle to a trace of events. The events are `Remove`, `Scan`, `Save`, `ScanFailed`, `AddAggregate`, `SaveParent` and `TaskFailed`. The oracle says which external calls throw.

Three behaviours of the code are worth stating plainly, since a reader might expect otherwise:

- Exceeding the file budget discards a match already found in the first test action, because the indication is built only after the time check.
- A child run with no failure-cause actions whose result is still null makes `isWorseThan` throw. The task's own catch handles the exception, so the remaining runs and the aggregate step are skipped. `Crashes` and `FirstCrash` model this case.
- Only the first test action is ever examined, because the method returns inside the loop over actions.

## Model

| member | source | states |
|---|---|---|
| `TestResultFailureReader.Try` | src/main/java/com/sonyericsson/jenkins/plugins/bfa/model/TestResultFailureReader.java:98-131 | One attempt on one field: a null field is skipped without an attempt (a miss). On a non-null field the attempt hits exactly when it runs undisturbed and the pattern matches the whole text, and the hit carries that text. It is interrupted exactly when the watchdog interrupts it, and faults, naming the field, exactly when it throws any other runtime exception. |
| `TestResultFailureReader.ScanTest` | src/main/java/com/sonyericsson/jenkins/plugins/bfa/model/TestResultFailureReader.java:98-121 | A failed test misses exactly when every field is null or tried without a full match, an interrupt or a fault; a null field is skipped without an attempt. A hit carries the whole text of a non-null field the pattern matched in full while its attempt ran undisturbed. A fault names a non-null field whose attempt threw. |
| `TestResultFailureReader.FirstDecidingFieldDecides` | src/main/java/com/sonyericsson/jenkins/plugins/bfa/model/TestResultFailureReader.java:98-121 | The fields are tried in the order error details, stack trace, stderr, stdout: the first whose attempt does not miss decides the test, whatever the later fields hold. |
| `TestResultFailureReader.ScanFailedTests` | src/main/java/com/sonyericsson/jenkins/plugins/bfa/model/TestResultFailureReader.java:96-132 | When the scan stops, it stops at a failed test that does not miss, every earlier test missed, and the stop records that test's own outcome. The scan runs through the list exactly when every test misses. |
| `TestResultFailureReader.FirstDecidingTestStops` | src/main/java/com/sonyericsson/jenkins/plugins/bfa/model/TestResultFailureReader.java:96-132 | The scan stops at the first failed test, in list order, that does not miss. |
| `TestResultFailureReader.ScanTestResults` | src/main/java/com/sonyericsson/jenkins/plugins/bfa/model/TestResultFailureReader.java:80-147 | With no test actions the result is null. An exceeded file budget never yields an indication. An indication is only reported for a non-null field of a failed test in the first action that the pattern matched in full, undisturbed. It carries the owning build, the pattern text, the URL root + build URL + "testReport" + test URL, and that field's text with notes removed. A thrown fault names a non-null field of a test in the first action whose attempt faulted. |
| `TestResultFailureReader.FirstDecidingTestDecides` | src/main/java/com/sonyericsson/jenkins/plugins/bfa/model/TestResultFailureReader.java:97-145 | The first failed test of the first action that does not miss decides the scan. A hit within the file budget is the indication reported. A hit past the budget yields null, an interrupt yields null, and a fault propagates. |
| `TestResultFailureReader.OnlyFirstActionExamined` | src/main/java/com/sonyericsson/jenkins/plugins/bfa/model/TestResultFailureReader.java:92-147 | The result depends only on the first test action: builds with the same identity that agree on it get the same result. |
| `TestResultFailureReader.LaterTestsNotExamined` | src/main/java/com/sonyericsson/jenkins/plugins/bfa/model/TestResultFailureReader.java:97-132 | Once a failed test hits, is interrupted or faults, the tests after it are never examined. Two failed-test lists that agree up to that test give the same result. |
| `TestResultFailureReader.ScanWithLog` | src/main/java/com/sonyericsson/jenkins/plugins/bfa/model/TestResultFailureReader.java:165-183 | The logging variant never throws an `Exception`. When the scan throws, it returns null and writes exactly one diagnostic line to the build log. Otherwise it returns the scan's result and writes nothing. |
| `ScanOnDemandTask.ScanBuild` | src/main/java/com/sonyericsson/jenkins/plugins/bfa/sod/ScanOnDemandTask.java:112-131 | Rescanning a run performs remove, scan and save in that order, up to the first step that throws. A step that throws is logged once, and no later step for that run happens. Every event concerns that run. |
| `ScanOnDemandTask.ScanBuildClosesOnce` | src/main/java/com/sonyericsson/jenkins/plugins/bfa/sod/ScanOnDemandTask.java:112-131 | Whichever step throws, the rescan of a run closes exactly once: by its save, or by the one logged error. |
| `ScanOnDemandTask.Crashes` | src/main/java/com/sonyericsson/jenkins/plugins/bfa/sod/ScanOnDemandTask.java:71-73 | The selection check throws on a run exactly when it carries neither kind of failure-cause action, so the result is asked for, and the run has no result yet (it is still running). |
| `ScanOnDemandTask.Selected` | src/main/java/com/sonyericsson/jenkins/plugins/bfa/sod/ScanOnDemandTask.java:71-74 | A run is rescanned when it carries no failure-cause action of either kind, its result is worse than success, and its number is the parent's number. |
| `ScanOnDemandTask.ScanRuns` | src/main/java/com/sonyericsson/jenkins/plugins/bfa/sod/ScanOnDemandTask.java:69-78 | The loop over child runs emits only per-run events. An exception escapes the loop exactly when some run's selection check throws. |
| `ScanOnDemandTask.ScanRunsRescansInOrder` | src/main/java/com/sonyericsson/jenkins/plugins/bfa/sod/ScanOnDemandTask.java:69-78 | The loop's whole trace is the uninterrupted rescans of the selected runs before the first throwing check, one after another in list order. A run is selected when it has no failure-cause action of either kind, a result worse than success, and the parent's number. |
| `ScanOnDemandTask.OnlySelectedRunsTouched` | src/main/java/com/sonyericsson/jenkins/plugins/bfa/sod/ScanOnDemandTask.java:69-78 | A run that is not selected, or that comes after the first throwing check, gets no event at all. |
| `ScanOnDemandTask.ScanRunsRescansSelected` | src/main/java/com/sonyericsson/jenkins/plugins/bfa/sod/ScanOnDemandTask.java:69-78 | The loop rescans the selected runs, in list order, up to the first run whose check throws. A run is selected when it has no failure-cause action of either kind, a result worse than success, and the parent's number. |
| `ScanOnDemandTask.RescannedMembers` | src/main/java/com/sonyericsson/jenkins/plugins/bfa/sod/ScanOnDemandTask.java:112-131 | A run counts as rescanned exactly when some event closes its rescan: its save, or the one logged error. |
| `ScanOnDemandTask.RescanCount` | src/main/java/com/sonyericsson/jenkins/plugins/bfa/sod/ScanOnDemandTask.java:69-78 | Each selected run before the first throwing check is rescanned as often as it is listed; no other run is rescanned. |
| `ScanOnDemandTask.MatrixRescansSelectedRuns` | src/main/java/com/sonyericsson/jenkins/plugins/bfa/sod/ScanOnDemandTask.java:66-86 | For a matrix build, the whole task rescans exactly the selected runs before the first throwing check. Which rescan steps throw plays no part. |
| `ScanOnDemandTask.MatrixRescansAllSelectedRuns` | src/main/java/com/sonyericsson/jenkins/plugins/bfa/sod/ScanOnDemandTask.java:69-78 | When no selection check throws, the runs rescanned are exactly the selected runs of the list, in order. |
| `ScanOnDemandTask.EndMatrixBuildScan` | src/main/java/com/sonyericsson/jenkins/plugins/bfa/sod/ScanOnDemandTask.java:94-105 | If adding the aggregate throws, the only event is the task's logged failure. Otherwise there are exactly two events: first the aggregate, listing exactly the runs whose number is the parent's, in list order; then the parent save, or the task's logged failure if the save throws. No per-run event happens here. |
| `ScanOnDemandTask.MatrixAddsOneAggregate` | src/main/java/com/sonyericsson/jenkins/plugins/bfa/sod/ScanOnDemandTask.java:79-104 | When no selection check throws and neither adding the aggregate nor saving the parent throws: after all per-run events of a matrix build, exactly one aggregate is added, followed by one parent save. The aggregate lists the runs numbered like the parent, whatever their actions or results. |
| `ScanOnDemandTask.MatrixCrashSkipsAggregate` | src/main/java/com/sonyericsson/jenkins/plugins/bfa/sod/ScanOnDemandTask.java:71-86 | When a run's selection check throws, the task logs one failure. It adds no aggregate and does not save the parent. |
| `ScanOnDemandTask.SimpleBuildRescannedOnce` | src/main/java/com/sonyericsson/jenkins/plugins/bfa/sod/ScanOnDemandTask.java:80-82 | A plain build is rescanned exactly once, by itself, and no parent event happens. |
| `ScanOnDemandTask.FailuresStayLocal` | src/main/java/com/sonyericsson/jenkins/plugins/bfa/sod/ScanOnDemandTask.java:66-86 | Under the same parent faults, the rescanned runs and the parent events do not depend on which rescan steps throw. A failing rescan stops neither its siblings nor the aggregate. |
| `ScanOnDemandTask.RunTask` | src/main/java/com/sonyericsson/jenkins/plugins/bfa/sod/ScanOnDemandTask.java:66-87 | The task never propagates an `Exception`: one it catches is logged once, as its last event. A plain build's events all concern that build. |

## Left out

- The watchdog timer thread and the interruptible character sequence are concurrency. Only their effect is modelled: the `Timing.probe` oracle marks an attempt as interrupted.
- The clocks are left out. The per-file timeout is the boolean `Timing.fileBudgetExceeded`, and the FINER timing log of the logging variant is not modelled.
- The regular-expression engine is a `Pattern.fullMatch` function with no interpretation. Console-note removal is `Host.removeNotes`, likewise uninterpreted. Both are library code.
- The logger's warning and severe messages are left out, apart from the one line the logging variant writes to the build log and the `ScanFailed`/`TaskFailed` events.
- Clearing the interrupt flag after the scan is not modelled, because it is thread state.
- `Host.rootUrl` is a string. Jenkins may return a null root URL, which Java string concatenation turns into the text "null". The model does not distinguish that case.
- The knowledge-base removal, the failure scanner and `save` are external collaborators. They appear only as trace events, and the `Faults` oracle says whether they throw. This means re-scan idempotence is not modelled: it depends on the knowledge base.
- `getRuns()` is called twice, once in the loop and once for the aggregate. The model assumes both calls return the same list.
- The null output stream used as the build log during a rescan, and closing it, are I/O.
- The exception thrown if the task's own warning message fails to build is not modelled.
- `ScanWithLog`, `RunTask`: a `java.lang.Error` (for example a `StackOverflowError` from the regular-expression engine on a deeply recursive match) is not caught by the code and is not modelled; both promise only that no `Exception` escapes.
- `ScanTestResults`: host calls outside a match attempt are assumed not to throw: the build's actions, the failed-test list, `Jenkins.getInstance()`, `removeNotes` and the test URL. `ScanError` covers only a faulted match attempt.
