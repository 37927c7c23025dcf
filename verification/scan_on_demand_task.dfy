/** The task that rescans a build on demand. For a matrix build it rescans the
    selected child runs one by one and then attaches one aggregate action to the
    parent; for any other build it rescans the build itself.

    The knowledge base, the failure scanner and persistence are not modelled:
    their effects are recorded as events of a trace, and whether each of them
    throws is given by a `Faults` oracle. */
module ScanOnDemandTask {
  import opened Wrappers
  import Seqs

  /** The result of a finished build, from best to worst. */
  datatype Severity = Succeeded | Unstable | Failed | NotBuilt | Aborted

  /** The rank of a result; a higher rank is a worse result. */
  function Ordinal(s: Severity): nat
  {
    match s
    case Succeeded => 0
    case Unstable => 1
    case Failed => 2
    case NotBuilt => 3
    case Aborted => 4
  }

  /** `a` is a worse result than `b`. */
  predicate IsWorseThan(a: Severity, b: Severity)
  {
    Ordinal(a) > Ordinal(b)
  }

  /** A build or a matrix child run: its number, whether it already carries a
      failure-cause action or a matrix failure-cause action, and its result
      (`None` while it is still running). */
  datatype Run = Run(
    name: string,
    number: int,
    hasBuildAction: bool,
    hasMatrixAction: bool,
    result: Option<Severity>)

  /** The build handed to the task: a plain build, or a matrix build with its
      number and the child runs it lists. */
  datatype Build = Simple(build: Run) | Matrix(number: int, runs: seq<Run>)

  /** The three steps of rescanning one run. */
  datatype Step = RemoveCause | ScanCause | SaveRun

  /** The effects of the task, in the order they happen. `Remove`, `Scan` and
      `Save` are the steps of rescanning a run that completed; `ScanFailed` is
      the error logged when one of them throws; `TaskFailed` is the warning
      logged when the task itself catches an exception. */
  datatype Event =
    | Remove(run: Run)
    | Scan(run: Run)
    | Save(run: Run)
    | ScanFailed(run: Run)
    | AddAggregate(runs: seq<Run>)
    | SaveParent
    | TaskFailed

  /** Which external calls throw: a step of rescanning a given run, adding the
      aggregate action to the parent, or saving the parent. */
  datatype Faults = Faults(step: (Run, Step) -> bool, addAggregate: bool, saveParent: bool)

  /** The outcome of the loop over the child runs: the events so far and
      whether an exception escaped the loop. */
  datatype Pass = Pass(events: seq<Event>, crashed: bool)

  /** The rescan steps of a run in the order they are made. */
  const StepOrder: seq<Step> := [RemoveCause, ScanCause, SaveRun]

  /** The events of a rescan in which no step throws. */
  function Completed(r: Run): seq<Event>
  {
    [Remove(r), Scan(r), Save(r)]
  }

  /** An event about one run, as opposed to one about the parent or the task. */
  predicate PerRun(e: Event)
  {
    e.Remove? || e.Scan? || e.Save? || e.ScanFailed?
  }

  /** The event that closes the rescan of a run, successful or not. */
  predicate Closes(e: Event)
  {
    e.Save? || e.ScanFailed?
  }

  /** The runs whose rescan closed in `events`, in order. */
  function Rescanned(events: seq<Event>): seq<Run>
    decreases |events|
  {
    if |events| == 0 then []
    else (if Closes(events[0]) then [events[0].run] else []) + Rescanned(events[1..])
  }

  /** A run is listed exactly when some event of `events` closes its rescan. */
  lemma {:induction false} RescannedMembers(events: seq<Event>, x: Run)
    ensures x in Rescanned(events) <==> exists i :: 0 <= i < |events| && Closes(events[i]) && events[i].run == x
    decreases |events|
  {
    if |events| > 0 {
      RescannedMembers(events[1..], x);
      if exists i :: 0 <= i < |events[1..]| && Closes(events[1..][i]) && events[1..][i].run == x {
        var i :| 0 <= i < |events[1..]| && Closes(events[1..][i]) && events[1..][i].run == x;
        assert events[i + 1] == events[1..][i];
      }
      if exists i :: 0 <= i < |events| && Closes(events[i]) && events[i].run == x {
        var i :| 0 <= i < |events| && Closes(events[i]) && events[i].run == x;
        if i > 0 {
          assert events[1..][i - 1] == events[i];
        }
      }
    }
  }

  /** The runs rescanned in two consecutive traces are those of each, in order. */
  lemma {:induction false} RescannedConcat(a: seq<Event>, b: seq<Event>)
    ensures Rescanned(a + b) == Rescanned(a) + Rescanned(b)
    decreases |a|
  {
    if |a| == 0 {
      assert a + b == b;
    } else {
      var head := if Closes(a[0]) then [a[0].run] else [];
      assert (a + b)[0] == a[0];
      assert (a + b)[1..] == a[1..] + b;
      calc {
        Rescanned(a + b);
        head + Rescanned(a[1..] + b);
        { RescannedConcat(a[1..], b); }
        head + (Rescanned(a[1..]) + Rescanned(b));
        (head + Rescanned(a[1..])) + Rescanned(b);
      }
    }
  }

  /** The events that are not about one run: the aggregate, the parent save and the task's warning. */
  function ParentEvents(events: seq<Event>): seq<Event>
  {
    Seqs.Filter(events, (e: Event) => !PerRun(e))
  }

  /** The rescan of `r` made its first `k` steps and then stopped: either the
      next step threw and was logged, or all three steps were made. */
  ghost predicate StopsAfter(r: Run, faults: Faults, k: nat, events: seq<Event>)
  {
    && k <= |StepOrder|
    && (forall j :: 0 <= j < k ==> !faults.step(r, StepOrder[j]))
    && (k < |StepOrder| ==> faults.step(r, StepOrder[k]))
    && events == Completed(r)[..k] + (if k < |StepOrder| then [ScanFailed(r)] else [])
  }

  /** Rescans one run: removes its stored failure cause, scans it again, saves
      it. A step that throws ends the rescan of this run, and the exception is
      logged, not propagated. */
  function ScanBuild(r: Run, faults: Faults): (events: seq<Event>)
    ensures exists k :: StopsAfter(r, faults, k, events)
    ensures forall e :: e in events ==> PerRun(e) && e.run == r
  {
    if faults.step(r, RemoveCause) then
      assert StopsAfter(r, faults, 0, [ScanFailed(r)]);
      [ScanFailed(r)]
    else if faults.step(r, ScanCause) then
      assert StopsAfter(r, faults, 1, [Remove(r), ScanFailed(r)]);
      [Remove(r), ScanFailed(r)]
    else if faults.step(r, SaveRun) then
      assert StopsAfter(r, faults, 2, [Remove(r), Scan(r), ScanFailed(r)]);
      [Remove(r), Scan(r), ScanFailed(r)]
    else
      assert StopsAfter(r, faults, 3, [Remove(r), Scan(r), Save(r)]);
      [Remove(r), Scan(r), Save(r)]
  }

  /** Whichever step throws, the rescan of a run closes exactly once. */
  lemma ScanBuildClosesOnce(r: Run, faults: Faults)
    ensures Rescanned(ScanBuild(r, faults)) == [r]
  {
    var events := ScanBuild(r, faults);
    var last := events[|events| - 1];
    assert Rescanned([last]) == [r];
    if |events| >= 2 {
      assert Rescanned(events[|events| - 2..]) == Rescanned([last]) by {
        assert events[|events| - 2..][1..] == [last];
      }
    }
    if |events| == 3 {
      assert Rescanned(events) == Rescanned(events[1..]) by {
        assert events[1..] == events[|events| - 2..];
      }
    }
  }

  /** Rescans the runs of `rs` one after another, each by itself. */
  function RescanAll(rs: seq<Run>, faults: Faults): (events: seq<Event>)
    ensures forall e :: e in events ==> PerRun(e) && e.run in rs
    decreases |rs|
  {
    if |rs| == 0 then []
    else ScanBuild(rs[0], faults) + RescanAll(rs[1..], faults)
  }

  /** Rescanning two lists one after the other is rescanning their concatenation. */
  lemma {:induction false} RescanAllConcat(a: seq<Run>, b: seq<Run>, faults: Faults)
    ensures RescanAll(a + b, faults) == RescanAll(a, faults) + RescanAll(b, faults)
    decreases |a|
  {
    if |a| == 0 {
      assert a + b == b;
    } else {
      assert (a + b)[0] == a[0];
      assert (a + b)[1..] == a[1..] + b;
      RescanAllConcat(a[1..], b, faults);
    }
  }

  /** Rescanning a list of runs closes one rescan per entry, in list order. */
  lemma {:induction false} RescannedRescanAll(rs: seq<Run>, faults: Faults)
    ensures Rescanned(RescanAll(rs, faults)) == rs
    decreases |rs|
  {
    if |rs| > 0 {
      RescannedConcat(ScanBuild(rs[0], faults), RescanAll(rs[1..], faults));
      ScanBuildClosesOnce(rs[0], faults);
      RescannedRescanAll(rs[1..], faults);
    }
  }

  /** Evaluating the selection condition on this run throws: it carries neither
      kind of failure-cause action, so its result is asked for, and it has none. */
  predicate Crashes(r: Run)
  {
    !r.hasBuildAction && !r.hasMatrixAction && r.result.None?
  }

  /** The run is rescanned: it carries neither kind of failure-cause action, its
      result is worse than success, and its number is the parent's number. */
  predicate Selected(r: Run, number: int)
  {
    && !r.hasBuildAction
    && !r.hasMatrixAction
    && r.result.Some? && IsWorseThan(r.result.value, Succeeded)
    && r.number == number
  }

  /** The selection check for a parent numbered `number`, as a function value. */
  function SelectedBy(number: int): Run -> bool
  {
    (r: Run) => Selected(r, number)
  }

  /** The aggregate's membership test: the run carries the parent's number. */
  function NumberedBy(number: int): Run -> bool
  {
    (r: Run) => r.number == number
  }

  /** The position of the first run whose selection check throws, or `|runs|`. */
  function FirstCrash(runs: seq<Run>): (k: nat)
    ensures k <= |runs|
    ensures forall j :: 0 <= j < k ==> !Crashes(runs[j])
    ensures k < |runs| ==> Crashes(runs[k])
    decreases |runs|
  {
    if |runs| == 0 || Crashes(runs[0]) then 0 else 1 + FirstCrash(runs[1..])
  }

  /** The loop over the child runs of a matrix build numbered `number`. */
  function ScanRuns(runs: seq<Run>, number: int, faults: Faults): (pass: Pass)
    ensures forall e :: e in pass.events ==> PerRun(e)
    ensures pass.crashed <==> exists j :: 0 <= j < |runs| && Crashes(runs[j])
    decreases |runs|
  {
    if |runs| == 0 then Pass([], false)
    else if Crashes(runs[0]) then Pass([], true)
    else
      var head := if Selected(runs[0], number) then ScanBuild(runs[0], faults) else [];
      var rest := ScanRuns(runs[1..], number, faults);
      assert forall j :: 1 <= j < |runs| ==> runs[j] == runs[1..][j - 1];
      Pass(head + rest.events, rest.crashed)
  }

  /** Attaches to the parent one aggregate of the runs carrying the parent's
      number, then saves the parent; an exception goes to the task. */
  function EndMatrixBuildScan(number: int, runs: seq<Run>, faults: Faults): (events: seq<Event>)
    ensures forall e :: e in events ==> !PerRun(e)
    ensures forall e :: e in events && e.AddAggregate? ==> e.runs == Seqs.Filter(runs, NumberedBy(number))
    ensures AddAggregate(Seqs.Filter(runs, NumberedBy(number))) in events <==> !faults.addAggregate
    ensures SaveParent in events <==> !faults.addAggregate && !faults.saveParent
    ensures |events| > 0 && TaskFailed !in events[..|events| - 1]
    ensures events[|events| - 1] == TaskFailed <==> faults.addAggregate || faults.saveParent
    ensures faults.addAggregate ==> events == [TaskFailed]
    ensures !faults.addAggregate ==> |events| == 2 && events[0] == AddAggregate(Seqs.Filter(runs, NumberedBy(number)))
  {
    var aggregate := Seqs.Filter(runs, NumberedBy(number));
    if faults.addAggregate then [TaskFailed]
    else if faults.saveParent then [AddAggregate(aggregate), TaskFailed]
    else [AddAggregate(aggregate), SaveParent]
  }

  /** The task: a matrix build has its selected runs rescanned and then gets the
      aggregate; any other build is rescanned itself. No exception escapes: one
      caught by the task is logged once, as its last event. */
  function RunTask(build: Build, faults: Faults): (events: seq<Event>)
    ensures TaskFailed in events ==> events[|events| - 1] == TaskFailed && TaskFailed !in events[..|events| - 1]
    ensures build.Simple? ==> forall e :: e in events ==> PerRun(e) && e.run == build.build
  {
    match build
    case Simple(b) => ScanBuild(b, faults)
    case Matrix(number, runs) =>
      var pass := ScanRuns(runs, number, faults);
      var tail := if pass.crashed then [TaskFailed] else EndMatrixBuildScan(number, runs, faults);
      assert TaskFailed !in pass.events;
      assert (pass.events + tail)[..|pass.events + tail| - 1] == pass.events + tail[..|tail| - 1];
      pass.events + tail
  }

  /** A trace of per-run events holds no parent event. */
  lemma {:induction false} NoParentEvents(events: seq<Event>)
    requires forall e :: e in events ==> PerRun(e)
    ensures ParentEvents(events) == []
    decreases |events|
  {
    if |events| > 0 {
      assert events[0] in events;
      assert forall e :: e in events[1..] ==> e in events;
      NoParentEvents(events[1..]);
    }
  }

  /** A trace without per-run events rescans no run. */
  lemma {:induction false} NoRunsRescanned(events: seq<Event>)
    requires forall e :: e in events ==> !PerRun(e)
    ensures Rescanned(events) == []
    decreases |events|
  {
    if |events| > 0 {
      assert events[0] in events;
      assert forall e :: e in events[1..] ==> e in events;
      NoRunsRescanned(events[1..]);
    }
  }

  /** The loop's whole trace: the selected runs that come before the first run
      whose selection check throws are rescanned one after another, in list
      order, each rescan uninterrupted; no other run gets any event. */
  lemma {:induction false} ScanRunsRescansInOrder(runs: seq<Run>, number: int, faults: Faults)
    ensures ScanRuns(runs, number, faults).events
              == RescanAll(Seqs.Filter(runs[..FirstCrash(runs)], SelectedBy(number)), faults)
    decreases |runs|
  {
    if |runs| == 0 || Crashes(runs[0]) {
      assert runs[..FirstCrash(runs)] == [];
    } else {
      var r := runs[0];
      var tail := runs[1..][..FirstCrash(runs[1..])];
      ScanRunsStep(runs, number, faults);
      FirstCrashStep(runs);
      ScanRunsRescansInOrder(runs[1..], number, faults);
      Seqs.FilterConcat([r], tail, SelectedBy(number));
      RescanAllConcat(Seqs.Filter([r], SelectedBy(number)), Seqs.Filter(tail, SelectedBy(number)), faults);
      assert [r][1..] == [];
      assert RescanAll([r], faults) == ScanBuild(r, faults);
    }
  }

  /** Only selected runs before the first throwing check get any event. */
  lemma {:induction false} OnlySelectedRunsTouched(runs: seq<Run>, number: int, faults: Faults)
    ensures forall e :: e in ScanRuns(runs, number, faults).events ==>
              PerRun(e) && Selected(e.run, number) && e.run in runs[..FirstCrash(runs)]
  {
    ScanRunsRescansInOrder(runs, number, faults);
  }

  /** The loop rescans, in list order, exactly the selected runs that come
      before the first run whose selection check throws. */
  lemma ScanRunsRescansSelected(runs: seq<Run>, number: int, faults: Faults)
    ensures Rescanned(ScanRuns(runs, number, faults).events)
              == Seqs.Filter(runs[..FirstCrash(runs)], SelectedBy(number))
  {
    ScanRunsRescansInOrder(runs, number, faults);
    RescannedRescanAll(Seqs.Filter(runs[..FirstCrash(runs)], SelectedBy(number)), faults);
  }

  /** Each selected run before the first throwing check is rescanned as often
      as it is listed, and no other run is rescanned at all. */
  lemma RescanCount(runs: seq<Run>, number: int, faults: Faults, x: Run)
    ensures multiset(Rescanned(ScanRuns(runs, number, faults).events))[x]
              == if Selected(x, number) then multiset(runs[..FirstCrash(runs)])[x] else 0
  {
    ScanRunsRescansSelected(runs, number, faults);
    Seqs.FilterMultiplicity(runs[..FirstCrash(runs)], SelectedBy(number), x);
  }

  /** One turn of the loop over the child runs. */
  lemma ScanRunsStep(runs: seq<Run>, number: int, faults: Faults)
    requires |runs| > 0 && !Crashes(runs[0])
    ensures ScanRuns(runs, number, faults).events
              == (if Selected(runs[0], number) then ScanBuild(runs[0], faults) else [])
                 + ScanRuns(runs[1..], number, faults).events
  {
  }

  /** The runs before the first throwing check, when the first run does not throw. */
  lemma FirstCrashStep(runs: seq<Run>)
    requires |runs| > 0 && !Crashes(runs[0])
    ensures runs[..FirstCrash(runs)] == [runs[0]] + runs[1..][..FirstCrash(runs[1..])]
  {
  }

  /** For a matrix build, the runs rescanned are the selected runs in the order
      the build lists them, each as often as it is listed, up to the first run
      whose selection check throws; whether a rescan step throws plays no part. */
  lemma MatrixRescansSelectedRuns(number: int, runs: seq<Run>, faults: Faults)
    ensures Rescanned(RunTask(Matrix(number, runs), faults))
              == Seqs.Filter(runs[..FirstCrash(runs)], SelectedBy(number))
  {
    var pass := ScanRuns(runs, number, faults);
    var tail := if pass.crashed then [TaskFailed] else EndMatrixBuildScan(number, runs, faults);
    assert RunTask(Matrix(number, runs), faults) == pass.events + tail;
    RescannedConcat(pass.events, tail);
    ScanRunsRescansSelected(runs, number, faults);
    NoRunsRescanned(tail);
  }

  /** When no selection check throws, every selected run of a matrix build is
      rescanned, in list order. */
  lemma MatrixRescansAllSelectedRuns(number: int, runs: seq<Run>, faults: Faults)
    requires forall j :: 0 <= j < |runs| ==> !Crashes(runs[j])
    ensures Rescanned(RunTask(Matrix(number, runs), faults)) == Seqs.Filter(runs, SelectedBy(number))
  {
    NoCrash(runs);
    MatrixRescansSelectedRuns(number, runs, faults);
  }

  /** Without a throwing check, the runs before the first throwing check are all of them. */
  lemma NoCrash(runs: seq<Run>)
    requires forall j :: 0 <= j < |runs| ==> !Crashes(runs[j])
    ensures runs[..FirstCrash(runs)] == runs
  {
    assert runs[..|runs|] == runs;
  }

  /** After the runs of a matrix build are processed, exactly one aggregate of
      the runs numbered like the parent, in list order, is added to the parent,
      followed by one save of the parent, whatever their actions or results. */
  lemma MatrixAddsOneAggregate(number: int, runs: seq<Run>, faults: Faults)
    requires forall j :: 0 <= j < |runs| ==> !Crashes(runs[j])
    requires !faults.addAggregate && !faults.saveParent
    ensures exists prefix :: (forall e :: e in prefix ==> PerRun(e))
              && RunTask(Matrix(number, runs), faults)
                   == prefix + [AddAggregate(Seqs.Filter(runs, NumberedBy(number))), SaveParent]
  {
    var pass := ScanRuns(runs, number, faults);
    assert RunTask(Matrix(number, runs), faults)
             == pass.events + [AddAggregate(Seqs.Filter(runs, NumberedBy(number))), SaveParent];
  }

  /** A run whose selection check throws ends the task: the exception is logged
      once and no aggregate is added and the parent is not saved. */
  lemma MatrixCrashSkipsAggregate(number: int, runs: seq<Run>, faults: Faults, j: nat)
    requires j < |runs| && Crashes(runs[j])
    ensures ParentEvents(RunTask(Matrix(number, runs), faults)) == [TaskFailed]
  {
    var pass := ScanRuns(runs, number, faults);
    assert RunTask(Matrix(number, runs), faults) == pass.events + [TaskFailed];
    Seqs.FilterConcat(pass.events, [TaskFailed], (e: Event) => !PerRun(e));
    NoParentEvents(pass.events);
    assert Seqs.Filter([TaskFailed], (e: Event) => !PerRun(e)) == [TaskFailed] by {
      assert [TaskFailed][1..] == [];
    }
  }

  /** A plain build is rescanned once, by itself, and nothing is added to a parent. */
  lemma SimpleBuildRescannedOnce(b: Run, faults: Faults)
    ensures Rescanned(RunTask(Simple(b), faults)) == [b]
    ensures ParentEvents(RunTask(Simple(b), faults)) == []
  {
    NoParentEvents(ScanBuild(b, faults));
    ScanBuildClosesOnce(b, faults);
  }

  /** A rescan step that throws stays local to its run: with the same parent
      faults, the runs rescanned and the parent events do not depend on which
      rescan steps throw. */
  lemma FailuresStayLocal(build: Build, f1: Faults, f2: Faults)
    requires f1.addAggregate == f2.addAggregate && f1.saveParent == f2.saveParent
    ensures Rescanned(RunTask(build, f1)) == Rescanned(RunTask(build, f2))
    ensures ParentEvents(RunTask(build, f1)) == ParentEvents(RunTask(build, f2))
  {
    match build
    case Simple(b) =>
      SimpleBuildRescannedOnce(b, f1);
      SimpleBuildRescannedOnce(b, f2);
    case Matrix(number, runs) =>
      MatrixRescansSelectedRuns(number, runs, f1);
      MatrixRescansSelectedRuns(number, runs, f2);
      var p1, p2 := ScanRuns(runs, number, f1), ScanRuns(runs, number, f2);
      assert p1.crashed == p2.crashed;
      var tail := if p1.crashed then [TaskFailed] else EndMatrixBuildScan(number, runs, f1);
      assert tail == if p2.crashed then [TaskFailed] else EndMatrixBuildScan(number, runs, f2);
      Seqs.FilterConcat(p1.events, tail, (e: Event) => !PerRun(e));
      Seqs.FilterConcat(p2.events, tail, (e: Event) => !PerRun(e));
      NoParentEvents(p1.events);
      NoParentEvents(p2.events);
  }
}
