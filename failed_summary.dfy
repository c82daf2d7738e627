/**
 * The failed_summary notification callback: it collects, per host, the names
 * of the tasks that failed during a run, in one table for failures that stop
 * the host and in another for failures whose errors were ignored, and at the
 * end of the run displays both tables as a summary.
 */
module FailedSummary {
  import opened HostTable
  import opened SummaryRender

  /** One `v2_runner_on_failed` notification: the host, the task, and the ignore_errors flag. */
  datatype Failure = Failure(host: string, task: string, ignored: bool)

  /**
   * The table that the notifications `events` build, in order, for failures
   * whose ignore_errors flag is `ignored`.
   */
  function Tally(events: seq<Failure>, ignored: bool): Table
  {
    if events == [] then []
    else
      var e := events[|events| - 1];
      var before := Tally(events[..|events| - 1], ignored);
      if e.ignored == ignored then Append(before, e.host, e.task) else before
  }

  /** The task names reported for host `h` with flag `ignored`, in notification order. */
  function RecordedFor(events: seq<Failure>, h: string, ignored: bool): seq<string>
  {
    if events == [] then []
    else
      var e := events[|events| - 1];
      var before := RecordedFor(events[..|events| - 1], h, ignored);
      if e.host == h && e.ignored == ignored then before + [e.task] else before
  }

  /** Every table built from notifications is well-formed. */
  lemma {:induction false} TallyWellFormed(events: seq<Failure>, ignored: bool)
    ensures WellFormed(Tally(events, ignored))
  {
    if events != [] {
      var e := events[|events| - 1];
      TallyWellFormed(events[..|events| - 1], ignored);
      if e.ignored == ignored {
        AppendWellFormed(Tally(events[..|events| - 1], ignored), e.host, e.task);
      }
    }
  }

  /**
   * The list a table holds for a host is exactly the task names reported for
   * that host with that flag, in the order they were reported: no task is lost,
   * duplicated, reordered, or filed under the other flag.
   */
  lemma {:induction false} TallyTasksOf(events: seq<Failure>, ignored: bool, h: string)
    ensures TasksOf(Tally(events, ignored), h) == RecordedFor(events, h, ignored)
  {
    if events != [] {
      TallyTasksOf(events[..|events| - 1], ignored, h);
    }
  }

  /** The two tables together hold one task name per notification. */
  lemma {:induction false} TallyTotal(events: seq<Failure>)
    ensures TotalTasks(Tally(events, false)) + TotalTasks(Tally(events, true)) == |events|
  {
    if events != [] {
      var e := events[|events| - 1];
      var init := events[..|events| - 1];
      TallyTotal(init);
      AppendTotal(Tally(init, e.ignored), e.host, e.task);
    }
  }

  /**
   * The callback object. `history` is the sequence of failure notifications
   * received so far; it exists for the proofs only.
   */
  class Reporter {
    var failedTasks: Table
    var ignoredFailedTasks: Table
    var displayIgnoredErrors: bool
    ghost var history: seq<Failure>

    /** Both tables are what the notifications received so far build. */
    ghost predicate Valid()
      reads this
    {
      && failedTasks == Tally(history, false)
      && ignoredFailedTasks == Tally(history, true)
    }

    /** A fresh callback: both tables empty, ignored errors displayed. */
    constructor ()
      ensures Valid()
      ensures history == [] && failedTasks == [] && ignoredFailedTasks == []
      ensures displayIgnoredErrors
    {
      failedTasks := [];
      ignoredFailedTasks := [];
      displayIgnoredErrors := true;
      history := [];
    }

    /**
     * `v2_runner_on_failed`: file the task under its host, in the ignored
     * table when `ignoreErrors` holds and in the failed table otherwise. As
     * in the callback, a failure reported without the flag is not ignored.
     */
    method RecordFailure(host: string, taskName: string, ignoreErrors: bool := false)
      requires Valid()
      modifies this
      ensures Valid()
      ensures history == old(history) + [Failure(host, taskName, ignoreErrors)]
      ensures if ignoreErrors
        then (ignoredFailedTasks == Append(old(ignoredFailedTasks), host, taskName)
              && failedTasks == old(failedTasks))
        else (failedTasks == Append(old(failedTasks), host, taskName)
              && ignoredFailedTasks == old(ignoredFailedTasks))
      ensures TotalTasks(failedTasks) + TotalTasks(ignoredFailedTasks)
           == old(TotalTasks(failedTasks) + TotalTasks(ignoredFailedTasks)) + 1
      ensures displayIgnoredErrors == old(displayIgnoredErrors)
    {
      ghost var before := history;
      history := history + [Failure(host, taskName, ignoreErrors)];
      assert history[..|history| - 1] == before;
      if ignoreErrors {
        ignoredFailedTasks := Append(ignoredFailedTasks, host, taskName);
        assert ignoredFailedTasks == Tally(history, true);
        assert failedTasks == Tally(history, false);
        AppendTotal(old(ignoredFailedTasks), host, taskName);
      } else {
        failedTasks := Append(failedTasks, host, taskName);
        assert ignoredFailedTasks == Tally(history, true);
        assert failedTasks == Tally(history, false);
        AppendTotal(old(failedTasks), host, taskName);
      }
    }

    /**
     * `v2_playbook_on_stats`: the lines displayed at the end of the run. It
     * reads the tables and changes nothing.
     */
    method Summary() returns (lines: seq<string>)
      ensures lines == SummaryLines(failedTasks, ignoredFailedTasks, displayIgnoredErrors)
    {
      lines := [];
      if failedTasks != [] {
        lines := EmitSection(FailedHeader, Red, FailedLabel, failedTasks);
      }
      if ignoredFailedTasks != [] && displayIgnoredErrors {
        var section := EmitSection(IgnoredHeader, Yellow, IgnoredLabel, ignoredFailedTasks);
        lines := lines + section;
      }
    }
  }

  /**
   * A client of the callback: the tables a run with two failures on one host
   * and an ignored failure on another leaves behind, and what it displays.
   */
  method ExampleRun()
  {
    var reporter := new Reporter();
    var quiet := reporter.Summary();
    assert quiet == [];
    reporter.RecordFailure("web1", "deploy");
    assert reporter.failedTasks == [Entry("web1", ["deploy"])];
    reporter.RecordFailure("db1", "migrate", true);
    assert reporter.ignoredFailedTasks == [Entry("db1", ["migrate"])];
    reporter.RecordFailure("web1", "restart", false);
    assert reporter.failedTasks == [Entry("web1", ["deploy"] + ["restart"])];
    var lines := reporter.Summary();
    ExampleLines();
    assert lines
        == [ "Failed hosts:",
             Red + "web1" + Reset + " | " + BrightGray + "Failed tasks: " + Reset + "deploy, restart",
             "",
             "Soft failed hosts (errors ignored):",
             Yellow + "db1" + Reset + " | " + BrightGray + "Ignored failed tasks: " + Reset + "migrate",
             "" ];
  }

  /** The summary of the run in ExampleRun, line by line. */
  lemma ExampleLines()
    ensures SummaryLines([Entry("web1", ["deploy", "restart"])], [Entry("db1", ["migrate"])], true)
         == [ "Failed hosts:",
              Red + "web1" + Reset + " | " + BrightGray + "Failed tasks: " + Reset + "deploy, restart",
              "",
              "Soft failed hosts (errors ignored):",
              Yellow + "db1" + Reset + " | " + BrightGray + "Ignored failed tasks: " + Reset + "migrate",
              "" ]
  {
    var web1 := Entry("web1", ["deploy", "restart"]);
    var db1 := Entry("db1", ["migrate"]);
    assert HostLines(Red, FailedLabel, [web1]) == [HostLine(Red, FailedLabel, web1)];
    assert HostLines(Yellow, IgnoredLabel, [db1]) == [HostLine(Yellow, IgnoredLabel, db1)];
    assert Join(", ", ["deploy", "restart"]) == "deploy, restart";
  }
}
