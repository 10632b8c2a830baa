/** Client runs of the engine and the runner, each ending in the expected state. */
module Scenarios {
  import opened Wrappers
  import opened Recurrence
  import opened Jobs
  import opened Runner
  import opened Engine

  /**
   * An interval job added at `t0` is dispatched by the first scan and, after
   * it completes, is next due at `t0 + 5`, however late the scan ran.
   */
  method IntervalJobAdvancesFromPreviousTrigger(t0: Timestamp, t1: Timestamp) returns (nextRun: Timestamp)
    requires t0 <= t1
    ensures nextRun == t0 + 5
  {
    var engine := new SchedulerEngine([]);
    var added := engine.AddJob("backup", "echo task", Rule("interval", None, Some(5)), t0);
    var rounds := engine.Start([t1]);
    assert [t1][..0] == [];
    assert 0 in rounds[0];
    var next := engine.runner.ExecuteAndReschedule(0);
    nextRun := engine.jobs.items[0].nextRun;
  }

  /** A daily job whose time today has already passed is dispatched by the first scan. */
  method PastDailyJobIsDispatched(today: Timestamp) returns (dispatched: seq<nat>)
    ensures dispatched == [0]
  {
    var engine := new SchedulerEngine([]);
    var added := engine.AddJob("report", "echo task", Rule("daily", Some(today + 9 * OneHour), None), today + 10 * OneHour);
    var list := engine.ListJobs();
    dispatched := engine.runner.Scan(today + 10 * OneHour);
    assert 0 in dispatched;
  }

  /** A "once" job whose time has passed is dispatched again after it completes. */
  method FixedTimeJobFiresAgain(at: Timestamp, now: Timestamp) returns (first: seq<nat>, second: seq<nat>)
    requires at <= now
    ensures 0 in first && 0 in second
  {
    var engine := new SchedulerEngine([]);
    var added := engine.AddJob("alarm", "echo task", Rule("once", Some(at), None), now);
    first := engine.runner.Scan(now);
    var next := engine.runner.ExecuteAndReschedule(0);
    second := engine.runner.Scan(now + 1);
  }

  /** Adding a job under a name already taken appends a second record. */
  method DuplicateNamesAreKept(now: Timestamp) returns (names: seq<string>)
    ensures names == ["backup", "backup"]
  {
    var engine := new SchedulerEngine([]);
    var a := engine.AddJob("backup", "echo task", Rule("interval", None, Some(60)), now);
    var b := engine.AddJob("backup", "echo task", Rule("interval", None, Some(60)), now);
    var list := engine.ListJobs();
    names := [list.items[0].name, list.items[1].name];
  }

  /** Once the engine is stopped, a further run of its loop dispatches nothing and changes nothing. */
  method StoppedEngineDispatchesNothing(loaded: seq<Job>, clock: seq<Timestamp>) returns (rounds: seq<seq<nat>>, after: seq<Job>)
    ensures rounds == [] && after == loaded
  {
    var engine := new SchedulerEngine(loaded);
    engine.Stop();
    rounds := engine.Start(clock);
    after := engine.jobs.items;
  }

  /** A job whose rule cannot be evaluated is no longer running but keeps its trigger time. */
  method UnknownRuleKeepsTriggerTime(now: Timestamp) returns (outcome: Result<Timestamp, RuleError>, job: Job)
    ensures outcome == Failure(UnknownRule)
    ensures job.nextRun == now && !IsRunning(job)
  {
    var engine := new SchedulerEngine([]);
    var added := engine.AddJob("odd", "echo task", Rule("monthly", Some(now), None), now);
    var dispatched := engine.runner.Scan(now);
    outcome := engine.runner.ExecuteAndReschedule(0);
    job := engine.jobs.items[0];
  }
}
