/**
 * The scheduler engine (scheduler/engine.py): owns the job list, hands the
 * very same list object to its runner, appends new jobs to it and starts
 * and stops the runner.
 */
module Engine {
  import opened Wrappers
  import opened Recurrence
  import opened Jobs
  import opened Runner

  /**
   * The record add_job appends: an interval job is first due at `now`,
   * every other job at its rule's time. The rule itself is not checked,
   * and the record carries no "running" entry.
   */
  function NewJob(name: string, command: string, rule: Rule, now: Timestamp): (r: Result<Job, RuleError>)
    ensures r.Success? <==> rule.frequency == "interval" || rule.time.Some?
    ensures r.Failure? ==> r.error == MissingTime
    ensures r.Success? ==> r.value.name == name && r.value.command == command && r.value.rule == rule
    ensures r.Success? ==> r.value.running == None && !IsRunning(r.value)
    ensures r.Success? && rule.frequency == "interval" ==> r.value.nextRun == now
    ensures r.Success? && rule.frequency != "interval" ==> r.value.nextRun == rule.time.value
  {
    var firstRun := if rule.frequency == "interval" then Success(now)
                    else if rule.time.Some? then Success(rule.time.value)
                    else Failure(MissingTime);
    match firstRun
    case Success(t) => Success(Job(name, command, rule, t, None))
    case Failure(e) => Failure(e)
  }

  /** A freshly added job is dispatched by the first scan at or after its first trigger. */
  lemma NewJobIsDueFromFirstRun(name: string, command: string, rule: Rule, now: Timestamp, later: Timestamp)
    requires NewJob(name, command, rule, now).Success?
    requires later >= NewJob(name, command, rule, now).value.nextRun
    ensures IsDue(NewJob(name, command, rule, now).value, later)
  {
  }

  class SchedulerEngine {
    /** The job list, shared with the runner. */
    const jobs: JobList
    const runner: JobRunner
    /** Whether start() has created the runner's thread. */
    var thread: bool

    /** The runner scans the engine's own list object. */
    ghost predicate Valid() {
      runner.jobs == jobs
    }

    /** The engine over the jobs loaded from the store. */
    constructor (loaded: seq<Job>)
      ensures fresh(jobs) && fresh(runner)
      ensures Valid() && jobs.items == loaded && runner.running && !thread
    {
      var list := new JobList(loaded);
      jobs := list;
      runner := new JobRunner(list);
      thread := false;
    }

    /**
     * add_job: computes the first trigger and appends the new record at
     * the end of the shared list, whatever names the list already holds.
     * When the rule needs a time and has none, nothing is appended.
     */
    method AddJob(name: string, command: string, rule: Rule, now: Timestamp) returns (added: Result<Job, RuleError>)
      modifies jobs
      ensures added == NewJob(name, command, rule, now)
      ensures added.Success? ==> jobs.items == old(jobs.items) + [added.value]
      ensures added.Failure? ==> jobs.items == old(jobs.items)
    {
      added := NewJob(name, command, rule, now);
      if added.Success? {
        jobs.items := jobs.items + [added.value];
      }
    }

    /** list_jobs: the live list itself, the one the runner scans. */
    method ListJobs() returns (list: JobList)
      requires Valid()
      ensures list == jobs && list == runner.jobs
    {
      list := jobs;
    }

    /**
     * start: creates the runner's thread, whose body is the runner's
     * polling loop over the clock readings it sees.
     */
    method Start(clock: seq<Timestamp>) returns (rounds: seq<seq<nat>>)
      requires Valid()
      modifies this, jobs
      ensures thread
      ensures !runner.running ==> rounds == [] && jobs.items == old(jobs.items)
      ensures runner.running ==> jobs.items == ScanEach(old(jobs.items), clock)
      ensures runner.running ==> rounds == Rounds(old(jobs.items), clock)
    {
      thread := true;
      rounds := runner.Start(clock);
    }

    /** stop: clears the runner's loop flag; joining the thread has no effect on the state. */
    method Stop()
      modifies runner
      ensures !runner.running
    {
      runner.Stop();
    }
  }
}
