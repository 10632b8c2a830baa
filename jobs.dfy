/**
 * The job record and the job list that the engine and the runner share
 * (the dictionaries built in scheduler/engine.py and read and rewritten in
 * place by scheduler/runner.py).
 */
module Jobs {
  import opened Wrappers
  import opened Recurrence

  /**
   * One job dictionary. `running` is None while the dictionary has no
   * "running" key, which is how a freshly added job starts out.
   */
  datatype Job = Job(name: string, command: string, rule: Rule, nextRun: Timestamp, running: Option<bool>)

  /** job.get("running", False): a missing key reads as not running. */
  predicate IsRunning(job: Job) {
    job.running.GetOr(false)
  }

  /** The scan's test: the trigger time has been reached and no execution is in flight. */
  predicate IsDue(job: Job, now: Timestamp) {
    now >= job.nextRun && !IsRunning(job)
  }

  /** The entries no scheduling step ever rewrites. */
  predicate SameDefinition(a: Job, b: Job) {
    a.name == b.name && a.command == b.command && a.rule == b.rule
  }

  /** The one list object that the engine appends to and the runner scans. */
  class JobList {
    var items: seq<Job>

    constructor (items: seq<Job>)
      ensures this.items == items
    {
      this.items := items;
    }
  }
}
