/**
 * The job runner (scheduler/runner.py): a polling loop guarded by a flag,
 * whose every round scans the shared job list and dispatches the due jobs,
 * and the execute-and-reschedule step that each dispatched job runs.
 *
 * A scan and an execution are modelled as atomic sequential steps; a
 * dispatched job is identified by its position in the list, which never
 * shrinks or reorders.
 */
module Runner {
  import opened Wrappers
  import opened Recurrence
  import opened Jobs

  /** What one scan does to one job. */
  function MarkIfDue(job: Job, now: Timestamp): Job {
    if IsDue(job, now) then job.(running := Some(true)) else job
  }

  /** The job list after one scan at `now`. */
  function ScanResult(jobs: seq<Job>, now: Timestamp): (r: seq<Job>)
    ensures |r| == |jobs|
    // exactly the due jobs become running
    ensures forall i :: 0 <= i < |jobs| ==> (IsRunning(r[i]) <==> IsRunning(jobs[i]) || IsDue(jobs[i], now))
    // no schedule and no definition is touched
    ensures forall i :: 0 <= i < |jobs| ==> r[i].nextRun == jobs[i].nextRun && SameDefinition(r[i], jobs[i])
    // a job that is running or not yet due is left exactly as it was
    ensures forall i :: 0 <= i < |jobs| && !IsDue(jobs[i], now) ==> r[i] == jobs[i]
    // no due job is left behind
    ensures forall i :: 0 <= i < |r| ==> !IsDue(r[i], now)
  {
    seq(|jobs|, i requires 0 <= i < |jobs| => MarkIfDue(jobs[i], now))
  }

  /** The positions a scan at `now` dispatches, in list order. */
  function DueIndices(jobs: seq<Job>, now: Timestamp): (r: seq<nat>)
    ensures forall k :: 0 <= k < |r| ==> r[k] < |jobs| && IsDue(jobs[r[k]], now)
    ensures forall i :: 0 <= i < |jobs| && IsDue(jobs[i], now) ==> i in r
    ensures forall k, l :: 0 <= k < l < |r| ==> r[k] < r[l]
  {
    if jobs == [] then []
    else
      var n := |jobs| - 1;
      DueIndices(jobs[..n], now) + (if IsDue(jobs[n], now) then [n] else [])
  }

  /** Some reading of `clock` has reached time `t`. */
  predicate Reached(t: Timestamp, clock: seq<Timestamp>) {
    exists k :: 0 <= k < |clock| && clock[k] >= t
  }

  /** The job list after one scan per clock reading, with no completion in between. */
  function ScanEach(jobs: seq<Job>, clock: seq<Timestamp>): (r: seq<Job>)
    ensures |r| == |jobs|
    ensures forall i :: 0 <= i < |jobs| ==> r[i].nextRun == jobs[i].nextRun && SameDefinition(r[i], jobs[i])
    ensures forall i :: 0 <= i < |jobs| && IsRunning(jobs[i]) ==> r[i] == jobs[i]
    // a job ends up running exactly when it was running or some reading reached its trigger time
    ensures forall i :: 0 <= i < |jobs| ==> (IsRunning(r[i]) <==> IsRunning(jobs[i]) || Reached(jobs[i].nextRun, clock))
    // a job whose trigger time no reading reaches is left exactly as it was
    ensures forall i :: 0 <= i < |jobs| && !Reached(jobs[i].nextRun, clock) ==> r[i] == jobs[i]
    // after the run no job is due at any of its readings
    ensures forall i, k :: 0 <= i < |jobs| && 0 <= k < |clock| ==> !IsDue(r[i], clock[k])
    decreases |clock|
  {
    if clock == [] then jobs
    else
      var n := |clock| - 1;
      ReachedByLastOrEarlier(clock);
      ScanResult(ScanEach(jobs, clock[..n]), clock[n])
  }

  /** A time is reached by a run exactly when the last reading or an earlier one reaches it. */
  lemma ReachedByLastOrEarlier(clock: seq<Timestamp>)
    requires clock != []
    ensures forall t :: Reached(t, clock) <==> Reached(t, clock[..|clock| - 1]) || clock[|clock| - 1] >= t
  {
    var n := |clock| - 1;
    forall t | Reached(t, clock[..n])
      ensures Reached(t, clock)
    {
      var k :| 0 <= k < n && clock[..n][k] >= t;
      assert clock[k] >= t;
    }
    forall t | Reached(t, clock) && clock[n] < t
      ensures Reached(t, clock[..n])
    {
      var k :| 0 <= k < |clock| && clock[k] >= t;
      assert k < n && clock[..n][k] >= t;
    }
  }

  /** The positions dispatched in each round of a run over `clock`. */
  function Rounds(jobs: seq<Job>, clock: seq<Timestamp>): (r: seq<seq<nat>>)
    ensures |r| == |clock|
  {
    seq(|clock|, k requires 0 <= k < |clock| => DueIndices(ScanEach(jobs, clock[..k]), clock[k]))
  }

  /** What execute_and_reschedule leaves in a job's record. */
  function Reschedule(job: Job): (r: Job)
    ensures r.running == Some(false) && !IsRunning(r)
    ensures SameDefinition(r, job)
    // the base is the previous trigger time, not the completion time
    ensures IsPeriodic(job.rule) ==> r.nextRun == job.nextRun + Period(job.rule)
    ensures IsFixedTime(job.rule) ==> r.nextRun == job.rule.time.value
    // when the rule cannot be evaluated, the trigger time stays as it was
    ensures !IsPeriodic(job.rule) && !IsFixedTime(job.rule) ==> r.nextRun == job.nextRun
  {
    var next := NextRunTime(job.rule, job.nextRun);
    job.(running := Some(false), nextRun := if next.Success? then next.value else job.nextRun)
  }

  class JobRunner {
    /** The list shared with the engine. */
    const jobs: JobList
    /** The loop flag: the polling loop goes on while it is true. */
    var running: bool

    constructor (jobs: JobList)
      ensures this.jobs == jobs && running
    {
      this.jobs := jobs;
      running := true;
    }

    /** One pass over the list at `now`: every due job is marked running and dispatched. */
    method Scan(now: Timestamp) returns (dispatched: seq<nat>)
      modifies jobs
      ensures jobs.items == ScanResult(old(jobs.items), now)
      ensures dispatched == DueIndices(old(jobs.items), now)
    {
      ghost var before := jobs.items;
      dispatched := [];
      for i := 0 to |jobs.items|
        invariant |jobs.items| == |before|
        invariant forall k :: 0 <= k < i ==> jobs.items[k] == MarkIfDue(before[k], now)
        invariant forall k :: i <= k < |before| ==> jobs.items[k] == before[k]
        invariant dispatched == DueIndices(before[..i], now)
      {
        var job := jobs.items[i];
        if now >= job.nextRun && !job.running.GetOr(false) {
          jobs.items := jobs.items[i := job.(running := Some(true))];
          dispatched := dispatched + [i];
        }
        assert before[..i + 1][..i] == before[..i];
      }
      assert before[..|before|] == before;
      assert jobs.items == ScanResult(before, now);
    }

    /**
     * The polling loop: while the flag is set, one scan per clock reading.
     * `clock` holds the readings of the rounds that run before the loop is
     * left; with the flag already cleared no round runs at all.
     */
    method Start(clock: seq<Timestamp>) returns (rounds: seq<seq<nat>>)
      modifies jobs
      ensures !running ==> rounds == [] && jobs.items == old(jobs.items)
      ensures running ==> jobs.items == ScanEach(old(jobs.items), clock)
      ensures running ==> rounds == Rounds(old(jobs.items), clock)
    {
      ghost var before := jobs.items;
      rounds := [];
      var i := 0;
      while running && i < |clock|
        invariant 0 <= i <= |clock|
        invariant !running ==> i == 0 && jobs.items == before
        invariant jobs.items == ScanEach(before, clock[..i])
        invariant rounds == Rounds(before, clock[..i])
      {
        var dispatched := Scan(clock[i]);
        assert clock[..i + 1] == clock[..i] + [clock[i]];
        OneMoreScan(before, clock[..i], clock[i]);
        OneMoreRound(before, clock[..i], clock[i]);
        rounds := rounds + [dispatched];
        i := i + 1;
      }
      assert clock[..|clock|] == clock;
    }

    /**
     * The body run for one dispatched job: the job stops running and its
     * next trigger is computed from its previous one. The outcome is the
     * recurrence result; on a failure the error propagates after the flag
     * has been reset and the trigger time is left alone.
     */
    method ExecuteAndReschedule(i: nat) returns (next: Result<Timestamp, RuleError>)
      requires i < |jobs.items|
      modifies jobs
      ensures next == NextRunTime(old(jobs.items[i].rule), old(jobs.items[i].nextRun))
      ensures jobs.items == old(jobs.items)[i := Reschedule(old(jobs.items[i]))]
    {
      var job := jobs.items[i];
      jobs.items := jobs.items[i := jobs.items[i].(running := Some(false))];
      next := NextRunTime(job.rule, job.nextRun);
      if next.Success? {
        jobs.items := jobs.items[i := jobs.items[i].(nextRun := next.value)];
      }
    }

    /** Clears the loop flag, so no further round runs. */
    method Stop()
      modifies this
      ensures !running
    {
      running := false;
    }
  }

  /** A run over `clock` followed by one more scan at `now`. */
  lemma OneMoreScan(jobs: seq<Job>, clock: seq<Timestamp>, now: Timestamp)
    ensures ScanEach(jobs, clock + [now]) == ScanResult(ScanEach(jobs, clock), now)
  {
    assert (clock + [now])[..|clock|] == clock;
  }

  /** The rounds of a run over `clock` followed by one more round at `now`. */
  lemma OneMoreRound(jobs: seq<Job>, clock: seq<Timestamp>, now: Timestamp)
    ensures Rounds(jobs, clock + [now]) == Rounds(jobs, clock) + [DueIndices(ScanEach(jobs, clock), now)]
  {
    var longer := clock + [now];
    assert longer[..|clock|] == clock;
    forall k | 0 <= k < |clock|
      ensures Rounds(jobs, longer)[k] == Rounds(jobs, clock)[k]
    {
      assert longer[..k] == clock[..k];
    }
  }

  /**
   * Across the rounds of one run, with no completion in between, a job is
   * dispatched at most once: the running flag keeps it out of every later
   * scan.
   */
  lemma DispatchedAtMostOncePerRun(jobs: seq<Job>, clock: seq<Timestamp>, k: nat, l: nat, i: nat)
    requires k < l < |clock|
    requires i in Rounds(jobs, clock)[k]
    ensures i !in Rounds(jobs, clock)[l]
  {
    var atK, atL := ScanEach(jobs, clock[..k]), ScanEach(jobs, clock[..l]);
    assert i < |jobs| && IsDue(atK[i], clock[k]);
    // job i is not due at reading k after the first l rounds, yet its trigger time is reached then
    assert clock[..l][k] == clock[k];
    assert !IsDue(atL[i], clock[k]) && atL[i].nextRun == atK[i].nextRun;
    assert IsRunning(atL[i]);
  }

  /** A job running after the first `k` rounds is still running after all of them. */
  lemma {:induction false} ScanEachKeepsRunning(jobs: seq<Job>, clock: seq<Timestamp>, k: nat, i: nat)
    requires k <= |clock| && i < |jobs|
    requires IsRunning(ScanEach(jobs, clock[..k])[i])
    ensures IsRunning(ScanEach(jobs, clock)[i])
    decreases |clock|
  {
    if k < |clock| {
      var n := |clock| - 1;
      assert clock[..n][..k] == clock[..k];
      ScanEachKeepsRunning(jobs, clock[..n], k, i);
    } else {
      assert clock[..k] == clock;
    }
  }

  /**
   * Round k of a run dispatches a job exactly when it was not running at the
   * start of the run, reading k reaches its trigger time and no earlier
   * reading did.
   */
  lemma RoundsExactly(jobs: seq<Job>, clock: seq<Timestamp>, k: nat, i: nat)
    requires k < |clock| && i < |jobs|
    ensures i in Rounds(jobs, clock)[k] <==>
              !IsRunning(jobs[i]) && clock[k] >= jobs[i].nextRun &&
              forall k' :: 0 <= k' < k ==> clock[k'] < jobs[i].nextRun
  {
    var before := clock[..k];
    var atK := ScanEach(jobs, before);
    assert i in Rounds(jobs, clock)[k] <==> IsDue(atK[i], clock[k]);
    assert Reached(jobs[i].nextRun, before) <==> exists k' :: 0 <= k' < k && clock[k'] >= jobs[i].nextRun by {
      forall k' | 0 <= k' < k ensures before[k'] == clock[k'] { }
    }
  }

  /**
   * A "once" job whose time has passed is due again as soon as it has been
   * rescheduled: the next scan dispatches it again.
   */
  lemma FixedTimeJobIsRedispatched(jobs: seq<Job>, i: nat, now: Timestamp)
    requires i < |jobs| && IsFixedTime(jobs[i].rule) && jobs[i].rule.time.value <= now
    ensures i in DueIndices(jobs[i := Reschedule(jobs[i])], now)
  {
  }

  /**
   * A rescheduled periodic job with a positive period is not due again
   * before one period after its previous trigger time.
   */
  lemma PeriodicJobWaitsOnePeriod(job: Job, now: Timestamp)
    requires IsPeriodic(job.rule) && Period(job.rule) > 0
    requires now < job.nextRun + Period(job.rule)
    ensures !IsDue(Reschedule(job), now)
    ensures Reschedule(job).nextRun > job.nextRun
  {
  }
}
