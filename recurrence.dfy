/**
 * The recurrence calculator: given a job's rule and the time it last
 * triggered, the time it triggers next (scheduler/recurrence.py).
 *
 * Date-times are naive, so a timestamp is a count of seconds on one
 * time line and every offset is a fixed number of seconds.
 */
module Recurrence {
  import opened Wrappers

  type Timestamp = int

  const OneHour: int := 3600
  const OneDay: int := 86400
  const OneWeek: int := 604800

  /**
   * A rule dictionary: the "frequency" tag, the "time" entry (already
   * parsed to a timestamp) and the "seconds" entry. An entry that is
   * absent, null or unparsable is None.
   */
  datatype Rule = Rule(frequency: string, time: Option<Timestamp>, seconds: Option<int>)

  /** Why no next trigger time can be computed. */
  datatype RuleError =
    | UnknownRule     // the frequency is none of the five known tags
    | MissingTime     // a rule that needs a time has none
    | MissingSeconds  // an interval rule has no number of seconds

  predicate IsKnownFrequency(frequency: string) {
    frequency == "once" || frequency == "daily" || frequency == "hourly" ||
    frequency == "weekly" || frequency == "interval"
  }

  /** Rules that advance by a fixed offset from the previous trigger. */
  predicate IsPeriodic(rule: Rule) {
    rule.frequency == "daily" || rule.frequency == "hourly" || rule.frequency == "weekly" ||
    (rule.frequency == "interval" && rule.seconds.Some?)
  }

  /** A rule that triggers at one fixed time. */
  predicate IsFixedTime(rule: Rule) {
    rule.frequency == "once" && rule.time.Some?
  }

  /** The fixed offset of a periodic rule, in seconds. */
  function Period(rule: Rule): (p: int)
    requires IsPeriodic(rule)
    ensures rule.frequency != "interval" ==> p >= OneHour
  {
    if rule.frequency == "daily" then OneDay
    else if rule.frequency == "hourly" then OneHour
    else if rule.frequency == "weekly" then OneWeek
    else rule.seconds.value
  }

  /**
   * next_run_time(rule, last_run). A "once" rule returns its configured
   * time whatever `lastRun` is; the periodic rules add their offset to
   * `lastRun`; anything else fails.
   */
  function NextRunTime(rule: Rule, lastRun: Timestamp): (r: Result<Timestamp, RuleError>)
    ensures r.Success? <==> IsPeriodic(rule) || IsFixedTime(rule)
    ensures r.Success? && IsPeriodic(rule) ==> r.value == lastRun + Period(rule)
    ensures r.Success? && IsFixedTime(rule) ==> r.value == rule.time.value
    ensures !IsKnownFrequency(rule.frequency) ==> r == Failure(UnknownRule)
    // the offset of each periodic tag, and the error of a known tag without its entry
    ensures rule.frequency == "daily" ==> r == Success(lastRun + OneDay)
    ensures rule.frequency == "hourly" ==> r == Success(lastRun + OneHour)
    ensures rule.frequency == "weekly" ==> r == Success(lastRun + OneWeek)
    ensures rule.frequency == "once" && rule.time.None? ==> r == Failure(MissingTime)
    ensures rule.frequency == "interval" && rule.seconds.None? ==> r == Failure(MissingSeconds)
  {
    if rule.frequency == "once" then
      if rule.time.Some? then Success(rule.time.value) else Failure(MissingTime)
    else if rule.frequency == "daily" then
      Success(lastRun + OneDay)
    else if rule.frequency == "hourly" then
      Success(lastRun + OneHour)
    else if rule.frequency == "weekly" then
      Success(lastRun + OneWeek)
    else if rule.frequency == "interval" then
      if rule.seconds.Some? then Success(lastRun + rule.seconds.value) else Failure(MissingSeconds)
    else
      Failure(UnknownRule)
  }

  /** The trigger time after `n` successive reschedules starting from `start`. */
  function Schedule(rule: Rule, start: Timestamp, n: nat): Result<Timestamp, RuleError>
  {
    if n == 0 then Success(start)
    else
      match Schedule(rule, start, n - 1)
      case Success(t) => NextRunTime(rule, t)
      case Failure(e) => Failure(e)
  }

  /**
   * Rescheduling from the previous trigger rather than from the completion
   * time makes a periodic schedule drift-free: the n-th trigger is exactly
   * n periods after the first.
   */
  lemma {:induction false} PeriodicScheduleIsDriftFree(rule: Rule, start: Timestamp, n: nat)
    requires IsPeriodic(rule)
    ensures Schedule(rule, start, n) == Success(start + n * Period(rule))
  {
    if n > 0 {
      PeriodicScheduleIsDriftFree(rule, start, n - 1);
      assert (n - 1) * Period(rule) + Period(rule) == n * Period(rule);
    }
  }

  /** A "once" rule never advances: every reschedule lands on its configured time. */
  lemma {:induction false} FixedTimeScheduleNeverAdvances(rule: Rule, start: Timestamp, n: nat)
    requires IsFixedTime(rule) && n >= 1
    ensures Schedule(rule, start, n) == Success(rule.time.value)
  {
    if n > 1 {
      FixedTimeScheduleNeverAdvances(rule, start, n - 1);
    }
  }

  /** With a positive period, later reschedules are strictly later. */
  lemma ScheduleStrictlyIncreases(rule: Rule, start: Timestamp, m: nat, n: nat)
    requires IsPeriodic(rule) && Period(rule) > 0 && m < n
    ensures Schedule(rule, start, m).Success? && Schedule(rule, start, n).Success?
    ensures Schedule(rule, start, m).value < Schedule(rule, start, n).value
  {
  }

  /** Whether the rule can be evaluated depends on the rule alone, not on the previous trigger. */
  lemma RuleErrorIgnoresLastRun(rule: Rule, lastRun: Timestamp, other: Timestamp)
    requires NextRunTime(rule, lastRun).Failure?
    ensures NextRunTime(rule, other) == NextRunTime(rule, lastRun)
  {
  }

}
