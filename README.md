# Job scheduler core, modelled in Dafny

This project models the scheduling core of a small job scheduler. It has three parts:

- **Recurrence calculator** (`scheduler/recurrence.py`). Given a job's rule and its previous trigger time, it computes the next trigger time. A `once` rule returns its configured time. `daily`, `hourly` and `weekly` add one day, one hour or one week. `interval` adds the rule's seconds. Any other tag is an error.
- **Job runner** (`scheduler/runner.py`). A polling loop runs while a flag is set. Each round scans the shared job list. Every job whose trigger time has been reached and that is not already running is marked running and dispatched. A dispatched job then runs execute-and-reschedule: it clears its running flag and computes its next trigger from its previous trigger time. `stop()` clears the loop flag.
- **Engine facade** (`scheduler/engine.py`). It owns the job list and gives the very same list object to its runner. `add_job` computes the first trigger and appends a record. `list_jobs` returns the live list. `start`/`stop` drive the runner.

Timestamps are whole seconds on one time line. The source uses naive date-times, so every offset is a fixed number of seconds. A job record is a `Job` value: a name, a command, a rule, a next trigger time, and an optional `running` entry (`None` while the dictionary has no such key). The shared list is a `JobList` object whose `items` field the engine and the runner both update. An in-place update of one dictionary becomes an update of that position in `items`.

Modules: `Wrappers` (Option, Result), `Recurrence`, `Jobs` (job record, due test, shared list), `Runner`, `Engine`, and `Scenarios` (client runs of the engine and the runner).

Three behaviours of the code that one might expect to be otherwise:

- One might expect `add_job` to reject a malformed rule. The code's `add_job` does not validate the rule. It accepts an unknown frequency and an interval rule without seconds (scheduler/engine.py:16). Only a non-interval rule without a usable time fails there. The other errors surface at the first reschedule. `Scenarios.UnknownRuleKeepsTriggerTime` shows this.
- One might expect a new job to start with `running = false`. The code stores no `running` key (scheduler/engine.py:18-23). The scan reads a missing key as false, so the two behave alike. The model keeps the missing key (`running == None`).
- On a recurrence error, the code has already reset `running` to false (scheduler/runner.py:41) and leaves `next_run` unchanged. The model does the same. The job is therefore due again at the next scan.

## Model

| member | source | states |
|---|---|---|
| `Recurrence.Period` | scheduler/recurrence.py:9-19 | the fixed offset of a periodic rule: one day, one hour, one week, or the rule's seconds; at least an hour for the three named frequencies |
| `Recurrence.NextRunTime` | scheduler/recurrence.py:3-21 | succeeds exactly for periodic rules and for `once` rules that have a time. A periodic rule gives `lastRun` plus its period: exactly 86400 seconds for `daily`, 3600 for `hourly`, 604800 for `weekly`. A `once` rule gives its configured time whatever `lastRun` is. An unknown tag gives `UnknownRule`; `once` without a time gives `MissingTime`; `interval` without seconds gives `MissingSeconds` |
| `Recurrence.PeriodicScheduleIsDriftFree` | scheduler/recurrence.py:9-19 | rescheduling a periodic rule n times from `start` gives exactly `start + n * period`, so no drift accumulates |
| `Recurrence.FixedTimeScheduleNeverAdvances` | scheduler/recurrence.py:6-7 | every reschedule of a `once` rule lands on its configured time; it never advances |
| `Recurrence.ScheduleStrictlyIncreases` | scheduler/recurrence.py:18-19 | with a positive period, a later reschedule is strictly later than an earlier one |
| `Recurrence.RuleErrorIgnoresLastRun` | scheduler/recurrence.py:3-21 | when a rule fails to evaluate, it fails the same way for every previous trigger time |
| `Runner.ScanResult` | scheduler/runner.py:28-36 | one scan keeps length and order. A job becomes running exactly when it was running or due. Trigger times, names, commands and rules are untouched. A running or not-yet-due job is left exactly as it was. Afterwards no job is due at that time |
| `Runner.DueIndices` | scheduler/runner.py:28-36 | the dispatched positions are exactly the due jobs, each in range, in list order without repeats |
| `Runner.ScanEach` | scheduler/runner.py:26-37 | a run of several scans keeps length, trigger times and definitions. Running jobs stay as they were. A job ends up running exactly when it was running or some reading reached its trigger time. A job whose trigger time no reading reaches is left exactly as it was. Afterwards no job is due at any of the run's readings |
| `Runner.Rounds` | scheduler/runner.py:26-37 | one list of dispatched positions per round of the polling loop |
| `Runner.RoundsExactly` | scheduler/runner.py:26-36 | round k dispatches a job exactly when it was not running at the start, reading k reaches its trigger time, and no earlier reading did: a due job is dispatched in the first round that finds it due, and in no other |
| `Jobs.JobList.constructor` | scheduler/engine.py:9-12 | the one list object shared by the engine and the runner starts out holding the given jobs |
| `Runner.Reschedule` | scheduler/runner.py:39-45 | after execution the job has `running` set to false and keeps its definition. A periodic job's next trigger is its previous trigger plus the period, not the completion time. A `once` job's next trigger is its configured time. On a rule error the trigger time is unchanged |
| `Runner.JobRunner.constructor` | scheduler/runner.py:9-12 | the runner holds the given list and starts with its loop flag set |
| `Runner.JobRunner.Scan` | scheduler/runner.py:27-36 | the loop over the list leaves it as `ScanResult` of the old list and dispatches `DueIndices` of it |
| `Runner.JobRunner.Start` | scheduler/runner.py:24-37 | while the flag is set, one scan per clock reading (`ScanEach`, `Rounds`); with the flag cleared, no round runs and nothing changes |
| `Runner.JobRunner.ExecuteAndReschedule` | scheduler/runner.py:39-50 | only the given job changes, and it becomes `Reschedule` of itself. The list length and all other jobs are unchanged. The outcome is the recurrence result for the old trigger time |
| `Runner.JobRunner.Stop` | scheduler/runner.py:52-54 | the loop flag is cleared |
| `Runner.DispatchedAtMostOncePerRun` | scheduler/runner.py:33-34 | within one run with no completion in between, a job dispatched in one round is dispatched in no later round |
| `Runner.ScanEachKeepsRunning` | scheduler/runner.py:33-34 | a job running after some rounds of a run is still running after all of them |
| `Runner.FixedTimeJobIsRedispatched` | scheduler/runner.py:41-45 | a `once` job whose time has passed is due again right after rescheduling, so the next scan dispatches it again |
| `Runner.PeriodicJobWaitsOnePeriod` | scheduler/runner.py:41-45 | a rescheduled periodic job with a positive period is later than before, and not due before one period after its previous trigger |
| `Engine.NewJob` | scheduler/engine.py:15-23 | the new record has exactly the given name, command and rule, and no `running` entry (so it is not running). Its first trigger is `now` for an interval rule and the rule's time otherwise. It fails only when a non-interval rule has no time |
| `Engine.NewJobIsDueFromFirstRun` | scheduler/engine.py:16-23 | a freshly added job is due at every time from its first trigger on |
| `Engine.SchedulerEngine.constructor` | scheduler/engine.py:8-13 | the engine holds the loaded jobs in a fresh list, and its runner holds that same list object with the loop flag set; no thread yet |
| `Engine.SchedulerEngine.AddJob` | scheduler/engine.py:15-27 | appends exactly `NewJob` at the end, with no check of existing names; every earlier job is unchanged. On failure the list is unchanged |
| `Engine.SchedulerEngine.ListJobs` | scheduler/engine.py:38-39 | returns the engine's own list object, the one its runner scans |
| `Engine.SchedulerEngine.Start` | scheduler/engine.py:29-31 | records the thread and runs the runner's loop over the given readings, with the runner's contract |
| `Engine.SchedulerEngine.Stop` | scheduler/engine.py:33-36 | the runner's loop flag is cleared |
| `Scenarios.IntervalJobAdvancesFromPreviousTrigger` | scheduler/runner.py:41-45 | an interval-5 job added at `t0` and scanned at any `t1 >= t0` is next due at `t0 + 5` after it completes |
| `Scenarios.PastDailyJobIsDispatched` | scheduler/engine.py:16 | a daily job at 09:00, added at 10:00 the same day, is dispatched by the first scan |
| `Scenarios.FixedTimeJobFiresAgain` | scheduler/recurrence.py:6-7 | a `once` job that has passed is dispatched, completes, and is dispatched again by the next scan |
| `Scenarios.DuplicateNamesAreKept` | scheduler/engine.py:24 | adding two jobs with the same name keeps both records |
| `Scenarios.StoppedEngineDispatchesNothing` | scheduler/runner.py:26 | after `stop`, a further run of the loop dispatches nothing and leaves the list unchanged |
| `Scenarios.UnknownRuleKeepsTriggerTime` | scheduler/runner.py:41-45 | a job with an unknown frequency is accepted by `add_job`. Its reschedule fails with `UnknownRule`, leaves it not running, and keeps its trigger time |

## Left out

- Threads, the lock, the one-second `sleep` cadence and the two-second simulated work are not modelled. A scan and an execute-and-reschedule are atomic sequential steps. Interleavings between them are not covered, such as a scan between the reset of `running` and the write of `next_run`.
- `Engine.SchedulerEngine.Start`: does not run concurrently with its caller. It runs the runner's loop synchronously over the clock readings it is given.
- `Runner.JobRunner.Start`: a `stop()` that arrives mid-run is modelled by passing only the readings taken before it. The loop flag is read once per call, since nothing inside one call can clear it.
- `Runner.JobRunner.Scan`: uses one clock reading for the whole pass. The source reads the clock again for each job.
- The clock (`now()`) and time parsing (`parse_time`, `datetime.fromisoformat`, the ISO strings stored in `next_run`) are not modelled. `scheduler/utils.py` is not part of this model. Times are integers, and a rule's `time` holds the parsed value or `None`. The difference between the engine's lenient parsing (a bare `HH:MM` means today) and the recurrence calculator's ISO-only parsing is not modelled.
- Date-time range limits and overflow, and sub-second precision, are not modelled.
- Persistence is left out: `scheduler/job_store.py` is not part of this model. The jobs loaded at construction are a constructor parameter. Saving after `add_job` and after each reschedule has no effect on the model.
- Notifications (`scheduler/notifications.py`) and the printing in `run_job` are fire-and-forget side effects. They have no effect on the model.
- Exceptions raised by the work step in `run_job` are not modelled. The source has no `finally`, so `running` would stay true in that case.
- A rule dictionary without a `frequency` key, and non-integer `seconds`, are not modelled.
- A job dictionary's identity is modelled by its position in the list. This is sound because the list only grows at its end.
- `cli.py` (argument parsing and building the rule dictionary) is not modelled.
