/** The Praxis migration state machine: the migration part of an OGXServer's status, the one
    migration Job it manages, and the function of both that a reconcile computes. */
module Migration {
  import opened Prelude
  import C = Conditions

  datatype Phase = Unset | Pending | PreflightFailed | Running | Failed | Validated

  datatype MigrationStatus = MigrationStatus(
    phase: Phase,
    observedGeneration: int,
    attemptKey: string,
    jobName: string,
    message: C.Message,
    softRollbackWarning: C.Message)

  datatype JobConditionType = Complete | JobFailed | OtherJobCondition(name: string)

  datatype JobCondition = JobCondition(ctype: JobConditionType, isTrue: bool, reason: string, message: string)

  /** `attempt` is the value of the attempt annotation, empty when it is missing. */
  datatype Job = Job(
    name: string,
    owned: bool,
    terminating: bool,
    attempt: string,
    conditions: seq<JobCondition>,
    active: int)

  datatype Status = Status(migration: Option<MigrationStatus>, conditions: seq<C.Condition>)

  datatype Event = Event(warning: bool, reason: C.Reason, message: C.Message)

  datatype MigrationJobSpec = MigrationJobSpec(enabled: Option<bool>)

  datatype PraxisMode = PraxisMode(enabled: Option<bool>, migrationJob: Option<MigrationJobSpec>)

  /** What the API server answers to creating the Job. `seen` is what reading it back gives. */
  datatype CreateResult = Created | AlreadyExists(seen: Option<Job>) | CreateFailed

  /** Everything a reconcile reads besides the status and the Job: the spec, the verdict of the
      preflight checks (an error text when they fail), the attempt key (absent when it cannot be
      computed), and how the API server answers. */
  datatype Inputs = Inputs(
    praxisMode: Option<PraxisMode>,
    preflightError: Option<C.Message>,
    attemptKey: Option<string>,
    jobReadable: bool,
    deleteSucceeds: bool,
    create: CreateResult,
    instanceName: string,
    generation: int,
    now: int)

  // ---------------------------------------------------------------------------
  // What each step of the reconcile computes.
  // ---------------------------------------------------------------------------

  /** Both switches count as on when they are left out. */
  predicate IsMigrationRequested(praxisMode: Option<PraxisMode>) {
    && praxisMode.Some?
    && praxisMode.value.enabled != Some(false)
    && praxisMode.value.migrationJob.Some?
    && praxisMode.value.migrationJob.value.enabled != Some(false)
  }

  /** The spec asks for migration, the checks passed, and the attempt key and the Job were read. */
  predicate Proceeds(inputs: Inputs) {
    && IsMigrationRequested(inputs.praxisMode)
    && inputs.preflightError.None?
    && inputs.attemptKey.Some?
    && inputs.jobReadable
  }

  predicate HasCondition(job: Job, t: JobConditionType) {
    exists i :: 0 <= i < |job.conditions| && job.conditions[i].ctype == t && job.conditions[i].isTrue
  }

  predicate IsCurrent(job: Job, attemptKey: string) {
    !job.terminating && job.attempt == attemptKey
  }

  predicate AlreadyValidated(status: Status) {
    status.migration.Some? && status.migration.value.phase == Validated
  }

  function JobName(instanceName: string): string {
    instanceName + "-praxis-migration"
  }

  /** One of the migration condition setters. */
  function SetFlag(
    conditions: seq<C.Condition>, t: C.ConditionType, on: bool, reason: C.Reason, message: C.Message, now: int)
    : (after: seq<C.Condition>)
    ensures forall u :: u != t ==> C.Get(after, u) == C.Get(conditions, u)
    ensures C.Get(after, t).Some?
    ensures C.Get(after, t).value.status == (if on then C.True else C.False)
    ensures C.Get(after, t).value.reason == reason
  {
    var c := C.Condition(t, if on then C.True else C.False, reason, message, now);
    assert forall u :: u != t ==> C.Get(C.Set(conditions, c), u) == C.Get(conditions, u) by {
      forall u | u != t ensures C.Get(C.Set(conditions, c), u) == C.Get(conditions, u) {
        C.GetAfterSet(conditions, c, u);
      }
    }
    C.GetAfterSet(conditions, c, t);
    C.Set(conditions, c)
  }

  /** The three success conditions, which are always written together. */
  function SetOutcome(
    conditions: seq<C.Condition>, on: bool, job: C.Reason, validation: C.Reason, cutover: C.Reason,
    message: C.Message, cutoverMessage: C.Message, now: int)
    : seq<C.Condition>
  {
    var c1 := SetFlag(conditions, C.MigrationJobSucceeded, on, job, message, now);
    var c2 := SetFlag(c1, C.MigrationValidated, on, validation, message, now);
    SetFlag(c2, C.PraxisCutoverReady, on, cutover, cutoverMessage, now)
  }

  function SetRollback(conditions: seq<C.Condition>, now: int): seq<C.Condition> {
    SetFlag(conditions, C.SoftRollbackAvailable, true, C.SoftRollbackOnly, C.SoftRollbackWarning, now)
  }

  function EnsureSoftRollbackWarning(s: Status, now: int): Status {
    var m := if s.migration.Some? then s.migration.value else MigrationStatus(Unset, 0, "", "", C.Empty, C.Empty);
    Status(Some(m.(softRollbackWarning := C.SoftRollbackWarning)), SetRollback(s.conditions, now))
  }

  function WarnOnDisable(s: Status, now: int): Status {
    if s.migration.None? then s
    else Status(Some(s.migration.value.(softRollbackWarning := C.SoftRollbackWarning)), SetRollback(s.conditions, now))
  }

  predicate HasMigrationHistory(s: Status) {
    || (s.migration.Some?
        && var m := s.migration.value;
           m.softRollbackWarning != C.Empty || m.jobName != "" || m.attemptKey != "" || (m.phase != Unset && m.phase != Pending))
    || exists i :: 0 <= i < |s.conditions| && !s.conditions[i].ctype.Other?
  }

  function ClearMigrationState(s: Status, message: C.Message, now: int): Status {
    var warning := if s.migration.Some? then s.migration.value.softRollbackWarning else C.Empty;
    var keep := AlreadyValidated(s);
    var m := MigrationStatus(
      if keep then Validated else Pending, 0, if keep then s.migration.value.attemptKey else "", "", message, warning);
    var c1 := SetFlag(s.conditions, C.MigrationPreflightReady, false, C.NotRequested, message, now);
    var c2 := SetOutcome(c1, false, C.NotRequested, C.NotRequested, C.CutoverNotReady, message, message, now);
    var c3 := if warning == C.Empty then SetFlag(c2, C.SoftRollbackAvailable, false, C.NotRequested, message, now) else c2;
    Status(Some(m), c3)
  }

  function ApplyPreflightFailure(s: Status, error: C.Message, generation: int, now: int): Status {
    var c1 := SetFlag(s.conditions, C.MigrationPreflightReady, false, C.PreflightFailed, error, now);
    var c2 := SetOutcome(c1, false, C.PreflightFailed, C.ValidationPending, C.CutoverNotReady, error, C.CutoverBlocked, now);
    Status(
      Some(MigrationStatus(PreflightFailed, generation, "", "", error, C.SoftRollbackWarning)),
      SetRollback(c2, now))
  }

  function MarkMigrationWaiting(s: Status, job: Job, attemptKey: string, message: C.Message, generation: int, now: int): Status {
    var c := SetOutcome(s.conditions, false, C.JobPending, C.ValidationPending, C.CutoverNotReady, message, C.CutoverBlocked, now);
    Status(
      Some(MigrationStatus(Running, generation, attemptKey, job.name, message, C.SoftRollbackWarning)),
      SetRollback(c, now))
  }

  /** The detail of the first true Failed condition of the Job. */
  function FailureDetail(conditions: seq<JobCondition>): string {
    if conditions == [] then ""
    else if conditions[0].ctype == JobFailed && conditions[0].isTrue then
      (if conditions[0].reason != "" then ": " + conditions[0].reason else "")
      + (if conditions[0].message != "" then " (" + conditions[0].message + ")" else "")
    else FailureDetail(conditions[1..])
  }

  function FailedMessage(job: Job): C.Message {
    C.JobHasFailed(job.name, FailureDetail(job.conditions))
  }

  function CutoverAnnounced(conditions: seq<C.Condition>): bool {
    C.IsTrue(conditions, C.PraxisCutoverReady) && C.Get(conditions, C.PraxisCutoverReady).value.reason == C.CutoverReady
  }

  function FailureAnnounced(conditions: seq<C.Condition>): bool {
    var succeeded := C.Get(conditions, C.MigrationJobSucceeded);
    succeeded.Some? && succeeded.value.reason == C.JobFailed
  }

  datatype Observation = Observation(status: Status, events: seq<Event>)

  function ObserveMigrationJob(s: Status, job: Job, attemptKey: string, generation: int, now: int): Observation {
    var c := SetRollback(s.conditions, now);
    if HasCondition(job, Complete) then
      var message := C.JobCompleted(job.name);
      Observation(
        Status(
          Some(MigrationStatus(Validated, generation, attemptKey, job.name, message, C.SoftRollbackWarning)),
          SetOutcome(c, true, C.JobSucceeded, C.Validated, C.CutoverReady, message,
                     C.CutoverMayProceed, now)),
        if CutoverAnnounced(c) then [] else [Event(false, C.CutoverReady, message)])
    else if HasCondition(job, JobFailed) then
      var message := FailedMessage(job);
      Observation(
        Status(
          Some(MigrationStatus(Failed, generation, attemptKey, job.name, message, C.SoftRollbackWarning)),
          SetOutcome(c, false, C.JobFailed, C.ValidationFailed, C.CutoverNotReady, message,
                     C.CutoverBlockedByFailure, now)),
        if FailureAnnounced(c) then [] else [Event(true, C.JobFailed, message)])
    else
      var active := job.active > 0;
      var message := if active then C.JobIsActive(job.name) else C.JobAwaitsCompletion(job.name);
      Observation(
        Status(
          Some(MigrationStatus(Running, generation, attemptKey, job.name, message, C.SoftRollbackWarning)),
          SetOutcome(c, false, if active then C.JobRunning else C.JobPending, C.ValidationPending, C.CutoverNotReady,
                     message, C.CutoverBlocked, now)),
        [])
  }

  /** The Job afterwards and whether the deletion went through. Deletion is in the foreground: the
      Job stays, terminating, until its dependents are gone. */
  function DeleteMigrationJob(job: Option<Job>, inputs: Inputs): (Option<Job>, bool) {
    if !inputs.jobReadable then (job, false)
    else if job.None? || job.value.terminating then (job, true)
    else if !job.value.owned then (job, false)
    else if !inputs.deleteSucceeds then (job, false)
    else (Some(job.value.(terminating := true)), true)
  }

  /** `job` is the Job in the cluster afterwards; `read` is the object the caller goes on with,
      which is the one read before any deletion. */
  datatype Ensured = Ensured(job: Option<Job>, read: Option<Job>, events: seq<Event>, ok: bool)

  function NewJob(inputs: Inputs, attemptKey: string): Job {
    Job(JobName(inputs.instanceName), true, false, attemptKey, [], 0)
  }

  function CreateMigrationJob(inputs: Inputs, attemptKey: string): Ensured {
    match inputs.create
    case Created =>
      var job := NewJob(inputs, attemptKey);
      Ensured(Some(job), Some(job),
              [Event(false, C.JobPending,
                     C.JobCreatedFor(job.name, attemptKey))], true)
    case AlreadyExists(seen) =>
      if seen.None? || !seen.value.owned then Ensured(seen, None, [], false) else Ensured(seen, seen, [], true)
    case CreateFailed => Ensured(None, None, [], false)
  }

  function ReconcileExistingMigrationJob(existing: Job, inputs: Inputs, attemptKey: string): Ensured {
    if !existing.owned then Ensured(Some(existing), None, [], false)
    else if existing.terminating || existing.attempt == attemptKey || HasCondition(existing, Complete) then
      Ensured(Some(existing), Some(existing), [], true)
    else if !inputs.deleteSucceeds then Ensured(Some(existing), None, [], false)
    else Ensured(Some(existing.(terminating := true)), Some(existing), [], true)
  }

  function EnsureMigrationJob(s: Status, job: Option<Job>, inputs: Inputs, attemptKey: string): Ensured {
    if !inputs.jobReadable then Ensured(job, None, [], false)
    else if job.Some? then ReconcileExistingMigrationJob(job.value, inputs, attemptKey)
    else if AlreadyValidated(s) then Ensured(None, None, [], true)
    else CreateMigrationJob(inputs, attemptKey)
  }

  /** `ok` is false when the reconcile returns an error; status changes made before the error are
      kept, because the caller writes the status either way. */
  datatype Outcome = Outcome(status: Status, job: Option<Job>, events: seq<Event>, ok: bool)

  function HandleNotRequested(s: Status, job: Option<Job>, inputs: Inputs): Outcome {
    var (job', deleted) := DeleteMigrationJob(job, inputs);
    if !deleted then Outcome(s, job', [], false)
    else if !HasMigrationHistory(s) then Outcome(s, job', [], true)
    else Outcome(ClearMigrationState(WarnOnDisable(s, inputs.now), C.NotOptedIn, inputs.now), job', [], true)
  }

  function ReportMigrationJob(s: Status, job: Job, attemptKey: string, inputs: Inputs): Observation {
    if IsCurrent(job, attemptKey) then
      ObserveMigrationJob(s, job, attemptKey, inputs.generation, inputs.now)
    else if !job.terminating && HasCondition(job, Complete) then
      ObserveMigrationJob(s, job, job.attempt, inputs.generation, inputs.now)
    else
      Observation(MarkMigrationWaiting(s, job, attemptKey, C.WaitingForPreviousJob, inputs.generation, inputs.now), [])
  }

  function PreflightPassedStatus(s: Status, now: int): Status {
    s.(conditions := SetFlag(s.conditions, C.MigrationPreflightReady, true, C.PreflightPassed,
                             C.ChecksPassed, now))
  }

  function ReconcileMigration(s: Status, job: Option<Job>, inputs: Inputs): Outcome {
    if !IsMigrationRequested(inputs.praxisMode) then HandleNotRequested(s, job, inputs)
    else
      var warned := EnsureSoftRollbackWarning(s, inputs.now);
      if inputs.preflightError.Some? then
        Outcome(ApplyPreflightFailure(warned, inputs.preflightError.value, inputs.generation, inputs.now), job,
                [Event(true, C.PreflightFailed, inputs.preflightError.value)], true)
      else
        var ready := PreflightPassedStatus(warned, inputs.now);
        if inputs.attemptKey.None? then Outcome(ready, job, [], false)
        else
          var key := inputs.attemptKey.value;
          var ensured := EnsureMigrationJob(ready, job, inputs, key);
          if ensured.read.None? then Outcome(ready, ensured.job, ensured.events, ensured.ok)
          else
            var report := ReportMigrationJob(ready, ensured.read.value, key, inputs);
            Outcome(report.status, ensured.job, ensured.events + report.events, true)
  }
}
