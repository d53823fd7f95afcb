/** What the status says and which events go out after a reconcile, case by case, and when the
    reconcile returns an error. */
module MigrationReports {
  import opened Prelude
  import opened Migration
  import opened MigrationRuns
  import opened MigrationDiscipline
  import C = Conditions

  /** The condition of that type is there with this status, reason and message. */
  predicate Shows(s: Status, t: C.ConditionType, on: bool, reason: C.Reason, message: C.Message) {
    var c := C.Get(s.conditions, t);
    c.Some? && c.value.status == (if on then C.True else C.False) && c.value.reason == reason && c.value.message == message
  }

  predicate ShowsOutcome(
      s: Status, on: bool, job: C.Reason, validation: C.Reason, cutover: C.Reason,
      message: C.Message, cutoverMessage: C.Message)
  {
    && Shows(s, C.MigrationJobSucceeded, on, job, message)
    && Shows(s, C.MigrationValidated, on, validation, message)
    && Shows(s, C.PraxisCutoverReady, on, cutover, cutoverMessage)
  }

  predicate ShowsRollback(s: Status) {
    && s.migration.Some? && s.migration.value.softRollbackWarning == C.SoftRollbackWarning
    && Shows(s, C.SoftRollbackAvailable, true, C.SoftRollbackOnly, C.SoftRollbackWarning)
  }

  /** The migration record, apart from the warning. */
  predicate Records(s: Status, phase: Phase, generation: int, key: string, jobName: string, message: C.Message) {
    && s.migration.Some?
    && var m := s.migration.value;
       m.phase == phase && m.observedGeneration == generation && m.attemptKey == key && m.jobName == jobName
       && m.message == message
  }

  /** Some condition of the Job has this type and is true. */
  predicate HasTrue(job: Job, t: JobConditionType) {
    exists c :: c in job.conditions && c.ctype == t && c.isTrue
  }

  lemma HasTrueIsHasCondition(job: Job, t: JobConditionType)
    ensures HasTrue(job, t) <==> HasCondition(job, t)
  {
    if c :| c in job.conditions && c.ctype == t && c.isTrue {
      var i :| 0 <= i < |job.conditions| && job.conditions[i] == c;
    }
  }

  /** The detail is that of the first true Failed condition: its reason after a colon and its message
      in brackets, each if there is one. */
  lemma {:induction false} FailureDetailOfFirst(conditions: seq<JobCondition>, i: nat)
    requires i < |conditions| && conditions[i].ctype == JobFailed && conditions[i].isTrue
    requires forall j :: 0 <= j < i ==> !(conditions[j].ctype == JobFailed && conditions[j].isTrue)
    ensures var c := conditions[i];
            FailureDetail(conditions) ==
              if c.reason == "" && c.message == "" then ""
              else if c.message == "" then ": " + c.reason
              else if c.reason == "" then " (" + c.message + ")"
              else ": " + c.reason + " (" + c.message + ")"
  {
    if i > 0 {
      FailureDetailOfFirst(conditions[1..], i - 1);
    } else {
      var c := conditions[0];
      assert (": " + c.reason) + "" == ": " + c.reason;
      assert ": " + c.reason + (" (" + c.message + ")") == ": " + c.reason + " (" + c.message + ")";
    }
  }

  // ---------------------------------------------------------------------------
  // Writing the conditions.
  // ---------------------------------------------------------------------------

  lemma FlagShown(
      conditions: seq<C.Condition>, t: C.ConditionType, on: bool, reason: C.Reason, message: C.Message, now: int)
    ensures var c := C.Get(SetFlag(conditions, t, on, reason, message, now), t);
            c.Some? && c.value.status == (if on then C.True else C.False)
            && c.value.reason == reason && c.value.message == message
  {
    C.GetAfterSet(conditions, C.Condition(t, if on then C.True else C.False, reason, message, now), t);
  }

  lemma OutcomeShown(
      conditions: seq<C.Condition>, on: bool, job: C.Reason, validation: C.Reason, cutover: C.Reason,
      message: C.Message, cutoverMessage: C.Message, now: int, m: Option<MigrationStatus>)
    ensures var after := SetOutcome(conditions, on, job, validation, cutover, message, cutoverMessage, now);
            && ShowsOutcome(Status(m, after), on, job, validation, cutover, message, cutoverMessage)
            && C.Get(after, C.SoftRollbackAvailable) == C.Get(conditions, C.SoftRollbackAvailable)
            && C.Get(after, C.MigrationPreflightReady) == C.Get(conditions, C.MigrationPreflightReady)
  {
    hide SetFlag, C.Get;
    var c1 := SetFlag(conditions, C.MigrationJobSucceeded, on, job, message, now);
    var c2 := SetFlag(c1, C.MigrationValidated, on, validation, message, now);
    FlagShown(conditions, C.MigrationJobSucceeded, on, job, message, now);
    FlagShown(c1, C.MigrationValidated, on, validation, message, now);
    FlagShown(c2, C.PraxisCutoverReady, on, cutover, cutoverMessage, now);
  }

  lemma RollbackShown(conditions: seq<C.Condition>, now: int)
    ensures var after := SetRollback(conditions, now);
            && (forall t :: t != C.SoftRollbackAvailable ==> C.Get(after, t) == C.Get(conditions, t))
            && var c := C.Get(after, C.SoftRollbackAvailable);
               c.Some? && c.value.status == C.True && c.value.reason == C.SoftRollbackOnly
               && c.value.message == C.SoftRollbackWarning
  {
    hide C.Get, C.Set;
    FlagShown(conditions, C.SoftRollbackAvailable, true, C.SoftRollbackOnly, C.SoftRollbackWarning, now);
  }

  // ---------------------------------------------------------------------------
  // Reporting on a Job.
  // ---------------------------------------------------------------------------

  lemma CompleteJobObserved(s: Status, job: Job, key: string, generation: int, now: int)
    requires HasTrue(job, Complete)
    ensures var o := ObserveMigrationJob(s, job, key, generation, now);
            && Records(o.status, Validated, generation, key, job.name, C.JobCompleted(job.name))
            && ShowsOutcome(o.status, true, C.JobSucceeded, C.Validated, C.CutoverReady,
                            C.JobCompleted(job.name), C.CutoverMayProceed)
            && ShowsRollback(o.status)
            && o.events == (if CutoverAnnounced(s.conditions) then [] else [Event(false, C.CutoverReady, C.JobCompleted(job.name))])
            && C.Get(o.status.conditions, C.MigrationPreflightReady) == C.Get(s.conditions, C.MigrationPreflightReady)
  {
    hide SetFlag, C.Get, C.Set, HasCondition, HasTrue, SetOutcome, SetRollback;
    HasTrueIsHasCondition(job, Complete);
    RollbackShown(s.conditions, now);
    OutcomeShown(SetRollback(s.conditions, now), true, C.JobSucceeded, C.Validated, C.CutoverReady,
                 C.JobCompleted(job.name), C.CutoverMayProceed, now,
                 ObserveMigrationJob(s, job, key, generation, now).status.migration);
  }

  lemma FailedJobObserved(s: Status, job: Job, key: string, generation: int, now: int)
    requires !HasTrue(job, Complete) && HasTrue(job, JobFailed)
    ensures var o := ObserveMigrationJob(s, job, key, generation, now);
            var message := C.JobHasFailed(job.name, FailureDetail(job.conditions));
            && Records(o.status, Failed, generation, key, job.name, message)
            && ShowsOutcome(o.status, false, C.JobFailed, C.ValidationFailed, C.CutoverNotReady, message, C.CutoverBlockedByFailure)
            && ShowsRollback(o.status)
            && o.events == (if FailureAnnounced(s.conditions) then [] else [Event(true, C.JobFailed, message)])
            && C.Get(o.status.conditions, C.MigrationPreflightReady) == C.Get(s.conditions, C.MigrationPreflightReady)
  {
    hide SetFlag, C.Get, C.Set, HasCondition, HasTrue, SetOutcome, SetRollback, FailureDetail;
    HasTrueIsHasCondition(job, Complete);
    HasTrueIsHasCondition(job, JobFailed);
    RollbackShown(s.conditions, now);
    OutcomeShown(SetRollback(s.conditions, now), false, C.JobFailed, C.ValidationFailed, C.CutoverNotReady,
                 C.JobHasFailed(job.name, FailureDetail(job.conditions)), C.CutoverBlockedByFailure, now,
                 ObserveMigrationJob(s, job, key, generation, now).status.migration);
  }

  lemma UnfinishedJobObserved(s: Status, job: Job, key: string, generation: int, now: int)
    requires !HasTrue(job, Complete) && !HasTrue(job, JobFailed)
    ensures var o := ObserveMigrationJob(s, job, key, generation, now);
            var message := if job.active > 0 then C.JobIsActive(job.name) else C.JobAwaitsCompletion(job.name);
            && Records(o.status, Running, generation, key, job.name, message)
            && ShowsOutcome(o.status, false, if job.active > 0 then C.JobRunning else C.JobPending, C.ValidationPending,
                            C.CutoverNotReady, message, C.CutoverBlocked)
            && ShowsRollback(o.status)
            && o.events == []
            && C.Get(o.status.conditions, C.MigrationPreflightReady) == C.Get(s.conditions, C.MigrationPreflightReady)
  {
    hide SetFlag, C.Get, C.Set, HasCondition, HasTrue, SetOutcome, SetRollback;
    HasTrueIsHasCondition(job, Complete);
    HasTrueIsHasCondition(job, JobFailed);
    RollbackShown(s.conditions, now);
    OutcomeShown(SetRollback(s.conditions, now), false, if job.active > 0 then C.JobRunning else C.JobPending,
                 C.ValidationPending, C.CutoverNotReady,
                 if job.active > 0 then C.JobIsActive(job.name) else C.JobAwaitsCompletion(job.name), C.CutoverBlocked, now,
                 ObserveMigrationJob(s, job, key, generation, now).status.migration);
  }

  lemma WaitingReported(s: Status, job: Job, key: string, message: C.Message, generation: int, now: int)
    ensures var after := MarkMigrationWaiting(s, job, key, message, generation, now);
            && Records(after, Running, generation, key, job.name, message)
            && ShowsOutcome(after, false, C.JobPending, C.ValidationPending, C.CutoverNotReady, message, C.CutoverBlocked)
            && ShowsRollback(after)
            && C.Get(after.conditions, C.MigrationPreflightReady) == C.Get(s.conditions, C.MigrationPreflightReady)
  {
    hide SetFlag, C.Get, C.Set, SetOutcome, SetRollback;
    OutcomeShown(s.conditions, false, C.JobPending, C.ValidationPending, C.CutoverNotReady, message, C.CutoverBlocked, now,
                 MarkMigrationWaiting(s, job, key, message, generation, now).migration);
    RollbackShown(
      SetOutcome(s.conditions, false, C.JobPending, C.ValidationPending, C.CutoverNotReady, message, C.CutoverBlocked, now), now);
  }

  // ---------------------------------------------------------------------------
  // A whole reconcile of a requested migration.
  // ---------------------------------------------------------------------------

  /** The Job a reconcile goes on to report: one that is there, unless it is someone else's or its
      replacement was refused; otherwise the one it creates, or finds in its place. */
  function GoesOnWith(s: Status, job: Option<Job>, inputs: Inputs): Option<Job> {
    if !Proceeds(inputs) then None
    else if job.Some? then
      (if job.value.owned
          && (job.value.terminating || job.value.attempt == inputs.attemptKey.value
              || HasTrue(job.value, Complete) || inputs.deleteSucceeds)
       then job else None)
    else if s.migration.Some? && s.migration.value.phase == Validated then None
    else
      match inputs.create
      case Created => Some(Job(inputs.instanceName + "-praxis-migration", true, false, inputs.attemptKey.value, [], 0))
      case AlreadyExists(seen) => if seen.Some? && seen.value.owned then seen else None
      case CreateFailed => None
  }

  function CreationEvents(s: Status, job: Option<Job>, inputs: Inputs): seq<Event> {
    if Proceeds(inputs) && job.None? && inputs.create.Created? && !(s.migration.Some? && s.migration.value.phase == Validated)
    then [Event(false, C.JobPending,
                C.JobCreatedFor(inputs.instanceName + "-praxis-migration", inputs.attemptKey.value))]
    else []
  }

  /** What the status says about the Job the reconcile goes on with, with the events it adds. */
  predicate Reports(before: Status, after: Status, events: seq<Event>, job: Job, inputs: Inputs)
    requires inputs.attemptKey.Some?
  {
    && ShowsRollback(after)
    && Shows(after, C.MigrationPreflightReady, true, C.PreflightPassed, C.ChecksPassed)
    && if job.terminating || (job.attempt != inputs.attemptKey.value && !HasTrue(job, Complete)) then
         && Records(after, Running, inputs.generation, inputs.attemptKey.value, job.name, C.WaitingForPreviousJob)
         && ShowsOutcome(after, false, C.JobPending, C.ValidationPending, C.CutoverNotReady,
                         C.WaitingForPreviousJob, C.CutoverBlocked)
         && events == []
       else if HasTrue(job, Complete) then
         && Records(after, Validated, inputs.generation, job.attempt, job.name, C.JobCompleted(job.name))
         && ShowsOutcome(after, true, C.JobSucceeded, C.Validated, C.CutoverReady,
                         C.JobCompleted(job.name), C.CutoverMayProceed)
         && events == (if CutoverAnnounced(before.conditions) then []
                       else [Event(false, C.CutoverReady, C.JobCompleted(job.name))])
       else if HasTrue(job, JobFailed) then
         var message := C.JobHasFailed(job.name, FailureDetail(job.conditions));
         && Records(after, Failed, inputs.generation, inputs.attemptKey.value, job.name, message)
         && ShowsOutcome(after, false, C.JobFailed, C.ValidationFailed, C.CutoverNotReady, message, C.CutoverBlockedByFailure)
         && events == (if FailureAnnounced(before.conditions) then [] else [Event(true, C.JobFailed, message)])
       else
         var message := if job.active > 0 then C.JobIsActive(job.name) else C.JobAwaitsCompletion(job.name);
         && Records(after, Running, inputs.generation, inputs.attemptKey.value, job.name, message)
         && ShowsOutcome(after, false, if job.active > 0 then C.JobRunning else C.JobPending, C.ValidationPending,
                         C.CutoverNotReady, message, C.CutoverBlocked)
         && events == []
  }

  lemma EnsuredIsGoesOnWith(s: Status, job: Option<Job>, inputs: Inputs)
    requires Proceeds(inputs)
    ensures var e := EnsureMigrationJob(s, job, inputs, inputs.attemptKey.value);
            e.read == GoesOnWith(s, job, inputs) && e.events == CreationEvents(s, job, inputs)
  {
    hide HasTrue, HasCondition;
    if job.Some? {
      HasTrueIsHasCondition(job.value, Complete);
    }
  }

  lemma ReportShows(s: Status, job: Job, inputs: Inputs)
    requires inputs.attemptKey.Some? && Shows(s, C.MigrationPreflightReady, true, C.PreflightPassed, C.ChecksPassed)
    ensures var o := ReportMigrationJob(s, job, inputs.attemptKey.value, inputs);
            Reports(s, o.status, o.events, job, inputs)
  {
    hide C.Get, HasCondition, HasTrue, ObserveMigrationJob, MarkMigrationWaiting, ShowsOutcome, ShowsRollback, Records;
    hide CutoverAnnounced, FailureAnnounced, FailureDetail;
    var key := inputs.attemptKey.value;
    HasTrueIsHasCondition(job, Complete);
    if job.terminating || (job.attempt != key && !HasTrue(job, Complete)) {
      WaitingReported(s, job, key, C.WaitingForPreviousJob, inputs.generation, inputs.now);
    } else if HasTrue(job, Complete) {
      CompleteJobObserved(s, job, job.attempt, inputs.generation, inputs.now);
    } else if HasTrue(job, JobFailed) {
      FailedJobObserved(s, job, key, inputs.generation, inputs.now);
    } else {
      UnfinishedJobObserved(s, job, key, inputs.generation, inputs.now);
    }
  }

  /** The status before any Job is looked at: warning and preflight written, the rest as it was. */
  lemma ReadyStatus(s: Status, now: int)
    ensures var ready := PreflightPassedStatus(EnsureSoftRollbackWarning(s, now), now);
            && ShowsRollback(ready)
            && Shows(ready, C.MigrationPreflightReady, true, C.PreflightPassed, C.ChecksPassed)
            && (forall t :: t != C.MigrationPreflightReady && t != C.SoftRollbackAvailable ==>
                  C.Get(ready.conditions, t) == C.Get(s.conditions, t))
            && ready.migration == Some((if s.migration.Some? then s.migration.value
                                        else MigrationStatus(Unset, 0, "", "", C.Empty, C.Empty))
                                       .(softRollbackWarning := C.SoftRollbackWarning))
            && CutoverAnnounced(ready.conditions) == CutoverAnnounced(s.conditions)
            && FailureAnnounced(ready.conditions) == FailureAnnounced(s.conditions)
  {
    hide SetFlag, C.Get, C.Set, SetRollback;
    var warned := EnsureSoftRollbackWarning(s, now);
    RollbackShown(s.conditions, now);
    FlagShown(warned.conditions, C.MigrationPreflightReady, true, C.PreflightPassed, C.ChecksPassed, now);
  }

  /** A reconcile that goes on with a Job reports it: the phase, the record, the five conditions and
      the events are those of the Job's own conditions. */
  lemma ReconcileReportsTheJob(s: Status, job: Option<Job>, inputs: Inputs)
    requires GoesOnWith(s, job, inputs).Some?
    ensures var after := ReconcileMigration(s, job, inputs);
            && CreationEvents(s, job, inputs) <= after.events
            && Reports(s, after.status, after.events[|CreationEvents(s, job, inputs)|..],
                       GoesOnWith(s, job, inputs).value, inputs)
  {
    hide SetFlag, C.Get, C.Set, HasTrue, EnsureMigrationJob, ReportMigrationJob, EnsureSoftRollbackWarning, PreflightPassedStatus;
    hide ShowsRollback, ShowsOutcome, Shows, CutoverAnnounced, FailureAnnounced, FailureDetail, GoesOnWith, CreationEvents;
    ProceedsToGoOn(s, job, inputs);
    var ready := PreflightPassedStatus(EnsureSoftRollbackWarning(s, inputs.now), inputs.now);
    ReadyStatus(s, inputs.now);
    SamePhaseSameJob(s, ready, job, inputs);
    EnsuredIsGoesOnWith(ready, job, inputs);
    ReportShows(ready, GoesOnWith(s, job, inputs).value, inputs);
    var events := CreationEvents(s, job, inputs);
    var report := ReportMigrationJob(ready, GoesOnWith(s, job, inputs).value, inputs.attemptKey.value, inputs).events;
    assert (events + report)[|events|..] == report;
  }

  lemma ProceedsToGoOn(s: Status, job: Option<Job>, inputs: Inputs)
    ensures GoesOnWith(s, job, inputs).Some? ==> Proceeds(inputs)
  {
  }

  lemma SamePhaseSameJob(s: Status, ready: Status, job: Option<Job>, inputs: Inputs)
    requires AlreadyValidated(s) == AlreadyValidated(ready)
    ensures GoesOnWith(ready, job, inputs) == GoesOnWith(s, job, inputs)
    ensures CreationEvents(ready, job, inputs) == CreationEvents(s, job, inputs)
  {
  }

  // ---------------------------------------------------------------------------
  // The other ways a reconcile can end.
  // ---------------------------------------------------------------------------

  /** A failing check overwrites the record and lowers the other conditions, and is announced. */
  lemma FailingCheckReported(s: Status, job: Option<Job>, inputs: Inputs)
    requires IsMigrationRequested(inputs.praxisMode) && inputs.preflightError.Some?
    ensures var (after, error) := (ReconcileMigration(s, job, inputs), inputs.preflightError.value);
            && after.job == job && after.ok && after.events == [Event(true, C.PreflightFailed, error)]
            && Records(after.status, PreflightFailed, inputs.generation, "", "", error)
            && Shows(after.status, C.MigrationPreflightReady, false, C.PreflightFailed, error)
            && ShowsOutcome(after.status, false, C.PreflightFailed, C.ValidationPending, C.CutoverNotReady, error, C.CutoverBlocked)
            && ShowsRollback(after.status)
  {
    hide SetFlag, C.Get, C.Set, SetRollback, SetOutcome;
    var warned, error := EnsureSoftRollbackWarning(s, inputs.now), inputs.preflightError.value;
    var c1 := SetFlag(warned.conditions, C.MigrationPreflightReady, false, C.PreflightFailed, error, inputs.now);
    FlagShown(warned.conditions, C.MigrationPreflightReady, false, C.PreflightFailed, error, inputs.now);
    OutcomeShown(c1, false, C.PreflightFailed, C.ValidationPending, C.CutoverNotReady, error, C.CutoverBlocked, inputs.now,
                 ReconcileMigration(s, job, inputs).status.migration);
    RollbackShown(SetOutcome(c1, false, C.PreflightFailed, C.ValidationPending, C.CutoverNotReady, error,
                             C.CutoverBlocked, inputs.now), inputs.now);
  }

  /** When there is no Job to go on with, preflight and warning are written and nothing else. */
  lemma NoJobReported(s: Status, job: Option<Job>, inputs: Inputs)
    requires IsMigrationRequested(inputs.praxisMode) && inputs.preflightError.None? && GoesOnWith(s, job, inputs).None?
    ensures var after := ReconcileMigration(s, job, inputs);
            && after.events == []
            && Shows(after.status, C.MigrationPreflightReady, true, C.PreflightPassed, C.ChecksPassed)
            && ShowsRollback(after.status)
            && (forall t :: t != C.MigrationPreflightReady && t != C.SoftRollbackAvailable ==>
                  C.Get(after.status.conditions, t) == C.Get(s.conditions, t))
            && (s.migration.Some? ==>
                  after.status.migration == Some(s.migration.value.(softRollbackWarning := C.SoftRollbackWarning)))
  {
    hide SetFlag, C.Get, C.Set, HasTrue, EnsureMigrationJob, EnsureSoftRollbackWarning, PreflightPassedStatus;
    hide ShowsRollback, Shows, CutoverAnnounced, FailureAnnounced, GoesOnWith, CreationEvents;
    var ready := PreflightPassedStatus(EnsureSoftRollbackWarning(s, inputs.now), inputs.now);
    ReadyStatus(s, inputs.now);
    if inputs.attemptKey.Some? {
      if inputs.jobReadable {
        SamePhaseSameJob(s, ready, job, inputs);
        EnsuredIsGoesOnWith(ready, job, inputs);
        CreatedGoesOn(s, job, inputs);
      } else {
        UnreadableEnsured(ready, job, inputs, inputs.attemptKey.value);
      }
    }
  }

  lemma UnreadableEnsured(s: Status, job: Option<Job>, inputs: Inputs, key: string)
    requires !inputs.jobReadable
    ensures EnsureMigrationJob(s, job, inputs, key) == Ensured(job, None, [], false)
  {
  }

  lemma CreatedGoesOn(s: Status, job: Option<Job>, inputs: Inputs)
    ensures GoesOnWith(s, job, inputs).None? ==> CreationEvents(s, job, inputs) == []
  {
  }

  /** The Job does not stand in the way of disabling: it is gone, going, or can be deleted. */
  predicate CanLetGo(job: Option<Job>, inputs: Inputs) {
    inputs.jobReadable && (job.None? || job.value.terminating || (job.value.owned && inputs.deleteSucceeds))
  }

  /** Any trace of a migration: in the record, or a condition of one of the five types. */
  predicate HasTrace(s: Status) {
    || (s.migration.Some?
        && (s.migration.value.softRollbackWarning != C.Empty || s.migration.value.jobName != ""
            || s.migration.value.attemptKey != "" || s.migration.value.phase !in {Unset, Pending}))
    || exists c :: c in s.conditions && c.ctype in
         {C.MigrationPreflightReady, C.MigrationJobSucceeded, C.MigrationValidated, C.PraxisCutoverReady,
          C.SoftRollbackAvailable}
  }

  lemma HasTraceIsHistory(s: Status)
    ensures HasTrace(s) <==> HasMigrationHistory(s)
  {
    if c :| c in s.conditions && !c.ctype.Other? {
      var i :| 0 <= i < |s.conditions| && s.conditions[i] == c;
    }
    if i :| 0 <= i < |s.conditions| && !s.conditions[i].ctype.Other? {
      assert s.conditions[i] in s.conditions;
    }
  }

  /** A disabled reconcile that cannot let the Job go, or finds no trace of a migration, leaves the
      status alone; any other clears it down to a Validated phase with its key and the warning. */
  lemma DisabledReported(s: Status, job: Option<Job>, inputs: Inputs)
    requires !IsMigrationRequested(inputs.praxisMode)
    ensures var after := ReconcileMigration(s, job, inputs);
            && after.events == []
            && if !CanLetGo(job, inputs) || !HasTrace(s) then after.status == s
               else
                 var kept := s.migration.Some? && s.migration.value.phase == Validated;
                 && Records(after.status, if kept then Validated else Pending, 0,
                            if kept then s.migration.value.attemptKey else "", "", C.NotOptedIn)
                 && Shows(after.status, C.MigrationPreflightReady, false, C.NotRequested, C.NotOptedIn)
                 && ShowsOutcome(after.status, false, C.NotRequested, C.NotRequested, C.CutoverNotReady, C.NotOptedIn, C.NotOptedIn)
                 && (if s.migration.Some? then ShowsRollback(after.status)
                     else after.status.migration.value.softRollbackWarning == C.Empty
                          && Shows(after.status, C.SoftRollbackAvailable, false, C.NotRequested, C.NotOptedIn))
  {
    hide SetFlag, C.Get, C.Set, SetRollback, SetOutcome, HasTrace, HasMigrationHistory;
    HasTraceIsHistory(s);
    var warned, after := WarnOnDisable(s, inputs.now), ReconcileMigration(s, job, inputs).status;
    var c1 := SetFlag(warned.conditions, C.MigrationPreflightReady, false, C.NotRequested, C.NotOptedIn, inputs.now);
    var c2 := SetOutcome(c1, false, C.NotRequested, C.NotRequested, C.CutoverNotReady, C.NotOptedIn, C.NotOptedIn, inputs.now);
    FlagShown(warned.conditions, C.MigrationPreflightReady, false, C.NotRequested, C.NotOptedIn, inputs.now);
    OutcomeShown(c1, false, C.NotRequested, C.NotRequested, C.CutoverNotReady, C.NotOptedIn, C.NotOptedIn, inputs.now, after.migration);
    FlagShown(c2, C.SoftRollbackAvailable, false, C.NotRequested, C.NotOptedIn, inputs.now);
    RollbackShown(s.conditions, inputs.now);
  }

  /** Exactly when a reconcile returns an error. */
  lemma ErrorsExactly(s: Status, job: Option<Job>, inputs: Inputs)
    ensures !ReconcileMigration(s, job, inputs).ok <==>
      if !IsMigrationRequested(inputs.praxisMode) then !CanLetGo(job, inputs)
      else if inputs.preflightError.Some? then false
      else if inputs.attemptKey.None? || !inputs.jobReadable then true
      else if job.Some? || !(s.migration.Some? && s.migration.value.phase == Validated) then GoesOnWith(s, job, inputs).None?
      else false
  {
    hide SetFlag, C.Get, C.Set, HasTrue, HasCondition, ClearMigrationState, ReportMigrationJob, EnsureMigrationJob;
    hide GoesOnWith, EnsureSoftRollbackWarning, PreflightPassedStatus, ShowsRollback, Shows;
    if inputs.attemptKey.Some? && inputs.preflightError.None? && IsMigrationRequested(inputs.praxisMode) {
      var ready := PreflightPassedStatus(EnsureSoftRollbackWarning(s, inputs.now), inputs.now);
      ReadyStatus(s, inputs.now);
      if inputs.jobReadable {
        SamePhaseSameJob(s, ready, job, inputs);
        EnsuredIsGoesOnWith(ready, job, inputs);
        EnsuringFails(ready, job, inputs, inputs.attemptKey.value);
      } else {
        UnreadableEnsured(ready, job, inputs, inputs.attemptKey.value);
      }
    }
  }

  lemma EnsuringFails(s: Status, job: Option<Job>, inputs: Inputs, key: string)
    requires inputs.jobReadable
    ensures var e := EnsureMigrationJob(s, job, inputs, key);
            e.ok <==> e.read.Some? || (job.None? && AlreadyValidated(s))
  {
  }

  /** Migration is requested exactly when the spec has both sections and switches neither off. */
  lemma RequestedExactly(enabled: Option<bool>, jobEnabled: Option<bool>)
    ensures !IsMigrationRequested(None) && !IsMigrationRequested(Some(PraxisMode(enabled, None)))
    ensures IsMigrationRequested(Some(PraxisMode(enabled, Some(MigrationJobSpec(jobEnabled))))) <==>
      (enabled.None? || enabled.value) && (jobEnabled.None? || jobEnabled.value)
  {
  }

  // ---------------------------------------------------------------------------
  // Failure events are the rising edges of the failure.
  // ---------------------------------------------------------------------------

  function FailureEvents(events: seq<Event>): nat {
    if events == [] then 0
    else FailureEvents(events[..|events| - 1]) + if events[|events| - 1].reason == C.JobFailed then 1 else 0
  }

  /** The status says that the Job failed. */
  predicate SaysFailed(s: Status) {
    var c := C.Get(s.conditions, C.MigrationJobSucceeded);
    c.Some? && c.value.reason == C.JobFailed
  }

  /** A reconcile computes a failure from a status that did not say so. */
  predicate NewFailure(s: System, step: Step) {
    step.Reconcile? && !SaysFailed(s.status) && SaysFailed(ReconcileMigration(s.status, s.job, step.inputs).status)
  }

  function NewFailures(steps: seq<Step>): nat {
    if steps == [] then 0
    else NewFailures(steps[..|steps| - 1])
         + if NewFailure(Run(steps[..|steps| - 1]), steps[|steps| - 1]) then 1 else 0
  }

  lemma FailureEventsAppend(a: seq<Event>, b: seq<Event>)
    ensures FailureEvents(a + b) == FailureEvents(a) + FailureEvents(b)
  {
    if b == [] {
      assert a + b == a;
    } else {
      FailureEventsAppend(a, b[..|b| - 1]);
      assert (a + b)[..|a + b| - 1] == a + b[..|b| - 1];
    }
  }

  lemma FailureEventsOfOne(events: seq<Event>)
    ensures events == [] ==> FailureEvents(events) == 0
    ensures |events| == 1 ==> FailureEvents(events) == if events[0].reason == C.JobFailed then 1 else 0
  {
    if |events| == 1 {
      assert events[..0] == [];
    }
  }

  lemma FailureEventsOfReport(before: Status, after: Status, events: seq<Event>, job: Job, inputs: Inputs)
    requires inputs.attemptKey.Some? && Reports(before, after, events, job, inputs)
    ensures FailureEvents(events) == if !SaysFailed(before) && SaysFailed(after) then 1 else 0
  {
    hide C.Get, HasTrue, ShowsRollback, Records, CutoverAnnounced, FailureDetail;
    FailureEventsOfOne(events);
  }

  lemma FailureEventsOfCreation(s: Status, job: Option<Job>, inputs: Inputs)
    ensures FailureEvents(CreationEvents(s, job, inputs)) == 0
  {
    FailureEventsOfOne(CreationEvents(s, job, inputs));
  }

  lemma FailureEventsOfReconcile(s: System, inputs: Inputs)
    ensures FailureEvents(ReconcileMigration(s.status, s.job, inputs).events)
         == if NewFailure(s, Reconcile(inputs, true)) then 1 else 0
  {
    hide ReconcileMigration, C.Get, Reports, GoesOnWith, CreationEvents, CanLetGo, HasTrace, Records, ShowsRollback;
    var after := ReconcileMigration(s.status, s.job, inputs);
    FailureEventsOfOne(after.events);
    if !IsMigrationRequested(inputs.praxisMode) {
      DisabledReported(s.status, s.job, inputs);
    } else if inputs.preflightError.Some? {
      FailingCheckReported(s.status, s.job, inputs);
    } else if GoesOnWith(s.status, s.job, inputs).None? {
      NoJobReported(s.status, s.job, inputs);
    } else {
      var created := CreationEvents(s.status, s.job, inputs);
      ProceedsToGoOn(s.status, s.job, inputs);
      ReconcileReportsTheJob(s.status, s.job, inputs);
      FailureEventsOfReport(s.status, after.status, after.events[|created|..],
                            GoesOnWith(s.status, s.job, inputs).value, inputs);
      FailureEventsOfCreation(s.status, s.job, inputs);
      FailureEventsAppend(created, after.events[|created|..]);
      assert after.events == created + after.events[|created|..];
    }
  }

  /** Over any run, a failure is announced once for each time a reconcile newly finds it. */
  lemma {:induction false} FailureEventsAreNewFailures(steps: seq<Step>)
    ensures FailureEvents(Run(steps).events) == NewFailures(steps)
  {
    hide ReconcileMigration, C.Get;
    if steps != [] {
      var earlier, step := steps[..|steps| - 1], steps[|steps| - 1];
      FailureEventsAreNewFailures(earlier);
      if step.Reconcile? {
        var s := Run(earlier);
        FailureEventsOfReconcile(s, step.inputs);
        FailureEventsAppend(s.events, ReconcileMigration(s.status, s.job, step.inputs).events);
      }
    }
  }

  /** A new failure whose status write is lost. */
  predicate LosesFailure(s: System, step: Step) {
    NewFailure(s, step) && !step.persisted
  }

  /** The times the stored status starts to say that the Job failed, and those that were lost. */
  function StoredFailures(steps: seq<Step>): nat {
    if steps == [] then 0
    else
      var s, step := Run(steps[..|steps| - 1]), steps[|steps| - 1];
      StoredFailures(steps[..|steps| - 1]) + if !SaysFailed(s.status) && SaysFailed(Next(s, step).status) then 1 else 0
  }

  function LostFailures(steps: seq<Step>): nat {
    if steps == [] then 0
    else LostFailures(steps[..|steps| - 1])
         + if LosesFailure(Run(steps[..|steps| - 1]), steps[|steps| - 1]) then 1 else 0
  }

  lemma AFailureIsStoredOrLost(s: System, step: Step)
    ensures !SaysFailed(s.status) && SaysFailed(Next(s, step).status) <==> NewFailure(s, step) && !LosesFailure(s, step)
  {
    hide ReconcileMigration, C.Get, C.Set;
    match step
    case Reconcile(_, _) =>
    case JobBecomes(_) =>
    case OtherConditionSet(name, status, reason, message, now) =>
      OtherConditionIsInvisible(s.status.conditions, name, status, reason, message, now);
  }

  /** As for the cutover: the failure events are the rising edges of the stored failure and the new
      failures whose write was lost. */
  lemma {:induction false} FailureEventsAreEdgesAndLostFailures(steps: seq<Step>)
    ensures FailureEvents(Run(steps).events) == StoredFailures(steps) + LostFailures(steps)
  {
    FailureEventsAreNewFailures(steps);
    NewFailuresAreStoredOrLost(steps);
  }

  lemma {:induction false} NewFailuresAreStoredOrLost(steps: seq<Step>)
    ensures NewFailures(steps) == StoredFailures(steps) + LostFailures(steps)
  {
    hide Run, Next, NewFailure, SaysFailed;
    if steps != [] {
      NewFailuresAreStoredOrLost(steps[..|steps| - 1]);
      AFailureIsStoredOrLost(Run(steps[..|steps| - 1]), steps[|steps| - 1]);
    }
  }
}
