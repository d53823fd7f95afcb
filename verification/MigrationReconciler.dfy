/** The reconciler's methods, which overwrite the status, the Job and the event stream in place.
    Each is proved to compute the function of the same name in module Migration. */
module MigrationReconciler {
  import opened Prelude
  import M = Migration
  import C = Conditions

  class Reconciler {
    const status: C.ConditionList
    var migration: Option<M.MigrationStatus>
    var job: Option<M.Job>
    var events: seq<M.Event>

    constructor (job: Option<M.Job>)
      ensures State() == M.Status(None, []) && this.job == job && events == [] && fresh(status)
    {
      status := new C.ConditionList();
      migration := None;
      this.job := job;
      events := [];
    }

    function State(): M.Status
      reads this, status
    {
      M.Status(migration, status.conditions)
    }

    method SetMigrationCondition(t: C.ConditionType, on: bool, reason: C.Reason, message: C.Message, now: int)
      modifies status
      ensures status.conditions == M.SetFlag(old(status.conditions), t, on, reason, message, now)
    {
      var condition := C.Condition(t, C.True, reason, message, now);
      if !on {
        condition := condition.(status := C.False);
      }
      status.SetCondition(condition);
    }

    method EmitMigrationEvent(warning: bool, reason: C.Reason, message: C.Message)
      modifies this`events
      ensures events == old(events) + [M.Event(warning, reason, message)]
    {
      events := events + [M.Event(warning, reason, message)];
    }

    method EnsureSoftRollbackWarning(now: int)
      modifies this`migration, status
      ensures State() == M.EnsureSoftRollbackWarning(old(State()), now)
    {
      if migration.None? {
        migration := Some(M.MigrationStatus(M.Unset, 0, "", "", C.Empty, C.Empty));
      }
      migration := Some(migration.value.(softRollbackWarning := C.SoftRollbackWarning));
      SetMigrationCondition(C.SoftRollbackAvailable, true, C.SoftRollbackOnly, C.SoftRollbackWarning, now);
    }

    method WarnSoftRollbackOnPraxisDisable(now: int)
      modifies this`migration, status
      ensures State() == M.WarnOnDisable(old(State()), now)
    {
      if migration.None? {
        return;
      }
      migration := Some(migration.value.(softRollbackWarning := C.SoftRollbackWarning));
      SetMigrationCondition(C.SoftRollbackAvailable, true, C.SoftRollbackOnly, C.SoftRollbackWarning, now);
    }

    method HasMigrationHistory() returns (found: bool)
      ensures found == M.HasMigrationHistory(State())
    {
      if migration.Some? {
        var m := migration.value;
        if m.softRollbackWarning != C.Empty || m.jobName != "" || m.attemptKey != ""
           || (m.phase != M.Unset && m.phase != M.Pending) {
          return true;
        }
      }
      for i := 0 to |status.conditions|
        invariant forall j :: 0 <= j < i ==> status.conditions[j].ctype.Other?
      {
        if !status.conditions[i].ctype.Other? {
          return true;
        }
      }
      return false;
    }

    method ClearMigrationState(message: C.Message, now: int)
      modifies this`migration, status
      ensures State() == M.ClearMigrationState(old(State()), message, now)
    {
      hide M.SetFlag;
      var priorWarning, priorPhase, priorAttemptKey := C.Empty, M.Pending, "";
      if migration.Some? {
        priorWarning := migration.value.softRollbackWarning;
        if migration.value.phase == M.Validated {
          priorPhase := migration.value.phase;
          priorAttemptKey := migration.value.attemptKey;
        }
      }
      migration := Some(M.MigrationStatus(priorPhase, 0, priorAttemptKey, "", message, priorWarning));
      SetMigrationCondition(C.MigrationPreflightReady, false, C.NotRequested, message, now);
      SetMigrationCondition(C.MigrationJobSucceeded, false, C.NotRequested, message, now);
      SetMigrationCondition(C.MigrationValidated, false, C.NotRequested, message, now);
      SetMigrationCondition(C.PraxisCutoverReady, false, C.CutoverNotReady, message, now);
      if priorWarning == C.Empty {
        SetMigrationCondition(C.SoftRollbackAvailable, false, C.NotRequested, message, now);
      }
    }

    method ApplyPreflightFailure(error: C.Message, generation: int, now: int)
      modifies this`migration, status
      ensures State() == M.ApplyPreflightFailure(old(State()), error, generation, now)
    {
      migration := Some(M.MigrationStatus(M.PreflightFailed, generation, "", "", error, C.SoftRollbackWarning));
      SetMigrationCondition(C.MigrationPreflightReady, false, C.PreflightFailed, error, now);
      SetMigrationCondition(C.MigrationJobSucceeded, false, C.PreflightFailed, error, now);
      SetMigrationCondition(C.MigrationValidated, false, C.ValidationPending, error, now);
      SetMigrationCondition(C.PraxisCutoverReady, false, C.CutoverNotReady, C.CutoverBlocked, now);
      SetMigrationCondition(C.SoftRollbackAvailable, true, C.SoftRollbackOnly, C.SoftRollbackWarning, now);
    }

    method MarkMigrationWaiting(read: M.Job, attemptKey: string, message: C.Message, generation: int, now: int)
      modifies this`migration, status
      ensures State() == M.MarkMigrationWaiting(old(State()), read, attemptKey, message, generation, now)
    {
      migration := Some(M.MigrationStatus(M.Running, generation, attemptKey, read.name, message, C.SoftRollbackWarning));
      SetMigrationCondition(C.MigrationJobSucceeded, false, C.JobPending, message, now);
      SetMigrationCondition(C.MigrationValidated, false, C.ValidationPending, message, now);
      SetMigrationCondition(C.PraxisCutoverReady, false, C.CutoverNotReady, C.CutoverBlocked, now);
      SetMigrationCondition(C.SoftRollbackAvailable, true, C.SoftRollbackOnly, C.SoftRollbackWarning, now);
    }

    method JobHasCondition(read: M.Job, t: M.JobConditionType) returns (found: bool)
      ensures found == M.HasCondition(read, t)
    {
      for i := 0 to |read.conditions|
        invariant forall j :: 0 <= j < i ==> !(read.conditions[j].ctype == t && read.conditions[j].isTrue)
      {
        if read.conditions[i].ctype == t && read.conditions[i].isTrue {
          return true;
        }
      }
      return false;
    }

    method FailureDetail(conditions: seq<M.JobCondition>) returns (detail: string)
      ensures detail == M.FailureDetail(conditions)
    {
      detail := "";
      for i := 0 to |conditions|
        invariant detail == "" && M.FailureDetail(conditions[i..]) == M.FailureDetail(conditions)
      {
        var condition := conditions[i];
        if condition.ctype == M.JobFailed && condition.isTrue {
          if condition.reason != "" {
            detail := detail + ": " + condition.reason;
          }
          if condition.message != "" {
            detail := detail + " (" + condition.message + ")";
          }
          break;
        }
      }
    }

    method ObserveMigrationJob(read: M.Job, attemptKey: string, generation: int, now: int)
      modifies this`migration, this`events, status
      ensures var o := M.ObserveMigrationJob(old(State()), read, attemptKey, generation, now);
        State() == o.status && events == old(events) + o.events
    {
      hide M.SetFlag, C.Set, C.Get, M.HasCondition, M.FailedMessage;
      var m := M.MigrationStatus(M.Running, generation, attemptKey, read.name, C.Empty, C.SoftRollbackWarning);
      SetMigrationCondition(C.SoftRollbackAvailable, true, C.SoftRollbackOnly, C.SoftRollbackWarning, now);
      var complete := JobHasCondition(read, M.Complete);
      var failed := JobHasCondition(read, M.JobFailed);
      if complete {
        m := ApplyMigrationJobComplete(m, read, now);
      } else if failed {
        m := ApplyMigrationJobFailed(m, read, now);
      } else {
        var active := read.active > 0;
        m := m.(message := if active then C.JobIsActive(read.name) else C.JobAwaitsCompletion(read.name));
        SetMigrationCondition(C.MigrationJobSucceeded, false, if active then C.JobRunning else C.JobPending, m.message, now);
        SetMigrationCondition(C.MigrationValidated, false, C.ValidationPending, m.message, now);
        SetMigrationCondition(C.PraxisCutoverReady, false, C.CutoverNotReady, C.CutoverBlocked, now);
      }
      migration := Some(m);
    }

    method ApplyMigrationJobComplete(m: M.MigrationStatus, read: M.Job, now: int) returns (after: M.MigrationStatus)
      modifies this`events, status
      ensures var message := C.JobCompleted(read.name);
        && after == m.(phase := M.Validated, message := message)
        && status.conditions == M.SetOutcome(old(status.conditions), true, C.JobSucceeded, C.Validated, C.CutoverReady,
                                             message, C.CutoverMayProceed, now)
        && events == old(events) + if M.CutoverAnnounced(old(status.conditions)) then []
                                   else [M.Event(false, C.CutoverReady, message)]
    {
      var alreadyReady := M.CutoverAnnounced(status.conditions);
      after := m.(phase := M.Validated, message := C.JobCompleted(read.name));
      SetMigrationCondition(C.MigrationJobSucceeded, true, C.JobSucceeded, after.message, now);
      SetMigrationCondition(C.MigrationValidated, true, C.Validated, after.message, now);
      SetMigrationCondition(C.PraxisCutoverReady, true, C.CutoverReady, C.CutoverMayProceed, now);
      if !alreadyReady {
        EmitMigrationEvent(false, C.CutoverReady, after.message);
      }
    }

    method ApplyMigrationJobFailed(m: M.MigrationStatus, read: M.Job, now: int) returns (after: M.MigrationStatus)
      modifies this`events, status
      ensures var message := M.FailedMessage(read);
        && after == m.(phase := M.Failed, message := message)
        && status.conditions == M.SetOutcome(old(status.conditions), false, C.JobFailed, C.ValidationFailed,
                                             C.CutoverNotReady, message, C.CutoverBlockedByFailure, now)
        && events == old(events) + if M.FailureAnnounced(old(status.conditions)) then []
                                   else [M.Event(true, C.JobFailed, message)]
    {
      var detail := FailureDetail(read.conditions);
      after := m.(phase := M.Failed, message := C.JobHasFailed(read.name, detail));
      var alreadyFailed := M.FailureAnnounced(status.conditions);
      SetMigrationCondition(C.MigrationJobSucceeded, false, C.JobFailed, after.message, now);
      SetMigrationCondition(C.MigrationValidated, false, C.ValidationFailed, after.message, now);
      SetMigrationCondition(C.PraxisCutoverReady, false, C.CutoverNotReady, C.CutoverBlockedByFailure, now);
      if !alreadyFailed {
        EmitMigrationEvent(true, C.JobFailed, after.message);
      }
    }

    method DeleteMigrationJob(inputs: M.Inputs) returns (ok: bool)
      modifies this`job
      ensures (job, ok) == M.DeleteMigrationJob(old(job), inputs)
    {
      if !inputs.jobReadable {
        return false;
      }
      if job.None? || job.value.terminating {
        return true;
      }
      if !job.value.owned {
        return false;
      }
      ok := DeleteMigrationJobObject(inputs);
    }

    /** Foreground deletion: the object stays, terminating, until its dependents are gone. */
    method DeleteMigrationJobObject(inputs: M.Inputs) returns (ok: bool)
      requires job.Some?
      modifies this`job
      ensures ok == inputs.deleteSucceeds
      ensures job == if ok then Some(old(job).value.(terminating := true)) else old(job)
    {
      ok := inputs.deleteSucceeds;
      if ok {
        job := Some(job.value.(terminating := true));
      }
    }

    method ReconcileExistingMigrationJob(inputs: M.Inputs, attemptKey: string)
      returns (read: Option<M.Job>, ok: bool)
      requires job.Some?
      modifies this`job
      ensures var e := M.ReconcileExistingMigrationJob(old(job).value, inputs, attemptKey);
        job == e.job && read == e.read && ok == e.ok && e.events == []
    {
      var existing := job.value;
      if !existing.owned {
        return None, false;
      }
      if existing.terminating {
        return Some(existing), true;
      }
      if existing.attempt != attemptKey {
        var complete := JobHasCondition(existing, M.Complete);
        if complete {
          return Some(existing), true;
        }
        var deleted := DeleteMigrationJobObject(inputs);
        if !deleted {
          return None, false;
        }
      }
      return Some(existing), true;
    }

    method CreateMigrationJob(inputs: M.Inputs, attemptKey: string) returns (read: Option<M.Job>, ok: bool)
      requires job.None?
      modifies this`job, this`events
      ensures var e := M.CreateMigrationJob(inputs, attemptKey);
        job == e.job && read == e.read && ok == e.ok && events == old(events) + e.events
    {
      var created := M.NewJob(inputs, attemptKey);
      match inputs.create
      case Created =>
        job := Some(created);
        EmitMigrationEvent(false, C.JobPending, C.JobCreatedFor(created.name, attemptKey));
        return job, true;
      case AlreadyExists(seen) =>
        job := seen;
        if seen.None? || !seen.value.owned {
          return None, false;
        }
        return seen, true;
      case CreateFailed =>
        return None, false;
    }

    method EnsureMigrationJob(inputs: M.Inputs, attemptKey: string) returns (read: Option<M.Job>, ok: bool)
      modifies this`job, this`events
      ensures var e := M.EnsureMigrationJob(State(), old(job), inputs, attemptKey);
        job == e.job && read == e.read && ok == e.ok && events == old(events) + e.events
    {
      if !inputs.jobReadable {
        return None, false;
      }
      if job.Some? {
        read, ok := ReconcileExistingMigrationJob(inputs, attemptKey);
        return;
      }
      if migration.Some? && migration.value.phase == M.Validated && migration.value.attemptKey == attemptKey {
        return None, true;
      }
      if migration.Some? && migration.value.phase == M.Validated {
        return None, true;
      }
      read, ok := CreateMigrationJob(inputs, attemptKey);
    }

    method HandleMigrationNotRequested(inputs: M.Inputs) returns (ok: bool)
      modifies this`migration, this`job, status
      ensures var o := M.HandleNotRequested(old(State()), old(job), inputs);
        State() == o.status && job == o.job && ok == o.ok && o.events == []
    {
      hide M.SetFlag, M.ClearMigrationState, M.WarnOnDisable, M.HasMigrationHistory, M.DeleteMigrationJob;
      ok := DeleteMigrationJob(inputs);
      if !ok {
        return;
      }
      var history := HasMigrationHistory();
      if !history {
        return;
      }
      WarnSoftRollbackOnPraxisDisable(inputs.now);
      ClearMigrationState(C.NotOptedIn, inputs.now);
    }

    method ReconcileMigration(inputs: M.Inputs) returns (ok: bool)
      modifies this`migration, this`job, this`events, status
      ensures var o := M.ReconcileMigration(old(State()), old(job), inputs);
        State() == o.status && job == o.job && ok == o.ok && events == old(events) + o.events
    {
      hide M.ObserveMigrationJob, M.MarkMigrationWaiting, M.HasCondition;
      hide M.SetFlag, M.HandleNotRequested, M.EnsureMigrationJob, M.ApplyPreflightFailure, M.EnsureSoftRollbackWarning;
      if !M.IsMigrationRequested(inputs.praxisMode) {
        ok := HandleMigrationNotRequested(inputs);
        return;
      }
      EnsureSoftRollbackWarning(inputs.now);
      if inputs.preflightError.Some? {
        var error := inputs.preflightError.value;
        ApplyPreflightFailure(error, inputs.generation, inputs.now);
        EmitMigrationEvent(true, C.PreflightFailed, error);
        return true;
      }
      SetMigrationCondition(C.MigrationPreflightReady, true, C.PreflightPassed, C.ChecksPassed, inputs.now);
      if inputs.attemptKey.None? {
        return false;
      }
      var attemptKey := inputs.attemptKey.value;
      var read;
      read, ok := EnsureMigrationJob(inputs, attemptKey);
      if read.None? {
        return;
      }
      if !M.IsCurrent(read.value, attemptKey) {
        var complete := JobHasCondition(read.value, M.Complete);
        if !read.value.terminating && complete {
          ObserveMigrationJob(read.value, read.value.attempt, inputs.generation, inputs.now);
          return true;
        }
        MarkMigrationWaiting(read.value, attemptKey, C.WaitingForPreviousJob, inputs.generation, inputs.now);
        return true;
      }
      ObserveMigrationJob(read.value, attemptKey, inputs.generation, inputs.now);
      return true;
    }
  }
}
