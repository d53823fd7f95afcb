/** Whole-run properties of the migration state machine. A run interleaves reconciles with an
    environment that may replace the Job by any other, or remove it, and with the other writers
    of the condition list. */
module MigrationRuns {
  import opened Prelude
  import opened Migration
  import C = Conditions

  datatype System = System(status: Status, job: Option<Job>, events: seq<Event>)

  /** A reconcile whose status write is lost (`persisted` false) still acts on the Job and emits. */
  datatype Step =
    | Reconcile(inputs: Inputs, persisted: bool)
    | JobBecomes(job: Option<Job>)
    | OtherConditionSet(name: string, status: C.ConditionStatus, reason: C.Reason, message: C.Message, now: int)

  const START := System(Status(None, []), None, [])

  function Next(s: System, step: Step): System {
    match step
    case Reconcile(inputs, persisted) =>
      var outcome := ReconcileMigration(s.status, s.job, inputs);
      System(if persisted then outcome.status else s.status, outcome.job, s.events + outcome.events)
    case JobBecomes(job) => s.(job := job)
    case OtherConditionSet(name, status, reason, message, now) =>
      s.(status := s.status.(conditions :=
        C.Set(s.status.conditions, C.Condition(C.Other(name), status, reason, message, now))))
  }

  function Run(steps: seq<Step>): System {
    if steps == [] then START else Next(Run(steps[..|steps| - 1]), steps[|steps| - 1])
  }

  // ---------------------------------------------------------------------------
  // The cutover invariant.
  // ---------------------------------------------------------------------------

  predicate CutoverReady(s: Status) {
    C.IsTrue(s.conditions, C.PraxisCutoverReady)
  }

  /** The Job a reconcile with these inputs may look at. */
  function JobRead(job: Option<Job>, inputs: Inputs): Option<Job> {
    if job.Some? then job else if inputs.create.AlreadyExists? then inputs.create.seen else None
  }

  /** The reconcile gets as far as looking at a Job, and that Job is owned, live and Complete. */
  predicate ObservesComplete(s: Status, job: Option<Job>, inputs: Inputs) {
    && Proceeds(inputs)
    && (job.None? ==> !AlreadyValidated(s))
    && var read := JobRead(job, inputs);
       read.Some? && read.value.owned && !read.value.terminating && HasCondition(read.value, Complete)
  }

  /** Attempt keys of the Jobs that reconciles of the run have observed as Complete. */
  function SeenComplete(steps: seq<Step>): set<string> {
    if steps == [] then {}
    else
      var step := steps[|steps| - 1];
      var seen := SeenComplete(steps[..|steps| - 1]);
      if step.Reconcile? then Witnessed(seen, Run(steps[..|steps| - 1]), step.inputs) else seen
  }

  predicate ConditionsAgree(s: Status) {
    && (CutoverReady(s) <==> C.IsTrue(s.conditions, C.MigrationValidated))
    && (CutoverReady(s) <==> C.IsTrue(s.conditions, C.MigrationJobSucceeded))
  }

  /** The three success conditions agree; when true the phase is Validated and the cutover was
      announced; and a Validated phase carries the key of an owned Job that was observed Complete. */
  predicate CutoverInvariant(s: Status, seen: set<string>) {
    && ConditionsAgree(s)
    && (CutoverReady(s) ==> AlreadyValidated(s) && CutoverAnnounced(s.conditions))
    && (AlreadyValidated(s) ==> s.migration.value.attemptKey in seen)
  }

  lemma OutcomeFlags(s: seq<C.Condition>, on: bool, job: C.Reason, validation: C.Reason, cutover: C.Reason,
                     message: C.Message, cutoverMessage: C.Message, now: int)
    ensures var after := SetOutcome(s, on, job, validation, cutover, message, cutoverMessage, now);
      && C.IsTrue(after, C.MigrationJobSucceeded) == on
      && C.IsTrue(after, C.MigrationValidated) == on
      && C.IsTrue(after, C.PraxisCutoverReady) == on
      && C.Get(after, C.PraxisCutoverReady).value.reason == cutover
      && C.Get(after, C.SoftRollbackAvailable) == C.Get(s, C.SoftRollbackAvailable)
  {
    hide SetFlag, C.Set;
  }

  /** Observing a Job: Validated exactly when it is Complete, and the conditions say so. */
  lemma ObservationFlags(s: Status, job: Job, key: string, generation: int, now: int)
    ensures var after := ObserveMigrationJob(s, job, key, generation, now).status;
      && ConditionsAgree(after)
      && (CutoverReady(after) <==> HasCondition(job, Complete))
      && (AlreadyValidated(after) <==> HasCondition(job, Complete))
      && (CutoverReady(after) ==> CutoverAnnounced(after.conditions))
      && after.migration.Some? && after.migration.value.attemptKey == key
      && after.migration.value.softRollbackWarning == C.SoftRollbackWarning
      && C.IsTrue(after.conditions, C.SoftRollbackAvailable)
  {
    hide SetFlag, C.Set, C.Get;
    var c := SetRollback(s.conditions, now);
    if HasCondition(job, Complete) {
      var message := C.JobCompleted(job.name);
      OutcomeFlags(c, true, C.JobSucceeded, C.Validated, C.CutoverReady, message,
                   C.CutoverMayProceed, now);
    } else if HasCondition(job, JobFailed) {
      OutcomeFlags(c, false, C.JobFailed, C.ValidationFailed, C.CutoverNotReady, FailedMessage(job),
                   C.CutoverBlockedByFailure, now);
    } else {
      var active := job.active > 0;
      var message := if active then C.JobIsActive(job.name) else C.JobAwaitsCompletion(job.name);
      OutcomeFlags(c, false, if active then C.JobRunning else C.JobPending, C.ValidationPending, C.CutoverNotReady,
                   message, C.CutoverBlocked, now);
    }
  }

  lemma WaitingFlags(s: Status, job: Job, key: string, message: C.Message, generation: int, now: int)
    ensures var after := MarkMigrationWaiting(s, job, key, message, generation, now);
      && ConditionsAgree(after) && !CutoverReady(after) && !AlreadyValidated(after)
      && C.IsTrue(after.conditions, C.SoftRollbackAvailable)
  {
    hide SetFlag, C.Set, C.Get;
    OutcomeFlags(s.conditions, false, C.JobPending, C.ValidationPending, C.CutoverNotReady, message, C.CutoverBlocked, now);
  }

  /** A Job is reported as validated exactly when it is Complete and not being deleted, and then
      under the key it is annotated with. */
  lemma ReportFlags(s: Status, job: Job, key: string, inputs: Inputs)
    ensures var after := ReportMigrationJob(s, job, key, inputs).status;
      var done := !job.terminating && HasCondition(job, Complete);
      && ConditionsAgree(after)
      && (CutoverReady(after) <==> done)
      && (AlreadyValidated(after) <==> done)
      && (done ==> CutoverAnnounced(after.conditions) && after.migration.value.attemptKey == job.attempt)
      && after.migration.Some?
      && after.migration.value.softRollbackWarning == C.SoftRollbackWarning
      && C.IsTrue(after.conditions, C.SoftRollbackAvailable)
  {
    hide SetFlag, C.Set, C.Get;
    hide ObserveMigrationJob;
    ObservationFlags(s, job, key, inputs.generation, inputs.now);
    ObservationFlags(s, job, job.attempt, inputs.generation, inputs.now);
    WaitingFlags(s, job, key, C.WaitingForPreviousJob, inputs.generation, inputs.now);
  }

  lemma PreflightFailureFlags(s: Status, error: C.Message, generation: int, now: int)
    ensures var after := ApplyPreflightFailure(s, error, generation, now);
      && ConditionsAgree(after) && !CutoverReady(after) && !AlreadyValidated(after)
      && C.IsTrue(after.conditions, C.SoftRollbackAvailable)
  {
    hide SetFlag, C.Set, C.Get;
    var c1 := SetFlag(s.conditions, C.MigrationPreflightReady, false, C.PreflightFailed, error, now);
    OutcomeFlags(c1, false, C.PreflightFailed, C.ValidationPending, C.CutoverNotReady, error, C.CutoverBlocked, now);
  }

  /** Clearing keeps a Validated phase and its key, but never a true cutover. */
  lemma ClearFlags(s: Status, message: C.Message, now: int)
    ensures var after := ClearMigrationState(s, message, now);
      && ConditionsAgree(after) && !CutoverReady(after) && after.migration.Some?
      && (AlreadyValidated(after) <==> AlreadyValidated(s))
      && (AlreadyValidated(s) ==> after.migration.value.attemptKey == s.migration.value.attemptKey)
      && (s.migration.Some? && s.migration.value.softRollbackWarning != C.Empty ==>
            && after.migration.value.softRollbackWarning == s.migration.value.softRollbackWarning
            && C.Get(after.conditions, C.SoftRollbackAvailable) == C.Get(s.conditions, C.SoftRollbackAvailable))
  {
    hide SetFlag, C.Set, C.Get;
    var c1 := SetFlag(s.conditions, C.MigrationPreflightReady, false, C.NotRequested, message, now);
    OutcomeFlags(c1, false, C.NotRequested, C.NotRequested, C.CutoverNotReady, message, message, now);
  }

  /** What a reconcile of a requested migration goes on with when it reports on a Job at all. */
  lemma ReadJobIsOwned(s: Status, job: Option<Job>, inputs: Inputs, key: string)
    ensures var e := EnsureMigrationJob(s, job, inputs, key);
      e.read.Some? ==>
        && e.read.value.owned
        && (HasCondition(e.read.value, Complete) ==> e.read == JobRead(job, inputs))
  {
  }

  /** `seen` with the key of the Job a reconcile observes as Complete. */
  function Witnessed(seen: set<string>, s: System, inputs: Inputs): set<string> {
    seen + if ObservesComplete(s.status, s.job, inputs) then {JobRead(s.job, inputs).value.attempt} else {}
  }

  lemma DisabledKeepsCutoverInvariant(s: Status, job: Option<Job>, inputs: Inputs, seen: set<string>)
    requires CutoverInvariant(s, seen)
    ensures CutoverInvariant(HandleNotRequested(s, job, inputs).status, seen)
  {
    hide SetFlag, C.Get, C.Set, ClearMigrationState;
    ClearFlags(WarnOnDisable(s, inputs.now), C.NotOptedIn, inputs.now);
  }

  /** A report validates exactly when the reconcile observes a Complete Job, under that Job's key. */
  lemma ReportOfEnsuredJob(s: Status, job: Option<Job>, inputs: Inputs, key: string)
    requires Proceeds(inputs) && inputs.attemptKey == Some(key)
    requires EnsureMigrationJob(s, job, inputs, key).read.Some?
    ensures var read := EnsureMigrationJob(s, job, inputs, key).read.value;
      && (!read.terminating && HasCondition(read, Complete) <==> ObservesComplete(s, job, inputs))
      && (ObservesComplete(s, job, inputs) ==> JobRead(job, inputs) == Some(read))
  {
    ReadJobIsOwned(s, job, inputs, key);
  }

  lemma ReconcileKeepsCutoverInvariant(s: System, inputs: Inputs, seen: set<string>)
    requires CutoverInvariant(s.status, seen)
    ensures CutoverInvariant(ReconcileMigration(s.status, s.job, inputs).status, Witnessed(seen, s, inputs))
  {
    hide SetFlag, C.Get, C.Set;
    hide HandleNotRequested, EnsureMigrationJob, ReportMigrationJob, ApplyPreflightFailure, HasCondition;
    if !IsMigrationRequested(inputs.praxisMode) {
      DisabledKeepsCutoverInvariant(s.status, s.job, inputs, seen);
    } else {
      var warned := EnsureSoftRollbackWarning(s.status, inputs.now);
      if inputs.preflightError.Some? {
        PreflightFailureFlags(warned, inputs.preflightError.value, inputs.generation, inputs.now);
      } else if inputs.attemptKey.Some? {
        var ready := PreflightPassedStatus(warned, inputs.now);
        var key := inputs.attemptKey.value;
        assert CutoverInvariant(ready, seen);
        assert AlreadyValidated(ready) == AlreadyValidated(s.status);
        if EnsureMigrationJob(ready, s.job, inputs, key).read.Some? {
          UnreadableEnsuresNothing(ready, s.job, inputs, key);
          ReportOfEnsuredJob(ready, s.job, inputs, key);
          ReportFlags(ready, EnsureMigrationJob(ready, s.job, inputs, key).read.value, key, inputs);
        }
      }
    }
  }

  lemma UnreadableEnsuresNothing(s: Status, job: Option<Job>, inputs: Inputs, key: string)
    ensures EnsureMigrationJob(s, job, inputs, key).read.Some? ==> inputs.jobReadable
  {
  }

  lemma StepKeepsCutoverInvariant(s: System, step: Step, seen: set<string>)
    requires CutoverInvariant(s.status, seen)
    ensures CutoverInvariant(Next(s, step).status, if step.Reconcile? then Witnessed(seen, s, step.inputs) else seen)
  {
    hide ReconcileMigration, C.Get, C.Set;
    match step
    case Reconcile(inputs, _) => ReconcileKeepsCutoverInvariant(s, inputs, seen);
    case JobBecomes(_) =>
    case OtherConditionSet(name, status, reason, message, now) =>
      OtherConditionIsInvisible(s.status.conditions, name, status, reason, message, now);
  }

  lemma {:induction false} CutoverInvariantHolds(steps: seq<Step>)
    ensures CutoverInvariant(Run(steps).status, SeenComplete(steps))
  {
    hide Next, Witnessed;
    if steps != [] {
      CutoverInvariantHolds(steps[..|steps| - 1]);
      StepKeepsCutoverInvariant(Run(steps[..|steps| - 1]), steps[|steps| - 1], SeenComplete(steps[..|steps| - 1]));
    }
  }

  lemma OtherConditionIsInvisible(
    conditions: seq<C.Condition>, name: string, status: C.ConditionStatus, reason: C.Reason, message: C.Message, now: int)
    ensures forall t: C.ConditionType :: !t.Other? ==>
      C.Get(C.Set(conditions, C.Condition(C.Other(name), status, reason, message, now)), t) == C.Get(conditions, t)
  {
    forall t: C.ConditionType | !t.Other?
      ensures C.Get(C.Set(conditions, C.Condition(C.Other(name), status, reason, message, now)), t) == C.Get(conditions, t)
    {
      C.GetAfterSet(conditions, C.Condition(C.Other(name), status, reason, message, now), t);
    }
  }

  // ---------------------------------------------------------------------------
  // Cutover events are the rising edges of the condition.
  // ---------------------------------------------------------------------------

  function CutoverEvents(events: seq<Event>): nat {
    if events == [] then 0
    else CutoverEvents(events[..|events| - 1]) + if events[|events| - 1].reason == C.CutoverReady then 1 else 0
  }

  /** A reconcile computes a true condition from a status where it was not true. */
  predicate Rises(s: System, step: Step) {
    step.Reconcile? && !CutoverReady(s.status) && CutoverReady(ReconcileMigration(s.status, s.job, step.inputs).status)
  }

  function RisingEdges(steps: seq<Step>): nat {
    if steps == [] then 0
    else RisingEdges(steps[..|steps| - 1])
         + if Rises(Run(steps[..|steps| - 1]), steps[|steps| - 1]) then 1 else 0
  }

  lemma CutoverEventsAppend(a: seq<Event>, b: seq<Event>)
    ensures CutoverEvents(a + b) == CutoverEvents(a) + CutoverEvents(b)
  {
    if b == [] {
      assert a + b == a;
    } else {
      CutoverEventsAppend(a, b[..|b| - 1]);
      assert (a + b)[..|a + b| - 1] == a + b[..|b| - 1];
    }
  }

  lemma OneEvent(e: Event)
    ensures CutoverEvents([e]) == if e.reason == C.CutoverReady then 1 else 0
  {
    assert [e][..0] == [];
  }

  lemma EnsuringAnnouncesNoCutover(s: Status, job: Option<Job>, inputs: Inputs, key: string)
    ensures CutoverEvents(EnsureMigrationJob(s, job, inputs, key).events) == 0
  {
    var events := EnsureMigrationJob(s, job, inputs, key).events;
    if events != [] {
      OneEvent(events[0]);
    }
  }

  lemma DisabledNeverRises(s: Status, job: Option<Job>, inputs: Inputs)
    ensures HandleNotRequested(s, job, inputs).events == []
    ensures CutoverReady(HandleNotRequested(s, job, inputs).status) ==> CutoverReady(s)
  {
    hide SetFlag, C.Get, C.Set, ClearMigrationState;
    ClearFlags(WarnOnDisable(s, inputs.now), C.NotOptedIn, inputs.now);
  }

  lemma EventsOfOneReconcile(s: System, inputs: Inputs)
    requires CutoverReady(s.status) ==> CutoverAnnounced(s.status.conditions)
    ensures CutoverEvents(ReconcileMigration(s.status, s.job, inputs).events)
         == if Rises(s, Reconcile(inputs, true)) then 1 else 0
  {
    hide SetFlag, C.Get, C.Set;
    hide HandleNotRequested, EnsureMigrationJob, ReportMigrationJob, ApplyPreflightFailure;
    var outcome := ReconcileMigration(s.status, s.job, inputs);
    if !IsMigrationRequested(inputs.praxisMode) {
      DisabledNeverRises(s.status, s.job, inputs);
    } else {
      var warned := EnsureSoftRollbackWarning(s.status, inputs.now);
      if inputs.preflightError.Some? {
        PreflightFailureFlags(warned, inputs.preflightError.value, inputs.generation, inputs.now);
        OneEvent(outcome.events[0]);
      } else if inputs.attemptKey.Some? {
        var ready := PreflightPassedStatus(warned, inputs.now);
        var key := inputs.attemptKey.value;
        var ensured := EnsureMigrationJob(ready, s.job, inputs, key);
        EnsuringAnnouncesNoCutover(ready, s.job, inputs, key);
        if ensured.read.Some? {
          CutoverEventsAppend(ensured.events, ReportMigrationJob(ready, ensured.read.value, key, inputs).events);
          ReportEvents(ready, ensured.read.value, key, inputs);
        }
      }
    }
  }

  lemma ReportEvents(s: Status, job: Job, key: string, inputs: Inputs)
    requires CutoverReady(s) ==> CutoverAnnounced(s.conditions)
    ensures var report := ReportMigrationJob(s, job, key, inputs);
      CutoverEvents(report.events) == if !CutoverReady(s) && CutoverReady(report.status) then 1 else 0
  {
    hide SetFlag, C.Get, C.Set;
    var report := ReportMigrationJob(s, job, key, inputs);
    ReportFlags(s, job, key, inputs);
    if report.events != [] {
      OneEvent(report.events[0]);
    }
  }

  lemma {:induction false} CutoverEventsAreRisingEdges(steps: seq<Step>)
    ensures CutoverEvents(Run(steps).events) == RisingEdges(steps)
  {
    hide ReconcileMigration, C.Get;
    if steps != [] {
      var earlier, step := steps[..|steps| - 1], steps[|steps| - 1];
      CutoverEventsAreRisingEdges(earlier);
      if step.Reconcile? {
        var s := Run(earlier);
        CutoverInvariantHolds(earlier);
        EventsOfOneReconcile(s, step.inputs);
        CutoverEventsAppend(s.events, ReconcileMigration(s.status, s.job, step.inputs).events);
        assert Rises(s, step) == Rises(s, Reconcile(step.inputs, true));
      }
    }
  }

  /** The condition as it is stored becomes true in this step. */
  predicate StoredRise(s: System, step: Step) {
    !CutoverReady(s.status) && CutoverReady(Next(s, step).status)
  }

  /** The rising edges of the condition itself. */
  function StoredEdges(steps: seq<Step>): nat {
    if steps == [] then 0
    else StoredEdges(steps[..|steps| - 1])
         + if StoredRise(Run(steps[..|steps| - 1]), steps[|steps| - 1]) then 1 else 0
  }

  /** A reconcile computes a rise, but its status write is lost. */
  predicate LosesRise(s: System, step: Step) {
    Rises(s, step) && !step.persisted
  }

  function LostRises(steps: seq<Step>): nat {
    if steps == [] then 0
    else LostRises(steps[..|steps| - 1])
         + if LosesRise(Run(steps[..|steps| - 1]), steps[|steps| - 1]) then 1 else 0
  }

  lemma ARiseIsStoredOrLost(s: System, step: Step)
    ensures StoredRise(s, step) <==> Rises(s, step) && !LosesRise(s, step)
  {
    hide ReconcileMigration, C.Get, C.Set;
    match step
    case Reconcile(_, _) =>
    case JobBecomes(_) =>
    case OtherConditionSet(name, status, reason, message, now) =>
      OtherConditionIsInvisible(s.status.conditions, name, status, reason, message, now);
  }

  /** Over any run the cutover events number the rising edges of the stored condition and the rises
      whose write was lost. */
  lemma {:induction false} CutoverEventsAreEdgesAndLostRises(steps: seq<Step>)
    ensures CutoverEvents(Run(steps).events) == StoredEdges(steps) + LostRises(steps)
  {
    CutoverEventsAreRisingEdges(steps);
    RisesAreStoredOrLost(steps);
  }

  lemma {:induction false} RisesAreStoredOrLost(steps: seq<Step>)
    ensures RisingEdges(steps) == StoredEdges(steps) + LostRises(steps)
  {
    hide Run, Rises, StoredRise, LosesRise;
    if steps != [] {
      RisesAreStoredOrLost(steps[..|steps| - 1]);
      ALostRiseIsARise(Run(steps[..|steps| - 1]), steps[|steps| - 1]);
      ARiseIsStoredOrLost(Run(steps[..|steps| - 1]), steps[|steps| - 1]);
    }
  }

  lemma ALostRiseIsARise(s: System, step: Step)
    ensures LosesRise(s, step) ==> Rises(s, step)
  {
  }

  /** So the events are exactly the rising edges of the condition if and only if no write of a rise
      is lost. */
  lemma EventsAreEdgesUnlessARiseIsLost(steps: seq<Step>)
    ensures CutoverEvents(Run(steps).events) == StoredEdges(steps) <==>
      forall i :: 0 <= i < |steps| ==> !LosesRise(Run(steps[..i]), steps[i])
  {
    CutoverEventsAreEdgesAndLostRises(steps);
    NoRiseLost(steps);
  }

  lemma {:induction false} NoRiseLost(steps: seq<Step>)
    ensures LostRises(steps) == 0 <==> forall i :: 0 <= i < |steps| ==> !LosesRise(Run(steps[..i]), steps[i])
  {
    hide Run, LosesRise;
    if steps != [] {
      var earlier := steps[..|steps| - 1];
      NoRiseLost(earlier);
      assert forall i :: 0 <= i < |earlier| ==> earlier[..i] == steps[..i] && earlier[i] == steps[i];
    }
  }

  // ---------------------------------------------------------------------------
  // The soft-rollback warning is permanent.
  // ---------------------------------------------------------------------------

  /** Migration status present, warning present and condition true are one fact; before that
      there is no trace of a migration at all. */
  predicate RollbackInvariant(s: Status) {
    && (s.migration.Some? ==> s.migration.value.softRollbackWarning == C.SoftRollbackWarning)
    && (s.migration.Some? <==> C.IsTrue(s.conditions, C.SoftRollbackAvailable))
    && (s.migration.None? ==> forall i :: 0 <= i < |s.conditions| ==> s.conditions[i].ctype.Other?)
  }

  lemma DisabledKeepsRollbackInvariant(s: Status, job: Option<Job>, inputs: Inputs)
    requires RollbackInvariant(s)
    ensures var after := HandleNotRequested(s, job, inputs).status;
      RollbackInvariant(after) && (s.migration.Some? ==> after.migration.Some?)
  {
    hide SetFlag, C.Get, C.Set, ClearMigrationState;
    ClearFlags(WarnOnDisable(s, inputs.now), C.NotOptedIn, inputs.now);
  }

  lemma ReconcileKeepsRollbackInvariant(s: Status, job: Option<Job>, inputs: Inputs)
    requires RollbackInvariant(s)
    ensures var after := ReconcileMigration(s, job, inputs).status;
      && RollbackInvariant(after)
      && (s.migration.Some? || IsMigrationRequested(inputs.praxisMode) ==> after.migration.Some?)
  {
    hide SetFlag, C.Get, C.Set;
    hide HandleNotRequested, EnsureMigrationJob, ReportMigrationJob;
    if !IsMigrationRequested(inputs.praxisMode) {
      DisabledKeepsRollbackInvariant(s, job, inputs);
    } else {
      var warned := EnsureSoftRollbackWarning(s, inputs.now);
      if inputs.preflightError.Some? {
        PreflightFailureFlags(warned, inputs.preflightError.value, inputs.generation, inputs.now);
      } else if inputs.attemptKey.Some? {
        var ready := PreflightPassedStatus(warned, inputs.now);
        var ensured := EnsureMigrationJob(ready, job, inputs, inputs.attemptKey.value);
        if ensured.read.Some? {
          ReportFlags(ready, ensured.read.value, inputs.attemptKey.value, inputs);
        }
      }
    }
  }

  lemma StepKeepsRollbackInvariant(s: System, step: Step)
    requires RollbackInvariant(s.status)
    ensures RollbackInvariant(Next(s, step).status)
    ensures s.status.migration.Some? ==> Next(s, step).status.migration.Some?
  {
    hide ReconcileMigration;
    match step
    case Reconcile(inputs, _) => ReconcileKeepsRollbackInvariant(s.status, s.job, inputs);
    case JobBecomes(_) =>
    case OtherConditionSet(name, status, reason, message, now) =>
      OtherConditionIsInvisible(s.status.conditions, name, status, reason, message, now);
  }

  lemma {:induction false} RollbackWarningIsPermanent(steps: seq<Step>, n: nat)
    requires n <= |steps|
    ensures RollbackInvariant(Run(steps).status)
    ensures Run(steps[..n]).status.migration.Some? ==> Run(steps).status.migration.Some?
    decreases |steps|
  {
    hide Next;
    if n == |steps| {
      assert steps[..n] == steps;
    }
    if steps != [] {
      var earlier := steps[..|steps| - 1];
      RollbackWarningIsPermanent(earlier, if n < |steps| then n else |steps| - 1);
      if n < |steps| {
        assert earlier[..n] == steps[..n];
      }
      StepKeepsRollbackInvariant(Run(earlier), steps[|steps| - 1]);
    }
  }

  /** So clearing never reaches the branch that would set SoftRollbackAvailable to False. */
  lemma RollbackNeverWithdrawn(steps: seq<Step>, inputs: Inputs)
    requires HasMigrationHistory(Run(steps).status)
    ensures var s := WarnOnDisable(Run(steps).status, inputs.now);
      s.migration.Some? && s.migration.value.softRollbackWarning != C.Empty
  {
    hide Run;
    RollbackWarningIsPermanent(steps, 0);
  }
}
