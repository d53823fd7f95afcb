/** When a reconcile creates, deletes and reports Jobs; how a stale attempt is replaced; and what
    a Validated phase means for later reconciles. */
module MigrationDiscipline {
  import opened Prelude
  import opened Migration
  import opened MigrationRuns
  import C = Conditions

  // ---------------------------------------------------------------------------
  // One reconcile.
  // ---------------------------------------------------------------------------

  ghost predicate AnnouncesCreation(events: seq<Event>) {
    exists i :: 0 <= i < |events| && events[i].reason == C.JobPending
  }

  lemma ReportNeverAnnouncesCreation(s: Status, job: Job, key: string, inputs: Inputs)
    ensures !AnnouncesCreation(ReportMigrationJob(s, job, key, inputs).events)
  {
    hide SetFlag, C.Get;
  }

  lemma EnsuringCreates(s: Status, job: Option<Job>, inputs: Inputs, key: string)
    ensures var ensured := EnsureMigrationJob(s, job, inputs, key);
      && (AnnouncesCreation(ensured.events) <==>
            inputs.jobReadable && job.None? && !AlreadyValidated(s) && inputs.create.Created?)
      && (AnnouncesCreation(ensured.events) ==> ensured.job == Some(NewJob(inputs, key)))
  {
    var events := EnsureMigrationJob(s, job, inputs, key).events;
    if events != [] {
      assert events[0].reason == C.JobPending;
    }
  }

  lemma AnnouncedByEither(a: seq<Event>, b: seq<Event>)
    ensures AnnouncesCreation(a + b) <==> AnnouncesCreation(a) || AnnouncesCreation(b)
  {
    assert forall i :: 0 <= i < |a| ==> (a + b)[i] == a[i];
    assert forall i :: 0 <= i < |b| ==> (a + b)[|a| + i] == b[i];
  }

  /** A Job is created exactly when the checks passed, no Job of that name exists, the phase is
      not Validated and the API server accepts; the new Job carries the current key. */
  lemma CreationDiscipline(s: Status, job: Option<Job>, inputs: Inputs)
    ensures var after := ReconcileMigration(s, job, inputs);
      && (AnnouncesCreation(after.events) <==>
            Proceeds(inputs) && job.None? && !AlreadyValidated(s) && inputs.create.Created?)
      && (AnnouncesCreation(after.events) ==> after.job == Some(NewJob(inputs, inputs.attemptKey.value)))
  {
    hide SetFlag, C.Get, ClearMigrationState, ReportMigrationJob, EnsureMigrationJob;
    if IsMigrationRequested(inputs.praxisMode) && inputs.preflightError.None? && inputs.attemptKey.Some? {
      var key := inputs.attemptKey.value;
      var ready := PreflightPassedStatus(EnsureSoftRollbackWarning(s, inputs.now), inputs.now);
      var ensured := EnsureMigrationJob(ready, job, inputs, key);
      EnsuringCreates(ready, job, inputs, key);
      if ensured.read.Some? {
        var report := ReportMigrationJob(ready, ensured.read.value, key, inputs);
        ReportNeverAnnouncesCreation(ready, ensured.read.value, key, inputs);
        AnnouncedByEither(ensured.events, report.events);
      }
    }
  }

  /** What becomes of the Job: an absent one is there afterwards exactly when this reconcile creates
      it, or finds that it appeared meanwhile; one that is there stays, under the same key. */
  lemma JobAfterReconcile(s: Status, job: Option<Job>, inputs: Inputs)
    ensures var after := ReconcileMigration(s, job, inputs).job;
      && (job.None? ==>
            after == if !Proceeds(inputs) || AlreadyValidated(s) then None
                     else match inputs.create
                          case Created => Some(NewJob(inputs, inputs.attemptKey.value))
                          case AlreadyExists(seen) => seen
                          case CreateFailed => None)
      && (job.Some? ==>
            && after.Some? && after.value == job.value.(terminating := after.value.terminating)
            && (job.value.terminating ==> after.value.terminating))
  {
    hide SetFlag, C.Get, C.Set, ClearMigrationState, ReportMigrationJob, HasCondition;
  }

  /** A live Job is put into deletion exactly when it is owned and either migration is no longer
      requested, or it is an unfinished Job of another attempt. In particular a Complete Job is
      never deleted while migration is requested, and a Job owned by someone else never is. */
  lemma DeletionDiscipline(s: Status, job: Job, inputs: Inputs)
    requires !job.terminating
    ensures var after := ReconcileMigration(s, Some(job), inputs).job;
      && (after == Some(job) || after == Some(job.(terminating := true)))
      && (after == Some(job.(terminating := true)) <==>
            && job.owned && inputs.jobReadable && inputs.deleteSucceeds
            && (!IsMigrationRequested(inputs.praxisMode)
                || (Proceeds(inputs) && job.attempt != inputs.attemptKey.value && !HasCondition(job, Complete))))
  {
    hide SetFlag, ClearMigrationState, ReportMigrationJob;
  }

  /** Job name and key in the status stay or are cleared, and the phase is not promoted. */
  predicate ReportsNothingNew(before: Status, after: Status) {
    && (after.migration.Some? ==>
          var m := after.migration.value;
          && (m.jobName == "" || (before.migration.Some? && m.jobName == before.migration.value.jobName))
          && (m.attemptKey == "" || (before.migration.Some? && m.attemptKey == before.migration.value.attemptKey))
          && (m.phase in {Unset, Pending, PreflightFailed}
              || (before.migration.Some? && m.phase == before.migration.value.phase)))
    && (CutoverReady(after) ==> CutoverReady(before))
  }

  lemma DisablingReportsNothingNew(s: Status, job: Option<Job>, inputs: Inputs)
    ensures ReportsNothingNew(s, HandleNotRequested(s, job, inputs).status)
  {
    hide SetFlag, C.Get, C.Set, SetOutcome;
    ClearFlags(WarnOnDisable(s, inputs.now), C.NotOptedIn, inputs.now);
  }

  /** A Job owned by someone else is left in place, never enters the status, and causes no event
      other than that of a failed check; nor does one that is read back because it appeared before
      this reconcile could create its own. */
  lemma UnownedJobIsNeverReported(s: Status, job: Option<Job>, inputs: Inputs)
    requires JobRead(job, inputs).Some? && !JobRead(job, inputs).value.owned
    ensures var after := ReconcileMigration(s, job, inputs);
      && (job.Some? ==> after.job == job)
      && (job.None? ==> after.job in {None, JobRead(job, inputs)})
      && (forall e :: e in after.events ==> e.reason == C.PreflightFailed)
      && ReportsNothingNew(s, after.status)
  {
    hide SetFlag, C.Get, C.Set, SetOutcome, ReportMigrationJob, ClearMigrationState;
    DisablingReportsNothingNew(s, job, inputs);
    if inputs.preflightError.Some? {
      var warned := EnsureSoftRollbackWarning(s, inputs.now);
      PreflightFailureFlags(warned, inputs.preflightError.value, inputs.generation, inputs.now);
    }
  }

  /** The cutover condition becomes true exactly when the reconcile observes a Complete Job. */
  lemma CutoverRisesOnCompleteJob(s: Status, job: Option<Job>, inputs: Inputs)
    requires !CutoverReady(s)
    ensures CutoverReady(ReconcileMigration(s, job, inputs).status) <==> ObservesComplete(s, job, inputs)
  {
    hide SetFlag, C.Get, C.Set, ReportMigrationJob, ClearMigrationState, EnsureMigrationJob, HasCondition;
    var warned := EnsureSoftRollbackWarning(s, inputs.now);
    if !IsMigrationRequested(inputs.praxisMode) {
      ClearFlags(WarnOnDisable(s, inputs.now), C.NotOptedIn, inputs.now);
    } else if inputs.preflightError.Some? {
      PreflightFailureFlags(warned, inputs.preflightError.value, inputs.generation, inputs.now);
    } else if inputs.attemptKey.Some? {
      var ready := PreflightPassedStatus(warned, inputs.now);
      var key := inputs.attemptKey.value;
      var ensured := EnsureMigrationJob(ready, job, inputs, key);
      CompleteJobIsRead(ready, job, inputs, key);
      if ensured.read.Some? {
        UnreadableEnsuresNothing(ready, job, inputs, key);
        ReportOfEnsuredJob(ready, job, inputs, key);
        ReportFlags(ready, ensured.read.value, key, inputs);
      }
    }
  }

  lemma CompleteJobIsRead(s: Status, job: Option<Job>, inputs: Inputs, key: string)
    requires inputs.attemptKey == Some(key)
    ensures ObservesComplete(s, job, inputs) ==> EnsureMigrationJob(s, job, inputs, key).read.Some?
  {
    hide HasCondition;
  }

  /** A lost write does not go unnoticed: the next reconcile with the same inputs observes the same
      Complete Job from the same status and announces the cutover a second time. */
  lemma LostRiseIsAnnouncedAgain(steps: seq<Step>, inputs: Inputs)
    requires Rises(Run(steps), Reconcile(inputs, true))
    ensures var twice := steps + [Reconcile(inputs, false)] + [Reconcile(inputs, true)];
      && CutoverEvents(Run(twice).events) == CutoverEvents(Run(steps).events) + 2
      && StoredEdges(twice) == StoredEdges(steps) + 1
  {
    hide ReconcileMigration, C.Get, C.Set, ObservesComplete, CutoverReady;
    var s, lost, kept := Run(steps), Reconcile(inputs, false), Reconcile(inputs, true);
    var once, twice := steps + [lost], steps + [lost] + [kept];
    assert once[..|steps|] == steps && twice[..|once|] == once;
    CutoverRisesOnCompleteJob(s.status, s.job, inputs);
    ObservedJobStays(s.status, s.job, inputs);
    CutoverRisesOnCompleteJob(s.status, Run(once).job, inputs);
    assert Rises(s, lost) && Rises(Run(once), kept);
    CutoverEventsAreRisingEdges(steps);
    CutoverEventsAreRisingEdges(twice);
    assert RisingEdges(once) == RisingEdges(steps) + 1;
    assert StoredEdges(once) == StoredEdges(steps);
  }

  /** Observing a Complete Job leaves it in place to be observed again. */
  lemma ObservedJobStays(s: Status, job: Option<Job>, inputs: Inputs)
    requires ObservesComplete(s, job, inputs)
    ensures ObservesComplete(s, ReconcileMigration(s, job, inputs).job, inputs)
  {
    hide SetFlag, C.Get, C.Set, ClearMigrationState, ReportMigrationJob, HasCondition;
    JobAfterReconcile(s, job, inputs);
    if job.Some? && !job.value.terminating {
      DeletionDiscipline(s, job.value, inputs);
    }
  }

  /** Two reconciles of one Complete Job, the first of which loses its write: two events, one edge. */
  lemma OneEdgeTwoEvents(inputs: Inputs, job: Job)
    requires Proceeds(inputs) && job.owned && !job.terminating && HasCondition(job, Complete)
    ensures var run := [JobBecomes(Some(job)), Reconcile(inputs, false), Reconcile(inputs, true)];
      CutoverEvents(Run(run).events) == 2 && StoredEdges(run) == 1
  {
    hide ReconcileMigration, C.Set, HasCondition;
    var start := [JobBecomes(Some(job))];
    assert start[..0] == [];
    assert Run(start) == System(Status(None, []), Some(job), []);
    assert !CutoverReady(Run(start).status);
    CutoverRisesOnCompleteJob(Run(start).status, Some(job), inputs);
    LostRiseIsAnnouncedAgain(start, inputs);
    assert start + [Reconcile(inputs, false)] + [Reconcile(inputs, true)]
        == [JobBecomes(Some(job)), Reconcile(inputs, false), Reconcile(inputs, true)];
    assert StoredEdges(start) == 0;
  }

  // ---------------------------------------------------------------------------
  // A Validated phase is remembered.
  // ---------------------------------------------------------------------------

  /** The reconcile that takes a Validated phase away: the checks fail, or the owned Job it goes
      on with is terminating or not Complete. */
  predicate Demotes(job: Option<Job>, inputs: Inputs) {
    && IsMigrationRequested(inputs.praxisMode)
    && (inputs.preflightError.Some?
        || (Proceeds(inputs) && job.Some? && job.value.owned
            && (job.value.terminating
                || (!HasCondition(job.value, Complete)
                    && (job.value.attempt == inputs.attemptKey.value || inputs.deleteSucceeds)))))
  }

  lemma ValidatedIsKeptUnlessDemoted(s: Status, job: Option<Job>, inputs: Inputs)
    requires AlreadyValidated(s)
    ensures AlreadyValidated(ReconcileMigration(s, job, inputs).status) <==> !Demotes(job, inputs)
    ensures job.None? ==> ReconcileMigration(s, job, inputs).job.None?
  {
    hide SetFlag, C.Get, C.Set, ReportMigrationJob, ClearMigrationState;
    var warned := EnsureSoftRollbackWarning(s, inputs.now);
    if !IsMigrationRequested(inputs.praxisMode) {
      ClearFlags(WarnOnDisable(s, inputs.now), C.NotOptedIn, inputs.now);
    } else if inputs.preflightError.Some? {
      PreflightFailureFlags(warned, inputs.preflightError.value, inputs.generation, inputs.now);
    } else if inputs.attemptKey.Some? {
      var ready := PreflightPassedStatus(warned, inputs.now);
      var ensured := EnsureMigrationJob(ready, job, inputs, inputs.attemptKey.value);
      if ensured.read.Some? {
        ReportFlags(ready, ensured.read.value, inputs.attemptKey.value, inputs);
      }
    }
  }

  function RunFrom(s: System, steps: seq<Step>): System
    decreases |steps|
  {
    if steps == [] then s else RunFrom(Next(s, steps[0]), steps[1..])
  }

  /** No requested reconcile of the run sees a failing check or an unfinished Job. */
  predicate NeverDemoted(s: System, steps: seq<Step>)
    decreases |steps|
  {
    steps == []
    || ((steps[0].Reconcile? ==> !Demotes(s.job, steps[0].inputs)) && NeverDemoted(Next(s, steps[0]), steps[1..]))
  }

  function Creations(events: seq<Event>): nat {
    if events == [] then 0
    else Creations(events[..|events| - 1]) + if events[|events| - 1].reason == C.JobPending then 1 else 0
  }

  lemma CreationsAppend(a: seq<Event>, b: seq<Event>)
    requires !AnnouncesCreation(b)
    ensures Creations(a + b) == Creations(a)
  {
    if b == [] {
      assert a + b == a;
    } else {
      var init := b[..|b| - 1];
      assert !AnnouncesCreation(init) by {
        assert forall i :: 0 <= i < |init| ==> init[i] == b[i];
      }
      CreationsAppend(a, init);
      assert (a + b)[..|a + b| - 1] == a + init;
      assert b[|b| - 1].reason != C.JobPending;
    }
  }

  /** Through any disabling, enabling and key change, a validated migration creates no new Job
      and stays validated. */
  lemma {:induction false} ValidatedIsRemembered(s: System, steps: seq<Step>)
    requires AlreadyValidated(s.status)
    requires NeverDemoted(s, steps)
    ensures AlreadyValidated(RunFrom(s, steps).status)
    ensures Creations(RunFrom(s, steps).events) == Creations(s.events)
    decreases |steps|
  {
    hide ReconcileMigration, C.Set;
    if steps != [] {
      match steps[0] {
        case Reconcile(inputs, _) =>
          ValidatedIsKeptUnlessDemoted(s.status, s.job, inputs);
          CreationDiscipline(s.status, s.job, inputs);
          CreationsAppend(s.events, ReconcileMigration(s.status, s.job, inputs).events);
        case JobBecomes(_) =>
        case OtherConditionSet(_, _, _, _, _) =>
      }
      ValidatedIsRemembered(Next(s, steps[0]), steps[1..]);
    }
  }

  /** Steps after which a validated migration whose Job is gone is where it was: any reconcile that
      does not demote it, the other writers, and a cluster in which the Job does not reappear. */
  predicate LeavesItThere(step: Step) {
    match step
    case Reconcile(inputs, _) => !Demotes(None, inputs)
    case JobBecomes(job) => job.None?
    case OtherConditionSet(_, _, _, _, _) => true
  }

  /** The price of remembering: once validated with the Job gone, as after disabling, re-enabling
      neither recreates the Job nor raises the cutover condition, however often it runs, until a
      reconcile demotes the phase. */
  lemma {:induction false} ValidatedWithoutJobNeverCutsOver(s: System, steps: seq<Step>)
    requires AlreadyValidated(s.status) && s.job.None? && !CutoverReady(s.status)
    requires forall i :: 0 <= i < |steps| ==> LeavesItThere(steps[i])
    ensures var after := RunFrom(s, steps);
      AlreadyValidated(after.status) && after.job.None? && !CutoverReady(after.status)
    decreases |steps|
  {
    hide ReconcileMigration, C.Get, C.Set;
    if steps != [] {
      match steps[0] {
        case Reconcile(inputs, _) =>
          ValidatedIsKeptUnlessDemoted(s.status, None, inputs);
          CutoverRisesOnCompleteJob(s.status, None, inputs);
        case JobBecomes(_) =>
        case OtherConditionSet(name, status, reason, message, now) =>
          OtherConditionIsInvisible(s.status.conditions, name, status, reason, message, now);
      }
      ValidatedWithoutJobNeverCutsOver(Next(s, steps[0]), steps[1..]);
    }
  }

  /** Demotion is the way out: after one failing check the next good reconcile creates a Job, and
      its completion raises the condition. */
  lemma FailingCheckReopensCutover(s: System, failing: Inputs, good: Inputs, conditions: seq<JobCondition>)
    requires s.job.None? && !CutoverReady(s.status)
    requires IsMigrationRequested(failing.praxisMode) && failing.preflightError.Some?
    requires Proceeds(good) && good.create.Created?
    requires HasCondition(NewJob(good, good.attemptKey.value).(conditions := conditions), Complete)
    ensures var job := NewJob(good, good.attemptKey.value).(conditions := conditions);
      var created := Next(Next(s, Reconcile(failing, true)), Reconcile(good, true));
      && created.job == Some(NewJob(good, good.attemptKey.value)) && !CutoverReady(created.status)
      && CutoverReady(Next(Next(created, JobBecomes(Some(job))), Reconcile(good, true)).status)
  {
    hide ReconcileMigration, C.Get, C.Set, HasCondition, CutoverReady, AlreadyValidated;
    var demoted := Next(s, Reconcile(failing, true));
    FailingCheckDemotes(s.status, s.job, failing);
    var created := Next(demoted, Reconcile(good, true));
    JobAfterReconcile(demoted.status, None, good);
    CutoverRisesOnCompleteJob(demoted.status, None, good);
    var job := NewJob(good, good.attemptKey.value).(conditions := conditions);
    CutoverRisesOnCompleteJob(created.status, Some(job), good);
  }

  lemma FailingCheckDemotes(s: Status, job: Option<Job>, inputs: Inputs)
    requires IsMigrationRequested(inputs.praxisMode) && inputs.preflightError.Some?
    ensures var after := ReconcileMigration(s, job, inputs);
      after.job == job && !AlreadyValidated(after.status) && !CutoverReady(after.status)
  {
    hide SetFlag, C.Get, C.Set;
    PreflightFailureFlags(EnsureSoftRollbackWarning(s, inputs.now), inputs.preflightError.value,
                          inputs.generation, inputs.now);
  }

  // ---------------------------------------------------------------------------
  // A stale unfinished attempt converges to a Job with the current key.
  // ---------------------------------------------------------------------------

  /** Migration requested, checks passing, the key is `key`, and every API call succeeds. */
  predicate Calm(inputs: Inputs, key: string) {
    Proceeds(inputs) && inputs.attemptKey == Some(key) && inputs.deleteSucceeds && inputs.create.Created?
  }

  /** How the cluster may change the Job: its progress, the end of its deletion. */
  predicate JobEvolves(job: Option<Job>, after: Option<Job>) {
    || after == job
    || (job.Some? && job.value.terminating && after.None?)
    || (job.Some? && after.Some?
        && after.value == job.value.(conditions := after.value.conditions, active := after.value.active))
  }

  /** The key is stable: a reconcile that computes it computes `key`, and a Job that another reconcile
      created meanwhile carries it. Apart from that the migration may be disabled, the checks may
      fail, and any API call may fail. */
  predicate StableKey(inputs: Inputs, key: string) {
    && (inputs.attemptKey.Some? ==> inputs.attemptKey.value == key)
    && (inputs.create.AlreadyExists? && inputs.create.seen.Some? ==>
          var seen := inputs.create.seen.value; seen.owned && !seen.terminating && seen.attempt == key)
  }

  predicate Allowed(s: System, step: Step, key: string) {
    match step
    case Reconcile(inputs, _) => StableKey(inputs, key)
    case JobBecomes(job) => JobEvolves(s.job, job)
    case OtherConditionSet(_, _, _, _, _) => true
  }

  predicate AllowedRun(s: System, steps: seq<Step>, key: string)
    decreases |steps|
  {
    steps == [] || (Allowed(s, steps[0], key) && AllowedRun(Next(s, steps[0]), steps[1..], key))
  }

  /** A live Job with the current key, or one of another attempt that completed meanwhile. */
  predicate Settled(job: Option<Job>, key: string) {
    job.Some? && !job.value.terminating && (job.value.attempt == key || HasCondition(job.value, Complete))
  }

  /** Distance from a settled Job: stale and live, then terminating, then absent. */
  function Distance(job: Option<Job>, key: string): nat {
    if Settled(job, key) then 0
    else if job.None? then 1
    else if job.value.terminating then 2
    else 3
  }

  /** The step the current situation is waiting for: the end of a deletion, else one reconcile in which
      nothing fails. */
  predicate Helpful(s: System, step: Step, key: string) {
    match Distance(s.job, key)
    case 0 => false
    case 2 => step == JobBecomes(None)
    case _ => step.Reconcile? && Calm(step.inputs, key)
  }

  predicate Tracked(s: System) {
    !AlreadyValidated(s.status) && (s.job.Some? ==> s.job.value.owned)
  }

  lemma ReconcileTowardsSettled(s: Status, job: Option<Job>, inputs: Inputs, key: string)
    requires (job.Some? ==> job.value.owned) && !AlreadyValidated(s) && !Settled(job, key) && StableKey(inputs, key)
    ensures var after := ReconcileMigration(s, job, inputs);
      && Distance(after.job, key) <= Distance(job, key)
      && (Calm(inputs, key) && Distance(job, key) != 2 ==> Distance(after.job, key) < Distance(job, key))
      && (after.job.Some? ==> after.job.value.owned)
  {
    hide ReconcileMigration, HasCondition;
    JobAfterReconcile(s, job, inputs);
    if job.Some? && !job.value.terminating {
      DeletionDiscipline(s, job.value, inputs);
    }
  }

  /** Only a reconcile that observes a Complete Job makes the phase Validated. */
  lemma ValidatedOnlyByObserving(s: Status, job: Option<Job>, inputs: Inputs)
    requires !AlreadyValidated(s)
    ensures AlreadyValidated(ReconcileMigration(s, job, inputs).status) ==> ObservesComplete(s, job, inputs)
  {
    hide SetFlag, C.Get, C.Set, ReportMigrationJob, ClearMigrationState, EnsureMigrationJob, HasCondition;
    var warned := EnsureSoftRollbackWarning(s, inputs.now);
    if !IsMigrationRequested(inputs.praxisMode) {
      ClearFlags(WarnOnDisable(s, inputs.now), C.NotOptedIn, inputs.now);
    } else if inputs.preflightError.Some? {
      PreflightFailureFlags(warned, inputs.preflightError.value, inputs.generation, inputs.now);
    } else if inputs.attemptKey.Some? {
      var ready := PreflightPassedStatus(warned, inputs.now);
      var key := inputs.attemptKey.value;
      var ensured := EnsureMigrationJob(ready, job, inputs, key);
      if ensured.read.Some? {
        UnreadableEnsuresNothing(ready, job, inputs, key);
        ReportOfEnsuredJob(ready, job, inputs, key);
        ReportFlags(ready, ensured.read.value, key, inputs);
      }
    }
  }

  /** Observing a Complete Job leaves that Job, and so settles. */
  lemma ObservingSettles(s: Status, job: Option<Job>, inputs: Inputs, key: string)
    requires ObservesComplete(s, job, inputs)
    ensures Settled(ReconcileMigration(s, job, inputs).job, key)
  {
    hide ReconcileMigration, HasCondition;
    ObservedJobStays(s, job, inputs);
    JobAfterReconcile(s, job, inputs);
  }

  /** No allowed step leads away from a settled Job, and the helpful one leads closer. */
  lemma StepTowardsSettled(s: System, step: Step, key: string)
    requires Tracked(s) && !Settled(s.job, key) && Allowed(s, step, key)
    ensures var after := Next(s, step);
      && Distance(after.job, key) <= Distance(s.job, key)
      && (Helpful(s, step, key) ==> Distance(after.job, key) < Distance(s.job, key))
      && (Settled(after.job, key) || Tracked(after))
  {
    hide ReconcileMigration, C.Get, C.Set, ObservesComplete, StableKey, Calm;
    match step
    case Reconcile(inputs, _) =>
      ReconcileTowardsSettled(s.status, s.job, inputs, key);
      ValidatedOnlyByObserving(s.status, s.job, inputs);
      if ObservesComplete(s.status, s.job, inputs) {
        ObservingSettles(s.status, s.job, inputs, key);
      }
    case JobBecomes(_) =>
    case OtherConditionSet(_, _, _, _, _) =>
  }

  /** From every unsettled state an allowed step leads closer, so nothing but time stands in the way. */
  lemma HelpfulStepExists(s: System, inputs: Inputs, key: string) returns (step: Step)
    requires Tracked(s) && !Settled(s.job, key) && Calm(inputs, key)
    ensures Allowed(s, step, key) && Helpful(s, step, key)
    ensures Distance(Next(s, step).job, key) < Distance(s.job, key)
  {
    hide Next, HasCondition;
    step := if Distance(s.job, key) == 2 then JobBecomes(None) else Reconcile(inputs, true);
    StepTowardsSettled(s, step, key);
  }

  function HelpfulSteps(s: System, steps: seq<Step>, key: string): nat
    decreases |steps|
  {
    if steps == [] then 0
    else (if Helpful(s, steps[0], key) then 1 else 0) + HelpfulSteps(Next(s, steps[0]), steps[1..], key)
  }

  /** With a stable key and an unvalidated phase, as many helpful steps as the distance settle the Job,
      whatever fails, is disabled or is repaired in between. */
  lemma {:induction false} StaleAttemptConverges(s: System, steps: seq<Step>, key: string) returns (n: nat)
    requires Tracked(s) && AllowedRun(s, steps, key)
    requires HelpfulSteps(s, steps, key) >= Distance(s.job, key)
    ensures n <= |steps| && Settled(RunFrom(s, steps[..n]).job, key)
    decreases |steps|
  {
    hide Next;
    n := 0;
    if !Settled(s.job, key) {
      StepTowardsSettled(s, steps[0], key);
      var after := Next(s, steps[0]);
      var m := 0;
      if !Settled(after.job, key) {
        m := StaleAttemptConverges(after, steps[1..], key);
      }
      n := m + 1;
      assert steps[..n][1..] == steps[1..][..m];
    }
  }

  /** The stale Job is on its way out, or gone, or replaced: it can no longer complete. */
  predicate Replacing(job: Option<Job>, key: string) {
    job.None? || job.value.terminating || job.value.attempt == key
  }

  /** From there the only way to settle is a Job with the current key. */
  lemma {:induction false} ReplacedAttemptCarriesKey(s: System, steps: seq<Step>, key: string) returns (n: nat)
    requires Tracked(s) && AllowedRun(s, steps, key) && Replacing(s.job, key)
    requires HelpfulSteps(s, steps, key) >= Distance(s.job, key)
    ensures n <= |steps|
    ensures var job := RunFrom(s, steps[..n]).job; job.Some? && !job.value.terminating && job.value.attempt == key
    decreases |steps|
  {
    hide Next;
    n := 0;
    if !Settled(s.job, key) {
      StepTowardsSettled(s, steps[0], key);
      ReplacingStays(s, steps[0], key);
      var after := Next(s, steps[0]);
      var m := 0;
      if !Settled(after.job, key) {
        m := ReplacedAttemptCarriesKey(after, steps[1..], key);
      }
      n := m + 1;
      assert steps[..n][1..] == steps[1..][..m];
    }
  }

  lemma ReplacingStays(s: System, step: Step, key: string)
    requires Tracked(s) && !Settled(s.job, key) && Replacing(s.job, key) && Allowed(s, step, key)
    ensures Replacing(Next(s, step).job, key)
  {
    hide SetFlag, C.Get, C.Set, ReportMigrationJob, ClearMigrationState, HasCondition;
    match step
    case Reconcile(inputs, _) => JobAfterReconcile(s.status, s.job, inputs);
    case JobBecomes(_) =>
    case OtherConditionSet(_, _, _, _, _) =>
  }
}
