/** Generated ConfigMaps: their creation, the rollout onto them, and the clean-up that runs while
    the Deployment controller keeps moving references between the Deployment and ReplicaSets. */
module ConfigMapGC {
  import opened Prelude
  import R = Retention

  datatype Volume = Volume(name: string, configMap: Option<string>)

  /** A pod template: its volumes, and everything else about it as one opaque revision. */
  datatype Template = Template(revision: string, volumes: seq<Volume>)

  datatype ReplicaSet = ReplicaSet(name: string, template: Template)

  datatype ConfigMap = ConfigMap(created: int, config: string)

  const USER_CONFIG := "user-config"

  predicate MountsAt(template: Template, i: nat)
    requires i < |template.volumes|
  {
    var v := template.volumes[i];
    v.name == USER_CONFIG && v.configMap.Some? && v.configMap.value != ""
  }

  /** Names of the ConfigMaps the template mounts as its user-config volume. */
  function RuntimeRefs(template: Template): set<string> {
    set i | 0 <= i < |template.volumes| && MountsAt(template, i) :: template.volumes[i].configMap.value
  }

  function ReplicaSetRefs(replicaSets: set<ReplicaSet>): set<string> {
    set rs, name | rs in replicaSets && name in RuntimeRefs(rs.template) :: name
  }

  function DeploymentRefs(deployment: Option<Template>): set<string> {
    if deployment.Some? then RuntimeRefs(deployment.value) else {}
  }

  // ---------------------------------------------------------------------------
  // The step system.
  // ---------------------------------------------------------------------------

  /** How far the one reconcile in progress has come. */
  datatype Phase =
    | Idle
    | Ensured(target: string)
    | Deployed(target: string)
    | Listed(target: string, items: seq<R.GeneratedConfigMap>)
    | DeploymentRead(items: seq<R.GeneratedConfigMap>, protected: set<string>)
    | Deleting(loop: R.Loop)

  /** `generated` records every name the reconciler generated and the config it last stood for;
      `statusName` is the ConfigMap named in the status, empty when there is none. */
  datatype State = State(
    configMaps: map<string, ConfigMap>,
    deployment: Option<Template>,
    replicaSets: set<ReplicaSet>,
    statusName: string,
    generated: map<string, string>,
    phase: Phase)

  datatype Action =
    // The reconciler.
    | Ensure(name: string, config: string, now: int)
    | Deploy(template: Template)
    | DeployWithoutGenerated(template: Template)
    | ListConfigMaps(items: seq<R.GeneratedConfigMap>)
    | ReadDeployment
    | ListReplicaSets(sorted: seq<R.GeneratedConfigMap>)
    | DeleteNext(refused: bool)
    | Stop
    // The Deployment controller and its users.
    | NewReplicaSet(name: string)
    | Rollback(replicaSet: ReplicaSet)
    | Prune(replicaSet: ReplicaSet)
    | DeleteDeployment
    // The next reconcile may read any status: a write of it can be lost, or fall behind.
    | StatusNames(name: string)

  /** The list operation returns every generated ConfigMap once. */
  ghost predicate Enumerates(items: seq<R.GeneratedConfigMap>, configMaps: map<string, ConfigMap>) {
    && R.UniqueNames(items)
    && (forall i :: 0 <= i < |items| ==>
          items[i].name in configMaps && items[i].created == configMaps[items[i].name].created)
    && (forall name :: name in configMaps ==> exists i :: 0 <= i < |items| && items[i].name == name)
  }

  ghost predicate Enabled(s: State, a: Action) {
    match a
    case Ensure(_, _, _) => s.phase.Idle?
    case Deploy(template) => s.phase.Ensured? && RuntimeRefs(template) == {s.phase.target}
    // An override ConfigMap has been checked to exist; other user volumes are not generated.
    case DeployWithoutGenerated(template) =>
      s.phase.Idle? && forall name :: name in RuntimeRefs(template) && name in s.generated ==> name in s.configMaps
    case ListConfigMaps(items) => s.phase.Deployed? && Enumerates(items, s.configMaps)
    case ReadDeployment => s.phase.Listed?
    case ListReplicaSets(sorted) =>
      s.phase.DeploymentRead? && multiset(sorted) == multiset(s.phase.items) && R.OldestFirst(sorted)
    case DeleteNext(_) => s.phase.Deleting? && !R.Done(s.phase.loop)
    case Stop => true
    case NewReplicaSet(_) => s.deployment.Some?
    case Rollback(rs) => s.deployment.Some? && rs in s.replicaSets
    case Prune(rs) => rs in s.replicaSets && s.deployment != Some(rs.template)
    case DeleteDeployment => true
    case StatusNames(_) => true
  }

  /** The state after an enabled action; any other action changes nothing. */
  ghost function Apply(s: State, a: Action): State {
    if !Enabled(s, a) then s
    else
      match a
      case Ensure(name, config, now) =>
        if name in s.configMaps then
          if s.configMaps[name].config == config
          then s.(generated := s.generated[name := config], phase := Ensured(name))
          else s
        else
          s.(configMaps := s.configMaps[name := ConfigMap(now, config)],
             generated := s.generated[name := config],
             phase := Ensured(name))
      case Deploy(template) => s.(deployment := Some(template), phase := Deployed(s.phase.target))
      case DeployWithoutGenerated(template) => s.(deployment := Some(template), statusName := "")
      case ListConfigMaps(items) =>
        s.(statusName := s.phase.target,
           phase := if |items| <= R.CONFIG_MAP_RETENTION then Idle else Listed(s.phase.target, items))
      case ReadDeployment =>
        var named := if s.statusName != "" then {s.phase.target, s.statusName} else {s.phase.target};
        s.(phase := DeploymentRead(s.phase.items, named + DeploymentRefs(s.deployment)))
      case ListReplicaSets(sorted) =>
        s.(phase := Deleting(R.Start(sorted, s.phase.protected + ReplicaSetRefs(s.replicaSets))))
      case DeleteNext(refused) =>
        var name := s.phase.loop.items[s.phase.loop.next].name;
        var loop := R.LoopStep(s.phase.loop, if refused then {name} else {});
        s.(configMaps := if loop.removed == s.phase.loop.removed then s.configMaps else s.configMaps - {name},
           phase := Deleting(loop))
      case Stop => s.(phase := Idle)
      case NewReplicaSet(name) => s.(replicaSets := s.replicaSets + {ReplicaSet(name, s.deployment.value)})
      case Rollback(rs) => s.(deployment := Some(rs.template))
      case Prune(rs) => s.(replicaSets := s.replicaSets - {rs})
      case DeleteDeployment => s.(deployment := None)
      case StatusNames(name) => s.(statusName := name)
  }

  const EMPTY := State(map[], None, {}, "", map[], Idle)

  ghost function Run(actions: seq<Action>): State {
    if actions == [] then EMPTY else Apply(Run(actions[..|actions| - 1]), actions[|actions| - 1])
  }

  /** Every name mounted as user-config by the Deployment or a ReplicaSet. */
  function Mounted(s: State): set<string> {
    DeploymentRefs(s.deployment) + ReplicaSetRefs(s.replicaSets)
  }

  /** Every mounted generated ConfigMap exists and still holds the config it was generated for. */
  ghost predicate Safe(s: State) {
    forall name :: name in Mounted(s) && name in s.generated ==>
      name in s.configMaps && s.configMaps[name].config == s.generated[name]
  }

  /** The Deployment mounts nothing outside `protected`, unless it has meanwhile been rolled back
      to the template of a ReplicaSet, which then cannot be pruned before it is listed. */
  ghost predicate DeploymentCovered(s: State, protected: set<string>) {
    || DeploymentRefs(s.deployment) <= protected
    || exists rs :: rs in s.replicaSets && s.deployment == Some(rs.template)
  }

  ghost predicate Invariant(s: State) {
    && Safe(s)
    && (forall name :: name in s.configMaps ==>
          name in s.generated && s.configMaps[name].config == s.generated[name])
    && match s.phase
       case Ensured(target) => target in s.configMaps
       case DeploymentRead(_, protected) => DeploymentCovered(s, protected)
       case Deleting(loop) => Mounted(s) <= loop.protected
       case _ => true
  }

  /** The Deployment controller only moves references that exist already. */
  lemma ControllerAddsNoReference(s: State, a: Action)
    requires a.NewReplicaSet? || a.Rollback? || a.Prune? || a.DeleteDeployment?
    ensures Mounted(Apply(s, a)) <= Mounted(s)
    ensures Apply(s, a).configMaps == s.configMaps && Apply(s, a).generated == s.generated
    ensures Apply(s, a).phase == s.phase
  {
  }

  /** A reference the Deployment picks up between the two reads is one a ReplicaSet still has. */
  lemma ControllerKeepsCoverage(s: State, a: Action, protected: set<string>)
    requires a.NewReplicaSet? || a.Rollback? || a.Prune? || a.DeleteDeployment?
    requires DeploymentCovered(s, protected)
    ensures DeploymentCovered(Apply(s, a), protected)
  {
    var after := Apply(s, a);
    if Enabled(s, a) {
      match a
      case Rollback(rs) => assert rs in after.replicaSets && after.deployment == Some(rs.template);
      case Prune(pruned) =>
        if rs :| rs in s.replicaSets && s.deployment == Some(rs.template) {
          assert rs in after.replicaSets;
        }
      case NewReplicaSet(_) =>
        if rs :| rs in s.replicaSets && s.deployment == Some(rs.template) {
          assert rs in after.replicaSets;
        }
      case _ =>
    }
  }

  lemma ControllerKeepsInvariant(s: State, a: Action)
    requires a.NewReplicaSet? || a.Rollback? || a.Prune? || a.DeleteDeployment?
    requires Invariant(s)
    ensures Invariant(Apply(s, a))
  {
    hide Apply, Mounted, DeploymentCovered;
    ControllerAddsNoReference(s, a);
    if s.phase.DeploymentRead? {
      ControllerKeepsCoverage(s, a, s.phase.protected);
    }
  }

  /** Reading the Deployment first and the ReplicaSets second sees every mounted name. */
  lemma BothReadsCoverEverything(s: State, protected: set<string>)
    requires DeploymentCovered(s, protected)
    ensures Mounted(s) <= protected + ReplicaSetRefs(s.replicaSets)
  {
    if !(DeploymentRefs(s.deployment) <= protected) {
      var rs :| rs in s.replicaSets && s.deployment == Some(rs.template);
      assert forall name :: name in RuntimeRefs(rs.template) ==> name in ReplicaSetRefs(s.replicaSets);
    }
  }

  lemma ReconcilerKeepsInvariant(s: State, a: Action)
    requires !(a.NewReplicaSet? || a.Rollback? || a.Prune? || a.DeleteDeployment?)
    requires Invariant(s) && Enabled(s, a)
    ensures Invariant(Apply(s, a))
  {
    hide RuntimeRefs, ReplicaSetRefs, Enumerates;
    if a.ListReplicaSets? {
      BothReadsCoverEverything(s, s.phase.protected);
    }
  }

  lemma {:induction false} EveryReachableStateIsSafe(actions: seq<Action>)
    ensures Invariant(Run(actions)) && Safe(Run(actions))
  {
    hide Apply;
    if actions != [] {
      var s, a := Run(actions[..|actions| - 1]), actions[|actions| - 1];
      EveryReachableStateIsSafe(actions[..|actions| - 1]);
      if a.NewReplicaSet? || a.Rollback? || a.Prune? || a.DeleteDeployment? {
        ControllerKeepsInvariant(s, a);
      } else if Enabled(s, a) {
        ReconcilerKeepsInvariant(s, a);
      } else {
        DisabledActionsChangeNothing(s, a);
      }
    }
  }

  lemma DisabledActionsChangeNothing(s: State, a: Action)
    requires !Enabled(s, a)
    ensures Apply(s, a) == s
  {
  }

  // ---------------------------------------------------------------------------
  // The same on the volumes themselves.
  // ---------------------------------------------------------------------------

  lemma RuntimeRefsExactly(template: Template, name: string)
    ensures name in RuntimeRefs(template) <==> name != "" && Volume("user-config", Some(name)) in template.volumes
  {
    if name != "" && Volume("user-config", Some(name)) in template.volumes {
      var i :| 0 <= i < |template.volumes| && template.volumes[i] == Volume("user-config", Some(name));
      assert MountsAt(template, i);
    }
  }

  /** The template is the Deployment's or one of a ReplicaSet. */
  predicate InUse(s: State, template: Template) {
    s.deployment == Some(template) || exists rs :: rs in s.replicaSets && rs.template == template
  }

  /** After any run, a generated ConfigMap that a template in use mounts as its user-config volume is
      there and holds what it was generated for. */
  lemma MountedVolumesAreBacked(actions: seq<Action>, template: Template, name: string)
    requires InUse(Run(actions), template) && Volume("user-config", Some(name)) in template.volumes
    requires name != "" && name in Run(actions).generated
    ensures var s := Run(actions); name in s.configMaps && s.configMaps[name].config == s.generated[name]
  {
    hide Run, RuntimeRefs;
    EveryReachableStateIsSafe(actions);
    RuntimeRefsExactly(template, name);
  }

  /** A rollout: the config is generated and then mounted, under a name that is new or stands for this
      very config. What it makes of the state is safe to clean up against. */
  lemma RolloutMountsItsConfig(s: State, name: string, config: string, now: int, template: Template)
    requires Invariant(s) && s.phase.Idle? && RuntimeRefs(template) == {name}
    requires name in s.configMaps ==> s.configMaps[name].config == config
    ensures var after := Apply(Apply(s, Ensure(name, config, now)), Deploy(template));
            && Invariant(after)
            && after.phase == Deployed(name) && after.deployment == Some(template)
            && name in after.configMaps && after.configMaps[name].config == config
            && name in after.generated && after.generated[name] == config
            && after.configMaps.Keys == s.configMaps.Keys + {name}
  {
    hide RuntimeRefs, ReplicaSetRefs, Invariant, Safe;
    var ensured := Apply(s, Ensure(name, config, now));
    ReconcilerKeepsInvariant(s, Ensure(name, config, now));
    ReconcilerKeepsInvariant(ensured, Deploy(template));
  }

  /** That many deletions in a row, none of them refused. */
  ghost function Deletions(s: State, n: nat): State
    decreases n
  {
    if n == 0 then s else Deletions(Apply(s, DeleteNext(false)), n - 1)
  }

  lemma {:induction false} DeletionsRunTheLoop(s: State, n: nat)
    requires s.phase.Deleting? && |s.phase.loop.items| <= s.phase.loop.next + n
    requires s.phase.loop.removed !! s.configMaps.Keys
    ensures var end := R.RunLoop(s.phase.loop, {});
            Deletions(s, n) == s.(configMaps := s.configMaps - end.removed, phase := Deleting(end))
    decreases n
  {
    var l := s.phase.loop;
    if R.Done(l) {
      assert s.configMaps - l.removed == s.configMaps;
      NothingLeftToDelete(s, n);
    } else {
      var after := Apply(s, DeleteNext(false));
      OneDeletion(s);
      DeletionsRunTheLoop(after, n - 1);
      LoopOnlyAdds(after.phase.loop);
      assert after.configMaps - R.RunLoop(l, {}).removed == s.configMaps - R.RunLoop(l, {}).removed;
    }
  }

  lemma {:induction false} NothingLeftToDelete(s: State, n: nat)
    requires s.phase.Deleting? && R.Done(s.phase.loop)
    ensures Deletions(s, n) == s
    decreases n
  {
    if n > 0 {
      NothingLeftToDelete(s, n - 1);
    }
  }

  lemma OneDeletion(s: State)
    requires s.phase.Deleting? && !R.Done(s.phase.loop) && s.phase.loop.removed !! s.configMaps.Keys
    ensures var after := Apply(s, DeleteNext(false));
            && after.phase == Deleting(R.LoopStep(s.phase.loop, {}))
            && after.phase.loop.removed !! after.configMaps.Keys
            && after == s.(configMaps := s.configMaps - after.phase.loop.removed, phase := after.phase)
  {
    var l := s.phase.loop;
    var after := Apply(s, DeleteNext(false));
    assert s.configMaps - l.removed == s.configMaps;
    assert after.configMaps == s.configMaps - after.phase.loop.removed;
  }

  lemma {:induction false} LoopOnlyAdds(l: R.Loop)
    ensures l.removed <= R.RunLoop(l, {}).removed
    decreases |l.items| - l.next
  {
    if !R.Done(l) {
      LoopOnlyAdds(R.LoopStep(l, {}));
    }
  }

  /** The state in which an undisturbed clean-up ends: list, both reads, and the deletions. */
  ghost function CleanedUp(s: State, items: seq<R.GeneratedConfigMap>, sorted: seq<R.GeneratedConfigMap>): State {
    var listed := Apply(s, ListConfigMaps(items));
    Deletions(Apply(Apply(listed, ReadDeployment), ListReplicaSets(sorted)), |items|)
  }

  /** A clean-up that nobody disturbs spares the name it ran for and everything mounted, and of all
      ConfigMaps it leaves as many as that, at least two. */
  lemma UndisturbedCleanUp(s: State, items: seq<R.GeneratedConfigMap>, sorted: seq<R.GeneratedConfigMap>)
    requires s.phase.Deployed? && Enumerates(items, s.configMaps) && |items| > 2
    requires multiset(sorted) == multiset(items) && R.OldestFirst(sorted)
    ensures var after := CleanedUp(s, items, sorted);
            var spared := s.configMaps.Keys * ({s.phase.target} + Mounted(s));
            && spared <= after.configMaps.Keys <= s.configMaps.Keys
            && (forall name :: name in after.configMaps ==> after.configMaps[name] == s.configMaps[name])
            && |after.configMaps| == (if |spared| > 2 then |spared| else 2)
            && after.deployment == s.deployment && after.replicaSets == s.replicaSets
  {
    hide Mounted, Enumerates, R.OldestFirst, R.RunLoop;
    var target := s.phase.target;
    var protected := {target} + Mounted(s);
    var started := Apply(Apply(Apply(s, ListConfigMaps(items)), ReadDeployment), ListReplicaSets(sorted));
    StartOfCleanUp(s, items, sorted);
    DeletionsRunTheLoop(started, |items|);
    SortedEnumerates(s, items, sorted);
    R.RetentionExactly(sorted, protected, {});
    R.RetentionHolds(sorted, protected, {});
    R.ProtectedCountIsCardinality(sorted, protected);
    var removed := R.RunLoop(R.Start(sorted, protected), {}).removed;
    var after := s.configMaps - removed;
    assert after.Keys == s.configMaps.Keys - removed;
    var spared := s.configMaps.Keys * protected;
    assert s.configMaps.Keys - protected - {} == s.configMaps.Keys - spared;
    R.SubsetSize(spared, s.configMaps.Keys);
  }

  /** What both reads protect: the name the clean-up runs for, the one the status then names, and
      everything mounted. */
  lemma ReadsProtectExactly(s: State, sorted: seq<R.GeneratedConfigMap>)
    requires s.phase.Listed? && multiset(sorted) == multiset(s.phase.items) && R.OldestFirst(sorted)
    ensures var after := Apply(Apply(s, ReadDeployment), ListReplicaSets(sorted));
            && after.phase.Deleting? && after.phase.loop == R.Start(sorted, after.phase.loop.protected)
            && after == s.(phase := after.phase)
            && forall name :: name in after.phase.loop.protected <==>
                 name in Mounted(s) || name == s.phase.target || (s.statusName != "" && name == s.statusName)
  {
    hide R.OldestFirst, RuntimeRefs, ReplicaSetRefs, R.MinimumToKeep;
  }

  lemma StartOfCleanUp(s: State, items: seq<R.GeneratedConfigMap>, sorted: seq<R.GeneratedConfigMap>)
    requires s.phase.Deployed? && Enumerates(items, s.configMaps) && |items| > 2
    requires multiset(sorted) == multiset(items) && R.OldestFirst(sorted)
    ensures Apply(Apply(Apply(s, ListConfigMaps(items)), ReadDeployment), ListReplicaSets(sorted))
            == s.(statusName := s.phase.target, phase := Deleting(R.Start(sorted, {s.phase.target} + Mounted(s))))
    ensures |sorted| == |items|
  {
    hide Enumerates, R.OldestFirst, RuntimeRefs, ReplicaSetRefs, R.Start;
    assert |sorted| == |multiset(sorted)| == |multiset(items)| == |items|;
    var listed := Apply(s, ListConfigMaps(items));
    ReadsProtectExactly(listed, sorted);
    var after := Apply(Apply(listed, ReadDeployment), ListReplicaSets(sorted));
    assert after.phase.loop.protected == {s.phase.target} + Mounted(s);
  }

  lemma SortedEnumerates(s: State, items: seq<R.GeneratedConfigMap>, sorted: seq<R.GeneratedConfigMap>)
    requires Enumerates(items, s.configMaps) && multiset(sorted) == multiset(items)
    ensures R.UniqueNames(sorted) && R.ListedNames(sorted) == s.configMaps.Keys
  {
    hide R.UniqueNames, R.ListedNames;
    R.ListedNamesAreListed(items);
    R.ReorderedNamesAreUnique(items, sorted);
    R.ReorderedNamesAreListed(items, sorted);
    assert R.ListedNames(items) == s.configMaps.Keys;
  }
}
