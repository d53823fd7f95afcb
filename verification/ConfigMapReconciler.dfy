/** The ConfigMap reconciler's methods over the objects they create, read and delete. */
module ConfigMapReconciler {
  import opened Prelude
  import opened ConfigMapGC
  import R = Retention

  function AsSet(replicaSets: seq<ReplicaSet>): set<ReplicaSet> {
    set rs | rs in replicaSets
  }

  lemma RefsOfOneMore(replicaSets: seq<ReplicaSet>, i: nat)
    requires i < |replicaSets|
    ensures ReplicaSetRefs(AsSet(replicaSets[..i + 1]))
         == ReplicaSetRefs(AsSet(replicaSets[..i])) + RuntimeRefs(replicaSets[i].template)
  {
    hide RuntimeRefs;
    assert AsSet(replicaSets[..i + 1]) == AsSet(replicaSets[..i]) + {replicaSets[i]};
  }

  lemma NoReplicaSetNoRefs()
    ensures ReplicaSetRefs(AsSet([])) == {}
  {
  }

  /** What happens when a ConfigMap is created that was not there when it was looked for. */
  datatype CreateResult = Created | AppearedMeanwhile(other: ConfigMap) | CreateFailed

  /** Which of the reads of a clean-up fail. */
  datatype ReadFaults = ReadFaults(list: bool, deployment: bool, replicaSets: bool)

  /** Of the listed names as many stay as are protected, at least two. */
  lemma KeptNames(
      items: seq<R.GeneratedConfigMap>, protected: set<string>, before: map<string, ConfigMap>, after: map<string, ConfigMap>)
    requires R.UniqueNames(items) && |items| > 2 && R.ListedNames(items) <= before.Keys
    requires after == before - R.RunLoop(R.Start(items, protected), {}).removed
    ensures var kept := |R.ListedNames(items) * protected|;
            |R.ListedNames(items) * after.Keys| == if kept > 2 then kept else 2
  {
    hide R.UniqueNames, R.RunLoop, R.Start, R.ListedNames;
    R.RetentionExactly(items, protected, {});
    R.ProtectedCountIsCardinality(items, protected);
    var names, removed := R.ListedNames(items), R.RunLoop(R.Start(items, protected), {}).removed;
    assert names * after.Keys == names - removed;
    var deletable := names - protected - {};
    assert deletable == names - names * protected;
    R.SubsetSize(names * protected, names);
  }

  class Cluster {
    var configMaps: map<string, ConfigMap>
    var deployment: Option<Template>
    var replicaSets: seq<ReplicaSet>

    constructor ()
      ensures configMaps == map[] && deployment == None && replicaSets == []
    {
      configMaps, deployment, replicaSets := map[], None, [];
    }

    /** Everything mounted as user-config right now. */
    function MountedNow(): set<string>
      reads this
    {
      DeploymentRefs(deployment) + ReplicaSetRefs(AsSet(replicaSets))
    }

    /** Creates the ConfigMap unless it exists; an existing one must hold the same config. When
        another writer creates it between the read and the create, that one is taken as it is. On
        success the name exists, and stands for exactly this config unless such a writer gave it
        another; no other ConfigMap is touched. */
    method EnsureGeneratedConfigMap(name: string, config: string, now: int, getFails: bool, create: CreateResult)
      returns (ok: bool)
      modifies this`configMaps
      ensures ok <==>
        !getFails && if name in old(configMaps) then old(configMaps)[name].config == config else !create.CreateFailed?
      ensures configMaps ==
        if getFails || name in old(configMaps) then old(configMaps)
        else match create
             case Created => old(configMaps)[name := ConfigMap(now, config)]
             case AppearedMeanwhile(other) => old(configMaps)[name := other]
             case CreateFailed => old(configMaps)
      ensures ok ==> name in configMaps
      ensures ok ==> (configMaps[name].config == config <==>
                        name in old(configMaps) || create.Created? || create.other.config == config)
    {
      if getFails {
        return false;
      }
      if name in configMaps {
        return configMaps[name].config == config;
      }
      match create {
        case Created =>
          configMaps := configMaps[name := ConfigMap(now, config)];
          return true;
        case AppearedMeanwhile(other) =>
          configMaps := configMaps[name := other];
          return true;
        case CreateFailed =>
          return false;
      }
    }

    /** Adds the names the volumes mount as user-config. */
    method CollectRuntimeConfigMapRefs(protected: set<string>, template: Template) returns (names: set<string>)
      ensures names == protected + RuntimeRefs(template)
    {
      names := protected;
      for i := 0 to |template.volumes|
        invariant names == protected
          + set j | 0 <= j < i && MountsAt(template, j) :: template.volumes[j].configMap.value
      {
        var v := template.volumes[i];
        if v.name != USER_CONFIG || v.configMap.None? {
          continue;
        }
        if v.configMap.value != "" {
          names := names + {v.configMap.value};
        }
      }
    }

    /** The names clean-up must not touch: the current one, the one in the status, and whatever
        the Deployment and every ReplicaSet mount. There is no answer when a read fails. */
    method ReferencedRuntimeConfigMapNames(currentName: string, statusName: string, faults: ReadFaults)
      returns (r: Option<set<string>>)
      ensures r.None? <==> faults.deployment || faults.replicaSets
      ensures r.Some? ==> forall name :: name in r.value <==>
        name in MountedNow() || name == currentName || (statusName != "" && name == statusName)
    {
      hide ReplicaSetRefs, RuntimeRefs;
      assert ReplicaSetRefs(AsSet([])) == {} by { NoReplicaSetNoRefs(); }
      var protected := {currentName};
      if statusName != "" {
        protected := protected + {statusName};
      }
      ghost var named := protected;
      if faults.deployment {
        return None;
      }
      if deployment.Some? {
        protected := CollectRuntimeConfigMapRefs(protected, deployment.value);
      }
      if faults.replicaSets {
        return None;
      }
      for i := 0 to |replicaSets|
        invariant protected == named + DeploymentRefs(deployment) + ReplicaSetRefs(AsSet(replicaSets[..i]))
      {
        protected := CollectRuntimeConfigMapRefs(protected, replicaSets[i].template);
        RefsOfOneMore(replicaSets, i);
      }
      assert replicaSets[..|replicaSets|] == replicaSets;
      r := Some(protected);
    }

    /** Deletes one ConfigMap. A name that is already gone counts as deleted. */
    method Delete(name: string, failing: set<string>) returns (ok: bool)
      modifies this`configMaps
      ensures ok <==> name !in failing
      ensures configMaps == if ok then old(configMaps) - {name} else old(configMaps)
    {
      ok := name !in failing;
      if ok {
        configMaps := configMaps - {name};
      }
    }

    /** Trims the listed ConfigMaps, sorting the list in place. It removes exactly what the
        retention loop removes, and nothing that is mounted; a list within the retention is left, and
        so is everything when one of the reads fails. */
    method CleanupOldGeneratedConfigMaps(
      listed: array<R.GeneratedConfigMap>, currentName: string, statusName: string,
      faults: ReadFaults, failing: set<string>)
      returns (ok: bool, ghost protected: set<string>)
      requires R.UniqueNames(listed[..])
      modifies this`configMaps, listed
      ensures multiset(listed[..]) == multiset(old(listed[..]))
      ensures ok <==>
        !faults.list && (listed.Length <= R.CONFIG_MAP_RETENTION || (!faults.deployment && !faults.replicaSets))
      ensures !ok || listed.Length <= R.CONFIG_MAP_RETENTION ==>
        configMaps == old(configMaps) && listed[..] == old(listed[..])
      ensures ok && listed.Length > R.CONFIG_MAP_RETENTION ==>
        && R.UniqueNames(listed[..]) && R.OldestFirst(listed[..])
        && MountedNow() <= protected && currentName in protected
        && configMaps == old(configMaps) - R.RunLoop(R.Start(listed[..], protected), failing).removed
      ensures ok && listed.Length > R.CONFIG_MAP_RETENTION ==> forall name :: name in protected <==>
        name in old(MountedNow()) || name == currentName || (statusName != "" && name == statusName)
      ensures forall name :: name in MountedNow() && name in old(configMaps) ==> name in configMaps
      ensures ok && listed.Length > 2 && failing == {} && R.ListedNames(listed[..]) <= old(configMaps).Keys ==>
        var kept := |R.ListedNames(listed[..]) * protected|;
        |R.ListedNames(listed[..]) * configMaps.Keys| == if kept > 2 then kept else 2
    {
      hide R.UniqueNames, R.OldestFirst, R.ListedNames;
      ok, protected := true, {};
      if faults.list {
        return false, {};
      }
      if listed.Length <= R.CONFIG_MAP_RETENTION {
        return;
      }
      var referenced := ReferencedRuntimeConfigMapNames(currentName, statusName, faults);
      if referenced.None? {
        return false, {};
      }
      var protectedNames := referenced.value;
      protected := protectedNames;
      R.SortByCreation(listed);
      var protectedCount := CountProtected(listed, protectedNames);
      var minimumToKeep := R.CONFIG_MAP_RETENTION;
      if protectedCount > minimumToKeep {
        minimumToKeep := protectedCount;
      }
      var deleteCount := listed.Length - minimumToKeep;
      ghost var items := listed[..];
      ghost var l := R.Start(items, protectedNames);
      ghost var start := configMaps;
      assert start - l.removed == start;
      for i := 0 to listed.Length
        invariant listed[..] == items
        invariant l.items == items && l.protected == protectedNames && l.next == i && l.deleteCount == deleteCount
        invariant R.RunLoop(l, failing) == R.RunLoop(R.Start(items, protectedNames), failing)
        invariant configMaps == start - l.removed
      {
        if deleteCount == 0 {
          break;
        }
        var name := listed[i].name;
        l := R.LoopStep(l, failing);
        if name in protectedNames {
          continue;
        }
        var deleted := Delete(name, failing);
        if deleted {
          deleteCount := deleteCount - 1;
        }
      }
      R.RetentionHolds(items, protectedNames, failing);
      R.RetentionExactly(items, protectedNames, failing);
      R.ProtectedCountIsCardinality(items, protectedNames);
      if failing == {} && R.ListedNames(items) <= start.Keys {
        KeptNames(items, protectedNames, start, configMaps);
      }
    }

    method CountProtected(listed: array<R.GeneratedConfigMap>, protected: set<string>) returns (count: nat)
      ensures count == R.ProtectedCount(listed[..], protected)
    {
      count := 0;
      for i := 0 to listed.Length
        invariant count == R.ProtectedCount(listed[..i], protected)
      {
        assert listed[..i + 1][..i] == listed[..i];
        if listed[i].name in protected {
          count := count + 1;
        }
      }
      assert listed[..listed.Length] == listed[..];
    }
  }
}
