/** Adoption of a legacy volume: the PVC of an old LlamaStackDistribution becomes the volume of an
    OGXServer, found again by label once the annotation is gone. */
module Adoption {
  import opened Prelude

  // ---------------------------------------------------------------------------
  // Objects.
  // ---------------------------------------------------------------------------

  /** An owner reference without a controller flag is not a controller's. */
  datatype OwnerRef = OwnerRef(apiVersion: string, kind: string, name: string, controller: bool)

  /** The two labels adoption sets, and the owners. */
  datatype PVC = PVC(adoptedFrom: Option<string>, instance: Option<string>, owners: seq<OwnerRef>)

  /** An OGXServer: its two adoption annotations, empty when absent, and whether it asks for storage. */
  datatype Server = Server(adoptStorage: string, adoptNetworking: string, wantsStorage: bool)

  /** Deployments carry their replica count when it is set; `pods` counts the pods labelled with a name. */
  datatype World = World(
    pvcs: map<string, PVC>,
    deployments: map<string, Option<int>>,
    pods: map<string, nat>,
    servers: map<string, Server>)

  function PodCount(w: World, name: string): nat {
    if name in w.pods then w.pods[name] else 0
  }

  function PVCName(name: string): string {
    name + "-pvc"
  }

  lemma PVCNamesAreDistinct(a: string, b: string)
    ensures PVCName(a) == PVCName(b) <==> a == b
  {
    if PVCName(a) == PVCName(b) {
      assert |a| == |b|;
      assert a == PVCName(a)[..|a|] == PVCName(b)[..|b|] == b;
    }
  }

  // ---------------------------------------------------------------------------
  // Annotations.
  // ---------------------------------------------------------------------------

  predicate IsLabelChar(c: char) {
    'a' <= c <= 'z' || '0' <= c <= '9'
  }

  /** ValidateAdoptionAnnotation: an RFC 1123 label of at most 63 characters. */
  predicate IsValidName(value: string) {
    && 0 < |value| <= 63
    && IsLabelChar(value[0]) && IsLabelChar(value[|value| - 1])
    && forall i :: 0 <= i < |value| ==> IsLabelChar(value[i]) || value[i] == '-'
  }

  /** The regular expression ^[a-z0-9]([a-z0-9\-]{0,61}[a-z0-9])?$. */
  ghost predicate MatchesLabel(value: string) {
    || (exists c :: value == [c] && ('a' <= c <= 'z' || '0' <= c <= '9'))
    || (exists c, middle, d :: IsLabelOf(value, c, middle, d))
  }

  ghost predicate IsLabelOf(value: string, c: char, middle: string, d: char) {
    && value == [c] + middle + [d] && |middle| <= 61
    && ('a' <= c <= 'z' || '0' <= c <= '9') && ('a' <= d <= 'z' || '0' <= d <= '9')
    && forall i :: 0 <= i < |middle| ==> 'a' <= middle[i] <= 'z' || '0' <= middle[i] <= '9' || middle[i] == '-'
  }

  /** Names are checked as the regular expression says. */
  lemma ValidNamesMatch(value: string)
    ensures IsValidName(value) <==> MatchesLabel(value)
  {
    if |value| == 1 {
      assert value == [value[0]];
    } else if |value| > 1 {
      var n := |value|;
      assert value == [value[0]] + value[1..n - 1] + [value[n - 1]];
      if IsValidName(value) {
        assert IsLabelOf(value, value[0], value[1..n - 1], value[n - 1]);
      }
    }
  }

  /** validateAdoptionSource accepts no annotation, and a valid name other than the server's own. */
  predicate SourceAccepted(value: string, server: string) {
    value == "" || (value != server && IsValidName(value))
  }

  // ---------------------------------------------------------------------------
  // Adopting.
  // ---------------------------------------------------------------------------

  datatype AdoptionError = APIFailure | UnexpectedOwner(ref: OwnerRef) | MultiplePVCs

  /** Which calls to the API server fail during one reconcile. */
  datatype Faults = Faults(getPVC: bool, getDeployment: bool, patch: bool, listPods: bool, update: bool)

  datatype Outcome = Skipped | Adopted | Requeue | Failed(error: AdoptionError)

  function ControllerOf(owners: seq<OwnerRef>): Option<OwnerRef> {
    if owners == [] then None
    else if owners[0].controller then Some(owners[0])
    else ControllerOf(owners[1..])
  }

  predicate IsExpectedLegacyOwner(ref: OwnerRef, legacy: string) {
    ref.apiVersion == "llamastack.io/v1alpha1" && ref.kind == "LlamaStackDistribution" && ref.name == legacy
  }

  function WithoutControllers(owners: seq<OwnerRef>): seq<OwnerRef> {
    if owners == [] then []
    else WithoutControllers(owners[..|owners| - 1])
         + (if owners[|owners| - 1].controller then [] else [owners[|owners| - 1]])
  }

  function Detached(pvc: PVC, server: string, legacy: string): PVC {
    PVC(Some(legacy), Some(server), WithoutControllers(pvc.owners))
  }

  function MayDetach(pvc: PVC, legacy: string): bool {
    ControllerOf(pvc.owners).None? || IsExpectedLegacyOwner(ControllerOf(pvc.owners).value, legacy)
  }

  /** Scales the legacy Deployment to zero; the answer says whether its pods are still there. */
  function ScaleDown(w: World, legacy: string, faults: Faults): (World, Result<bool, AdoptionError>) {
    if faults.getDeployment then (w, Err(APIFailure))
    else if legacy !in w.deployments then (w, Ok(false))
    else if w.deployments[legacy] != Some(0) && faults.patch then (w, Err(APIFailure))
    else
      var scaled := w.(deployments := w.deployments[legacy := Some(0)]);
      if faults.listPods then (scaled, Err(APIFailure))
      else (scaled, Ok(PodCount(w, legacy) > 0))
  }

  function DetachAndLabel(w: World, server: string, legacy: string, faults: Faults): (World, Outcome)
    requires PVCName(legacy) in w.pvcs
  {
    var pvc := w.pvcs[PVCName(legacy)];
    if !MayDetach(pvc, legacy) then (w, Failed(UnexpectedOwner(ControllerOf(pvc.owners).value)))
    else if faults.update then (w, Failed(APIFailure))
    else (w.(pvcs := w.pvcs[PVCName(legacy) := Detached(pvc, server, legacy)]), Adopted)
  }

  function AdoptStorage(w: World, server: string, legacy: string, faults: Faults): (World, Outcome) {
    if faults.getPVC then (w, Failed(APIFailure))
    else if PVCName(legacy) !in w.pvcs then (w, Skipped)
    else if w.pvcs[PVCName(legacy)].adoptedFrom == Some(legacy) then (w, Adopted)
    else
      var (scaled, waiting) := ScaleDown(w, legacy, faults);
      if waiting.Err? then (scaled, Failed(waiting.error))
      else if waiting.value then (scaled, Requeue)
      else DetachAndLabel(scaled, server, legacy, faults)
  }

  /** The adoption part of a reconcile. */
  function AdoptResources(w: World, server: string, faults: Faults): (World, Outcome) {
    if server !in w.servers then (w, Skipped)
    else
      var s := w.servers[server];
      if s.adoptStorage == "" || !SourceAccepted(s.adoptStorage, server) || !SourceAccepted(s.adoptNetworking, server)
      then (w, Skipped)
      else AdoptStorage(w, server, s.adoptStorage, faults)
  }

  // ---------------------------------------------------------------------------
  // Which volume a server uses.
  // ---------------------------------------------------------------------------

  function LabelledPVCs(w: World, server: string): set<string> {
    set name | name in w.pvcs && w.pvcs[name].adoptedFrom.Some? && w.pvcs[name].instance == Some(server)
  }

  /** `listFails` says whether the API server refuses to list the labelled PVCs, if it is asked. */
  function EffectivePVCName(w: World, server: string, listFails: bool): Result<string, AdoptionError>
    requires server in w.servers
  {
    var source := w.servers[server].adoptStorage;
    if source != "" && IsValidName(source) then Ok(PVCName(source))
    else if listFails then Err(APIFailure)
    else
      var labelled := LabelledPVCs(w, server);
      if |labelled| > 1 then Err(MultiplePVCs)
      else if labelled == {} then Ok(PVCName(server))
      else Ok(TheOne(labelled))
  }

  function TheOne(names: set<string>): (r: string)
    requires |names| == 1
    ensures r in names
  {
    SingletonHasOne(names);
    var name :| name in names;
    name
  }

  lemma SingletonHasOne(names: set<string>)
    requires |names| == 1
    ensures exists name :: names == {name}
    ensures forall a, b :: a in names && b in names ==> a == b
  {
    var name :| name in names;
    assert |names - {name}| == 0;
  }

  predicate ShouldExcludePVC(server: string, wantsStorage: bool, effective: string) {
    effective != PVCName(server) || !wantsStorage
  }

  // ---------------------------------------------------------------------------
  // The code that changes the cluster.
  // ---------------------------------------------------------------------------

  class Cluster {
    var world: World

    constructor (w: World)
      ensures world == w
    {
      world := w;
    }

    method ScaleDownLegacyDeployment(legacy: string, faults: Faults) returns (waiting: Result<bool, AdoptionError>)
      modifies this
      ensures (world, waiting) == ScaleDown(old(world), legacy, faults)
    {
      if faults.getDeployment {
        return Err(APIFailure);
      }
      if legacy !in world.deployments {
        return Ok(false);
      }
      var replicas := world.deployments[legacy];
      if replicas.None? || replicas.value != 0 {
        if faults.patch {
          return Err(APIFailure);
        }
        world := world.(deployments := world.deployments[legacy := Some(0)]);
      } else {
        assert world.deployments[legacy := Some(0)] == world.deployments;
      }
      if faults.listPods {
        return Err(APIFailure);
      }
      waiting := Ok(PodCount(world, legacy) > 0);
    }

    method DetachAndLabelPVC(server: string, legacy: string, faults: Faults) returns (outcome: Outcome)
      requires PVCName(legacy) in world.pvcs
      modifies this
      ensures (world, outcome) == DetachAndLabel(old(world), server, legacy, faults)
    {
      hide ControllerOf, IsExpectedLegacyOwner;
      var pvc := world.pvcs[PVCName(legacy)];
      var controllerRef := ControllerOf(pvc.owners);
      if controllerRef.Some? && !IsExpectedLegacyOwner(controllerRef.value, legacy) {
        return Failed(UnexpectedOwner(controllerRef.value));
      }
      var filtered: seq<OwnerRef> := [];
      for i := 0 to |pvc.owners|
        invariant filtered == WithoutControllers(pvc.owners[..i])
        invariant world == old(world)
      {
        assert pvc.owners[..i + 1][..i] == pvc.owners[..i];
        if pvc.owners[i].controller {
          continue;
        }
        filtered := filtered + [pvc.owners[i]];
      }
      assert pvc.owners[..|pvc.owners|] == pvc.owners;
      pvc := pvc.(owners := filtered);
      pvc := pvc.(adoptedFrom := Some(legacy), instance := Some(server));
      if faults.update {
        return Failed(APIFailure);
      }
      world := world.(pvcs := world.pvcs[PVCName(legacy) := pvc]);
      outcome := Adopted;
    }

    method AdoptStorageSource(server: string, legacy: string, faults: Faults) returns (outcome: Outcome)
      modifies this
      ensures (world, outcome) == AdoptStorage(old(world), server, legacy, faults)
    {
      hide DetachAndLabel;
      if faults.getPVC {
        return Failed(APIFailure);
      }
      if PVCName(legacy) !in world.pvcs {
        return Skipped;
      }
      if world.pvcs[PVCName(legacy)].adoptedFrom == Some(legacy) {
        return Adopted;
      }
      var waiting := ScaleDownLegacyDeployment(legacy, faults);
      if waiting.Err? {
        return Failed(waiting.error);
      }
      if waiting.value {
        return Requeue;
      }
      outcome := DetachAndLabelPVC(server, legacy, faults);
    }

    /** The list call with its two label selectors; the order of the answer is open. */
    method ListAdopted(server: string) returns (items: seq<string>)
      ensures Distinct(items) && forall name :: name in items <==> name in LabelledPVCs(world, server)
    {
      items := [];
      var rest := world.pvcs.Keys;
      while rest != {}
        invariant rest <= world.pvcs.Keys && Distinct(items)
        invariant forall name :: name in items <==> name in LabelledPVCs(world, server) && name !in rest
        decreases |rest|
      {
        var name :| name in rest;
        var pvc := world.pvcs[name];
        if pvc.adoptedFrom.Some? && pvc.instance == Some(server) {
          items := items + [name];
        }
        rest := rest - {name};
      }
    }

    method ResolveEffectivePVCName(server: string, listFails: bool) returns (r: Result<string, AdoptionError>)
      requires server in world.servers
      ensures r == EffectivePVCName(world, server, listFails)
    {
      hide IsValidName, LabelledPVCs, Distinct;
      var source := world.servers[server].adoptStorage;
      if source != "" && IsValidName(source) {
        return Ok(PVCName(source));
      }
      if listFails {
        return Err(APIFailure);
      }
      var items := ListAdopted(server);
      DistinctItems(items);
      assert (set name | name in items) == LabelledPVCs(world, server);
      if |items| > 1 {
        return Err(MultiplePVCs);
      }
      if |items| == 1 {
        assert items[0] in LabelledPVCs(world, server);
        SingletonHasOne(LabelledPVCs(world, server));
        return Ok(items[0]);
      }
      r := Ok(PVCName(server));
    }
  }

  lemma DistinctItems(items: seq<string>)
    requires Distinct(items)
    ensures |set name | name in items| == |items|
  {
    if items != [] {
      var front, last := items[..|items| - 1], items[|items| - 1];
      DistinctItems(front);
      assert last !in front;
      assert (set name | name in items) == (set name | name in front) + {last};
    }
  }

  // ---------------------------------------------------------------------------
  // One adoption.
  // ---------------------------------------------------------------------------

  lemma {:induction false} NoControllerLeft(owners: seq<OwnerRef>)
    ensures forall o :: o in WithoutControllers(owners) <==> o in owners && !o.controller
    ensures ControllerOf(WithoutControllers(owners)).None?
    ensures (forall o :: o in owners ==> o.controller) ==> WithoutControllers(owners) == []
  {
    if owners != [] {
      var front, last := owners[..|owners| - 1], owners[|owners| - 1];
      NoControllerLeft(front);
      assert forall o :: o in owners <==> o in front || o == last;
    }
    NoController(WithoutControllers(owners));
  }

  lemma {:induction false} NoController(owners: seq<OwnerRef>)
    ensures ControllerOf(owners).None? <==> forall o :: o in owners ==> !o.controller
  {
    if owners != [] && !owners[0].controller {
      NoController(owners[1..]);
      assert forall o :: o in owners <==> o == owners[0] || o in owners[1..];
    }
  }

  /** The legacy workload has let go: its Deployment is gone, or at zero with no labelled pods. */
  predicate IsReleased(w: World, legacy: string) {
    legacy !in w.deployments || (w.deployments[legacy] == Some(0) && PodCount(w, legacy) == 0)
  }

  /** Adoption changes at most the one volume, only once its workload has let go, and leaves it
      labelled and without a controller. */
  lemma AdoptionWaitsForRelease(w: World, server: string, legacy: string, faults: Faults)
    ensures var after := AdoptStorage(w, server, legacy, faults).0;
            && after.pvcs.Keys == w.pvcs.Keys && after.servers == w.servers && after.pods == w.pods
            && (forall name :: name in w.pvcs && name != PVCName(legacy) ==> after.pvcs[name] == w.pvcs[name])
            && (after.pvcs != w.pvcs ==>
                  && IsReleased(after, legacy)
                  && PVCName(legacy) in after.pvcs
                  && after.pvcs[PVCName(legacy)] == Detached(w.pvcs[PVCName(legacy)], server, legacy)
                  && ControllerOf(after.pvcs[PVCName(legacy)].owners).None?)
  {
    hide WithoutControllers, ControllerOf, MayDetach, PVCName;
    if PVCName(legacy) in w.pvcs {
      NoControllerLeft(w.pvcs[PVCName(legacy)].owners);
    }
  }

  /** The first owner that is a controller, if there is one, is the legacy distribution itself. */
  ghost predicate IsReleasable(owners: seq<OwnerRef>, legacy: string) {
    forall i :: 0 <= i < |owners| && IsFirstController(owners, i) ==>
      && owners[i].apiVersion == "llamastack.io/v1alpha1"
      && owners[i].kind == "LlamaStackDistribution"
      && owners[i].name == legacy
  }

  ghost predicate IsFirstController(owners: seq<OwnerRef>, i: int)
    requires 0 <= i < |owners|
  {
    owners[i].controller && forall j :: 0 <= j < i ==> !owners[j].controller
  }

  lemma {:induction false} ControllerIsFirst(owners: seq<OwnerRef>)
    ensures ControllerOf(owners).None? <==> forall i :: 0 <= i < |owners| ==> !owners[i].controller
    ensures forall i :: 0 <= i < |owners| && IsFirstController(owners, i) ==> ControllerOf(owners) == Some(owners[i])
    ensures ControllerOf(owners).Some? ==>
              exists i :: 0 <= i < |owners| && IsFirstController(owners, i) && ControllerOf(owners) == Some(owners[i])
  {
    if owners != [] {
      if owners[0].controller {
        assert IsFirstController(owners, 0);
      } else {
        var rest := owners[1..];
        ControllerIsFirst(rest);
        forall i | 0 <= i < |owners| && IsFirstController(owners, i) ensures ControllerOf(owners) == Some(owners[i]) {
          assert IsFirstController(rest, i - 1);
        }
        if ControllerOf(rest).Some? {
          var i :| 0 <= i < |rest| && IsFirstController(rest, i) && ControllerOf(rest) == Some(rest[i]);
          assert IsFirstController(owners, i + 1);
        }
      }
    }
  }

  lemma DetachesWhenReleasable(pvc: PVC, legacy: string)
    ensures MayDetach(pvc, legacy) <==> IsReleasable(pvc.owners, legacy)
  {
    hide ControllerOf;
    ControllerIsFirst(pvc.owners);
  }

  /** Detaching takes out the controllers and nothing else; the others keep their order. */
  lemma {:induction false} OthersKeepTheirPlaces(owners: seq<OwnerRef>) returns (at: seq<int>)
    ensures |at| == |WithoutControllers(owners)|
    ensures forall k :: 0 <= k < |at| ==> 0 <= at[k] < |owners| && WithoutControllers(owners)[k] == owners[at[k]]
    ensures forall k, l :: 0 <= k < l < |at| ==> at[k] < at[l]
    ensures forall i :: 0 <= i < |owners| && !owners[i].controller ==> i in at
    ensures forall k :: 0 <= k < |at| ==> !WithoutControllers(owners)[k].controller
  {
    hide WithoutControllers;
    WithoutLast(owners);
    at := [];
    if owners != [] {
      var n := |owners| - 1;
      var front := OthersKeepTheirPlaces(owners[..n]);
      at := if owners[n].controller then front else front + [n];
      forall i | 0 <= i < |owners| && !owners[i].controller ensures i in at {
        assert i == n || owners[..n][i] == owners[i];
        assert i < n ==> i in front;
        assert i == n ==> at[|at| - 1] == n;
      }
    }
  }

  lemma WithoutLast(owners: seq<OwnerRef>)
    ensures owners == [] ==> WithoutControllers(owners) == []
    ensures owners != [] ==>
              var n := |owners| - 1;
              WithoutControllers(owners) == WithoutControllers(owners[..n]) + if owners[n].controller then [] else [owners[n]]
  {
  }

  /** It succeeds exactly when nothing fails, the volume exists, and either it carries the label of
      this source already or it is free of other controllers and of running pods. */
  lemma AdoptionSucceedsExactly(w: World, server: string, legacy: string)
    ensures AdoptStorage(w, server, legacy, NO_FAULTS).1.Adopted? <==>
      && PVCName(legacy) in w.pvcs
      && (w.pvcs[PVCName(legacy)].adoptedFrom == Some(legacy)
          || ((legacy !in w.deployments || PodCount(w, legacy) == 0) && IsReleasable(w.pvcs[PVCName(legacy)].owners, legacy)))
  {
    hide MayDetach, IsReleasable;
    if PVCName(legacy) in w.pvcs {
      DetachesWhenReleasable(w.pvcs[PVCName(legacy)], legacy);
    }
  }

  /** A volume that is there and not adopted yet. */
  predicate Adoptable(w: World, legacy: string) {
    legacy + "-pvc" in w.pvcs && w.pvcs[legacy + "-pvc"].adoptedFrom != Some(legacy)
  }

  /** When a reconcile scales: always when it can, whatever the pods do and whether or not they can be
      listed; it never touches another Deployment. */
  lemma LegacyIsScaledDown(w: World, server: string, legacy: string, faults: Faults)
    ensures AdoptStorage(w, server, legacy, faults).0.deployments ==
      if Adoptable(w, legacy) && legacy in w.deployments && !faults.getPVC && !faults.getDeployment && !faults.patch
      then w.deployments[legacy := Some(0)]
      else w.deployments
  {
    hide DetachAndLabel;
    if PVCName(legacy) in w.pvcs {
      var scaled := ScaleDown(w, legacy, faults).0;
      DetachingOnly(scaled, server, legacy, faults);
      if legacy in w.deployments && w.deployments[legacy] == Some(0) {
        assert w.deployments[legacy := Some(0)] == w.deployments;
      }
    }
  }

  lemma DetachingOnly(w: World, server: string, legacy: string, faults: Faults)
    requires PVCName(legacy) in w.pvcs
    ensures DetachAndLabel(w, server, legacy, faults).0.deployments == w.deployments
  {
    hide MayDetach, WithoutControllers;
  }

  /** And what it answers otherwise: it waits exactly while the pods of a scaled Deployment are listed,
      and it refuses a volume whose controller is another, which the error names. */
  lemma AdoptionAnswers(w: World, server: string, legacy: string, faults: Faults)
    ensures var outcome := AdoptStorage(w, server, legacy, faults).1;
            var reachesPods := && Adoptable(w, legacy) && legacy in w.deployments && !faults.getPVC && !faults.getDeployment
                               && (w.deployments[legacy] == Some(0) || !faults.patch);
            && (outcome.Skipped? <==> !faults.getPVC && legacy + "-pvc" !in w.pvcs)
            && (outcome.Requeue? <==> reachesPods && !faults.listPods && PodCount(w, legacy) > 0)
            && (outcome.Failed? ==>
                  match outcome.error
                  case APIFailure => faults.getPVC || faults.getDeployment || faults.patch || faults.listPods || faults.update
                  case UnexpectedOwner(ref) =>
                    var owners := w.pvcs[legacy + "-pvc"].owners;
                    && !IsReleasable(owners, legacy)
                    && exists i :: 0 <= i < |owners| && IsFirstController(owners, i) && ref == owners[i]
                  case MultiplePVCs => false)
  {
    hide IsReleasable, IsFirstController, ControllerOf, WithoutControllers, IsExpectedLegacyOwner;
    if PVCName(legacy) in w.pvcs {
      DetachesWhenReleasable(w.pvcs[PVCName(legacy)], legacy);
      ControllerIsFirst(w.pvcs[PVCName(legacy)].owners);
    }
  }

  const NO_FAULTS := Faults(false, false, false, false, false)

  // ---------------------------------------------------------------------------
  // Whole runs.
  // ---------------------------------------------------------------------------

  /** What can happen in the namespace: a reconcile of any server, changes to servers, legacy
      workloads coming and going, unlabelled PVCs being created (the default ones among them), PVCs
      being deleted by a user, or collected because their owners are gone. */
  datatype Step =
    | Reconcile(server: string, faults: Faults)
    | PutServer(server: string, spec: Server)
    | DeleteServer(server: string)
    | LegacyWorkload(legacy: string, deployment: Option<Option<int>>, podCount: nat)
    | CreatePVC(name: string, owners: seq<OwnerRef>, instance: Option<string>)
    | DeletePVC(name: string)
    | CollectPVC(name: string)

  function Apply(w: World, step: Step): World {
    match step
    case Reconcile(server, faults) => AdoptResources(w, server, faults).0
    case PutServer(server, spec) => w.(servers := w.servers[server := spec])
    case DeleteServer(server) => w.(servers := w.servers - {server})
    case LegacyWorkload(legacy, deployment, podCount) =>
      w.(deployments := if deployment.Some? then w.deployments[legacy := deployment.value] else w.deployments - {legacy},
         pods := w.pods[legacy := podCount])
    case CreatePVC(name, owners, instance) =>
      if name in w.pvcs then w else w.(pvcs := w.pvcs[name := PVC(None, instance, owners)])
    case DeletePVC(name) => w.(pvcs := w.pvcs - {name})
    case CollectPVC(name) =>
      if name in w.pvcs && w.pvcs[name].owners != [] then w.(pvcs := w.pvcs - {name}) else w
  }

  function Run(w: World, steps: seq<Step>): World {
    if steps == [] then w else Apply(Run(w, steps[..|steps| - 1]), steps[|steps| - 1])
  }

  /** The server asks for the storage of `legacy`, and both its annotations are usable. */
  predicate AsksFor(w: World, server: string, legacy: string) {
    && server in w.servers
    && w.servers[server].adoptStorage == legacy
    && legacy != "" && legacy != server && IsValidName(legacy)
    && (w.servers[server].adoptNetworking == ""
        || (w.servers[server].adoptNetworking != server && IsValidName(w.servers[server].adoptNetworking)))
  }

  lemma OnlyOnRequest(w: World, server: string, legacy: string, faults: Faults)
    ensures AsksFor(w, server, legacy) ==> AdoptResources(w, server, faults) == AdoptStorage(w, server, legacy, faults)
    ensures (forall name :: !AsksFor(w, server, name)) ==> AdoptResources(w, server, faults) == (w, Skipped)
  {
    hide IsValidName, AdoptStorage;
    if server in w.servers {
      assert AsksFor(w, server, w.servers[server].adoptStorage) || AdoptResources(w, server, faults) == (w, Skipped);
    }
  }

  /** The volume afterwards: labelled, with every owner it had but the controllers. */
  ghost predicate IsTaken(before: PVC, after: PVC, server: string, legacy: string) {
    && after.adoptedFrom == Some(legacy) && after.instance == Some(server)
    && (forall o :: o in after.owners <==> o in before.owners && !o.controller)
  }

  /** A reconcile without faults, the end of the legacy pods, and another such reconcile: then the volume
      is adopted, provided its first controller is no stranger. */
  lemma AdoptionComesAbout(w: World, server: string, legacy: string)
    requires AsksFor(w, server, legacy) && Adoptable(w, legacy)
    requires IsReleasable(w.pvcs[legacy + "-pvc"].owners, legacy)
    ensures var podsEnd := LegacyWorkload(legacy, if legacy in w.deployments then Some(Some(0)) else None, 0);
            var waited := Apply(Apply(w, Reconcile(server, NO_FAULTS)), podsEnd);
            && AdoptResources(waited, server, NO_FAULTS).1 == Adopted
            && var after := Apply(waited, Reconcile(server, NO_FAULTS));
               && legacy + "-pvc" in after.pvcs
               && IsTaken(w.pvcs[legacy + "-pvc"], after.pvcs[legacy + "-pvc"], server, legacy)
               && (legacy in w.deployments <==> legacy in after.deployments)
               && (legacy in w.deployments ==> after.deployments[legacy] == Some(0))
  {
    hide IsValidName, AdoptStorage, IsReleasable, WithoutControllers, MayDetach, ControllerOf;
    var pvc := w.pvcs[PVCName(legacy)];
    var podsEnd := LegacyWorkload(legacy, if legacy in w.deployments then Some(Some(0)) else None, 0);
    var first := AdoptStorage(w, server, legacy, NO_FAULTS).0;
    var waited := Apply(first, podsEnd);
    NoControllerLeft(pvc.owners);
    AdoptionWaitsForRelease(w, server, legacy, NO_FAULTS);
    LegacyIsScaledDown(w, server, legacy, NO_FAULTS);
    assert AsksFor(waited, server, legacy);
    OnlyOnRequest(w, server, legacy, NO_FAULTS);
    OnlyOnRequest(waited, server, legacy, NO_FAULTS);
    AdoptionSucceedsExactly(waited, server, legacy);
    AdoptionChanges(w, server, legacy, NO_FAULTS);
    AdoptionChanges(waited, server, legacy, NO_FAULTS);
    LegacyIsScaledDown(waited, server, legacy, NO_FAULTS);
  }

  lemma AdoptionChanges(w: World, server: string, legacy: string, faults: Faults)
    requires PVCName(legacy) in w.pvcs
    ensures var after := AdoptStorage(w, server, legacy, faults);
            var pvc := w.pvcs[PVCName(legacy)];
            && after.0.servers == w.servers && after.0.pods == w.pods
            && after.0.pvcs == (if after.1.Adopted? && pvc.adoptedFrom != Some(legacy)
                                then w.pvcs[PVCName(legacy) := Detached(pvc, server, legacy)] else w.pvcs)
  {
    hide MayDetach, WithoutControllers;
  }

  /** An annotation that makes the server adopt nothing but `legacy`. */
  predicate AsksForNothingElse(value: string, server: string, legacy: string) {
    value == legacy || value == server || !IsValidName(value)
  }

  /** The server is never told to adopt another volume, and nobody deletes this one by hand. When it
      kept owners besides its controller, those do not take it with them either. */
  predicate Steady(step: Step, server: string, legacy: string, owners: seq<OwnerRef>) {
    match step
    case PutServer(name, spec) => name == server ==> AsksForNothingElse(spec.adoptStorage, server, legacy)
    case DeletePVC(name) => name != PVCName(legacy)
    case CollectPVC(name) => name != PVCName(legacy) || owners == []
    case _ => true
  }

  /** `server` has adopted the volume of `legacy`, which is left with these owners, none of them a
      controller, and has adopted no other. */
  predicate HasAdopted(w: World, server: string, legacy: string, owners: seq<OwnerRef>) {
    && server != legacy
    && PVCName(legacy) in w.pvcs
    && w.pvcs[PVCName(legacy)] == PVC(Some(legacy), Some(server), owners)
    && ControllerOf(owners).None?
    && (forall name :: name in LabelledPVCs(w, server) ==> name == PVCName(legacy))
    && (server in w.servers ==> AsksForNothingElse(w.servers[server].adoptStorage, server, legacy))
  }

  /** The invariant is reached by adopting a volume, whatever owners besides its controller it has. */
  lemma AdoptionEstablishes(w: World, server: string, legacy: string, faults: Faults)
    requires server in w.servers && w.servers[server].adoptStorage == legacy
    requires SourceAccepted(legacy, server) && legacy != "" && SourceAccepted(w.servers[server].adoptNetworking, server)
    requires PVCName(legacy) in w.pvcs && w.pvcs[PVCName(legacy)].adoptedFrom != Some(legacy)
    requires forall name :: name in LabelledPVCs(w, server) ==> name == PVCName(legacy)
    requires AdoptResources(w, server, faults).1.Adopted?
    ensures HasAdopted(AdoptResources(w, server, faults).0, server, legacy,
                       WithoutControllers(w.pvcs[PVCName(legacy)].owners))
  {
    hide IsValidName, WithoutControllers, ControllerOf;
    var pvc := w.pvcs[PVCName(legacy)];
    NoControllerLeft(pvc.owners);
    AdoptionWaitsForRelease(w, server, legacy, faults);
    StillNotLabelled(w, AdoptResources(w, server, faults).0, server, legacy);
  }

  /** A PVC that is not one of the server's stays so while its labels do, and a new label for another
      server does not make it one. */
  lemma StillNotLabelled(w: World, after: World, server: string, legacy: string)
    requires forall name :: name in LabelledPVCs(w, server) ==> name == PVCName(legacy)
    requires forall name :: name in after.pvcs && name != PVCName(legacy) ==>
               || (name in w.pvcs && after.pvcs[name] == w.pvcs[name])
               || after.pvcs[name].adoptedFrom.None?
               || after.pvcs[name].instance != Some(server)
    ensures forall name :: name in LabelledPVCs(after, server) ==> name == PVCName(legacy)
  {
    forall name | name in LabelledPVCs(after, server) ensures name == PVCName(legacy) {
      assert name in LabelledPVCs(w, server) || name == PVCName(legacy);
    }
  }

  lemma AdoptedAlready(w: World, server: string, legacy: string, faults: Faults)
    requires PVCName(legacy) in w.pvcs && w.pvcs[PVCName(legacy)].adoptedFrom == Some(legacy)
    ensures AdoptStorage(w, server, legacy, faults).0 == w
  {
  }

  lemma ReconcileKeepsAdoption(w: World, server: string, legacy: string, owners: seq<OwnerRef>, other: string, faults: Faults)
    requires HasAdopted(w, server, legacy, owners)
    ensures HasAdopted(AdoptResources(w, other, faults).0, server, legacy, owners)
  {
    hide IsValidName, WithoutControllers, ControllerOf, AdoptStorage;
    if other in w.servers {
      var source := w.servers[other].adoptStorage;
      if source == legacy {
        AdoptedAlready(w, other, source, faults);
      } else {
        AdoptionWaitsForRelease(w, other, source, faults);
        PVCNamesAreDistinct(source, legacy);
        var after := AdoptResources(w, other, faults).0;
        StillNotLabelled(w, after, server, legacy);
      }
    }
  }

  lemma StepKeepsAdoption(w: World, server: string, legacy: string, owners: seq<OwnerRef>, step: Step)
    requires HasAdopted(w, server, legacy, owners) && Steady(step, server, legacy, owners)
    ensures HasAdopted(Apply(w, step), server, legacy, owners)
  {
    hide IsValidName, AdoptResources;
    if step.Reconcile? {
      ReconcileKeepsAdoption(w, server, legacy, owners, step.server, step.faults);
    } else {
      StillNotLabelled(w, Apply(w, step), server, legacy);
    }
  }

  lemma {:induction false} RunKeepsAdoption(w: World, server: string, legacy: string, owners: seq<OwnerRef>, steps: seq<Step>)
    requires HasAdopted(w, server, legacy, owners)
    requires forall i :: 0 <= i < |steps| ==> Steady(steps[i], server, legacy, owners)
    ensures HasAdopted(Run(w, steps), server, legacy, owners)
  {
    hide HasAdopted, Steady, Apply;
    if steps != [] {
      RunKeepsAdoption(w, server, legacy, owners, steps[..|steps| - 1]);
      StepKeepsAdoption(Run(w, steps[..|steps| - 1]), server, legacy, owners, steps[|steps| - 1]);
    }
  }

  /** Through reconciles of any server, removal of the annotation, and deletion and recreation of the
      server, its volume stays the adopted one and the default PVC stays excluded, unless the
      annotation names the server itself. */
  lemma StorageContinuity(w: World, server: string, legacy: string, owners: seq<OwnerRef>, steps: seq<Step>)
    requires HasAdopted(w, server, legacy, owners)
    requires forall i :: 0 <= i < |steps| ==> Steady(steps[i], server, legacy, owners)
    ensures var after := Run(w, steps);
            && PVCName(legacy) in after.pvcs && after.pvcs[PVCName(legacy)].owners == owners
            && ControllerOf(owners).None?
            && (server in after.servers ==>
                  var sameName := after.servers[server].adoptStorage == server && IsValidName(server);
                  && (EffectivePVCName(after, server, false) == Ok(PVCName(legacy)) <==> !sameName)
                  && (!sameName ==> forall wantsStorage :: ShouldExcludePVC(server, wantsStorage, PVCName(legacy))))
  {
    hide Run, Steady;
    RunKeepsAdoption(w, server, legacy, owners, steps);
    var after := Run(w, steps);
    PVCNamesAreDistinct(server, legacy);
    assert PVCName(legacy) in LabelledPVCs(after, server);
    assert LabelledPVCs(after, server) == {PVCName(legacy)};
    SingletonHasOne(LabelledPVCs(after, server));
  }

  /** An annotation that names the server itself adopts nothing, yet it switches the server away from
      its adopted volume to the default one. */
  lemma SameNameAnnotationSwitchesVolume(
      w: World, server: string, legacy: string, owners: seq<OwnerRef>, faults: Faults, listFails: bool)
    requires HasAdopted(w, server, legacy, owners) && server in w.servers && IsValidName(server)
    requires w.servers[server].adoptStorage == server
    ensures AdoptResources(w, server, faults) == (w, Skipped)
    ensures EffectivePVCName(w, server, listFails) == Ok(PVCName(server)) && PVCName(server) != PVCName(legacy)
    ensures !ShouldExcludePVC(server, true, PVCName(server))
  {
    PVCNamesAreDistinct(server, legacy);
  }

  /** The volume of a server, case by case: the annotated one; the labelled one if there is one; its
      default if there is none; an error when the labels do not decide. */
  lemma EffectiveVolume(w: World, server: string, listFails: bool)
    requires server in w.servers
    ensures var source := w.servers[server].adoptStorage;
            var r := EffectivePVCName(w, server, listFails);
            if source != "" && IsValidName(source) then r == Ok(source + "-pvc")
            else if listFails then r == Err(APIFailure)
            else
              match r
              case Ok(name) => if (exists pvc :: IsLabelled(w, server, pvc))
                               then forall pvc :: IsLabelled(w, server, pvc) <==> pvc == name
                               else name == server + "-pvc"
              case Err(e) => e == MultiplePVCs && exists a, b :: a != b && IsLabelled(w, server, a) && IsLabelled(w, server, b)
  {
    hide IsValidName;
    var labelled := LabelledPVCs(w, server);
    assert forall pvc :: pvc in labelled <==> IsLabelled(w, server, pvc);
    if |labelled| == 1 {
      SingletonHasOne(labelled);
      assert IsLabelled(w, server, TheOne(labelled));
    } else if |labelled| > 1 {
      var a :| a in labelled;
      assert |labelled - {a}| > 0;
      var b :| b in labelled - {a};
    }
  }

  /** The operator creates the volume itself exactly when storage is asked for and the default is used. */
  lemma OwnVolumeExactly(server: string, wantsStorage: bool, effective: string)
    ensures !ShouldExcludePVC(server, wantsStorage, effective) <==> wantsStorage && effective == server + "-pvc"
  {
  }

  predicate IsLabelled(w: World, server: string, name: string) {
    name in w.pvcs && w.pvcs[name].adoptedFrom.Some? && w.pvcs[name].instance == Some(server)
  }

  /** When an adoption that reports success gives the server the volume: exactly when the volume did
      not carry the label of this source yet, or carried it for this server already. */
  lemma AdoptedMeansHeldExactly(w: World, server: string, legacy: string, faults: Faults)
    requires AdoptStorage(w, server, legacy, faults).1.Adopted?
    ensures PVCName(legacy) in w.pvcs
    ensures var before := w.pvcs[PVCName(legacy)];
            AdoptStorage(w, server, legacy, faults).0.pvcs[PVCName(legacy)].instance == Some(server) <==>
              before.adoptedFrom != Some(legacy) || before.instance == Some(server)
  {
    hide MayDetach, WithoutControllers;
  }

  /** The world with the server's storage annotation taken off. */
  function WithoutAnnotation(w: World, server: string): World
    requires server in w.servers
  {
    Apply(w, PutServer(server, w.servers[server].(adoptStorage := "")))
  }

  /** And what that means once the annotation is gone: a server that has adopted nothing else stays on
      the volume in exactly these cases, and otherwise falls back to its default. */
  lemma AnnotationRemovalKeepsHeldVolume(w: World, server: string, legacy: string, faults: Faults)
    requires server in w.servers && server != legacy
    requires AdoptStorage(w, server, legacy, faults).1.Adopted?
    requires forall name :: name in LabelledPVCs(w, server) ==> name == PVCName(legacy)
    ensures PVCName(legacy) in w.pvcs
    ensures var before := w.pvcs[PVCName(legacy)];
            var held := before.adoptedFrom != Some(legacy) || before.instance == Some(server);
            var removed := WithoutAnnotation(AdoptStorage(w, server, legacy, faults).0, server);
            EffectivePVCName(removed, server, false) == Ok(PVCName(if held then legacy else server))
  {
    hide AdoptStorage, IsValidName;
    AdoptedMeansHeldExactly(w, server, legacy, faults);
    AdoptionWaitsForRelease(w, server, legacy, faults);
    AdoptedIsLabelled(w, server, legacy, faults);
    NoNameNeeded();
    var after := AdoptStorage(w, server, legacy, faults).0;
    var removed := WithoutAnnotation(after, server);
    StillNotLabelled(w, after, server, legacy);
    assert LabelledPVCs(removed, server) == LabelledPVCs(after, server);
    if after.pvcs[PVCName(legacy)].instance == Some(server) {
      assert PVCName(legacy) in LabelledPVCs(removed, server);
      assert LabelledPVCs(removed, server) == {PVCName(legacy)};
      SingletonHasOne(LabelledPVCs(removed, server));
    } else {
      assert PVCName(legacy) !in LabelledPVCs(removed, server);
      assert LabelledPVCs(removed, server) == {};
    }
  }

  lemma AdoptedIsLabelled(w: World, server: string, legacy: string, faults: Faults)
    requires AdoptStorage(w, server, legacy, faults).1.Adopted?
    ensures var after := AdoptStorage(w, server, legacy, faults).0;
            PVCName(legacy) in after.pvcs && after.pvcs[PVCName(legacy)].adoptedFrom == Some(legacy)
            && after.servers == w.servers
  {
    hide MayDetach, WithoutControllers;
  }

  lemma NoNameNeeded()
    ensures !IsValidName("")
  {
  }

  /** So a second server that asks for the same volume is told it has it, but the volume stays the
      first server's: without its annotation the second falls back to its default. */
  lemma SecondAdopterKeepsNothing(
      w: World, first: string, second: string, legacy: string, owners: seq<OwnerRef>, faults: Faults)
    requires HasAdopted(w, first, legacy, owners) && second != first && second in w.servers && !faults.getPVC
    requires LabelledPVCs(w, second) == {} && w.servers[second].adoptStorage == legacy
    requires legacy != "" && SourceAccepted(legacy, second)
    requires SourceAccepted(w.servers[second].adoptNetworking, second)
    ensures AdoptResources(w, second, faults) == (w, Adopted)
    ensures EffectivePVCName(w, second, false) == Ok(PVCName(legacy))
    ensures EffectivePVCName(WithoutAnnotation(w, second), second, false) == Ok(PVCName(second))
  {
    hide WithoutControllers, ControllerOf;
    AnnotationRemovalKeepsHeldVolume(w, second, legacy, faults);
  }
}
