/** The deletion loop that trims old generated ConfigMaps, and how many and which it leaves. */
module Retention {
  import opened Prelude

  datatype GeneratedConfigMap = GeneratedConfigMap(name: string, created: int)

  const CONFIG_MAP_RETENTION := 2

  predicate UniqueNames(items: seq<GeneratedConfigMap>) {
    forall i, j :: 0 <= i < j < |items| ==> items[i].name != items[j].name
  }

  predicate OldestFirst(items: seq<GeneratedConfigMap>) {
    forall i, j :: 0 <= i < j < |items| ==> items[i].created <= items[j].created
  }

  function ProtectedCount(items: seq<GeneratedConfigMap>, protected: set<string>): (n: nat)
    ensures n <= |items|
  {
    if items == [] then 0
    else ProtectedCount(items[..|items| - 1], protected)
         + if items[|items| - 1].name in protected then 1 else 0
  }

  /** The number of listed ConfigMaps the loop sets out to leave. */
  function MinimumToKeep(items: seq<GeneratedConfigMap>, protected: set<string>): nat {
    var n := ProtectedCount(items, protected);
    if n > CONFIG_MAP_RETENTION then n else CONFIG_MAP_RETENTION
  }

  /** The loop between two iterations; `removed` are the names whose deletion went through. */
  datatype Loop = Loop(
    items: seq<GeneratedConfigMap>,
    protected: set<string>,
    next: nat,
    deleteCount: int,
    removed: set<string>)

  function Start(items: seq<GeneratedConfigMap>, protected: set<string>): Loop {
    Loop(items, protected, 0, |items| - MinimumToKeep(items, protected), {})
  }

  predicate Done(l: Loop) {
    l.next >= |l.items| || l.deleteCount == 0
  }

  /** One iteration; `failing` are the names whose deletion is refused with an error. */
  function LoopStep(l: Loop, failing: set<string>): Loop
    requires !Done(l)
  {
    var name := l.items[l.next].name;
    if name in l.protected || name in failing then l.(next := l.next + 1)
    else l.(next := l.next + 1, deleteCount := l.deleteCount - 1, removed := l.removed + {name})
  }

  function RunLoop(l: Loop, failing: set<string>): Loop
    decreases |l.items| - l.next
  {
    if Done(l) then l else RunLoop(LoopStep(l, failing), failing)
  }

  predicate Processed(l: Loop, name: string) {
    exists i :: 0 <= i < l.next && i < |l.items| && l.items[i].name == name
  }

  /** What has been deleted so far is accounted for, and was neither protected nor refused. */
  ghost predicate Accounted(l: Loop, failing: set<string>) {
    && l.next <= |l.items|
    && 0 <= l.deleteCount
    && |l.removed| + l.deleteCount == |l.items| - MinimumToKeep(l.items, l.protected)
    && forall name :: name in l.removed ==> Processed(l, name) && name !in l.protected && name !in failing
  }

  /** Every unprotected item passed so far was deleted. */
  ghost predicate NothingSkipped(l: Loop) {
    && l.next <= |l.items|
    && |l.removed| == l.next - ProtectedCount(l.items[..l.next], l.protected)
    && forall i :: 0 <= i < l.next && l.items[i].name !in l.protected ==> l.items[i].name in l.removed
  }

  ghost predicate LoopInvariant(l: Loop, failing: set<string>) {
    UniqueNames(l.items) && Accounted(l, failing) && (failing == {} ==> NothingSkipped(l))
  }

  lemma NotYetRemoved(l: Loop, failing: set<string>)
    requires UniqueNames(l.items) && Accounted(l, failing) && l.next < |l.items|
    ensures l.items[l.next].name !in l.removed
  {
    assert forall i :: 0 <= i < l.next ==> l.items[i].name != l.items[l.next].name;
  }

  lemma LoopStepKeepsAccount(l: Loop, failing: set<string>)
    requires UniqueNames(l.items) && Accounted(l, failing) && !Done(l)
    ensures Accounted(LoopStep(l, failing), failing)
  {
    hide UniqueNames, MinimumToKeep;
    var after := LoopStep(l, failing);
    NotYetRemoved(l, failing);
    forall name | Processed(l, name) ensures Processed(after, name) {
      var i :| 0 <= i < l.next && l.items[i].name == name;
      assert after.items[i].name == name;
    }
    assert after.items[l.next].name == l.items[l.next].name;
  }

  lemma LoopStepSkipsNothing(l: Loop)
    requires UniqueNames(l.items) && Accounted(l, {}) && NothingSkipped(l) && !Done(l)
    ensures NothingSkipped(LoopStep(l, {}))
  {
    hide UniqueNames, MinimumToKeep, Processed;
    NotYetRemoved(l, {});
    var after := LoopStep(l, {});
    assert l.items[..l.next + 1][..l.next] == l.items[..l.next];
    assert ProtectedCount(l.items[..l.next + 1], l.protected)
        == ProtectedCount(l.items[..l.next], l.protected) + if l.items[l.next].name in l.protected then 1 else 0;
  }

  lemma {:induction false} RunLoopKeepsInvariant(l: Loop, failing: set<string>)
    requires LoopInvariant(l, failing)
    ensures var end := RunLoop(l, failing);
      LoopInvariant(end, failing) && Done(end) && end.items == l.items && end.protected == l.protected
    decreases |l.items| - l.next
  {
    if !Done(l) {
      LoopStepKeepsAccount(l, failing);
      if failing == {} {
        LoopStepSkipsNothing(l);
      }
      RunLoopKeepsInvariant(LoopStep(l, failing), failing);
    }
  }

  lemma {:induction false} ProtectedCountMonotone(items: seq<GeneratedConfigMap>, protected: set<string>, n: nat)
    requires n <= |items|
    ensures n - ProtectedCount(items[..n], protected) <= |items| - ProtectedCount(items, protected)
  {
    if n < |items| {
      ProtectedCountMonotone(items[..|items| - 1], protected, n);
      assert items[..|items| - 1][..n] == items[..n];
    } else {
      assert items[..n] == items;
    }
  }

  /** Whatever deletions fail, nothing protected is deleted and at least the minimum remains;
      when none fails, exactly the minimum remains. */
  lemma RetentionHolds(items: seq<GeneratedConfigMap>, protected: set<string>, failing: set<string>)
    requires UniqueNames(items) && |items| > CONFIG_MAP_RETENTION
    ensures var removed := RunLoop(Start(items, protected), failing).removed;
      && removed !! protected && removed !! failing
      && (forall name :: name in removed ==> exists i :: 0 <= i < |items| && items[i].name == name)
      && |items| - |removed| >= MinimumToKeep(items, protected)
      && (failing == {} ==> |items| - |removed| == MinimumToKeep(items, protected))
  {
    hide UniqueNames, RunLoop, LoopStep, MinimumToKeep;
    StartIsAccounted(items, protected, failing);
    RunLoopKeepsInvariant(Start(items, protected), failing);
    var end := RunLoop(Start(items, protected), failing);
    if failing == {} {
      AllDeleted(end);
    }
    forall name | name in end.removed ensures exists i :: 0 <= i < |items| && items[i].name == name {
      assert Processed(end, name);
    }
  }

  lemma StartIsAccounted(items: seq<GeneratedConfigMap>, protected: set<string>, failing: set<string>)
    requires UniqueNames(items) && |items| > CONFIG_MAP_RETENTION
    ensures LoopInvariant(Start(items, protected), failing)
  {
    assert items[..0] == [];
  }

  /** A loop that failed at nothing stops because it has deleted its quota. */
  lemma AllDeleted(l: Loop)
    requires LoopInvariant(l, {}) && Done(l)
    ensures l.deleteCount == 0
  {
    hide UniqueNames, Processed;
    ProtectedCountMonotone(l.items, l.protected, l.next);
    assert l.items[..|l.items|] == l.items;
  }

  /** When no deletion fails, a deleted ConfigMap is older than every unprotected one that stays. */
  lemma OldestUnprotectedGoFirst(items: seq<GeneratedConfigMap>, protected: set<string>, i: nat, j: nat)
    requires UniqueNames(items) && OldestFirst(items) && |items| > CONFIG_MAP_RETENTION
    requires i < |items| && j < |items|
    requires var removed := RunLoop(Start(items, protected), {}).removed;
      items[i].name in removed && items[j].name !in removed && items[j].name !in protected
    ensures i < j && items[i].created <= items[j].created
  {
    StartIsAccounted(items, protected, {});
    RunLoopKeepsInvariant(Start(items, protected), {});
    var end := RunLoop(Start(items, protected), {});
    assert Processed(end, items[i].name);
    var k :| 0 <= k < end.next && end.items[k].name == items[i].name;
    assert k == i;
  }

  // ---------------------------------------------------------------------------
  // The same in terms of names.
  // ---------------------------------------------------------------------------

  function ListedNames(items: seq<GeneratedConfigMap>): (names: set<string>)
    ensures forall i :: 0 <= i < |items| ==> items[i].name in names
  {
    if items == [] then {} else ListedNames(items[..|items| - 1]) + {items[|items| - 1].name}
  }

  lemma {:induction false} ListedNamesAreListed(items: seq<GeneratedConfigMap>)
    ensures forall name :: name in ListedNames(items) <==> exists i :: 0 <= i < |items| && items[i].name == name
  {
    if items != [] {
      var front := items[..|items| - 1];
      ListedNamesAreListed(front);
      forall name | name in ListedNames(front) ensures exists i :: 0 <= i < |items| && items[i].name == name {
        var i :| 0 <= i < |front| && front[i].name == name;
        assert items[i].name == name;
      }
    }
  }

  lemma NewName(items: seq<GeneratedConfigMap>)
    requires UniqueNames(items) && items != []
    ensures var n := |items| - 1; UniqueNames(items[..n]) && items[n].name !in ListedNames(items[..n])
  {
    hide ListedNames;
    ListedNamesAreListed(items[..|items| - 1]);
  }

  lemma ReorderedNamesAreListed(items: seq<GeneratedConfigMap>, sorted: seq<GeneratedConfigMap>)
    requires multiset(sorted) == multiset(items)
    ensures ListedNames(sorted) == ListedNames(items)
  {
    NamesOfMembers(items, sorted);
    NamesOfMembers(sorted, items);
  }

  lemma NamesOfMembers(items: seq<GeneratedConfigMap>, others: seq<GeneratedConfigMap>)
    requires multiset(items) == multiset(others)
    ensures ListedNames(items) <= ListedNames(others)
  {
    hide ListedNames;
    ListedNamesAreListed(items);
    forall name | name in ListedNames(items) ensures name in ListedNames(others) {
      var i :| 0 <= i < |items| && items[i].name == name;
      assert items[i] in multiset(others);
      var j :| 0 <= j < |others| && others[j] == items[i];
    }
  }

  /** Names stay unique in another order of the list. */
  lemma {:induction false} ReorderedNamesAreUnique(items: seq<GeneratedConfigMap>, sorted: seq<GeneratedConfigMap>)
    requires UniqueNames(items) && multiset(sorted) == multiset(items)
    ensures UniqueNames(sorted)
  {
    forall i, j | 0 <= i < j < |sorted| ensures sorted[i].name != sorted[j].name {
      if sorted[i].name == sorted[j].name {
        assert sorted[i] in multiset(items) && sorted[j] in multiset(items);
        var a, b :| 0 <= a < |items| && 0 <= b < |items| && items[a] == sorted[i] && items[b] == sorted[j];
        assert a == b;
        MoreThanOnce(sorted, i, j);
        OnceOnly(items, a);
        assert false;
      }
    }
  }

  lemma MoreThanOnce(items: seq<GeneratedConfigMap>, i: nat, j: nat)
    requires i < j < |items| && items[i] == items[j]
    ensures multiset(items)[items[i]] >= 2
  {
    assert items == items[..j] + [items[j]] + items[j + 1..];
    assert items[i] in items[..j];
  }

  lemma OnceOnly(items: seq<GeneratedConfigMap>, a: nat)
    requires UniqueNames(items) && a < |items|
    ensures multiset(items)[items[a]] == 1
  {
    assert items == items[..a] + [items[a]] + items[a + 1..];
    assert items[a] !in items[..a] && items[a] !in items[a + 1..];
  }

  /** The count of protected entries is the number of protected names, and each entry has its own. */
  lemma {:induction false} ProtectedCountIsCardinality(items: seq<GeneratedConfigMap>, protected: set<string>)
    requires UniqueNames(items)
    ensures ProtectedCount(items, protected) == |ListedNames(items) * protected|
    ensures |ListedNames(items)| == |items|
  {
    hide UniqueNames;
    if items != [] {
      NewName(items);
      var front, name := items[..|items| - 1], items[|items| - 1].name;
      ProtectedCountIsCardinality(front, protected);
      assert ListedNames(items) * protected ==
        (ListedNames(front) * protected) + if name in protected then {name} else {};
    }
  }

  /** Every entry passed so far that could be deleted was. */
  ghost predicate NothingSpared(l: Loop, failing: set<string>) {
    && l.next <= |l.items|
    && forall i :: 0 <= i < l.next && l.items[i].name !in l.protected && l.items[i].name !in failing ==>
         l.items[i].name in l.removed
  }

  lemma {:induction false} RunLoopSparesNothing(l: Loop, failing: set<string>)
    requires NothingSpared(l, failing)
    ensures var end := RunLoop(l, failing); NothingSpared(end, failing) && end.items == l.items && end.protected == l.protected
    decreases |l.items| - l.next
  {
    if !Done(l) {
      RunLoopSparesNothing(LoopStep(l, failing), failing);
    }
  }

  /** Of more than two listed ConfigMaps, as many are deleted as exceed max(2, protected), or all that
      are neither protected nor refused if those are fewer: a refused deletion does not stop the loop. */
  lemma RetentionExactly(items: seq<GeneratedConfigMap>, protected: set<string>, failing: set<string>)
    requires UniqueNames(items) && |items| > 2
    ensures var removed := RunLoop(Start(items, protected), failing).removed;
      var kept := |ListedNames(items) * protected|;
      var quota := |items| - if kept > 2 then kept else 2;
      var deletable := ListedNames(items) - protected - failing;
      && removed <= deletable
      && |removed| == (if |deletable| < quota then |deletable| else quota)
      && |ListedNames(items) - removed| == |items| - |removed|
  {
    hide UniqueNames, RunLoop, LoopStep, ProtectedCount, ListedNames;
    var start := Start(items, protected);
    var end := RunLoop(start, failing);
    ProtectedCountIsCardinality(items, protected);
    ListedNamesAreListed(items);
    RetentionHolds(items, protected, failing);
    StartIsAccounted(items, protected, failing);
    RunLoopKeepsInvariant(start, failing);
    RunLoopSparesNothing(start, failing);
    var deletable := ListedNames(items) - protected - failing;
    assert end.removed <= deletable;
    SubsetSize(end.removed, deletable);
    SubsetSize(end.removed, ListedNames(items));
    if end.deleteCount != 0 {
      forall name | name in deletable ensures name in end.removed {
        var i :| 0 <= i < |items| && items[i].name == name;
      }
      assert end.removed == deletable;
    }
  }

  lemma SubsetSize(a: set<string>, b: set<string>)
    requires a <= b
    ensures |a| <= |b| && |b - a| == |b| - |a|
  {
    assert b == a + (b - a);
  }

  /** Exchanges an element with its left neighbour. */
  method Exchange(items: array<GeneratedConfigMap>, j: nat)
    requires 0 < j < items.Length && UniqueNames(items[..])
    modifies items
    ensures multiset(items[..]) == multiset(old(items[..]))
    ensures UniqueNames(items[..])
    ensures items[j] == old(items[j - 1]) && items[j - 1] == old(items[j])
    ensures forall k :: 0 <= k < items.Length && k != j && k != j - 1 ==> items[k] == old(items[k])
  {
    hide UniqueNames;
    ghost var was := items[..];
    items[j], items[j - 1] := items[j - 1], items[j];
    assert items[..] == was[j := was[j - 1]][j - 1 := was[j]];
    ExchangeKeepsNames(was, j);
  }

  lemma ExchangeKeepsNames(items: seq<GeneratedConfigMap>, j: nat)
    requires 0 < j < |items| && UniqueNames(items)
    ensures UniqueNames(items[j := items[j - 1]][j - 1 := items[j]])
  {
  }

  /** Everything up to `i` is in order, not counting the element at `j` that is on its way down. */
  ghost predicate InOrderBut(items: seq<GeneratedConfigMap>, i: nat, j: nat)
    requires i < |items|
  {
    forall k, m :: 0 <= k < m <= i && m != j && k != j ==> items[k].created <= items[m].created
  }

  /** Sorts in place, oldest first. */
  method SortByCreation(items: array<GeneratedConfigMap>)
    requires UniqueNames(items[..])
    modifies items
    ensures multiset(items[..]) == multiset(old(items[..]))
    ensures UniqueNames(items[..]) && OldestFirst(items[..])
  {
    hide UniqueNames;
    for i := 0 to items.Length
      invariant multiset(items[..]) == multiset(old(items[..]))
      invariant UniqueNames(items[..])
      invariant forall k, m :: 0 <= k < m < i ==> items[k].created <= items[m].created
    {
      var j := i;
      while j > 0 && items[j].created < items[j - 1].created
        invariant 0 <= j <= i
        invariant multiset(items[..]) == multiset(old(items[..]))
        invariant UniqueNames(items[..])
        invariant InOrderBut(items[..], i, j)
        invariant forall m :: j < m <= i ==> items[j].created <= items[m].created
      {
        Exchange(items, j);
        j := j - 1;
      }
    }
  }
}
