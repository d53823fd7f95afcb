/** The status condition list of an OGXServer and its one writer, SetCondition. */
module Conditions {
  import opened Prelude

  datatype ConditionStatus = True | False | Unknown

  /** The five migration condition types by name; every other writer's type is `Other`. */
  datatype ConditionType =
    | MigrationPreflightReady
    | MigrationJobSucceeded
    | MigrationValidated
    | PraxisCutoverReady
    | SoftRollbackAvailable
    | Other(name: string)

  datatype Reason =
    | PreflightPassed
    | PreflightFailed
    | NotRequested
    | JobRunning
    | JobSucceeded
    | JobFailed
    | JobPending
    | Validated
    | ValidationPending
    | ValidationFailed
    | CutoverReady
    | CutoverNotReady
    | SoftRollbackOnly
    | OtherReason(text: string)

  /** Message texts: one constructor for each fixed text of the migration code, applied to the
      names it is formatted with, and `Text` for any other. Two messages are equal when their
      texts are. */
  datatype Message =
    | Empty
    | SoftRollbackWarning
    | NotOptedIn
    | ChecksPassed
    | CutoverBlocked
    | CutoverMayProceed
    | CutoverBlockedByFailure
    | WaitingForPreviousJob
    | JobCreatedFor(job: string, attemptKey: string)
    | JobCompleted(job: string)
    | JobIsActive(job: string)
    | JobAwaitsCompletion(job: string)
    | JobHasFailed(job: string, detail: string)
    | Text(text: string)

  datatype Condition = Condition(
    ctype: ConditionType,
    status: ConditionStatus,
    reason: Reason,
    message: Message,
    lastTransitionTime: int)

  /** Index of the first entry of type `t`, or the length of the list. */
  function IndexOf(conditions: seq<Condition>, t: ConditionType): (i: nat)
    ensures i <= |conditions|
    ensures i < |conditions| ==> conditions[i].ctype == t
    ensures forall j :: 0 <= j < i ==> conditions[j].ctype != t
  {
    if conditions == [] || conditions[0].ctype == t then 0 else 1 + IndexOf(conditions[1..], t)
  }

  /** GetCondition: the first entry of that type. */
  function Get(conditions: seq<Condition>, t: ConditionType): Option<Condition> {
    var i := IndexOf(conditions, t);
    if i < |conditions| then Some(conditions[i]) else None
  }

  /** IsConditionTrue. */
  predicate IsTrue(conditions: seq<Condition>, t: ConditionType) {
    Get(conditions, t).Some? && Get(conditions, t).value.status == True
  }

  /** The entry that replaces `existing` when `c` is set. */
  function Merged(existing: Condition, c: Condition): Condition {
    if existing.status == c.status && existing.reason == c.reason && existing.message == c.message then existing
    else if existing.status == c.status then c.(lastTransitionTime := existing.lastTransitionTime)
    else c
  }

  /** The list after SetCondition(c). */
  function Set(conditions: seq<Condition>, c: Condition): seq<Condition> {
    var i := IndexOf(conditions, c.ctype);
    if i < |conditions| then conditions[i := Merged(conditions[i], c)] else conditions + [c]
  }

  class ConditionList {
    var conditions: seq<Condition>

    constructor ()
      ensures conditions == []
    {
      conditions := [];
    }

    /** Scans for the type: a same-valued entry is left alone, a same-status entry keeps its
        transition time, any other entry is overwritten, and a new type is appended. */
    method SetCondition(condition: Condition)
      modifies this
      ensures conditions == Set(old(conditions), condition)
    {
      var c := condition;
      var i := 0;
      while i < |conditions|
        invariant 0 <= i <= |conditions|
        invariant conditions == old(conditions) && c == condition
        invariant forall j :: 0 <= j < i ==> conditions[j].ctype != condition.ctype
      {
        if conditions[i].ctype != c.ctype {
          i := i + 1;
          continue;
        }
        IndexOfIsFirst(conditions, c.ctype, i);
        var existing := conditions[i];
        if existing.status == c.status && existing.reason == c.reason && existing.message == c.message {
          assert conditions[i := existing] == conditions;
          return;
        }
        if existing.status == c.status {
          c := c.(lastTransitionTime := existing.lastTransitionTime);
        }
        conditions := conditions[i := c];
        return;
      }
      conditions := conditions + [c];
    }
  }

  lemma IndexOfIsFirst(conditions: seq<Condition>, t: ConditionType, i: nat)
    requires i < |conditions| && conditions[i].ctype == t
    requires forall j :: 0 <= j < i ==> conditions[j].ctype != t
    ensures IndexOf(conditions, t) == i
  {
  }

  /** Setting one type is what a later Get of that type sees, and no other type notices. */
  lemma GetAfterSet(conditions: seq<Condition>, c: Condition, t: ConditionType)
    ensures t != c.ctype ==> Get(Set(conditions, c), t) == Get(conditions, t)
    ensures t == c.ctype ==>
      && Get(Set(conditions, c), t).Some?
      && var now := Get(Set(conditions, c), t).value;
         now.status == c.status && now.reason == c.reason && now.message == c.message
  {
    var after := Set(conditions, c);
    var i := IndexOf(after, t);
    assert forall j :: 0 <= j < |conditions| ==> after[j].ctype == conditions[j].ctype;
    if i < |after| {
      if i < |conditions| && t != c.ctype {
        IndexOfIsFirst(conditions, t, i);
      }
    }
    var k := IndexOf(conditions, t);
    if k < |conditions| {
      IndexOfIsFirst(after, t, k);
    } else if t == c.ctype {
      IndexOfIsFirst(after, t, |conditions|);
    }
  }

  // ---------------------------------------------------------------------------
  // The condition trace: what the list says after any sequence of calls.
  // ---------------------------------------------------------------------------

  /** The list after the given calls, starting from an empty one. */
  function Replay(calls: seq<Condition>): seq<Condition> {
    if calls == [] then [] else Set(Replay(calls[..|calls| - 1]), calls[|calls| - 1])
  }

  /** Types of the calls, each once, in the order of first appearance. */
  function FirstSeen(calls: seq<Condition>): seq<ConditionType> {
    if calls == [] then []
    else
      var before := FirstSeen(calls[..|calls| - 1]);
      var t := calls[|calls| - 1].ctype;
      if t in before then before else before + [t]
  }

  function Types(conditions: seq<Condition>): seq<ConditionType> {
    Map((c: Condition) => c.ctype, conditions)
  }

  lemma {:induction false} TypesAreUniqueInFirstSeenOrder(calls: seq<Condition>)
    ensures Types(Replay(calls)) == FirstSeen(calls)
    ensures Distinct(Types(Replay(calls)))
  {
    if calls != [] {
      var before := Replay(calls[..|calls| - 1]);
      var c := calls[|calls| - 1];
      TypesAreUniqueInFirstSeenOrder(calls[..|calls| - 1]);
      var i := IndexOf(before, c.ctype);
      if i < |before| {
        assert Types(before)[i] == c.ctype;
        assert Types(Set(before, c)) == Types(before);
      } else {
        assert forall j :: 0 <= j < |before| ==> Types(before)[j] == before[j].ctype;
        assert Types(Set(before, c)) == Types(before) + [c.ctype];
      }
    }
  }

  /** Index of the last call of type `t`, or -1. */
  function LastCall(calls: seq<Condition>, t: ConditionType): (i: int)
    ensures -1 <= i < |calls|
    ensures i >= 0 ==> calls[i].ctype == t
    ensures forall k :: i < k < |calls| ==> calls[k].ctype != t
  {
    if calls == [] then -1
    else if calls[|calls| - 1].ctype == t then |calls| - 1
    else
      assert forall k :: 0 <= k < |calls| - 1 ==> calls[..|calls| - 1][k] == calls[k];
      LastCall(calls[..|calls| - 1], t)
  }

  /** `last` is the last call of type `t`; `first` opens the run of calls of that type, ending
      at `last`, that all asked for the same status. */
  ghost predicate CurrentRun(calls: seq<Condition>, t: ConditionType, first: nat, last: nat) {
    && first <= last < |calls|
    && last == LastCall(calls, t)
    && calls[first].ctype == t
    && (forall k :: first <= k <= last && calls[k].ctype == t ==> calls[k].status == calls[last].status)
    && var previous := LastCall(calls[..first], t);
       previous >= 0 ==> calls[previous].status != calls[last].status
  }

  /** Every type that was set has an entry with the last status, reason and message asked for it,
      stamped with the time of the first call of the current run of equal status. */
  lemma {:induction false} ConditionTrace(calls: seq<Condition>, t: ConditionType) returns (first: nat, last: nat)
    requires LastCall(calls, t) >= 0
    ensures CurrentRun(calls, t, first, last)
    ensures Get(Replay(calls), t) == Some(calls[last].(lastTransitionTime := calls[first].lastTransitionTime))
  {
    var n := |calls| - 1;
    var earlier, c := calls[..n], calls[n];
    assert calls == earlier + [c];
    var before := Replay(earlier);
    if c.ctype != t {
      GetAfterSet(before, c, t);
      first, last := ConditionTrace(earlier, t);
      RunUnaffected(earlier, c, t, first, last);
    } else if LastCall(earlier, t) < 0 {
      first, last := n, n;
      NeverCalledIsAbsent(earlier, t);
      IndexOfIsFirst(Set(before, c), t, |before|);
      assert calls[..n] == earlier;
    } else {
      var f, l := ConditionTrace(earlier, t);
      IndexOfIsFirst(Set(before, c), t, IndexOf(before, t));
      last := n;
      first := if earlier[l].status == c.status then f else n;
      RunExtended(earlier, c, t, f, l);
    }
  }

  lemma RunUnaffected(calls: seq<Condition>, c: Condition, t: ConditionType, first: nat, last: nat)
    requires c.ctype != t && CurrentRun(calls, t, first, last)
    ensures CurrentRun(calls + [c], t, first, last)
  {
    assert (calls + [c])[..|calls|] == calls;
    assert (calls + [c])[..first] == calls[..first];
  }

  lemma RunExtended(calls: seq<Condition>, c: Condition, t: ConditionType, first: nat, last: nat)
    requires c.ctype == t && CurrentRun(calls, t, first, last)
    ensures CurrentRun(calls + [c], t, if calls[last].status == c.status then first else |calls|, |calls|)
  {
    assert (calls + [c])[..|calls|] == calls;
    assert (calls + [c])[..first] == calls[..first];
    assert forall k :: last < k < |calls| ==> (calls + [c])[k] == calls[k];
  }

  lemma {:induction false} NeverCalledIsAbsent(calls: seq<Condition>, t: ConditionType)
    requires LastCall(calls, t) < 0
    ensures IndexOf(Replay(calls), t) == |Replay(calls)|
  {
    if calls != [] {
      NeverCalledIsAbsent(calls[..|calls| - 1], t);
      GetAfterSet(Replay(calls[..|calls| - 1]), calls[|calls| - 1], t);
    }
  }
}
