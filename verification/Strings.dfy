/** The order of strings and the sorted list of a set of them, as sort.Strings gives it. */
module Strings {

  predicate Less(a: string, b: string) {
    b != "" && (a == "" || a[0] < b[0] || (a[0] == b[0] && Less(a[1..], b[1..])))
  }

  lemma LessIsTotal(a: string, b: string)
    ensures Less(a, b) || a == b || Less(b, a)
    ensures !(Less(a, b) && Less(b, a))
    ensures !Less(a, a)
  {
    if a != "" && b != "" && a[0] == b[0] {
      LessIsTotal(a[1..], b[1..]);
      assert a == [a[0]] + a[1..] && b == [b[0]] + b[1..];
    }
  }

  lemma LessIsTransitive(a: string, b: string, c: string)
    requires Less(a, b) && Less(b, c)
    ensures Less(a, c)
  {
  }

  predicate StrictlySorted(s: seq<string>) {
    forall i, j :: 0 <= i < j < |s| ==> Less(s[i], s[j])
  }

  /** `x` put in front of the first greater element. */
  function Insert(x: string, s: seq<string>): (r: seq<string>)
    ensures forall y :: y in r <==> y == x || y in s
    ensures |r| == |s| + 1
  {
    if s == [] || Less(x, s[0]) then [x] + s
    else
      var r := [s[0]] + Insert(x, s[1..]);
      assert forall y :: y in s <==> y == s[0] || y in s[1..];
      r
  }

  lemma {:induction false} InsertKeepsSorted(x: string, s: seq<string>)
    requires StrictlySorted(s) && x !in s
    ensures StrictlySorted(Insert(x, s))
  {
    if s == [] {
    } else if Less(x, s[0]) {
      forall j | 0 <= j < |s| ensures Less(x, s[j]) {
        if j > 0 {
          LessIsTransitive(x, s[0], s[j]);
        }
      }
    } else {
      LessIsTotal(x, s[0]);
      var rest := Insert(x, s[1..]);
      InsertKeepsSorted(x, s[1..]);
      forall j | 0 <= j < |rest| ensures Less(s[0], rest[j]) {
        assert rest[j] in rest;
        if rest[j] != x {
          var k :| 0 <= k < |s[1..]| && s[1..][k] == rest[j];
          assert Less(s[0], s[k + 1]);
        }
      }
    }
  }

  /** The elements of the set in increasing order. */
  ghost function Sorted(keys: set<string>): (r: seq<string>)
    ensures StrictlySorted(r)
    ensures forall k :: k in r <==> k in keys
  {
    if keys == {} then []
    else
      var k :| k in keys;
      InsertKeepsSorted(k, Sorted(keys - {k}));
      Insert(k, Sorted(keys - {k}))
  }

  lemma SortedHasNoDuplicates(s: seq<string>, i: nat, j: nat)
    requires StrictlySorted(s) && i < |s| && j < |s| && s[i] == s[j]
    ensures i == j
  {
    LessIsTotal(s[i], s[i]);
  }

  /** The order fixes the list: any two increasing lists of the same elements are equal. */
  lemma {:induction false} SortedIsUnique(a: seq<string>, b: seq<string>)
    requires StrictlySorted(a) && StrictlySorted(b)
    requires forall k :: k in a <==> k in b
    ensures a == b
  {
    assert forall i :: 0 <= i < |a| ==> a[i] in b;
    assert forall i :: 0 <= i < |b| ==> b[i] in a;
    if a != [] && b != [] {
      FirstIsLeast(a, b[0]);
      FirstIsLeast(b, a[0]);
      LessIsTotal(a[0], b[0]);
      forall k ensures k in a[1..] <==> k in b[1..] {
        RestIsWithoutFirst(a, k);
        RestIsWithoutFirst(b, k);
      }
      SortedIsUnique(a[1..], b[1..]);
    }
  }

  lemma RestIsWithoutFirst(s: seq<string>, k: string)
    requires StrictlySorted(s) && s != []
    ensures k in s[1..] <==> k in s && k != s[0]
  {
    if k == s[0] {
      LessIsTotal(k, k);
    }
  }

  lemma FirstIsLeast(s: seq<string>, k: string)
    requires StrictlySorted(s) && k in s
    ensures k == s[0] || Less(s[0], k)
  {
  }

  /** Visits the set in any order. */
  method SortedKeys(keys: set<string>) returns (sorted: seq<string>)
    ensures sorted == Sorted(keys)
  {
    sorted := [];
    var rest := keys;
    while rest != {}
      invariant rest <= keys && StrictlySorted(sorted)
      invariant forall k :: k in sorted <==> k in keys - rest
      decreases |rest|
    {
      var k :| k in rest;
      InsertKeepsSorted(k, sorted);
      sorted := Insert(k, sorted);
      rest := rest - {k};
    }
    SortedIsUnique(sorted, Sorted(keys));
  }
}
