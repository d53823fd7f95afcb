/** The cache of configs read from image labels: a map into a list ordered by last use. */
module LruCache {
  import opened Prelude

  type Bytes = seq<bv8>

  const MAX_ENTRIES := 64

  // ---------------------------------------------------------------------------
  // The abstract cache: its slots, latest used first.
  // ---------------------------------------------------------------------------

  datatype Slot = Slot(key: string, data: Bytes)

  type Slots = seq<Slot>

  /** The position of a key, or the length when it is absent. */
  function Position(s: Slots, key: string): (i: nat)
    ensures i <= |s|
    ensures i < |s| ==> s[i].key == key
    ensures forall j :: 0 <= j < i ==> s[j].key != key
  {
    if s == [] || s[0].key == key then 0 else 1 + Position(s[1..], key)
  }

  function Lookup(s: Slots, key: string): Option<Bytes> {
    var i := Position(s, key);
    if i < |s| then Some(s[i].data) else None
  }

  function Without<T>(s: seq<T>, i: nat): (r: seq<T>)
    requires i < |s|
    ensures |r| == |s| - 1
  {
    s[..i] + s[i + 1..]
  }

  function FrontMoved<T>(s: seq<T>, i: nat): (r: seq<T>)
    requires i < |s|
    ensures |r| == |s|
  {
    [s[i]] + Without(s, i)
  }

  function AfterGet(s: Slots, key: string): Slots {
    var i := Position(s, key);
    if i < |s| then FrontMoved(s, i) else s
  }

  function AfterSet(s: Slots, key: string, data: Bytes): Slots {
    var i := Position(s, key);
    if i < |s| then [Slot(key, data)] + Without(s, i)
    else if |s| >= MAX_ENTRIES then [Slot(key, data)] + s[..|s| - 1]
    else [Slot(key, data)] + s
  }

  predicate DistinctKeys(s: Slots) {
    forall i, j :: 0 <= i < j < |s| ==> s[i].key != s[j].key
  }

  predicate WellFormed(s: Slots) {
    DistinctKeys(s) && |s| <= MAX_ENTRIES
  }

  lemma LookupIsMembership(s: Slots, key: string)
    requires DistinctKeys(s)
    ensures forall data :: Lookup(s, key) == Some(data) <==> Slot(key, data) in s
    ensures Lookup(s, key).None? <==> forall slot :: slot in s ==> slot.key != key
  {
    var i := Position(s, key);
    if i < |s| {
      assert s[i] in s;
      forall slot | slot in s && slot.key == key ensures slot == s[i] {
        var j :| 0 <= j < |s| && s[j] == slot;
      }
    }
  }

  lemma WithoutOne(s: Slots, i: nat)
    requires DistinctKeys(s) && i < |s|
    ensures DistinctKeys(Without(s, i))
    ensures forall slot :: slot in Without(s, i) <==> slot in s && slot.key != s[i].key
  {
    var t := Without(s, i);
    forall j | 0 <= j < |t| ensures t[j] == s[if j < i then j else j + 1] {
    }
    forall slot | slot in s && slot.key != s[i].key ensures slot in t {
      var j :| 0 <= j < |s| && s[j] == slot;
      assert t[if j < i then j else j - 1] == slot;
    }
  }

  lemma PushFront(slot: Slot, s: Slots)
    requires DistinctKeys(s) && forall other :: other in s ==> other.key != slot.key
    ensures DistinctKeys([slot] + s)
  {
    forall i | 0 <= i < |s| ensures s[i].key != slot.key {
      assert s[i] in s;
    }
  }

  lemma OperationsKeepWellFormed(s: Slots, key: string, data: Bytes)
    requires WellFormed(s)
    ensures WellFormed(AfterGet(s, key)) && WellFormed(AfterSet(s, key, data))
  {
    var i := Position(s, key);
    if i < |s| {
      WithoutOne(s, i);
      hide Without, DistinctKeys;
      PushFront(s[i], Without(s, i));
      PushFront(Slot(key, data), Without(s, i));
    } else {
      PushFront(Slot(key, data), s);
      if s != [] {
        PushFront(Slot(key, data), s[..|s| - 1]);
      }
      hide DistinctKeys;
    }
  }

  /** A get changes no value; a set changes the value of its key and, when the cache is full and the
      key new, drops exactly the last slot. */
  lemma OperationsOnValues(s: Slots, key: string, data: Bytes, other: string)
    requires WellFormed(s)
    ensures Lookup(AfterGet(s, key), other) == Lookup(s, other)
    ensures Lookup(AfterSet(s, key, data), key) == Some(data)
    ensures other != key ==>
              Lookup(AfterSet(s, key, data), other) ==
                if Lookup(s, key).None? && |s| == MAX_ENTRIES && other == s[|s| - 1].key then None else Lookup(s, other)
  {
    OperationsKeepWellFormed(s, key, data);
    LookupIsMembership(s, other);
    LookupIsMembership(AfterGet(s, key), other);
    LookupIsMembership(AfterSet(s, key, data), other);
    var i := Position(s, key);
    if i < |s| {
      WithoutOne(s, i);
      hide Lookup, Without;
    } else if |s| == MAX_ENTRIES {
      WithoutOne(s, |s| - 1);
      assert Without(s, |s| - 1) == s[..|s| - 1];
      hide Lookup, Without;
    }
  }

  lemma PositionIsUnique(s: Slots, key: string)
    requires DistinctKeys(s)
    ensures forall i :: 0 <= i < |s| && s[i].key == key ==> i == Position(s, key)
  {
  }

  // ---------------------------------------------------------------------------
  // What the order means: the keys by last use.
  // ---------------------------------------------------------------------------

  datatype Operation = GetOp(key: string) | SetOp(key: string, data: Bytes)

  function Apply(s: Slots, op: Operation): Slots {
    match op
    case GetOp(key) => AfterGet(s, key)
    case SetOp(key, data) => AfterSet(s, key, data)
  }

  function Run(ops: seq<Operation>): Slots {
    if ops == [] then [] else Apply(Run(ops[..|ops| - 1]), ops[|ops| - 1])
  }

  function Remove(keys: seq<string>, key: string): seq<string> {
    if keys == [] then []
    else if keys[0] == key then keys[1..]
    else [keys[0]] + Remove(keys[1..], key)
  }

  /** The keys used in a run, each once, latest use first. A get that misses is no use. */
  function ByLastUse(ops: seq<Operation>): seq<string> {
    if ops == [] then []
    else
      var front, op := ops[..|ops| - 1], ops[|ops| - 1];
      if op.GetOp? && Lookup(Run(front), op.key).None? then ByLastUse(front)
      else [op.key] + Remove(ByLastUse(front), op.key)
  }

  function KeysOf(s: Slots): seq<string> {
    Map((slot: Slot) => slot.key, s)
  }

  lemma {:induction false} RemoveAt(keys: seq<string>, i: nat)
    requires i < |keys| && forall j :: 0 <= j < i ==> keys[j] != keys[i]
    ensures Remove(keys, keys[i]) == keys[..i] + keys[i + 1..]
  {
    if i > 0 {
      RemoveAt(keys[1..], i - 1);
      assert keys[..i] == [keys[0]] + keys[1..][..i - 1];
    }
  }

  /** Removing a key that is not among the first n keeps those. */
  lemma {:induction false} RemoveBeyond(keys: seq<string>, key: string, n: nat)
    requires n <= |keys| && key !in keys[..n]
    ensures n <= |Remove(keys, key)| && Remove(keys, key)[..n] == keys[..n]
    ensures key !in keys ==> Remove(keys, key) == keys
    ensures |keys| - 1 <= |Remove(keys, key)| <= |keys|
  {
    if n > 0 {
      assert keys[0] in keys[..n];
      assert forall k :: k in keys[1..][..n - 1] ==> k in keys[..n];
      RemoveBeyond(keys[1..], key, n - 1);
    } else if keys != [] && keys[0] != key {
      RemoveBeyond(keys[1..], key, 0);
    }
  }

  /** The cache holds the latest used keys in that order: all of them, or the first 64. So what a
      full cache evicts is the least recently used. */
  lemma {:induction false} CacheHoldsTheLatestUsed(ops: seq<Operation>)
    ensures WellFormed(Run(ops))
    ensures KeysOf(Run(ops)) == (if |ByLastUse(ops)| <= 64 then ByLastUse(ops) else ByLastUse(ops)[..64])
  {
    if ops != [] {
      var front, op := ops[..|ops| - 1], ops[|ops| - 1];
      CacheHoldsTheLatestUsed(front);
      var s, recent := Run(front), ByLastUse(front);
      assert KeysOf(s) == Latest(recent);
      OperationsKeepWellFormed(s, op.key, if op.SetOp? then op.data else []);
      var i := Position(s, op.key);
      assert KeysOf(s) == recent[..|s|];
      if i < |s| {
        LatestMoves(s, recent, i);
      } else if op.SetOp? {
        LatestGrows(s, recent, op.key, op.data);
      }
    }
  }

  function Latest(recent: seq<string>): seq<string> {
    if |recent| <= MAX_ENTRIES then recent else recent[..MAX_ENTRIES]
  }

  lemma LatestMoves(s: Slots, recent: seq<string>, i: nat)
    requires WellFormed(s) && KeysOf(s) == Latest(recent) && i < |s|
    ensures forall slot: Slot :: slot.key == s[i].key ==>
              KeysOf([slot] + Without(s, i)) == Latest([slot.key] + Remove(recent, slot.key))
  {
    assert forall j :: 0 <= j < |s| ==> recent[j] == KeysOf(s)[j];
    RemoveAt(recent, i);
  }

  lemma KeysOfParts(slot: Slot, s: Slots, n: nat)
    requires n <= |s|
    ensures KeysOf([slot] + s[..n]) == [slot.key] + KeysOf(s)[..n]
  {
  }

  lemma LatestGrows(s: Slots, recent: seq<string>, key: string, data: Bytes)
    requires WellFormed(s) && KeysOf(s) == Latest(recent) && Position(s, key) == |s|
    ensures KeysOf(AfterSet(s, key, data)) == Latest([key] + Remove(recent, key))
  {
    var kept := if |s| >= MAX_ENTRIES then |s| - 1 else |s|;
    assert s[..|s|] == s;
    assert AfterSet(s, key, data) == [Slot(key, data)] + s[..kept];
    KeysOfParts(Slot(key, data), s, kept);
    NotAmongKeys(s, key);
    hide KeysOf, Position, AfterSet, DistinctKeys;
    var others := Remove(recent, key);
    assert KeysOf(s) == recent[..|s|];
    RemoveBeyond(recent, key, |s|);
    hide Remove;
    assert ([key] + others)[..kept + 1] == [key] + others[..kept];
    assert others[..kept] == others[..|s|][..kept];
  }

  lemma NotAmongKeys(s: Slots, key: string)
    requires Position(s, key) == |s|
    ensures key !in KeysOf(s) && |KeysOf(s)| == |s|
  {
  }

  /** The key has its slot, and only keys from `others` are ahead of it. */
  ghost predicate HeldAt(s: Slots, slot: Slot, p: nat, others: set<string>) {
    && WellFormed(s) && slot.key !in others
    && p < |s| && s[p] == slot
    && forall j :: 0 <= j < p ==> s[j].key in others
  }

  lemma UsedIsHeld(s: Slots, key: string, data: Bytes, others: set<string>)
    requires WellFormed(s) && key !in others
    ensures HeldAt(AfterSet(s, key, data), Slot(key, data), 0, others)
    ensures Lookup(s, key) == Some(data) ==> HeldAt(AfterGet(s, key), Slot(key, data), 0, others)
  {
    OperationsKeepWellFormed(s, key, data);
    hide DistinctKeys;
  }

  lemma SlotsMoved(s: Slots, i: nat)
    requires i < |s|
    ensures FrontMoved(s, i)[0] == s[i]
    ensures forall j :: 0 < j <= i ==> FrontMoved(s, i)[j] == s[j - 1]
    ensures forall j :: i < j < |s| ==> FrontMoved(s, i)[j] == s[j]
  {
  }

  /** Using another key moves the slot back by one place at most. */
  lemma GetKeepsHeld(s: Slots, slot: Slot, p: nat, others: set<string>, key: string) returns (q: nat)
    requires HeldAt(s, slot, p, others) && (key == slot.key || key in others)
    ensures HeldAt(AfterGet(s, key), slot, q, others)
  {
    hide FrontMoved, Position, DistinctKeys;
    OperationsKeepWellFormed(s, key, []);
    var i := Position(s, key);
    if i < |s| {
      SlotsMoved(s, i);
      q := if i < p then p else if i == p then 0 else p + 1;
    } else {
      q := p;
    }
  }

  /** Storing another one does too, and cannot evict it while there are fewer than 64 others. */
  lemma SetKeepsHeld(s: Slots, slot: Slot, p: nat, others: set<string>, key: string, data: Bytes) returns (q: nat)
    requires HeldAt(s, slot, p, others) && Lookup(s, key).None? && key in others && |others| < MAX_ENTRIES
    ensures HeldAt(AfterSet(s, key, data), slot, q, others)
  {
    hide Position, Without;
    OperationsKeepWellFormed(s, key, data);
    q := p + 1;
    AheadAreOthers(s, slot, p, others, key);
    hide DistinctKeys;
    assert forall j :: 0 < j <= q ==> AfterSet(s, key, data)[j] == s[j - 1];
  }

  lemma AheadAreOthers(s: Slots, slot: Slot, p: nat, others: set<string>, key: string)
    requires HeldAt(s, slot, p, others) && Lookup(s, key).None? && key in others
    ensures p < |others|
  {
    hide Position;
    forall j | 0 <= j < p ensures s[j].key in others - {key} {
      assert s[j].key != key;
    }
    DistinctBound(s[..p], others - {key});
  }

  lemma {:induction false} DistinctBound(s: Slots, keys: set<string>)
    requires DistinctKeys(s) && forall j :: 0 <= j < |s| ==> s[j].key in keys
    ensures |s| <= |keys|
  {
    if s != [] {
      DistinctBound(s[..|s| - 1], keys - {s[|s| - 1].key});
    }
  }

  // ---------------------------------------------------------------------------
  // The cache as a map and a linked list.
  // ---------------------------------------------------------------------------

  /** A list element with the entry it holds. */
  class Element {
    const key: string
    var data: Bytes

    constructor (key: string, data: Bytes)
      ensures this.key == key && this.data == data
    {
      this.key := key;
      this.data := data;
    }
  }

  /** Each element is where its key leads, and each key leads to an element. */
  ghost predicate Indexed(items: map<string, Element>, order: seq<Element>) {
    && (forall e :: e in order ==> e.key in items && items[e.key] == e)
    && (forall k :: k in items ==> items[k] in order && items[k].key == k)
  }

  /** The map and the list agree. The key of an element never changes, so this needs no heap. */
  ghost predicate Linked(items: map<string, Element>, order: seq<Element>) {
    Distinct(order) && Indexed(items, order) && |items| == |order| <= MAX_ENTRIES
  }

  /** Where the element at `j` of the moved list came from. */
  function Origin(i: nat, j: nat): nat {
    if j == 0 then i else if j <= i then j - 1 else j
  }

  lemma FrontMovedAt<T>(s: seq<T>, i: nat, j: nat)
    requires i < |s| && j < |s|
    ensures FrontMoved(s, i)[j] == s[Origin(i, j)]
  {
  }

  lemma TailOfFrontMoved<T>(s: seq<T>, i: nat)
    requires i < |s|
    ensures FrontMoved(s, i)[1..] == Without(s, i)
  {
  }

  lemma FrontMovedEverywhere<T>(s: seq<T>, i: nat)
    requires i < |s|
    ensures forall j :: 0 <= j < |s| ==> FrontMoved(s, i)[j] == s[Origin(i, j)]
  {
    forall j | 0 <= j < |s| ensures FrontMoved(s, i)[j] == s[Origin(i, j)] {
      FrontMovedAt(s, i, j);
    }
  }

  lemma FrontMovedIsPermuted<T>(s: seq<T>, i: nat)
    requires i < |s|
    ensures forall x :: x in FrontMoved(s, i) <==> x in s
    ensures Distinct(s) ==> Distinct(FrontMoved(s, i))
  {
    hide FrontMoved;
    var moved := FrontMoved(s, i);
    forall j | 0 <= j < |s| ensures moved[j] == s[Origin(i, j)] {
      FrontMovedAt(s, i, j);
    }
    forall x | x in s ensures x in moved {
      var j :| 0 <= j < |s| && s[j] == x;
      assert moved[if j == i then 0 else if j < i then j + 1 else j] == x;
    }
  }

  lemma FrontMovedIsLinked(items: map<string, Element>, order: seq<Element>, i: nat)
    requires Linked(items, order) && i < |order|
    ensures Linked(items, FrontMoved(order, i))
    ensures FrontMoved(order, i)[0] == order[i]
  {
    FrontMovedIsPermuted(order, i);
    FrontMovedAt(order, i, 0);
    hide FrontMoved, Distinct;
  }

  lemma PushedIsLinked(items: map<string, Element>, order: seq<Element>, e: Element)
    requires Linked(items, order) && |order| < MAX_ENTRIES && e.key !in items
    ensures Linked(items[e.key := e], [e] + order)
  {
    assert e !in order;
    forall j | 0 <= j < |order| ensures order[j] != e {
      assert order[j] in order;
    }
  }

  lemma PoppedIsLinked(items: map<string, Element>, order: seq<Element>)
    requires Linked(items, order) && order != []
    ensures Linked(items - {order[|order| - 1].key}, order[..|order| - 1])
  {
    var last, front := order[|order| - 1], order[..|order| - 1];
    var rest := items - {last.key};
    LastIsApart(order);
    assert last in order;
    PoppedIsIndexed(items, rest, order, front, last);
    hide Distinct, Indexed;
    assert items.Keys == rest.Keys + {last.key};
  }

  lemma PoppedIsIndexed(
      items: map<string, Element>, rest: map<string, Element>,
      order: seq<Element>, front: seq<Element>, last: Element)
    requires Indexed(items, order) && last in order && rest == items - {last.key}
    requires forall e :: e in front <==> e in order && e != last
    ensures Indexed(rest, front) && last.key in items
  {
  }

  lemma LastIsApart<T>(s: seq<T>)
    requires Distinct(s) && s != []
    ensures Distinct(s[..|s| - 1])
    ensures forall x :: x in s[..|s| - 1] <==> x in s && x != s[|s| - 1]
  {
    forall x | x in s && x != s[|s| - 1] ensures x in s[..|s| - 1] {
      var j :| 0 <= j < |s| && s[j] == x;
      assert s[..|s| - 1][j] == x;
    }
  }

  class Cache {
    var items: map<string, Element>
    var order: seq<Element>
    /** The abstract cache. */
    ghost var contents: Slots

    ghost predicate Valid()
      reads this, order
    {
      && Linked(items, order)
      && |contents| == |order|
      && forall i :: 0 <= i < |order| ==> contents[i] == Slot(order[i].key, order[i].data)
    }

    constructor ()
      ensures Valid() && contents == [] && order == []
    {
      items := map[];
      order := [];
      contents := [];
    }

    /** Where the list holds a key of the map. */
    lemma Locate(key: string) returns (i: nat)
      requires Valid() && key in items
      ensures i < |order| && order[i] == items[key] && items[key].key == key
      ensures Position(contents, key) == i && i < |contents|
    {
      i :| i < |order| && order[i] == items[key];
      forall i, j | 0 <= i < j < |contents| ensures contents[i].key != contents[j].key {
        assert order[i] in order && order[j] in order;
      }
      PositionIsUnique(contents, key);
    }

    lemma AbsentSlot(key: string)
      requires Valid() && key !in items
      ensures Position(contents, key) == |contents|
    {
      forall i | 0 <= i < |order| ensures contents[i].key != key {
        assert order[i] in order;
      }
    }

    lemma SameSize()
      requires Valid()
      ensures |items| == |order| == |contents| <= MAX_ENTRIES
    {
    }

    /** list.MoveToFront; `at` is where the element's links put it. */
    method MoveToFront(elem: Element, ghost at: nat)
      requires Valid() && at < |order| && order[at] == elem
      modifies this`order, this`contents
      ensures Valid() && order == FrontMoved(old(order), at)
      ensures contents == FrontMoved(old(contents), at)
    {
      hide Linked, FrontMoved;
      var i :| 0 <= i < |order| && order[i] == elem;
      OnlyOnce(i, at);
      FrontMovedIsLinked(items, order, i);
      FrontMovedEverywhere(order, i);
      FrontMovedEverywhere(contents, i);
      order := FrontMoved(order, i);
      contents := FrontMoved(contents, i);
    }

    lemma OnlyOnce(i: nat, j: nat)
      requires Valid() && i < |order| && j < |order| && order[i] == order[j]
      ensures i == j
    {
    }

    method Get(key: string) returns (data: Option<Bytes>)
      requires Valid()
      modifies this`order, this`contents
      ensures Valid() && (forall e :: e in order <==> e in old(order))
      ensures data == Lookup(old(contents), key)
      ensures contents == AfterGet(old(contents), key)
    {
      hide Linked, Position, FrontMoved;
      if key !in items {
        AbsentSlot(key);
        return None;
      }
      var elem := items[key];
      ghost var i := Locate(key);
      MoveToFront(elem, i);
      FrontMovedIsPermuted(old(order), i);
      data := Some(elem.data);
    }

    /** The part of set that gives a known key its new value. */
    method SetKnown(key: string, data: Bytes)
      requires Valid() && key in items
      modifies this`order, this`contents, order
      ensures Valid() && (forall e :: e in order <==> e in old(order))
      ensures contents == AfterSet(old(contents), key, data)
    {
      hide Linked, Position, FrontMoved, Without;
      var elem := items[key];
      ghost var i := Locate(key);
      FrontMovedAt(order, i, 0);
      TailOfFrontMoved(contents, i);
      MoveToFront(elem, i);
      FrontMovedIsPermuted(old(order), i);
      FirstIsApart();
      elem.data := data;
      contents := [Slot(key, data)] + contents[1..];
    }

    lemma FirstIsApart()
      requires Valid()
      ensures forall i :: 0 < i < |order| ==> order[i] != order[0]
    {
    }

    /** The part of set that makes room: what it drops is the least recently used. */
    method EvictOldest()
      requires Valid() && order != []
      modifies this`items, this`order, this`contents
      ensures Valid() && items.Keys <= old(items.Keys)
      ensures contents == old(contents)[..|old(contents)| - 1]
      ensures order == old(order)[..|old(order)| - 1]
    {
      hide Linked;
      var oldest := order[|order| - 1];
      PoppedIsLinked(items, order);
      order := order[..|order| - 1];
      items := items - {oldest.key};
      contents := contents[..|contents| - 1];
    }

    /** The part of set that adds a new key. */
    method PushNew(key: string, data: Bytes)
      requires Valid() && key !in items && |order| < MAX_ENTRIES
      modifies this
      ensures Valid() && order != [] && fresh(order[0]) && order == [order[0]] + old(order)
      ensures contents == [Slot(key, data)] + old(contents)
    {
      hide Linked;
      var elem := new Element(key, data);
      PushedIsLinked(items, order, elem);
      order := [elem] + order;
      items := items[key := elem];
      contents := [Slot(key, data)] + contents;
    }

    method Set(key: string, data: Bytes)
      requires Valid()
      modifies this, order
      ensures Valid() && (forall e :: e in order ==> e in old(order) || fresh(e))
      ensures contents == AfterSet(old(contents), key, data)
    {
      hide Linked, Position, FrontMoved, Without;
      if key in items {
        SetKnown(key, data);
        return;
      }
      AbsentSlot(key);
      SameSize();
      if |items| >= MAX_ENTRIES {
        EvictOldest();
      }
      PushNew(key, data);
    }
  }
}
