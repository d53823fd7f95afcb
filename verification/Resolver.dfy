/** Resolution of a distribution's base config from image labels, through the cache. */
module Resolver {
  import opened Prelude
  import opened LruCache

  type Labels = map<string, string>

  datatype FetchError = Inaccessible

  datatype ResolveError =
    | EmptyImage
    | NoFetcher
    | FetchFailed
    | MissingLabel(name: string)
    | Undecodable(name: string)

  const DEFAULT_CONFIG_LABEL := "com.ogx.distribution.default-config"
  const CONFIG_LABEL_PREFIX := "com.ogx.config."
  const DIGEST_MARK := "@sha256:"

  /** Base64 decoding is a parameter. */
  type Decoder = string -> Option<Bytes>

  /** The config the labels of an image hold. */
  function ConfigOf(labels: Labels, decode: Decoder): Result<Bytes, ResolveError> {
    if DEFAULT_CONFIG_LABEL !in labels || labels[DEFAULT_CONFIG_LABEL] == "" then Err(MissingLabel(DEFAULT_CONFIG_LABEL))
    else
      var configLabel := CONFIG_LABEL_PREFIX + labels[DEFAULT_CONFIG_LABEL];
      if configLabel !in labels || labels[configLabel] == "" then Err(MissingLabel(configLabel))
      else if decode(labels[configLabel]).None? then Err(Undecodable(configLabel))
      else Ok(decode(labels[configLabel]).value)
  }

  /** What fetching and decoding gives, without any cache. */
  function FetchAndDecode(fetched: Result<Labels, FetchError>, decode: Decoder): Result<Bytes, ResolveError> {
    if fetched.Err? then Err(FetchFailed) else ConfigOf(fetched.value, decode)
  }

  /** strings.Contains. */
  predicate Contains(s: string, part: string) {
    part <= s || (s != "" && Contains(s[1..], part))
  }

  /** shouldCacheOCIConfig: the reference is pinned to a digest. */
  predicate IsPinned(imageRef: string) {
    Contains(imageRef, DIGEST_MARK)
  }

  function ResolveFromOCI(s: Slots, imageRef: string, fetched: Result<Labels, FetchError>, decode: Decoder)
    : (Result<Bytes, ResolveError>, Slots)
  {
    var known := if IsPinned(imageRef) then Lookup(s, imageRef) else None;
    if known.Some? then (Ok(known.value), AfterGet(s, imageRef))
    else
      var r := FetchAndDecode(fetched, decode);
      (r, if r.Ok? && IsPinned(imageRef) then AfterSet(s, imageRef, r.value) else s)
  }

  /** One call: its result and the cache it leaves. */
  function Resolve(s: Slots, hasFetcher: bool, imageRef: string, fetched: Result<Labels, FetchError>, decode: Decoder)
    : (Result<Bytes, ResolveError>, Slots)
  {
    if imageRef == "" then (Err(EmptyImage), s)
    else if !hasFetcher then (Err(NoFetcher), s)
    else ResolveFromOCI(s, imageRef, fetched, decode)
  }

  class ConfigResolver {
    const cache: Cache
    const hasFetcher: bool

    constructor (hasFetcher: bool)
      ensures this.hasFetcher == hasFetcher && cache.Valid() && cache.contents == [] && fresh(cache) && cache.order == []
    {
      cache := new Cache();
      this.hasFetcher := hasFetcher;
    }

    /** `fetched` is what the registry answers if it is asked during this call. */
    method ResolveImage(imageRef: string, fetched: Result<Labels, FetchError>, decode: Decoder)
      returns (r: Result<Bytes, ResolveError>)
      requires cache.Valid()
      modifies cache, cache.order
      ensures cache.Valid() && (forall e :: e in cache.order ==> e in old(cache.order) || fresh(e))
      ensures (r, cache.contents) == Resolve(old(cache.contents), hasFetcher, imageRef, fetched, decode)
    {
      hide Linked, AfterSet, Position, FrontMoved, IsPinned, ConfigOf;
      if imageRef == "" {
        return Err(EmptyImage);
      }
      if !hasFetcher {
        return Err(NoFetcher);
      }
      if IsPinned(imageRef) {
        AbsentKeyIsNotMoved(cache.contents, imageRef);
        var data := cache.Get(imageRef);
        if data.Some? {
          return Ok(data.value);
        }
      }
      assert forall e :: e in cache.order ==> e in old(cache.order);
      if fetched.Err? {
        return Err(FetchFailed);
      }
      r := ReadLabels(fetched.value, decode);
      if r.Ok? && IsPinned(imageRef) {
        forall i | 0 <= i < |cache.order| ensures cache.order[i] in old(cache.order) {
          assert cache.order[i] in cache.order;
        }
        cache.Set(imageRef, r.value);
      }
    }
  }

  lemma AbsentKeyIsNotMoved(s: Slots, key: string)
    ensures Lookup(s, key).None? ==> AfterGet(s, key) == s
  {
  }

  method ReadLabels(labels: Labels, decode: Decoder) returns (r: Result<Bytes, ResolveError>)
    ensures r == ConfigOf(labels, decode)
  {
    if DEFAULT_CONFIG_LABEL !in labels || labels[DEFAULT_CONFIG_LABEL] == "" {
      return Err(MissingLabel(DEFAULT_CONFIG_LABEL));
    }
    var configLabel := CONFIG_LABEL_PREFIX + labels[DEFAULT_CONFIG_LABEL];
    if configLabel !in labels || labels[configLabel] == "" {
      return Err(MissingLabel(configLabel));
    }
    var data := decode(labels[configLabel]);
    if data.None? {
      return Err(Undecodable(configLabel));
    }
    r := Ok(data.value);
  }

  // ---------------------------------------------------------------------------
  // Whole runs.
  // ---------------------------------------------------------------------------

  datatype Request = Request(imageRef: string, fetched: Result<Labels, FetchError>)

  /** The cache after a run of calls of one resolver that has a fetcher. */
  function CacheAfter(requests: seq<Request>, decode: Decoder): Slots {
    if requests == [] then []
    else
      var last := requests[|requests| - 1];
      Resolve(CacheAfter(requests[..|requests| - 1], decode), true, last.imageRef, last.fetched, decode).1
  }

  /** A digest names one image: whenever a pinned reference can be fetched, its labels are the same. */
  ghost predicate Deterministic(requests: seq<Request>, pinned: string -> Labels) {
    forall i :: 0 <= i < |requests| && IsPinned(requests[i].imageRef) && requests[i].fetched.Ok? ==>
      requests[i].fetched.value == pinned(requests[i].imageRef)
  }

  /** Every slot is for a pinned reference and holds the config of its labels. */
  ghost predicate Coherent(s: Slots, pinned: string -> Labels, decode: Decoder) {
    && WellFormed(s)
    && forall slot :: slot in s ==> IsPinned(slot.key) && ConfigOf(pinned(slot.key), decode) == Ok(slot.data)
  }

  lemma GetKeepsCoherence(s: Slots, key: string, pinned: string -> Labels, decode: Decoder)
    requires Coherent(s, pinned, decode)
    ensures Coherent(AfterGet(s, key), pinned, decode)
  {
    hide IsPinned, ConfigOf;
    OperationsKeepWellFormed(s, key, []);
    var i := Position(s, key);
    if i < |s| {
      WithoutOne(s, i);
      hide Without;
      assert s[i] in s;
    }
  }

  lemma SetKeepsCoherence(s: Slots, key: string, data: Bytes, pinned: string -> Labels, decode: Decoder)
    requires Coherent(s, pinned, decode) && IsPinned(key) && ConfigOf(pinned(key), decode) == Ok(data)
    ensures Coherent(AfterSet(s, key, data), pinned, decode)
  {
    hide IsPinned, ConfigOf;
    OperationsKeepWellFormed(s, key, data);
    var i := Position(s, key);
    if i < |s| {
      WithoutOne(s, i);
      hide Without;
    } else {
      assert forall slot :: slot in s[..|s|] || (s != [] && slot in s[..|s| - 1]) ==> slot in s;
    }
  }

  /** In every reachable state the cache holds pinned references only, each with the config that
      fetching it gives; a mutable tag is never stored. */
  lemma {:induction false} CacheIsCoherent(requests: seq<Request>, pinned: string -> Labels, decode: Decoder)
    requires Deterministic(requests, pinned)
    ensures Coherent(CacheAfter(requests, decode), pinned, decode)
  {
    hide IsPinned, ConfigOf, AfterGet, AfterSet;
    if requests != [] {
      var front, last := requests[..|requests| - 1], requests[|requests| - 1];
      CacheIsCoherent(front, pinned, decode);
      var s := CacheAfter(front, decode);
      GetKeepsCoherence(s, last.imageRef, pinned, decode);
      var r := FetchAndDecode(last.fetched, decode);
      if r.Ok? && IsPinned(last.imageRef) {
        SetKeepsCoherence(s, last.imageRef, r.value, pinned, decode);
      }
    }
  }

  /** After any run, a call is transparent: for a pinned reference every success is what fetching
      and decoding gives, and it succeeds exactly when that does or the reference is cached; for a
      mutable tag the result is always this call's own fetch. */
  lemma ResolveIsTransparent(
      before: seq<Request>, request: Request, pinned: string -> Labels, decode: Decoder)
    requires Deterministic(before + [request], pinned) && request.imageRef != ""
    ensures var s := CacheAfter(before, decode);
            var r := Resolve(s, true, request.imageRef, request.fetched, decode).0;
            if IsPinned(request.imageRef) then
              && (r.Ok? ==> r == ConfigOf(pinned(request.imageRef), decode))
              && (r.Ok? <==> Lookup(s, request.imageRef).Some? || FetchAndDecode(request.fetched, decode).Ok?)
            else r == FetchAndDecode(request.fetched, decode)
  {
    hide IsPinned, ConfigOf, AfterGet, AfterSet;
    var run := before + [request];
    assert run[|before|] == request;
    assert forall i :: 0 <= i < |before| ==> run[i] == before[i];
    CacheIsCoherent(before, pinned, decode);
    LookupIsMembership(CacheAfter(before, decode), request.imageRef);
  }

  // ---------------------------------------------------------------------------
  // What the terms mean.
  // ---------------------------------------------------------------------------

  lemma {:induction false} ContainsExactly(s: string, part: string)
    ensures Contains(s, part) <==> exists a, b :: s == a + part + b
  {
    if part <= s {
      assert s == "" + part + s[|part|..];
    } else if s != "" {
      ContainsExactly(s[1..], part);
      if Contains(s[1..], part) {
        var a, b :| s[1..] == a + part + b;
        assert s == ([s[0]] + a) + part + b;
      }
      forall b: string ensures s != "" + part + b {
        assert part <= "" + part + b;
      }
      if a, b :| s == a + part + b {
        assert a != "";
        assert s[1..] == a[1..] + part + b;
      }
    } else {
      forall a: string, b: string ensures s != a + part + b {
        assert |a + part + b| >= |part|;
      }
    }
  }

  /** A reference is pinned when it has a digest, wherever that stands. */
  lemma PinnedExactly(imageRef: string)
    ensures IsPinned(imageRef) <==> exists a, b :: imageRef == a + "@sha256:" + b
  {
    ContainsExactly(imageRef, "@sha256:");
  }

  /** The labels name a default config and hold its text, neither of them empty. */
  predicate HoldsConfig(labels: Labels, name: string, text: string) {
    && "com.ogx.distribution.default-config" in labels && labels["com.ogx.distribution.default-config"] == name
    && "com.ogx.config." + name in labels && labels["com.ogx.config." + name] == text
    && name != "" && text != ""
  }

  /** What the labels give: the decoded text of the default config, or else the label at fault. */
  lemma ConfigExactly(labels: Labels, decode: Decoder)
    ensures match ConfigOf(labels, decode)
            case Ok(data) => (exists name, text :: HoldsConfig(labels, name, text) && decode(text) == Some(data))
            case Err(e) =>
              if e.Undecodable? then
                exists name, text :: HoldsConfig(labels, name, text) && decode(text) == None && e.name == "com.ogx.config." + name
              else
                && e.MissingLabel?
                && (e.name !in labels || labels[e.name] == "")
                && (e.name == "com.ogx.distribution.default-config"
                    || ("com.ogx.distribution.default-config" in labels
                        && e.name == "com.ogx.config." + labels["com.ogx.distribution.default-config"]))
                && forall name, text :: !HoldsConfig(labels, name, text)
  {
    if ConfigOf(labels, decode).Ok? || ConfigOf(labels, decode).error.Undecodable? {
      var name := labels["com.ogx.distribution.default-config"];
      assert HoldsConfig(labels, name, labels["com.ogx.config." + name]);
    }
  }

  lemma CacheIsWellFormed(requests: seq<Request>, decode: Decoder)
    ensures WellFormed(CacheAfter(requests, decode))
  {
    hide IsPinned, ConfigOf, AfterGet, AfterSet, DistinctKeys;
    if requests != [] {
      var front, last := requests[..|requests| - 1], requests[|requests| - 1];
      CacheIsWellFormed(front, decode);
      var s := CacheAfter(front, decode);
      var r := FetchAndDecode(last.fetched, decode);
      OperationsKeepWellFormed(s, last.imageRef, if r.Ok? then r.value else []);
    } else {
      NothingStored();
    }
  }

  lemma NothingStored()
    ensures WellFormed([])
  {
  }

  /** The other references of a run. */
  function Others(requests: seq<Request>, imageRef: string): set<string> {
    set i | 0 <= i < |requests| && requests[i].imageRef != imageRef :: requests[i].imageRef
  }

  lemma {:induction false} StaysHeld(
      before: seq<Request>, later: seq<Request>, slot: Slot, others: set<string>, decode: Decoder) returns (p: nat)
    requires HeldAt(CacheAfter(before, decode), slot, 0, others) && |others| < MAX_ENTRIES
    requires forall i :: 0 <= i < |later| ==> later[i].imageRef == slot.key || later[i].imageRef in others
    ensures HeldAt(CacheAfter(before + later, decode), slot, p, others)
  {
    hide HeldAt, AfterGet, AfterSet, Lookup, IsPinned, ConfigOf, WellFormed;
    if later == [] {
      assert before + later == before;
      p := 0;
    } else {
      var front, last := later[..|later| - 1], later[|later| - 1];
      p := StaysHeld(before, front, slot, others, decode);
      assert (before + later)[..|before + later| - 1] == before + front;
      var s := CacheAfter(before + front, decode);
      HeldIsFound(s, slot, p, others);
      var q := GetKeepsHeld(s, slot, p, others, last.imageRef);
      var r := FetchAndDecode(last.fetched, decode);
      if last.imageRef == "" || (IsPinned(last.imageRef) && Lookup(s, last.imageRef).Some?) {
        p := if last.imageRef == "" then p else q;
      } else if r.Ok? && IsPinned(last.imageRef) {
        p := SetKeepsHeld(s, slot, p, others, last.imageRef, r.value);
      }
    }
  }

  lemma HeldIsFound(s: Slots, slot: Slot, p: nat, others: set<string>)
    requires HeldAt(s, slot, p, others)
    ensures Lookup(s, slot.key) == Some(slot.data)
  {
    LookupIsMembership(s, slot.key);
    assert s[p] in s;
  }

  /** What a pinned reference resolved to is served from the cache, whatever the registry answers by
      then, as long as fewer than 64 other references were resolved in between. */
  lemma PinnedIsServedAgain(before: seq<Request>, request: Request, later: seq<Request>, fetched: Result<Labels, FetchError>, decode: Decoder)
    requires request.imageRef != "" && exists a, b :: request.imageRef == a + "@sha256:" + b
    requires Resolve(CacheAfter(before, decode), true, request.imageRef, request.fetched, decode).0.Ok?
    requires |Others(later, request.imageRef)| < 64
    ensures Resolve(CacheAfter(before + [request] + later, decode), true, request.imageRef, fetched, decode).0
            == Resolve(CacheAfter(before, decode), true, request.imageRef, request.fetched, decode).0
  {
    hide AfterGet, AfterSet, ConfigOf, IsPinned, Lookup, HeldAt, WellFormed;
    PinnedExactly(request.imageRef);
    CacheIsWellFormed(before, decode);
    var s := CacheAfter(before, decode);
    var data := Resolve(s, true, request.imageRef, request.fetched, decode).0.value;
    var slot, others := Slot(request.imageRef, data), Others(later, request.imageRef);
    UsedIsHeld(s, request.imageRef, data, others);
    var run := before + [request];
    assert run[..|run| - 1] == before && run[|run| - 1] == request;
    var p := StaysHeld(run, later, slot, others, decode);
    HeldIsFound(CacheAfter(run + later, decode), slot, p, others);
  }

  /** Without an image or a fetcher there is nothing to resolve. */
  lemma ResolveNeedsImageAndFetcher(s: Slots, hasFetcher: bool, imageRef: string, fetched: Result<Labels, FetchError>, decode: Decoder)
    ensures var r := Resolve(s, hasFetcher, imageRef, fetched, decode);
            && (r.0 == Err(EmptyImage) <==> imageRef == "")
            && (r.0 == Err(NoFetcher) <==> imageRef != "" && !hasFetcher)
            && (r.0.Err? ==> r.1 == s)
  {
    hide AfterGet, AfterSet, IsPinned, Lookup;
  }
}
