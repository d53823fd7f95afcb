/** Provider IDs: the webhook's view of them and the generated config's. */
module Webhook {
  import opened Prelude
  import opened ProviderTypes
  import P = Providers

  // ---------------------------------------------------------------------------
  // The webhook's checks.
  // ---------------------------------------------------------------------------

  /** The IDs that occur again, once for each repeated occurrence. */
  function Repeats(ids: seq<string>): seq<string> {
    if ids == [] then []
    else
      var front, id := ids[..|ids| - 1], ids[|ids| - 1];
      Repeats(front) + (if id in front then [id] else [])
  }

  function IDsOf(spec: Option<ProvidersSpec>): seq<string> {
    if spec.None? then [] else IDs(spec.value)
  }

  /** The known IDs and one error for each duplicate. */
  method CollectAllProviderIDs(spec: Option<ProvidersSpec>) returns (seen: set<string>, errs: seq<string>)
    ensures forall id :: id in seen <==> id in IDsOf(spec)
    ensures errs == Repeats(IDsOf(spec))
  {
    hide IDs;
    seen, errs := {}, [];
    if spec.None? {
      return;
    }
    var all := IDs(spec.value);
    for i := 0 to |all|
      invariant forall id :: id in seen <==> id in all[..i]
      invariant errs == Repeats(all[..i])
    {
      assert all[..i + 1][..i] == all[..i];
      if all[i] in seen {
        errs := errs + [all[i]];
      }
      seen := seen + {all[i]};
    }
    assert all[..|all|] == all;
  }

  /** The positions of the models whose provider is given but not configured. */
  function UnknownReferences(models: seq<string>, ids: seq<string>): seq<nat> {
    if models == [] then []
    else
      var provider := models[|models| - 1];
      UnknownReferences(models[..|models| - 1], ids)
      + (if provider != "" && provider !in ids then [|models| - 1] else [])
  }

  method ValidateProviderReferences(models: seq<string>, providers: Option<ProvidersSpec>) returns (errs: seq<nat>)
    ensures errs == UnknownReferences(models, IDsOf(providers))
  {
    hide IDs;
    var providerIDs, _ := CollectAllProviderIDs(providers);
    errs := [];
    for i := 0 to |models|
      invariant errs == UnknownReferences(models[..i], IDsOf(providers))
    {
      assert models[..i + 1][..i] == models[..i];
      if models[i] != "" {
        if models[i] !in providerIDs {
          errs := errs + [i];
        }
      }
    }
    assert models[..|models|] == models;
  }

  lemma {:induction false} NoRepeatsMeansDistinct(ids: seq<string>)
    ensures Repeats(ids) == [] <==> Distinct(ids)
  {
    if ids != [] {
      var front, id := ids[..|ids| - 1], ids[|ids| - 1];
      NoRepeatsMeansDistinct(front);
      assert Distinct(ids) <==> Distinct(front) && id !in front by {
        assert forall i :: 0 <= i < |front| ==> front[i] == ids[i];
      }
    }
  }

  /** There is one error for each model that names a provider nobody configured, in the models' order. */
  lemma {:induction false} UnknownReferencesExactly(models: seq<string>, ids: seq<string>)
    ensures forall i: nat :: i in UnknownReferences(models, ids) <==> i < |models| && models[i] != "" && models[i] !in ids
    ensures var errs := UnknownReferences(models, ids); forall k, l :: 0 <= k < l < |errs| ==> errs[k] < errs[l]
  {
    if models != [] {
      var n := |models| - 1;
      var front, before := models[..n], UnknownReferences(models[..n], ids);
      UnknownReferencesExactly(front, ids);
      OneMoreModel(models, ids);
      hide UnknownReferences;
      var errs := UnknownReferences(models, ids);
      forall k | 0 <= k < |before| ensures before[k] < n {
        assert before[k] in before;
      }
      if models[n] != "" && models[n] !in ids {
        assert errs[|before|] == n;
        assert forall i :: i in errs <==> i in before || i == n;
      }
    }
  }

  lemma OneMoreModel(models: seq<string>, ids: seq<string>)
    requires models != []
    ensures var n := |models| - 1;
            UnknownReferences(models, ids)
            == UnknownReferences(models[..n], ids) + if models[n] != "" && models[n] !in ids then [n] else []
  {
  }

  /** `at` are the positions of the repeated occurrences, in increasing order. */
  predicate RepeatedAt(ids: seq<string>, at: seq<nat>) {
    && (forall k :: 0 <= k < |at| ==> at[k] < |ids|)
    && (forall k, l :: 0 <= k < l < |at| ==> at[k] < at[l])
    && (forall i :: 0 <= i < |ids| ==> (i in at <==> ids[i] in ids[..i]))
  }

  /** There is one error for each ID that occurred before, in the order of the list. */
  lemma {:induction false} RepeatsExactly(ids: seq<string>) returns (at: seq<nat>)
    ensures RepeatedAt(ids, at)
    ensures |Repeats(ids)| == |at| && forall k :: 0 <= k < |at| ==> Repeats(ids)[k] == ids[at[k]]
  {
    hide RepeatedAt;
    if ids == [] {
      at := [];
      NoneRepeated();
    } else {
      var n := |ids| - 1;
      var front := RepeatsExactly(ids[..n]);
      OneMoreID(ids[..n], ids[n], front);
      assert ids == ids[..n] + [ids[n]];
      at := if ids[n] in ids[..n] then front + [n] else front;
      assert forall k :: 0 <= k < |front| ==> front[k] < n by { PositionsFit(ids[..n], front); }
    }
  }

  lemma NoneRepeated()
    ensures RepeatedAt([], [])
  {
  }

  lemma PositionsFit(ids: seq<string>, at: seq<nat>)
    requires RepeatedAt(ids, at)
    ensures forall k :: 0 <= k < |at| ==> at[k] < |ids|
  {
  }

  lemma OneMoreID(ids: seq<string>, id: string, at: seq<nat>)
    requires RepeatedAt(ids, at)
    ensures RepeatedAt(ids + [id], if id in ids then at + [|ids|] else at)
  {
    var more := if id in ids then at + [|ids|] else at;
    forall i | 0 <= i < |ids + [id]| ensures i in more <==> (ids + [id])[i] in (ids + [id])[..i] {
      assert (ids + [id])[..i] == ids[..i];
      assert ids[..|ids|] == ids;
      if id in ids {
        assert more[|at|] == |ids|;
      }
    }
  }

  // ---------------------------------------------------------------------------
  // The generated config.
  // ---------------------------------------------------------------------------

  type Sections = map<Api, seq<P.ConfigProvider>>

  /** User sections replace the base's, API by API. */
  function MergeProviders(base: Sections, user: Sections): Sections {
    base + user
  }

  /** One of the two copying loops; visits the map in any order. */
  method CopyInto(dst: Sections, src: Sections) returns (merged: Sections)
    ensures merged == dst + src
  {
    merged := dst;
    var rest := src.Keys;
    while rest != {}
      invariant rest <= src.Keys && merged.Keys == dst.Keys + (src.Keys - rest)
      invariant forall k :: k in merged ==> merged[k] == if k in src.Keys - rest then src[k] else dst[k]
      decreases |rest|
    {
      var k :| k in rest;
      merged := merged[k := src[k]];
      rest := rest - {k};
    }
  }

  method MergeProvidersInto(base: Sections, user: Sections) returns (merged: Sections)
    ensures merged == MergeProviders(base, user)
  {
    merged := CopyInto(map[], base);
    assert map[] + base == base;
    merged := CopyInto(merged, user);
  }

  /** The merged sections, API by API: the user's where the spec declares a provider of the API, and
      otherwise the base's as they are, or none. */
  lemma MergedExactly(base: Sections, s: ProvidersSpec, api: Api)
    requires P.ExpandProviders(Some(s)).Ok?
    ensures var merged := MergeProviders(base, P.ExpandProviders(Some(s)).value);
            if exists p :: Declares(s, api, p) then
              && api in merged
              && (forall p :: Declares(s, api, p) ==> exists cp :: cp in merged[api] && P.IsEntryFor(cp, p))
              && (forall cp :: cp in merged[api] ==> exists p :: Declares(s, api, p) && P.IsEntryFor(cp, p))
            else
              (api in merged <==> api in base) && (api in base ==> merged[api] == base[api])
  {
    hide Declares, P.RunExpanders, P.BuildProviderExpanders, P.ExpansionOrder, P.ExpandAll, P.Expand, P.IsEntryFor, P.Configured;
    var order := P.ExpansionOrder(s, api);
    P.ExpandersAreTheConfiguredApis(s);
    P.ExpandedSections(s, P.BuildProviderExpanders(s));
    P.UnconfiguredOrderIsEmpty(s, api);
    P.ExpansionIsComplete(s, api);
    forall p ensures Declares(s, api, p) <==> p in order {
      P.OrderListsTheDeclared(s, api, p);
    }
    forall p | P.Expand(p).Ok? ensures P.IsEntryFor(P.Expand(p).value, p) {
      P.ExpandedEntry(p);
    }
    if order != [] {
      assert order[0] in order;
    }
  }

  function ProviderIDs(ps: seq<P.ConfigProvider>): seq<string> {
    Map((cp: P.ConfigProvider) => cp.providerID, ps)
  }

  function SectionIDs(sections: Sections, api: Api): seq<string> {
    if api in sections then ProviderIDs(sections[api]) else []
  }

  /** The provider_ids of the sections, in API order. */
  function ConfigIDs(sections: Sections): seq<string> {
    SectionIDs(sections, Inference) + SectionIDs(sections, VectorIO) + SectionIDs(sections, ToolRuntime)
    + SectionIDs(sections, Files) + SectionIDs(sections, Batches) + SectionIDs(sections, Responses)
    + SectionIDs(sections, FileProcessors)
  }

  // ---------------------------------------------------------------------------
  // The traversals agree.
  // ---------------------------------------------------------------------------

  function IDsOfApi(s: ProvidersSpec, api: Api): seq<string> {
    match api
    case Inference => InferenceIDs(s.inference)
    case VectorIO => VectorIOIDs(s.vectorIO)
    case ToolRuntime => ToolRuntimeIDs(s.toolRuntime)
    case Files => FilesIDs(s.files)
    case Batches => BatchesIDs(s.batches)
    case Responses => ResponsesIDs(s.responses)
    case FileProcessors => FileProcessorsIDs(s.fileProcessors)
    case OtherApi(_) => []
  }

  lemma IDsConcat(a: seq<Provider>, b: seq<Provider>)
    ensures DeriveSliceIDs(a + b) == DeriveSliceIDs(a) + DeriveSliceIDs(b)
  {
  }

  lemma IDsOfOptional(p: Option<Provider>)
    ensures DeriveSliceIDs(Optionally(p)) == OptionalID(p)
  {
  }

  /** The webhook goes through a section in the order of its expander. */
  lemma SectionOrderAgrees(s: ProvidersSpec, api: Api)
    ensures IDsOfApi(s, api) == DeriveSliceIDs(P.ExpansionOrder(s, api))
  {
    match api
    case Inference => if s.inference.Some? { InferenceOrderAgrees(s.inference.value); }
    case VectorIO => if s.vectorIO.Some? { VectorIOOrderAgrees(s.vectorIO.value); }
    case ToolRuntime => if s.toolRuntime.Some? { ToolRuntimeOrderAgrees(s.toolRuntime.value); }
    case Files => if s.files.Some? { FilesOrderAgrees(s.files.value); }
    case Batches => if s.batches.Some? { BatchesOrderAgrees(s.batches.value); }
    case Responses => if s.responses.Some? { ResponsesOrderAgrees(s.responses.value); }
    case FileProcessors => if s.fileProcessors.Some? { FileProcessorsOrderAgrees(s.fileProcessors.value); }
    case OtherApi(_) =>
  }

  lemma InferenceOrderAgrees(s: InferenceSpec)
    ensures InferenceIDs(Some(s)) == DeriveSliceIDs(P.InferenceOrder(s))
  {
    hide DeriveID;
  }

  lemma VectorIOOrderAgrees(s: VectorIOSpec)
    ensures VectorIOIDs(Some(s)) == DeriveSliceIDs(P.VectorIOOrder(s))
  {
    hide DeriveID;
  }

  lemma ToolRuntimeOrderAgrees(s: ToolRuntimeSpec)
    ensures ToolRuntimeIDs(Some(s)) == DeriveSliceIDs(P.ToolRuntimeOrder(s))
  {
    hide DeriveID;
  }

  lemma OptionalThenCustom(p: Option<Provider>, custom: seq<Provider>)
    ensures DeriveSliceIDs(Optionally(p) + custom) == OptionalID(p) + DeriveSliceIDs(custom)
  {
    IDsConcat(Optionally(p), custom);
    IDsOfOptional(p);
  }

  lemma NoIDs()
    ensures DeriveSliceIDs([]) == []
  {
  }

  lemma FilesOrderAgrees(s: FilesSpec)
    ensures FilesIDs(Some(s)) == DeriveSliceIDs(P.FilesOrder(s))
  {
    hide DeriveSliceIDs, OptionalID, Optionally;
    NoIDs();
    var remote: seq<Provider> :=
      if s.remote.None? then [] else Optionally(s.remote.value.s3) + s.remote.value.custom;
    var inline: seq<Provider> :=
      if s.inline.None? then [] else Optionally(s.inline.value.localfs) + s.inline.value.custom;
    if s.remote.Some? {
      OptionalThenCustom(s.remote.value.s3, s.remote.value.custom);
    }
    if s.inline.Some? {
      OptionalThenCustom(s.inline.value.localfs, s.inline.value.custom);
    }
    IDsConcat(remote, inline);
  }

  lemma BatchesOrderAgrees(s: BatchesSpec)
    ensures BatchesIDs(Some(s)) == DeriveSliceIDs(P.BatchesOrder(s))
  {
    hide DeriveSliceIDs, OptionalID, Optionally;
    NoIDs();
    var remote: seq<Provider> := if s.remote.None? then [] else s.remote.value.custom;
    var inline: seq<Provider> :=
      if s.inline.None? then [] else Optionally(s.inline.value.reference) + s.inline.value.custom;
    if s.inline.Some? {
      OptionalThenCustom(s.inline.value.reference, s.inline.value.custom);
    }
    IDsConcat(remote, inline);
  }

  lemma ResponsesOrderAgrees(s: ResponsesSpec)
    ensures ResponsesIDs(Some(s)) == DeriveSliceIDs(P.ResponsesOrder(s))
  {
    hide DeriveSliceIDs, OptionalID, Optionally;
    NoIDs();
    var remote: seq<Provider> := if s.remote.None? then [] else s.remote.value.custom;
    var inline: seq<Provider> :=
      if s.inline.None? then [] else Optionally(s.inline.value.builtin) + s.inline.value.custom;
    if s.inline.Some? {
      OptionalThenCustom(s.inline.value.builtin, s.inline.value.custom);
    }
    IDsConcat(remote, inline);
  }

  lemma FileProcessorsOrderAgrees(s: FileProcessorsSpec)
    ensures FileProcessorsIDs(Some(s)) == DeriveSliceIDs(P.FileProcessorsOrder(s))
  {
    hide DeriveSliceIDs, OptionalID, Optionally, P.InlineFileProcessorsOrder;
    NoIDs();
    var remote: seq<Provider> :=
      if s.remote.None? then [] else Optionally(s.remote.value.doclingServe) + s.remote.value.custom;
    var inline: seq<Provider> := if s.inline.None? then [] else P.InlineFileProcessorsOrder(s.inline.value);
    if s.remote.Some? {
      OptionalThenCustom(s.remote.value.doclingServe, s.remote.value.custom);
    }
    if s.inline.Some? {
      InlineFileProcessorsOrderAgrees(s.inline.value);
    }
    IDsConcat(remote, inline);
  }

  lemma InlineFileProcessorsOrderAgrees(i: FileProcessorsInline)
    ensures FileProcessorsInlineIDs(Some(i)) == DeriveSliceIDs(P.InlineFileProcessorsOrder(i))
  {
    hide DeriveSliceIDs, OptionalID, Optionally;
    IDsOfOptional(i.auto);
    IDsOfOptional(i.pypdf);
    IDsOfOptional(i.markitdown);
    IDsOfOptional(i.docling);
    var auto, pypdf, markitdown, docling :=
      Optionally(i.auto), Optionally(i.pypdf), Optionally(i.markitdown), Optionally(i.docling);
    IDsConcat(auto, pypdf);
    IDsConcat(auto + pypdf, markitdown);
    IDsConcat(auto + pypdf + markitdown, docling);
    IDsConcat(auto + pypdf + markitdown + docling, i.custom);
  }

  lemma SectionIDsAgree(s: ProvidersSpec, api: Api)
    requires P.ExpandProviders(Some(s)).Ok?
    ensures SectionIDs(P.ExpandProviders(Some(s)).value, api) == DeriveSliceIDs(P.ExpansionOrder(s, api))
  {
    hide P.ExpansionOrder, P.ExpandAll, P.RunExpanders, P.BuildProviderExpanders, P.Configured, DeriveID, P.TypedConfig, P.ExpandCustom;
    var order, expanders := P.ExpansionOrder(s, api), P.BuildProviderExpanders(s);
    P.ExpandersAreTheConfiguredApis(s);
    P.ExpandedSections(s, expanders);
    P.SectionExpansion(order);
    P.UnconfiguredOrderIsEmpty(s, api);
    forall p | p in order && P.Expand(p).Ok? ensures P.Expand(p).value.providerID == DeriveID(p) {
      P.ExpandedID(p);
    }
    assert forall i :: 0 <= i < |order| ==> order[i] in order;
  }

  /** ProvidersSpec.IDs is the list of provider_ids the expansion emits, in API order. */
  lemma TraversalsAgree(s: ProvidersSpec)
    requires P.ExpandProviders(Some(s)).Ok?
    ensures IDs(s) == ConfigIDs(P.ExpandProviders(Some(s)).value)
  {
    hide SectionIDs, P.ExpandProviders, P.ExpansionOrder, DeriveSliceIDs;
    forall api ensures IDsOfApi(s, api) == SectionIDs(P.ExpandProviders(Some(s)).value, api) {
      SectionOrderAgrees(s, api);
      SectionIDsAgree(s, api);
    }
    hide InferenceIDs, VectorIOIDs, ToolRuntimeIDs, FilesIDs, BatchesIDs, ResponsesIDs, FileProcessorsIDs;
    assert IDs(s) == IDsOfApi(s, Inference) + IDsOfApi(s, VectorIO) + IDsOfApi(s, ToolRuntime) + IDsOfApi(s, Files)
                     + IDsOfApi(s, Batches) + IDsOfApi(s, Responses) + IDsOfApi(s, FileProcessors);
  }

  /** The webhook sees no duplicate exactly when the user's provider_ids in the config are distinct. */
  lemma NoDuplicateMeansDistinctInConfig(s: ProvidersSpec)
    requires P.ExpandProviders(Some(s)).Ok?
    ensures Repeats(IDsOf(Some(s))) == [] <==> Distinct(ConfigIDs(P.ExpandProviders(Some(s)).value))
  {
    hide IDs, ConfigIDs, P.ExpandProviders;
    TraversalsAgree(s);
    NoRepeatsMeansDistinct(IDs(s));
  }

  /** A provider a model names explicitly, once accepted, is in the config whatever the base is. */
  lemma AcceptedReferenceIsExpanded(models: seq<string>, s: ProvidersSpec, base: Sections, i: nat)
    requires P.ExpandProviders(Some(s)).Ok?
    requires UnknownReferences(models, IDsOf(Some(s))) == []
    requires i < |models| && models[i] != ""
    ensures exists api, cp :: var merged := MergeProviders(base, P.ExpandProviders(Some(s)).value);
                              api in merged && cp in merged[api] && cp.providerID == models[i]
  {
    hide IDs, P.ExpandProviders, SectionIDs;
    var user := P.ExpandProviders(Some(s)).value;
    TraversalsAgree(s);
    UnknownReferencesExactly(models, IDs(s));
    assert i !in UnknownReferences(models, IDs(s));
    var api :| models[i] in SectionIDs(user, api);
    var cp := EntryWithID(user, api, models[i]);
    assert cp in MergeProviders(base, user)[api];
  }

  lemma EntryWithID(sections: Sections, api: Api, id: string) returns (cp: P.ConfigProvider)
    requires id in SectionIDs(sections, api)
    ensures api in sections && cp in sections[api] && cp.providerID == id
  {
    var ids := ProviderIDs(sections[api]);
    var k :| 0 <= k < |ids| && ids[k] == id;
    cp := sections[api][k];
  }
}
