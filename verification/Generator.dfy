/** The glue of the config generator for Praxis mode: the list of served APIs, server auth, and the
    storage section. */
module Generator {
  import opened Prelude
  import opened Yaml
  import P = Providers
  import PT = ProviderTypes
  import Sec = Secrets
  import St = Storage
  import W = Webhook

  type Fields = map<string, Value>

  const PRAXIS_SERVED: seq<string> := ["responses", "conversations"]

  // ---------------------------------------------------------------------------
  // Disabled APIs.
  // ---------------------------------------------------------------------------

  function AppendIfMissing(items: seq<string>, value: string): seq<string> {
    if value in items then items else items + [value]
  }

  /** The caller's slice is read only: the result is that slice or a fresh one. */
  method AppendIfMissingInto(items: array<string>, value: string) returns (r: array<string>)
    ensures r[..] == AppendIfMissing(items[..], value)
    ensures r == items || fresh(r)
  {
    for i := 0 to items.Length
      invariant value !in items[..i]
    {
      if items[i] == value {
        return items;
      }
    }
    assert items[..items.Length] == items[..];
    r := new string[items.Length + 1];
    for i := 0 to items.Length
      invariant r[..i] == items[..i]
    {
      r[i] := items[i];
    }
    r[items.Length] := value;
    assert r[..] == items[..] + [value];
  }

  function EffectiveDisabledAPIs(specDisabled: seq<string>, praxisMode: bool): seq<string> {
    if !praxisMode then specDisabled
    else AppendIfMissing(AppendIfMissing(specDisabled, PRAXIS_SERVED[0]), PRAXIS_SERVED[1])
  }

  method EffectiveDisabledAPIsInto(specDisabled: array<string>, praxisMode: bool) returns (disabled: array<string>)
    ensures disabled[..] == EffectiveDisabledAPIs(specDisabled[..], praxisMode)
    ensures disabled == specDisabled || fresh(disabled)
  {
    disabled := specDisabled;
    if praxisMode {
      disabled := AppendIfMissingInto(disabled, PRAXIS_SERVED[0]);
      disabled := AppendIfMissingInto(disabled, PRAXIS_SERVED[1]);
    }
  }

  /** Exactly what is disabled: the user's choice, and in Praxis mode the two APIs Praxis serves. */
  lemma DisabledExactly(specDisabled: seq<string>, praxisMode: bool, api: string)
    ensures api in EffectiveDisabledAPIs(specDisabled, praxisMode) <==>
      api in specDisabled || (praxisMode && (api == "responses" || api == "conversations"))
  {
  }

  /** The user's choice comes first, as it is, and nothing is added that it names already. */
  lemma DisabledAddsOnce(specDisabled: seq<string>, praxisMode: bool)
    ensures specDisabled <= EffectiveDisabledAPIs(specDisabled, praxisMode)
    ensures Distinct(specDisabled) ==> Distinct(EffectiveDisabledAPIs(specDisabled, praxisMode))
  {
  }

  // ---------------------------------------------------------------------------
  // The two filters.
  // ---------------------------------------------------------------------------

  /** An entry is dropped when it is the name of a disabled API; other values always stay. */
  predicate Survives(item: Value, disabled: seq<string>) {
    !(item.Str? && item.s in disabled)
  }

  function Kept(items: seq<Value>, disabled: seq<string>): seq<Value> {
    if items == [] then []
    else Kept(items[..|items| - 1], disabled)
         + (if Survives(items[|items| - 1], disabled) then [items[|items| - 1]] else [])
  }

  function MergeAPIs(baseAPIs: seq<string>, disabled: seq<string>): seq<string> {
    if baseAPIs == [] then []
    else MergeAPIs(baseAPIs[..|baseAPIs| - 1], disabled)
         + (if baseAPIs[|baseAPIs| - 1] !in disabled then [baseAPIs[|baseAPIs| - 1]] else [])
  }

  method MergeAPIsInto(baseAPIs: seq<string>, disabledAPIs: seq<string>) returns (apis: seq<string>)
    ensures apis == MergeAPIs(baseAPIs, disabledAPIs)
  {
    if |disabledAPIs| == 0 {
      NothingDisabled(baseAPIs);
      return baseAPIs;
    }
    var disabled: set<string> := set d | d in disabledAPIs;
    apis := [];
    for i := 0 to |baseAPIs|
      invariant apis == MergeAPIs(baseAPIs[..i], disabledAPIs)
    {
      assert baseAPIs[..i + 1][..i] == baseAPIs[..i];
      if baseAPIs[i] !in disabled {
        apis := apis + [baseAPIs[i]];
      }
    }
    assert baseAPIs[..|baseAPIs|] == baseAPIs;
  }

  lemma {:induction false} NothingDisabled(baseAPIs: seq<string>)
    ensures MergeAPIs(baseAPIs, []) == baseAPIs
  {
    if baseAPIs != [] {
      NothingDisabled(baseAPIs[..|baseAPIs| - 1]);
    }
  }

  /** A list of APIs can be filtered when it is there and something survives. */
  predicate CanFilter(cfg: Fields, disabled: seq<string>) {
    "apis" in cfg && cfg["apis"].List? && Kept(cfg["apis"].items, disabled) != []
  }

  function WithoutAPIs(cfg: Fields, disabled: seq<string>): Fields {
    if CanFilter(cfg, disabled) then cfg["apis" := List(Kept(cfg["apis"].items, disabled))] else cfg
  }

  /** `at` are the positions of exactly the surviving entries, in increasing order. */
  predicate SurvivorsAt(items: seq<Value>, disabled: seq<string>, at: seq<nat>) {
    && (forall k, l :: 0 <= k < l < |at| ==> at[k] < at[l])
    && (forall k :: 0 <= k < |at| ==> at[k] < |items| && Survives(items[at[k]], disabled))
    && (forall i :: 0 <= i < |items| && Survives(items[i], disabled) ==> i in at)
  }

  lemma SurvivorsOfOneMore(items: seq<Value>, item: Value, disabled: seq<string>, at: seq<nat>)
    requires SurvivorsAt(items, disabled, at)
    ensures SurvivorsAt(items + [item], disabled, if Survives(item, disabled) then at + [|items|] else at)
  {
    var more := if Survives(item, disabled) then at + [|items|] else at;
    forall i | 0 <= i < |items + [item]| && Survives((items + [item])[i], disabled) ensures i in more {
      if i < |items| {
        assert i in at;
      } else {
        assert more[|at|] == i;
      }
    }
  }

  predicate InRange(items: seq<Value>, at: seq<nat>) {
    forall k :: 0 <= k < |at| ==> at[k] < |items|
  }

  function EntriesAt(items: seq<Value>, at: seq<nat>): seq<Value>
    requires InRange(items, at)
  {
    seq(|at|, k requires 0 <= k < |at| => items[at[k]])
  }

  lemma EntriesOfOneMore(items: seq<Value>, item: Value, at: seq<nat>)
    requires InRange(items, at)
    ensures InRange(items + [item], at) && EntriesAt(items + [item], at) == EntriesAt(items, at)
    ensures InRange(items + [item], at + [|items|])
    ensures EntriesAt(items + [item], at + [|items|]) == EntriesAt(items, at) + [item]
  {
  }

  /** The kept list holds the surviving entries, all of them, in their order. */
  lemma {:induction false} KeptPositions(items: seq<Value>, disabled: seq<string>) returns (at: seq<nat>)
    ensures SurvivorsAt(items, disabled, at)
    ensures InRange(items, at) && Kept(items, disabled) == EntriesAt(items, at)
  {
    hide Survives, SurvivorsAt, EntriesAt, InRange;
    if items == [] {
      at := [];
      NoSurvivors(disabled);
    } else {
      var n := |items| - 1;
      var front := KeptPositions(items[..n], disabled);
      SurvivorsOfOneMore(items[..n], items[n], disabled, front);
      EntriesOfOneMore(items[..n], items[n], front);
      assert items == items[..n] + [items[n]];
      at := if Survives(items[n], disabled) then front + [n] else front;
    }
  }

  lemma NoSurvivors(disabled: seq<string>)
    ensures SurvivorsAt([], disabled, []) && InRange([], []) && EntriesAt([], []) == []
  {
  }

  lemma {:induction false} MergedMembers(baseAPIs: seq<string>, disabled: seq<string>)
    ensures forall api :: api in MergeAPIs(baseAPIs, disabled) <==> api in baseAPIs && api !in disabled
  {
    if baseAPIs != [] {
      var front := baseAPIs[..|baseAPIs| - 1];
      MergedMembers(front, disabled);
      assert forall api :: api in baseAPIs <==> api in front || api == baseAPIs[|baseAPIs| - 1];
    }
  }

  function AsValues(names: seq<string>): seq<Value> {
    Map((name: string) => Str(name), names)
  }

  /** On lists of names the two filters keep the same entries. */
  lemma {:induction false} FiltersAgree(names: seq<string>, disabled: seq<string>)
    ensures Kept(AsValues(names), disabled) == AsValues(MergeAPIs(names, disabled))
  {
    if names != [] {
      FiltersAgree(names[..|names| - 1], disabled);
      assert AsValues(names)[..|names| - 1] == AsValues(names[..|names| - 1]);
    }
  }

  // ---------------------------------------------------------------------------
  // What the served surface of a config is.
  // ---------------------------------------------------------------------------

  /** An absent or empty list serves every API. */
  predicate Serves(cfg: Fields, api: string) {
    if "apis" in cfg && cfg["apis"].List? && cfg["apis"].items != [] then Str(api) in cfg["apis"].items else true
  }

  // ---------------------------------------------------------------------------
  // GeneratePraxisDefaultConfig.
  // ---------------------------------------------------------------------------

  function Permit(actions: seq<string>): Value {
    Obj(map["actions" := List(AsValues(actions))])
  }

  function PraxisAuth(): Value {
    Obj(map[
      "provider_config" := Obj(map[
        "type" := Str("upstream_header"),
        "principal_header" := Str("x-user-id"),
        "tenant_header" := Str("x-tenant-id")]),
      "access_policy" := List([
        Obj(map[
          "permit" := Permit(["read"]),
          "when" := Str("resource is unowned"),
          "description" := Str("All users can read system resources")]),
        Obj(map[
          "permit" := Permit(["create"]),
          "description" := Str("Authenticated users can create resources")]),
        Obj(map[
          "permit" := Permit(["read", "update", "delete"]),
          "when" := Str("user is owner"),
          "description" := Str("Owners can manage their own resources")])])])
  }

  datatype ServerError = ServerNotAnObject

  function ServerSection(cfg: Fields): Result<Fields, ServerError> {
    if "server" !in cfg || cfg["server"] == Null then Ok(map[])
    else if cfg["server"].Obj? then Ok(cfg["server"].fields)
    else Err(ServerNotAnObject)
  }

  function StorageSection(cfg: Fields): Option<Fields> {
    if "storage" in cfg && cfg["storage"].Obj? then Some(cfg["storage"].fields) else None
  }

  predicate HasVectorIOProvider(cfg: Fields) {
    && "providers" in cfg
    && cfg["providers"].Obj?
    && "vector_io" in cfg["providers"].fields
    && cfg["providers"].fields["vector_io"].List?
    && |cfg["providers"].fields["vector_io"].items| > 0
  }

  /** The server section with Praxis auth, and the port if the spec gives one. */
  function PraxisServer(server: Fields, port: Option<Value>): Fields {
    var secured := server["auth" := PraxisAuth()];
    if port.Some? then secured["port" := port.value] else secured
  }

  /** The rewrites of an existing storage section; a config without one stays without. */
  ghost function WithPraxisStorage(cfg: Fields, hasVectorIOProvider: bool): Fields {
    match StorageSection(cfg)
    case None => cfg
    case Some(storage) => cfg["storage" := Obj(St.WithVectorStores(storage, hasVectorIOProvider))]
  }

  /** The derived config, and whether its API list was filtered. */
  ghost function PraxisDefaultConfig(cfg: Fields, port: Option<Value>, specDisabled: seq<string>)
    : Result<(Fields, bool), ServerError>
  {
    match ServerSection(cfg)
    case Err(e) => Err(e)
    case Ok(server) =>
      var disabled := EffectiveDisabledAPIs(specDisabled, true);
      var served := cfg["server" := Obj(PraxisServer(server, port))];
      var stored := WithPraxisStorage(served, HasVectorIOProvider(served));
      Ok((WithoutAPIs(stored, disabled), CanFilter(stored, disabled)))
  }

  class ConfigTree {
    var root: Fields

    constructor (cfg: Fields)
      ensures root == cfg
    {
      root := cfg;
    }

    /** Reports whether the list was present and could be filtered. */
    method FilterAPIList(disabled: seq<string>) returns (filtered: bool)
      modifies this
      ensures root == WithoutAPIs(old(root), disabled)
      ensures filtered == CanFilter(old(root), disabled)
    {
      if "apis" !in root || !root["apis"].List? {
        return false;
      }
      var raw := root["apis"].items;
      var omit: set<string> := set d | d in disabled;
      var kept: seq<Value> := [];
      for i := 0 to |raw|
        invariant kept == Kept(raw[..i], disabled) && root == old(root)
      {
        assert raw[..i + 1][..i] == raw[..i];
        if raw[i].Str? && raw[i].s in omit {
          continue;
        }
        kept := kept + [raw[i]];
      }
      assert raw[..|raw|] == raw;
      if |kept| == 0 {
        return false;
      }
      root := root["apis" := List(kept)];
      filtered := true;
    }

    method GeneratePraxisDefaultConfig(port: Option<Value>, specDisabled: array<string>)
      returns (r: Result<bool, ServerError>)
      modifies this
      ensures match PraxisDefaultConfig(old(root), port, specDisabled[..])
              case Err(e) => r == Err(e) && root == old(root)
              case Ok(result) => r == Ok(result.1) && root == result.0
    {
      hide PraxisAuth, WithoutAPIs, CanFilter, EffectiveDisabledAPIs, St.WithVectorStores, HasVectorIOProvider;
      var server := ServerSection(root);
      if server.Err? {
        return Err(server.error);
      }
      root := root["server" := Obj(PraxisServer(server.value, port))];
      var storage := StorageSection(root);
      if storage.Some? {
        var section := new St.StorageSection(storage.value);
        section.ApplyPraxisVectorStoreMetadata(HasVectorIOProvider(root));
        root := root["storage" := Obj(section.root)];
      }
      var disabled := EffectiveDisabledAPIsInto(specDisabled, true);
      var filtered := FilterAPIList(disabled[..]);
      r := Ok(filtered);
    }
  }

  /** A true flag is true to its word: the config serves something, none of the APIs that Praxis
      serves, and nothing the user disabled. A false one leaves the list as it was. */
  lemma FilteredDefaultConfigIsHonest(cfg: Fields, port: Option<Value>, specDisabled: seq<string>, api: string)
    requires PraxisDefaultConfig(cfg, port, specDisabled).Ok?
    ensures var (after, filtered) := PraxisDefaultConfig(cfg, port, specDisabled).value;
            && (filtered ==> && "apis" in after && after["apis"].List? && after["apis"].items != []
                             && (api in PRAXIS_SERVED || api in specDisabled ==> !Serves(after, api)))
            && (!filtered ==> ("apis" in after <==> "apis" in cfg) && ("apis" in cfg ==> after["apis"] == cfg["apis"]))
  {
    hide PraxisAuth, St.WithVectorStores, HasVectorIOProvider;
    var disabled := EffectiveDisabledAPIs(specDisabled, true);
    DisabledExactly(specDisabled, true, api);
    if "apis" in cfg && cfg["apis"].List? {
      var kept := Kept(cfg["apis"].items, disabled);
      var at := KeptPositions(cfg["apis"].items, disabled);
      hide EffectiveDisabledAPIs, Kept;
      assert forall k :: 0 <= k < |kept| ==> Survives(kept[k], disabled);
    }
  }

  /** Sections the operator does not touch come through unchanged, and within the server section
      everything but auth and port does. */
  lemma DefaultConfigKeepsTheRest(cfg: Fields, port: Option<Value>, specDisabled: seq<string>, key: string)
    requires PraxisDefaultConfig(cfg, port, specDisabled).Ok?
    ensures var after := PraxisDefaultConfig(cfg, port, specDisabled).value.0;
            && (key !in {"server", "storage", "apis"} ==>
                  (key in after <==> key in cfg) && (key in cfg ==> after[key] == cfg[key]))
            && after["server"].Obj?
            && (key !in {"auth", "port"} ==>
                  var server := ServerSection(cfg).value;
                  (key in after["server"].fields <==> key in server)
                  && (key in server ==> after["server"].fields[key] == server[key]))
  {
    hide PraxisAuth, Kept, EffectiveDisabledAPIs, St.WithVectorStores, HasVectorIOProvider;
  }

  /** A rule that permits these actions under that condition. */
  ghost predicate IsRule(v: Value, actions: seq<string>, condition: Option<string>) {
    && v.Obj?
    && "permit" in v.fields && v.fields["permit"] == Obj(map["actions" := List(AsValues(actions))])
    && (match condition
        case None => "when" !in v.fields
        case Some(text) => "when" in v.fields && v.fields["when"] == Str(text))
  }

  /** Users are known by the two headers alone. They may read what nobody owns, create, and do anything
      with what they own, and nothing else. */
  ghost predicate IsPraxisAuth(auth: Value) {
    && auth.Obj? && auth.fields.Keys == {"provider_config", "access_policy"}
    && auth.fields["provider_config"] == Obj(map[
         "type" := Str("upstream_header"), "principal_header" := Str("x-user-id"), "tenant_header" := Str("x-tenant-id")])
    && auth.fields["access_policy"].List?
    && var rules := auth.fields["access_policy"].items;
       && |rules| == 3
       && IsRule(rules[0], ["read"], Some("resource is unowned"))
       && IsRule(rules[1], ["create"], None)
       && IsRule(rules[2], ["read", "update", "delete"], Some("user is owner"))
  }

  lemma PraxisAuthIsAsked()
    ensures IsPraxisAuth(PraxisAuth())
  {
    hide AsValues;
  }

  /** Whatever server section the base has, the derived one has Praxis auth in place of any other, and
      the port that was given. A server that is neither an object nor null is refused. */
  lemma DefaultConfigIsSecured(cfg: Fields, port: Option<Value>, specDisabled: seq<string>)
    ensures PraxisDefaultConfig(cfg, port, specDisabled).Err? <==>
      "server" in cfg && cfg["server"] != Null && !cfg["server"].Obj?
    ensures PraxisDefaultConfig(cfg, port, specDisabled).Ok? ==>
              var after := PraxisDefaultConfig(cfg, port, specDisabled).value.0;
              && "server" in after && after["server"].Obj?
              && var server := after["server"].fields;
                 && "auth" in server && IsPraxisAuth(server["auth"])
                 && (match port
                     case Some(p) => "port" in server && server["port"] == p
                     case None =>
                       var given := "server" in cfg && cfg["server"].Obj? && "port" in cfg["server"].fields;
                       && ("port" in server <==> given)
                       && (given ==> server["port"] == cfg["server"].fields["port"]))
  {
    hide PraxisAuth, IsPraxisAuth, Kept, EffectiveDisabledAPIs, St.WithVectorStores, HasVectorIOProvider;
    PraxisAuthIsAsked();
  }

  /** An entry of the base's list that is to be dropped. */
  predicate IsDropped(item: Value, specDisabled: seq<string>, praxisMode: bool) {
    item.Str? && (item.s in specDisabled || (praxisMode && (item.s == "responses" || item.s == "conversations")))
  }

  /** When the flag is set: there is a list and some entry of it stays. Then the new list holds the
      entries that stay, all of them, in their order. */
  lemma FilteredDefaultConfigExactly(cfg: Fields, port: Option<Value>, specDisabled: seq<string>) returns (at: seq<nat>)
    requires PraxisDefaultConfig(cfg, port, specDisabled).Ok?
    ensures var (after, filtered) := PraxisDefaultConfig(cfg, port, specDisabled).value;
            && (filtered <==> && "apis" in cfg && cfg["apis"].List?
                              && exists i :: 0 <= i < |cfg["apis"].items| && !IsDropped(cfg["apis"].items[i], specDisabled, true))
            && (filtered ==>
                  && "apis" in after && after["apis"].List?
                  && StaysAt(cfg["apis"].items, after["apis"].items, specDisabled, true, at))
  {
    hide PraxisAuth, St.WithVectorStores, HasVectorIOProvider, Kept, EffectiveDisabledAPIs;
    at := [];
    if "apis" in cfg && cfg["apis"].List? {
      at := KeptStay(cfg["apis"].items, specDisabled, true);
    }
  }

  /** `kept` are the entries of `items` at those increasing positions, which are all that stay. */
  predicate StaysAt(items: seq<Value>, kept: seq<Value>, specDisabled: seq<string>, praxisMode: bool, at: seq<nat>) {
    && |kept| == |at|
    && (forall k :: 0 <= k < |at| ==> at[k] < |items| && kept[k] == items[at[k]])
    && (forall k, l :: 0 <= k < l < |at| ==> at[k] < at[l])
    && (forall i :: 0 <= i < |items| ==> (i in at <==> !IsDropped(items[i], specDisabled, praxisMode)))
  }

  lemma KeptStay(items: seq<Value>, specDisabled: seq<string>, praxisMode: bool) returns (at: seq<nat>)
    ensures StaysAt(items, Kept(items, EffectiveDisabledAPIs(specDisabled, praxisMode)), specDisabled, praxisMode, at)
    ensures Kept(items, EffectiveDisabledAPIs(specDisabled, praxisMode)) != [] <==>
      exists i :: 0 <= i < |items| && !IsDropped(items[i], specDisabled, praxisMode)
  {
    hide Kept, EffectiveDisabledAPIs;
    var disabled := EffectiveDisabledAPIs(specDisabled, praxisMode);
    forall item ensures Survives(item, disabled) <==> !IsDropped(item, specDisabled, praxisMode) {
      if item.Str? {
        DisabledExactly(specDisabled, praxisMode, item.s);
      }
    }
    hide Survives, IsDropped;
    at := KeptPositions(items, disabled);
    if at != [] {
      assert !IsDropped(items[at[0]], specDisabled, praxisMode);
    }
  }

  /** The section of a config that is there and is an object declares the vector store afterwards exactly
      when it did, or a vector_io provider is listed and there are a usable SQL backend and a place for it. */
  lemma DefaultConfigDeclaresVectorStoresExactly(cfg: Fields, port: Option<Value>, specDisabled: seq<string>)
    requires PraxisDefaultConfig(cfg, port, specDisabled).Ok?
    ensures var after := PraxisDefaultConfig(cfg, port, specDisabled).value.0;
            var isObject := "storage" in cfg && cfg["storage"].Obj?;
            && ("storage" in after <==> "storage" in cfg)
            && ("storage" in cfg && !isObject ==> after["storage"] == cfg["storage"])
            && (isObject ==>
                  var storage := cfg["storage"].fields;
                  && after["storage"].Obj?
                  && (St.DeclaresVectorStores(after["storage"].fields) <==>
                        || St.DeclaresVectorStores(storage)
                        || (ListsVectorIO(cfg) && !St.StoresAreMalformed(storage) && St.SqlBackendName(storage) != "")))
  {
    hide PraxisAuth, Kept, EffectiveDisabledAPIs, St.WithVectorStores, HasVectorIOProvider, ListsVectorIO;
    hide St.DeclaresVectorStores, St.StoresAreMalformed, St.SqlBackendName, St.SQLBackends;
    if PraxisDefaultConfig(cfg, port, specDisabled).Ok? {
      var served := cfg["server" := Obj(PraxisServer(ServerSection(cfg).value, port))];
      ListedVectorIO(cfg, served["server"]);
      if "storage" in cfg && cfg["storage"].Obj? {
        St.BackendIsFound(cfg["storage"].fields);
        St.VectorStoresAfterRewrite(cfg["storage"].fields, HasVectorIOProvider(served));
      }
    }
  }

  /** Something is listed under providers.vector_io. */
  ghost predicate ListsVectorIO(cfg: Fields) {
    exists items :: St.Lookup(Obj(cfg), ["providers", "vector_io"]) == Some(List(items)) && items != []
  }

  lemma ListedVectorIO(cfg: Fields, server: Value)
    ensures HasVectorIOProvider(cfg["server" := server]) <==> ListsVectorIO(cfg)
  {
    assert ["providers", "vector_io"][1..] == ["vector_io"];
    assert ["vector_io"][1..] == [];
    assert HasVectorIOProvider(cfg["server" := server]) <==> HasVectorIOProvider(cfg);
  }

  // ---------------------------------------------------------------------------
  // GenerateConfig.
  // ---------------------------------------------------------------------------

  const DEFAULT_PORT := Scalar("8321")

  function BuildServerSection(baseServer: Fields, port: Option<Value>, praxisMode: bool): Fields {
    var secured := if praxisMode then baseServer["auth" := PraxisAuth()] else baseServer;
    if port.Some? then secured["port" := port.value]
    else if "port" in secured then secured
    else secured["port" := DEFAULT_PORT]
  }

  /** The base's section is copied, in any order, before anything is set in the copy. */
  method BuildServerSectionInto(baseServer: Fields, port: Option<Value>, praxisMode: bool) returns (server: Fields)
    ensures server == BuildServerSection(baseServer, port, praxisMode)
  {
    hide PraxisAuth;
    server := map[];
    var rest := baseServer.Keys;
    while rest != {}
      invariant rest <= baseServer.Keys && server.Keys == baseServer.Keys - rest
      invariant forall k :: k in server ==> server[k] == baseServer[k]
      decreases |rest|
    {
      var k :| k in rest;
      server := server[k := baseServer[k]];
      rest := rest - {k};
    }
    assert server == baseServer;
    if praxisMode {
      server := server["auth" := PraxisAuth()];
    }
    if port.Some? {
      server := server["port" := port.value];
    } else if "port" !in server {
      server := server["port" := DEFAULT_PORT];
    }
  }

  /** In Praxis mode users are known by the headers whatever the base says, otherwise as the base says;
      the port is the spec's, else the base's, else 8321; everything else is the base's. */
  lemma ServerSectionExactly(baseServer: Fields, port: Option<Value>, praxisMode: bool)
    ensures var server := BuildServerSection(baseServer, port, praxisMode);
            && server.Keys == baseServer.Keys + {"port"} + (if praxisMode then {"auth"} else {})
            && (praxisMode ==> IsPraxisAuth(server["auth"]))
            && server["port"] == (if port.Some? then port.value else if "port" in baseServer then baseServer["port"] else Scalar("8321"))
            && forall key :: key in baseServer && key != "port" && (praxisMode ==> key != "auth") ==> server[key] == baseServer[key]
  {
    hide PraxisAuth, IsPraxisAuth;
    PraxisAuthIsAsked();
  }

  /** The sections of the final config the model speaks of: apis and storage. */
  ghost function BuildFinalConfig(
      providers: W.Sections, storage: Option<Fields>, baseStorage: Option<Fields>, apis: seq<string>, praxisMode: bool)
    : Fields
  {
    var cfg: Fields := if |apis| > 0 then map["apis" := List(AsValues(apis))] else map[];
    var section := if storage.Some? then storage else baseStorage;
    var stored := if section.Some? then cfg["storage" := Obj(section.value)] else cfg;
    var hasVectorIO := PT.VectorIO in providers && |providers[PT.VectorIO]| > 0;
    if praxisMode then WithPraxisStorage(stored, hasVectorIO) else stored
  }

  /** The final config for a base config and a spec whose providers expand to `user`. */
  ghost function GenerateConfig(
      baseAPIs: seq<string>, baseStorage: Option<Fields>, baseProviders: W.Sections, user: W.Sections,
      storage: Option<Sec.StateStorage>, specDisabled: seq<string>, praxisMode: bool)
    : Fields
  {
    var merged := St.MergeStorage(baseStorage, St.ApplyStorage(storage));
    var apis := MergeAPIs(baseAPIs, EffectiveDisabledAPIs(specDisabled, praxisMode));
    BuildFinalConfig(W.MergeProviders(baseProviders, user), merged, baseStorage, apis, praxisMode)
  }

  predicate PraxisAPIsFiltered(baseAPIs: seq<string>, praxisMode: bool) {
    praxisMode && |baseAPIs| > 0
  }

  lemma NameAmongValues(names: seq<string>, name: string)
    ensures Str(name) in AsValues(names) <==> name in names
  {
    if name in names {
      var i :| 0 <= i < |names| && names[i] == name;
      assert AsValues(names)[i] == Str(name);
    }
  }

  /** The config serves what survives the merge, or everything when nothing does. */
  lemma GeneratedSurface(
      baseAPIs: seq<string>, baseStorage: Option<Fields>, baseProviders: W.Sections, user: W.Sections,
      storage: Option<Sec.StateStorage>, specDisabled: seq<string>, praxisMode: bool, api: string)
    ensures var cfg := GenerateConfig(baseAPIs, baseStorage, baseProviders, user, storage, specDisabled, praxisMode);
            var apis := MergeAPIs(baseAPIs, EffectiveDisabledAPIs(specDisabled, praxisMode));
            Serves(cfg, api) <==> apis == [] || api in apis
  {
    hide St.ApplyStorage, St.WithVectorStores, W.MergeProviders, MergeAPIs, EffectiveDisabledAPIs, AsValues;
    var apis := MergeAPIs(baseAPIs, EffectiveDisabledAPIs(specDisabled, praxisMode));
    NameAmongValues(apis, api);
    assert |AsValues(apis)| == |apis| by { LengthOfValues(apis); }
  }

  lemma LengthOfValues(names: seq<string>)
    ensures |AsValues(names)| == |names|
  {
  }

  /** The final list of APIs: there is one exactly when a base API stays, and then it names the base
      APIs that stay, all of them, in their order. */
  lemma GeneratedAPIsExactly(
      baseAPIs: seq<string>, baseStorage: Option<Fields>, baseProviders: W.Sections, user: W.Sections,
      storage: Option<Sec.StateStorage>, specDisabled: seq<string>, praxisMode: bool) returns (at: seq<nat>)
    ensures var cfg := GenerateConfig(baseAPIs, baseStorage, baseProviders, user, storage, specDisabled, praxisMode);
            && ("apis" in cfg <==>
                  exists api :: api in baseAPIs && api !in specDisabled && !(praxisMode && (api == "responses" || api == "conversations")))
            && ("apis" in cfg ==>
                  cfg["apis"].List? && StaysAt(AsValues(baseAPIs), cfg["apis"].items, specDisabled, praxisMode, at))
  {
    hide St.ApplyStorage, St.WithVectorStores, W.MergeProviders, MergeAPIs, EffectiveDisabledAPIs, AsValues, StaysAt, Kept;
    var disabled := EffectiveDisabledAPIs(specDisabled, praxisMode);
    at := KeptStay(AsValues(baseAPIs), specDisabled, praxisMode);
    FiltersAgree(baseAPIs, disabled);
    LengthOfValues(MergeAPIs(baseAPIs, disabled));
    MergedMembers(baseAPIs, disabled);
    var apis := MergeAPIs(baseAPIs, disabled);
    forall api
      ensures api in disabled <==> api in specDisabled || (praxisMode && (api == "responses" || api == "conversations"))
    {
      DisabledExactly(specDisabled, praxisMode, api);
    }
    assert apis != [] ==> apis[0] in apis;
  }

  /** Here a true flag is true to its word exactly when some base API survives. */
  lemma FilteredFlagIsHonestWhenSomethingSurvives(
      baseAPIs: seq<string>, baseStorage: Option<Fields>, baseProviders: W.Sections, user: W.Sections,
      storage: Option<Sec.StateStorage>, specDisabled: seq<string>)
    requires baseAPIs != []
    ensures PraxisAPIsFiltered(baseAPIs, true) && !PraxisAPIsFiltered(baseAPIs, false) && !PraxisAPIsFiltered([], true)
    ensures var cfg := GenerateConfig(baseAPIs, baseStorage, baseProviders, user, storage, specDisabled, true);
            (forall api :: api in PRAXIS_SERVED ==> !Serves(cfg, api)) <==>
              exists api :: api in baseAPIs && api !in specDisabled && api !in PRAXIS_SERVED
  {
    hide GenerateConfig, Serves, MergeAPIs, EffectiveDisabledAPIs;
    var cfg := GenerateConfig(baseAPIs, baseStorage, baseProviders, user, storage, specDisabled, true);
    var disabled := EffectiveDisabledAPIs(specDisabled, true);
    var apis := MergeAPIs(baseAPIs, disabled);
    MergedMembers(baseAPIs, disabled);
    forall api
      ensures Serves(cfg, api) <==> apis == [] || api in apis
      ensures api in disabled <==> api in specDisabled || api in PRAXIS_SERVED
    {
      GeneratedSurface(baseAPIs, baseStorage, baseProviders, user, storage, specDisabled, true, api);
      DisabledExactly(specDisabled, true, api);
    }
    assert PRAXIS_SERVED[0] in PRAXIS_SERVED;
    assert apis != [] ==> apis[0] in apis;
  }

  /** A base config that lists only APIs served by Praxis: the flag says filtered, the list is
      omitted, and the config serves everything. */
  lemma FilteredFlagCanMislead()
    ensures PraxisAPIsFiltered(["responses"], true)
    ensures Serves(GenerateConfig(["responses"], None, map[], map[], None, [], true), "responses")
  {
    FilteredFlagIsHonestWhenSomethingSurvives(["responses"], None, map[], map[], None, []);
  }

  /** The storage tree the final config starts from: the spec's, else the base's, if there is either. */
  function MergedStorage(baseStorage: Option<Fields>, storage: Option<Sec.StateStorage>): Option<Fields> {
    St.MergeStorage(baseStorage, St.ApplyStorage(storage))
  }

  /** The spec's own storage section wins as a whole; the base's serves only where there is none. */
  lemma StorageComesFromSpecFirst(baseStorage: Option<Fields>, storage: Option<Sec.StateStorage>)
    ensures storage.Some? ==> MergedStorage(baseStorage, storage) == Some(map[
              "backends" := Obj(St.Backends(storage.value)), "stores" := Obj(St.DefaultStores())])
    ensures storage.None? ==> MergedStorage(baseStorage, storage) == baseStorage
  {
    hide St.Backends, St.DefaultStores;
  }

  predicate HasVectorIO(providers: W.Sections) {
    PT.VectorIO in providers && |providers[PT.VectorIO]| > 0
  }

  /** Wherever its storage comes from, a Praxis-mode config declares the vector store exactly when the
      merged section did, or there is a vector_io provider, a usable SQL backend and a place for it. */
  lemma GeneratedConfigDeclaresVectorStoresExactly(
      baseAPIs: seq<string>, baseStorage: Option<Fields>, baseProviders: W.Sections, user: W.Sections,
      storage: Option<Sec.StateStorage>, specDisabled: seq<string>)
    ensures var cfg := GenerateConfig(baseAPIs, baseStorage, baseProviders, user, storage, specDisabled, true);
            var merged := MergedStorage(baseStorage, storage);
            && (StorageSection(cfg).Some? <==> merged.Some?)
            && (merged.Some? ==>
                  (St.DeclaresVectorStores(StorageSection(cfg).value) <==>
                     || St.DeclaresVectorStores(merged.value)
                     || (HasVectorIO(W.MergeProviders(baseProviders, user)) && !St.StoresAreMalformed(merged.value)
                         && St.SqlBackendName(merged.value) != "")))
  {
    hide MergeAPIs, EffectiveDisabledAPIs, AsValues, St.WithVectorStores, St.ApplyStorage, W.MergeProviders;
    hide St.DeclaresVectorStores, St.StoresAreMalformed, St.SqlBackendName, St.SQLBackends;
    var merged := MergedStorage(baseStorage, storage);
    if merged.Some? {
      St.BackendIsFound(merged.value);
      St.VectorStoresAfterRewrite(merged.value, HasVectorIO(W.MergeProviders(baseProviders, user)));
    }
  }

  /** With storage in the spec and a vector_io provider in the config, Praxis mode always declares
      the vector store, on the generated SQL backend. */
  lemma GeneratedConfigDeclaresVectorStores(
      baseAPIs: seq<string>, baseStorage: Option<Fields>, baseProviders: W.Sections, user: W.Sections,
      storage: Sec.StateStorage, specDisabled: seq<string>)
    requires var providers := W.MergeProviders(baseProviders, user);
             PT.VectorIO in providers && |providers[PT.VectorIO]| > 0
    ensures var cfg := GenerateConfig(baseAPIs, baseStorage, baseProviders, user, Some(storage), specDisabled, true);
            && StorageSection(cfg).Some?
            && St.StoresOf(StorageSection(cfg).value)
               == St.DefaultStores()["vector_stores" := St.VectorStoreEntry("sql_default")]
  {
    hide MergeAPIs, EffectiveDisabledAPIs, St.WithVectorStores, St.ApplyStorage, St.DefaultStores, W.MergeProviders;
    St.GeneratedSectionTakesVectorStores(storage);
    assert St.ApplyStorage(Some(storage)).Some? by { StorageIsApplied(storage); }
  }

  lemma StorageIsApplied(storage: Sec.StateStorage)
    ensures St.ApplyStorage(Some(storage)).Some?
  {
  }
}
