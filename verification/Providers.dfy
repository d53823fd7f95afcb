/** Expansion of the typed providers of a spec into the provider entries of config.yaml. */
module Providers {
  import opened Prelude
  import opened ProviderTypes
  import E = EnvNames
  import Y = Yaml

  datatype ConfigProvider = ConfigProvider(providerID: string, providerType: string, config: map<string, Y.Value>)

  datatype ExpandError =
    | BadSettings(providerID: string)
    | KeyConflict(providerID: string)
    | InApi(api: Api, cause: ExpandError)

  /** The text config.yaml uses for the value of an environment variable. */
  function Placeholder(name: string): string {
    "${env." + name + "}"
  }

  function EnvVarRef(providerID: string, field: string): string {
    Placeholder(E.BuildEnvVarName(providerID, field))
  }

  // ---------------------------------------------------------------------------
  // One provider.
  // ---------------------------------------------------------------------------

  function SecretEntry(key: string, providerID: string, field: string): map<string, Y.Value> {
    map[key := Y.Str(EnvVarRef(providerID, field))]
  }

  function OptionalEntry(key: string, providerID: string, field: string, ref: Option<SecretKeyRef>): map<string, Y.Value> {
    if ref.None? then map[] else SecretEntry(key, providerID, field)
  }

  function BedrockConfig(p: BedrockProvider): map<string, Y.Value> {
    OptionalEntry("api_key", DeriveID(p), "API_KEY", p.optionalKey)
    + OptionalEntry("aws_access_key_id", DeriveID(p), "AWS_ACCESS_KEY_ID", p.awsAccessKeyID)
    + OptionalEntry("aws_secret_access_key", DeriveID(p), "AWS_SECRET_ACCESS_KEY", p.awsSecretAccessKey)
    + OptionalEntry("aws_session_token", DeriveID(p), "AWS_SESSION_TOKEN", p.awsSessionToken)
  }

  /** The secret slots of a typed provider's config; its other fields are not part of the model. */
  function TypedConfig(p: Provider): map<string, Y.Value> {
    match p
    case VLLM(_, token) => OptionalEntry("api_token", DeriveID(p), "API_TOKEN", token)
    case OpenAI(_, _) => SecretEntry("api_key", DeriveID(p), "API_KEY")
    case Azure(_, _) => SecretEntry("api_key", DeriveID(p), "API_KEY")
    case Bedrock(_, _, _, _, _) => BedrockConfig(p)
    case Watsonx(_, _) => SecretEntry("api_key", DeriveID(p), "API_KEY")
    case Pgvector(_, _) => SecretEntry("password", DeriveID(p), "PASSWORD")
    case Milvus(_, token) => OptionalEntry("token", DeriveID(p), "TOKEN", token)
    case Qdrant(_, key) => OptionalEntry("api_key", DeriveID(p), "API_KEY", key)
    case BraveSearch(_, _) => SecretEntry("api_key", DeriveID(p), "API_KEY")
    case TavilySearch(_, _) => SecretEntry("api_key", DeriveID(p), "API_KEY")
    case S3(accessKeyID, secretAccessKey) =>
      OptionalEntry("aws_access_key_id", DeriveID(p), "AWS_ACCESS_KEY_ID", accessKeyID)
      + OptionalEntry("aws_secret_access_key", DeriveID(p), "AWS_SECRET_ACCESS_KEY", secretAccessKey)
    case DoclingServe(key) => OptionalEntry("api_key", DeriveID(p), "API_KEY", key)
    case _ => map[]
  }

  function TypeOf(p: Provider): string {
    match p
    case VLLM(_, _) => "remote::vllm"
    case OpenAI(_, _) => "remote::openai"
    case Azure(_, _) => "remote::azure"
    case Bedrock(_, _, _, _, _) => "remote::bedrock"
    case VertexAI(_) => "remote::vertexai"
    case Watsonx(_, _) => "remote::watsonx"
    case Pgvector(_, _) => "remote::pgvector"
    case Milvus(_, _) => "remote::milvus"
    case Qdrant(_, _) => "remote::qdrant"
    case BraveSearch(_, _) => "remote::brave-search"
    case TavilySearch(_, _) => "remote::tavily-search"
    case ModelContextProtocol(_) => "remote::model-context-protocol"
    case FileSearch(_) => "inline::rag-runtime"
    case S3(_, _) => "remote::s3"
    case LocalFS => "inline::localfs"
    case Reference => "inline::batch-reference"
    case Builtin => "inline::responses"
    case DoclingServe(_) => "remote::docling-serve"
    case Auto => "inline::auto"
    case PyPDF => "inline::pypdf"
    case MarkItDown => "inline::markitdown"
    case Docling => "inline::docling"
    case Custom(_, ctype, _, _) => ctype
  }

  function ExpandTyped(p: Provider): ConfigProvider {
    ConfigProvider(DeriveID(p), TypeOf(p), TypedConfig(p))
  }

  function SecretRefsConfig(p: CustomProvider): map<string, Y.Value> {
    map key | key in p.secretRefs :: Y.Str(EnvVarRef(DeriveID(p), E.NormalizeEnvVarField(key)))
  }

  function SettingsOf(p: CustomProvider): map<string, Y.Value>
    requires p.settings != Some(Malformed)
  {
    if p.settings.None? then map[] else p.settings.value.fields
  }

  function ExpandCustom(p: CustomProvider): Result<ConfigProvider, ExpandError> {
    if p.settings == Some(Malformed) then Err(BadSettings(DeriveID(p)))
    else if !(p.secretRefs.Keys !! SettingsOf(p).Keys) then Err(KeyConflict(DeriveID(p)))
    else Ok(ConfigProvider(DeriveID(p), p.ctype, SecretRefsConfig(p) + SettingsOf(p)))
  }

  function Expand(p: Provider): Result<ConfigProvider, ExpandError> {
    if p.Custom? then ExpandCustom(p) else Ok(ExpandTyped(p))
  }

  /** setSecretRef. */
  method SetSecretRef(cfg: map<string, Y.Value>, key: string, providerID: string, field: string, ref: Option<SecretKeyRef>)
    returns (updated: map<string, Y.Value>)
    ensures updated == cfg + OptionalEntry(key, providerID, field, ref)
  {
    hide E.BuildEnvVarName;
    updated := cfg;
    if ref.Some? {
      updated := updated[key := Y.Str(EnvVarRef(providerID, field))];
    }
  }

  method ExpandBedrockProvider(p: BedrockProvider) returns (cp: ConfigProvider)
    ensures cp == ExpandTyped(p)
  {
    hide OptionalEntry, DeriveID;
    var cfg: map<string, Y.Value> := map[];
    var id := DeriveID(p);
    cfg := SetSecretRef(cfg, "api_key", id, "API_KEY", p.optionalKey);
    cfg := SetSecretRef(cfg, "aws_access_key_id", id, "AWS_ACCESS_KEY_ID", p.awsAccessKeyID);
    cfg := SetSecretRef(cfg, "aws_secret_access_key", id, "AWS_SECRET_ACCESS_KEY", p.awsSecretAccessKey);
    cfg := SetSecretRef(cfg, "aws_session_token", id, "AWS_SESSION_TOKEN", p.awsSessionToken);
    cp := ConfigProvider(id, "remote::bedrock", cfg);
  }

  /** First loop of expandCustomProvider: visits the references in any order. */
  method SetSecretRefs(p: CustomProvider) returns (cfg: map<string, Y.Value>)
    ensures cfg == SecretRefsConfig(p)
  {
    hide E.NormalizeEnvVarField, EnvVarRef, DeriveID;
    cfg := map[];
    var rest := p.secretRefs.Keys;
    while rest != {}
      invariant rest <= p.secretRefs.Keys
      invariant cfg.Keys == p.secretRefs.Keys - rest
      invariant forall key :: key in cfg ==> cfg[key] == SecretRefsConfig(p)[key]
      decreases |rest|
    {
      var key :| key in rest;
      var field := E.NormalizeField(key);
      cfg := cfg[key := Y.Str(EnvVarRef(DeriveID(p), field))];
      rest := rest - {key};
    }
  }

  /** Second loop: adds the settings, in any order, unless one of them is a secret's key. */
  method AddSettings(cfg: map<string, Y.Value>, taken: set<string>, settings: map<string, Y.Value>)
    returns (conflict: Option<string>, updated: map<string, Y.Value>)
    ensures conflict.None? <==> taken !! settings.Keys
    ensures conflict.Some? ==> conflict.value in taken && conflict.value in settings
    ensures conflict.None? ==> updated == cfg + settings
  {
    updated := cfg;
    var rest := settings.Keys;
    while rest != {}
      invariant rest <= settings.Keys && taken !! settings.Keys - rest
      invariant updated.Keys == cfg.Keys + (settings.Keys - rest)
      invariant forall k :: k in updated ==> updated[k] == if k in settings.Keys - rest then settings[k] else cfg[k]
      decreases |rest|
    {
      var key :| key in rest;
      if key in taken {
        return Some(key), cfg;
      }
      updated := updated[key := settings[key]];
      rest := rest - {key};
    }
    conflict := None;
  }

  /** On a conflict `key` is the key the error names, one of those in both maps. */
  method ExpandCustomProvider(p: CustomProvider) returns (r: Result<ConfigProvider, ExpandError>, key: string)
    ensures r == ExpandCustom(p)
    ensures r.Err? && r.error.KeyConflict? ==> key in p.secretRefs && key in SettingsOf(p)
  {
    hide SecretRefsConfig, DeriveID;
    key := "";
    var cfg := SetSecretRefs(p);
    if p.settings.Some? {
      if p.settings.value.Malformed? {
        return Err(BadSettings(DeriveID(p))), key;
      }
      var conflict;
      conflict, cfg := AddSettings(cfg, p.secretRefs.Keys, p.settings.value.fields);
      if conflict.Some? {
        return Err(KeyConflict(DeriveID(p))), conflict.value;
      }
    }
    assert p.settings.None? ==> cfg == SecretRefsConfig(p) + SettingsOf(p);
    r := Ok(ConfigProvider(DeriveID(p), p.ctype, cfg));
  }

  // ---------------------------------------------------------------------------
  // Sections.
  // ---------------------------------------------------------------------------

  /** The providers in order, up to the first that cannot be expanded. */
  function ExpandAll(items: seq<Provider>): Result<seq<ConfigProvider>, ExpandError> {
    if items == [] then Ok([])
    else
      match ExpandAll(items[..|items| - 1])
      case Err(e) => Err(e)
      case Ok(earlier) =>
        match Expand(items[|items| - 1])
        case Err(e) => Err(e)
        case Ok(cp) => Ok(earlier + [cp])
  }

  function InferenceOrder(s: InferenceSpec): seq<Provider> {
    (if s.remote.None? then []
     else
       var r := s.remote.value;
       r.vllm + r.openai + r.azure + r.bedrock + r.vertexai + r.watsonx + r.custom)
    + (if s.inline.None? then [] else s.inline.value.custom)
  }

  function VectorIOOrder(s: VectorIOSpec): seq<Provider> {
    (if s.remote.None? then [] else var r := s.remote.value; r.pgvector + r.milvus + r.qdrant + r.custom)
    + (if s.inline.None? then [] else s.inline.value.custom)
  }

  function ToolRuntimeOrder(s: ToolRuntimeSpec): seq<Provider> {
    (if s.remote.None? then []
     else var r := s.remote.value; r.braveSearch + r.tavilySearch + r.modelContextProtocol + r.custom)
    + (if s.inline.None? then [] else s.inline.value.fileSearch + s.inline.value.custom)
  }

  function FilesOrder(s: FilesSpec): seq<Provider> {
    (if s.remote.None? then [] else Optionally(s.remote.value.s3) + s.remote.value.custom)
    + (if s.inline.None? then [] else Optionally(s.inline.value.localfs) + s.inline.value.custom)
  }

  function BatchesOrder(s: BatchesSpec): seq<Provider> {
    (if s.remote.None? then [] else s.remote.value.custom)
    + (if s.inline.None? then [] else Optionally(s.inline.value.reference) + s.inline.value.custom)
  }

  function ResponsesOrder(s: ResponsesSpec): seq<Provider> {
    (if s.remote.None? then [] else s.remote.value.custom)
    + (if s.inline.None? then [] else Optionally(s.inline.value.builtin) + s.inline.value.custom)
  }

  function FileProcessorsOrder(s: FileProcessorsSpec): seq<Provider> {
    (if s.remote.None? then [] else Optionally(s.remote.value.doclingServe) + s.remote.value.custom)
    + (if s.inline.None? then [] else InlineFileProcessorsOrder(s.inline.value))
  }

  function InlineFileProcessorsOrder(i: FileProcessorsInline): seq<Provider> {
    Optionally(i.auto) + Optionally(i.pypdf) + Optionally(i.markitdown) + Optionally(i.docling) + i.custom
  }

  predicate Configured(s: ProvidersSpec, api: Api) {
    match api
    case Inference => s.inference.Some?
    case VectorIO => s.vectorIO.Some?
    case ToolRuntime => s.toolRuntime.Some?
    case Files => s.files.Some?
    case Batches => s.batches.Some?
    case Responses => s.responses.Some?
    case FileProcessors => s.fileProcessors.Some?
    case OtherApi(_) => false
  }

  /** The order in which the expander of a configured API goes through its section. */
  function ExpansionOrder(s: ProvidersSpec, api: Api): seq<Provider> {
    if !Configured(s, api) then []
    else
      match api
      case Inference => InferenceOrder(s.inference.value)
      case VectorIO => VectorIOOrder(s.vectorIO.value)
      case ToolRuntime => ToolRuntimeOrder(s.toolRuntime.value)
      case Files => FilesOrder(s.files.value)
      case Batches => BatchesOrder(s.batches.value)
      case Responses => ResponsesOrder(s.responses.value)
      case FileProcessors => FileProcessorsOrder(s.fileProcessors.value)
      case OtherApi(_) => []
  }

  function ExpanderIfConfigured(s: ProvidersSpec, api: Api): seq<Api> {
    if Configured(s, api) then [api] else []
  }

  /** buildProviderExpanders: the configured APIs, in API order. */
  function BuildProviderExpanders(s: ProvidersSpec): seq<Api> {
    [] + ExpanderIfConfigured(s, Inference) + ExpanderIfConfigured(s, VectorIO) + ExpanderIfConfigured(s, ToolRuntime)
    + ExpanderIfConfigured(s, Files) + ExpanderIfConfigured(s, Batches) + ExpanderIfConfigured(s, Responses)
    + ExpanderIfConfigured(s, FileProcessors)
  }

  function RunExpanders(s: ProvidersSpec, apis: seq<Api>): Result<map<Api, seq<ConfigProvider>>, ExpandError> {
    if apis == [] then Ok(map[])
    else
      match RunExpanders(s, apis[..|apis| - 1])
      case Err(e) => Err(e)
      case Ok(result) =>
        var api := apis[|apis| - 1];
        match ExpandAll(ExpansionOrder(s, api))
        case Err(e) => Err(InApi(api, e))
        case Ok(ps) => Ok(if ps == [] then result else result[api := ps])
  }

  /** A spec without providers and one that configures none both give the empty map. */
  function ExpandProviders(s: Option<ProvidersSpec>): Result<map<Api, seq<ConfigProvider>>, ExpandError> {
    if s.None? then Ok(map[]) else RunExpanders(s.value, BuildProviderExpanders(s.value))
  }

  // ---------------------------------------------------------------------------
  // The expanders' loops.
  // ---------------------------------------------------------------------------

  lemma NothingToExpand()
    ensures ExpandAll([]) == Ok([])
  {
  }

  lemma ErrorIsFinal(done: seq<Provider>, rest: seq<Provider>)
    requires ExpandAll(done).Err?
    ensures ExpandAll(done + rest) == ExpandAll(done)
  {
    if rest == [] {
      assert done + rest == done;
    } else {
      ErrorIsFinal(done, rest[..|rest| - 1]);
      assert (done + rest)[..|done + rest| - 1] == done + rest[..|rest| - 1];
    }
  }

  lemma OneMore(done: seq<Provider>, p: Provider)
    requires ExpandAll(done).Ok?
    ensures ExpandAll(done + [p]) ==
      if Expand(p).Ok? then Ok(ExpandAll(done).value + [Expand(p).value]) else Err(Expand(p).error)
  {
    hide Expand;
    assert (done + [p])[..|done|] == done;
  }

  lemma TypedExpands(p: Provider)
    requires !p.Custom?
    ensures Expand(p) == Ok(ExpandTyped(p))
  {
  }

  lemma CustomExpands(p: CustomProvider)
    ensures Expand(p) == ExpandCustom(p)
  {
  }

  /** One loop over a typed slice, after the providers already expanded. */
  method AppendTyped(before: seq<ConfigProvider>, ghost done: seq<Provider>, items: seq<Provider>)
    returns (providers: seq<ConfigProvider>)
    requires ExpandAll(done) == Ok(before) && forall p :: p in items ==> !p.Custom?
    ensures ExpandAll(done + items) == Ok(providers)
  {
    hide ExpandTyped, ExpandAll, Expand;
    providers := before;
    assert done + items[..0] == done;
    for i := 0 to |items|
      invariant ExpandAll(done + items[..i]) == Ok(providers)
    {
      OneMore(done + items[..i], items[i]);
      TypedExpands(items[i]);
      assert done + items[..i + 1] == done + items[..i] + [items[i]];
      assert items[i] in items;
      if items[i].Bedrock? {
        var cp := ExpandBedrockProvider(items[i]);
        providers := providers + [cp];
      } else {
        providers := providers + [ExpandTyped(items[i])];
      }
    }
    assert items[..|items|] == items;
  }

  method AppendSingleton(before: seq<ConfigProvider>, ghost done: seq<Provider>, p: Option<Provider>)
    returns (providers: seq<ConfigProvider>)
    requires ExpandAll(done) == Ok(before) && (p.Some? ==> !p.value.Custom?)
    ensures ExpandAll(done + Optionally(p)) == Ok(providers)
  {
    hide ExpandTyped;
    providers := before;
    if p.Some? {
      assert (done + [p.value])[..|done|] == done;
      providers := providers + [ExpandTyped(p.value)];
    } else {
      assert done + [] == done;
    }
  }

  method AppendCustomProviders(before: seq<ConfigProvider>, ghost done: seq<Provider>, custom: seq<CustomProvider>)
    returns (r: Result<seq<ConfigProvider>, ExpandError>)
    requires ExpandAll(done) == Ok(before)
    ensures r == ExpandAll(done + custom)
  {
    hide ExpandCustom, ExpandAll, Expand;
    var providers := before;
    assert done + custom[..0] == done;
    for i := 0 to |custom|
      invariant ExpandAll(done + custom[..i]) == Ok(providers)
    {
      OneMore(done + custom[..i], custom[i]);
      CustomExpands(custom[i]);
      assert done + custom[..i + 1] == done + custom[..i] + [custom[i]];
      var cp, _ := ExpandCustomProvider(custom[i]);
      if cp.Err? {
        ErrorIsFinal(done + custom[..i + 1], custom[i + 1..]);
        assert done + custom[..i + 1] + custom[i + 1..] == done + custom;
        return Err(cp.error);
      }
      providers := providers + [cp.value];
    }
    assert custom[..|custom|] == custom;
    r := Ok(providers);
  }

  method ExpandInferenceProviders(spec: InferenceSpec) returns (r: Result<seq<ConfigProvider>, ExpandError>)
    ensures r == ExpandAll(InferenceOrder(spec))
  {
    hide ExpandAll, Optionally;
    NothingToExpand();
    var providers: seq<ConfigProvider> := [];
    ghost var done: seq<Provider> := [];
    if spec.remote.Some? {
      var remote := spec.remote.value;
      providers := AppendTyped(providers, done, remote.vllm);
      done := done + remote.vllm;
      providers := AppendTyped(providers, done, remote.openai);
      done := done + remote.openai;
      providers := AppendTyped(providers, done, remote.azure);
      done := done + remote.azure;
      providers := AppendTyped(providers, done, remote.bedrock);
      done := done + remote.bedrock;
      providers := AppendTyped(providers, done, remote.vertexai);
      done := done + remote.vertexai;
      providers := AppendTyped(providers, done, remote.watsonx);
      done := done + remote.watsonx;
      r := AppendCustomProviders(providers, done, remote.custom);
      done := done + remote.custom;
      if r.Err? {
        ErrorIsFinal(done, InferenceOrder(spec)[|done|..]);
        assert done + InferenceOrder(spec)[|done|..] == InferenceOrder(spec);
        return;
      }
      providers := r.value;
    }
    if spec.inline.Some? {
      var inline := spec.inline.value;
      r := AppendCustomProviders(providers, done, inline.custom);
      done := done + inline.custom;
      assert done == InferenceOrder(spec);
      return;
    }
    assert done == InferenceOrder(spec);
    r := Ok(providers);
  }

  method ExpandVectorIOProviders(spec: VectorIOSpec) returns (r: Result<seq<ConfigProvider>, ExpandError>)
    ensures r == ExpandAll(VectorIOOrder(spec))
  {
    hide ExpandAll, Optionally;
    NothingToExpand();
    var providers: seq<ConfigProvider> := [];
    ghost var done: seq<Provider> := [];
    if spec.remote.Some? {
      var remote := spec.remote.value;
      providers := AppendTyped(providers, done, remote.pgvector);
      done := done + remote.pgvector;
      providers := AppendTyped(providers, done, remote.milvus);
      done := done + remote.milvus;
      providers := AppendTyped(providers, done, remote.qdrant);
      done := done + remote.qdrant;
      r := AppendCustomProviders(providers, done, remote.custom);
      done := done + remote.custom;
      if r.Err? {
        ErrorIsFinal(done, VectorIOOrder(spec)[|done|..]);
        assert done + VectorIOOrder(spec)[|done|..] == VectorIOOrder(spec);
        return;
      }
      providers := r.value;
    }
    if spec.inline.Some? {
      var inline := spec.inline.value;
      r := AppendCustomProviders(providers, done, inline.custom);
      done := done + inline.custom;
      assert done == VectorIOOrder(spec);
      return;
    }
    assert done == VectorIOOrder(spec);
    r := Ok(providers);
  }

  method ExpandToolRuntimeProviders(spec: ToolRuntimeSpec) returns (r: Result<seq<ConfigProvider>, ExpandError>)
    ensures r == ExpandAll(ToolRuntimeOrder(spec))
  {
    hide ExpandAll, Optionally;
    NothingToExpand();
    var providers: seq<ConfigProvider> := [];
    ghost var done: seq<Provider> := [];
    if spec.remote.Some? {
      var remote := spec.remote.value;
      providers := AppendTyped(providers, done, remote.braveSearch);
      done := done + remote.braveSearch;
      providers := AppendTyped(providers, done, remote.tavilySearch);
      done := done + remote.tavilySearch;
      providers := AppendTyped(providers, done, remote.modelContextProtocol);
      done := done + remote.modelContextProtocol;
      r := AppendCustomProviders(providers, done, remote.custom);
      done := done + remote.custom;
      if r.Err? {
        ErrorIsFinal(done, ToolRuntimeOrder(spec)[|done|..]);
        assert done + ToolRuntimeOrder(spec)[|done|..] == ToolRuntimeOrder(spec);
        return;
      }
      providers := r.value;
    }
    if spec.inline.Some? {
      var inline := spec.inline.value;
      providers := AppendTyped(providers, done, inline.fileSearch);
      done := done + inline.fileSearch;
      r := AppendCustomProviders(providers, done, inline.custom);
      done := done + inline.custom;
      assert done == ToolRuntimeOrder(spec);
      return;
    }
    assert done == ToolRuntimeOrder(spec);
    r := Ok(providers);
  }

  method ExpandFilesProviders(spec: FilesSpec) returns (r: Result<seq<ConfigProvider>, ExpandError>)
    ensures r == ExpandAll(FilesOrder(spec))
  {
    hide ExpandAll, Optionally;
    NothingToExpand();
    var providers: seq<ConfigProvider> := [];
    ghost var done: seq<Provider> := [];
    if spec.remote.Some? {
      var remote := spec.remote.value;
      providers := AppendSingleton(providers, done, remote.s3);
      done := done + Optionally(remote.s3);
      r := AppendCustomProviders(providers, done, remote.custom);
      done := done + remote.custom;
      if r.Err? {
        ErrorIsFinal(done, FilesOrder(spec)[|done|..]);
        assert done + FilesOrder(spec)[|done|..] == FilesOrder(spec);
        return;
      }
      providers := r.value;
    }
    if spec.inline.Some? {
      var inline := spec.inline.value;
      providers := AppendSingleton(providers, done, inline.localfs);
      done := done + Optionally(inline.localfs);
      r := AppendCustomProviders(providers, done, inline.custom);
      done := done + inline.custom;
      assert done == FilesOrder(spec);
      return;
    }
    assert done == FilesOrder(spec);
    r := Ok(providers);
  }

  method ExpandBatchesProviders(spec: BatchesSpec) returns (r: Result<seq<ConfigProvider>, ExpandError>)
    ensures r == ExpandAll(BatchesOrder(spec))
  {
    hide ExpandAll, Optionally;
    NothingToExpand();
    var providers: seq<ConfigProvider> := [];
    ghost var done: seq<Provider> := [];
    if spec.remote.Some? {
      var remote := spec.remote.value;
      r := AppendCustomProviders(providers, done, remote.custom);
      done := done + remote.custom;
      if r.Err? {
        ErrorIsFinal(done, BatchesOrder(spec)[|done|..]);
        assert done + BatchesOrder(spec)[|done|..] == BatchesOrder(spec);
        return;
      }
      providers := r.value;
    }
    if spec.inline.Some? {
      var inline := spec.inline.value;
      providers := AppendSingleton(providers, done, inline.reference);
      done := done + Optionally(inline.reference);
      r := AppendCustomProviders(providers, done, inline.custom);
      done := done + inline.custom;
      assert done == BatchesOrder(spec);
      return;
    }
    assert done == BatchesOrder(spec);
    r := Ok(providers);
  }

  method ExpandResponsesProviders(spec: ResponsesSpec) returns (r: Result<seq<ConfigProvider>, ExpandError>)
    ensures r == ExpandAll(ResponsesOrder(spec))
  {
    hide ExpandAll, Optionally;
    NothingToExpand();
    var providers: seq<ConfigProvider> := [];
    ghost var done: seq<Provider> := [];
    if spec.remote.Some? {
      var remote := spec.remote.value;
      r := AppendCustomProviders(providers, done, remote.custom);
      done := done + remote.custom;
      if r.Err? {
        ErrorIsFinal(done, ResponsesOrder(spec)[|done|..]);
        assert done + ResponsesOrder(spec)[|done|..] == ResponsesOrder(spec);
        return;
      }
      providers := r.value;
    }
    if spec.inline.Some? {
      var inline := spec.inline.value;
      providers := AppendSingleton(providers, done, inline.builtin);
      done := done + Optionally(inline.builtin);
      r := AppendCustomProviders(providers, done, inline.custom);
      done := done + inline.custom;
      assert done == ResponsesOrder(spec);
      return;
    }
    assert done == ResponsesOrder(spec);
    r := Ok(providers);
  }

  method ExpandInlineFileProcessors(before: seq<ConfigProvider>, ghost done: seq<Provider>, inline: FileProcessorsInline)
    returns (r: Result<seq<ConfigProvider>, ExpandError>)
    requires ExpandAll(done) == Ok(before)
    ensures r == ExpandAll(done + InlineFileProcessorsOrder(inline))
  {
    hide ExpandAll, Optionally;
    var providers := AppendSingleton(before, done, inline.auto);
    ghost var more := done + Optionally(inline.auto);
    providers := AppendSingleton(providers, more, inline.pypdf);
    more := more + Optionally(inline.pypdf);
    providers := AppendSingleton(providers, more, inline.markitdown);
    more := more + Optionally(inline.markitdown);
    providers := AppendSingleton(providers, more, inline.docling);
    more := more + Optionally(inline.docling);
    r := AppendCustomProviders(providers, more, inline.custom);
    assert more + inline.custom == done + InlineFileProcessorsOrder(inline);
  }

  method ExpandFileProcessorsProviders(spec: FileProcessorsSpec) returns (r: Result<seq<ConfigProvider>, ExpandError>)
    ensures r == ExpandAll(FileProcessorsOrder(spec))
  {
    hide ExpandAll, Optionally, InlineFileProcessorsOrder;
    NothingToExpand();
    var providers: seq<ConfigProvider> := [];
    ghost var done: seq<Provider> := [];
    if spec.remote.Some? {
      var remote := spec.remote.value;
      providers := AppendSingleton(providers, done, remote.doclingServe);
      done := done + Optionally(remote.doclingServe);
      r := AppendCustomProviders(providers, done, remote.custom);
      done := done + remote.custom;
      if r.Err? {
        ErrorIsFinal(done, FileProcessorsOrder(spec)[|done|..]);
        assert done + FileProcessorsOrder(spec)[|done|..] == FileProcessorsOrder(spec);
        return;
      }
      providers := r.value;
    }
    if spec.inline.Some? {
      var inline := spec.inline.value;
      r := ExpandInlineFileProcessors(providers, done, inline);
      assert done + InlineFileProcessorsOrder(inline) == FileProcessorsOrder(spec);
      return;
    }
    assert done == FileProcessorsOrder(spec);
    r := Ok(providers);
  }

  /** The expander of one configured API. */
  method ExpandApi(s: ProvidersSpec, api: Api) returns (r: Result<seq<ConfigProvider>, ExpandError>)
    requires Configured(s, api)
    ensures r == ExpandAll(ExpansionOrder(s, api))
  {
    hide ExpandAll;
    match api
    case Inference => r := ExpandInferenceProviders(s.inference.value);
    case VectorIO => r := ExpandVectorIOProviders(s.vectorIO.value);
    case ToolRuntime => r := ExpandToolRuntimeProviders(s.toolRuntime.value);
    case Files => r := ExpandFilesProviders(s.files.value);
    case Batches => r := ExpandBatchesProviders(s.batches.value);
    case Responses => r := ExpandResponsesProviders(s.responses.value);
    case FileProcessors => r := ExpandFileProcessorsProviders(s.fileProcessors.value);
  }

  method ExpandProvidersInto(s: Option<ProvidersSpec>) returns (r: Result<map<Api, seq<ConfigProvider>>, ExpandError>)
    ensures r == ExpandProviders(s)
  {
    hide ExpandAll, ExpansionOrder, BuildProviderExpanders, Configured;
    if s.None? {
      return Ok(map[]);
    }
    var expanders := BuildProviderExpanders(s.value);
    ExpandersAreTheConfiguredApis(s.value);
    var result: map<Api, seq<ConfigProvider>> := map[];
    for i := 0 to |expanders|
      invariant RunExpanders(s.value, expanders[..i]) == Ok(result)
    {
      assert expanders[..i + 1][..i] == expanders[..i];
      assert expanders[i] in expanders;
      var ps := ExpandApi(s.value, expanders[i]);
      if ps.Err? {
        FailureIsFinal(s.value, expanders[..i + 1], expanders[i + 1..]);
        assert expanders[..i + 1] + expanders[i + 1..] == expanders;
        return Err(InApi(expanders[i], ps.error));
      }
      if |ps.value| > 0 {
        result := result[expanders[i] := ps.value];
      }
    }
    assert expanders[..|expanders|] == expanders;
    r := Ok(result);
  }

  lemma FailureIsFinal(s: ProvidersSpec, done: seq<Api>, rest: seq<Api>)
    requires RunExpanders(s, done).Err?
    ensures RunExpanders(s, done + rest) == RunExpanders(s, done)
  {
    hide ExpandAll, ExpansionOrder;
    if rest == [] {
      assert done + rest == done;
    } else {
      FailureIsFinal(s, done, rest[..|rest| - 1]);
      assert (done + rest)[..|done + rest| - 1] == done + rest[..|rest| - 1];
    }
  }

  // ---------------------------------------------------------------------------
  // What the expansion gives.
  // ---------------------------------------------------------------------------

  lemma ExpandedID(p: Provider)
    requires Expand(p).Ok?
    ensures Expand(p).value.providerID == DeriveID(p)
  {
  }

  /** A section expands exactly when each of its providers does, one entry for one provider. */
  lemma {:induction false} SectionExpansion(items: seq<Provider>)
    ensures ExpandAll(items).Ok? <==> forall p :: p in items ==> Expand(p).Ok?
    ensures ExpandAll(items).Ok? ==>
              && |ExpandAll(items).value| == |items|
              && forall i :: 0 <= i < |items| ==> Expand(items[i]) == Ok(ExpandAll(items).value[i])
  {
    hide Expand;
    if items != [] {
      var front := items[..|items| - 1];
      SectionExpansion(front);
      assert forall p :: p in items <==> p in front || p == items[|items| - 1];
    }
  }

  /** The map holds the expansion of every section that lists a provider, and no other API. */
  lemma {:induction false} ExpandedSections(s: ProvidersSpec, apis: seq<Api>)
    requires RunExpanders(s, apis).Ok? && Distinct(apis)
    ensures forall api :: api in apis ==> ExpandAll(ExpansionOrder(s, api)).Ok?
    ensures forall api :: api in RunExpanders(s, apis).value <==> api in apis && ExpansionOrder(s, api) != []
    ensures forall api :: api in RunExpanders(s, apis).value ==>
              ExpandAll(ExpansionOrder(s, api)) == Ok(RunExpanders(s, apis).value[api])
  {
    hide ExpansionOrder, ExpandAll;
    if apis != [] {
      var front, api := apis[..|apis| - 1], apis[|apis| - 1];
      ExpandedSections(s, front);
      SectionExpansion(ExpansionOrder(s, api));
      NothingToExpand();
      assert forall x :: x in apis <==> x in front || x == api;
    }
  }

  function Rank(api: Api): nat {
    match api
    case Inference => 1
    case VectorIO => 2
    case ToolRuntime => 3
    case Files => 4
    case Batches => 5
    case Responses => 6
    case FileProcessors => 7
    case OtherApi(_) => 8
  }

  /** `apis` is strictly increasing and holds exactly the configured APIs of rank at most `n`. */
  ghost predicate ConfiguredUpTo(s: ProvidersSpec, apis: seq<Api>, n: nat) {
    && (forall i, j :: 0 <= i < j < |apis| ==> Rank(apis[i]) < Rank(apis[j]))
    && (forall api :: api in apis <==> Configured(s, api) && Rank(api) <= n)
  }

  lemma ConfiguredNext(s: ProvidersSpec, apis: seq<Api>, api: Api)
    requires Rank(api) <= 7 && ConfiguredUpTo(s, apis, Rank(api) - 1)
    ensures ConfiguredUpTo(s, apis + ExpanderIfConfigured(s, api), Rank(api))
  {
    hide Configured;
    assert forall x :: Rank(x) == Rank(api) ==> x == api;
    assert forall i :: 0 <= i < |apis| ==> apis[i] in apis;
  }

  lemma ExpandersAreTheConfiguredApis(s: ProvidersSpec)
    ensures Distinct(BuildProviderExpanders(s))
    ensures forall api :: api in BuildProviderExpanders(s) <==> Configured(s, api)
  {
    hide BuildProviderExpanders, Configured;
    ExpandersInOrder(s);
    ConfiguredHasRank(s);
  }

  lemma ConfiguredHasRank(s: ProvidersSpec)
    ensures forall api :: Configured(s, api) ==> Rank(api) <= 7
  {
  }

  lemma NothingConfiguredBelowOne(s: ProvidersSpec)
    ensures ConfiguredUpTo(s, [], 0)
  {
  }

  lemma ExpandersInOrder(s: ProvidersSpec)
    ensures ConfiguredUpTo(s, BuildProviderExpanders(s), 7)
  {
    hide ConfiguredUpTo, ExpanderIfConfigured, Configured;
    NothingConfiguredBelowOne(s);
    var apis := [];
    ConfiguredNext(s, apis, Inference);
    apis := apis + ExpanderIfConfigured(s, Inference);
    ConfiguredNext(s, apis, VectorIO);
    apis := apis + ExpanderIfConfigured(s, VectorIO);
    ConfiguredNext(s, apis, ToolRuntime);
    apis := apis + ExpanderIfConfigured(s, ToolRuntime);
    ConfiguredNext(s, apis, Files);
    apis := apis + ExpanderIfConfigured(s, Files);
    ConfiguredNext(s, apis, Batches);
    apis := apis + ExpanderIfConfigured(s, Batches);
    ConfiguredNext(s, apis, Responses);
    apis := apis + ExpanderIfConfigured(s, Responses);
    ConfiguredNext(s, apis, FileProcessors);
  }

  /** Every provider the spec declares has its entry under its API, and every entry is the
      expansion of a provider declared there. */
  lemma ExpansionIsComplete(s: ProvidersSpec, api: Api)
    requires ExpandProviders(Some(s)).Ok?
    ensures forall p :: Declares(s, api, p) ==> EntryOf(s, api, p)
    ensures api in ExpandProviders(Some(s)).value ==>
              forall cp :: cp in ExpandProviders(Some(s)).value[api] ==> exists p :: Declares(s, api, p) && Expand(p) == Ok(cp)
  {
    hide ExpansionOrder, ExpandAll, Expand, RunExpanders, Declares, Configured;
    var order := ExpansionOrder(s, api);
    ExpandersAreTheConfiguredApis(s);
    ExpandedSections(s, BuildProviderExpanders(s));
    SectionExpansion(order);
    forall p ensures Declares(s, api, p) <==> p in order {
      OrderListsTheDeclared(s, api, p);
    }
    UnconfiguredOrderIsEmpty(s, api);
  }

  predicate EntryOf(s: ProvidersSpec, api: Api, p: Provider)
    requires ExpandProviders(Some(s)).Ok?
  {
    && api in ExpandProviders(Some(s)).value
    && Expand(p).Ok?
    && Expand(p).value in ExpandProviders(Some(s)).value[api]
  }

  lemma UnconfiguredOrderIsEmpty(s: ProvidersSpec, api: Api)
    ensures !Configured(s, api) ==> ExpansionOrder(s, api) == []
  {
  }

  lemma OrderListsTheDeclared(s: ProvidersSpec, api: Api, p: Provider)
    ensures Declares(s, api, p) <==> p in ExpansionOrder(s, api)
  {
    if api == Inference && s.inference.Some? {
      InferenceOrderLists(s.inference.value, p);
    } else if api == FileProcessors && s.fileProcessors.Some? {
      FileProcessorsOrderLists(s.fileProcessors.value, p);
    }
    hide InferenceOrder, FileProcessorsOrder;
  }

  lemma InferenceOrderLists(s: InferenceSpec, p: Provider)
    ensures p in InferenceOrder(s) <==>
      || InSlice(p, s.inline)
      || (s.remote.Some?
          && var r := s.remote.value;
             p in r.vllm || p in r.openai || p in r.azure || p in r.bedrock || p in r.vertexai || p in r.watsonx
             || p in r.custom)
  {
  }

  lemma FileProcessorsOrderLists(s: FileProcessorsSpec, p: Provider)
    ensures p in FileProcessorsOrder(s) <==>
      || (s.remote.Some? && (Some(p) == s.remote.value.doclingServe || p in s.remote.value.custom))
      || (s.inline.Some?
          && var r := s.inline.value;
             Some(p) == r.auto || Some(p) == r.pypdf || Some(p) == r.markitdown || Some(p) == r.docling
             || p in r.custom)
  {
  }

  lemma {:induction false} ExpandersSucceedTogether(s: ProvidersSpec, apis: seq<Api>)
    ensures RunExpanders(s, apis).Ok? <==> forall api :: api in apis ==> ExpandAll(ExpansionOrder(s, api)).Ok?
  {
    hide ExpansionOrder, ExpandAll;
    if apis != [] {
      var front := apis[..|apis| - 1];
      ExpandersSucceedTogether(s, front);
      assert forall x :: x in apis <==> x in front || x == apis[|apis| - 1];
    }
  }

  /** The provider's settings hold that key. */
  predicate HasSetting(p: Provider, key: string) {
    p.Custom? && p.settings.Some? && p.settings.value.Fields? && key in p.settings.value.fields
  }

  /** A provider that does not keep the expansion from succeeding. */
  predicate CanExpand(p: Provider) {
    p.Custom? && p.settings.Some? ==> p.settings.value.Fields? && p.secretRefs.Keys !! p.settings.value.fields.Keys
  }

  /** The entry has that type, and the ID that was given or, for lack of one, the default. */
  ghost predicate Identified(cp: ConfigProvider, given: string, defaultID: string, ptype: string) {
    && cp.providerType == ptype
    && (given != "" ==> cp.providerID == given)
    && (given == "" ==> cp.providerID == defaultID)
  }

  /** The entry of a custom provider: its own type, its own ID or one made of the type, all its settings
      as they are, and otherwise only its secret references. */
  ghost predicate IsCustomEntry(cp: ConfigProvider, p: CustomProvider) {
    && Identified(cp, p.id, ReplaceDoubleColons(p.ctype), p.ctype)
    && cp.config.Keys == p.secretRefs.Keys + (if p.settings.Some? && p.settings.value.Fields? then p.settings.value.fields.Keys else {})
    && (forall key :: HasSetting(p, key) ==> key in cp.config && cp.config[key] == p.settings.value.fields[key])
  }

  /** The type and the default ID of each typed kind. */
  ghost predicate IsTypedEntry(cp: ConfigProvider, p: Provider) {
    && (p.VLLM? ==> Identified(cp, p.id, "remote-vllm", "remote::vllm"))
    && (p.OpenAI? ==> Identified(cp, p.id, "remote-openai", "remote::openai"))
    && (p.Azure? ==> Identified(cp, p.id, "remote-azure", "remote::azure"))
    && (p.Bedrock? ==> Identified(cp, p.id, "remote-bedrock", "remote::bedrock"))
    && (p.VertexAI? ==> Identified(cp, p.id, "remote-vertexai", "remote::vertexai"))
    && (p.Watsonx? ==> Identified(cp, p.id, "remote-watsonx", "remote::watsonx"))
    && (p.Pgvector? ==> Identified(cp, p.id, "remote-pgvector", "remote::pgvector"))
    && (p.Milvus? ==> Identified(cp, p.id, "remote-milvus", "remote::milvus"))
    && (p.Qdrant? ==> Identified(cp, p.id, "remote-qdrant", "remote::qdrant"))
    && (p.BraveSearch? ==> Identified(cp, p.id, "remote-brave-search", "remote::brave-search"))
    && (p.TavilySearch? ==> Identified(cp, p.id, "remote-tavily-search", "remote::tavily-search"))
    && (p.ModelContextProtocol? ==> Identified(cp, p.id, "remote-model-context-protocol", "remote::model-context-protocol"))
    && (p.FileSearch? ==> Identified(cp, p.id, "inline-file-search", "inline::rag-runtime"))
    && (p.S3? ==> Identified(cp, "", "remote-s3", "remote::s3"))
    && (p.LocalFS? ==> Identified(cp, "", "inline-localfs", "inline::localfs"))
    && (p.Reference? ==> Identified(cp, "", "inline-reference", "inline::batch-reference"))
    && (p.Builtin? ==> Identified(cp, "", "inline-builtin", "inline::responses"))
    && (p.DoclingServe? ==> Identified(cp, "", "remote-docling-serve", "remote::docling-serve"))
    && (p.Auto? ==> Identified(cp, "", "inline-auto", "inline::auto"))
    && (p.PyPDF? ==> Identified(cp, "", "inline-pypdf", "inline::pypdf"))
    && (p.MarkItDown? ==> Identified(cp, "", "inline-markitdown", "inline::markitdown"))
    && (p.Docling? ==> Identified(cp, "", "inline-docling", "inline::docling"))
  }

  /** What the config holds for one provider, read off the provider alone. */
  ghost predicate IsEntryFor(cp: ConfigProvider, p: Provider) {
    if p.Custom? then IsCustomEntry(cp, p) else IsTypedEntry(cp, p)
  }

  lemma TypedEntry(p: Provider)
    requires !p.Custom?
    ensures IsTypedEntry(ExpandTyped(p), p)
  {
    hide TypedConfig;
  }

  lemma CustomEntry(p: CustomProvider)
    requires ExpandCustom(p).Ok?
    ensures IsCustomEntry(ExpandCustom(p).value, p)
  {
    hide EnvVarRef, ReplaceDoubleColons, E.NormalizeEnvVarField;
  }

  lemma ExpandedEntry(p: Provider)
    requires Expand(p).Ok?
    ensures IsEntryFor(Expand(p).value, p)
  {
    hide IsTypedEntry, IsCustomEntry, ExpandTyped, ExpandCustom;
    if p.Custom? {
      CustomEntry(p);
    } else {
      TypedEntry(p);
    }
  }

  /** strings.ReplaceAll on the usual form of a type. */
  lemma {:induction false} ColonsReplaced(scheme: string, name: string)
    requires forall i :: 0 <= i < |scheme| ==> scheme[i] != ':'
    requires forall i :: 0 <= i < |name| ==> name[i] != ':'
    ensures ReplaceDoubleColons(scheme + "::" + name) == scheme + "-" + name
  {
    var s := scheme + "::" + name;
    assert |s| >= 2;
    if scheme == "" {
      NoColonsToReplace(name);
      assert s[0] == ':' && s[1] == ':' && s[2..] == name;
    } else {
      ColonsReplaced(scheme[1..], name);
      assert s[0] == scheme[0] && s[1..] == scheme[1..] + "::" + name;
      assert ReplaceDoubleColons(s) == [s[0]] + ReplaceDoubleColons(s[1..]);
      assert [scheme[0]] + (scheme[1..] + "-" + name) == scheme + "-" + name;
    }
  }

  lemma NoColonsToReplace(s: string)
    requires forall i :: 0 <= i < |s| ==> s[i] != ':'
    ensures ReplaceDoubleColons(s) == s
  {
    if |s| >= 2 {
      NoColonsToReplace(s[1..]);
    }
  }

  lemma ExpandsWhenItCan(p: Provider)
    ensures Expand(p).Ok? <==> CanExpand(p)
  {
    hide TypedConfig, SecretRefsConfig, DeriveID;
  }

  lemma SectionSucceeds(s: ProvidersSpec, api: Api)
    ensures ExpandAll(ExpansionOrder(s, api)).Ok? <==> forall p :: Declares(s, api, p) ==> CanExpand(p)
    ensures !Configured(s, api) ==> ExpandAll(ExpansionOrder(s, api)).Ok?
  {
    hide Declares, ExpansionOrder, ExpandAll, Configured, Expand, CanExpand;
    var order := ExpansionOrder(s, api);
    SectionExpansion(order);
    UnconfiguredOrderIsEmpty(s, api);
    NothingToExpand();
    forall p
      ensures Declares(s, api, p) <==> p in order
      ensures Expand(p).Ok? <==> CanExpand(p)
    {
      OrderListsTheDeclared(s, api, p);
      ExpandsWhenItCan(p);
    }
  }

  /** Expansion fails only on a custom provider: settings that are no object, or a key that is in both
      its settings and its secret references. */
  lemma ExpansionSucceedsExactly(s: ProvidersSpec)
    ensures ExpandProviders(Some(s)).Ok? <==> forall api, p :: Declares(s, api, p) ==> CanExpand(p)
  {
    hide Declares, ExpansionOrder, ExpandAll, RunExpanders, BuildProviderExpanders, Configured, CanExpand;
    ExpandersAreTheConfiguredApis(s);
    ExpandersSucceedTogether(s, BuildProviderExpanders(s));
    forall api
      ensures ExpandAll(ExpansionOrder(s, api)).Ok? <==> forall p :: Declares(s, api, p) ==> CanExpand(p)
      ensures !Configured(s, api) ==> ExpandAll(ExpansionOrder(s, api)).Ok?
    {
      SectionSucceeds(s, api);
    }
    if forall api :: api in BuildProviderExpanders(s) ==> ExpandAll(ExpansionOrder(s, api)).Ok? {
      forall api, p | Declares(s, api, p) ensures CanExpand(p) {
        assert ExpandAll(ExpansionOrder(s, api)).Ok?;
      }
    }
  }

  /** What keeps a provider from expanding, and the error that reports it. */
  ghost predicate IsFaultOf(e: ExpandError, p: Provider) {
    && p.Custom? && p.settings.Some?
    && match e
       case BadSettings(id) => p.settings.value.Malformed? && id == DeriveID(p)
       case KeyConflict(id) => p.settings.value.Fields? && !(p.secretRefs.Keys !! p.settings.value.fields.Keys) && id == DeriveID(p)
       case InApi(_, _) => false
  }

  lemma FaultOfOne(p: Provider)
    requires Expand(p).Err?
    ensures IsFaultOf(Expand(p).error, p)
  {
    hide DeriveID, SecretRefsConfig;
  }

  /** The error of a section is that of its first provider at fault. */
  lemma {:induction false} FaultOfSection(items: seq<Provider>)
    requires ExpandAll(items).Err?
    ensures exists i :: && 0 <= i < |items| && IsFaultOf(ExpandAll(items).error, items[i])
                        && forall j :: 0 <= j < i ==> Expand(items[j]).Ok?
  {
    hide Expand, IsFaultOf;
    var n := |items| - 1;
    var front := items[..n];
    if ExpandAll(front).Err? {
      FaultOfSection(front);
      var i :| 0 <= i < n && IsFaultOf(ExpandAll(front).error, front[i]) && forall j :: 0 <= j < i ==> Expand(front[j]).Ok?;
      assert items[i] == front[i] && forall j :: 0 <= j < i ==> items[j] == front[j];
    } else {
      SectionExpansion(front);
      FaultOfOne(items[n]);
      assert forall j :: 0 <= j < n ==> items[j] == front[j] && front[j] in front;
    }
  }

  lemma {:induction false} FaultOfRun(s: ProvidersSpec, apis: seq<Api>)
    requires RunExpanders(s, apis).Err?
    ensures var e := RunExpanders(s, apis).error;
            e.InApi? && e.api in apis && ExpandAll(ExpansionOrder(s, e.api)) == Err(e.cause)
  {
    hide ExpandAll, ExpansionOrder;
    if RunExpanders(s, apis[..|apis| - 1]).Err? {
      FaultOfRun(s, apis[..|apis| - 1]);
    }
  }

  /** The error names an API and, within it, a declared provider with the fault it reports. */
  lemma ExpansionErrorNamesAFault(s: ProvidersSpec)
    requires ExpandProviders(Some(s)).Err?
    ensures var e := ExpandProviders(Some(s)).error;
            e.InApi? && exists p :: Declares(s, e.api, p) && IsFaultOf(e.cause, p)
  {
    hide ExpandAll, Expand, RunExpanders, Declares, ExpansionOrder, BuildProviderExpanders, IsFaultOf;
    FaultOfRun(s, BuildProviderExpanders(s));
    var e := ExpandProviders(Some(s)).error;
    var order := ExpansionOrder(s, e.api);
    FaultOfSection(order);
    var i :| 0 <= i < |order| && IsFaultOf(e.cause, order[i]);
    OrderListsTheDeclared(s, e.api, order[i]);
  }
}
