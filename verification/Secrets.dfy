/** Secret references collected from a spec as environment variables of the Deployment. */
module Secrets {
  import opened Prelude
  import opened ProviderTypes
  import E = EnvNames
  import S = Strings

  datatype KVStorage = KVStorage(kind: string, endpoint: string, password: Option<SecretKeyRef>)
  datatype SQLStorage = SQLStorage(kind: string, connectionString: Option<SecretKeyRef>)
  datatype StateStorage = StateStorage(kv: Option<KVStorage>, sql: Option<SQLStorage>)
  datatype ServerSpec = ServerSpec(providers: Option<ProvidersSpec>, storage: Option<StateStorage>)

  /** An environment variable read from a Secret key. */
  datatype EnvVar = EnvVar(name: string, ref: SecretKeyRef)

  const KV_PASSWORD_ENV := E.ENV_PREFIX + "_STORAGE_KV_PASSWORD"
  const SQL_CONNECTION_ENV := E.ENV_PREFIX + "_STORAGE_SQL_CONNECTION_STRING"

  function SecretToEnvVar(providerID: string, field: string, ref: SecretKeyRef): EnvVar {
    EnvVar(E.BuildEnvVarName(providerID, field), ref)
  }

  function OptionalSecret(providerID: string, field: string, ref: Option<SecretKeyRef>): seq<EnvVar> {
    if ref.None? then [] else [SecretToEnvVar(providerID, field, ref.value)]
  }

  // ---------------------------------------------------------------------------
  // The collectors.
  // ---------------------------------------------------------------------------

  /** The variable of one secretRefs key of a custom provider. */
  function CustomSecret(p: CustomProvider, key: string): EnvVar
    requires key in p.secretRefs
  {
    SecretToEnvVar(DeriveID(p), E.NormalizeEnvVarField(key), p.secretRefs[key])
  }

  ghost function CustomSecrets(p: CustomProvider): seq<EnvVar> {
    var keys := S.Sorted(p.secretRefs.Keys);
    seq(|keys|, i requires 0 <= i < |keys| => assert keys[i] in keys; CustomSecret(p, keys[i]))
  }

  /** What the collector takes from one typed provider of a slice it visits. */
  function TypedSecrets(p: Provider): seq<EnvVar> {
    match p
    case VLLM(_, token) => OptionalSecret(DeriveID(p), "API_TOKEN", token)
    case OpenAI(_, key) => [SecretToEnvVar(DeriveID(p), "API_KEY", key)]
    case Azure(_, key) => [SecretToEnvVar(DeriveID(p), "API_KEY", key)]
    case Bedrock(_, key, accessKeyID, secretAccessKey, sessionToken) =>
      OptionalSecret(DeriveID(p), "API_KEY", key)
      + OptionalSecret(DeriveID(p), "AWS_ACCESS_KEY_ID", accessKeyID)
      + OptionalSecret(DeriveID(p), "AWS_SECRET_ACCESS_KEY", secretAccessKey)
      + OptionalSecret(DeriveID(p), "AWS_SESSION_TOKEN", sessionToken)
    case Watsonx(_, key) => [SecretToEnvVar(DeriveID(p), "API_KEY", key)]
    case Pgvector(_, password) => [SecretToEnvVar(DeriveID(p), "PASSWORD", password)]
    case Milvus(_, token) => OptionalSecret(DeriveID(p), "TOKEN", token)
    case Qdrant(_, key) => OptionalSecret(DeriveID(p), "API_KEY", key)
    case BraveSearch(_, key) => [SecretToEnvVar(DeriveID(p), "API_KEY", key)]
    case TavilySearch(_, key) => [SecretToEnvVar(DeriveID(p), "API_KEY", key)]
    case S3(accessKeyID, secretAccessKey) =>
      OptionalSecret(DeriveID(p), "AWS_ACCESS_KEY_ID", accessKeyID)
      + OptionalSecret(DeriveID(p), "AWS_SECRET_ACCESS_KEY", secretAccessKey)
    case DoclingServe(key) => OptionalSecret(DeriveID(p), "API_KEY", key)
    case _ => []
  }

  ghost function SecretsOf(p: Provider): seq<EnvVar> {
    if p.Custom? then CustomSecrets(p) else TypedSecrets(p)
  }

  ghost function SliceSecrets(items: seq<Provider>): seq<EnvVar> {
    FlatMap(SecretsOf, items)
  }

  /** The providers of an API whose secrets the walk collects, in the order of the walk. */
  function Walked(s: ProvidersSpec, api: Api): seq<Provider> {
    match api
    case Inference => if s.inference.None? then [] else WalkedInference(s.inference.value)
    case VectorIO => if s.vectorIO.None? then [] else WalkedVectorIO(s.vectorIO.value)
    case ToolRuntime => if s.toolRuntime.None? then [] else WalkedToolRuntime(s.toolRuntime.value)
    case Files => if s.files.None? then [] else WalkedFiles(s.files.value)
    case Batches => if s.batches.None? then [] else WalkedBatches(s.batches.value)
    case Responses => if s.responses.None? then [] else WalkedResponses(s.responses.value)
    case FileProcessors => if s.fileProcessors.None? then [] else WalkedFileProcessors(s.fileProcessors.value)
    case OtherApi(_) => []
  }

  function WalkedInference(s: InferenceSpec): seq<Provider> {
    (if s.remote.None? then []
     else
       var r := s.remote.value;
       r.vllm + r.openai + r.azure + r.bedrock + r.watsonx + r.custom)
    + (if s.inline.None? then [] else s.inline.value.custom)
  }

  function WalkedVectorIO(s: VectorIOSpec): seq<Provider> {
    (if s.remote.None? then []
     else var r := s.remote.value; r.pgvector + r.milvus + r.qdrant + r.custom)
    + (if s.inline.None? then [] else s.inline.value.custom)
  }

  function WalkedToolRuntime(s: ToolRuntimeSpec): seq<Provider> {
    (if s.remote.None? then [] else var r := s.remote.value; r.braveSearch + r.tavilySearch + r.custom)
    + (if s.inline.None? then [] else s.inline.value.custom)
  }

  function WalkedFiles(s: FilesSpec): seq<Provider> {
    (if s.remote.None? then [] else Optionally(s.remote.value.s3) + s.remote.value.custom)
    + (if s.inline.None? then [] else s.inline.value.custom)
  }

  function WalkedBatches(s: BatchesSpec): seq<Provider> {
    (if s.remote.None? then [] else s.remote.value.custom) + (if s.inline.None? then [] else s.inline.value.custom)
  }

  function WalkedResponses(s: ResponsesSpec): seq<Provider> {
    (if s.remote.None? then [] else s.remote.value.custom) + (if s.inline.None? then [] else s.inline.value.custom)
  }

  function WalkedFileProcessors(s: FileProcessorsSpec): seq<Provider> {
    (if s.remote.None? then [] else Optionally(s.remote.value.doclingServe) + s.remote.value.custom)
    + (if s.inline.None? then [] else s.inline.value.custom)
  }

  function WalkedProviders(s: ProvidersSpec): seq<Provider> {
    Walked(s, Inference) + Walked(s, VectorIO) + Walked(s, ToolRuntime) + Walked(s, Files)
    + Walked(s, Batches) + Walked(s, Responses) + Walked(s, FileProcessors)
  }

  function StorageSecrets(s: StateStorage): seq<EnvVar> {
    (if s.kv.Some? && s.kv.value.password.Some? then [EnvVar(KV_PASSWORD_ENV, s.kv.value.password.value)] else [])
    + (if s.sql.Some? && s.sql.value.connectionString.Some?
       then [EnvVar(SQL_CONNECTION_ENV, s.sql.value.connectionString.value)] else [])
  }

  /** collectSecretRefsRaw: every reference, in the order of the walk. */
  ghost function RawSecretRefs(spec: ServerSpec): seq<EnvVar> {
    (if spec.providers.None? then [] else SliceSecrets(WalkedProviders(spec.providers.value)))
    + (if spec.storage.None? then [] else StorageSecrets(spec.storage.value))
  }

  // ---------------------------------------------------------------------------
  // Every declared secret is walked, and nothing else.
  // ---------------------------------------------------------------------------

  lemma SliceOrigin(items: seq<Provider>, e: EnvVar) returns (p: Provider)
    requires e in SliceSecrets(items)
    ensures p in items && e in SecretsOf(p)
  {
    p := FlatMapOrigin(SecretsOf, items, e);
  }

  /** The slices the walk leaves out hold kinds without secrets. */
  lemma DeclaredIsWalked(s: ProvidersSpec, api: Api, p: Provider)
    requires Declares(s, api, p)
    ensures p in Walked(s, api) || SecretsOf(p) == []
  {
    hide TypedSecrets, CustomSecrets;
    if IsSecretless(p) {
      SecretlessKinds(p);
    }
  }

  /** The kinds whose slices the walk does not visit. */
  predicate IsSecretless(p: Provider) {
    p.VertexAI? || p.ModelContextProtocol? || p.FileSearch? || p.LocalFS? || p.Reference? || p.Builtin?
    || p.Auto? || p.PyPDF? || p.MarkItDown? || p.Docling?
  }

  lemma SecretlessKinds(p: Provider)
    requires IsSecretless(p)
    ensures SecretsOf(p) == []
  {
  }

  lemma WalkedIsDeclared(s: ProvidersSpec, api: Api, p: Provider)
    requires p in Walked(s, api)
    ensures Declares(s, api, p)
  {
  }

  lemma WalkedSomewhere(s: ProvidersSpec, p: Provider)
    ensures p in WalkedProviders(s) <==> exists api :: p in Walked(s, api)
  {
  }

  /** What the collector would take from a declared provider is among the raw references. */
  lemma DeclaredIsCollected(spec: ServerSpec, api: Api, p: Provider, e: EnvVar)
    requires spec.providers.Some? && Declares(spec.providers.value, api, p) && e in SecretsOf(p)
    ensures e in RawSecretRefs(spec)
  {
    hide TypedSecrets, CustomSecrets, Walked;
    DeclaredIsWalked(spec.providers.value, api, p);
    WalkedSomewhere(spec.providers.value, p);
    FlatMapMember(SecretsOf, WalkedProviders(spec.providers.value), p, e);
  }

  /** A collected variable belongs to a secret the spec declares under some config key. */
  lemma CollectedIsDeclared(p: Provider, e: EnvVar)
    requires e in SecretsOf(p)
    ensures exists key :: DeclaredSecret(p, key) == Some(e.ref)
  {
    hide TypedSecrets, CustomSecrets, DeclaredSecret;
    if p.Custom? {
      var key := CustomCollectedIsDeclared(p, e);
    } else {
      var key := TypedCollectedIsDeclared(p, e);
    }
  }

  lemma CustomCollectedIsDeclared(p: Provider, e: EnvVar) returns (key: string)
    requires p.Custom? && e in CustomSecrets(p)
    ensures DeclaredSecret(p, key) == Some(e.ref)
  {
    hide S.Sorted, E.BuildEnvVarName, E.NormalizeEnvVarField, DeriveID;
    var keys := S.Sorted(p.secretRefs.Keys);
    var i :| 0 <= i < |keys| && e == CustomSecrets(p)[i];
    assert keys[i] in keys;
    key := keys[i];
  }

  lemma TypedCollectedIsDeclared(p: Provider, e: EnvVar) returns (key: string)
    requires !p.Custom? && e in TypedSecrets(p)
    ensures DeclaredSecret(p, key) == Some(e.ref)
  {
    hide E.BuildEnvVarName, DeriveID;
    match p
    case VLLM(_, _) => key := "api_token";
    case Pgvector(_, _) => key := "password";
    case Milvus(_, _) => key := "token";
    case Bedrock(_, optionalKey, accessKeyID, secretAccessKey, _) =>
      key := if optionalKey == Some(e.ref) then "api_key"
      else if accessKeyID == Some(e.ref) then "aws_access_key_id"
      else if secretAccessKey == Some(e.ref) then "aws_secret_access_key"
      else "aws_session_token";
    case S3(accessKeyID, _) =>
      key := if accessKeyID == Some(e.ref) then "aws_access_key_id" else "aws_secret_access_key";
    case _ => key := "api_key";
  }

  // ---------------------------------------------------------------------------
  // The Deployment's variables: the first of each name, sorted by name.
  // ---------------------------------------------------------------------------

  function FirstOfEachName(raw: seq<EnvVar>): (unique: map<string, EnvVar>)
    ensures forall n :: n in unique ==> unique[n].name == n && unique[n] in raw
    ensures forall e :: e in raw ==> e.name in unique
  {
    if raw == [] then map[]
    else
      var earlier, e := FirstOfEachName(raw[..|raw| - 1]), raw[|raw| - 1];
      assert forall x :: x in raw <==> x == e || x in raw[..|raw| - 1];
      if e.name in earlier then earlier else earlier[e.name := e]
  }

  /** The entry kept under a name is the first that bears it. */
  lemma {:induction false} FirstIsKept(raw: seq<EnvVar>, i: nat)
    requires i < |raw| && forall j :: 0 <= j < i ==> raw[j].name != raw[i].name
    ensures FirstOfEachName(raw)[raw[i].name] == raw[i]
  {
    hide FirstOfEachName;
    var n := |raw| - 1;
    FirstOfOneMore(raw);
    if i < n {
      FirstIsKept(raw[..n], i);
      assert raw[..n][i] in raw[..n];
    } else {
      assert forall e :: e in raw[..n] ==> e.name != raw[n].name;
    }
  }

  lemma FirstOfOneMore(raw: seq<EnvVar>)
    requires raw != []
    ensures var earlier, e := FirstOfEachName(raw[..|raw| - 1]), raw[|raw| - 1];
            FirstOfEachName(raw) == if e.name in earlier then earlier else earlier[e.name := e]
  {
  }

  ghost function ByName(unique: map<string, EnvVar>): seq<EnvVar> {
    var names := S.Sorted(unique.Keys);
    seq(|names|, i requires 0 <= i < |names| => assert names[i] in names; unique[names[i]])
  }

  ghost function CollectSecretRefs(spec: ServerSpec): seq<EnvVar> {
    ByName(FirstOfEachName(RawSecretRefs(spec)))
  }

  lemma OneMoreVariable(raw: seq<EnvVar>, e: EnvVar, dst: map<string, EnvVar>)
    ensures var before := FirstOfEachName(raw) + dst;
            FirstOfEachName(raw + [e]) + dst == if e.name in before then before else before[e.name := e]
  {
    assert (raw + [e])[..|raw|] == raw;
  }

  lemma NothingCollectedYet(dst: map<string, EnvVar>)
    ensures FirstOfEachName([]) + dst == dst
  {
  }

  /** Entries that are there already are kept, and of each new name the first is added. */
  method AddUniqueEnvVars(dst: map<string, EnvVar>, envVars: seq<EnvVar>) returns (unique: map<string, EnvVar>)
    ensures unique == FirstOfEachName(envVars) + dst
  {
    hide FirstOfEachName;
    unique := dst;
    NothingCollectedYet(dst);
    for i := 0 to |envVars|
      invariant unique == FirstOfEachName(envVars[..i]) + dst
    {
      OneMoreVariable(envVars[..i], envVars[i], dst);
      assert envVars[..i + 1] == envVars[..i] + [envVars[i]];
      if envVars[i].name !in unique {
        unique := unique[envVars[i].name := envVars[i]];
      }
    }
    assert envVars[..|envVars|] == envVars;
  }

  method CollectInto(spec: ServerSpec) returns (envVars: seq<EnvVar>)
    ensures envVars == CollectSecretRefs(spec)
  {
    hide SliceSecrets, WalkedProviders, StorageSecrets, FirstOfEachName, S.Sorted;
    var raw: seq<EnvVar> := [];
    if spec.providers.Some? {
      raw := CollectProviderSecrets(spec.providers.value);
    }
    if spec.storage.Some? {
      raw := raw + StorageSecrets(spec.storage.value);
    }
    assert raw == RawSecretRefs(spec);
    var unique := AddUniqueEnvVars(map[], raw);
    assert unique == FirstOfEachName(raw);
    var names := S.SortedKeys(unique.Keys);
    envVars := [];
    for i := 0 to |names|
      invariant envVars == ByName(unique)[..i]
    {
      assert names[i] in names;
      envVars := envVars + [unique[names[i]]];
    }
  }

  // ---------------------------------------------------------------------------
  // The collectors' loops.
  // ---------------------------------------------------------------------------

  method CollectCustomProviderSecrets(p: CustomProvider) returns (envVars: seq<EnvVar>)
    ensures envVars == CustomSecrets(p)
  {
    hide S.Sorted, E.NormalizeEnvVarField, E.BuildEnvVarName, DeriveID;
    envVars := [];
    var keys := S.SortedKeys(p.secretRefs.Keys);
    for i := 0 to |keys|
      invariant envVars == CustomSecrets(p)[..i]
    {
      assert keys[i] in keys;
      var field := E.NormalizeField(keys[i]);
      envVars := envVars + [SecretToEnvVar(DeriveID(p), field, p.secretRefs[keys[i]])];
    }
  }

  lemma SliceSecretsConcat(a: seq<Provider>, b: seq<Provider>)
    ensures SliceSecrets(a + b) == SliceSecrets(a) + SliceSecrets(b)
  {
    hide SecretsOf;
    if b == [] {
      assert a + b == a;
    } else {
      SliceSecretsConcat(a, b[..|b| - 1]);
      assert (a + b)[..|a + b| - 1] == a + b[..|b| - 1];
    }
  }

  /** One range loop of the walk, after the providers already walked. */
  method CollectSlice(before: seq<EnvVar>, ghost walked: seq<Provider>, items: seq<Provider>)
    returns (envVars: seq<EnvVar>)
    requires before == SliceSecrets(walked)
    ensures envVars == SliceSecrets(walked + items)
  {
    hide TypedSecrets, CustomSecrets;
    envVars := before;
    assert walked + items[..0] == walked;
    for i := 0 to |items|
      invariant envVars == SliceSecrets(walked + items[..i])
    {
      assert (walked + items[..i + 1])[..|walked| + i] == walked + items[..i];
      if items[i].Custom? {
        var secrets := CollectCustomProviderSecrets(items[i]);
        envVars := envVars + secrets;
      } else {
        envVars := envVars + TypedSecrets(items[i]);
      }
    }
    assert items[..|items|] == items;
  }

  lemma SliceSecretsOfNoneOrOne()
    ensures SliceSecrets([]) == []
    ensures forall p :: SliceSecrets([p]) == SecretsOf(p)
  {
    hide SecretsOf;
    forall p ensures SliceSecrets([p]) == SecretsOf(p) {
      assert [p][..0] == [] && SliceSecrets([]) == [];
      assert SliceSecrets([p]) == SliceSecrets([p][..0]) + SecretsOf(p);
    }
  }

  method CollectInferenceSecrets(spec: InferenceSpec) returns (envVars: seq<EnvVar>)
    ensures envVars == SliceSecrets(WalkedInference(spec))
  {
    hide SliceSecrets, TypedSecrets, CustomSecrets;
    SliceSecretsOfNoneOrOne();
    envVars := [];
    ghost var walked: seq<Provider> := [];
    if spec.remote.Some? {
      var remote := spec.remote.value;
      envVars := CollectSlice(envVars, walked, remote.vllm);
      walked := walked + remote.vllm;
      envVars := CollectSlice(envVars, walked, remote.openai);
      walked := walked + remote.openai;
      envVars := CollectSlice(envVars, walked, remote.azure);
      walked := walked + remote.azure;
      envVars := CollectSlice(envVars, walked, remote.bedrock);
      walked := walked + remote.bedrock;
      envVars := CollectSlice(envVars, walked, remote.watsonx);
      walked := walked + remote.watsonx;
      envVars := CollectSlice(envVars, walked, remote.custom);
      walked := walked + remote.custom;
    }
    if spec.inline.Some? {
      envVars := CollectSlice(envVars, walked, spec.inline.value.custom);
      walked := walked + spec.inline.value.custom;
    }
    assert walked == WalkedInference(spec);
  }

  method CollectVectorIOSecrets(spec: VectorIOSpec) returns (envVars: seq<EnvVar>)
    ensures envVars == SliceSecrets(WalkedVectorIO(spec))
  {
    hide SliceSecrets, TypedSecrets, CustomSecrets;
    SliceSecretsOfNoneOrOne();
    envVars := [];
    ghost var walked: seq<Provider> := [];
    if spec.remote.Some? {
      var remote := spec.remote.value;
      envVars := CollectSlice(envVars, walked, remote.pgvector);
      walked := walked + remote.pgvector;
      envVars := CollectSlice(envVars, walked, remote.milvus);
      walked := walked + remote.milvus;
      envVars := CollectSlice(envVars, walked, remote.qdrant);
      walked := walked + remote.qdrant;
      envVars := CollectSlice(envVars, walked, remote.custom);
      walked := walked + remote.custom;
    }
    if spec.inline.Some? {
      envVars := CollectSlice(envVars, walked, spec.inline.value.custom);
      walked := walked + spec.inline.value.custom;
    }
    assert walked == WalkedVectorIO(spec);
  }

  method CollectToolRuntimeSecrets(spec: ToolRuntimeSpec) returns (envVars: seq<EnvVar>)
    ensures envVars == SliceSecrets(WalkedToolRuntime(spec))
  {
    hide SliceSecrets, TypedSecrets, CustomSecrets;
    SliceSecretsOfNoneOrOne();
    envVars := [];
    ghost var walked: seq<Provider> := [];
    if spec.remote.Some? {
      var remote := spec.remote.value;
      envVars := CollectSlice(envVars, walked, remote.braveSearch);
      walked := walked + remote.braveSearch;
      envVars := CollectSlice(envVars, walked, remote.tavilySearch);
      walked := walked + remote.tavilySearch;
      envVars := CollectSlice(envVars, walked, remote.custom);
      walked := walked + remote.custom;
    }
    if spec.inline.Some? {
      envVars := CollectSlice(envVars, walked, spec.inline.value.custom);
      walked := walked + spec.inline.value.custom;
    }
    assert walked == WalkedToolRuntime(spec);
  }

  method CollectFilesSecrets(spec: FilesSpec) returns (envVars: seq<EnvVar>)
    ensures envVars == SliceSecrets(WalkedFiles(spec))
  {
    hide SliceSecrets, TypedSecrets, CustomSecrets;
    SliceSecretsOfNoneOrOne();
    envVars := [];
    ghost var walked: seq<Provider> := [];
    if spec.remote.Some? {
      var remote := spec.remote.value;
      if remote.s3.Some? {
        envVars := TypedSecrets(remote.s3.value);
        walked := [remote.s3.value];
      }
      envVars := CollectSlice(envVars, walked, remote.custom);
      walked := walked + remote.custom;
    }
    if spec.inline.Some? {
      envVars := CollectSlice(envVars, walked, spec.inline.value.custom);
      walked := walked + spec.inline.value.custom;
    }
    assert walked == WalkedFiles(spec);
  }

  method CollectFileProcessorsSecrets(spec: FileProcessorsSpec) returns (envVars: seq<EnvVar>)
    ensures envVars == SliceSecrets(WalkedFileProcessors(spec))
  {
    hide SliceSecrets, TypedSecrets, CustomSecrets;
    SliceSecretsOfNoneOrOne();
    envVars := [];
    ghost var walked: seq<Provider> := [];
    if spec.remote.Some? {
      var remote := spec.remote.value;
      if remote.doclingServe.Some? {
        envVars := TypedSecrets(remote.doclingServe.value);
        walked := [remote.doclingServe.value];
      }
      envVars := CollectSlice(envVars, walked, remote.custom);
      walked := walked + remote.custom;
    }
    if spec.inline.Some? {
      envVars := CollectSlice(envVars, walked, spec.inline.value.custom);
      walked := walked + spec.inline.value.custom;
    }
    assert walked == WalkedFileProcessors(spec);
  }

  method CollectCustomSecretsFromSlices(remote: seq<CustomProvider>, inline: seq<CustomProvider>)
    returns (envVars: seq<EnvVar>)
    ensures envVars == SliceSecrets(remote + inline)
  {
    hide SliceSecrets;
    SliceSecretsOfNoneOrOne();
    envVars := CollectSlice([], [], remote);
    assert [] + remote == remote;
    envVars := CollectSlice(envVars, remote, inline);
  }

  /** SliceSecrets distributes over the walk, and a section that is absent contributes nothing. */
  lemma ProviderSecretsInOrder(s: ProvidersSpec)
    ensures SliceSecrets(WalkedProviders(s)) ==
      SliceSecrets(Walked(s, Inference)) + SliceSecrets(Walked(s, VectorIO)) + SliceSecrets(Walked(s, ToolRuntime))
      + SliceSecrets(Walked(s, Files)) + SliceSecrets(Walked(s, Batches)) + SliceSecrets(Walked(s, Responses))
      + SliceSecrets(Walked(s, FileProcessors))
    ensures SliceSecrets([]) == []
  {
    hide SliceSecrets, Walked;
    SliceSecretsOfNoneOrOne();
    var walked := Walked(s, Inference);
    SliceSecretsConcat(walked, Walked(s, VectorIO));
    walked := walked + Walked(s, VectorIO);
    SliceSecretsConcat(walked, Walked(s, ToolRuntime));
    walked := walked + Walked(s, ToolRuntime);
    SliceSecretsConcat(walked, Walked(s, Files));
    walked := walked + Walked(s, Files);
    SliceSecretsConcat(walked, Walked(s, Batches));
    walked := walked + Walked(s, Batches);
    SliceSecretsConcat(walked, Walked(s, Responses));
    walked := walked + Walked(s, Responses);
    SliceSecretsConcat(walked, Walked(s, FileProcessors));
  }

  /** The walk of a section, and of one that is absent. */
  lemma WalkOfSections(s: ProvidersSpec)
    ensures Walked(s, Inference) == if s.inference.Some? then WalkedInference(s.inference.value) else []
    ensures Walked(s, VectorIO) == if s.vectorIO.Some? then WalkedVectorIO(s.vectorIO.value) else []
    ensures Walked(s, ToolRuntime) == if s.toolRuntime.Some? then WalkedToolRuntime(s.toolRuntime.value) else []
    ensures Walked(s, Files) == if s.files.Some? then WalkedFiles(s.files.value) else []
    ensures Walked(s, Batches) == if s.batches.Some? then WalkedBatches(s.batches.value) else []
    ensures Walked(s, Responses) == if s.responses.Some? then WalkedResponses(s.responses.value) else []
    ensures Walked(s, FileProcessors) == if s.fileProcessors.Some? then WalkedFileProcessors(s.fileProcessors.value) else []
    ensures SliceSecrets([]) == []
  {
  }

  method CollectProviderSecrets(s: ProvidersSpec) returns (envVars: seq<EnvVar>)
    ensures envVars == SliceSecrets(WalkedProviders(s))
  {
    hide SliceSecrets, SecretsOf, Optionally, WalkedProviders;
    hide WalkedInference, WalkedVectorIO, WalkedToolRuntime, WalkedFiles, WalkedFileProcessors, Walked;
    WalkOfSections(s);
    var inference: seq<EnvVar> := [];
    if s.inference.Some? {
      inference := CollectInferenceSecrets(s.inference.value);
    }
    assert inference == SliceSecrets(Walked(s, Inference));
    var vectorIO: seq<EnvVar> := [];
    if s.vectorIO.Some? {
      vectorIO := CollectVectorIOSecrets(s.vectorIO.value);
    }
    assert vectorIO == SliceSecrets(Walked(s, VectorIO));
    var toolRuntime: seq<EnvVar> := [];
    if s.toolRuntime.Some? {
      toolRuntime := CollectToolRuntimeSecrets(s.toolRuntime.value);
    }
    assert toolRuntime == SliceSecrets(Walked(s, ToolRuntime));
    var files: seq<EnvVar> := [];
    if s.files.Some? {
      files := CollectFilesSecrets(s.files.value);
    }
    assert files == SliceSecrets(Walked(s, Files));
    var batches: seq<EnvVar> := [];
    if s.batches.Some? {
      batches := CollectCustomSecretsFromSlices(
        if s.batches.value.remote.Some? then s.batches.value.remote.value.custom else [],
        if s.batches.value.inline.Some? then s.batches.value.inline.value.custom else []);
    }
    assert batches == SliceSecrets(Walked(s, Batches));
    var responses: seq<EnvVar> := [];
    if s.responses.Some? {
      responses := CollectCustomSecretsFromSlices(
        if s.responses.value.remote.Some? then s.responses.value.remote.value.custom else [],
        if s.responses.value.inline.Some? then s.responses.value.inline.value.custom else []);
    }
    assert responses == SliceSecrets(Walked(s, Responses));
    var fileProcessors: seq<EnvVar> := [];
    if s.fileProcessors.Some? {
      fileProcessors := CollectFileProcessorsSecrets(s.fileProcessors.value);
    }
    assert fileProcessors == SliceSecrets(Walked(s, FileProcessors));
    ProviderSecretsInOrder(s);
    envVars := inference + vectorIO + toolRuntime + files + batches + responses + fileProcessors;
  }

  // ---------------------------------------------------------------------------
  // The check for name collisions.
  // ---------------------------------------------------------------------------

  datatype NameError = InvalidName(name: string) | NameCollision(name: string, first: SecretKeyRef, second: SecretKeyRef)

  predicate NamesValid(raw: seq<EnvVar>) {
    forall i :: 0 <= i < |raw| ==> E.IsEnvVarName(raw[i].name)
  }

  /** No two references share a name and mean different Secret keys. */
  predicate NamesAgree(raw: seq<EnvVar>) {
    forall i, j :: 0 <= i < j < |raw| && raw[i].name == raw[j].name ==> raw[i].ref == raw[j].ref
  }

  ghost predicate ValidSecretRefs(spec: ServerSpec) {
    NamesValid(RawSecretRefs(spec)) && NamesAgree(RawSecretRefs(spec))
  }

  /** Reports the first reference at fault: a name the regular expression refuses, or one whose
      name an earlier reference uses for another Secret key. */
  method ValidateSecretRefEnvVarNames(raw: seq<EnvVar>) returns (err: Option<NameError>)
    ensures err.None? <==> NamesValid(raw) && NamesAgree(raw)
    ensures err.Some? ==> exists i :: 0 <= i < |raw| && raw[i].name == err.value.name
                                      && NamesValid(raw[..i]) && NamesAgree(raw[..i])
                                      && (match err.value
                                          case InvalidName(_) => !E.IsEnvVarName(raw[i].name)
                                          case NameCollision(n, first, second) =>
                                            E.IsEnvVarName(n) && EnvVar(n, first) in raw[..i]
                                            && second == raw[i].ref && first != second)
  {
    hide E.IsEnvVarName;
    var seen: map<string, SecretKeyRef> := map[];
    for i := 0 to |raw|
      invariant NamesValid(raw[..i]) && NamesAgree(raw[..i])
      invariant forall e :: e in raw[..i] ==> e.name in seen && seen[e.name] == e.ref
      invariant forall n :: n in seen ==> EnvVar(n, seen[n]) in raw[..i]
    {
      var env := raw[i];
      assert raw[..i + 1] == raw[..i] + [env];
      if !E.IsEnvVarName(env.name) {
        return Some(InvalidName(env.name));
      }
      if env.name in seen {
        if seen[env.name] != env.ref {
          assert EnvVar(env.name, seen[env.name]) in raw;
          return Some(NameCollision(env.name, seen[env.name], env.ref));
        }
        continue;
      }
      seen := seen[env.name := env.ref];
    }
    assert raw[..|raw|] == raw;
    return None;
  }

  // ---------------------------------------------------------------------------
  // What the pod sees under a name.
  // ---------------------------------------------------------------------------

  /** The Secret keys a list of variables holds under a name, one for each entry. */
  function Named(envVars: seq<EnvVar>, name: string): seq<SecretKeyRef> {
    if envVars == [] then []
    else Named(envVars[..|envVars| - 1], name)
         + (if envVars[|envVars| - 1].name == name then [envVars[|envVars| - 1].ref] else [])
  }

  lemma {:induction false} NamedOnce(envVars: seq<EnvVar>, i: nat)
    requires i < |envVars|
    requires forall j :: 0 <= j < |envVars| && envVars[j].name == envVars[i].name ==> j == i
    ensures Named(envVars, envVars[i].name) == [envVars[i].ref]
  {
    if i == |envVars| - 1 {
      NamedNever(envVars[..i], envVars[i].name);
    } else {
      NamedOnce(envVars[..|envVars| - 1], i);
    }
  }

  lemma {:induction false} NamedNever(envVars: seq<EnvVar>, name: string)
    requires forall j :: 0 <= j < |envVars| ==> envVars[j].name != name
    ensures Named(envVars, name) == []
  {
    if envVars != [] {
      NamedNever(envVars[..|envVars| - 1], name);
    }
  }

  /** In a spec that passed the check, a collected reference is the only entry of its name. */
  lemma CollectedOnce(spec: ServerSpec, e: EnvVar)
    requires ValidSecretRefs(spec) && e in RawSecretRefs(spec)
    ensures Named(CollectSecretRefs(spec), e.name) == [e.ref]
  {
    hide RawSecretRefs, E.IsEnvVarName, Named, S.Sorted, FirstOfEachName;
    var raw := RawSecretRefs(spec);
    var unique := FirstOfEachName(raw);
    var names, envVars := S.Sorted(unique.Keys), ByName(unique);
    assert unique[e.name].ref == e.ref;
    var i :| 0 <= i < |names| && names[i] == e.name;
    forall j | 0 <= j < |envVars| ensures envVars[j].name == names[j] {
      assert names[j] in names;
    }
    forall j | 0 <= j < |envVars| && envVars[j].name == envVars[i].name ensures j == i {
      S.SortedHasNoDuplicates(names, i, j);
    }
    NamedOnce(envVars, i);
  }

  /** The list names every reference once, in increasing order of name, and nothing else. */
  lemma CollectedSortedByName(spec: ServerSpec)
    ensures forall i, j :: 0 <= i < j < |CollectSecretRefs(spec)| ==>
              S.Less(CollectSecretRefs(spec)[i].name, CollectSecretRefs(spec)[j].name)
    ensures forall e :: e in CollectSecretRefs(spec) ==> e in RawSecretRefs(spec)
    ensures forall e :: e in RawSecretRefs(spec) ==> exists f :: f in CollectSecretRefs(spec) && f.name == e.name
  {
    hide RawSecretRefs, E.IsEnvVarName, S.Sorted, FirstOfEachName;
    var unique := FirstOfEachName(RawSecretRefs(spec));
    var names, envVars := S.Sorted(unique.Keys), ByName(unique);
    forall i | 0 <= i < |names| ensures envVars[i] == unique[names[i]] && envVars[i].name == names[i] {
      assert names[i] in names;
    }
    forall e | e in RawSecretRefs(spec) ensures exists f :: f in envVars && f.name == e.name {
      var i :| 0 <= i < |names| && names[i] == e.name;
      assert envVars[i] in envVars;
    }
  }

  /** When several references bear one name, the first of them is listed. */
  lemma FirstOfNameIsCollected(spec: ServerSpec, e: EnvVar, before: seq<EnvVar>, after: seq<EnvVar>)
    requires RawSecretRefs(spec) == before + [e] + after
    requires forall x :: x in before ==> x.name != e.name
    ensures e in CollectSecretRefs(spec)
  {
    hide RawSecretRefs, S.Sorted, FirstOfEachName;
    var raw := RawSecretRefs(spec);
    assert raw[|before|] == e;
    assert forall j :: 0 <= j < |before| ==> raw[j] == before[j];
    FirstIsKept(raw, |before|);
    var names, envVars := S.Sorted(FirstOfEachName(raw).Keys), ByName(FirstOfEachName(raw));
    var i :| 0 <= i < |names| && names[i] == e.name;
    assert envVars[i] == e;
  }

  // ---------------------------------------------------------------------------
  // The regular expression never refuses a generated name.
  // ---------------------------------------------------------------------------

  predicate IsFieldText(field: string) {
    forall i :: 0 <= i < |field| ==> E.IsEnvVarAlphaNum(field[i]) || field[i] == '_'
  }

  lemma FixedFieldsAreFieldTexts()
    ensures IsFieldText("API_TOKEN") && IsFieldText("API_KEY") && IsFieldText("PASSWORD") && IsFieldText("TOKEN")
    ensures IsFieldText("AWS_ACCESS_KEY_ID") && IsFieldText("AWS_SECRET_ACCESS_KEY") && IsFieldText("AWS_SESSION_TOKEN")
  {
  }

  lemma StorageNamesAreValid()
    ensures E.IsEnvVarName(KV_PASSWORD_ENV) && E.IsEnvVarName(SQL_CONNECTION_ENV)
  {
    assert IsFieldText("_STORAGE_KV_PASSWORD");
    assert IsFieldText("_STORAGE_SQL_CONNECTION_STRING");
  }

  lemma FieldTextOfName(name: string)
    requires E.IsEnvVarName(name)
    ensures IsFieldText(name)
  {
  }

  lemma SecretNamesAreValid(p: Provider, e: EnvVar)
    requires e in SecretsOf(p)
    ensures E.IsEnvVarName(e.name)
  {
    hide E.IsEnvVarName, E.BuildEnvVarName, IsFieldText, DeriveID, S.Sorted;
    if p.Custom? {
      var keys := S.Sorted(p.secretRefs.Keys);
      var i :| 0 <= i < |keys| && e == CustomSecrets(p)[i];
      assert keys[i] in keys;
      var field := E.NormalizeEnvVarField(keys[i]);
      E.NormalizedIsEnvVarName(keys[i]);
      assert IsFieldText(field) by { FieldTextOfName(field); }
      BuiltNameIsValid(DeriveID(p), field);
    } else {
      FixedFieldsAreFieldTexts();
      forall field | IsFieldText(field) ensures E.IsEnvVarName(E.BuildEnvVarName(DeriveID(p), field)) {
        BuiltNameIsValid(DeriveID(p), field);
      }
    }
  }

  lemma BuiltNameIsValid(id: string, field: string)
    requires IsFieldText(field)
    ensures E.IsEnvVarName(E.BuildEnvVarName(id, field))
  {
    E.BuiltNameIsEnvVarName(id, field);
  }

  /** So the check can only fail on a collision. */
  lemma NamesAreAlwaysValid(spec: ServerSpec)
    ensures NamesValid(RawSecretRefs(spec))
    ensures ValidSecretRefs(spec) <==> NamesAgree(RawSecretRefs(spec))
  {
    hide E.IsEnvVarName, WalkedProviders, SliceSecrets;
    var raw := RawSecretRefs(spec);
    StorageNamesAreValid();
    forall i | 0 <= i < |raw| ensures E.IsEnvVarName(raw[i].name) {
      if spec.providers.Some? && raw[i] in SliceSecrets(WalkedProviders(spec.providers.value)) {
        var p := SliceOrigin(WalkedProviders(spec.providers.value), raw[i]);
        SecretNamesAreValid(p, raw[i]);
      } else {
        assert raw[i] in raw;
      }
    }
  }
}
