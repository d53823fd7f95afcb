/** The typed provider section of an OGXServer spec, reduced to IDs and secret slots, and the ID
    lists the webhook reads off it. */
module ProviderTypes {
  import opened Prelude
  import Y = Yaml

  datatype SecretKeyRef = SecretKeyRef(name: string, key: string)

  /** Raw settings JSON: unparsable, or the object it holds. */
  datatype Settings = Malformed | Fields(fields: map<string, Y.Value>)

  /** One configured provider. An empty `id` means none was given. */
  datatype Provider =
    | VLLM(id: string, apiToken: Option<SecretKeyRef>)
    | OpenAI(id: string, apiKey: SecretKeyRef)
    | Azure(id: string, apiKey: SecretKeyRef)
    | Bedrock(
        id: string,
        optionalKey: Option<SecretKeyRef>,
        awsAccessKeyID: Option<SecretKeyRef>,
        awsSecretAccessKey: Option<SecretKeyRef>,
        awsSessionToken: Option<SecretKeyRef>)
    | VertexAI(id: string)
    | Watsonx(id: string, apiKey: SecretKeyRef)
    | Pgvector(id: string, password: SecretKeyRef)
    | Milvus(id: string, token: Option<SecretKeyRef>)
    | Qdrant(id: string, optionalKey: Option<SecretKeyRef>)
    | BraveSearch(id: string, apiKey: SecretKeyRef)
    | TavilySearch(id: string, apiKey: SecretKeyRef)
    | ModelContextProtocol(id: string)
    | FileSearch(id: string)
    | S3(awsAccessKeyID: Option<SecretKeyRef>, awsSecretAccessKey: Option<SecretKeyRef>)
    | LocalFS
    | Reference
    | Builtin
    | DoclingServe(optionalKey: Option<SecretKeyRef>)
    | Auto
    | PyPDF
    | MarkItDown
    | Docling
    | Custom(id: string, ctype: string, secretRefs: map<string, SecretKeyRef>, settings: Option<Settings>)

  type VLLMProvider = p: Provider | p.VLLM? witness VLLM("", None)
  type OpenAIProvider = p: Provider | p.OpenAI? witness OpenAI("", SecretKeyRef("", ""))
  type AzureProvider = p: Provider | p.Azure? witness Azure("", SecretKeyRef("", ""))
  type BedrockProvider = p: Provider | p.Bedrock? witness Bedrock("", None, None, None, None)
  type VertexAIProvider = p: Provider | p.VertexAI? witness VertexAI("")
  type WatsonxProvider = p: Provider | p.Watsonx? witness Watsonx("", SecretKeyRef("", ""))
  type PgvectorProvider = p: Provider | p.Pgvector? witness Pgvector("", SecretKeyRef("", ""))
  type MilvusProvider = p: Provider | p.Milvus? witness Milvus("", None)
  type QdrantProvider = p: Provider | p.Qdrant? witness Qdrant("", None)
  type BraveSearchProvider = p: Provider | p.BraveSearch? witness BraveSearch("", SecretKeyRef("", ""))
  type TavilySearchProvider = p: Provider | p.TavilySearch? witness TavilySearch("", SecretKeyRef("", ""))
  type MCPProvider = p: Provider | p.ModelContextProtocol? witness ModelContextProtocol("")
  type FileSearchProvider = p: Provider | p.FileSearch? witness FileSearch("")
  type S3Provider = p: Provider | p.S3? witness S3(None, None)
  type LocalFSProvider = p: Provider | p.LocalFS? witness LocalFS
  type ReferenceProvider = p: Provider | p.Reference? witness Reference
  type BuiltinProvider = p: Provider | p.Builtin? witness Builtin
  type DoclingServeProvider = p: Provider | p.DoclingServe? witness DoclingServe(None)
  type AutoProvider = p: Provider | p.Auto? witness Auto
  type PyPDFProvider = p: Provider | p.PyPDF? witness PyPDF
  type MarkItDownProvider = p: Provider | p.MarkItDown? witness MarkItDown
  type DoclingProvider = p: Provider | p.Docling? witness Docling
  type CustomProvider = p: Provider | p.Custom? witness Custom("", "", map[], None)

  /** A remote or inline section that holds custom providers only. */
  datatype CustomOnly = CustomOnly(custom: seq<CustomProvider>)

  datatype InferenceRemote = InferenceRemote(
    vllm: seq<VLLMProvider>,
    openai: seq<OpenAIProvider>,
    azure: seq<AzureProvider>,
    bedrock: seq<BedrockProvider>,
    vertexai: seq<VertexAIProvider>,
    watsonx: seq<WatsonxProvider>,
    custom: seq<CustomProvider>)
  datatype InferenceSpec = InferenceSpec(remote: Option<InferenceRemote>, inline: Option<CustomOnly>)

  datatype VectorIORemote = VectorIORemote(
    pgvector: seq<PgvectorProvider>,
    milvus: seq<MilvusProvider>,
    qdrant: seq<QdrantProvider>,
    custom: seq<CustomProvider>)
  datatype VectorIOSpec = VectorIOSpec(remote: Option<VectorIORemote>, inline: Option<CustomOnly>)

  datatype ToolRuntimeRemote = ToolRuntimeRemote(
    braveSearch: seq<BraveSearchProvider>,
    tavilySearch: seq<TavilySearchProvider>,
    modelContextProtocol: seq<MCPProvider>,
    custom: seq<CustomProvider>)
  datatype ToolRuntimeInline = ToolRuntimeInline(fileSearch: seq<FileSearchProvider>, custom: seq<CustomProvider>)
  datatype ToolRuntimeSpec = ToolRuntimeSpec(remote: Option<ToolRuntimeRemote>, inline: Option<ToolRuntimeInline>)

  datatype FilesRemote = FilesRemote(s3: Option<S3Provider>, custom: seq<CustomProvider>)
  datatype FilesInline = FilesInline(localfs: Option<LocalFSProvider>, custom: seq<CustomProvider>)
  datatype FilesSpec = FilesSpec(remote: Option<FilesRemote>, inline: Option<FilesInline>)

  datatype BatchesInline = BatchesInline(reference: Option<ReferenceProvider>, custom: seq<CustomProvider>)
  datatype BatchesSpec = BatchesSpec(remote: Option<CustomOnly>, inline: Option<BatchesInline>)

  datatype ResponsesInline = ResponsesInline(builtin: Option<BuiltinProvider>, custom: seq<CustomProvider>)
  datatype ResponsesSpec = ResponsesSpec(remote: Option<CustomOnly>, inline: Option<ResponsesInline>)

  datatype FileProcessorsRemote = FileProcessorsRemote(doclingServe: Option<DoclingServeProvider>, custom: seq<CustomProvider>)
  datatype FileProcessorsInline = FileProcessorsInline(
    auto: Option<AutoProvider>,
    pypdf: Option<PyPDFProvider>,
    markitdown: Option<MarkItDownProvider>,
    docling: Option<DoclingProvider>,
    custom: seq<CustomProvider>)
  datatype FileProcessorsSpec = FileProcessorsSpec(remote: Option<FileProcessorsRemote>, inline: Option<FileProcessorsInline>)

  datatype ProvidersSpec = ProvidersSpec(
    inference: Option<InferenceSpec>,
    vectorIO: Option<VectorIOSpec>,
    toolRuntime: Option<ToolRuntimeSpec>,
    files: Option<FilesSpec>,
    batches: Option<BatchesSpec>,
    responses: Option<ResponsesSpec>,
    fileProcessors: Option<FileProcessorsSpec>)

  /** A singleton section as a list. */
  function Optionally(p: Option<Provider>): seq<Provider> {
    if p.None? then [] else [p.value]
  }

  // ---------------------------------------------------------------------------
  // Provider IDs.
  // ---------------------------------------------------------------------------

  function DeriveOrDefault(id: string, defaultID: string): string {
    if id != "" then id else defaultID
  }

  /** strings.ReplaceAll(s, "::", "-"). */
  function ReplaceDoubleColons(s: string): string {
    if |s| < 2 then s
    else if s[0] == ':' && s[1] == ':' then "-" + ReplaceDoubleColons(s[2..])
    else [s[0]] + ReplaceDoubleColons(s[1..])
  }

  function DeriveID(p: Provider): string {
    match p
    case VLLM(id, _) => DeriveOrDefault(id, "remote-vllm")
    case OpenAI(id, _) => DeriveOrDefault(id, "remote-openai")
    case Azure(id, _) => DeriveOrDefault(id, "remote-azure")
    case Bedrock(id, _, _, _, _) => DeriveOrDefault(id, "remote-bedrock")
    case VertexAI(id) => DeriveOrDefault(id, "remote-vertexai")
    case Watsonx(id, _) => DeriveOrDefault(id, "remote-watsonx")
    case Pgvector(id, _) => DeriveOrDefault(id, "remote-pgvector")
    case Milvus(id, _) => DeriveOrDefault(id, "remote-milvus")
    case Qdrant(id, _) => DeriveOrDefault(id, "remote-qdrant")
    case BraveSearch(id, _) => DeriveOrDefault(id, "remote-brave-search")
    case TavilySearch(id, _) => DeriveOrDefault(id, "remote-tavily-search")
    case ModelContextProtocol(id) => DeriveOrDefault(id, "remote-model-context-protocol")
    case FileSearch(id) => DeriveOrDefault(id, "inline-file-search")
    case S3(_, _) => "remote-s3"
    case LocalFS => "inline-localfs"
    case Reference => "inline-reference"
    case Builtin => "inline-builtin"
    case DoclingServe(_) => "remote-docling-serve"
    case Auto => "inline-auto"
    case PyPDF => "inline-pypdf"
    case MarkItDown => "inline-markitdown"
    case Docling => "inline-docling"
    case Custom(id, ctype, _, _) => DeriveOrDefault(id, ReplaceDoubleColons(ctype))
  }

  function DeriveSliceIDs(items: seq<Provider>): seq<string> {
    Map(DeriveID, items)
  }

  method DeriveSliceIDsInto(items: seq<Provider>) returns (ids: array<string>)
    ensures fresh(ids) && ids[..] == DeriveSliceIDs(items)
  {
    ids := new string[|items|];
    for i := 0 to |items|
      invariant forall j :: 0 <= j < i ==> ids[j] == DeriveID(items[j])
    {
      ids[i] := DeriveID(items[i]);
    }
  }

  /** The ID of a singleton provider, when it is configured. */
  function OptionalID(p: Option<Provider>): seq<string> {
    if p.Some? then [DeriveID(p.value)] else []
  }

  function CustomOnlyIDs(s: Option<CustomOnly>): seq<string> {
    if s.None? then [] else DeriveSliceIDs(s.value.custom)
  }

  function InferenceRemoteIDs(r: Option<InferenceRemote>): seq<string> {
    if r.None? then []
    else
      DeriveSliceIDs(r.value.vllm) + DeriveSliceIDs(r.value.openai) + DeriveSliceIDs(r.value.azure)
      + DeriveSliceIDs(r.value.bedrock) + DeriveSliceIDs(r.value.vertexai) + DeriveSliceIDs(r.value.watsonx)
      + DeriveSliceIDs(r.value.custom)
  }

  function InferenceIDs(s: Option<InferenceSpec>): seq<string> {
    if s.None? then [] else InferenceRemoteIDs(s.value.remote) + CustomOnlyIDs(s.value.inline)
  }

  function VectorIORemoteIDs(r: Option<VectorIORemote>): seq<string> {
    if r.None? then []
    else
      DeriveSliceIDs(r.value.pgvector) + DeriveSliceIDs(r.value.milvus)
      + DeriveSliceIDs(r.value.qdrant) + DeriveSliceIDs(r.value.custom)
  }

  function VectorIOIDs(s: Option<VectorIOSpec>): seq<string> {
    if s.None? then [] else VectorIORemoteIDs(s.value.remote) + CustomOnlyIDs(s.value.inline)
  }

  function ToolRuntimeRemoteIDs(r: Option<ToolRuntimeRemote>): seq<string> {
    if r.None? then []
    else
      DeriveSliceIDs(r.value.braveSearch) + DeriveSliceIDs(r.value.tavilySearch)
      + DeriveSliceIDs(r.value.modelContextProtocol) + DeriveSliceIDs(r.value.custom)
  }

  function ToolRuntimeInlineIDs(r: Option<ToolRuntimeInline>): seq<string> {
    if r.None? then [] else DeriveSliceIDs(r.value.fileSearch) + DeriveSliceIDs(r.value.custom)
  }

  function ToolRuntimeIDs(s: Option<ToolRuntimeSpec>): seq<string> {
    if s.None? then [] else ToolRuntimeRemoteIDs(s.value.remote) + ToolRuntimeInlineIDs(s.value.inline)
  }

  function FilesRemoteIDs(r: Option<FilesRemote>): seq<string> {
    if r.None? then [] else OptionalID(r.value.s3) + DeriveSliceIDs(r.value.custom)
  }

  function FilesInlineIDs(r: Option<FilesInline>): seq<string> {
    if r.None? then [] else OptionalID(r.value.localfs) + DeriveSliceIDs(r.value.custom)
  }

  function FilesIDs(s: Option<FilesSpec>): seq<string> {
    if s.None? then [] else FilesRemoteIDs(s.value.remote) + FilesInlineIDs(s.value.inline)
  }

  function BatchesInlineIDs(r: Option<BatchesInline>): seq<string> {
    if r.None? then [] else OptionalID(r.value.reference) + DeriveSliceIDs(r.value.custom)
  }

  function BatchesIDs(s: Option<BatchesSpec>): seq<string> {
    if s.None? then [] else CustomOnlyIDs(s.value.remote) + BatchesInlineIDs(s.value.inline)
  }

  function ResponsesInlineIDs(r: Option<ResponsesInline>): seq<string> {
    if r.None? then [] else OptionalID(r.value.builtin) + DeriveSliceIDs(r.value.custom)
  }

  function ResponsesIDs(s: Option<ResponsesSpec>): seq<string> {
    if s.None? then [] else CustomOnlyIDs(s.value.remote) + ResponsesInlineIDs(s.value.inline)
  }

  function FileProcessorsRemoteIDs(r: Option<FileProcessorsRemote>): seq<string> {
    if r.None? then [] else OptionalID(r.value.doclingServe) + DeriveSliceIDs(r.value.custom)
  }

  function FileProcessorsInlineIDs(r: Option<FileProcessorsInline>): seq<string> {
    if r.None? then []
    else
      OptionalID(r.value.auto) + OptionalID(r.value.pypdf) + OptionalID(r.value.markitdown)
      + OptionalID(r.value.docling) + DeriveSliceIDs(r.value.custom)
  }

  function FileProcessorsIDs(s: Option<FileProcessorsSpec>): seq<string> {
    if s.None? then [] else FileProcessorsRemoteIDs(s.value.remote) + FileProcessorsInlineIDs(s.value.inline)
  }

  /** ProvidersSpec.IDs: what the webhook takes for the IDs of all configured providers. */
  function IDs(s: ProvidersSpec): seq<string> {
    InferenceIDs(s.inference) + VectorIOIDs(s.vectorIO) + ToolRuntimeIDs(s.toolRuntime) + FilesIDs(s.files)
    + BatchesIDs(s.batches) + ResponsesIDs(s.responses) + FileProcessorsIDs(s.fileProcessors)
  }

  // ---------------------------------------------------------------------------
  // What a spec declares, independently of any traversal.
  // ---------------------------------------------------------------------------

  /** The API types; a base config may name others. */
  datatype Api =
    | Inference
    | VectorIO
    | ToolRuntime
    | Files
    | Batches
    | Responses
    | FileProcessors
    | OtherApi(name: string)

  predicate InSlice(p: Provider, s: Option<CustomOnly>) {
    s.Some? && p in s.value.custom
  }

  /** `p` is written somewhere under the section of that API. */
  predicate Declares(s: ProvidersSpec, api: Api, p: Provider) {
    match api
    case Inference =>
      s.inference.Some?
      && (InSlice(p, s.inference.value.inline)
          || (s.inference.value.remote.Some?
              && var r := s.inference.value.remote.value;
                 p in r.vllm || p in r.openai || p in r.azure || p in r.bedrock || p in r.vertexai
                 || p in r.watsonx || p in r.custom))
    case VectorIO =>
      s.vectorIO.Some?
      && (InSlice(p, s.vectorIO.value.inline)
          || (s.vectorIO.value.remote.Some?
              && var r := s.vectorIO.value.remote.value;
                 p in r.pgvector || p in r.milvus || p in r.qdrant || p in r.custom))
    case ToolRuntime =>
      s.toolRuntime.Some?
      && ((s.toolRuntime.value.inline.Some?
           && var r := s.toolRuntime.value.inline.value; p in r.fileSearch || p in r.custom)
          || (s.toolRuntime.value.remote.Some?
              && var r := s.toolRuntime.value.remote.value;
                 p in r.braveSearch || p in r.tavilySearch || p in r.modelContextProtocol || p in r.custom))
    case Files =>
      s.files.Some?
      && ((s.files.value.remote.Some?
           && var r := s.files.value.remote.value; Some(p) == r.s3 || p in r.custom)
          || (s.files.value.inline.Some?
              && var r := s.files.value.inline.value; Some(p) == r.localfs || p in r.custom))
    case Batches =>
      s.batches.Some?
      && (InSlice(p, s.batches.value.remote)
          || (s.batches.value.inline.Some?
              && var r := s.batches.value.inline.value; Some(p) == r.reference || p in r.custom))
    case Responses =>
      s.responses.Some?
      && (InSlice(p, s.responses.value.remote)
          || (s.responses.value.inline.Some?
              && var r := s.responses.value.inline.value; Some(p) == r.builtin || p in r.custom))
    case FileProcessors =>
      s.fileProcessors.Some?
      && ((s.fileProcessors.value.remote.Some?
           && var r := s.fileProcessors.value.remote.value; Some(p) == r.doclingServe || p in r.custom)
          || (s.fileProcessors.value.inline.Some?
              && var r := s.fileProcessors.value.inline.value;
                 Some(p) == r.auto || Some(p) == r.pypdf || Some(p) == r.markitdown || Some(p) == r.docling
                 || p in r.custom))
    case OtherApi(_) => false
  }

  /** The Secret the spec means by a key of that provider's config section. */
  function DeclaredSecret(p: Provider, configKey: string): Option<SecretKeyRef> {
    match p
    case VLLM(_, apiToken) => if configKey == "api_token" then apiToken else None
    case OpenAI(_, apiKey) => if configKey == "api_key" then Some(apiKey) else None
    case Azure(_, apiKey) => if configKey == "api_key" then Some(apiKey) else None
    case Bedrock(_, key, accessKeyID, secretAccessKey, sessionToken) =>
      if configKey == "api_key" then key
      else if configKey == "aws_access_key_id" then accessKeyID
      else if configKey == "aws_secret_access_key" then secretAccessKey
      else if configKey == "aws_session_token" then sessionToken
      else None
    case Watsonx(_, apiKey) => if configKey == "api_key" then Some(apiKey) else None
    case Pgvector(_, password) => if configKey == "password" then Some(password) else None
    case Milvus(_, token) => if configKey == "token" then token else None
    case Qdrant(_, key) => if configKey == "api_key" then key else None
    case BraveSearch(_, apiKey) => if configKey == "api_key" then Some(apiKey) else None
    case TavilySearch(_, apiKey) => if configKey == "api_key" then Some(apiKey) else None
    case S3(accessKeyID, secretAccessKey) =>
      if configKey == "aws_access_key_id" then accessKeyID
      else if configKey == "aws_secret_access_key" then secretAccessKey
      else None
    case DoclingServe(key) => if configKey == "api_key" then key else None
    case Custom(_, _, secretRefs, _) => if configKey in secretRefs then Some(secretRefs[configKey]) else None
    case _ => None
  }
}
