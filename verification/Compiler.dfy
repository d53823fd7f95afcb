/** The config compiler as a whole: what the generated config refers to, the Deployment provides. */
module Compiler {
  import opened Prelude
  import opened ProviderTypes
  import E = EnvNames
  import P = Providers
  import Sec = Secrets
  import St = Storage
  import Strs = Strings
  import Y = Yaml

  /** The name in a value of the form ${env.NAME}. */
  function ReferencedName(v: Y.Value): Option<string> {
    if v.Str? && |v.s| >= 7 && v.s[..6] == "${env." && v.s[|v.s| - 1] == '}' then Some(v.s[6..|v.s| - 1]) else None
  }

  /** The Secret keys a config value stands for in the pod: those of every variable of its name. */
  ghost function StandsFor(spec: Sec.ServerSpec, v: Y.Value): seq<SecretKeyRef> {
    match ReferencedName(v)
    case None => []
    case Some(name) => Sec.Named(Sec.CollectSecretRefs(spec), name)
  }

  lemma PlaceholderIsRead(name: string)
    ensures ReferencedName(Y.Str(P.Placeholder(name))) == Some(name)
  {
    var text := P.Placeholder(name);
    assert text[..6] == "${env." && text[6..|text| - 1] == name;
  }

  // ---------------------------------------------------------------------------
  // One provider: expander and collector agree on the name of each secret.
  // ---------------------------------------------------------------------------

  /** The expander's entry under `key` refers to a variable the collector gives for `ref`. */
  ghost predicate Emits(p: Provider, config: map<string, Y.Value>, key: string, ref: SecretKeyRef) {
    && key in config
    && exists e :: e in Sec.SecretsOf(p) && e.ref == ref && config[key] == Y.Str(P.Placeholder(e.name))
  }

  lemma TypedAgreement(p: Provider, key: string, ref: SecretKeyRef)
    requires !p.Custom? && DeclaredSecret(p, key) == Some(ref)
    ensures Emits(p, P.TypedConfig(p), key, ref)
  {
    hide E.BuildEnvVarName, DeriveID, P.Placeholder;
    match p
    case VLLM(_, _) => EmitsField(p, key, ref, "API_TOKEN");
    case Pgvector(_, _) => EmitsField(p, key, ref, "PASSWORD");
    case Milvus(_, _) => EmitsField(p, key, ref, "TOKEN");
    case Bedrock(_, _, _, _, _) => BedrockAgreement(p, key, ref);
    case S3(_, _) => S3Agreement(p, key, ref);
    case _ => EmitsField(p, key, ref, "API_KEY");
  }

  /** The collector's variable and the expander's entry are built from the same field. */
  lemma EmitsField(p: Provider, key: string, ref: SecretKeyRef, field: string)
    requires !p.Custom? && key in P.TypedConfig(p)
    requires P.TypedConfig(p)[key] == Y.Str(P.EnvVarRef(DeriveID(p), field))
    requires Sec.SecretToEnvVar(DeriveID(p), field, ref) in Sec.TypedSecrets(p)
    ensures Emits(p, P.TypedConfig(p), key, ref)
  {
    hide P.TypedConfig, Sec.TypedSecrets, P.Placeholder, E.BuildEnvVarName, DeriveID;
    var e := Sec.SecretToEnvVar(DeriveID(p), field, ref);
    assert e in Sec.SecretsOf(p);
  }

  lemma BedrockAgreement(p: BedrockProvider, key: string, ref: SecretKeyRef)
    requires DeclaredSecret(p, key) == Some(ref)
    ensures Emits(p, P.TypedConfig(p), key, ref)
  {
    hide E.BuildEnvVarName, DeriveID, P.EnvVarRef, Emits;
    var field := if key == "api_key" then "API_KEY"
    else if key == "aws_access_key_id" then "AWS_ACCESS_KEY_ID"
    else if key == "aws_secret_access_key" then "AWS_SECRET_ACCESS_KEY"
    else "AWS_SESSION_TOKEN";
    assert Sec.SecretToEnvVar(DeriveID(p), field, ref) in Sec.TypedSecrets(p);
    EmitsField(p, key, ref, field);
  }

  lemma S3Agreement(p: S3Provider, key: string, ref: SecretKeyRef)
    requires DeclaredSecret(p, key) == Some(ref)
    ensures Emits(p, P.TypedConfig(p), key, ref)
  {
    hide E.BuildEnvVarName, DeriveID, P.EnvVarRef, Emits;
    var field := if key == "aws_access_key_id" then "AWS_ACCESS_KEY_ID" else "AWS_SECRET_ACCESS_KEY";
    assert Sec.SecretToEnvVar(DeriveID(p), field, ref) in Sec.TypedSecrets(p);
    EmitsField(p, key, ref, field);
  }

  lemma CustomAgreement(p: Provider, key: string, ref: SecretKeyRef)
    requires p.Custom? && P.ExpandCustom(p).Ok? && DeclaredSecret(p, key) == Some(ref)
    ensures Emits(p, P.ExpandCustom(p).value.config, key, ref)
  {
    hide E.BuildEnvVarName, E.NormalizeEnvVarField, DeriveID, P.Placeholder, Strs.Sorted;
    var keys := Strs.Sorted(p.secretRefs.Keys);
    var i :| 0 <= i < |keys| && keys[i] == key;
    var e := Sec.CustomSecrets(p)[i];
    assert e in Sec.SecretsOf(p) && e.ref == ref;
  }

  lemma Agreement(p: Provider, key: string, ref: SecretKeyRef)
    requires DeclaredSecret(p, key) == Some(ref) && P.Expand(p).Ok?
    ensures Emits(p, P.Expand(p).value.config, key, ref)
  {
    hide Emits, DeclaredSecret, P.ExpandCustom, P.TypedConfig;
    if p.Custom? {
      CustomAgreement(p, key, ref);
    } else {
      TypedAgreement(p, key, ref);
    }
  }

  /** Conversely the only entries are those of declared secrets and a custom provider's settings. */
  lemma EntriesAreDeclared(p: Provider, key: string)
    requires P.Expand(p).Ok? && key in P.Expand(p).value.config
    ensures DeclaredSecret(p, key).Some? || P.HasSetting(p, key)
  {
    hide E.BuildEnvVarName, E.NormalizeEnvVarField, DeriveID, P.Placeholder, P.EnvVarRef;
    if p.Custom? {
      hide P.TypedConfig;
    } else {
      TypedEntriesAreDeclared(p, key);
      hide P.TypedConfig, DeclaredSecret;
    }
  }

  lemma TypedEntriesAreDeclared(p: Provider, key: string)
    requires !p.Custom? && key in P.TypedConfig(p)
    ensures DeclaredSecret(p, key).Some?
  {
    hide DeriveID, P.EnvVarRef;
  }

  // ---------------------------------------------------------------------------
  // The entry of a declared provider.
  // ---------------------------------------------------------------------------

  /** A field name is its own normal form, upper-cased. */
  lemma FieldOfKey(key: string, words: seq<string>)
    requires words != [] && E.AllRuns(words) && !('0' <= words[0][0] <= '9')
    requires E.ToUpper(key) == E.Join(words)
    ensures E.NormalizeEnvVarField(key) == E.Join(words)
  {
    hide E.ToUpper, E.Runs;
    E.RunsOfJoin(words);
    E.JoinStart(words);
  }

  lemma TypedFields()
    ensures E.NormalizeEnvVarField("api_token") == "API_TOKEN"
    ensures E.NormalizeEnvVarField("api_key") == "API_KEY"
    ensures E.NormalizeEnvVarField("password") == "PASSWORD"
    ensures E.NormalizeEnvVarField("token") == "TOKEN"
  {
    hide E.Runs, E.NormalizeEnvVarField;
    assert E.Join(["API", "TOKEN"]) == "API_TOKEN";
    assert E.ToUpper("api_token") == "API_TOKEN";
    FieldOfKey("api_token", ["API", "TOKEN"]);
    assert E.Join(["API", "KEY"]) == "API_KEY";
    assert E.ToUpper("api_key") == "API_KEY";
    FieldOfKey("api_key", ["API", "KEY"]);
    assert E.ToUpper("password") == "PASSWORD";
    FieldOfKey("password", ["PASSWORD"]);
    assert E.ToUpper("token") == "TOKEN";
    FieldOfKey("token", ["TOKEN"]);
  }

  lemma AccessKeyIDField()
    ensures E.NormalizeEnvVarField("aws_access_key_id") == "AWS_ACCESS_KEY_ID"
  {
    hide E.NormalizeEnvVarField;
    assert "AWS" + "_" + "ACCESS" + "_" + "KEY" + "_" + "ID" == "AWS_ACCESS_KEY_ID";
    FourWords("aws_access_key_id", "AWS_ACCESS_KEY_ID", "AWS", "ACCESS", "KEY", "ID");
  }

  lemma SecretAccessKeyUpper()
    ensures E.ToUpper("aws_secret_access_key") == "AWS_SECRET_ACCESS_KEY"
  {
  }

  lemma SecretAccessKeyField()
    ensures E.NormalizeEnvVarField("aws_secret_access_key") == "AWS_SECRET_ACCESS_KEY"
  {
    hide E.NormalizeEnvVarField, E.ToUpper;
    SecretAccessKeyUpper();
    assert "AWS" + "_" + "SECRET" + "_" + "ACCESS" + "_" + "KEY" == "AWS_SECRET_ACCESS_KEY";
    FourWords("aws_secret_access_key", "AWS_SECRET_ACCESS_KEY", "AWS", "SECRET", "ACCESS", "KEY");
  }

  lemma SessionTokenField()
    ensures E.NormalizeEnvVarField("aws_session_token") == "AWS_SESSION_TOKEN"
  {
    hide E.NormalizeEnvVarField;
    assert "AWS" + "_" + "SESSION" + "_" + "TOKEN" == "AWS_SESSION_TOKEN";
    ThreeWords("aws_session_token", "AWS_SESSION_TOKEN", "AWS", "SESSION", "TOKEN");
  }

  lemma FourWords(key: string, field: string, a: string, b: string, c: string, d: string)
    requires E.IsRun(a) && E.IsRun(b) && E.IsRun(c) && E.IsRun(d) && !('0' <= a[0] <= '9')
    requires E.ToUpper(key) == field == a + "_" + b + "_" + c + "_" + d
    ensures E.NormalizeEnvVarField(key) == field
  {
    hide E.ToUpper, E.NormalizeEnvVarField, E.Join, E.IsEnvVarAlphaNum;
    JoinFour(a, b, c, d);
    FieldOfKey(key, [a, b, c, d]);
  }

  lemma ThreeWords(key: string, field: string, a: string, b: string, c: string)
    requires E.IsRun(a) && E.IsRun(b) && E.IsRun(c) && !('0' <= a[0] <= '9')
    requires E.ToUpper(key) == field == a + "_" + b + "_" + c
    ensures E.NormalizeEnvVarField(key) == field
  {
    hide E.ToUpper, E.NormalizeEnvVarField, E.Join, E.IsEnvVarAlphaNum;
    JoinFour(a, b, c, "");
    FieldOfKey(key, [a, b, c]);
  }

  lemma JoinFour(a: string, b: string, c: string, d: string)
    ensures E.Join([a, b, c]) == a + "_" + b + "_" + c
    ensures E.Join([a, b, c, d]) == a + "_" + b + "_" + c + "_" + d
  {
    assert [a, b][..1] == [a];
    assert E.Join([a, b]) == a + "_" + b;
    assert [a, b, c][..2] == [a, b];
    assert E.Join([a, b, c]) == a + "_" + b + "_" + c;
    assert [a, b, c, d][..3] == [a, b, c];
  }

  lemma PlaceholderText(id: string, field: string)
    ensures P.EnvVarRef(id, field) == "${env.OGX_" + E.NormalizeEnvVarField(id) + "_" + field + "}"
  {
    hide E.NormalizeEnvVarField;
    assert "${env." + "OGX" + "_" == "${env.OGX_";
  }

  lemma TypedName(p: Provider, key: string, ref: SecretKeyRef)
    requires !p.Custom? && DeclaredSecret(p, key) == Some(ref)
    ensures key in P.TypedConfig(p)
    ensures P.TypedConfig(p)[key] == Y.Str(P.EnvVarRef(DeriveID(p), E.NormalizeEnvVarField(key)))
  {
    hide DeriveID, E.NormalizeEnvVarField, P.EnvVarRef;
    TypedFields();
    if p.Bedrock? || p.S3? {
      AccessKeyIDField();
      SecretAccessKeyField();
      SessionTokenField();
    }
  }

  /** The name of a secret of any provider, typed or custom, is made of its ID and its config key in
      normal form. */
  lemma EmittedName(p: Provider, key: string, ref: SecretKeyRef)
    requires P.Expand(p).Ok? && DeclaredSecret(p, key) == Some(ref)
    ensures var cp := P.Expand(p).value;
            && key in cp.config
            && cp.config[key] == Y.Str("${env.OGX_" + E.NormalizeEnvVarField(cp.providerID) + "_" + E.NormalizeEnvVarField(key) + "}")
  {
    hide DeriveID, E.NormalizeEnvVarField, P.EnvVarRef, P.TypedConfig, P.TypeOf;
    PlaceholderText(DeriveID(p), E.NormalizeEnvVarField(key));
    if !p.Custom? {
      TypedName(p, key, ref);
    }
  }

  // ---------------------------------------------------------------------------
  // The whole spec.
  // ---------------------------------------------------------------------------

  /** A spec that the reconciler goes on to deploy. */
  ghost predicate Accepted(spec: Sec.ServerSpec) {
    Sec.ValidSecretRefs(spec) && P.ExpandProviders(spec.providers).Ok?
  }

  /** What a caller can look at to know: no two references share a name and mean different keys, and
      no custom provider has settings that clash or are no object. */
  lemma AcceptedExactly(spec: Sec.ServerSpec)
    requires spec.providers.Some?
    ensures Accepted(spec) <==>
      && Sec.NamesAgree(Sec.RawSecretRefs(spec))
      && forall api, p :: Declares(spec.providers.value, api, p) ==> P.CanExpand(p)
  {
    hide Declares, P.ExpandProviders, P.CanExpand, Sec.RawSecretRefs, Sec.NamesValid, Sec.NamesAgree;
    Sec.NamesAreAlwaysValid(spec);
    P.ExpansionSucceedsExactly(spec.providers.value);
  }

  /** Every secret declared on a provider is what the emitted reference stands for, once and only. */
  lemma ProviderSecretsArrive(spec: Sec.ServerSpec, api: Api, p: Provider, key: string, ref: SecretKeyRef)
    requires Accepted(spec) && spec.providers.Some?
    requires Declares(spec.providers.value, api, p) && DeclaredSecret(p, key) == Some(ref)
    ensures P.EntryOf(spec.providers.value, api, p)
    ensures var entry := P.Expand(p).value;
            && entry.providerID == DeriveID(p)
            && key in entry.config
            && StandsFor(spec, entry.config[key]) == [ref]
  {
    hide Declares, DeclaredSecret, P.ExpandProviders, Sec.SecretsOf, Sec.RawSecretRefs, Sec.CollectSecretRefs;
    hide P.Placeholder, Sec.ValidSecretRefs, ReferencedName, Sec.Named, DeriveID, P.TypedConfig, P.ExpandCustom;
    P.ExpansionIsComplete(spec.providers.value, api);
    P.ExpandedID(p);
    Agreement(p, key, ref);
    var e :| e in Sec.SecretsOf(p) && e.ref == ref && P.Expand(p).value.config[key] == Y.Str(P.Placeholder(e.name));
    PlaceholderIsRead(e.name);
    Sec.DeclaredIsCollected(spec, api, p, e);
    Sec.CollectedOnce(spec, e);
  }

  /** Every declared provider has an entry of its type and ID under its API, a custom one with all its
      settings, and every entry is that of a declared provider. */
  lemma DeclaredProvidersArrive(spec: Sec.ServerSpec, api: Api)
    requires Accepted(spec) && spec.providers.Some?
    ensures forall p :: Declares(spec.providers.value, api, p) ==>
              && api in P.ExpandProviders(spec.providers).value
              && exists cp :: cp in P.ExpandProviders(spec.providers).value[api] && P.IsEntryFor(cp, p)
    ensures api in P.ExpandProviders(spec.providers).value ==>
              forall cp :: cp in P.ExpandProviders(spec.providers).value[api] ==>
                exists p :: Declares(spec.providers.value, api, p) && P.IsEntryFor(cp, p)
  {
    hide Declares, P.Expand, P.RunExpanders, P.IsEntryFor, Sec.ValidSecretRefs;
    P.ExpansionIsComplete(spec.providers.value, api);
    forall p | P.Expand(p).Ok? ensures P.IsEntryFor(P.Expand(p).value, p) {
      P.ExpandedEntry(p);
    }
  }

  /** No entry dangles: what the expansion emits is a custom provider's own setting, or stands for
      the Secret key its provider declares. */
  lemma EmittedReferencesResolve(spec: Sec.ServerSpec, api: Api, entry: P.ConfigProvider, key: string)
    requires Accepted(spec) && api in P.ExpandProviders(spec.providers).value
    requires entry in P.ExpandProviders(spec.providers).value[api] && key in entry.config
    ensures exists p :: && Declares(spec.providers.value, api, p) && P.Expand(p) == Ok(entry)
                        && (|| P.HasSetting(p, key)
                            || (DeclaredSecret(p, key).Some?
                                && StandsFor(spec, entry.config[key]) == [DeclaredSecret(p, key).value]))
  {
    hide Declares, DeclaredSecret, P.Expand, P.RunExpanders, Sec.ValidSecretRefs, StandsFor;
    P.ExpansionIsComplete(spec.providers.value, api);
    var p :| Declares(spec.providers.value, api, p) && P.Expand(p) == Ok(entry);
    EntriesAreDeclared(p, key);
    if DeclaredSecret(p, key).Some? {
      ProviderSecretsArrive(spec, api, p, key, DeclaredSecret(p, key).value);
    }
  }

  ghost predicate DeclaredByProvider(s: ProvidersSpec, ref: SecretKeyRef) {
    exists api, p, key :: Declares(s, api, p) && DeclaredSecret(p, key) == Some(ref)
  }

  lemma WalkedSecretIsDeclared(s: ProvidersSpec, e: Sec.EnvVar)
    requires e in Sec.SliceSecrets(Sec.WalkedProviders(s))
    ensures DeclaredByProvider(s, e.ref)
  {
    hide Declares, DeclaredSecret, Sec.SecretsOf, Sec.SliceSecrets, Sec.WalkedProviders, Sec.Walked;
    var p := Sec.SliceOrigin(Sec.WalkedProviders(s), e);
    Sec.WalkedSomewhere(s, p);
    var api :| p in Sec.Walked(s, api);
    Sec.WalkedIsDeclared(s, api, p);
    Sec.CollectedIsDeclared(p, e);
  }

  /** Nothing is exposed that the spec does not declare on a provider or a storage backend. */
  lemma OnlyDeclaredSecretsAreExposed(spec: Sec.ServerSpec, e: Sec.EnvVar)
    requires e in Sec.CollectSecretRefs(spec)
    ensures || (spec.providers.Some? && DeclaredByProvider(spec.providers.value, e.ref))
            || (spec.storage.Some? && spec.storage.value.kv.Some? && spec.storage.value.kv.value.password == Some(e.ref))
            || (spec.storage.Some? && spec.storage.value.sql.Some?
                && spec.storage.value.sql.value.connectionString == Some(e.ref))
  {
    hide DeclaredByProvider, Sec.CollectSecretRefs, Sec.SliceSecrets, Sec.WalkedProviders;
    assert e in Sec.RawSecretRefs(spec) by {
      Sec.CollectedSortedByName(spec);
    }
    if spec.providers.Some? && e in Sec.SliceSecrets(Sec.WalkedProviders(spec.providers.value)) {
      WalkedSecretIsDeclared(spec.providers.value, e);
    }
  }

  // ---------------------------------------------------------------------------
  // Storage backends.
  // ---------------------------------------------------------------------------

  lemma StorageNamesAgree()
    ensures "${env." + E.ENV_PREFIX + "_STORAGE_KV_PASSWORD}" == P.Placeholder(Sec.KV_PASSWORD_ENV)
    ensures "${env." + E.ENV_PREFIX + "_STORAGE_SQL_CONNECTION_STRING}" == P.Placeholder(Sec.SQL_CONNECTION_ENV)
  {
  }

  /** The password of a redis backend arrives. */
  lemma RedisPasswordArrives(spec: Sec.ServerSpec, kv: Sec.KVStorage, ref: SecretKeyRef)
    requires Sec.ValidSecretRefs(spec) && spec.storage.Some? && spec.storage.value.kv == Some(kv)
    requires kv.kind == "redis" && kv.password == Some(ref)
    ensures var backend := St.Backends(spec.storage.value)["kv_default"];
            backend.Obj? && "password" in backend.fields && StandsFor(spec, backend.fields["password"]) == [ref]
  {
    hide Sec.ValidSecretRefs, Sec.CollectSecretRefs, Sec.Named, ReferencedName, P.Placeholder;
    StorageNamesAgree();
    PlaceholderIsRead(Sec.KV_PASSWORD_ENV);
    Sec.CollectedOnce(spec, Sec.EnvVar(Sec.KV_PASSWORD_ENV, ref));
  }

  /** The connection string of a postgres backend arrives. */
  lemma PostgresConnectionArrives(spec: Sec.ServerSpec, sql: Sec.SQLStorage)
    requires Sec.ValidSecretRefs(spec) && spec.storage.Some? && spec.storage.value.sql == Some(sql)
    requires sql.kind == "postgres" && sql.connectionString.Some?
    ensures var backend := St.Backends(spec.storage.value)["sql_default"];
            backend.Obj? && "connection_string" in backend.fields
            && StandsFor(spec, backend.fields["connection_string"]) == [sql.connectionString.value]
  {
    hide Sec.ValidSecretRefs, Sec.CollectSecretRefs, Sec.Named, ReferencedName, P.Placeholder;
    StorageNamesAgree();
    PlaceholderIsRead(Sec.SQL_CONNECTION_ENV);
    Sec.CollectedOnce(spec, Sec.EnvVar(Sec.SQL_CONNECTION_ENV, sql.connectionString.value));
  }

  /** The expander alone: given a postgres backend without one, which admission refuses, it would emit
      a reference that dangles, unless some provider happens to own a variable of that name. */
  lemma PostgresReferenceDangles(spec: Sec.ServerSpec, sql: Sec.SQLStorage)
    requires Sec.ValidSecretRefs(spec) && spec.storage.Some? && spec.storage.value.sql == Some(sql)
    requires sql.kind == "postgres" && sql.connectionString.None?
    ensures var backend := St.Backends(spec.storage.value)["sql_default"];
            backend.Obj? && "connection_string" in backend.fields
            && (StandsFor(spec, backend.fields["connection_string"]) == [] <==>
                forall e :: e in Sec.RawSecretRefs(spec) ==> e.name != Sec.SQL_CONNECTION_ENV)
  {
    hide Sec.ValidSecretRefs, Sec.CollectSecretRefs, Sec.RawSecretRefs, Sec.Named, ReferencedName, P.Placeholder;
    StorageNamesAgree();
    PlaceholderIsRead(Sec.SQL_CONNECTION_ENV);
    if e :| e in Sec.RawSecretRefs(spec) && e.name == Sec.SQL_CONNECTION_ENV {
      Sec.CollectedOnce(spec, e);
    } else {
      Sec.CollectedSortedByName(spec);
      Sec.NamedNever(Sec.CollectSecretRefs(spec), Sec.SQL_CONNECTION_ENV);
    }
  }
}
