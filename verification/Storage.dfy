/** The storage section of config.yaml, and its rewrite for Praxis mode. */
module Storage {
  import opened Prelude
  import E = EnvNames
  import Sec = Secrets
  import Str = Strings
  import opened Yaml

  type Tree = map<string, Value>

  // ---------------------------------------------------------------------------
  // The section generated from the spec.
  // ---------------------------------------------------------------------------

  function DefaultKVBackend(): Value {
    Obj(map["type" := Str("kv_sqlite"), "db_path" := Str("${env.SQLITE_STORE_DIR:=/.ogx}/kvstore.db")])
  }

  function DefaultSQLBackend(): Value {
    Obj(map["type" := Str("sql_sqlite"), "db_path" := Str("${env.SQLITE_STORE_DIR:=/.ogx}/sqlstore.db")])
  }

  function ExpandKVBackend(kv: Sec.KVStorage): Value {
    if kv.kind == "redis" then
      var cfg: Tree := map["type" := Str("kv_redis"), "host" := Str(kv.endpoint)];
      Obj(if kv.password.Some?
          then cfg["password" := Str("${env." + E.ENV_PREFIX + "_STORAGE_KV_PASSWORD}")]
          else cfg)
    else DefaultKVBackend()
  }

  function ExpandSQLBackend(sql: Sec.SQLStorage): Value {
    if sql.kind == "postgres" then
      Obj(map["type" := Str("sql_postgres"),
              "connection_string" := Str("${env." + E.ENV_PREFIX + "_STORAGE_SQL_CONNECTION_STRING}")])
    else DefaultSQLBackend()
  }

  function KVStore(namespace: string): Value {
    Obj(map["backend" := Str("kv_default"), "namespace" := Str(namespace)])
  }

  function SQLStore(table: string): Value {
    Obj(map["backend" := Str("sql_default"), "table_name" := Str(table)])
  }

  function DefaultStores(): Tree {
    map["metadata" := KVStore("registry"),
        "inference" := SQLStore("inference_store"),
        "conversations" := SQLStore("openai_conversations"),
        "prompts" := KVStore("prompts")]
  }

  function Backends(storage: Sec.StateStorage): Tree {
    map["kv_default" := if storage.kv.Some? then ExpandKVBackend(storage.kv.value) else DefaultKVBackend(),
        "sql_default" := if storage.sql.Some? then ExpandSQLBackend(storage.sql.value) else DefaultSQLBackend()]
  }

  /** ApplyStorage: nothing when the spec has no storage section. */
  function ApplyStorage(storage: Option<Sec.StateStorage>): Option<Tree> {
    if storage.None? then None
    else Some(map["backends" := Obj(Backends(storage.value)), "stores" := Obj(DefaultStores())])
  }

  /** The user's storage replaces the base's as a whole. */
  function MergeStorage(base: Option<Tree>, user: Option<Tree>): Option<Tree> {
    if user.None? then base else if base.None? then user else user
  }

  // ---------------------------------------------------------------------------
  // Reading a storage tree.
  // ---------------------------------------------------------------------------

  /** What lies under a path of keys. */
  function Lookup(v: Value, path: seq<string>): Option<Value>
    decreases |path|
  {
    if path == [] then Some(v)
    else if v.Obj? && path[0] in v.fields then Lookup(v.fields[path[0]], path[1..])
    else None
  }

  predicate HasType(backend: Value, prefix: string) {
    && backend.Obj?
    && "type" in backend.fields
    && backend.fields["type"].Str?
    && prefix <= backend.fields["type"].s
  }

  predicate IsSQLBackend(backend: Value) {
    HasType(backend, "sql_")
  }

  function BackendsOf(storage: Tree): Tree {
    if "backends" in storage && storage["backends"].Obj? then storage["backends"].fields else map[]
  }

  function SQLBackends(storage: Tree): set<string> {
    set name | name in BackendsOf(storage) && IsSQLBackend(BackendsOf(storage)[name])
  }

  /** storage.stores.vector_stores holds something. */
  predicate DeclaresVectorStores(storage: Tree) {
    && "stores" in storage
    && storage["stores"].Obj?
    && "vector_stores" in storage["stores"].fields
    && storage["stores"].fields["vector_stores"] != Null
  }

  // ---------------------------------------------------------------------------
  // The Praxis rewrite.
  // ---------------------------------------------------------------------------

  const PREFERRED := "sql_default"
  const VECTOR_STORE_TABLE := "openai_vector_stores"

  /** The preferred SQL backend, else the least one by name; empty when there is none. */
  ghost function SqlBackendName(storage: Tree): string {
    if PREFERRED in SQLBackends(storage) then PREFERRED
    else if SQLBackends(storage) == {} then ""
    else Str.Sorted(SQLBackends(storage))[0]
  }

  function VectorStoreEntry(backend: string): Value {
    Obj(map["table_name" := Str(VECTOR_STORE_TABLE), "backend" := Str(backend)])
  }

  function StoresOf(storage: Tree): Tree {
    if "stores" in storage && storage["stores"].Obj? then storage["stores"].fields else map[]
  }

  predicate StoresAreMalformed(storage: Tree) {
    "stores" in storage && !storage["stores"].Obj?
  }

  ghost predicate NeedsVectorStores(storage: Tree, hasVectorIOProvider: bool) {
    && hasVectorIOProvider
    && SqlBackendName(storage) != ""
    && !StoresAreMalformed(storage)
    && !DeclaresVectorStores(storage)
  }

  ghost function WithVectorStores(storage: Tree, hasVectorIOProvider: bool): Tree {
    if !NeedsVectorStores(storage, hasVectorIOProvider) then storage
    else storage["stores" := Obj(StoresOf(storage)["vector_stores" := VectorStoreEntry(SqlBackendName(storage))])]
  }

  /** The candidates are collected in any order and sorted. */
  method SqlBackendNameOf(storage: Tree) returns (name: string)
    ensures name == SqlBackendName(storage)
  {
    hide Str.Sorted;
    if "backends" !in storage || !storage["backends"].Obj? {
      return "";
    }
    var backends := storage["backends"].fields;
    if PREFERRED in backends && IsSQLBackend(backends[PREFERRED]) {
      return PREFERRED;
    }
    var candidates: set<string> := {};
    var rest := backends.Keys;
    while rest != {}
      invariant rest <= backends.Keys
      invariant forall n :: n in candidates <==> n in backends.Keys - rest && IsSQLBackend(backends[n])
      decreases |rest|
    {
      var n :| n in rest;
      if IsSQLBackend(backends[n]) {
        candidates := candidates + {n};
      }
      rest := rest - {n};
    }
    assert candidates == SQLBackends(storage);
    if |candidates| == 0 {
      return "";
    }
    var sorted := Str.SortedKeys(candidates);
    var some :| some in candidates;
    assert some in sorted;
    name := sorted[0];
  }

  /** The storage section installed in the config, rewritten in place. */
  class StorageSection {
    var root: Tree

    constructor (storage: Tree)
      ensures root == storage
    {
      root := storage;
    }

    method ApplyPraxisVectorStoreMetadata(hasVectorIOProvider: bool)
      modifies this
      ensures root == WithVectorStores(old(root), hasVectorIOProvider)
    {
      hide SqlBackendName;
      if !hasVectorIOProvider {
        return;
      }
      var backend := SqlBackendNameOf(root);
      if backend == "" {
        return;
      }
      var stores: Tree := map[];
      if "stores" in root {
        if !root["stores"].Obj? {
          return;
        }
        stores := root["stores"].fields;
      }
      if "vector_stores" in stores && stores["vector_stores"] != Null {
        return;
      }
      root := root["stores" := Obj(stores["vector_stores" := VectorStoreEntry(backend)])];
    }
  }

  // ---------------------------------------------------------------------------
  // Properties of the rewrite.
  // ---------------------------------------------------------------------------

  /** When a backend is found: the preferred one is SQL, or some other is and none has the empty
      name, which sorts first and reads as "none". */
  lemma BackendIsFound(storage: Tree)
    ensures SqlBackendName(storage) != "" <==>
      PREFERRED in SQLBackends(storage) || (SQLBackends(storage) != {} && "" !in SQLBackends(storage))
    ensures SqlBackendName(storage) != "" ==> SqlBackendName(storage) in SQLBackends(storage)
    ensures SqlBackendName(storage) !in {"", PREFERRED} ==>
      forall n :: n in SQLBackends(storage) ==> n == SqlBackendName(storage) || Str.Less(SqlBackendName(storage), n)
  {
    hide SQLBackends, Str.Sorted;
    var names := SQLBackends(storage);
    if PREFERRED !in names && names != {} {
      var sorted := Str.Sorted(names);
      var some :| some in names;
      assert some in sorted && sorted[0] in sorted;
      forall n | n in names ensures n == sorted[0] || Str.Less(sorted[0], n) {
        Str.FirstIsLeast(sorted, n);
      }
      if "" in names {
        Str.FirstIsLeast(sorted, "");
      }
    }
  }

  /** An SQL backend with the empty name reads as none and hides every other but the preferred one. */
  lemma EmptyNameHidesBackends(storage: Tree, hasVectorIOProvider: bool)
    requires "" in SQLBackends(storage) && PREFERRED !in SQLBackends(storage)
    ensures SqlBackendName(storage) == "" && WithVectorStores(storage, hasVectorIOProvider) == storage
  {
    hide SQLBackends, SqlBackendName;
    BackendIsFound(storage);
  }

  lemma LookupInObject(v: Value, key: string, rest: seq<string>)
    ensures Lookup(v, [key]) == if v.Obj? && key in v.fields then Some(v.fields[key]) else None
    ensures Lookup(v, [key] + rest) == if v.Obj? && key in v.fields then Lookup(v.fields[key], rest) else None
  {
    assert ([key] + rest)[1..] == rest;
    assert [key][1..] == [];
  }

  /** A backend is SQL when its type begins with "sql_". */
  lemma SQLBackendsExactlyByType(storage: Tree, name: string)
    ensures name in SQLBackends(storage) <==> exists t :: Lookup(Obj(storage), ["backends", name, "type"]) == Some(Str("sql_" + t))
  {
    hide Lookup;
    LookupInObject(Obj(storage), "backends", [name, "type"]);
    assert ["backends"] + [name, "type"] == ["backends", name, "type"];
    if "backends" in storage {
      LookupInObject(storage["backends"], name, ["type"]);
      assert [name] + ["type"] == [name, "type"];
      if name in BackendsOf(storage) {
        LookupInObject(BackendsOf(storage)[name], "type", []);
        if name in SQLBackends(storage) {
          var text := BackendsOf(storage)[name].fields["type"].s;
          assert text == "sql_" + text[4..];
        }
      }
    }
  }

  /** A store is declared when it is not null, and the stores are malformed when they are no object. */
  lemma StoresAreReadByPaths(storage: Tree)
    ensures DeclaresVectorStores(storage) <==>
      exists v :: Lookup(Obj(storage), ["stores", "vector_stores"]) == Some(v) && v != Null
    ensures StoresAreMalformed(storage) <==> exists v :: Lookup(Obj(storage), ["stores"]) == Some(v) && !v.Obj?
  {
    hide Lookup;
    LookupInObject(Obj(storage), "stores", ["vector_stores"]);
    assert ["stores"] + ["vector_stores"] == ["stores", "vector_stores"];
    if "stores" in storage {
      LookupInObject(storage["stores"], "vector_stores", []);
    }
  }

  /** After the rewrite the vector store is declared exactly when it was before, or there is a
      provider that needs it, an SQL backend to hold it, and a place to declare it. */
  lemma VectorStoresAfterRewrite(storage: Tree, hasVectorIOProvider: bool)
    ensures DeclaresVectorStores(WithVectorStores(storage, hasVectorIOProvider)) <==>
      || DeclaresVectorStores(storage)
      || (hasVectorIOProvider && !StoresAreMalformed(storage)
          && (PREFERRED in SQLBackends(storage) || (SQLBackends(storage) != {} && "" !in SQLBackends(storage))))
  {
    hide SqlBackendName, SQLBackends;
    BackendIsFound(storage);
  }

  /** A null stores section counts as malformed: it blocks the declaration, which the same tree
      without the section would get whenever there is a backend for it. */
  lemma NullStoresBlockTheRewrite(storage: Tree)
    requires "stores" in storage && storage["stores"] == Null
    ensures WithVectorStores(storage, true) == storage && !DeclaresVectorStores(storage)
    ensures DeclaresVectorStores(WithVectorStores(storage - {"stores"}, true)) <==> SqlBackendName(storage) != ""
  {
    var without := storage - {"stores"};
    assert BackendsOf(without) == BackendsOf(storage);
    assert SQLBackends(without) == SQLBackends(storage);
    hide SQLBackends;
  }

  /** An added entry holds the operator's table in an SQL backend of the same tree. */
  lemma AddedEntryNamesSQLBackend(storage: Tree, hasVectorIOProvider: bool)
    requires !DeclaresVectorStores(storage) && DeclaresVectorStores(WithVectorStores(storage, hasVectorIOProvider))
    ensures exists b :: b in SQLBackends(storage) && b in SQLBackends(WithVectorStores(storage, hasVectorIOProvider))
                        && Lookup(Obj(WithVectorStores(storage, hasVectorIOProvider)), ["stores", "vector_stores"])
                           == Some(Obj(map["backend" := Str(b), "table_name" := Str("openai_vector_stores")]))
  {
    hide SqlBackendName;
    BackendIsFound(storage);
    var after, b := WithVectorStores(storage, hasVectorIOProvider), SqlBackendName(storage);
    assert BackendsOf(after) == BackendsOf(storage);
    assert ["stores", "vector_stores"][1..] == ["vector_stores"];
    assert ["vector_stores"][1..] == [];
    assert b in SQLBackends(after);
    assert VectorStoreEntry(b).fields == map["backend" := Str(b), "table_name" := Str("openai_vector_stores")];
  }

  /** Every path outside storage.stores.vector_stores keeps what it held. */
  lemma RestIsUnchanged(storage: Tree, hasVectorIOProvider: bool, path: seq<string>)
    requires !(path <= ["stores", "vector_stores"]) && !(["stores", "vector_stores"] <= path)
    ensures Lookup(Obj(WithVectorStores(storage, hasVectorIOProvider)), path) == Lookup(Obj(storage), path)
  {
    hide SqlBackendName;
    var after := WithVectorStores(storage, hasVectorIOProvider);
    if after != storage && path[0] == "stores" {
      var rest := path[1..];
      assert path == ["stores"] + rest;
      assert Lookup(Obj(after), path) == Lookup(after["stores"], rest);
      assert |path| >= 2 ==> path[..2] == [path[0], path[1]];
      if "stores" in storage {
        assert Lookup(Obj(storage), path) == Lookup(storage["stores"], rest);
      }
    }
  }

  /** The tree changes exactly when the rewrite declares a store that was not declared, so one that
      declares it is not touched. */
  lemma ChangedOnlyToDeclare(storage: Tree, hasVectorIOProvider: bool)
    ensures var after := WithVectorStores(storage, hasVectorIOProvider);
            after != storage <==> !DeclaresVectorStores(storage) && DeclaresVectorStores(after)
  {
    hide SqlBackendName;
    var after := WithVectorStores(storage, hasVectorIOProvider);
    if NeedsVectorStores(storage, hasVectorIOProvider) {
      assert DeclaresVectorStores(after);
    }
  }

  lemma RewriteIsIdempotent(storage: Tree, hasVectorIOProvider: bool)
    ensures WithVectorStores(WithVectorStores(storage, hasVectorIOProvider), hasVectorIOProvider)
            == WithVectorStores(storage, hasVectorIOProvider)
  {
    hide SqlBackendName;
    var after := WithVectorStores(storage, hasVectorIOProvider);
    if after != storage {
      assert DeclaresVectorStores(after);
    }
  }

  // ---------------------------------------------------------------------------
  // Properties of the generated section.
  // ---------------------------------------------------------------------------

  /** The store's backend exists and is of the kind the store needs: key-value for a namespace,
      SQL for a table. */
  predicate StoreIsBacked(storage: Tree, store: Value) {
    && store.Obj?
    && "backend" in store.fields
    && store.fields["backend"].Str?
    && store.fields["backend"].s in BackendsOf(storage)
    && ("namespace" in store.fields ==> HasType(BackendsOf(storage)[store.fields["backend"].s], "kv_"))
    && ("table_name" in store.fields ==> HasType(BackendsOf(storage)[store.fields["backend"].s], "sql_"))
    && ("namespace" in store.fields || "table_name" in store.fields)
  }

  lemma PasswordText()
    ensures "${env." + E.ENV_PREFIX + "_STORAGE_KV_PASSWORD}" == "${env.OGX_STORAGE_KV_PASSWORD}"
  {
    assert "${env." + "OGX" == "${env.OGX";
  }

  lemma ConnectionText()
    ensures "${env." + E.ENV_PREFIX + "_STORAGE_SQL_CONNECTION_STRING}" == "${env.OGX_STORAGE_SQL_CONNECTION_STRING}"
  {
    assert "${env." + "OGX" == "${env.OGX";
  }

  /** A redis backend is what the spec describes, with its password from the environment if it has one,
      and nothing else; for any other kind, or none, the backend is the built-in file. */
  lemma KVBackendExactly(storage: Sec.StateStorage)
    ensures "kv_default" in Backends(storage)
    ensures Backends(storage)["kv_default"] ==
      if storage.kv.Some? && storage.kv.value.kind == "redis" then
        var host := map["type" := Str("kv_redis"), "host" := Str(storage.kv.value.endpoint)];
        Obj(if storage.kv.value.password.Some? then host["password" := Str("${env.OGX_STORAGE_KV_PASSWORD}")] else host)
      else
        Obj(map["type" := Str("kv_sqlite"), "db_path" := Str("${env.SQLITE_STORE_DIR:=/.ogx}/kvstore.db")])
  {
    PasswordText();
  }

  /** And so is a postgres one. */
  lemma SQLBackendExactly(storage: Sec.StateStorage)
    ensures "sql_default" in Backends(storage)
    ensures Backends(storage)["sql_default"] ==
      if storage.sql.Some? && storage.sql.value.kind == "postgres" then
        Obj(map["type" := Str("sql_postgres"), "connection_string" := Str("${env.OGX_STORAGE_SQL_CONNECTION_STRING}")])
      else
        Obj(map["type" := Str("sql_sqlite"), "db_path" := Str("${env.SQLITE_STORE_DIR:=/.ogx}/sqlstore.db")])
  {
    ConnectionText();
  }

  predicate HasField(v: Value, key: string, text: string) {
    v.Obj? && key in v.fields && v.fields[key] == Str(text)
  }

  /** The four default stores, each in a namespace or a table of its own. */
  lemma DefaultStoresExactly()
    ensures DefaultStores().Keys == {"metadata", "inference", "conversations", "prompts"}
    ensures HasField(DefaultStores()["metadata"], "namespace", "registry")
    ensures HasField(DefaultStores()["prompts"], "namespace", "prompts")
    ensures HasField(DefaultStores()["inference"], "table_name", "inference_store")
    ensures HasField(DefaultStores()["conversations"], "table_name", "openai_conversations")
  {
  }

  lemma GeneratedBackendKinds(storage: Sec.StateStorage)
    ensures HasType(Backends(storage)["kv_default"], "kv_")
    ensures HasType(Backends(storage)["sql_default"], "sql_")
  {
  }

  lemma GeneratedStoresAreBacked(storage: Sec.StateStorage, name: string)
    requires name in StoresOf(ApplyStorage(Some(storage)).value)
    ensures StoreIsBacked(ApplyStorage(Some(storage)).value, StoresOf(ApplyStorage(Some(storage)).value)[name])
  {
    GeneratedBackendKinds(storage);
    hide ExpandKVBackend, ExpandSQLBackend, DefaultKVBackend, DefaultSQLBackend;
  }

  lemma GeneratedSectionLacksVectorStores(storage: Sec.StateStorage)
    ensures var section := ApplyStorage(Some(storage)).value;
            && SqlBackendName(section) == "sql_default"
            && StoresOf(section) == DefaultStores()
            && NeedsVectorStores(section, true)
  {
    GeneratedBackendKinds(storage);
    hide ExpandKVBackend, ExpandSQLBackend, DefaultKVBackend, DefaultSQLBackend;
    assert "sql_default" in SQLBackends(ApplyStorage(Some(storage)).value);
  }

  /** On a generated section the rewrite adds the vector store to the others, on the SQL backend. */
  lemma GeneratedSectionTakesVectorStores(storage: Sec.StateStorage)
    ensures var after := WithVectorStores(ApplyStorage(Some(storage)).value, true);
            && BackendsOf(after) == Backends(storage)
            && StoresOf(after) == DefaultStores()["vector_stores" := VectorStoreEntry("sql_default")]
  {
    GeneratedSectionLacksVectorStores(storage);
    hide SqlBackendName, NeedsVectorStores, ExpandKVBackend, ExpandSQLBackend, DefaultKVBackend, DefaultSQLBackend;
    hide DefaultStores, VectorStoreEntry;
  }

  /** And afterwards every store is still backed. */
  lemma RewrittenStoresAreBacked(storage: Sec.StateStorage, name: string)
    requires name in StoresOf(WithVectorStores(ApplyStorage(Some(storage)).value, true))
    ensures var after := WithVectorStores(ApplyStorage(Some(storage)).value, true);
            StoreIsBacked(after, StoresOf(after)[name])
  {
    GeneratedSectionTakesVectorStores(storage);
    hide WithVectorStores, DefaultStores;
    if name == "vector_stores" {
      GeneratedBackendKinds(storage);
      hide ExpandKVBackend, ExpandSQLBackend, DefaultKVBackend, DefaultSQLBackend, BackendsOf, StoresOf;
    } else {
      GeneratedStoresAreBacked(storage, name);
      hide Backends, VectorStoreEntry;
    }
  }
}
