/** The text that identifies a migration attempt before it is hashed. */
module AttemptKey {
  import opened Prelude
  import Q = GoQuote

  type Bytes = seq<bv8>

  // ---------------------------------------------------------------------------
  // What the text is built from.
  // ---------------------------------------------------------------------------

  /** One key of a Secret or ConfigMap with the fingerprint of what it holds. */
  datatype KeyPrint = KeyPrint(name: string, key: string, fingerprint: string)

  /** All inputs of an attempt: no config means the one in the image; an empty fallback is none. */
  datatype Attempt = Attempt(
    source: Option<KeyPrint>,
    target: Option<KeyPrint>,
    config: Option<KeyPrint>,
    image: string,
    fallbackTenant: string,
    fallbackOwner: string)

  const CONFIG_PATH := "/etc/ogx/config.yaml"

  function KeyText(k: KeyPrint): string {
    k.name + ['/'] + k.key + ['@'] + k.fingerprint
  }

  function OptionalKeyText(k: Option<KeyPrint>): string {
    if k.None? then "" else KeyText(k.value)
  }

  function ConfigText(k: Option<KeyPrint>): string {
    if k.None? then CONFIG_PATH else KeyText(k.value)
  }

  function FallbackText(field: string, value: string, isPrint: char -> bool): string {
    if value == "" then "" else [';'] + (field + Q.Quote(value, isPrint))
  }

  const SOURCE := "src="
  const TARGET := "dst="
  const CONFIG := "cfg="
  const IMAGE := "image="
  const TENANT := "fallbackTenant="
  const OWNER := "fallbackOwnerSubject="

  function Text(a: Attempt, isPrint: char -> bool): string {
    SOURCE + OptionalKeyText(a.source)
    + ([';'] + (TARGET + OptionalKeyText(a.target)
    + ([';'] + (CONFIG + ConfigText(a.config)
    + ([';'] + (IMAGE + a.image
    + (FallbackText(TENANT, a.fallbackTenant, isPrint) + FallbackText(OWNER, a.fallbackOwner, isPrint))))))))
  }

  // ---------------------------------------------------------------------------
  // Building it from the cluster.
  // ---------------------------------------------------------------------------

  datatype KeyRef = KeyRef(name: string, key: string)

  datatype ConfigMap = ConfigMap(binaryData: map<string, Bytes>, data: map<string, Bytes>)

  datatype Cluster = Cluster(secrets: map<string, map<string, Bytes>>, configMaps: map<string, ConfigMap>)

  datatype Inputs = Inputs(
    source: Option<KeyRef>,
    target: Option<KeyRef>,
    runtimeConfig: Option<KeyRef>,
    image: Option<string>,
    fallbackTenant: string,
    fallbackOwner: string)

  datatype Missing = NoSecret(name: string) | NoConfigMap(name: string) | NoImage

  /** A key that is not there reads as empty. */
  function SecretData(data: map<string, Bytes>, key: string): Bytes {
    if key in data then data[key] else []
  }

  function ConfigData(c: ConfigMap, key: string): Bytes {
    if key in c.binaryData then c.binaryData[key] else SecretData(c.data, key)
  }

  function SecretPrint(cluster: Cluster, ref: Option<KeyRef>, fingerprint: Bytes -> string)
    : Result<Option<KeyPrint>, Missing>
  {
    match ref
    case None => Ok(None)
    case Some(k) =>
      if k.name !in cluster.secrets then Err(NoSecret(k.name))
      else Ok(Some(KeyPrint(k.name, k.key, fingerprint(SecretData(cluster.secrets[k.name], k.key)))))
  }

  function ConfigPrint(cluster: Cluster, ref: Option<KeyRef>, fingerprint: Bytes -> string)
    : Result<Option<KeyPrint>, Missing>
  {
    match ref
    case None => Ok(None)
    case Some(k) =>
      if k.name !in cluster.configMaps then Err(NoConfigMap(k.name))
      else Ok(Some(KeyPrint(k.name, k.key, fingerprint(ConfigData(cluster.configMaps[k.name], k.key)))))
  }

  /** The attempt a cluster and a spec describe, or the first object that is missing. */
  function AttemptOf(cluster: Cluster, inputs: Inputs, fingerprint: Bytes -> string): Result<Attempt, Missing> {
    match SecretPrint(cluster, inputs.source, fingerprint)
    case Err(e) => Err(e)
    case Ok(source) =>
      match SecretPrint(cluster, inputs.target, fingerprint)
      case Err(e) => Err(e)
      case Ok(target) =>
        match ConfigPrint(cluster, inputs.runtimeConfig, fingerprint)
        case Err(e) => Err(e)
        case Ok(config) =>
          if inputs.image.None? then Err(NoImage)
          else Ok(Attempt(source, target, config, inputs.image.value, inputs.fallbackTenant, inputs.fallbackOwner))
  }

  class Builder {
    var text: string

    constructor ()
      ensures text == ""
    {
      text := "";
    }

    method Write(s: string)
      modifies this
      ensures text == old(text) + s
    {
      text := text + s;
    }

    method AppendSecretAttemptKey(cluster: Cluster, ref: KeyRef, fingerprint: Bytes -> string)
      returns (err: Option<Missing>)
      modifies this
      ensures match SecretPrint(cluster, Some(ref), fingerprint)
              case Err(e) => err == Some(e) && text == old(text)
              case Ok(k) => err == None && text == old(text) + OptionalKeyText(k)
    {
      if ref.name !in cluster.secrets {
        return Some(NoSecret(ref.name));
      }
      Write(ref.name);
      Write(['/']);
      Write(ref.key);
      Write(['@']);
      Write(fingerprint(SecretData(cluster.secrets[ref.name], ref.key)));
      err := None;
    }

    /** appendMigrationSourceAttemptKey and appendMigrationTargetAttemptKey: a spec may name no Secret. */
    method AppendOptionalAttemptKey(cluster: Cluster, ref: Option<KeyRef>, fingerprint: Bytes -> string)
      returns (err: Option<Missing>)
      modifies this
      ensures match SecretPrint(cluster, ref, fingerprint)
              case Err(e) => err == Some(e) && text == old(text)
              case Ok(k) => err == None && text == old(text) + OptionalKeyText(k)
    {
      hide KeyText;
      if ref.None? {
        assert text + "" == text;
        return None;
      }
      err := AppendSecretAttemptKey(cluster, ref.value, fingerprint);
    }

    method AppendConfigAttemptKey(cluster: Cluster, ref: Option<KeyRef>, fingerprint: Bytes -> string)
      returns (err: Option<Missing>)
      modifies this
      ensures match ConfigPrint(cluster, ref, fingerprint)
              case Err(e) => err == Some(e) && text == old(text)
              case Ok(k) => err == None && text == old(text) + ConfigText(k)
    {
      if ref.None? {
        Write(CONFIG_PATH);
        return None;
      }
      if ref.value.name !in cluster.configMaps {
        return Some(NoConfigMap(ref.value.name));
      }
      Write(ref.value.name);
      Write(['/']);
      Write(ref.value.key);
      Write(['@']);
      Write(fingerprint(ConfigData(cluster.configMaps[ref.value.name], ref.value.key)));
      err := None;
    }

    method AppendFallback(field: string, value: string, isPrint: char -> bool)
      modifies this
      ensures text == old(text) + FallbackText(field, value, isPrint)
    {
      hide Q.Quote;
      if value != "" {
        Write([';'] + field);
        Write(Q.Quote(value, isPrint));
      } else {
        assert text + "" == text;
      }
    }

    method AppendFallbackAttemptKey(tenant: string, owner: string, isPrint: char -> bool)
      modifies this
      ensures text == old(text) + (FallbackText(TENANT, tenant, isPrint) + FallbackText(OWNER, owner, isPrint))
    {
      hide FallbackText;
      AppendFallback(TENANT, tenant, isPrint);
      AppendFallback(OWNER, owner, isPrint);
    }
  }

  /** migrationAttemptKey up to the hash. */
  method MigrationAttemptText(cluster: Cluster, inputs: Inputs, fingerprint: Bytes -> string, isPrint: char -> bool)
    returns (r: Result<string, Missing>)
    ensures match AttemptOf(cluster, inputs, fingerprint)
            case Err(e) => r == Err(e)
            case Ok(a) => r == Ok(Text(a, isPrint))
  {
    hide Text, FallbackText, ConfigText, OptionalKeyText, SecretPrint, ConfigPrint;
    var b := new Builder();
    b.Write(SOURCE);
    var err := b.AppendOptionalAttemptKey(cluster, inputs.source, fingerprint);
    if err.Some? {
      return Err(err.value);
    }
    b.Write([';'] + TARGET);
    err := b.AppendOptionalAttemptKey(cluster, inputs.target, fingerprint);
    if err.Some? {
      return Err(err.value);
    }
    b.Write([';'] + CONFIG);
    err := b.AppendConfigAttemptKey(cluster, inputs.runtimeConfig, fingerprint);
    if err.Some? {
      return Err(err.value);
    }
    if inputs.image.None? {
      return Err(NoImage);
    }
    b.Write([';'] + IMAGE);
    b.Write(inputs.image.value);
    b.AppendFallbackAttemptKey(inputs.fallbackTenant, inputs.fallbackOwner, isPrint);
    BuiltLeftToRight(AttemptOf(cluster, inputs, fingerprint).value, isPrint);
    assert "" + SOURCE == SOURCE;
    r := Ok(b.text);
  }

  lemma BuiltLeftToRight(a: Attempt, isPrint: char -> bool)
    ensures SOURCE + OptionalKeyText(a.source) + ([';'] + TARGET) + OptionalKeyText(a.target)
            + ([';'] + CONFIG) + ConfigText(a.config) + ([';'] + IMAGE) + a.image
            + (FallbackText(TENANT, a.fallbackTenant, isPrint) + FallbackText(OWNER, a.fallbackOwner, isPrint))
            == Text(a, isPrint)
  {
    hide OptionalKeyText, ConfigText, FallbackText;
  }

  /** The key of an object as the text has it. */
  function Printed(k: KeyPrint): string {
    k.name + "/" + k.key + "@" + k.fingerprint
  }

  /** The text spelled out. */
  lemma TextExactly(a: Attempt, isPrint: char -> bool)
    ensures Text(a, isPrint) ==
      "src=" + (if a.source.Some? then Printed(a.source.value) else "")
      + ";dst=" + (if a.target.Some? then Printed(a.target.value) else "")
      + ";cfg=" + (if a.config.Some? then Printed(a.config.value) else "/etc/ogx/config.yaml")
      + ";image=" + a.image
      + ((if a.fallbackTenant != "" then ";fallbackTenant=" + Q.Quote(a.fallbackTenant, isPrint) else "")
         + (if a.fallbackOwner != "" then ";fallbackOwnerSubject=" + Q.Quote(a.fallbackOwner, isPrint) else ""))
  {
    hide Text, Q.Quote, Printed, OptionalKeyText, ConfigText, FallbackText;
    BuiltLeftToRight(a, isPrint);
    KeysSpelled(a.source);
    KeysSpelled(a.target);
    KeysSpelled(a.config);
    FieldsSpelled();
    FallbackSpelled(TENANT, a.fallbackTenant, isPrint);
    FallbackSpelled(OWNER, a.fallbackOwner, isPrint);
  }

  lemma FieldsSpelled()
    ensures SOURCE == "src=" && [';'] + TARGET == ";dst=" && [';'] + CONFIG == ";cfg=" && [';'] + IMAGE == ";image="
    ensures [';'] + TENANT == ";fallbackTenant=" && [';'] + OWNER == ";fallbackOwnerSubject="
  {
  }

  lemma KeysSpelled(k: Option<KeyPrint>)
    ensures OptionalKeyText(k) == if k.Some? then Printed(k.value) else ""
    ensures ConfigText(k) == if k.Some? then Printed(k.value) else "/etc/ogx/config.yaml"
  {
  }

  lemma FallbackSpelled(field: string, value: string, isPrint: char -> bool)
    ensures FallbackText(field, value, isPrint) == if value != "" then [';'] + field + Q.Quote(value, isPrint) else ""
  {
    hide Q.Quote;
  }

  // ---------------------------------------------------------------------------
  // Taking the text apart.
  // ---------------------------------------------------------------------------

  /** What comes before the first `c`, and what comes after it; nothing comes after when there is none. */
  function Before(s: string, c: char): (r: string)
    ensures |r| <= |s|
  {
    if s == "" || s[0] == c then "" else [s[0]] + Before(s[1..], c)
  }

  function Rest(s: string, c: char): string {
    if s == "" then "" else if s[0] == c then s[1..] else Rest(s[1..], c)
  }

  function Drop(s: string, part: string): string {
    if part <= s then s[|part|..] else s
  }

  function ReadKey(s: string): KeyPrint {
    var afterName := Rest(s, '/');
    KeyPrint(Before(s, '/'), Before(afterName, '@'), Rest(afterName, '@'))
  }

  function ReadOptionalKey(s: string): Option<KeyPrint> {
    if s == "" then None else Some(ReadKey(s))
  }

  function ReadConfig(s: string): Option<KeyPrint> {
    if s == CONFIG_PATH then None else Some(ReadKey(s))
  }

  /** A fallback field at the start of `s`, after its semicolon, and the rest. */
  function ReadFallback(s: string, field: string): Q.Read<string> {
    if !([';'] + field <= s) then Q.Read("", s)
    else
      match Q.ReadQuoted(s[1 + |field|..])
      case None => Q.Read("", s)
      case Some(r) => r
  }

  function Decode(s: string): Attempt {
    var source := Drop(s, SOURCE);
    var target := Drop(Rest(source, ';'), TARGET);
    var config := Drop(Rest(target, ';'), CONFIG);
    var image := Drop(Rest(config, ';'), IMAGE);
    var fallbacks := image[|Before(image, ';')|..];
    var tenant := ReadFallback(fallbacks, TENANT);
    var owner := ReadFallback(tenant.rest, OWNER);
    Attempt(
      ReadOptionalKey(Before(source, ';')), ReadOptionalKey(Before(target, ';')), ReadConfig(Before(config, ';')),
      Before(image, ';'), tenant.value, owner.value)
  }

  // ---------------------------------------------------------------------------
  // The text determines its inputs.
  // ---------------------------------------------------------------------------

  /** Secret and ConfigMap names and keys hold none of the separators; a fingerprint is hexadecimal. */
  predicate CleanKey(k: KeyPrint) {
    && '/' !in k.name && ';' !in k.name
    && '@' !in k.key && ';' !in k.key
    && ';' !in k.fingerprint
  }

  predicate Clean(a: Attempt) {
    && (a.source.Some? ==> CleanKey(a.source.value))
    && (a.target.Some? ==> CleanKey(a.target.value))
    && (a.config.Some? ==> CleanKey(a.config.value))
    && ';' !in a.image
  }

  lemma {:induction false} SplitAt(x: string, c: char, y: string)
    requires c !in x
    ensures Before(x + ([c] + y), c) == x && Rest(x + ([c] + y), c) == y
  {
    if x == "" {
      assert x + ([c] + y) == [c] + y;
    } else {
      SplitAt(x[1..], c, y);
      assert (x + ([c] + y))[1..] == x[1..] + ([c] + y);
    }
  }

  lemma {:induction false} NothingToSplit(x: string, c: char)
    requires c !in x
    ensures Before(x, c) == x
  {
    if x != "" {
      NothingToSplit(x[1..], c);
    }
  }

  lemma DropPrefix(part: string, s: string)
    ensures Drop(part + s, part) == s
  {
  }

  lemma ReadKeyText(k: KeyPrint)
    requires CleanKey(k)
    ensures ReadKey(KeyText(k)) == k
    ensures ';' !in KeyText(k) && '@' in KeyText(k)
  {
    SplitAt(k.name, '/', k.key + (['@'] + k.fingerprint));
    SplitAt(k.key, '@', k.fingerprint);
    hide Before, Rest;
    assert KeyText(k) == k.name + (['/'] + (k.key + (['@'] + k.fingerprint)));
    assert KeyText(k)[|k.name| + 1 + |k.key|] == '@';
  }

  lemma ReadOptionalKeyText(k: Option<KeyPrint>)
    requires k.Some? ==> CleanKey(k.value)
    ensures ReadOptionalKey(OptionalKeyText(k)) == k && ';' !in OptionalKeyText(k)
  {
    hide KeyText, ReadKey, CleanKey;
    if k.Some? {
      ReadKeyText(k.value);
    }
  }

  lemma ReadConfigText(k: Option<KeyPrint>)
    requires k.Some? ==> CleanKey(k.value)
    ensures ReadConfig(ConfigText(k)) == k && ';' !in ConfigText(k)
  {
    hide KeyText, ReadKey, CleanKey;
    if k.Some? {
      ReadKeyText(k.value);
      assert '@' !in CONFIG_PATH;
    }
  }

  lemma ReadFallbackText(field: string, value: string, isPrint: char -> bool, rest: string)
    requires value == "" ==> !([';'] + field <= rest)
    ensures ReadFallback(FallbackText(field, value, isPrint) + rest, field) == Q.Read(value, rest)
  {
    hide Q.Quote, Q.ReadQuoted;
    if value == "" {
      assert FallbackText(field, value, isPrint) + rest == rest;
    } else {
      Q.QuoteRoundTrip(value, isPrint, rest);
      var quoted := Q.Quote(value, isPrint);
      var s := FallbackText(field, value, isPrint) + rest;
      assert s == ([';'] + field) + (quoted + rest);
      assert s[1 + |field|..] == quoted + rest;
    }
  }

  lemma ReadFallbacks(tenant: string, owner: string, isPrint: char -> bool)
    ensures var s := FallbackText(TENANT, tenant, isPrint) + FallbackText(OWNER, owner, isPrint);
            && ReadFallback(s, TENANT) == Q.Read(tenant, FallbackText(OWNER, owner, isPrint))
            && ReadFallback(FallbackText(OWNER, owner, isPrint), OWNER) == Q.Read(owner, "")
            && (s == "" || s[0] == ';')
  {
    hide Q.Quote, Q.ReadQuoted;
    var ownerText := FallbackText(OWNER, owner, isPrint);
    assert ownerText != "" ==> ownerText[9] == 'O';
    ReadFallbackText(TENANT, tenant, isPrint, ownerText);
    ReadFallbackText(OWNER, owner, isPrint, "");
    assert ownerText + "" == ownerText;
  }

  /** The image ends where the fallbacks begin. */
  lemma ReadImage(image: string, fallbacks: string)
    requires ';' !in image && (fallbacks == "" || fallbacks[0] == ';')
    ensures Before(image + fallbacks, ';') == image
  {
    if fallbacks == "" {
      assert image + fallbacks == image;
      NothingToSplit(image, ';');
    } else {
      assert fallbacks == [';'] + fallbacks[1..];
      SplitAt(image, ';', fallbacks[1..]);
    }
  }

  /** Decoding inverts the encoding of every clean attempt. */
  lemma DecodeText(a: Attempt, isPrint: char -> bool)
    requires Clean(a)
    ensures Decode(Text(a, isPrint)) == a
  {
    hide Before, Rest, Drop, OptionalKeyText, ConfigText, FallbackText, CleanKey;
    hide ReadOptionalKey, ReadConfig, ReadFallback;
    var fallbacks := FallbackText(TENANT, a.fallbackTenant, isPrint) + FallbackText(OWNER, a.fallbackOwner, isPrint);
    var image := a.image + fallbacks;
    var config := ConfigText(a.config) + ([';'] + (IMAGE + image));
    var target := OptionalKeyText(a.target) + ([';'] + (CONFIG + config));
    var source := OptionalKeyText(a.source) + ([';'] + (TARGET + target));
    TextInParts(a, isPrint);
    ReadFallbacks(a.fallbackTenant, a.fallbackOwner, isPrint);
    ReadImage(a.image, fallbacks);
    assert image[|a.image|..] == fallbacks;
    DropPrefix(IMAGE, image);
    ReadConfigText(a.config);
    SplitAt(ConfigText(a.config), ';', IMAGE + image);
    DropPrefix(CONFIG, config);
    ReadOptionalKeyText(a.target);
    SplitAt(OptionalKeyText(a.target), ';', CONFIG + config);
    DropPrefix(TARGET, target);
    ReadOptionalKeyText(a.source);
    SplitAt(OptionalKeyText(a.source), ';', TARGET + target);
    DropPrefix(SOURCE, source);
  }

  lemma TextInParts(a: Attempt, isPrint: char -> bool)
    ensures var fallbacks :=
              FallbackText(TENANT, a.fallbackTenant, isPrint) + FallbackText(OWNER, a.fallbackOwner, isPrint);
            var config := ConfigText(a.config) + ([';'] + (IMAGE + (a.image + fallbacks)));
            var target := OptionalKeyText(a.target) + ([';'] + (CONFIG + config));
            var source := OptionalKeyText(a.source) + ([';'] + (TARGET + target));
            Text(a, isPrint) == SOURCE + source
  {
    hide OptionalKeyText, ConfigText, FallbackText;
    var fallbacks :=
      FallbackText(TENANT, a.fallbackTenant, isPrint) + FallbackText(OWNER, a.fallbackOwner, isPrint);
    var config := ConfigText(a.config) + ([';'] + (IMAGE + (a.image + fallbacks)));
    assert [';'] + (IMAGE + a.image + fallbacks) == [';'] + (IMAGE + (a.image + fallbacks));
    assert CONFIG + ConfigText(a.config) + ([';'] + (IMAGE + (a.image + fallbacks))) == CONFIG + config;
    var target := OptionalKeyText(a.target) + ([';'] + (CONFIG + config));
    assert TARGET + OptionalKeyText(a.target) + ([';'] + (CONFIG + config)) == TARGET + target;
  }

  /** So clean attempts with the same text are the same. */
  lemma TextIsInjective(a: Attempt, b: Attempt, isPrint: char -> bool)
    requires Clean(a) && Clean(b) && Text(a, isPrint) == Text(b, isPrint)
    ensures a == b
  {
    hide Text, Decode, Clean;
    DecodeText(a, isPrint);
    DecodeText(b, isPrint);
  }

  /** The names and keys are clean; nothing is asked of the image. */
  predicate HasCleanKeys(a: Attempt) {
    && (a.source.Some? ==> CleanKey(a.source.value))
    && (a.target.Some? ==> CleanKey(a.target.value))
    && (a.config.Some? ==> CleanKey(a.config.value))
  }

  /** The image and the fallbacks, which close the text. */
  function Tail(a: Attempt, isPrint: char -> bool): string {
    a.image + (FallbackText(TENANT, a.fallbackTenant, isPrint) + FallbackText(OWNER, a.fallbackOwner, isPrint))
  }

  lemma TextHasTail(a: Attempt, isPrint: char -> bool)
    requires HasCleanKeys(a)
    ensures var source := Drop(Text(a, isPrint), SOURCE);
            var target := Drop(Rest(source, ';'), TARGET);
            var config := Drop(Rest(target, ';'), CONFIG);
            && ReadOptionalKey(Before(source, ';')) == a.source
            && ReadOptionalKey(Before(target, ';')) == a.target
            && ReadConfig(Before(config, ';')) == a.config
            && Drop(Rest(config, ';'), IMAGE) == Tail(a, isPrint)
  {
    hide Before, Rest, Drop, OptionalKeyText, ConfigText, FallbackText, CleanKey, ReadOptionalKey, ReadConfig;
    var image := Tail(a, isPrint);
    var config := ConfigText(a.config) + ([';'] + (IMAGE + image));
    var target := OptionalKeyText(a.target) + ([';'] + (CONFIG + config));
    var source := OptionalKeyText(a.source) + ([';'] + (TARGET + target));
    TextInParts(a, isPrint);
    DropPrefix(IMAGE, image);
    ReadConfigText(a.config);
    SplitAt(ConfigText(a.config), ';', IMAGE + image);
    DropPrefix(CONFIG, config);
    ReadOptionalKeyText(a.target);
    SplitAt(OptionalKeyText(a.target), ';', CONFIG + config);
    DropPrefix(TARGET, target);
    ReadOptionalKeyText(a.source);
    SplitAt(OptionalKeyText(a.source), ';', TARGET + target);
    DropPrefix(SOURCE, source);
  }

  /** Whatever the images hold, two attempts share a text exactly when they name the same source,
      target and config and their image and fallbacks read the same together. So only the border
      between image and fallbacks can be ambiguous. */
  lemma TextsAgreeExactly(a: Attempt, b: Attempt, isPrint: char -> bool)
    requires HasCleanKeys(a) && HasCleanKeys(b)
    ensures Text(a, isPrint) == Text(b, isPrint) <==>
      a.source == b.source && a.target == b.target && a.config == b.config && Tail(a, isPrint) == Tail(b, isPrint)
  {
    hide Text, Before, Rest, Drop, OptionalKeyText, ConfigText, FallbackText, CleanKey, ReadOptionalKey, ReadConfig;
    TextHasTail(a, isPrint);
    TextHasTail(b, isPrint);
    TextInParts(a, isPrint);
    TextInParts(b, isPrint);
  }

  /** An image that holds a semicolon can imitate a fallback tenant. */
  lemma ImageWithSemicolonIsAmbiguous(isPrint: char -> bool)
    ensures var imitation := "i" + FallbackText(TENANT, "t", isPrint);
            var plain := Attempt(None, None, None, "i", "t", "");
            var other := Attempt(None, None, None, imitation, "", "");
            ';' in imitation && plain != other && Text(plain, isPrint) == Text(other, isPrint)
  {
    hide Q.Quote;
    var fallback := FallbackText(TENANT, "t", isPrint);
    assert ("i" + fallback)[1] == ';';
    assert IMAGE + "i" + (fallback + "") == IMAGE + ("i" + fallback) + ("" + "");
  }

  /** Names and keys as Kubernetes allows them, and an image reference. */
  predicate CleanInputs(inputs: Inputs) {
    && (inputs.source.Some? ==> CleanRef(inputs.source.value))
    && (inputs.target.Some? ==> CleanRef(inputs.target.value))
    && (inputs.runtimeConfig.Some? ==> CleanRef(inputs.runtimeConfig.value))
    && (inputs.image.Some? ==> ';' !in inputs.image.value)
  }

  predicate CleanRef(ref: KeyRef) {
    '/' !in ref.name && ';' !in ref.name && '@' !in ref.key && ';' !in ref.key
  }

  /** Reading that key of the Secret gives those bytes; a key that is not there reads as empty. */
  predicate SecretHolds(c: Cluster, ref: KeyRef, bytes: Bytes) {
    && ref.name in c.secrets
    && bytes == if ref.key in c.secrets[ref.name] then c.secrets[ref.name][ref.key] else []
  }

  /** Reading that key of the ConfigMap does: its binary data come first. */
  predicate ConfigHolds(c: Cluster, ref: KeyRef, bytes: Bytes) {
    && ref.name in c.configMaps
    && var cm := c.configMaps[ref.name];
       bytes == if ref.key in cm.binaryData then cm.binaryData[ref.key] else if ref.key in cm.data then cm.data[ref.key] else []
  }

  /** One of the named objects holds those bytes. */
  predicate Held(c: Cluster, inputs: Inputs, bytes: Bytes) {
    || (inputs.source.Some? && SecretHolds(c, inputs.source.value, bytes))
    || (inputs.target.Some? && SecretHolds(c, inputs.target.value, bytes))
    || (inputs.runtimeConfig.Some? && ConfigHolds(c, inputs.runtimeConfig.value, bytes))
  }

  ghost predicate SameContents(c: Cluster, d: Cluster, inputs: Inputs) {
    && (inputs.source.Some? ==> SameSecret(c, d, inputs.source.value))
    && (inputs.target.Some? ==> SameSecret(c, d, inputs.target.value))
    && (inputs.runtimeConfig.Some? ==>
          exists bytes :: ConfigHolds(c, inputs.runtimeConfig.value, bytes) && ConfigHolds(d, inputs.runtimeConfig.value, bytes))
  }

  ghost predicate SameSecret(c: Cluster, d: Cluster, ref: KeyRef) {
    exists bytes :: SecretHolds(c, ref, bytes) && SecretHolds(d, ref, bytes)
  }

  /** There is an attempt exactly when every named object exists and the image is known; otherwise the
      error names the first that is missing. */
  lemma AttemptExactly(c: Cluster, i: Inputs, fingerprint: Bytes -> string)
    ensures var noSource := i.source.Some? && i.source.value.name !in c.secrets;
            var noTarget := i.target.Some? && i.target.value.name !in c.secrets;
            var noConfig := i.runtimeConfig.Some? && i.runtimeConfig.value.name !in c.configMaps;
            match AttemptOf(c, i, fingerprint)
            case Ok(_) => !noSource && !noTarget && !noConfig && i.image.Some?
            case Err(NoSecret(name)) =>
              if noSource then name == i.source.value.name else noTarget && name == i.target.value.name
            case Err(NoConfigMap(name)) => !noSource && !noTarget && noConfig && name == i.runtimeConfig.value.name
            case Err(NoImage) => !noSource && !noTarget && !noConfig && i.image.None?
  {
  }

  /** As long as hash and fingerprint do not collide on these inputs, two attempts share a key exactly
      when their specs name the same objects, image and fallbacks and those objects hold the same bytes. */
  lemma KeysIdentifyAttempts(
      c: Cluster, i: Inputs, d: Cluster, j: Inputs,
      fingerprint: Bytes -> string, hash: string -> string, isPrint: char -> bool)
    requires CleanInputs(i) && CleanInputs(j)
    requires AttemptOf(c, i, fingerprint).Ok? && AttemptOf(d, j, fingerprint).Ok?
    requires forall x :: Held(c, i, x) || Held(d, j, x) ==> ';' !in fingerprint(x)
    requires forall x, y :: Held(c, i, x) && Held(d, j, y) && fingerprint(x) == fingerprint(y) ==> x == y
    requires var s, t := Text(AttemptOf(c, i, fingerprint).value, isPrint), Text(AttemptOf(d, j, fingerprint).value, isPrint);
             hash(s) == hash(t) ==> s == t
    ensures hash(Text(AttemptOf(c, i, fingerprint).value, isPrint)) == hash(Text(AttemptOf(d, j, fingerprint).value, isPrint))
            <==> i == j && SameContents(c, d, i)
  {
    hide Text, Clean, CleanInputs, SecretPrint, ConfigPrint, SameContents, Held;
    var a, b := AttemptOf(c, i, fingerprint).value, AttemptOf(d, j, fingerprint).value;
    CleanAttempt(c, i, fingerprint);
    CleanAttempt(d, j, fingerprint);
    if Text(a, isPrint) == Text(b, isPrint) {
      TextIsInjective(a, b, isPrint);
    }
    SameAttempt(c, i, d, j, fingerprint);
  }

  lemma SecretPrinted(c: Cluster, ref: KeyRef, fingerprint: Bytes -> string) returns (bytes: Bytes)
    requires SecretPrint(c, Some(ref), fingerprint).Ok?
    ensures SecretHolds(c, ref, bytes) && forall other :: SecretHolds(c, ref, other) ==> other == bytes
    ensures SecretPrint(c, Some(ref), fingerprint).value == Some(KeyPrint(ref.name, ref.key, fingerprint(bytes)))
  {
    bytes := SecretData(c.secrets[ref.name], ref.key);
  }

  lemma ConfigPrinted(c: Cluster, ref: KeyRef, fingerprint: Bytes -> string) returns (bytes: Bytes)
    requires ConfigPrint(c, Some(ref), fingerprint).Ok?
    ensures ConfigHolds(c, ref, bytes) && forall other :: ConfigHolds(c, ref, other) ==> other == bytes
    ensures ConfigPrint(c, Some(ref), fingerprint).value == Some(KeyPrint(ref.name, ref.key, fingerprint(bytes)))
  {
    bytes := ConfigData(c.configMaps[ref.name], ref.key);
  }

  lemma CleanAttempt(c: Cluster, i: Inputs, fingerprint: Bytes -> string)
    requires CleanInputs(i) && AttemptOf(c, i, fingerprint).Ok?
    requires forall x :: Held(c, i, x) ==> ';' !in fingerprint(x)
    ensures Clean(AttemptOf(c, i, fingerprint).value)
  {
    hide SecretPrint, ConfigPrint, SecretHolds, ConfigHolds;
    NothingPrinted(c, fingerprint);
    if i.source.Some? {
      var bytes := SecretPrinted(c, i.source.value, fingerprint);
      assert Held(c, i, bytes);
    }
    if i.target.Some? {
      var bytes := SecretPrinted(c, i.target.value, fingerprint);
      assert Held(c, i, bytes);
    }
    if i.runtimeConfig.Some? {
      var bytes := ConfigPrinted(c, i.runtimeConfig.value, fingerprint);
      assert Held(c, i, bytes);
    }
  }

  lemma NothingPrinted(c: Cluster, fingerprint: Bytes -> string)
    ensures SecretPrint(c, None, fingerprint) == Ok(None) && ConfigPrint(c, None, fingerprint) == Ok(None)
  {
  }

  lemma SameSecretPrint(c: Cluster, d: Cluster, r: KeyRef, s: KeyRef, fingerprint: Bytes -> string)
    requires SecretPrint(c, Some(r), fingerprint).Ok? && SecretPrint(d, Some(s), fingerprint).Ok?
    requires forall x, y :: SecretHolds(c, r, x) && SecretHolds(d, s, y) && fingerprint(x) == fingerprint(y) ==> x == y
    ensures SecretPrint(c, Some(r), fingerprint) == SecretPrint(d, Some(s), fingerprint) <==> r == s && SameSecret(c, d, r)
  {
    hide SecretPrint, SecretHolds;
    var x := SecretPrinted(c, r, fingerprint);
    var y := SecretPrinted(d, s, fingerprint);
  }

  lemma SameConfigPrint(c: Cluster, d: Cluster, r: KeyRef, s: KeyRef, fingerprint: Bytes -> string)
    requires ConfigPrint(c, Some(r), fingerprint).Ok? && ConfigPrint(d, Some(s), fingerprint).Ok?
    requires forall x, y :: ConfigHolds(c, r, x) && ConfigHolds(d, s, y) && fingerprint(x) == fingerprint(y) ==> x == y
    ensures ConfigPrint(c, Some(r), fingerprint) == ConfigPrint(d, Some(s), fingerprint) <==>
      r == s && exists bytes :: ConfigHolds(c, r, bytes) && ConfigHolds(d, r, bytes)
  {
    hide ConfigPrint, ConfigHolds;
    var x := ConfigPrinted(c, r, fingerprint);
    var y := ConfigPrinted(d, s, fingerprint);
  }

  lemma SameAttempt(c: Cluster, i: Inputs, d: Cluster, j: Inputs, fingerprint: Bytes -> string)
    requires AttemptOf(c, i, fingerprint).Ok? && AttemptOf(d, j, fingerprint).Ok?
    requires forall x, y :: Held(c, i, x) && Held(d, j, y) && fingerprint(x) == fingerprint(y) ==> x == y
    ensures AttemptOf(c, i, fingerprint) == AttemptOf(d, j, fingerprint) <==> i == j && SameContents(c, d, i)
  {
    hide SecretPrint, ConfigPrint, SecretHolds, ConfigHolds, SameSecret;
    NothingPrinted(c, fingerprint);
    NothingPrinted(d, fingerprint);
    if i.source.Some? && j.source.Some? {
      SameSecretPrint(c, d, i.source.value, j.source.value, fingerprint);
    }
    if i.target.Some? && j.target.Some? {
      SameSecretPrint(c, d, i.target.value, j.target.value, fingerprint);
    }
    if i.runtimeConfig.Some? && j.runtimeConfig.Some? {
      SameConfigPrint(c, d, i.runtimeConfig.value, j.runtimeConfig.value, fingerprint);
    }
    SomethingPrinted(c, i, fingerprint);
    SomethingPrinted(d, j, fingerprint);
  }

  lemma SomethingPrinted(c: Cluster, i: Inputs, fingerprint: Bytes -> string)
    requires AttemptOf(c, i, fingerprint).Ok?
    ensures i.source.Some? ==> AttemptOf(c, i, fingerprint).value.source.Some?
    ensures i.target.Some? ==> AttemptOf(c, i, fingerprint).value.target.Some?
    ensures i.runtimeConfig.Some? ==> AttemptOf(c, i, fingerprint).value.config.Some?
  {
  }
}
