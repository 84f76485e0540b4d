/**
 * The `.env` values the scaffold derives from its configuration: one
 * override map, for the API's `.env.example`, holding the project name,
 * the database connection and the file storage settings, each wrapped in
 * double quotes.  The fourteen keys the scaffold can write are named by
 * `EnvKey`; `Name` spells each out as the dotted `.env` key.
 */
module EnvOverrides {
  import opened Wrappers
  import opened ScaffoldConfig

  const ApiEnvExample := "apps/api/.env.example"

  datatype EnvKey =
    | AppName
    | DbHost | DbPort | DbUser | DbPassword | DbName | DbSslMode
    | StorageProvider
    | LocalBaseDir
    | S3Bucket | S3Region | S3Endpoint | S3AccessKey | S3SecretKey

  function Name(k: EnvKey): string {
    match k
    case AppName => "API_PRIMARY.APP_NAME"
    case DbHost => "API_DATABASE.HOST"
    case DbPort => "API_DATABASE.PORT"
    case DbUser => "API_DATABASE.USER"
    case DbPassword => "API_DATABASE.PASSWORD"
    case DbName => "API_DATABASE.NAME"
    case DbSslMode => "API_DATABASE.SSL_MODE"
    case StorageProvider => "API_FILE_STORAGE.PROVIDER"
    case LocalBaseDir => "API_FILE_STORAGE.LOCAL.BASE_DIR"
    case S3Bucket => "API_FILE_STORAGE.S3.BUCKET"
    case S3Region => "API_FILE_STORAGE.S3.REGION"
    case S3Endpoint => "API_FILE_STORAGE.S3.ENDPOINT"
    case S3AccessKey => "API_FILE_STORAGE.S3.ACCESS_KEY_ID"
    case S3SecretKey => "API_FILE_STORAGE.S3.SECRET_ACCESS_KEY"
  }

  /** The length of a key and one byte of it, enough to tell the keys
      apart. */
  function Tag(s: string): (int, char) {
    (|s|, if |s| > 20 then s[20] else if |s| > 13 then s[13] else ' ')
  }

  function TagOf(k: EnvKey): (int, char) {
    match k
    case AppName => (20, 'P')
    case DbHost => (17, 'H')
    case DbPort => (17, 'P')
    case DbUser => (17, 'U')
    case DbPassword => (21, 'D')
    case DbName => (17, 'N')
    case DbSslMode => (21, 'E')
    case StorageProvider => (25, 'V')
    case LocalBaseDir => (31, 'A')
    case S3Bucket => (26, 'B')
    case S3Region => (26, 'R')
    case S3Endpoint => (28, 'E')
    case S3AccessKey => (33, 'A')
    case S3SecretKey => (37, 'S')
  }

  lemma {:induction false} NameTag(k: EnvKey)
    ensures Tag(Name(k)) == TagOf(k)
  {
  }

  /** Distinct keys are spelt differently. */
  lemma {:induction false} NameInjective(k1: EnvKey, k2: EnvKey)
    ensures Name(k1) == Name(k2) ==> k1 == k2
  {
    NameTag(k1);
    NameTag(k2);
  }

  ghost predicate Injective<K(!new)>(f: K -> string) {
    forall k1, k2 :: f(k1) == f(k2) ==> k1 == k2
  }

  /** A map with its keys renamed by `f`. */
  function Rekey<K(!new)>(m: map<K, string>, f: K -> string): (r: map<string, string>)
    requires Injective(f)
    ensures forall k :: f(k) in r <==> k in m
    ensures forall k | k in m :: r[f(k)] == m[k]
    ensures forall s | s in r :: exists k | k in m :: s == f(k)
  {
    map k | k in m :: f(k) := m[k]
  }

  lemma {:induction false} NameIsInjective()
    ensures Injective(Name)
  {
    forall k1, k2 ensures Name(k1) == Name(k2) ==> k1 == k2 {
      NameInjective(k1, k2);
    }
  }

  /** The inner map with every key spelt out. */
  function Spell(m: map<EnvKey, string>): (r: map<string, string>)
    ensures Injective(Name) && r == Rekey(m, Name)
  {
    NameIsInjective();
    Rekey(m, Name)
  }

  /** fmt.Sprintf("\"%s\"", s): no escaping. */
  function Quote(s: string): (r: string)
    ensures |r| == |s| + 2 && r[0] == '"' && r[|r| - 1] == '"' && r[1..|r| - 1] == s
  {
    "\"" + s + "\""
  }

  predicate Quoted(v: string) {
    |v| >= 2 && v[0] == '"' && v[|v| - 1] == '"'
  }

  function BaseKeys(): set<EnvKey> {
    {AppName, DbHost, DbPort, DbUser, DbPassword, DbName, DbSslMode, StorageProvider}
  }

  function S3Keys(): set<EnvKey> {
    {S3Bucket, S3Region, S3Endpoint, S3AccessKey, S3SecretKey}
  }

  predicate UsesLocal(cfg: ScaffoldConfiguration) {
    cfg.storage.kind == StorageLocal && cfg.storage.local.Some?
  }

  predicate UsesS3(cfg: ScaffoldConfiguration) {
    cfg.storage.kind == StorageS3 && cfg.storage.s3.Some?
  }

  /** The configuration field behind each base key, before quoting. */
  function BaseField(cfg: ScaffoldConfiguration, k: EnvKey): string {
    var db := cfg.dbConnection;
    match k
    case AppName => cfg.projectName
    case DbHost => db.host
    case DbPort => db.port
    case DbUser => db.user
    case DbPassword => db.password
    case DbName => db.name
    case DbSslMode => db.sslMode
    case _ => cfg.storage.kind
  }

  /** The entries written for every configuration. */
  function BaseEntries(cfg: ScaffoldConfiguration): map<EnvKey, string> {
    map k | k in BaseKeys() :: Quote(BaseField(cfg, k))
  }

  /** The S3 setting behind each S3 key, before quoting. */
  function S3Field(s3: S3Config, k: EnvKey): string {
    match k
    case S3Bucket => s3.bucket
    case S3Region => s3.region
    case S3Endpoint => s3.endpoint
    case S3AccessKey => s3.accessKey
    case _ => s3.secretKey
  }

  function LocalEntries(cfg: ScaffoldConfiguration): map<EnvKey, string> {
    if UsesLocal(cfg) then map[LocalBaseDir := Quote(cfg.storage.local.value.path)] else map[]
  }

  function S3Entries(cfg: ScaffoldConfiguration): map<EnvKey, string> {
    if UsesS3(cfg) then map k | k in S3Keys() :: Quote(S3Field(cfg.storage.s3.value, k))
    else map[]
  }

  /** The inner map: the base entries, then the storage entries. */
  function ApiEntries(cfg: ScaffoldConfiguration): map<EnvKey, string> {
    BaseEntries(cfg) + LocalEntries(cfg) + S3Entries(cfg)
  }

  /** scaffold.EnvOverridesFromConfig: a single entry, for the API's
      `.env.example`. */
  function EnvOverridesFromConfig(cfg: ScaffoldConfiguration): (r: map<string, map<string, string>>)
    ensures r.Keys == {ApiEnvExample}
    ensures r[ApiEnvExample] == Spell(ApiEntries(cfg))
  {
    map[ApiEnvExample := Spell(ApiEntries(cfg))]
  }

  lemma {:induction false} BaseEntryKeys(cfg: ScaffoldConfiguration)
    ensures BaseEntries(cfg).Keys == BaseKeys()
  {
  }

  lemma {:induction false} StorageEntryKeys(cfg: ScaffoldConfiguration)
    ensures LocalEntries(cfg).Keys == if UsesLocal(cfg) then {LocalBaseDir} else {}
    ensures S3Entries(cfg).Keys == if UsesS3(cfg) then S3Keys() else {}
  {
  }

  /** The keys are the application name, the six database keys and the
      provider, plus the local base directory iff local storage is selected
      and configured, plus the five S3 keys iff S3 is selected and
      configured. */
  lemma {:induction false} OverrideKeys(cfg: ScaffoldConfiguration)
    ensures ApiEntries(cfg).Keys ==
              BaseKeys() + (if UsesLocal(cfg) then {LocalBaseDir} else {}) + (if UsesS3(cfg) then S3Keys() else {})
  {
    BaseEntryKeys(cfg);
    StorageEntryKeys(cfg);
  }

  /** The base keys are always there; the storage keys exactly when their
      storage is selected and configured. */
  lemma {:induction false} StorageKeysIff(cfg: ScaffoldConfiguration)
    ensures BaseKeys() <= ApiEntries(cfg).Keys
    ensures LocalBaseDir in ApiEntries(cfg) <==> UsesLocal(cfg)
    ensures S3Keys() <= ApiEntries(cfg).Keys <==> UsesS3(cfg)
    ensures S3Keys() !! ApiEntries(cfg).Keys <==> !UsesS3(cfg)
  {
    OverrideKeys(cfg);
    KeySetsDisjoint();
    assert S3Bucket in S3Keys();
  }

  lemma {:induction false} KeySetsDisjoint()
    ensures BaseKeys() !! S3Keys() && LocalBaseDir !in BaseKeys() && LocalBaseDir !in S3Keys()
  {
  }

  /** The database values: each connection field in double quotes. */
  lemma {:induction false} DatabaseValues(cfg: ScaffoldConfiguration)
    ensures var m := ApiEntries(cfg); var db := cfg.dbConnection;
            m[DbHost] == Quote(db.host) && m[DbPort] == Quote(db.port) && m[DbUser] == Quote(db.user)
            && m[DbPassword] == Quote(db.password) && m[DbName] == Quote(db.name) && m[DbSslMode] == Quote(db.sslMode)
  {
    BaseLookups(cfg);
    BaseFieldValues(ApiEntries(cfg), cfg);
  }

  /** The project name and the storage kind, in double quotes. */
  lemma {:induction false} NameAndProviderValues(cfg: ScaffoldConfiguration)
    ensures var m := ApiEntries(cfg);
            m[AppName] == Quote(cfg.projectName) && m[StorageProvider] == Quote(cfg.storage.kind)
  {
    BaseLookups(cfg);
    BaseFieldValues(ApiEntries(cfg), cfg);
  }

  /** The local base directory, when local storage is in use. */
  lemma {:induction false} LocalValue(cfg: ScaffoldConfiguration)
    requires UsesLocal(cfg)
    ensures ApiEntries(cfg)[LocalBaseDir] == Quote(cfg.storage.local.value.path)
  {
    assert S3Entries(cfg) == map[] by { assert StorageLocal != StorageS3; }
  }

  /** The S3 settings, when S3 storage is in use. */
  lemma {:induction false} S3Values(cfg: ScaffoldConfiguration)
    requires UsesS3(cfg)
    ensures var m := ApiEntries(cfg); var s3 := cfg.storage.s3.value;
            m[S3Bucket] == Quote(s3.bucket) && m[S3Region] == Quote(s3.region) && m[S3Endpoint] == Quote(s3.endpoint)
            && m[S3AccessKey] == Quote(s3.accessKey) && m[S3SecretKey] == Quote(s3.secretKey)
  {
    forall k | k in S3Keys()
      ensures k in ApiEntries(cfg) && ApiEntries(cfg)[k] == Quote(S3Field(cfg.storage.s3.value, k))
    {
      S3Lookup(cfg, k);
    }
    S3FieldValues(ApiEntries(cfg), cfg.storage.s3.value);
  }

  /** The storage entries never overwrite a base entry. */
  lemma {:induction false} BaseUnshadowed(cfg: ScaffoldConfiguration)
    ensures forall k | k in BaseKeys() :: k !in LocalEntries(cfg) && k !in S3Entries(cfg)
  {
    KeySetsDisjoint();
    StorageEntryKeys(cfg);
  }

  /** A base key holds its quoted field. */
  lemma {:induction false} BaseLookup(cfg: ScaffoldConfiguration, k: EnvKey)
    requires k in BaseKeys()
    ensures k in ApiEntries(cfg) && ApiEntries(cfg)[k] == Quote(BaseField(cfg, k))
  {
    BaseUnshadowed(cfg);
    assert BaseEntries(cfg)[k] == Quote(BaseField(cfg, k));
  }

  lemma {:induction false} BaseLookups(cfg: ScaffoldConfiguration)
    ensures forall k | k in BaseKeys() :: k in ApiEntries(cfg) && ApiEntries(cfg)[k] == Quote(BaseField(cfg, k))
  {
    forall k | k in BaseKeys()
      ensures k in ApiEntries(cfg) && ApiEntries(cfg)[k] == Quote(BaseField(cfg, k))
    {
      BaseLookup(cfg, k);
    }
  }

  /** A map holding every base key's quoted field holds each named one. */
  lemma {:induction false} BaseFieldValues(m: map<EnvKey, string>, cfg: ScaffoldConfiguration)
    requires forall k | k in BaseKeys() :: k in m && m[k] == Quote(BaseField(cfg, k))
    ensures var db := cfg.dbConnection;
            m[AppName] == Quote(cfg.projectName) && m[StorageProvider] == Quote(cfg.storage.kind)
            && m[DbHost] == Quote(db.host) && m[DbPort] == Quote(db.port) && m[DbUser] == Quote(db.user)
            && m[DbPassword] == Quote(db.password) && m[DbName] == Quote(db.name) && m[DbSslMode] == Quote(db.sslMode)
  {
    assert AppName in BaseKeys() && StorageProvider in BaseKeys();
    assert DbHost in BaseKeys() && DbPort in BaseKeys() && DbUser in BaseKeys();
    assert DbPassword in BaseKeys() && DbName in BaseKeys() && DbSslMode in BaseKeys();
  }

  /** A map holding every S3 key's quoted setting holds each named one. */
  lemma {:induction false} S3FieldValues(m: map<EnvKey, string>, s3: S3Config)
    requires forall k | k in S3Keys() :: k in m && m[k] == Quote(S3Field(s3, k))
    ensures m[S3Bucket] == Quote(s3.bucket) && m[S3Region] == Quote(s3.region) && m[S3Endpoint] == Quote(s3.endpoint)
            && m[S3AccessKey] == Quote(s3.accessKey) && m[S3SecretKey] == Quote(s3.secretKey)
  {
    assert S3Bucket in S3Keys() && S3Region in S3Keys() && S3Endpoint in S3Keys();
    assert S3AccessKey in S3Keys() && S3SecretKey in S3Keys();
  }

  /** With S3 in use, an S3 key holds its quoted setting. */
  lemma {:induction false} S3Lookup(cfg: ScaffoldConfiguration, k: EnvKey)
    requires UsesS3(cfg) && k in S3Keys()
    ensures k in ApiEntries(cfg) && ApiEntries(cfg)[k] == Quote(S3Field(cfg.storage.s3.value, k))
  {
    assert S3Entries(cfg)[k] == Quote(S3Field(cfg.storage.s3.value, k));
  }

  /** Every value is a string in double quotes. */
  lemma {:induction false} AllQuoted(cfg: ScaffoldConfiguration)
    ensures forall k | k in ApiEntries(cfg) :: Quoted(ApiEntries(cfg)[k])
  {
    forall k | k in ApiEntries(cfg) ensures Quoted(ApiEntries(cfg)[k]) {
      if k in S3Entries(cfg) {
        assert Quoted(S3Entries(cfg)[k]);
      } else if k in LocalEntries(cfg) {
        assert Quoted(LocalEntries(cfg)[k]);
      } else {
        assert Quoted(BaseEntries(cfg)[k]);
      }
    }
  }

  /** Local and S3 settings never coexist, so the map holds 8, 9 or 13
      keys. */
  lemma {:induction false} OverrideCount(cfg: ScaffoldConfiguration)
    ensures !(UsesLocal(cfg) && UsesS3(cfg))
    ensures |ApiEntries(cfg).Keys| == 8 + (if UsesLocal(cfg) then 1 else 0) + (if UsesS3(cfg) then 5 else 0)
    ensures |ApiEntries(cfg).Keys| in {8, 9, 13}
  {
    OverrideKeys(cfg);
    assert StorageLocal != StorageS3;
    BaseKeysCount();
    S3KeysCount();
    KeySetsDisjoint();
  }

  lemma {:induction false} BaseKeysCount()
    ensures |BaseKeys()| == 8
  {
    var a := {AppName, DbHost, DbPort, DbUser};
    var b := {DbPassword, DbName, DbSslMode, StorageProvider};
    FourKeys(AppName, DbHost, DbPort, DbUser);
    FourKeys(DbPassword, DbName, DbSslMode, StorageProvider);
    assert a * b == {};
    assert a + b == BaseKeys();
  }

  lemma {:induction false} FourKeys(k1: EnvKey, k2: EnvKey, k3: EnvKey, k4: EnvKey)
    requires k1 != k2 && k1 != k3 && k1 != k4 && k2 != k3 && k2 != k4 && k3 != k4
    ensures |{k1, k2, k3, k4}| == 4
  {
    assert |{k1, k2}| == 2;
    assert {k1, k2, k3} == {k1, k2} + {k3};
    assert {k1, k2, k3, k4} == {k1, k2, k3} + {k4};
  }

  lemma {:induction false} S3KeysCount()
    ensures |S3Keys()| == 5
  {
    var s := {S3Bucket};
    assert |s + {S3Region}| == 2;
    s := s + {S3Region};
    assert |s + {S3Endpoint}| == 3;
    s := s + {S3Endpoint};
    assert |s + {S3AccessKey}| == 4;
    s := s + {S3AccessKey};
    assert |s + {S3SecretKey}| == 5;
    s := s + {S3SecretKey};
    assert s == S3Keys();
  }
}
