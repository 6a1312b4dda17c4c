/**
 * The plugin's secure storage (src/storage/SecureStorage.ts): GitHub
 * credentials are XOR-obfuscated with a fixed key and Base 64 encoded before
 * they go into the host's client storage; the configuration and the last
 * connection test are stored as plain JSON. The client storage is a map from
 * keys to strings held by a `SecureStorage` object; JSON is an abstract codec.
 */
module SecureStorageModel {
  import opened Wrappers
  import opened Base64
  import JsStrings

  // ---------------------------------------------------------------------------
  // The XOR cipher
  // ---------------------------------------------------------------------------

  /** The code units of the key 'figma-github-plugin-2024'. */
  const KeyUnits: seq<Unit> :=
    [102, 105, 103, 109, 97, 45, 103, 105, 116, 104, 117, 98,
     45, 112, 108, 117, 103, 105, 110, 45, 50, 48, 50, 52]

  const KeyLength := 24

  /** Unit `i` of the text is combined with key unit `i mod 24`. */
  function KeyUnit(i: nat): (k: Unit)
    ensures k <= 127
  {
    KeyUnits[i % KeyLength]
  }

  /** `String.fromCharCode(u ^ k)` for one code unit. */
  function XorUnit(u: Unit, k: Unit): Unit {
    u ^ k
  }

  lemma XorUnitInverse(u: Unit, k: Unit)
    ensures XorUnit(XorUnit(u, k), k) == u
  {
  }

  lemma XorUnitLatin1(u: Unit, k: Unit)
    requires k <= 127
    ensures XorUnit(u, k) <= 255 <==> u <= 255
  {
  }

  /** The split / map / join step shared by `encrypt` and `decrypt`. */
  function Xor(text: JsString): (r: JsString)
    ensures |r| == |text|
    ensures forall i :: 0 <= i < |text| ==> r[i] == XorUnit(text[i], KeyUnit(i))
  {
    seq(|text|, i requires 0 <= i < |text| => XorUnit(text[i], KeyUnit(i)))
  }

  lemma XorSelfInverse(text: JsString)
    ensures Xor(Xor(text)) == text
  {
    var once := Xor(text);
    var twice := Xor(once);
    forall i | 0 <= i < |text| ensures twice[i] == text[i] {
      XorUnitInverse(text[i], KeyUnit(i));
    }
  }

  /** The key's units are ASCII, so XOR keeps a unit within Latin-1 exactly when it was. */
  lemma XorKeepsLatin1(text: JsString)
    ensures IsLatin1(Xor(text)) <==> IsLatin1(text)
  {
    var r := Xor(text);
    forall i | 0 <= i < |text| ensures r[i] <= 255 <==> text[i] <= 255 {
      XorUnitLatin1(text[i], KeyUnit(i));
    }
  }

  const EncryptFailure := "Failed to encrypt data"
  const DecryptFailure := "Failed to decrypt data"

  /** `SimpleEncryption.encrypt`: XOR, then `btoa`; a `btoa` failure becomes the plugin's own error. */
  function Encrypt(text: JsString): (r: Result<JsString, string>)
    ensures r.Err? ==> r.error == EncryptFailure
  {
    match Btoa(Xor(text))
    case Ok(encoded) => Ok(encoded)
    case Err(_) => Err(EncryptFailure)
  }

  /** `SimpleEncryption.decrypt`: `atob`, then XOR; an `atob` failure becomes the plugin's own error. */
  function Decrypt(encrypted: JsString): (r: Result<JsString, string>)
    ensures r.Err? ==> r.error == DecryptFailure
  {
    match Atob(encrypted)
    case Ok(decoded) => Ok(Xor(decoded))
    case Err(_) => Err(DecryptFailure)
  }

  /** Encryption fails exactly when some unit of the text is above 255. */
  lemma EncryptFailsIff(text: JsString)
    ensures Encrypt(text).Err? <==> exists i :: 0 <= i < |text| && text[i] > 255
  {
    XorKeepsLatin1(text);
  }

  /** Decryption inverts encryption on every text it accepts; the ciphertext is never empty for a non-empty text. */
  lemma EncryptDecrypt(text: JsString)
    requires IsLatin1(text)
    ensures Encrypt(text).Ok? && Decrypt(Encrypt(text).value) == Ok(text)
    ensures |text| > 0 ==> |Encrypt(text).value| > 0
  {
    XorKeepsLatin1(text);
    BtoaAtob(Xor(text));
    XorSelfInverse(text);
  }

  /** A unit that is neither white space, '=' nor a Base 64 character makes decryption fail. */
  lemma DecryptRejects(encrypted: JsString, i: int)
    requires 0 <= i < |encrypted| && !IsAsciiWhitespace(encrypted[i])
    requires encrypted[i] != Pad && SextetOf(encrypted[i]).None?
    ensures Decrypt(encrypted) == Err(DecryptFailure)
  {
    AtobRejects(encrypted, i);
  }

  // ---------------------------------------------------------------------------
  // Stored records and JSON
  // ---------------------------------------------------------------------------

  /** The `token` field as JSON gives it back: a string, or some other value that is truthy or not. */
  datatype TokenValue = TokenString(text: string) | TokenOther(truthy: bool)

  predicate TokenTruthy(t: TokenValue) {
    match t
    case TokenString(text) => text != ""
    case TokenOther(truthy) => truthy
  }

  datatype Credentials = Credentials(token: TokenValue, username: Option<string>)

  datatype Repository = Repository(owner: string, name: string)

  /** A GitHub configuration; the credentials travel apart from the rest. */
  datatype Config = Config(repository: Option<Repository>, branch: Option<string>, credentials: Option<Credentials>)

  /** A connection test result: its own fields, seen as one payload, and the time it was stored. */
  datatype ConnectionTestRecord = ConnectionTestRecord(payload: string, timestamp: Option<int>)

  /**
   * `JSON.stringify` and `JSON.parse` for one record type: `decode` gives
   * `None` where parsing throws or yields something other than a record.
   */
  datatype Codec<!T> = Codec(encode: T -> JsString, decode: JsString -> Option<T>)

  /** Parsing what was serialised gives it back, and serialised text is never empty. */
  ghost predicate Lawful<T(!new)>(codec: Codec<T>) {
    forall x: T {:trigger codec.encode(x)} ::
      codec.decode(codec.encode(x)) == Some(x) && |codec.encode(x)| > 0
  }

  // ---------------------------------------------------------------------------
  // The client storage as a map, and each operation's effect on it
  // ---------------------------------------------------------------------------

  type Store = map<string, JsString>

  const ConfigKey := "github_config_v1"
  const CredentialsKey := "github_credentials_v1"
  const LastTestKey := "github_last_test_v1"

  const StoreCredentialsFailure := "Failed to store GitHub credentials securely"

  /** One hour in milliseconds. */
  const OneHour := 60 * 60 * 1000

  /** `storeCredentials`: the encrypted JSON under the credentials key, or the plugin's error. */
  function PutCredentials(st: Store, codec: Codec<Credentials>, c: Credentials): (r: Result<Store, string>)
    ensures r.Err? <==> !IsLatin1(Xor(codec.encode(c)))
    ensures r.Err? ==> r.error == StoreCredentialsFailure
    ensures r.Ok? ==> CredentialsKey in r.value && r.value[CredentialsKey] == Encrypt(codec.encode(c)).value
    ensures r.Ok? ==> forall k :: k != CredentialsKey ==> (k in r.value <==> k in st)
    ensures r.Ok? ==> forall k :: k != CredentialsKey && k in st ==> r.value[k] == st[k]
  {
    match Encrypt(codec.encode(c))
    case Ok(encrypted) => Ok(st[CredentialsKey := encrypted])
    case Err(_) => Err(StoreCredentialsFailure)
  }

  /** `getCredentials`: `None` when nothing (or an empty string) is stored, or when decrypting or parsing fails. */
  function CredentialsIn(st: Store, codec: Codec<Credentials>): (r: Option<Credentials>)
    ensures CredentialsKey !in st || st[CredentialsKey] == [] ==> r == None
    ensures CredentialsKey in st && Decrypt(st[CredentialsKey]).Err? ==> r == None
  {
    if CredentialsKey !in st || st[CredentialsKey] == [] then None
    else match Decrypt(st[CredentialsKey])
      case Ok(decrypted) => codec.decode(decrypted)
      case Err(_) => None
  }

  /** `storeConfig`: the JSON of the configuration with its credentials left out. */
  function PutConfig(st: Store, codec: Codec<Config>, config: Config): (r: Store)
    ensures ConfigKey in r && r[ConfigKey] == codec.encode(config.(credentials := None))
    ensures forall k :: k != ConfigKey ==> (k in r <==> k in st)
    ensures forall k :: k != ConfigKey && k in st ==> r[k] == st[k]
  {
    st[ConfigKey := codec.encode(config.(credentials := None))]
  }

  /** `getConfig`: `None` when nothing (or an empty string) is stored, or parsing fails. */
  function ConfigIn(st: Store, codec: Codec<Config>): (r: Option<Config>)
    ensures ConfigKey !in st || st[ConfigKey] == [] ==> r == None
  {
    if ConfigKey !in st || st[ConfigKey] == [] then None
    else codec.decode(st[ConfigKey])
  }

  /** `getCompleteConfig`: the stored configuration with the stored credentials put back, when both are present. */
  function CompleteConfigIn(st: Store, configs: Codec<Config>, creds: Codec<Credentials>): (r: Option<Config>)
    ensures r.Some? <==> ConfigIn(st, configs).Some? && CredentialsIn(st, creds).Some?
    ensures r.Some? ==> r.value == ConfigIn(st, configs).value.(credentials := CredentialsIn(st, creds))
  {
    match (ConfigIn(st, configs), CredentialsIn(st, creds))
    case (Some(config), Some(c)) => Some(config.(credentials := Some(c)))
    case _ => None
  }

  /** `storeLastConnectionTest`: the result's JSON with the current time as its timestamp. */
  function PutLastTest(st: Store, codec: Codec<ConnectionTestRecord>, result: ConnectionTestRecord, now: int): (r: Store)
    ensures LastTestKey in r && r[LastTestKey] == codec.encode(result.(timestamp := Some(now)))
    ensures forall k :: k != LastTestKey ==> (k in r <==> k in st)
    ensures forall k :: k != LastTestKey && k in st ==> r[k] == st[k]
  {
    st[LastTestKey := codec.encode(result.(timestamp := Some(now)))]
  }

  /** A stored result is stale once more than an hour has passed; a result without a timestamp never is. */
  predicate Stale(result: ConnectionTestRecord, now: int) {
    result.timestamp.Some? && now - result.timestamp.value > OneHour
  }

  /** `getLastConnectionTest`: the parsed result unless it is missing, unparseable or stale. */
  function LastTestIn(st: Store, codec: Codec<ConnectionTestRecord>, now: int): (r: Option<ConnectionTestRecord>)
    ensures r.Some? ==> !Stale(r.value, now)
    ensures LastTestKey !in st || st[LastTestKey] == [] ==> r == None
  {
    if LastTestKey !in st || st[LastTestKey] == [] then None
    else match codec.decode(st[LastTestKey])
      case Some(result) => if Stale(result, now) then None else Some(result)
      case None => None
  }

  /** `clearAll`: the three keys of the plugin go; nothing else changes. */
  function ClearAll(st: Store): (r: Store)
    ensures ConfigKey !in r && CredentialsKey !in r && LastTestKey !in r
    ensures forall k :: k !in {ConfigKey, CredentialsKey, LastTestKey} ==> (k in r <==> k in st)
    ensures forall k :: k in r ==> r[k] == st[k]
  {
    st - {ConfigKey, CredentialsKey, LastTestKey}
  }

  /** `isConfigured`: the complete configuration has a truthy token, owner and repository name. */
  function Configured(st: Store, configs: Codec<Config>, creds: Codec<Credentials>): (r: bool)
    ensures r <==>
      && ConfigIn(st, configs).Some? && CredentialsIn(st, creds).Some?
      && TokenTruthy(CredentialsIn(st, creds).value.token)
      && ConfigIn(st, configs).value.repository.Some?
      && ConfigIn(st, configs).value.repository.value.owner != ""
      && ConfigIn(st, configs).value.repository.value.name != ""
  {
    match CompleteConfigIn(st, configs, creds)
    case None => false
    case Some(config) =>
      && config.credentials.Some? && TokenTruthy(config.credentials.value.token)
      && config.repository.Some? && config.repository.value.owner != "" && config.repository.value.name != ""
  }

  /** `validateStoredCredentials`: the stored token is a string whose trimmed form is not empty. */
  function CredentialsValid(st: Store, creds: Codec<Credentials>): bool {
    match CredentialsIn(st, creds)
    case None => false
    case Some(c) => TokenTruthy(c.token) && c.token.TokenString? && |JsStrings.Trim(c.token.text)| > 0
  }

  // ---------------------------------------------------------------------------
  // What the operations promise together
  // ---------------------------------------------------------------------------

  /** Stored credentials come back unchanged, provided their JSON is Latin-1. */
  lemma CredentialsRoundTrip(st: Store, codec: Codec<Credentials>, c: Credentials)
    requires Lawful(codec) && IsLatin1(codec.encode(c))
    ensures PutCredentials(st, codec, c).Ok?
    ensures CredentialsIn(PutCredentials(st, codec, c).value, codec) == Some(c)
  {
    var json := codec.encode(c);
    assert codec.decode(json) == Some(c) && |json| > 0;
    EncryptDecrypt(json);
    XorKeepsLatin1(json);
  }

  /** Storing credentials fails exactly when their JSON holds a unit above 255, and then nothing is written. */
  lemma StoreCredentialsFailsIff(st: Store, codec: Codec<Credentials>, c: Credentials)
    ensures PutCredentials(st, codec, c).Err? <==> !IsLatin1(codec.encode(c))
  {
    XorKeepsLatin1(codec.encode(c));
  }

  /** The stored configuration comes back without its credentials. */
  lemma ConfigRoundTrip(st: Store, codec: Codec<Config>, config: Config)
    requires Lawful(codec)
    ensures ConfigIn(PutConfig(st, codec, config), codec) == Some(config.(credentials := None))
  {
    var json := codec.encode(config.(credentials := None));
    assert codec.decode(json) == Some(config.(credentials := None)) && |json| > 0;
  }

  /** Storing the configuration does not disturb the stored credentials or connection test. */
  lemma StoreConfigKeepsOthers(st: Store, configs: Codec<Config>, creds: Codec<Credentials>,
                               tests: Codec<ConnectionTestRecord>, config: Config, now: int)
    ensures CredentialsIn(PutConfig(st, configs, config), creds) == CredentialsIn(st, creds)
    ensures LastTestIn(PutConfig(st, configs, config), tests, now) == LastTestIn(st, tests, now)
  {
    var st' := PutConfig(st, configs, config);
    assert (CredentialsKey in st' <==> CredentialsKey in st) && (LastTestKey in st' <==> LastTestKey in st);
  }

  /** Configuration and credentials stored one after the other come back together as one configuration. */
  lemma CompleteConfigAfterStoring(st: Store, configs: Codec<Config>, creds: Codec<Credentials>,
                                   config: Config, c: Credentials)
    requires Lawful(configs) && Lawful(creds) && IsLatin1(creds.encode(c))
    ensures PutCredentials(PutConfig(st, configs, config), creds, c).Ok?
    ensures CompleteConfigIn(PutCredentials(PutConfig(st, configs, config), creds, c).value, configs, creds)
         == Some(config.(credentials := Some(c)))
  {
    var st1 := PutConfig(st, configs, config);
    ConfigRoundTrip(st, configs, config);
    CredentialsRoundTrip(st1, creds, c);
    var st2 := PutCredentials(st1, creds, c).value;
    assert st2[ConfigKey] == st1[ConfigKey];
    assert ConfigIn(st2, configs) == ConfigIn(st1, configs);
  }

  /** What `isConfigured` says right after a complete configuration has been stored. */
  lemma ConfiguredAfterStoring(st: Store, configs: Codec<Config>, creds: Codec<Credentials>,
                               config: Config, c: Credentials)
    requires Lawful(configs) && Lawful(creds) && IsLatin1(creds.encode(c))
    ensures PutCredentials(PutConfig(st, configs, config), creds, c).Ok?
    ensures Configured(PutCredentials(PutConfig(st, configs, config), creds, c).value, configs, creds)
        <==> TokenTruthy(c.token) && config.repository.Some?
             && config.repository.value.owner != "" && config.repository.value.name != ""
  {
    CompleteConfigAfterStoring(st, configs, creds, config, c);
  }

  /** The stored credentials' token is a string with a character other than white space. */
  lemma CredentialsValidIff(st: Store, creds: Codec<Credentials>)
    ensures CredentialsValid(st, creds) <==>
      && CredentialsIn(st, creds).Some?
      && CredentialsIn(st, creds).value.token.TokenString?
      && exists i :: 0 <= i < |CredentialsIn(st, creds).value.token.text|
                  && !JsStrings.IsJsWhitespace(CredentialsIn(st, creds).value.token.text[i])
  {
    match CredentialsIn(st, creds)
    case None =>
    case Some(c) =>
      if c.token.TokenString? {
        JsStrings.TrimNonEmpty(c.token.text);
      }
  }

  /** A stored connection test comes back, with its timestamp, for an hour and no longer. */
  lemma LastTestFreshness(st: Store, codec: Codec<ConnectionTestRecord>, result: ConnectionTestRecord,
                          storedAt: int, now: int)
    requires Lawful(codec)
    ensures LastTestIn(PutLastTest(st, codec, result, storedAt), codec, now)
         == if now - storedAt > OneHour then None else Some(result.(timestamp := Some(storedAt)))
  {
    var json := codec.encode(result.(timestamp := Some(storedAt)));
    assert codec.decode(json) == Some(result.(timestamp := Some(storedAt))) && |json| > 0;
  }

  /** Exactly one hour after storing, the result still counts as fresh. */
  lemma FreshAtExactlyOneHour(st: Store, codec: Codec<ConnectionTestRecord>, result: ConnectionTestRecord, storedAt: int)
    requires Lawful(codec)
    ensures LastTestIn(PutLastTest(st, codec, result, storedAt), codec, storedAt + OneHour).Some?
    ensures LastTestIn(PutLastTest(st, codec, result, storedAt), codec, storedAt + OneHour + 1).None?
  {
    LastTestFreshness(st, codec, result, storedAt, storedAt + OneHour);
    LastTestFreshness(st, codec, result, storedAt, storedAt + OneHour + 1);
  }

  /** After `clearAll` every getter finds nothing and the plugin is not configured. */
  lemma ClearAllForgets(st: Store, configs: Codec<Config>, creds: Codec<Credentials>,
                        tests: Codec<ConnectionTestRecord>, now: int)
    ensures ConfigIn(ClearAll(st), configs) == None
    ensures CredentialsIn(ClearAll(st), creds) == None
    ensures CompleteConfigIn(ClearAll(st), configs, creds) == None
    ensures LastTestIn(ClearAll(st), tests, now) == None
    ensures !Configured(ClearAll(st), configs, creds) && !CredentialsValid(ClearAll(st), creds)
  {
  }

  // ---------------------------------------------------------------------------
  // The storage object
  // ---------------------------------------------------------------------------

  /**
   * `SecureStorage` over the host's client storage, which `store` holds;
   * the `now` parameters stand for `Date.now()` and the codecs for JSON.
   */
  class SecureStorage {
    var store: Store
    const configs: Codec<Config>
    const creds: Codec<Credentials>
    const tests: Codec<ConnectionTestRecord>

    constructor(initial: Store, configs: Codec<Config>, creds: Codec<Credentials>, tests: Codec<ConnectionTestRecord>)
      ensures store == initial && this.configs == configs && this.creds == creds && this.tests == tests
    {
      store := initial;
      this.configs := configs;
      this.creds := creds;
      this.tests := tests;
    }

    /** Throws (`Fail`) with the plugin's message when encryption fails, leaving the store as it was. */
    method StoreCredentials(c: Credentials) returns (outcome: Outcome<string>)
      modifies this
      ensures PutCredentials(old(store), creds, c).Ok? ==> outcome == Pass && store == PutCredentials(old(store), creds, c).value
      ensures PutCredentials(old(store), creds, c).Err? ==> outcome == Fail(StoreCredentialsFailure) && store == old(store)
    {
      var encrypted := Encrypt(creds.encode(c));
      if encrypted.Err? {
        return Fail(StoreCredentialsFailure);
      }
      store := store[CredentialsKey := encrypted.value];
      outcome := Pass;
    }

    method GetCredentials() returns (r: Option<Credentials>)
      ensures r == CredentialsIn(store, creds)
    {
      if CredentialsKey !in store || store[CredentialsKey] == [] {
        return None;
      }
      var decrypted := Decrypt(store[CredentialsKey]);
      if decrypted.Err? {
        return None;
      }
      r := creds.decode(decrypted.value);
    }

    method StoreConfig(config: Config)
      modifies this
      ensures store == PutConfig(old(store), configs, config)
    {
      var withoutCredentials := config.(credentials := None);
      store := store[ConfigKey := configs.encode(withoutCredentials)];
    }

    method GetConfig() returns (r: Option<Config>)
      ensures r == ConfigIn(store, configs)
    {
      if ConfigKey !in store || store[ConfigKey] == [] {
        return None;
      }
      r := configs.decode(store[ConfigKey]);
    }

    method GetCompleteConfig() returns (r: Option<Config>)
      ensures r == CompleteConfigIn(store, configs, creds)
    {
      var config := GetConfig();
      var credentials := GetCredentials();
      if config.None? || credentials.None? {
        return None;
      }
      r := Some(config.value.(credentials := credentials));
    }

    method StoreLastConnectionTest(result: ConnectionTestRecord, now: int)
      modifies this
      ensures store == PutLastTest(old(store), tests, result, now)
    {
      store := store[LastTestKey := tests.encode(result.(timestamp := Some(now)))];
    }

    method GetLastConnectionTest(now: int) returns (r: Option<ConnectionTestRecord>)
      ensures r == LastTestIn(store, tests, now)
    {
      if LastTestKey !in store || store[LastTestKey] == [] {
        return None;
      }
      var result := tests.decode(store[LastTestKey]);
      if result.None? {
        return None;
      }
      if result.value.timestamp.Some? && now - result.value.timestamp.value > OneHour {
        return None;
      }
      r := result;
    }

    method ClearAllKeys()
      modifies this
      ensures store == ClearAll(old(store))
    {
      store := store - {ConfigKey, CredentialsKey, LastTestKey};
    }

    method IsConfigured() returns (r: bool)
      ensures r == Configured(store, configs, creds)
    {
      var config := GetCompleteConfig();
      r := config.Some? && config.value.credentials.Some? && TokenTruthy(config.value.credentials.value.token)
        && config.value.repository.Some? && config.value.repository.value.owner != ""
        && config.value.repository.value.name != "";
    }

    method ValidateStoredCredentials() returns (r: bool)
      ensures r == CredentialsValid(store, creds)
    {
      var credentials := GetCredentials();
      r := credentials.Some? && TokenTruthy(credentials.value.token) && credentials.value.token.TokenString?
        && |JsStrings.Trim(credentials.value.token.text)| > 0;
    }
  }
}
