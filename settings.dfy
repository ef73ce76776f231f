/**
 * The settings store: a key/value table over a fixed schema of keys
 * (`Config.DEFAULT_CONFIG`). Reads fall back to the defaults, writes to
 * keys outside the schema are ignored, loading merges only schema keys,
 * and a reset restores every default.
 *
 * The settings file is abstracted: loading takes the parsed file (or
 * `None` when it is absent or does not decode) as an argument, and saving
 * records the written snapshot in a ghost field.
 */
module Settings {
  import opened Wrappers
  import PyText

  /** A settings value. The settings dialog stores strings, ints and floats; floats are modelled as reals. */
  datatype Value = Str(s: string) | Int(i: int) | Real(r: real)

  /** The value as a number in Python arithmetic; `None` where arithmetic on it raises `TypeError`. */
  function Number(v: Value): (x: Option<real>)
    ensures x.Some? <==> !v.Str?
  {
    match v
    case Int(i) => Some(i as real)
    case Real(r) => Some(r)
    case Str(_) => None
  }

  /** The keys of `DEFAULT_CONFIG`, the schema of the settings table. */
  datatype Key =
    | ApiKey | ApiEndpoint | Model
    | MaxTokens | RequestDelaySeconds | RefractorySeconds | RequestTimeout
    | InputPricePerMillion | OutputPricePerMillion
    | HttpReferer | XTitle | SystemPrompt | DefaultUserPrompt

  /** The key's name, as `get`, `set` and the settings file spell it. */
  function Name(k: Key): string {
    match k
    case ApiKey => "api_key"
    case ApiEndpoint => "api_endpoint"
    case Model => "model"
    case MaxTokens => "max_tokens"
    case RequestDelaySeconds => "request_delay_seconds"
    case RefractorySeconds => "refractory_seconds"
    case RequestTimeout => "request_timeout"
    case InputPricePerMillion => "input_price_per_million"
    case OutputPricePerMillion => "output_price_per_million"
    case HttpReferer => "http_referer"
    case XTitle => "x_title"
    case SystemPrompt => "system_prompt"
    case DefaultUserPrompt => "default_user_prompt"
  }

  /** `DEFAULT_CONFIG[k]`. A `max_tokens` of 0 means "no limit". */
  function Default(k: Key): Value {
    match k
    case ApiKey => Str("")
    case ApiEndpoint => Str("https://openrouter.ai/api/v1/chat/completions")
    case Model => Str("openai/o1-pro")
    case MaxTokens => Int(0)
    case RequestDelaySeconds => Int(1)
    case RefractorySeconds => Int(300)
    case RequestTimeout => Int(30)
    case InputPricePerMillion => Int(150)
    case OutputPricePerMillion => Int(600)
    case HttpReferer => Str("https://llm-api-testing-client.github.io")
    case XTitle => Str("LLM API Testing Client")
    case SystemPrompt => Str("You are a helpful assistant.")
    case DefaultUserPrompt => Str("Write an essay on why API keys should be kept private.")
  }

  /**
   * The texts default to strings and the rest to integers; every numeric
   * default is positive except `max_tokens`, whose 0 means "no limit".
   */
  lemma DefaultKinds(k: Key)
    ensures Default(k).Str? <==> k in {ApiKey, ApiEndpoint, Model, HttpReferer, XTitle, SystemPrompt, DefaultUserPrompt}
    ensures !Default(k).Str? ==> Default(k).Int?
    ensures Default(k).Int? ==> (Default(k).i > 0 <==> k != MaxTokens)
    ensures k == MaxTokens ==> Default(k) == Int(0)
  {
  }

  /** The keys in declaration order, the order `load_config` visits them. */
  const Keys: seq<Key> := [
    ApiKey, ApiEndpoint, Model,
    MaxTokens, RequestDelaySeconds, RefractorySeconds, RequestTimeout,
    InputPricePerMillion, OutputPricePerMillion,
    HttpReferer, XTitle, SystemPrompt, DefaultUserPrompt
  ]

  /** `Keys` lists every key of the schema exactly once. */
  lemma KeysEnumerateSchema()
    ensures forall k: Key :: k in Keys
    ensures forall i, j :: 0 <= i < j < |Keys| ==> Keys[i] != Keys[j]
  {
    forall k: Key ensures k in Keys {
      match k
      case ApiKey => assert Keys[0] == k;
      case ApiEndpoint => assert Keys[1] == k;
      case Model => assert Keys[2] == k;
      case MaxTokens => assert Keys[3] == k;
      case RequestDelaySeconds => assert Keys[4] == k;
      case RefractorySeconds => assert Keys[5] == k;
      case RequestTimeout => assert Keys[6] == k;
      case InputPricePerMillion => assert Keys[7] == k;
      case OutputPricePerMillion => assert Keys[8] == k;
      case HttpReferer => assert Keys[9] == k;
      case XTitle => assert Keys[10] == k;
      case SystemPrompt => assert Keys[11] == k;
      case DefaultUserPrompt => assert Keys[12] == k;
    }
  }

  /** `key in DEFAULT_CONFIG`: the schema key a name denotes, `None` for any other name. */
  function KeyOf(name: string): (k: Option<Key>)
    ensures k.Some? ==> Name(k.value) == name
  {
    if name == "api_key" then Some(ApiKey)
    else if name == "api_endpoint" then Some(ApiEndpoint)
    else if name == "model" then Some(Model)
    else if name == "max_tokens" then Some(MaxTokens)
    else if name == "request_delay_seconds" then Some(RequestDelaySeconds)
    else if name == "refractory_seconds" then Some(RefractorySeconds)
    else if name == "request_timeout" then Some(RequestTimeout)
    else if name == "input_price_per_million" then Some(InputPricePerMillion)
    else if name == "output_price_per_million" then Some(OutputPricePerMillion)
    else if name == "http_referer" then Some(HttpReferer)
    else if name == "x_title" then Some(XTitle)
    else if name == "system_prompt" then Some(SystemPrompt)
    else if name == "default_user_prompt" then Some(DefaultUserPrompt)
    else None
  }

  /** Names and keys are in one-to-one correspondence: `KeyOf` reads back every key's name. */
  lemma KeyOfName(k: Key)
    ensures KeyOf(Name(k)) == Some(k)
  {
    var n := Name(k);
    assert |n| == 7 ==> n == "api_key" || n == "x_title";
    assert |n| == 12 ==> n == "api_endpoint" || n == "http_referer";
  }

  /** A name is outside the schema exactly when no key has it. */
  lemma UnknownName(name: string)
    ensures KeyOf(name) == None <==> forall k: Key :: Name(k) != name
  {
    forall k: Key | Name(k) == name ensures KeyOf(name) == Some(k) {
      KeyOfName(k);
    }
  }

  /** A table over the schema holds every key. */
  predicate Complete(cfg: map<Key, Value>) {
    forall k: Key :: k in cfg
  }

  /** `DEFAULT_CONFIG` as a table. */
  const DefaultTable: map<Key, Value> := map k | k in Keys :: Default(k)

  lemma DefaultTableIsDefault()
    ensures Complete(DefaultTable)
    ensures forall k: Key :: DefaultTable[k] == Default(k)
  {
    KeysEnumerateSchema();
  }

  /** The value key `k` reads as in `cfg`: the stored value, else the default. */
  function Setting(cfg: map<Key, Value>, k: Key): (v: Value)
    ensures k in cfg ==> v == cfg[k]
    ensures k !in cfg ==> v == Default(k)
  {
    if k in cfg then cfg[k] else Default(k)
  }

  /**
   * `config.get(name)` over a table `cfg`: `None` exactly for a name
   * outside the schema.
   */
  function Lookup(cfg: map<Key, Value>, name: string): (v: Option<Value>)
    ensures v.Some? <==> KeyOf(name).Some?
  {
    match KeyOf(name)
    case Some(k) => Some(Setting(cfg, k))
    case None => None
  }

  /** `get` by a key's name reads that key's setting. */
  lemma LookupByName(cfg: map<Key, Value>, k: Key)
    ensures Lookup(cfg, Name(k)) == Some(Setting(cfg, k))
  {
    KeyOfName(k);
  }

  /** `get` of a name no key has reads `None`. */
  lemma LookupUnknown(cfg: map<Key, Value>, name: string)
    requires forall k: Key :: Name(k) != name
    ensures Lookup(cfg, name) == None
  {
    UnknownName(name);
  }

  /**
   * Python's f-string rendering `f"{v}"`. Float rendering (`repr` of a
   * double) is foreign to the model and is passed in as `floatText`.
   */
  function Format(v: Value, floatText: real -> string): (text: string)
    ensures v.Str? ==> text == v.s
    ensures v.Int? ==> PyText.ParseInt(text) == Some(v.i)
    ensures v.Real? ==> text == floatText(v.r)
  {
    match v
    case Str(s) => s
    case Int(i) => PyText.ParseIntToString(i); PyText.IntToString(i)
    case Real(r) => floatText(r)
  }

  /** The name of every header `get_headers` produces. */
  const HeaderNames: set<string> := {"Authorization", "HTTP-Referer", "X-Title", "Content-Type"}

  /**
   * The headers `get_headers` builds from a table: the bearer token, the
   * two attribution headers and the content type.
   */
  function Headers(cfg: map<Key, Value>, floatText: real -> string): (headers: map<string, Value>)
    ensures headers.Keys == HeaderNames
    ensures headers["Authorization"] == Str("Bearer " + Format(Setting(cfg, ApiKey), floatText))
    ensures headers["HTTP-Referer"] == Setting(cfg, HttpReferer)
    ensures headers["X-Title"] == Setting(cfg, XTitle)
    ensures headers["Content-Type"] == Str("application/json")
  {
    map[
      "Authorization" := Str("Bearer " + Format(Setting(cfg, ApiKey), floatText)),
      "HTTP-Referer" := Setting(cfg, HttpReferer),
      "X-Title" := Setting(cfg, XTitle),
      "Content-Type" := Str("application/json")
    ]
  }

  class Config {
    /** `_config`: the current table. */
    var entries: map<Key, Value>
    /** The table the last `save_config` wrote, `None` before the first save. */
    ghost var saved: Option<map<Key, Value>>

    /** The table always holds every key of the schema. */
    ghost predicate Valid()
      reads this
    {
      Complete(entries)
    }

    /**
     * `Config()`: start from the defaults, then load the settings file,
     * given as its parsed contents (`None` when it is absent or does not
     * decode).
     */
    constructor (file: Option<map<string, Value>>)
      ensures Valid() && saved == None
      ensures forall k: Key :: entries[k] == if file.Some? && Name(k) in file.value then file.value[Name(k)] else Default(k)
    {
      DefaultTableIsDefault();
      entries := DefaultTable;
      saved := None;
      new;
      LoadConfig(file);
    }

    /**
     * `load_config`: every key whose name the loaded file holds takes the
     * file's value; other keys keep theirs, and other names in the file are
     * ignored.
     */
    method LoadConfig(file: Option<map<string, Value>>)
      requires Valid()
      modifies this`entries
      ensures Valid()
      ensures forall k: Key :: entries[k] == if file.Some? && Name(k) in file.value then file.value[Name(k)] else old(entries)[k]
    {
      if file.Some? {
        var loaded := file.value;
        KeysEnumerateSchema();
        for i := 0 to |Keys|
          invariant Valid()
          invariant forall k: Key :: entries[k] == if k in Keys[..i] && Name(k) in loaded then loaded[Name(k)] else old(entries)[k]
        {
          var key := Keys[i];
          if Name(key) in loaded {
            entries := entries[key := loaded[Name(key)]];
          }
          assert Keys[..i + 1] == Keys[..i] + [key];
        }
        assert Keys[..|Keys|] == Keys;
      }
    }

    /** `save_config`: the file now holds the current table. */
    method SaveConfig()
      modifies this`saved
      ensures saved == Some(entries)
    {
      saved := Some(entries);
    }

    /** `get`: the setting of the key a schema name denotes, `None` for any other name. */
    function Get(name: string): (v: Option<Value>)
      reads this
      ensures KeyOf(name).Some? ==> v == Some(Read(KeyOf(name).value))
      ensures KeyOf(name).None? ==> v == None
    {
      Lookup(entries, name)
    }

    /** `get(Name(k))` for a schema key `k`, which never reads `None` (`LookupByName`). */
    function Read(k: Key): Value
      reads this
    {
      Setting(entries, k)
    }

    /**
     * `set`: a schema name's key takes the new value, so that it reads
     * back; any other name is silently ignored; no other name changes.
     */
    method Set(name: string, value: Value)
      requires Valid()
      modifies this`entries
      ensures Valid()
      ensures KeyOf(name).Some? ==> entries == old(entries)[KeyOf(name).value := value]
      ensures KeyOf(name).None? ==> entries == old(entries)
      ensures KeyOf(name).Some? ==> Get(name) == Some(value)
      ensures forall n :: n != name ==> Get(n) == old(Get(n))
    {
      match KeyOf(name) {
        case Some(k) => entries := entries[k := value];
        case None =>
      }
    }

    /**
     * `get_headers`, over the current table: the headers carry what
     * `get('api_key')`, `get('http_referer')` and `get('x_title')` read now.
     */
    function GetHeaders(floatText: real -> string): (headers: map<string, Value>)
      reads this
      ensures headers.Keys == HeaderNames
      ensures headers["Authorization"] == Str("Bearer " + Format(Read(ApiKey), floatText))
      ensures headers["HTTP-Referer"] == Read(HttpReferer)
      ensures headers["X-Title"] == Read(XTitle)
      ensures headers["Content-Type"] == Str("application/json")
      ensures headers == Headers(entries, floatText)
    {
      Headers(entries, floatText)
    }

    /** `reset_to_defaults`: every key reads its default again, and the defaults are saved. */
    method ResetToDefaults()
      modifies this
      ensures Valid()
      ensures entries == DefaultTable && saved == Some(DefaultTable)
      ensures forall k: Key :: Get(Name(k)) == Some(Default(k))
    {
      DefaultTableIsDefault();
      entries := DefaultTable;
      SaveConfig();
      forall k: Key ensures Get(Name(k)) == Some(Default(k)) {
        LookupByName(entries, k);
      }
    }
  }

  /**
   * The key of a string-valued `api_key` can be read back from the
   * Authorization header: it is what follows the seven characters "Bearer ".
   */
  lemma BearerCarriesKey(cfg: map<Key, Value>, key: string, floatText: real -> string)
    requires Setting(cfg, ApiKey) == Str(key)
    ensures var auth := Headers(cfg, floatText)["Authorization"];
      auth.Str? && |auth.s| == 7 + |key| && auth.s[..7] == "Bearer " && auth.s[7..] == key
  {
  }

  /** The default table authenticates with an empty key: the header is "Bearer " alone. */
  lemma DefaultHeaders(floatText: real -> string)
    ensures Headers(DefaultTable, floatText)["Authorization"] == Str("Bearer ")
    ensures Headers(DefaultTable, floatText)["X-Title"] == Str("LLM API Testing Client")
  {
    assert Keys[0] == ApiKey && Keys[10] == XTitle;
    assert Setting(DefaultTable, ApiKey) == Str("");
    assert Setting(DefaultTable, XTitle) == Str("LLM API Testing Client");
  }
}
