/**
  The credential store of `src/lib/config.js`: a persisted key-value store
  with defaults taken from the environment, and the two fallback chains that
  resolve the API key and the base URL from it.
*/
module LibConfig {
  import opened Wrappers
  import opened JsValues
  import opened Http

  const DefaultBaseUrl := "https://api.billingo.hu/v3"

  const ApiKeyMissing :=
    "API key not configured. Set it with: billingo config set API_KEY <your-api-key>\n"
    + "Or set BILLINGO_API_KEY environment variable.\n"
    + "Get your API key at: https://app.billingo.hu/api-key"

  /** `BILLINGO_API_KEY` and `BILLINGO_BASE_URL` after `.env` has been loaded; unset is `None`. */
  datatype Env = Env(apiKey: Option<string>, baseUrl: Option<string>)

  /** `a || b` where `a` may be undefined or empty. */
  function Or(a: Option<string>, b: string): (r: string)
    ensures Given(a) ==> r == a.value
    ensures !Given(a) ==> r == b
  {
    if Given(a) then a.value else b
  }

  /** The defaults the store is created with. */
  function Defaults(env: Env): (d: map<string, string>)
    ensures d.Keys == {"apiKey", "baseUrl"}
    ensures d["apiKey"] == (if Given(env.apiKey) then env.apiKey.value else "")
    ensures d["baseUrl"] == (if Given(env.baseUrl) then env.baseUrl.value else DefaultBaseUrl)
    ensures d["baseUrl"] != ""
  {
    map["apiKey" := Or(env.apiKey, ""), "baseUrl" := Or(env.baseUrl, DefaultBaseUrl)]
  }

  /** The process-wide configuration store. */
  class ConfigStore {
    var store: map<string, string>
    const env: Env

    /** Opening the store lays what was persisted over the defaults. */
    constructor (persisted: map<string, string>, env: Env)
      ensures this.env == env
      ensures store == Defaults(env) + persisted
      ensures forall k :: k in persisted ==> Get(k) == Some(persisted[k])
    {
      this.env := env;
      store := Defaults(env) + persisted;
    }

    /** `getConfig(key)`: the stored value, `undefined` (None) when there is none. */
    function Get(key: string): (r: Option<string>)
      reads this
      ensures r.Some? <==> key in store
      ensures r.Some? ==> r.value == store[key]
    {
      if key in store then Some(store[key]) else None
    }

    /** `getAllConfig()`: every stored pair. */
    function GetAll(): (all: map<string, string>)
      reads this
      ensures forall k :: k in all <==> Get(k).Some?
      ensures forall k :: k in all ==> Get(k) == Some(all[k])
    {
      store
    }

    /** `setConfig(key, value)`: `key` now holds `value`, every other key what it held. */
    method Set(key: string, value: string)
      modifies this
      ensures store == old(store)[key := value]
      ensures Get(key) == Some(value)
      ensures forall k :: k != key ==> Get(k) == old(Get(k))
      ensures key == "apiKey" && value != "" ==> GetApiKey() == Success(value)
    {
      store := store[key := value];
    }

    /** `deleteConfig(key)`: `key` holds nothing any more; other keys are untouched. */
    method Delete(key: string)
      modifies this
      ensures store == old(store) - {key}
      ensures Get(key) == None
      ensures forall k :: k != key ==> Get(k) == old(Get(k))
      ensures key == "apiKey" ==> GetApiKey() == (if Given(env.apiKey) then Success(env.apiKey.value) else Failure(Error(Configuration, ApiKeyMissing)))
    {
      store := store - {key};
    }

    /** `clearConfig()`: the store holds its defaults again. */
    method Clear()
      modifies this
      ensures store == Defaults(env)
      ensures GetBaseUrl() == Or(env.baseUrl, DefaultBaseUrl)
    {
      store := Defaults(env);
    }

    /**
      `getApiKey()`: the stored key when it is non-empty, else the environment's;
      a configuration error when both are empty or unset.
    */
    function GetApiKey(): (r: Result<string, Error>)
      reads this
      ensures r.Success? <==> Given(Get("apiKey")) || Given(env.apiKey)
      ensures r.Success? ==> r.value != ""
      ensures Given(Get("apiKey")) ==> r == Success(store["apiKey"])
      ensures !Given(Get("apiKey")) && Given(env.apiKey) ==> r == Success(env.apiKey.value)
      ensures r.Failure? ==> r.error == Error(Configuration, ApiKeyMissing)
    {
      var key := if Given(Get("apiKey")) then Get("apiKey") else env.apiKey;
      if Given(key) then Success(key.value) else Failure(Error(Configuration, ApiKeyMissing))
    }

    /** `getBaseUrl()`: the stored URL, else the environment's, else the public API's; never empty. */
    function GetBaseUrl(): (r: string)
      reads this
      ensures r != ""
      ensures Given(Get("baseUrl")) ==> r == store["baseUrl"]
      ensures !Given(Get("baseUrl")) ==> r == Or(env.baseUrl, DefaultBaseUrl)
    {
      Or(Get("baseUrl"), Or(env.baseUrl, DefaultBaseUrl))
    }
  }
}
