/** The authentication headers of `src/lib/auth.js` and its key-format check. */
module LibAuth {
  import opened Wrappers
  import opened JsValues
  import opened Http
  import opened LibConfig

  /** The three headers every API request carries, or the key resolution's error. */
  function GetAuthHeaders(config: ConfigStore): (r: Result<map<string, string>, Error>)
    reads config
    ensures r.Success? <==> config.GetApiKey().Success?
    ensures r.Success? ==> r.value.Keys == {"X-API-KEY", "Accept", "Content-Type"}
    ensures r.Success? ==> r.value["X-API-KEY"] == config.GetApiKey().value && r.value["X-API-KEY"] != ""
    ensures r.Success? ==> r.value["Accept"] == "application/json" && r.value["Content-Type"] == "application/json"
    ensures r.Failure? ==> r.error == config.GetApiKey().error
  {
    match config.GetApiKey()
    case Failure(e) => Failure(e)
    case Success(apiKey) =>
      Success(map["X-API-KEY" := apiKey, "Accept" := "application/json", "Content-Type" := "application/json"])
  }

  /** `validateApiKeyFormat(v)`: a string of at least 20 characters; any other value fails. */
  function ValidateApiKeyFormat(v: Json): (ok: bool)
    ensures ok <==> v.JStr? && |v.s| >= 20
  {
    match v
    case JStr(s) => |s| >= 20
    case _ => false
  }
}
