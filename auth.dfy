/** `AuthService`: the API-key format check that makes the service ready, and the
    headers that authenticate calls to the HTTP API. */
module Auth {
  import opened Wrappers
  import opened Js
  import opened ServerConfig

  const KeyPrefix: string := "da_"

  const InvalidKeyMessage: string := "Invalid API key format. API key should start with \"da_\""

  /** `apiKey.startsWith('da_')`. */
  predicate HasKeyPrefix(apiKey: string) {
    StartsWith(apiKey, KeyPrefix)
  }

  class AuthService {
    const config: Config
    var ready: bool

    constructor (config: Config)
      ensures this.config == config
      ensures !ready
    {
      this.config := config;
      ready := false;
    }

    /** Rejects a key without the `da_` prefix and leaves `ready` as it was;
        otherwise the service becomes ready. */
    method Initialize() returns (r: Outcome<Exception>)
      modifies this
      ensures HasKeyPrefix(config.apiKey) ==> r == Pass && ready
      ensures !HasKeyPrefix(config.apiKey) ==> r == Fail(Error(InvalidKeyMessage)) && ready == old(ready)
    {
      if !HasKeyPrefix(config.apiKey) {
        return Fail(Error(InvalidKeyMessage));
      }
      ready := true;
      r := Pass;
    }

    function IsReady(): bool
      reads this
    {
      ready
    }

    method Close()
      modifies this
      ensures !ready && !IsReady()
    {
      ready := false;
    }

    /** Exactly two headers: a bearer token from which the configured key can be read
        back, and the JSON content type. */
    function GetAuthHeaders(): (h: map<string, string>)
      ensures h.Keys == {"Authorization", "Content-Type"}
      ensures StartsWith(h["Authorization"], "Bearer ") && h["Authorization"][7..] == config.apiKey
      ensures h["Content-Type"] == "application/json"
    {
      map["Authorization" := "Bearer " + config.apiKey, "Content-Type" := "application/json"]
    }
  }

  /** A fresh service is not ready; initializing with a well-formed key makes it ready
      and closing it afterwards makes it not ready again. */
  method ReadinessLifecycle(config: Config) returns (afterInit: bool, afterClose: bool)
    requires HasKeyPrefix(config.apiKey)
    ensures afterInit && !afterClose
  {
    var service := new AuthService(config);
    assert !service.IsReady();
    var _ := service.Initialize();
    afterInit := service.IsReady();
    service.Close();
    afterClose := service.IsReady();
  }
}
