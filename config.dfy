/** The bridge's configuration record and the normalization the server's constructor
    applies to it before handing it to every collaborator. */
module ServerConfig {
  import opened Wrappers

  /** `MCPServerConfig`. An optional member that is absent is `None`; numbers are
      integers (a `NaN` from a failed environment parse behaves like `None`). */
  datatype Config = Config(
    apiUrl: string,
    apiKey: string,
    wsUrl: Option<string>,
    debug: Option<bool>,
    requestTimeout: Option<int>,
    maxRetries: Option<int>,
    retryDelay: Option<int>)

  const DefaultRequestTimeout: int := 30000
  const DefaultMaxRetries: int := 3
  const DefaultRetryDelay: int := 1000

  /** `x || d` for an optional string. */
  function OrText(x: Option<string>, d: string): string {
    if x.Some? && x.value != "" then x.value else d
  }

  /** `x || d` for an optional boolean. */
  function OrFlag(x: Option<bool>, d: bool): bool {
    if x.Some? && x.value then true else d
  }

  /** `x || d` for an optional number. */
  function OrNumber(x: Option<int>, d: int): int {
    if x.Some? && x.value != 0 then x.value else d
  }

  predicate StartsWith(s: string, prefix: string) {
    |prefix| <= |s| && s[..|prefix|] == prefix
  }

  /** `apiUrl.replace(/^http/, 'ws')`: a leading `http` (case-sensitive) becomes `ws`,
      so `https:` becomes `wss:`; any other string is returned as it is. */
  function DeriveWsUrl(apiUrl: string): string {
    if StartsWith(apiUrl, "http") then "ws" + apiUrl[4..] else apiUrl
  }

  /** The constructor's `{ ...config, wsUrl: …, debug: …, requestTimeout: …,
      maxRetries: …, retryDelay: … }`. */
  function Normalize(c: Config): (n: Config)
    ensures n.apiUrl == c.apiUrl && n.apiKey == c.apiKey
    ensures c.wsUrl.Some? && c.wsUrl.value != "" ==> n.wsUrl == c.wsUrl
    ensures c.wsUrl.None? || c.wsUrl == Some("") ==> n.wsUrl == Some(DeriveWsUrl(c.apiUrl))
    ensures n.debug == Some(c.debug == Some(true))
    ensures c.requestTimeout.Some? && c.requestTimeout.value != 0 ==> n.requestTimeout == c.requestTimeout
    ensures c.requestTimeout.None? || c.requestTimeout == Some(0) ==> n.requestTimeout == Some(DefaultRequestTimeout)
    ensures c.maxRetries.Some? && c.maxRetries.value != 0 ==> n.maxRetries == c.maxRetries
    ensures c.maxRetries.None? || c.maxRetries == Some(0) ==> n.maxRetries == Some(DefaultMaxRetries)
    ensures c.retryDelay.Some? && c.retryDelay.value != 0 ==> n.retryDelay == c.retryDelay
    ensures c.retryDelay.None? || c.retryDelay == Some(0) ==> n.retryDelay == Some(DefaultRetryDelay)
  {
    c.(wsUrl := Some(OrText(c.wsUrl, DeriveWsUrl(c.apiUrl))),
       debug := Some(OrFlag(c.debug, false)),
       requestTimeout := Some(OrNumber(c.requestTimeout, DefaultRequestTimeout)),
       maxRetries := Some(OrNumber(c.maxRetries, DefaultMaxRetries)),
       retryDelay := Some(OrNumber(c.retryDelay, DefaultRetryDelay)))
  }

  /** Both schemes the API can use map onto their socket counterparts, and the rest
      of the address is kept character for character. */
  lemma DeriveWsUrlSchemes(rest: string)
    ensures DeriveWsUrl("http" + rest) == "ws" + rest
    ensures DeriveWsUrl("https" + rest) == "wss" + rest
  {
    HttpPrefixReplaced(rest);
    assert "https" + rest == "http" + ("s" + rest);
    HttpPrefixReplaced("s" + rest);
    assert "ws" + ("s" + rest) == "wss" + rest;
  }

  lemma HttpPrefixReplaced(rest: string)
    ensures DeriveWsUrl("http" + rest) == "ws" + rest
  {
    var url := "http" + rest;
    assert url[..4] == "http";
    assert url[4..] == rest;
  }

  /** Only a leading `http` is replaced: an address that does not start with it comes
      back unchanged, and a replaced one keeps everything after the scheme prefix. */
  lemma DeriveWsUrlOnlyLeading(apiUrl: string)
    ensures !StartsWith(apiUrl, "http") ==> DeriveWsUrl(apiUrl) == apiUrl
    ensures StartsWith(apiUrl, "http") ==>
      |DeriveWsUrl(apiUrl)| == |apiUrl| - 2 && DeriveWsUrl(apiUrl)[2..] == apiUrl[4..]
  {
  }

  /** Normalizing twice is normalizing once: every default the constructor supplies
      is truthy or already the derived value, so a normalized record is a fixed point. */
  lemma NormalizeIdempotent(c: Config)
    ensures Normalize(Normalize(c)) == Normalize(c)
  {
    var n := Normalize(c);
    if c.wsUrl.None? || c.wsUrl == Some("") {
      assert n.wsUrl == Some(DeriveWsUrl(c.apiUrl));
    }
  }

  /** After normalization no numeric member is absent or zero, so the client's own
      `maxRetries || 3` and `retryDelay || 1000` read back the normalized values. */
  lemma NormalizedNumbersAreSet(c: Config)
    ensures Normalize(c).requestTimeout.Some? && Normalize(c).requestTimeout.value != 0
    ensures OrNumber(Normalize(c).maxRetries, DefaultMaxRetries) == Normalize(c).maxRetries.value
    ensures OrNumber(Normalize(c).retryDelay, DefaultRetryDelay) == Normalize(c).retryDelay.value
  {
  }
}
