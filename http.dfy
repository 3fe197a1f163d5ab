/** Shared HTTP client options (backend/app/core/http.py). */
module Http {
  import opened Wrappers

  /** A keyword-argument value passed on to the HTTP client. */
  datatype KwValue = Timeout(seconds: real) | Text(s: string) | Flag(b: bool)

  const DefaultTimeoutSeconds: real := 30.0

  /** A configured proxy URL counts only when it is a non-empty string (Python truthiness). */
  predicate ProxyConfigured(proxyUrl: Option<string>) {
    proxyUrl.Some? && proxyUrl.value != ""
  }

  /**
   * `httpx_client_kwargs`: copies the caller's arguments, adds the 30 s
   * default timeout when none was given and the configured proxy when the
   * caller gave no `proxies` of its own. The caller's map is a value and is
   * never changed; every key it had keeps its value.
   */
  method ClientKwargs(kwargs: map<string, KwValue>, proxyUrl: Option<string>) returns (r: map<string, KwValue>)
    ensures "timeout" in r
    ensures r["timeout"] == if "timeout" in kwargs then kwargs["timeout"] else Timeout(DefaultTimeoutSeconds)
    ensures "proxies" in r <==> "proxies" in kwargs || ProxyConfigured(proxyUrl)
    ensures "proxies" !in kwargs && ProxyConfigured(proxyUrl) ==> r["proxies"] == Text(proxyUrl.value)
    ensures forall k :: k in kwargs ==> k in r && r[k] == kwargs[k]
    ensures forall k :: k in r && k !in kwargs ==> k == "timeout" || k == "proxies"
  {
    var clientKwargs := kwargs;
    if "timeout" !in clientKwargs {
      clientKwargs := clientKwargs["timeout" := Timeout(DefaultTimeoutSeconds)];
    }
    if ProxyConfigured(proxyUrl) && "proxies" !in clientKwargs {
      clientKwargs := clientKwargs["proxies" := Text(proxyUrl.value)];
    }
    r := clientKwargs;
  }
}
