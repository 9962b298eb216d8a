/** The health prober `CheckProxy` (app.go:210-308). The two HTTP requests it
    sends through the candidate proxy are not performed here: what the network
    answered to each of them is an input (`ProbeEnv`), and the model decides the
    `CheckResult` from those answers exactly as the Go code does. */
module Prober {
  import opened Text
  import opened Types

  /** The two upstream kinds: SOCKS5, or an HTTP proxy for anything else. */
  datatype Transport = Socks5 | HttpProxy

  /** `strings.ToLower(protocol) == "socks5"` picks the SOCKS5 transport. */
  function TransportFor(protocol: string): Transport {
    if ToLower(protocol) == "socks5" then Socks5 else HttpProxy
  }

  /** The two fields decoded from the geolocation endpoint's JSON. */
  datatype GeoData = GeoData(status: string, countryCode: string)

  /** What strategy A (http://ip-api.com/json/...) got back: a transport
      error, or a response with its status code and the decoded body
      (`None` when JSON decoding failed). */
  datatype PrimaryOutcome = PrimaryError | PrimaryResponse(statusCode: int, decoded: Option<GeoData>)

  /** What strategy B (https://api.ipify.org) got back. */
  datatype FallbackOutcome = FallbackError | FallbackResponse(statusCode: int)

  /** Everything `CheckProxy` learns from the outside world: whether the
      SOCKS5 dialer or the proxy URL could be built, the answers of the two
      strategies, and the elapsed milliseconds read at each success return. */
  datatype ProbeEnv = ProbeEnv(
    socksDialerOk: bool,
    proxyUrlOk: bool,
    primary: PrimaryOutcome,
    fallback: FallbackOutcome,
    msAtPrimary: nat,
    msAtFallback: nat)

  /** The transport for `protocol` could be built (app.go:220-241). */
  predicate TransportBuilt(protocol: string, env: ProbeEnv) {
    match TransportFor(protocol)
    case Socks5 => env.socksDialerOk
    case HttpProxy => env.proxyUrlOk
  }

  /** Strategy A succeeds: no error, status 200, JSON decoded, and either
      `status == "success"` or a non-empty country code (app.go:263-274). */
  predicate PrimaryAccepts(o: PrimaryOutcome) {
    o.PrimaryResponse? && o.statusCode == 200 && o.decoded.Some?
    && (o.decoded.value.status == "success" || o.decoded.value.countryCode != "")
  }

  /** Strategy B succeeds: no error and status 200 (app.go:291-294). */
  predicate FallbackAccepts(o: FallbackOutcome) {
    o.FallbackResponse? && o.statusCode == 200
  }

  /** `App.CheckProxy`. Strategy B is only consulted when A did not
      succeed; when neither succeeds, or the transport cannot be built, the
      result is `{0, false, ""}`. */
  function CheckProxy(ip: string, port: string, protocol: string, env: ProbeEnv): (r: CheckResult)
    ensures r.success <==> TransportBuilt(protocol, env) && (PrimaryAccepts(env.primary) || FallbackAccepts(env.fallback))
    ensures r.success && PrimaryAccepts(env.primary) ==>
              r == CheckResult(env.msAtPrimary, true, env.primary.decoded.value.countryCode)
    ensures r.success && !PrimaryAccepts(env.primary) ==> r == CheckResult(env.msAtFallback, true, "UN")
    ensures !r.success ==> r == CheckFailed
    ensures r.latency >= 0
  {
    if !TransportBuilt(protocol, env) then CheckFailed
    else if env.primary.PrimaryResponse? && env.primary.statusCode == 200 && env.primary.decoded.Some?
            && (env.primary.decoded.value.status == "success" || env.primary.decoded.value.countryCode != "")
    then CheckResult(env.msAtPrimary, true, env.primary.decoded.value.countryCode)
    else if env.fallback.FallbackResponse? && env.fallback.statusCode == 200
    then CheckResult(env.msAtFallback, true, "UN")
    else CheckFailed
  }

  /** Strategy A's success hides strategy B: whatever B would have answered
      does not change the result. */
  lemma PrimaryWins(ip: string, port: string, protocol: string, env: ProbeEnv, other: FallbackOutcome, msB: nat)
    requires PrimaryAccepts(env.primary)
    ensures CheckProxy(ip, port, protocol, env) == CheckProxy(ip, port, protocol, env.(fallback := other, msAtFallback := msB))
  {
  }
}
