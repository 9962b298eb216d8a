/** The local forwarding listener's request handler (app.go:566-625), the
    CONNECT tunnel set-up `handleConnect` (app.go:647-693) and the header
    helpers `cloneHeader` / `removeHopByHopHeaders` (app.go:729-746).
    Sockets are not modelled: what the dialer, the upstream proxy and the
    HTTP client answered are inputs, and the model computes what is written
    to the client and to the upstream, and whether the byte relay starts. */
module Middleware {
  import opened Text
  import opened Types
  import opened Prober

  /** `http.Header`: canonical header name to its list of values. */
  type Header = map<string, seq<string>>

  /** The hop-by-hop headers stripped before forwarding (app.go:740-743). */
  const HopByHopHeaders: seq<string> := ["Connection", "Proxy-Connection", "Keep-Alive", "Transfer-Encoding", "Upgrade"]

  /** `cloneHeader`: copies every key with its values into a fresh map. */
  method CloneHeader(h: Header) returns (out: Header)
    ensures out == h
  {
    out := map[];
    var todo := h.Keys;
    while todo != {}
      invariant todo <= h.Keys
      invariant out.Keys == h.Keys - todo
      invariant forall k :: k in out ==> out[k] == h[k]
      decreases todo
    {
      var k :| k in todo;
      out := out[k := h[k]];
      todo := todo - {k};
    }
    assert out.Keys == h.Keys;
  }

  /** `removeHopByHopHeaders`: deletes exactly the five listed keys and
      leaves every other key with its values. */
  method RemoveHopByHopHeaders(h: Header) returns (r: Header)
    ensures forall k :: k in r <==> k in h && k !in HopByHopHeaders
    ensures forall k :: k in r ==> r[k] == h[k]
  {
    r := h;
    for i := 0 to |HopByHopHeaders|
      invariant forall k :: k in r <==> k in h && k !in HopByHopHeaders[..i]
      invariant forall k :: k in r ==> r[k] == h[k]
    {
      assert HopByHopHeaders[..i + 1] == HopByHopHeaders[..i] + [HopByHopHeaders[i]];
      r := r - {HopByHopHeaders[i]};
    }
    assert HopByHopHeaders[..|HopByHopHeaders|] == HopByHopHeaders;
  }

  /** The parts of a request URL the handler looks at; `rest` stands for
      path, query and fragment, which are passed through untouched. */
  datatype Url = Url(scheme: string, host: string, rest: string)

  /** Request-target defaulting (app.go:584-590): scheme `http` and the
      `Host` header when the request line carried none. */
  function DefaultTarget(u: Url, host: string): (t: Url)
    ensures t.scheme != ""
    ensures u.scheme != "" ==> t.scheme == u.scheme
    ensures u.scheme == "" ==> t.scheme == "http"
    ensures u.host != "" ==> t.host == u.host
    ensures u.host == "" ==> t.host == host
    ensures t.rest == u.rest
  {
    var withScheme := if u.scheme == "" then u.(scheme := "http") else u;
    if withScheme.host == "" then withScheme.(host := host) else withScheme
  }

  /** Defaulting an already defaulted target changes nothing, and an
      absolute-form target is left exactly as it came. */
  lemma DefaultTargetSettles(u: Url, host: string)
    ensures DefaultTarget(DefaultTarget(u, host), host) == DefaultTarget(u, host)
    ensures u.scheme != "" && u.host != "" ==> DefaultTarget(u, host) == u
  {
  }

  /** A complete HTTP response as the client sees it. */
  datatype Response = Response(status: int, header: Header, body: string)

  /** `http.Error(w, msg, code)`: plain-text body `msg` plus a newline. */
  function HttpError(code: int, msg: string): Response {
    Response(code, map["Content-Type" := ["text/plain; charset=utf-8"], "X-Content-Type-Options" := ["nosniff"]], msg + "\n")
  }

  /** The handshake written to an HTTP upstream (app.go:674). */
  function ConnectRequest(host: string): string {
    "CONNECT " + host + " HTTP/1.1\r\nHost: " + host + "\r\n\r\n"
  }

  /** The upstream's first response line is accepted iff it contains `200`
      anywhere (app.go:678). */
  predicate HandshakeAccepted(line: string) {
    Contains(line, "200")
  }

  const Established: string := "HTTP/1.1 200 Connection Established\r\n\r\n"
  const BadGateway: string := "HTTP/1.1 502 Bad Gateway\r\n\r\n"

  /** The CONNECT handshake is a well-formed request: its lines are the
      request line naming `host` between the method and the version, the
      `Host` header naming `host`, and the empty line. */
  lemma {:induction false} ConnectRequestParses(host: string)
    requires ' ' !in host && '\n' !in host
    ensures var lines := Split(ConnectRequest(host), '\n');
      |lines| == 4 && Split(lines[0], ' ') == ["CONNECT", host, "HTTP/1.1\r"]
      && lines[1] == "Host: " + host + "\r" && lines[2] == "\r" && lines[3] == ""
  {
    var lines := ConnectRequestLines(host);
    SplitJoin(lines, '\n');
    var words := RequestLineWords(host);
    SplitJoin(words, ' ');
  }

  /** The handshake is the join of its four lines. */
  lemma ConnectRequestLines(host: string) returns (lines: seq<string>)
    requires '\n' !in host
    ensures lines == ["CONNECT " + host + " HTTP/1.1\r", "Host: " + host + "\r", "\r", ""]
    ensures ConnectRequest(host) == Join(lines, '\n')
    ensures forall k :: 0 <= k < |lines| ==> '\n' !in lines[k]
  {
    var l0 := "CONNECT " + host + " HTTP/1.1\r";
    var l1 := "Host: " + host + "\r";
    lines := [l0, l1, "\r", ""];
    Join4(l0, l1, "\r", "", '\n');
    assert " HTTP/1.1\r\nHost: " == " HTTP/1.1\r" + "\n" + "Host: ";
    assert "\r\n\r\n" == "\r" + "\n" + "\r" + "\n";
    assert ConnectRequest(host) == l0 + "\n" + l1 + "\n" + "\r" + "\n" + "";
    NoneIn3("CONNECT ", host, " HTTP/1.1\r", '\n');
    NoneIn3("Host: ", host, "\r", '\n');
  }

  /** Joining four pieces puts the separator between each pair. */
  lemma Join4(a: string, b: string, c: string, d: string, sep: char)
    ensures Join([a, b, c, d], sep) == a + [sep] + b + [sep] + c + [sep] + d
  {
    JoinCons(c, [d], sep);
    assert [c, d] == [c] + [d];
    JoinCons(b, [c, d], sep);
    assert [b, c, d] == [b] + [c, d];
    JoinCons(a, [b, c, d], sep);
    assert [a, b, c, d] == [a] + [b, c, d];
  }

  lemma NoneIn3(a: string, b: string, c: string, x: char)
    requires x !in a && x !in b && x !in c
    ensures x !in a + b + c
  {
  }

  /** The request line is the join of method, target and version. */
  lemma RequestLineWords(host: string) returns (words: seq<string>)
    requires ' ' !in host
    ensures words == ["CONNECT", host, "HTTP/1.1\r"]
    ensures "CONNECT " + host + " HTTP/1.1\r" == Join(words, ' ')
    ensures forall k :: 0 <= k < |words| ==> ' ' !in words[k]
  {
    JoinCons(host, ["HTTP/1.1\r"], ' ');
    JoinCons("CONNECT", [host, "HTTP/1.1\r"], ' ');
    words := ["CONNECT"] + [host, "HTTP/1.1\r"];
  }

  /** The acceptance test looks for `200` at any position of the line: a
      status line such as `HTTP/1.1 407 ... 200` is accepted as well as
      `HTTP/1.1 200 Connection established`. */
  lemma AcceptedByMention(before: string, after: string)
    ensures HandshakeAccepted(before + "200" + after)
  {
    var line := before + "200" + after;
    assert line[|before|..|before| + 3] == "200";
    assert OccursAt(line, "200", |before|);
  }

  /** A line shorter than three characters is always refused. */
  lemma ShortLineRefused(line: string)
    requires |line| < 3
    ensures !HandshakeAccepted(line)
  {
    ShortNotContains(line, "200");
  }

  /** Whether `http.ResponseWriter` could be hijacked. */
  datatype HijackOutcome = NotHijacker | HijackError | Hijacked

  /** What dialing the upstream produced: whether the SOCKS5 dialer could be
      built, whether the TCP or SOCKS5 dial succeeded, and the first line the
      HTTP upstream answered to the handshake. */
  datatype DialEnv = DialEnv(hijack: HijackOutcome, socksDialerOk: bool, dialOk: bool, responseLine: string)

  /** What `handleConnect` did: an `http.Error` response (before hijacking),
      the bytes written to the upstream and to the client connection, the
      `proxy_need_rotate` payload, and whether the relay was started. */
  datatype TunnelResult = TunnelResult(
    errorResponse: Option<Response>,
    toUpstream: string,
    toClient: string,
    rotate: Option<string>,
    relay: bool)

  /** The dial and, for an HTTP upstream, the handshake succeeded. */
  predicate DialSucceeded(p: Proxy, env: DialEnv) {
    match TransportFor(p.source)
    case Socks5 => env.socksDialerOk && env.dialOk
    case HttpProxy => env.dialOk && HandshakeAccepted(env.responseLine)
  }

  /** `handleConnect`. `200 Connection Established` is written iff the dial
      and handshake succeeded, and then the relay starts; every dial or
      handshake failure emits `proxy_need_rotate(p.IP)` and, except when the
      SOCKS5 dialer cannot even be built, writes `502 Bad Gateway`. */
  function HandleConnect(host: string, p: Proxy, env: DialEnv): (r: TunnelResult)
    ensures r.errorResponse.Some? <==> env.hijack == NotHijacker
    ensures r.errorResponse.Some? ==> r.errorResponse.value == HttpError(500, "Hijack not supported")
    ensures r.relay <==> env.hijack == Hijacked && DialSucceeded(p, env)
    ensures r.toClient == Established <==> r.relay
    ensures r.rotate.Some? <==> env.hijack == Hijacked && !DialSucceeded(p, env)
    ensures r.rotate.Some? ==> r.rotate.value == p.ip
    ensures r.toClient == BadGateway <==>
              r.rotate.Some? && !(TransportFor(p.source) == Socks5 && !env.socksDialerOk)
    ensures r.toClient in {"", Established, BadGateway}
    ensures r.toUpstream == (if env.hijack == Hijacked && TransportFor(p.source) == HttpProxy && env.dialOk
                             then ConnectRequest(host) else "")
  {
    match env.hijack
    case NotHijacker => TunnelResult(Some(HttpError(500, "Hijack not supported")), "", "", None, false)
    case HijackError => TunnelResult(None, "", "", None, false)
    case Hijacked =>
      match TransportFor(p.source)
      case Socks5 =>
        if !env.socksDialerOk then TunnelResult(None, "", "", Some(p.ip), false)
        else if !env.dialOk then TunnelResult(None, "", BadGateway, Some(p.ip), false)
        else TunnelResult(None, "", Established, None, true)
      case HttpProxy =>
        if !env.dialOk then TunnelResult(None, "", BadGateway, Some(p.ip), false)
        else if !HandshakeAccepted(env.responseLine) then TunnelResult(None, ConnectRequest(host), BadGateway, Some(p.ip), false)
        else TunnelResult(None, ConnectRequest(host), Established, None, true)
  }

  /** An incoming request to the local listener. */
  datatype Request = Request(verb: string, url: Url, host: string, header: Header, body: string)

  /** The request re-issued through the upstream. */
  datatype Outbound = Outbound(verb: string, target: Url, header: Header, body: string)

  /** What the upstream HTTP client returned. */
  datatype UpstreamReply = TransportFailed | Reply(status: int, header: Header, body: string)

  /** Outside answers for plain forwarding: whether `http.NewRequest` accepted
      the rebuilt request, and the upstream's reply. */
  datatype ForwardEnv = ForwardEnv(newRequestOk: bool, reply: UpstreamReply)

  /** How the handler served one request. */
  datatype Served =
    | NoRemote(response: Response)
    | Tunnel(tunnel: TunnelResult)
    | BadRequest(response: Response)
    | Forwarded(outbound: Outbound, response: Response, rotate: Option<string>)

  /** The listener's handler for one request, given the snapshot `remote` of
      the active upstream (app.go:566-625). */
  method Serve(remote: Option<Proxy>, req: Request, denv: DialEnv, fenv: ForwardEnv) returns (s: Served)
    ensures remote.None? <==> s.NoRemote?
    ensures s.NoRemote? ==> s.response == HttpError(503, "No active proxy")
    ensures s.Tunnel? <==> remote.Some? && req.verb == "CONNECT"
    ensures s.Tunnel? ==> s.tunnel == HandleConnect(req.host, remote.value, denv)
    ensures s.BadRequest? <==> remote.Some? && req.verb != "CONNECT" && !fenv.newRequestOk
    ensures s.BadRequest? ==> s.response == HttpError(400, "Bad request")
    ensures s.Forwarded? ==>
              && s.outbound.verb == req.verb
              && s.outbound.target == DefaultTarget(req.url, req.host)
              && s.outbound.body == req.body
              && (forall k :: k in s.outbound.header <==> k in req.header && k !in HopByHopHeaders)
              && (forall k :: k in s.outbound.header ==> s.outbound.header[k] == req.header[k])
    ensures s.Forwarded? && fenv.reply.TransportFailed? ==>
              s.response == HttpError(502, "Proxy failed") && s.rotate == Some(remote.value.ip)
    ensures s.Forwarded? && fenv.reply.Reply? ==>
              s.response == Response(fenv.reply.status, fenv.reply.header, fenv.reply.body) && s.rotate.None?
  {
    if remote.None? {
      return NoRemote(HttpError(503, "No active proxy"));
    }
    var p := remote.value;
    if req.verb == "CONNECT" {
      return Tunnel(HandleConnect(req.host, p, denv));
    }
    var target := DefaultTarget(req.url, req.host);
    if !fenv.newRequestOk {
      return BadRequest(HttpError(400, "Bad request"));
    }
    var header := CloneHeader(req.header);
    header := RemoveHopByHopHeaders(header);
    var outbound := Outbound(req.verb, target, header, req.body);
    match fenv.reply
    case TransportFailed =>
      s := Forwarded(outbound, HttpError(502, "Proxy failed"), Some(p.ip));
    case Reply(status, h, body) =>
      s := Forwarded(outbound, Response(status, h, body), None);
  }
}
