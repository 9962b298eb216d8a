/** Value types shared by the Go backend (app.go) and the frontend
    (frontend/src/main.js, whose shapes the generated models.ts mirrors). */
module Types {
  import opened Text

  datatype Option<T> = None | Some(value: T)

  /** One candidate upstream proxy: the `Proxy` struct of app.go and the
      plain objects the frontend keeps in `proxyList`. `status` is one of
      "new", "checking", "active", "dead"; `source` is "API", "Manual",
      "File", or, for the active remote, the protocol name. */
  datatype Proxy = Proxy(
    id: string,
    ip: string,
    port: string,
    country: string,
    latency: int,
    status: string,
    source: string)

  /** The de-duplication key `ip:port`. */
  function KeyOf(p: Proxy): string {
    Key(p.ip, p.port)
  }

  /** The keys of every entry of a list. */
  function KeySet(ps: seq<Proxy>): set<string> {
    set k | 0 <= k < |ps| :: KeyOf(ps[k])
  }

  lemma KeySetCons(p: Proxy, ps: seq<Proxy>)
    ensures KeySet([p] + ps) == {KeyOf(p)} + KeySet(ps)
  {
    var qs := [p] + ps;
    forall x | x in KeySet(qs) ensures x in {KeyOf(p)} + KeySet(ps) {
      var k :| 0 <= k < |qs| && KeyOf(qs[k]) == x;
      if k > 0 { assert qs[k] == ps[k - 1]; }
    }
    forall x | x in KeySet(ps) ensures x in KeySet(qs) {
      var k :| 0 <= k < |ps| && KeyOf(ps[k]) == x;
      assert qs[k + 1] == ps[k];
    }
    assert KeyOf(qs[0]) in KeySet(qs);
  }

  lemma AppendAssoc(a: seq<Proxy>, b: seq<Proxy>, c: seq<Proxy>)
    ensures a + (b + c) == (a + b) + c
  {
  }

  lemma KeySetSnoc(ps: seq<Proxy>, p: Proxy)
    ensures KeySet(ps + [p]) == KeySet(ps) + {KeyOf(p)}
  {
    var qs := ps + [p];
    forall x | x in KeySet(qs) ensures x in KeySet(ps) + {KeyOf(p)} {
      var k :| 0 <= k < |qs| && KeyOf(qs[k]) == x;
      if k < |ps| { assert qs[k] == ps[k]; }
    }
    forall x | x in KeySet(ps) ensures x in KeySet(qs) {
      var k :| 0 <= k < |ps| && KeyOf(ps[k]) == x;
      assert qs[k] == ps[k];
    }
    assert KeyOf(qs[|ps|]) in KeySet(qs);
  }

  /** Result of a health probe: `CheckResult` in app.go. */
  datatype CheckResult = CheckResult(latency: int, success: bool, country: string)

  /** The failure value `CheckResult{0, false, ""}`. */
  const CheckFailed: CheckResult := CheckResult(0, false, "")

  /** Outcome tags returned by `SetSystemProxy`. */
  datatype ConnectOutcome =
    | PrecheckFailed
    | LocalServerFailed
    | LocalServerNotReady
    | SystemProxyFailed
    | Connected
  {
    /** The string the Go method returns for this outcome. */
    function Tag(): string {
      match this
      case PrecheckFailed => "precheck_failed"
      case LocalServerFailed => "local_server_failed"
      case LocalServerNotReady => "local_server_not_ready"
      case SystemProxyFailed => "system_proxy_failed"
      case Connected => "Success"
    }
  }

  /** Events emitted to the GUI through `wailsRuntime.EventsEmit`. The
      human-readable message of `connection_failed` is represented by the
      outcome it reports. */
  datatype Event =
    | ConnectionSuccess(ip: string, port: string, protocol: string, latency: int, country: string)
    | ConnectionFailed(reason: ConnectOutcome)
    | ConnectionDisconnected
    | ProxyReady
    | ProxyNeedRotate(rotateIp: string)
    | KillSwitchEnabled
    | KillSwitchDisabled
    | KillSwitchTriggered
    | ProxiesFetched(count: nat)
  {
    /** The event name on the wire. */
    function Name(): string {
      match this
      case ConnectionSuccess(_, _, _, _, _) => "connection_success"
      case ConnectionFailed(_) => "connection_failed"
      case ConnectionDisconnected => "connection_disconnected"
      case ProxyReady => "proxy_ready"
      case ProxyNeedRotate(_) => "proxy_need_rotate"
      case KillSwitchEnabled => "killswitch_enabled"
      case KillSwitchDisabled => "killswitch_disabled"
      case KillSwitchTriggered => "killswitch_triggered"
      case ProxiesFetched(_) => "proxies_fetched"
    }
  }

  /** Calls made to the operating-system proxy collaborator. */
  datatype SysCall = EnableSystemProxy(host: string, port: string) | DisableSystemProxy

}
