/** The `App` session of app.go: the active remote, the local middleware
    server, the local port, and the kill switch with its monitor goroutine.
    The mutex, the goroutines and the clock are not modelled: each exported
    method runs to completion, one monitor tick is an explicit call, and what
    the outside world answers (the probe, the listener, the local test
    request, the operating-system call) is an input. Every event emitted and
    every call on the system proxy is recorded in a log. */
module Session {
  import opened Types
  import Prober

  /** What the kill-switch monitor probes: the arguments of `ToggleKillSwitch`. */
  datatype Target = Target(ip: string, port: string, protocol: string)

  /** The session state as a value. `hasServer` stands for `localServer !=
      nil`, `hasCancel` for `ksCancel != nil`, and `monitor` for the monitor
      goroutine while it runs. */
  datatype AppState = AppState(
    activeRemote: Option<Proxy>,
    hasServer: bool,
    localPort: string,
    killSwitchOn: bool,
    hasCancel: bool,
    monitor: Option<Target>,
    events: seq<Event>,
    sysCalls: seq<SysCall>)

  /** What the code keeps true: a running monitor belongs to a switched-on
      kill switch, and a switched-on kill switch holds a cancel handle. */
  predicate Coherent(s: AppState) {
    (s.monitor.Some? ==> s.killSwitchOn) && (s.killSwitchOn ==> s.hasCancel)
  }

  /** `NewApp`: port 2080, nothing else set. */
  const Initial: AppState := AppState(None, false, "2080", false, false, None, [], [])

  /** The address the kill switch points the system proxy at when it fires. */
  const DeadHost: string := "127.0.0.1"
  const DeadPort: string := "1"

  /** `SetLocalPort` (app.go:98-109): stores the port and shuts down a
      running server (the server is restarted on the next connect). */
  function SetPort(s: AppState, port: string): (t: AppState)
    ensures t.localPort == port && !t.hasServer
    ensures t.(localPort := s.localPort, hasServer := s.hasServer) == s
    ensures Coherent(s) ==> Coherent(t)
  {
    s.(localPort := port, hasServer := false)
  }

  /** The guard and the listen of `StartLocalMiddleware` (app.go:550-564,
      625): a running server is kept and reported as success; otherwise the
      server starts exactly when the port can be listened on. */
  function StartServer(s: AppState, listenOk: bool): (t: AppState)
    ensures t.hasServer <==> s.hasServer || listenOk
    ensures t.(hasServer := s.hasServer) == s
    ensures s.hasServer ==> t == s
  {
    if s.hasServer then s else s.(hasServer := listenOk)
  }

  /** `App.DisableSystemProxy` (app.go:185-206): drops the remote, cancels a
      monitor when a cancel handle is held and then clears `killSwitchOn`
      (but keeps the handle, and emits no `killswitch_disabled`), asks the
      system to disable its proxy whatever happens next, and emits
      `connection_disconnected`. */
  function Disable(s: AppState): (t: AppState)
    ensures t.activeRemote == None && t.monitor == (if s.hasCancel then None else s.monitor)
    ensures t.events == s.events + [ConnectionDisconnected]
    ensures t.sysCalls == s.sysCalls + [DisableSystemProxy]
    ensures t.hasCancel == s.hasCancel && t.hasServer == s.hasServer && t.localPort == s.localPort
    ensures t.killSwitchOn == (s.killSwitchOn && !s.hasCancel)
    ensures Coherent(s) ==> Coherent(t) && !t.killSwitchOn && t.monitor.None?
  {
    var u := s.(activeRemote := None);
    var v := if u.hasCancel then u.(monitor := None, killSwitchOn := false) else u;
    v.(sysCalls := v.sysCalls + [DisableSystemProxy], events := v.events + [ConnectionDisconnected])
  }

  /** `ToggleKillSwitch` (app.go:481-531). Asking for the state the switch
      already has changes nothing; switching off cancels the monitor, drops
      the handle and emits one `killswitch_disabled`; switching on takes a
      fresh handle, starts a monitor on `target` and emits one
      `killswitch_enabled`. */
  function Toggle(s: AppState, enabled: bool, target: Target): (t: AppState)
    ensures s.killSwitchOn == enabled ==> t == s
    ensures s.killSwitchOn != enabled ==> t.killSwitchOn == enabled
    ensures s.killSwitchOn != enabled && !enabled ==>
              t == s.(killSwitchOn := false, hasCancel := false,
                      monitor := if s.hasCancel then None else s.monitor,
                      events := s.events + [KillSwitchDisabled])
    ensures s.killSwitchOn != enabled && enabled ==>
              t == s.(killSwitchOn := true, hasCancel := true, monitor := Some(target),
                      events := s.events + [KillSwitchEnabled])
    ensures Coherent(s) ==> Coherent(t)
  {
    if s.killSwitchOn == enabled then s
    else if !enabled then
      var u := s.(killSwitchOn := false);
      var v := if u.hasCancel then u.(monitor := None, hasCancel := false) else u;
      v.(events := v.events + [KillSwitchDisabled])
    else
      s.(killSwitchOn := true, hasCancel := true, monitor := Some(target),
         events := s.events + [KillSwitchEnabled])
  }

  /** One tick of the monitor (app.go:512-525) with the probe's result. A
      cancelled monitor does nothing; a failed probe points the system proxy
      at 127.0.0.1:1, emits `killswitch_triggered` and ends the monitor, but
      leaves `killSwitchOn` set; a successful probe changes nothing. */
  function Tick(s: AppState, res: CheckResult): (t: AppState)
    ensures s.monitor.None? || res.success ==> t == s
    ensures s.monitor.Some? && !res.success ==>
              t == s.(monitor := None,
                      sysCalls := s.sysCalls + [EnableSystemProxy(DeadHost, DeadPort)],
                      events := s.events + [KillSwitchTriggered])
    ensures t.killSwitchOn == s.killSwitchOn
    ensures Coherent(s) ==> Coherent(t)
  {
    if s.monitor.None? || res.success then s
    else
      var u := s.(sysCalls := s.sysCalls + [EnableSystemProxy(DeadHost, DeadPort)]);
      var v := u.(events := u.events + [KillSwitchTriggered]);
      v.(monitor := None)
  }

  /** The order in which `SetSystemProxy` (app.go:112-182) fails: the
      pre-check, then the local server, then the local test request, then
      the system proxy call. */
  function ConnectResult(check: CheckResult, serverUp: bool, testOk: bool, sysOk: bool): (o: ConnectOutcome)
    ensures o == Connected <==> check.success && serverUp && testOk && sysOk
    ensures o == PrecheckFailed <==> !check.success
    ensures o == LocalServerFailed <==> check.success && !serverUp
    ensures o == LocalServerNotReady <==> check.success && serverUp && !testOk
    ensures o == SystemProxyFailed <==> check.success && serverUp && testOk && !sysOk
  {
    if !check.success then PrecheckFailed
    else if !serverUp then LocalServerFailed
    else if !testOk then LocalServerNotReady
    else if !sysOk then SystemProxyFailed
    else Connected
  }

  /** The remote `SetSystemProxy` stores: only ip, port and the protocol as
      its source. */
  function RemoteFor(ip: string, port: string, protocol: string): Proxy {
    Proxy("", ip, port, "", 0, "", protocol)
  }

  /** The events `SetSystemProxy` emits for an outcome: one
      `connection_failed` naming the failure, or `connection_success` with
      the probe's latency and country followed by `proxy_ready`. */
  function ConnectEvents(o: ConnectOutcome, ip: string, port: string, protocol: string, check: CheckResult): seq<Event> {
    if o == Connected then [ConnectionSuccess(ip, port, protocol, check.latency, check.country), ProxyReady]
    else [ConnectionFailed(o)]
  }

  /** The state after `SetSystemProxy`. Once the pre-check passes the remote
      is stored and stays stored whatever fails later; the server may have
      been started; the system proxy is asked to use the local middleware
      only when the local test request succeeded. */
  function Connect(s: AppState, ip: string, port: string, protocol: string,
                   check: CheckResult, listenOk: bool, testOk: bool, sysOk: bool): (t: AppState)
    ensures var o := ConnectResult(check, s.hasServer || listenOk, testOk, sysOk);
      && t.events == s.events + ConnectEvents(o, ip, port, protocol, check)
      && t.activeRemote == (if o == PrecheckFailed then s.activeRemote else Some(RemoteFor(ip, port, protocol)))
      && t.hasServer == (s.hasServer || (o != PrecheckFailed && listenOk))
      && t.sysCalls == s.sysCalls + (if o == SystemProxyFailed || o == Connected
                                     then [EnableSystemProxy("127.0.0.1", s.localPort)] else [])
    ensures t.localPort == s.localPort && t.killSwitchOn == s.killSwitchOn
    ensures t.hasCancel == s.hasCancel && t.monitor == s.monitor
  {
    var o := ConnectResult(check, s.hasServer || listenOk, testOk, sysOk);
    if o == PrecheckFailed then s.(events := s.events + [ConnectionFailed(o)])
    else
      var u := StartServer(s.(activeRemote := Some(RemoteFor(ip, port, protocol))), listenOk);
      var w := if testOk && u.hasServer then u.(sysCalls := u.sysCalls + [EnableSystemProxy("127.0.0.1", s.localPort)]) else u;
      w.(events := w.events + ConnectEvents(o, ip, port, protocol, check))
  }

  /** After the kill switch has fired, asking to switch it on again is a
      no-op: `killSwitchOn` is still set, so no new monitor starts. */
  lemma TriggeredBlocksRestart(s: AppState, res: CheckResult, target: Target)
    requires Coherent(s) && s.monitor.Some? && !res.success
    ensures var fired := Tick(s, res);
      fired.monitor.None? && fired.killSwitchOn
      && Toggle(fired, true, target) == fired
  {
  }

  /** Disconnecting silently ends the kill switch: the later request to
      switch it off emits nothing, so the GUI never sees
      `killswitch_disabled` for it. */
  lemma DisconnectSilencesSwitch(s: AppState, target: Target)
    requires Coherent(s)
    ensures var d := Disable(s);
      Toggle(d, false, target) == d && KillSwitchDisabled !in d.events[|s.events|..]
  {
    var d := Disable(s);
    assert d.events[|s.events|..] == [ConnectionDisconnected];
  }

  /** Switching on and then off from a coherent off state leaves the switch,
      its handle and its monitor as before and logs the two events in order. */
  lemma ToggleOnOff(s: AppState, target: Target)
    requires Coherent(s) && !s.killSwitchOn
    ensures var t := Toggle(Toggle(s, true, target), false, target);
      t == s.(hasCancel := false, events := s.events + [KillSwitchEnabled, KillSwitchDisabled])
  {
    assert s.events + [KillSwitchEnabled] + [KillSwitchDisabled] == s.events + [KillSwitchEnabled, KillSwitchDisabled];
  }

  /** A failed connect reports the failure through exactly one
      `connection_failed` event carrying the same outcome it returns, and it
      touches the system proxy setting only if the failure was in that very
      call. */
  lemma FailedConnectReports(s: AppState, ip: string, port: string, protocol: string,
                             check: CheckResult, listenOk: bool, testOk: bool, sysOk: bool)
    requires ConnectResult(check, s.hasServer || listenOk, testOk, sysOk) != Connected
    ensures var o := ConnectResult(check, s.hasServer || listenOk, testOk, sysOk);
      var t := Connect(s, ip, port, protocol, check, listenOk, testOk, sysOk);
      && t.events[|s.events|..] == [ConnectionFailed(o)]
      && (o != SystemProxyFailed ==> t.sysCalls == s.sysCalls)
  {
    var t := Connect(s, ip, port, protocol, check, listenOk, testOk, sysOk);
    assert t.events[|s.events|..] == ConnectEvents(ConnectResult(check, s.hasServer || listenOk, testOk, sysOk), ip, port, protocol, check);
  }

  /** Changing the port always leaves the server stopped, so the next connect
      must listen on the new port again. */
  lemma PortChangeNeedsListen(s: AppState, port: string, ip: string, rport: string, protocol: string,
                              check: CheckResult, testOk: bool, sysOk: bool)
    requires check.success
    ensures var t := Connect(SetPort(s, port), ip, rport, protocol, check, false, testOk, sysOk);
      ConnectResult(check, false, testOk, sysOk) == LocalServerFailed && !t.hasServer
      && t.activeRemote == Some(RemoteFor(ip, rport, protocol))
  {
  }

  /** The `App` object. Each method changes the fields as the Go method does
      and is proved to agree with the transition function above. */
  class App {
    var activeRemote: Option<Proxy>
    var hasServer: bool
    var localPort: string
    var killSwitchOn: bool
    var hasCancel: bool
    var monitor: Option<Target>
    var events: seq<Event>
    var sysCalls: seq<SysCall>

    function State(): AppState
      reads this
    {
      AppState(activeRemote, hasServer, localPort, killSwitchOn, hasCancel, monitor, events, sysCalls)
    }

    predicate Valid()
      reads this
    {
      Coherent(State())
    }

    /** `NewApp` (app.go:61-65). */
    constructor ()
      ensures Valid() && State() == Initial
    {
      activeRemote := None;
      hasServer := false;
      localPort := "2080";
      killSwitchOn := false;
      hasCancel := false;
      monitor := None;
      events := [];
      sysCalls := [];
    }

    method SetLocalPort(port: string)
      requires Valid()
      modifies this
      ensures Valid() && State() == SetPort(old(State()), port)
    {
      localPort := port;
      if hasServer {
        hasServer := false;
      }
    }

    /** Returns whether the middleware runs afterwards (`err == nil`). */
    method StartLocalMiddleware(listenOk: bool) returns (ok: bool)
      requires Valid()
      modifies this
      ensures Valid() && State() == StartServer(old(State()), listenOk)
      ensures ok == hasServer
    {
      if hasServer {
        return true;
      }
      if !listenOk {
        return false;
      }
      hasServer := true;
      ok := true;
    }

    /** `SetSystemProxy`: `probe` is what the pre-check's requests got back,
      `listenOk` whether the port could be listened on, `testOk` whether the
      test request to the local server succeeded, `sysOk` whether the
      system accepted the proxy setting. */
    method SetSystemProxy(ip: string, port: string, protocol: string, probe: Prober.ProbeEnv,
                          listenOk: bool, testOk: bool, sysOk: bool) returns (tag: string)
      requires Valid()
      modifies this
      ensures var check := Prober.CheckProxy(ip, port, protocol, probe);
        && Valid()
        && State() == Connect(old(State()), ip, port, protocol, check, listenOk, testOk, sysOk)
        && tag == ConnectResult(check, old(hasServer) || listenOk, testOk, sysOk).Tag()
    {
      var check := Prober.CheckProxy(ip, port, protocol, probe);
      if !check.success {
        events := events + [ConnectionFailed(PrecheckFailed)];
        return PrecheckFailed.Tag();
      }
      activeRemote := Some(RemoteFor(ip, port, protocol));
      var lport := localPort;
      var ok := StartLocalMiddleware(listenOk);
      if !ok {
        events := events + [ConnectionFailed(LocalServerFailed)];
        return LocalServerFailed.Tag();
      }
      if !testOk {
        events := events + [ConnectionFailed(LocalServerNotReady)];
        return LocalServerNotReady.Tag();
      }
      sysCalls := sysCalls + [EnableSystemProxy("127.0.0.1", lport)];
      if !sysOk {
        events := events + [ConnectionFailed(SystemProxyFailed)];
        return SystemProxyFailed.Tag();
      }
      events := events + [ConnectionSuccess(ip, port, protocol, check.latency, check.country), ProxyReady];
      tag := Connected.Tag();
    }

    method DisableSystemProxy() returns (tag: string)
      requires Valid()
      modifies this
      ensures Valid() && State() == Disable(old(State())) && tag == "Disabled"
    {
      activeRemote := None;
      if hasCancel {
        monitor := None;
        killSwitchOn := false;
      }
      sysCalls := sysCalls + [SysCall.DisableSystemProxy];
      events := events + [ConnectionDisconnected];
      tag := "Disabled";
    }

    method ToggleKillSwitch(enabled: bool, ip: string, port: string, protocol: string)
      requires Valid()
      modifies this
      ensures Valid() && State() == Toggle(old(State()), enabled, Target(ip, port, protocol))
    {
      if killSwitchOn == enabled {
        return;
      }
      killSwitchOn := enabled;
      if !enabled {
        if hasCancel {
          monitor := None;
          hasCancel := false;
        }
        events := events + [KillSwitchDisabled];
        return;
      }
      hasCancel := true;
      monitor := Some(Target(ip, port, protocol));
      events := events + [KillSwitchEnabled];
    }

    /** One tick of the running monitor: `probe` is what its `CheckProxy`
      requests got back. */
    method KillSwitchTick(probe: Prober.ProbeEnv)
      requires Valid()
      modifies this
      ensures Valid()
      ensures old(monitor).None? ==> State() == old(State())
      ensures old(monitor).Some? ==>
        var t := old(monitor).value;
        State() == Tick(old(State()), Prober.CheckProxy(t.ip, t.port, t.protocol, probe))
    {
      if monitor.None? {
        return;
      }
      var t := monitor.value;
      var res := Prober.CheckProxy(t.ip, t.port, t.protocol, probe);
      if !res.success {
        sysCalls := sysCalls + [EnableSystemProxy(DeadHost, DeadPort)];
        events := events + [KillSwitchTriggered];
        monitor := None;
      }
    }
  }
}
