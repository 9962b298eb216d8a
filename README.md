# ProxyMaster core in Dafny

ProxyMaster is a desktop proxy switcher. A Go backend (`app.go`) probes
candidate upstream proxies and collects them from list sources. It runs a
local forwarding middleware that relays browser traffic to the chosen
upstream, and it points the operating system at that middleware. It also
has a kill switch that cuts traffic when the upstream dies. A JavaScript
frontend (`frontend/src/main.js`) keeps the proxy list and the list of
source URLs and edits them.

This project models the sequential rules underneath that I/O and proves
their properties. Every network, clock or operating-system answer becomes
an input.

Modules:

- `Types`: the `Proxy` record, `CheckResult`, the connect outcome tags, the
  GUI events and the calls made to the system-proxy collaborator.
- `Text`: the string operations the code relies on: trimming, splitting by a
  character, joining, `Contains`, `HasPrefix`, ASCII `ToLower`, decimal
  rendering and the `ip:port` key, each with its laws.
- `Prober`: how `CheckProxy` turns the answers to its two strategies into a
  `CheckResult`.
- `Middleware`: the handler of the local listener, covering the 503 without
  a remote, CONNECT tunnelling, request-target defaulting and header
  cleaning, plus the CONNECT handshake of `handleConnect` and its 200/502
  decision.
- `Fetcher`: the line parser of `FetchRealProxies` with its per-source
  cap, the total-cap merge, and `removeDuplicateProxies`.
- `Kde`: the kioslaverc line rewrites of `enableKDEProxy` and
  `disableKDEProxy`, including a defect of the enable rewrite (see
  Findings).
- `Session`: the `App` session and the kill switch, first as transition
  functions on a state value, then as a class whose methods update the
  fields and are proved to agree with those functions.
- `ListRules`: the list editors of the frontend as functions on values.
- `Frontend`: the frontend's globals `proxyList`, `sourceUrls` and
  `currentActiveIP` as a class. Each handler is a method updating them as
  the script does, and each is proved equal to its `ListRules` rule.

## Model

| member | source | states |
|---|---|---|
| Session.SetPort | app.go:98-109 | the port is stored, the server is gone, nothing else changes, coherence is kept |
| Session.StartServer | app.go:550-564 | a running server is kept as it is; otherwise the server runs afterwards exactly when the port could be listened on; nothing else changes |
| Session.Disable | app.go:185-206 | remote cleared; the monitor is cancelled and `killSwitchOn` cleared only when a cancel handle is held, and the handle is kept; one DisableSystemProxy call and one `connection_disconnected` are logged |
| Session.Toggle | app.go:481-531 | same state: no change; off: the handle is dropped and the monitor stopped when a handle was held, one `killswitch_disabled`; on: handle and monitor on the target, one `killswitch_enabled`; coherence kept |
| Session.Tick | app.go:512-525 | a cancelled monitor or a successful probe changes nothing; a failed probe sets the system proxy to 127.0.0.1:1, emits `killswitch_triggered`, ends the monitor and leaves `killSwitchOn` set |
| Session.ConnectResult | app.go:112-160 | each outcome tag holds exactly when the earlier stages pass and that stage fails, in the order pre-check, local server, local test, system proxy |
| Session.Connect | app.go:112-182 | events are one `connection_failed` for the outcome, or `connection_success` then `proxy_ready`; the remote is stored once the pre-check passes and stays stored on later failure; the system proxy is set only after the local test passed; kill-switch fields untouched |
| Session.TriggeredBlocksRestart | app.go:486-488 | after the kill switch fired, `ToggleKillSwitch(true)` is a no-op because `killSwitchOn` is still set |
| Session.DisconnectSilencesSwitch | app.go:190-194 | after `DisableSystemProxy` a later switch-off changes nothing and no `killswitch_disabled` is ever emitted for it |
| Session.ToggleOnOff | app.go:481-531 | on then off from a coherent off state restores the state apart from a dropped cancel handle, and logs enabled then disabled |
| Session.FailedConnectReports | app.go:112-160 | a failed connect logs exactly one `connection_failed` with its outcome, and touches the system proxy only when that call itself failed |
| Session.PortChangeNeedsListen | app.go:98-109 | after a port change a connect whose listen fails reports `local_server_failed`, with the remote stored |
| Session.App.constructor | app.go:61-65 | the initial state, port 2080 |
| Session.App.SetLocalPort | app.go:98-109 | new state is `SetPort` of the old one |
| Session.App.StartLocalMiddleware | app.go:550-564 | new state is `StartServer` of the old one; returns whether a server runs |
| Session.App.SetSystemProxy | app.go:112-182 | new state is `Connect` of the old one with the probe's `CheckProxy` result; returns that outcome's tag |
| Session.App.DisableSystemProxy | app.go:185-206 | new state is `Disable` of the old one; returns "Disabled" |
| Session.App.ToggleKillSwitch | app.go:481-531 | new state is `Toggle` of the old one |
| Session.App.KillSwitchTick | app.go:512-525 | no monitor: nothing changes; otherwise new state is `Tick` with the probe of the monitored target |
| Prober.CheckProxy | app.go:210-308 | success iff the transport was built and strategy A or B accepted; A's result carries A's time and country code; B's carries "UN"; otherwise exactly `{0,false,""}` |
| Prober.PrimaryWins | app.go:263-283 | once strategy A accepts, strategy B's answer does not affect the result |
| Middleware.CloneHeader | app.go:729-737 | the copy has the same keys and values |
| Middleware.RemoveHopByHopHeaders | app.go:739-746 | a key survives iff it is not one of the five hop-by-hop names; surviving keys keep their values |
| Middleware.DefaultTarget | app.go:584-590 | missing scheme becomes `http`, missing host becomes the Host header, everything else kept |
| Middleware.DefaultTargetSettles | app.go:584-590 | defaulting is idempotent and leaves an absolute-form target unchanged |
| Middleware.ConnectRequestParses | app.go:674 | the handshake splits into the request line `CONNECT host HTTP/1.1`, the `Host: host` header and the blank line |
| Middleware.AcceptedByMention | app.go:678 | any response line with `200` anywhere in it is accepted |
| Middleware.ShortLineRefused | app.go:678 | a response line shorter than three characters is refused |
| Middleware.HandleConnect | app.go:647-693 | 500 iff not a hijacker; the relay starts iff the dial and handshake succeed, exactly when `200 Connection Established` is written; every dial or handshake failure emits `proxy_need_rotate(ip)`; 502 is written for all of them except the SOCKS5 dialer that cannot be built; the handshake is sent iff an HTTP upstream was dialled |
| Middleware.Serve | app.go:566-625 | 503 iff no remote; CONNECT goes to `HandleConnect`; 400 when the request cannot be rebuilt; otherwise the forwarded request keeps the method, body and defaulted target, drops exactly the hop-by-hop headers, and the reply is relayed, or 502 with a rotate request on transport failure |
| Fetcher.ParseLine | app.go:369-395 | a line is accepted iff trimmed it is non-empty, has a colon, and its trimmed first and second fields pass the IP and integer predicates; the entry carries those fields, "UN", "new", "API" |
| Fetcher.AcceptedShape | app.go:369-395 | every accepted entry passes both predicates, has colon-free ip and port, country "UN", status "new", source "API", latency 0 |
| Fetcher.ParseSource | app.go:363-396 | the loop keeps exactly the first `min(1000, n)` accepted entries, in line order |
| Fetcher.CapReached | app.go:365-367 | stopping at the end or at 1000 entries leaves that prefix |
| Fetcher.SourceEntries | app.go:344-396 | a failed download contributes nothing; a body contributes the first `min(1000, n)` of the `n` entries its lines yield after the read limit, in line order |
| Fetcher.MergeCapped | app.go:398-408 | appends exactly the first `min(len(temp), 5000 - len(all))` entries, nothing at 5000 or more; the total stays at or below 5000 |
| Fetcher.MergeAll | app.go:339-408 | the merged total never exceeds 5000 |
| Fetcher.MergeBySource | app.go:398-408 | the merged list is the concatenation of one prefix of each source's list, in merge order |
| Fetcher.CollectBySource | app.go:331-413 | the collected list is, source by source, a prefix of what that body yields, at most 1000 per source and 5000 in all |
| Fetcher.CollectSources | app.go:331-413 | the download loop computes `Collect` and stays within 5000 |
| Fetcher.DedupProperties | app.go:432-445 | the result is a subsequence of its input, no two outputs share a key, every input key appears, each key's first occurrence is kept, and de-duplicating again changes nothing |
| Fetcher.RemoveDuplicateProxies | app.go:432-445 | the loop with the `seen` map computes the first-occurrence de-duplication |
| Fetcher.FetchRealProxies | app.go:312-429 | the result is the de-duplicated collection: a subsequence of it with distinct keys, the same key set, at most 5000 entries; one `proxies_fetched` event with its length |
| Kde.EnableKdeLines | app.go:1092-1134 | the enable rewrite as written: the cleaned lines, a header when none was seen, then the six settings |
| Kde.EnableLoop | app.go:1092-1122 | the loop output is the cleaning rewrite, and `proxySectionAdded` is whether any line holds the header |
| Kde.EnableTurn | app.go:1097-1121 | one line is kept or dropped, and the flag moves, as the classification of the line says |
| Kde.DisableKdeLines | app.go:1169-1201 | the disable rewrite: `ProxyType` inside a proxy section becomes `ProxyType=0`, the other five settings there are dropped, everything else is kept |
| Kde.DisableTurn | app.go:1174-1200 | one line of the disable loop |
| Kde.BlockKinds | app.go:1128-1134 | the six appended lines are read as ProxyType first, then five other proxy settings |
| Kde.SettingLine | app.go:1109-1115 | a `key=value` line for a proxy key is read as a setting, a `ProxyType` one iff the key is `ProxyType` |
| Kde.ClassifyZero | app.go:1183-1186 | the `ProxyType=0` a disable writes is read back as a `ProxyType` setting |
| Kde.RewriteIdempotent | app.go:1097-1121 | either rewrite applied twice equals it applied once, and a file the enable loop cleaned is left alone by either loop |
| Kde.RewriteKeepsStructure | app.go:1097-1121 | rewriting keeps whether a header exists and the final section flag |
| Kde.NoHeaderUntouched | app.go:1097-1121 | a file without the header is kept line for line |
| Kde.RewriteKeepsOtherLines | app.go:1097-1121 | no line is added, and every line that is not a proxy setting survives as often as before |
| Kde.OtherSettingsDropped | app.go:1188-1195 | inside a proxy section the disable loop drops the five non-ProxyType settings |
| Kde.Cleaned | app.go:1097-1121 | the cleaning pass of enable keeps whether there is a header and the final section flag, is settled, and leaves a file without the header as it was |
| Kde.EnableSettles | app.go:1092-1134 | when the file has no header or ends inside a proxy section, the appended block is read inside the proxy section and enabling again changes nothing |
| Kde.EnableGrows | app.go:1092-1134 | when another section follows the last proxy header, the block lands outside the proxy section and each run appends it again |
| Kde.DisableUndoesEnable | app.go:1169-1201 | disabling after a settled enable gives the cleaned file followed by `ProxyType=0` |
| Kde.EnableIdempotentWhenLast | app.go:1092-1134 | the as-written enable is idempotent when the proxy section is last or absent |
| Kde.EnableMisplaced | app.go:1092-1134 | the as-written enable puts the six settings in the following section and grows by six on every run |
| Kde.EnableMisplacedExample | app.go:1092-1134 | on `[Proxy Settings]`, `[Other]` with 127.0.0.1:2080 the settings land under `[Other]` and a second run adds six lines |
| Kde.EnableFixedSettles | app.go:1092-1134 | for any block of proxy settings the corrected rewrite places the block inside the proxy section, keeps the cleaned file (plus a header when none existed) around it, and is idempotent |
| Kde.InsertedAfterHeader | app.go:1097-1134 | a block inserted right after a proxy header in a cleaned file is read inside that section and dropped again by the cleaning pass |
| Kde.EnableFixedCorrect | app.go:1092-1134 | the corrected enable puts the six settings right after the first proxy header, inside the section, keeps the cleaned file around them, and is idempotent |
| Kde.DisableAfterEnable | app.go:1169-1201 | after an as-written enable whose settings sit in the proxy section, disable leaves the cleaned file plus `ProxyType=0` |
| ListRules.Filter | frontend/src/main.js:841-842 | `filter`: an entry is in the result iff it is in the list and kept; never longer |
| ListRules.FilterInOrder | frontend/src/main.js:841-842 | a filter keeps the order of what it keeps |
| ListRules.FilterComplement | frontend/src/main.js:840-842 | the number kept and the number removed add up to the length of the list |
| ListRules.FetchAdded | frontend/src/main.js:733-737 | `slice(0, 2000)` of the fresh entries: exactly the first `min(n, 2000)` of the `n` fetched entries whose key is absent from the list, in fetch order |
| ListRules.FetchMerged | frontend/src/main.js:733-739 | the new list is the added entries followed by the old list, unchanged |
| ListRules.FetchAddedInOrder | frontend/src/main.js:733-737 | the added entries keep their fetch order |
| ListRules.AddManual | frontend/src/main.js:764-791 | no colon or an existing ip/port pair leaves the list; otherwise exactly one entry is prepended with the trimmed fields, "UN", latency 0, "new", "Manual" |
| ListRules.AddManualOnce | frontend/src/main.js:764-791 | adding the same text twice adds it once |
| ListRules.ImportEntry | frontend/src/main.js:808-818 | a line yields an entry iff trimmed it is non-empty with a colon; the entry's ID is `FILE-<time>-<index>` |
| ListRules.Imported | frontend/src/main.js:806-826 | every appended entry is "new", latency 0, "UN", "File", with a key absent before the import |
| ListRules.ImportedExactly | frontend/src/main.js:806-826 | an entry is appended iff some line yields it and its key was absent before the import |
| ListRules.FileIdsDiffer | frontend/src/main.js:818 | entries from different lines have different IDs |
| ListRules.RepeatedLineImportedTwice | frontend/src/main.js:810-826 | the key set is not updated in the loop, so a new line repeated in one file is appended twice |
| ListRules.Repaired | frontend/src/main.js:119-124 | no entry is left "checking"; "checking" entries become "dead" and all others are unchanged |
| ListRules.CheckingCountFilter | frontend/src/main.js:118-124 | the repair count is the number of "checking" entries |
| ListRules.RepairedSettled | frontend/src/main.js:700-702 | a list without "checking" entries is left unchanged by the repair |
| ListRules.Applied | frontend/src/main.js:644-656 | a probed entry ends "active" iff the probe answered success, else "dead"; on success latency is `res.latency` or the measured time when that is 0, and country is `res.country` or "UN"; identity fields unchanged |
| ListRules.Visited | frontend/src/main.js:623-656 | a visited entry always ends "active" or "dead" |
| ListRules.CheckRunSettles | frontend/src/main.js:583-702 | after a check run each entry is "active" or "dead", and with autoDel only "active" entries remain |
| ListRules.CheckRunKeepsEntries | frontend/src/main.js:583-702 | without autoDel the run keeps every entry in place with its ip, port and id |
| ListRules.NextActive | frontend/src/main.js:1127 | none iff no entry is active on another ip; otherwise the first such entry |
| ListRules.FirstWithId | frontend/src/main.js:536 | `find` by id: none iff no entry has it, else an entry with it |
| ListRules.DeleteEntry | frontend/src/main.js:535-550 | an unknown id, or an entry found on the active ip, leaves the list; otherwise an entry remains iff it was in the list with another id, the rest keep their order, and the list gets shorter |
| ListRules.WithScheme | frontend/src/main.js:1015-1017 | the URL gets `https://` unless it has `http://` or `https://` |
| ListRules.AddSourceUrl | frontend/src/main.js:1007-1029 | empty input changes nothing; otherwise the schemed URL is present afterwards, appended once unless already there |
| ListRules.AddSourceDistinct | frontend/src/main.js:1021-1029 | adding never creates a duplicate, and adding twice is adding once |
| ListRules.Splice1 | frontend/src/main.js:1041-1043 | `splice(index, 1)`: removes the element at the index, counting negative ones from the end; below `-length` removes the first element; at or past the end removes nothing |
| ListRules.DeleteUndoesAdd | frontend/src/main.js:1007-1043 | deleting at the position just appended to undoes the add |
| Frontend.Globals.constructor | frontend/src/main.js:3-8 | empty lists, no active ip |
| Frontend.Globals.RepairStuck | frontend/src/main.js:118-124 | the in-place `forEach` leaves `Repaired` of the list and counts the "checking" entries |
| Frontend.Globals.LoadProxies | frontend/src/main.js:111-136 | the stored list, repaired, or empty when nothing was stored or it did not parse |
| Frontend.Globals.FetchProxies | frontend/src/main.js:731-747 | a non-array or failed fetch leaves the list; otherwise `FetchMerged`, returning the number added |
| Frontend.Globals.AddManualProxy | frontend/src/main.js:764-791 | the list becomes `AddManual` of the old list |
| Frontend.Globals.ImportFromFile | frontend/src/main.js:806-826 | the pushes append exactly `Imported` to the old list, and `count` is its length |
| Frontend.Globals.ClearDeadProxies | frontend/src/main.js:841-843 | the non-dead entries in order remain; `removed` is the number of dead ones |
| Frontend.Globals.CheckPass | frontend/src/main.js:613-665 | the worker loop leaves each entry as `Visited` says |
| Frontend.Globals.CheckAllProxies | frontend/src/main.js:583-702 | the list becomes `CheckRun` of the old list |
| Frontend.Globals.DeleteProxy | frontend/src/main.js:535-550 | the list becomes `DeleteEntry` with the current active ip: unchanged for an unknown id or the active entry, else exactly the entries with another id, in order |
| Frontend.Globals.AddSource | frontend/src/main.js:1007-1029 | the source list becomes `AddSourceUrl` of the old one |
| Frontend.Globals.DeleteSource | frontend/src/main.js:1041-1043 | the source list becomes `Splice1` at the index |
| Frontend.Globals.ConnectionSucceeded | frontend/src/main.js:1093-1095 | the active ip becomes the connected ip |
| Frontend.Globals.ConnectionDisconnected | frontend/src/main.js:1105-1107 | the active ip becomes null |

## Left out

- Sockets, HTTP requests, `ListenAndServe`/`Shutdown`, connection hijacking and the `io.Copy` relay are not performed. Their outcomes are inputs (`ProbeEnv`, `DialEnv`, `ForwardEnv`, `FetchOutcome`, `listenOk`, `testOk`, `sysOk`).
- The operating-system proxy back-ends (registry, `gsettings`, `dbus-send`), backup and restore, and reading or writing kioslaverc are not modelled. Only the calls made and the line rewrites are.
- Mutexes, goroutines, the wait group, the semaphore, the ticker, context cancellation, the frontend worker pool, pause promises and `Promise.race` timeouts are not modelled. Methods run to completion one after another, a monitor tick is an explicit call, and the source downloads merge in a given order.
- Time and randomness are inputs: latencies, `UnixNano`, `Date.now()` and `Math.random` IDs. `importFromFile` reads `Date.now()` once per line; the model uses one stamp for the whole file.
- Fetcher.SourceEntries: the 1 MiB read limit (`io.LimitReader`, app.go:357) is counted in characters of the body, not in bytes before `string(b)`. The two agree only on ASCII bodies; on a body with multi-byte UTF-8 characters Go cuts earlier, possibly inside a character, and can keep fewer lines. Fetcher.BodyLines is where that cut is made.
- Fetcher.ParseSource: one clock reading per source stands for the per-line `UnixNano` reading in the IDs.
- `ProxyReady`: the one-second delayed `proxy_ready` is logged right after `connection_success`.
- `net.ParseIP` and `strconv.Atoi` are the predicates `ipOk` and `portOk`, passed in. `url.Parse` failures are the input `proxyUrlOk`.
- Trimming removes ASCII whitespace only. Go's `TrimSpace` and JavaScript's `trim` also remove Unicode spaces.
- `ToLower` folds ASCII letters only.
- The DOM, notifications, i18n, `localStorage`, JSON parsing and Wails event wiring are not modelled. `LoadProxies` receives the parsed list, or `None` when nothing was stored or it did not parse.
- `forceCleanStuckProxies` (frontend/src/main.js:1240-1258) works on the stored copy and writes it back. Its rule is `ListRules.Repaired`; the storage round trip is not modelled.
- `updateStats` (float averages), progress percentages, `activeCount` and the counts shown in notifications are not modelled.
- The `isCheckingAll` and `isFetching` re-entry guards and the `autoRotate` checkbox of `handleProxyRotate` are not modelled.
- The rotation models only the choice (`NextActive`). The `setGlobal` call it triggers is a network round trip and is not modelled.
- `setGlobal`'s own updates of entry statuses and of `currentActiveIP` (frontend/src/main.js:453-531) are not modelled.
- `cleanup`, `startup`, `GetSystemProxyExitIP`, `OpenProxyFile` and `buildTransport` in app.go are not modelled.
- main.go and the generated frontend/wailsjs/go/models.ts are not part of this model. Their shapes are the datatypes in `Types`.
- `loadSourceUrls` and its default URL list are not modelled.
- `http.Header` is a map from name to values. The canonicalisation of header names is not modelled.
- The response headers copied with `Header().Add` are modelled as the reply's header map replacing an empty one.
- `CheckPass` visits the entries in order. The five concurrent workers share one index, so each entry is still visited once, but the order in which answers arrive is not modelled.
- Kde.BlockKinds: stated for a host and port without `[`. The app always passes 127.0.0.1 and a numeric port.

## Findings

| source | as written | input that shows it | evidently intended | confidence | as-written member | corrected member |
|---|---|---|---|---|---|---|
| app.go:1124-1134 | `enableKDEProxy` appends the six settings at the end of the file, after whatever section comes last | a kioslaverc holding `[Proxy Settings]` followed by `[Other]`: the settings land under `[Other]`, KDE ignores them, and every enable appends six more lines | the settings go inside the `[Proxy Settings]` section, and enabling twice is the same as enabling once | not executed | Kde.EnableMisplacedExample | Kde.EnableFixedCorrect |
