/** The list editors of frontend/src/main.js as functions on values: what
    each of them makes of `proxyList` or `sourceUrls`. The global variables
    they assign and the loops that update entries in place are in the
    `Frontend` module, which is proved to agree with these functions. */
module ListRules {
  import opened Text
  import opened Types
  import Fetcher

  /** `MAX_ADD_PER_FETCH`. */
  const MaxAddPerFetch: nat := 2000

  // ---------------------------------------------------------------- filter

  /** `Array.prototype.filter`. */
  function Filter(ps: seq<Proxy>, keep: Proxy -> bool): (r: seq<Proxy>)
    ensures |r| <= |ps|
    ensures forall p :: p in r <==> p in ps && keep(p)
    decreases |ps|
  {
    if |ps| == 0 then []
    else
      var rest := Filter(ps[1..], keep);
      assert forall p :: p in ps <==> p == ps[0] || p in ps[1..];
      (if keep(ps[0]) then [ps[0]] else []) + rest
  }

  /** A filter keeps the order of what it keeps. */
  lemma {:induction false} FilterInOrder(ps: seq<Proxy>, keep: Proxy -> bool)
    ensures Fetcher.IsSubsequence(Filter(ps, keep), ps)
    decreases |ps|
  {
    if |ps| > 0 {
      FilterInOrder(ps[1..], keep);
      var rest := Filter(ps[1..], keep);
      if keep(ps[0]) {
        assert Filter(ps, keep) == [ps[0]] + rest;
        assert ([ps[0]] + rest)[1..] == rest;
      } else {
        assert Filter(ps, keep) == rest;
        SubsequenceDrop(rest, ps);
      }
    }
  }

  /** Dropping the head of the longer sequence keeps a subsequence. */
  lemma {:induction false} SubsequenceDrop(a: seq<Proxy>, b: seq<Proxy>)
    requires |b| > 0 && Fetcher.IsSubsequence(a, b[1..])
    ensures Fetcher.IsSubsequence(a, b)
    decreases |b|, 0
  {
    if |a| > 0 && a[0] == b[0] {
      SubsequenceTail(a, b[1..]);
    }
  }

  /** Dropping the head of the shorter sequence keeps a subsequence. */
  lemma {:induction false} SubsequenceTail(a: seq<Proxy>, c: seq<Proxy>)
    requires |a| > 0 && Fetcher.IsSubsequence(a, c)
    ensures Fetcher.IsSubsequence(a[1..], c)
    decreases |c|, 1
  {
    if a[0] == c[0] {
      SubsequenceDrop(a[1..], c);
    } else {
      SubsequenceTail(a, c[1..]);
      SubsequenceDrop(a[1..], c);
    }
  }

  /** A prefix of a subsequence is a subsequence. */
  lemma {:induction false} PrefixSubsequence(a: seq<Proxy>, b: seq<Proxy>, n: nat)
    requires n <= |a| && Fetcher.IsSubsequence(a, b)
    ensures Fetcher.IsSubsequence(a[..n], b)
    decreases |b|
  {
    if n > 0 && |b| > 0 {
      assert a[..n][1..] == a[1..][..n - 1];
      if a[0] == b[0] {
        PrefixSubsequence(a[1..], b[1..], n - 1);
      } else {
        PrefixSubsequence(a, b[1..], n);
        SubsequenceDrop(a[..n], b);
      }
    } else if n == 0 {
      assert a[..n] == [];
    }
  }

  /** Appending one element to the filtered sequence. */
  lemma {:induction false} FilterSnoc(ps: seq<Proxy>, x: Proxy, keep: Proxy -> bool)
    ensures Filter(ps + [x], keep) == Filter(ps, keep) + (if keep(x) then [x] else [])
    decreases |ps|
  {
    if |ps| == 0 {
      assert ps + [x] == [x];
      assert [x][1..] == [];
    } else {
      assert (ps + [x])[0] == ps[0];
      assert (ps + [x])[1..] == ps[1..] + [x];
      FilterSnoc(ps[1..], x, keep);
    }
  }

  /** What a filter keeps and what its complement keeps add up to the whole
      list. */
  lemma {:induction false} FilterComplement(ps: seq<Proxy>, keep: Proxy -> bool, drop: Proxy -> bool)
    requires forall p :: drop(p) == !keep(p)
    ensures |Filter(ps, keep)| + |Filter(ps, drop)| == |ps|
    decreases |ps|
  {
    if |ps| > 0 {
      FilterComplement(ps[1..], keep, drop);
    }
  }

  predicate IsActive(p: Proxy) { p.status == "active" }
  predicate IsDead(p: Proxy) { p.status == "dead" }
  predicate IsChecking(p: Proxy) { p.status == "checking" }

  // ---------------------------------------------------------- fetch merge

  /** The fetched entries whose `ip:port` is not among `keys`, in fetch
      order. The set is built once, before filtering. */
  function Fresh(res: seq<Proxy>, keys: set<string>): seq<Proxy> {
    Filter(res, p => KeyOf(p) !in keys)
  }

  /** The entries `fetchProxies` adds: the first 2000 fresh ones. */
  function FetchAdded(list: seq<Proxy>, res: seq<Proxy>): (added: seq<Proxy>)
    ensures |added| <= MaxAddPerFetch
    ensures forall p :: p in added ==> p in res && KeyOf(p) !in KeySet(list)
    ensures |Fresh(res, KeySet(list))| <= MaxAddPerFetch ==>
              forall p :: p in res && KeyOf(p) !in KeySet(list) ==> p in added
    ensures |added| == Fetcher.Min(|Fresh(res, KeySet(list))|, MaxAddPerFetch)
    ensures added == Fresh(res, KeySet(list))[..|added|]
  {
    var novel := Fresh(res, KeySet(list));
    var n := Fetcher.Min(|novel|, MaxAddPerFetch);
    assert forall p :: p in novel[..n] ==> p in novel;
    assert n == |novel| ==> novel[..n] == novel;
    novel[..n]
  }

  /** The list after a successful fetch (frontend/src/main.js:733-739):
      the added entries, then the old list unchanged. */
  function FetchMerged(list: seq<Proxy>, res: seq<Proxy>): (r: seq<Proxy>)
    ensures |r| == |FetchAdded(list, res)| + |list|
    ensures r[..|FetchAdded(list, res)|] == FetchAdded(list, res)
    ensures r[|FetchAdded(list, res)|..] == list
  {
    FetchAdded(list, res) + list
  }

  /** The added entries keep the order they were fetched in. */
  lemma FetchAddedInOrder(list: seq<Proxy>, res: seq<Proxy>)
    ensures Fetcher.IsSubsequence(FetchAdded(list, res), res)
  {
    var novel := Fresh(res, KeySet(list));
    FilterInOrder(res, p => KeyOf(p) !in KeySet(list));
    PrefixSubsequence(novel, res, Fetcher.Min(|novel|, MaxAddPerFetch));
  }

  // ----------------------------------------------------------- manual add

  /** Some entry has exactly this ip and this port. */
  predicate HasPair(ps: seq<Proxy>, ip: string, port: string) {
    exists k :: 0 <= k < |ps| && ps[k].ip == ip && ps[k].port == port
  }

  /** `addManualProxy` (frontend/src/main.js:764-791): the input must
      contain a colon; ip and port are the trimmed first and second
      colon-separated pieces; an existing pair leaves the list alone;
      otherwise one "new" entry is put in front. */
  function AddManual(ps: seq<Proxy>, value: string, id: string): (r: seq<Proxy>)
    ensures |r| == |ps| || |r| == |ps| + 1
    ensures r[|r| - |ps|..] == ps
    ensures |r| == |ps| ==> r == ps
    ensures |r| == |ps| + 1 <==> ':' in value && !HasPair(ps, Fetcher.FirstField(value), Fetcher.SecondField(value))
    ensures |r| == |ps| + 1 ==>
              r[0] == Proxy(id, Fetcher.FirstField(value), Fetcher.SecondField(value), "UN", 0, "new", "Manual")
  {
    if ':' !in value then ps
    else
      var ip := Fetcher.FirstField(value);
      var port := Fetcher.SecondField(value);
      if HasPair(ps, ip, port) then ps
      else
        var r := [Proxy(id, ip, port, "UN", 0, "new", "Manual")] + ps;
        assert r[1..] == ps;
        r
  }

  /** Adding the same text twice adds it once. */
  lemma AddManualOnce(ps: seq<Proxy>, value: string, id1: string, id2: string)
    ensures AddManual(AddManual(ps, value, id1), value, id2) == AddManual(ps, value, id1)
  {
    var r := AddManual(ps, value, id1);
    if |r| == |ps| + 1 {
      var ip := Fetcher.FirstField(value);
      var port := Fetcher.SecondField(value);
      assert r[0].ip == ip && r[0].port == port;
      assert HasPair(r, ip, port);
    }
  }

  // ---------------------------------------------------------- file import

  /** The entry line `i` of an imported file yields, before the key test:
      one "new" entry from the trimmed line when it is non-empty and
      contains a colon. */
  function ImportEntry(line: string, i: nat, stamp: string): (o: Option<Proxy>)
    ensures o.Some? <==> Trim(line) != "" && ':' in Trim(line)
    ensures o.Some? ==> o.value == Proxy(FileId(stamp, i), Fetcher.FirstField(Trim(line)),
                                         Fetcher.SecondField(Trim(line)), "UN", 0, "new", "File")
  {
    var t := Trim(line);
    if t == "" || ':' !in t then None
    else
      var parts := Split(t, ':');
      SplitFields(t, ':');
      Some(Proxy(FileId(stamp, i), Trim(parts[0]), Trim(parts[1]), "UN", 0, "new", "File"))
  }

  /** The ID `FILE-<time>-<line index>`. */
  function FileId(stamp: string, i: nat): string {
    "FILE-" + stamp + "-" + NatToString(i)
  }

  /** What every line of the file yields, by index. */
  function LineEntries(lines: seq<string>, stamp: string): (os: seq<Option<Proxy>>)
    ensures |os| == |lines|
    ensures forall i :: 0 <= i < |lines| ==> os[i] == ImportEntry(lines[i], i, stamp)
  {
    seq(|lines|, i requires 0 <= i < |lines| => ImportEntry(lines[i], i, stamp))
  }

  /** The entries among `os` whose key is not in `keys`, in order. */
  function Kept(os: seq<Option<Proxy>>, keys: set<string>): (r: seq<Proxy>)
    ensures |r| <= |os|
    ensures forall q :: q in r <==> Some(q) in os && KeyOf(q) !in keys
    decreases |os|
  {
    if |os| == 0 then []
    else
      var n := |os| - 1;
      var prev := Kept(os[..n], keys);
      assert forall o :: o in os <==> o in os[..n] || o == os[n];
      if os[n].Some? && KeyOf(os[n].value) !in keys then prev + [os[n].value] else prev
  }

  /** One more entry of `os` extends what is kept by that entry alone, or
      by nothing. */
  lemma KeptStep(os: seq<Option<Proxy>>, keys: set<string>, i: nat)
    requires i < |os|
    ensures os[i].Some? && KeyOf(os[i].value) !in keys ==>
              Kept(os[..i + 1], keys) == Kept(os[..i], keys) + [os[i].value]
    ensures !(os[i].Some? && KeyOf(os[i].value) !in keys) ==>
              Kept(os[..i + 1], keys) == Kept(os[..i], keys)
  {
    assert os[..i + 1][..i] == os[..i];
  }

  /** The entries `importFromFile` appends (frontend/src/main.js:806-826),
      in file order; `keys` is the set built once before the loop, so it
      does not grow with the entries appended. */
  function Imported(lines: seq<string>, keys: set<string>, stamp: string): (r: seq<Proxy>)
    ensures |r| <= |lines|
    ensures forall q :: q in r ==>
              q.status == "new" && q.latency == 0 && q.country == "UN" && q.source == "File"
              && KeyOf(q) !in keys
  {
    var os := LineEntries(lines, stamp);
    var r := Kept(os, keys);
    assert forall q :: q in r ==> exists i :: 0 <= i < |os| && os[i] == Some(q);
    r
  }

  /** An entry is appended exactly when some line yields it and its key
      was not in the list before. */
  lemma ImportedExactly(lines: seq<string>, keys: set<string>, stamp: string, q: Proxy)
    ensures q in Imported(lines, keys, stamp) <==>
              KeyOf(q) !in keys && exists i :: 0 <= i < |lines| && ImportEntry(lines[i], i, stamp) == Some(q)
  {
    var os := LineEntries(lines, stamp);
    if Some(q) in os {
      var i :| 0 <= i < |os| && os[i] == Some(q);
      assert ImportEntry(lines[i], i, stamp) == Some(q);
    }
  }

  /** Two different lines give entries with different IDs. */
  lemma FileIdsDiffer(stamp: string, i: nat, j: nat)
    requires i != j
    ensures FileId(stamp, i) != FileId(stamp, j)
  {
    var pre := "FILE-" + stamp + "-";
    if FileId(stamp, i) == FileId(stamp, j) {
      assert FileId(stamp, i) == pre + NatToString(i);
      assert NatToString(i) == FileId(stamp, i)[|pre|..];
      assert NatToString(j) == FileId(stamp, j)[|pre|..];
      NatToStringInjective(i, j);
    }
  }

  /** The key set is not updated inside the loop, so a line repeated in one
      file is imported once per occurrence. */
  lemma RepeatedLineImportedTwice(line: string, keys: set<string>, stamp: string)
    requires ImportEntry(line, 0, stamp).Some? && KeyOf(ImportEntry(line, 0, stamp).value) !in keys
    ensures |Imported([line, line], keys, stamp)| == 2
  {
    var e0 := ImportEntry(line, 0, stamp);
    var e1 := ImportEntry(line, 1, stamp);
    assert e1.Some? && KeyOf(e1.value) == KeyOf(e0.value);
    var lines := [line, line];
    var os := LineEntries(lines, stamp);
    assert lines[0] == line && lines[1] == line;
    assert |os| == 2 && os[0] == e0 && os[1] == e1;
    KeptTwo(os, keys);
  }

  lemma KeptTwo(os: seq<Option<Proxy>>, keys: set<string>)
    requires |os| == 2
    requires os[0].Some? && KeyOf(os[0].value) !in keys && os[1].Some? && KeyOf(os[1].value) !in keys
    ensures |Kept(os, keys)| == 2
  {
    assert |os[..1]| == 1 && os[..1][0] == os[0];
    assert os[..1][..0] == [];
  }

  // ---------------------------------------------------- stuck-status repair

  /** The repair applied to one entry: "checking" becomes "dead". */
  function RepairOne(p: Proxy): Proxy {
    if p.status == "checking" then p.(status := "dead") else p
  }

  /** The `forEach` of loadProxies, forceCleanStuckProxies and
      checkAllProxies (frontend/src/main.js:119-124, 1245-1250, 583-588,
      702): no entry is left "checking", a "checking" entry becomes "dead"
      and nothing else changes. */
  function Repaired(ps: seq<Proxy>): (r: seq<Proxy>)
    ensures |r| == |ps|
    ensures forall k :: 0 <= k < |r| ==> r[k].status != "checking"
    ensures forall k :: 0 <= k < |r| && ps[k].status != "checking" ==> r[k] == ps[k]
    ensures forall k :: 0 <= k < |r| && ps[k].status == "checking" ==> r[k] == ps[k].(status := "dead")
  {
    seq(|ps|, k requires 0 <= k < |ps| => RepairOne(ps[k]))
  }

  /** Repairing twice is repairing once. */
  lemma RepairedIdempotent(ps: seq<Proxy>)
    ensures Repaired(Repaired(ps)) == Repaired(ps)
  {
  }

  /** How many entries are "checking". */
  function CheckingCount(ps: seq<Proxy>): (n: nat)
    ensures n <= |ps|
    decreases |ps|
  {
    if |ps| == 0 then 0
    else CheckingCount(ps[..|ps| - 1]) + (if IsChecking(ps[|ps| - 1]) then 1 else 0)
  }

  /** The count is the length of the "checking" filter. */
  lemma {:induction false} CheckingCountFilter(ps: seq<Proxy>)
    ensures CheckingCount(ps) == |Filter(ps, IsChecking)|
    decreases |ps|
  {
    if |ps| > 0 {
      var n := |ps| - 1;
      CheckingCountFilter(ps[..n]);
      assert ps == ps[..n] + [ps[n]];
      FilterSnoc(ps[..n], ps[n], IsChecking);
    }
  }

  /** A list with no "checking" entry is left alone. */
  lemma RepairedSettled(ps: seq<Proxy>)
    requires forall q :: q in ps ==> q.status != "checking"
    ensures Repaired(ps) == ps
  {
    assert forall k :: 0 <= k < |ps| ==> ps[k] in ps;
  }

  // ---------------------------------------------------------- check result

  /** What one probe gave the worker: the `CheckResult` and the elapsed
      milliseconds, or nothing (a timeout or an exception). */
  datatype Answer = Answered(res: CheckResult, elapsed: nat) | NoAnswer

  /** The worker's update of one entry (frontend/src/main.js:644-656). A
      success makes it "active" with `res.latency`, or the measured time
      when that is 0, and `res.country`, or "UN" when that is empty;
      anything else makes it "dead" and keeps latency and country. */
  function Applied(p: Proxy, a: Answer): (q: Proxy)
    ensures q.status == "active" || q.status == "dead"
    ensures q.status == "active" <==> a.Answered? && a.res.success
    ensures q.status == "active" ==>
              q.latency == (if a.res.latency != 0 then a.res.latency else a.elapsed)
              && q.country == (if a.res.country != "" then a.res.country else "UN")
    ensures q.status == "dead" ==> q.latency == p.latency && q.country == p.country
    ensures q.id == p.id && q.ip == p.ip && q.port == p.port && q.source == p.source
  {
    var c := p.(status := "checking");
    if a.Answered? && a.res.success then
      c.(status := "active",
         latency := if a.res.latency != 0 then a.res.latency else a.elapsed,
         country := if a.res.country != "" then a.res.country else "UN")
    else c.(status := "dead")
  }

  /** An entry the worker visits: skipped when `skip` is set and it is
      already "active", updated otherwise. */
  function Visited(p: Proxy, skip: bool, a: Answer): (q: Proxy)
    ensures q.status == "active" || q.status == "dead"
  {
    if skip && p.status == "active" then p else Applied(p, a)
  }

  /** The whole `checkAllProxies` run (frontend/src/main.js:583-702) with
      one answer per entry: repair, visit every entry, keep only the active
      ones when `autoDel` is set, repair again. */
  function CheckRun(ps: seq<Proxy>, skip: bool, autoDel: bool, answers: seq<Answer>): seq<Proxy>
    requires |answers| == |ps|
  {
    var r := Repaired(ps);
    var c := seq(|r|, k requires 0 <= k < |r| => Visited(r[k], skip, answers[k]));
    Repaired(if autoDel then Filter(c, IsActive) else c)
  }

  /** After a run every entry is "active" or "dead", and only "active"
      ones are left when `autoDel` is set. */
  lemma CheckRunSettles(ps: seq<Proxy>, skip: bool, autoDel: bool, answers: seq<Answer>)
    requires |answers| == |ps|
    ensures var r := CheckRun(ps, skip, autoDel, answers);
      && (forall q :: q in r ==> q.status == "active" || q.status == "dead")
      && (autoDel ==> forall q :: q in r ==> q.status == "active")
  {
    var r := Repaired(ps);
    var c := seq(|r|, k requires 0 <= k < |r| => Visited(r[k], skip, answers[k]));
    assert forall q :: q in c ==> q.status == "active" || q.status == "dead";
    var f := if autoDel then Filter(c, IsActive) else c;
    assert forall q :: q in f ==> q in c;
    RepairedSettled(f);
  }

  /** A run without `autoDel` keeps every entry in place: its ip, port, id
      and source are unchanged. */
  lemma CheckRunKeepsEntries(ps: seq<Proxy>, skip: bool, answers: seq<Answer>)
    requires |answers| == |ps|
    ensures var r := CheckRun(ps, skip, false, answers);
      |r| == |ps| && forall k :: 0 <= k < |r| ==> r[k].ip == ps[k].ip && r[k].port == ps[k].port && r[k].id == ps[k].id
  {
  }

  // ------------------------------------------------------------- rotation

  /** A rotation candidate: "active" and on another ip. */
  predicate Candidate(p: Proxy, failedIp: string) {
    p.status == "active" && p.ip != failedIp
  }

  /** The `find` of handleProxyRotate (frontend/src/main.js:1127): the
      first active entry whose ip is not the failed one. */
  function NextActive(ps: seq<Proxy>, failedIp: string): (r: Option<Proxy>)
    ensures r.None? <==> forall k :: 0 <= k < |ps| ==> !Candidate(ps[k], failedIp)
    ensures r.Some? ==>
              exists k :: 0 <= k < |ps| && ps[k] == r.value && Candidate(ps[k], failedIp)
                          && forall j :: 0 <= j < k ==> !Candidate(ps[j], failedIp)
    decreases |ps|
  {
    if |ps| == 0 then None
    else if Candidate(ps[0], failedIp) then Some(ps[0])
    else
      var r := NextActive(ps[1..], failedIp);
      assert forall k :: 1 <= k < |ps| ==> ps[k] == ps[1..][k - 1];
      r
  }

  // --------------------------------------------------------- delete entry

  /** The `find` by id. */
  function FirstWithId(ps: seq<Proxy>, id: string): (r: Option<Proxy>)
    ensures r.None? <==> forall k :: 0 <= k < |ps| ==> ps[k].id != id
    ensures r.Some? ==> r.value in ps && r.value.id == id
    decreases |ps|
  {
    if |ps| == 0 then None
    else if ps[0].id == id then Some(ps[0])
    else
      var r := FirstWithId(ps[1..], id);
      assert forall k :: 1 <= k < |ps| ==> ps[k] == ps[1..][k - 1];
      r
  }

  /** `deleteProxy` (frontend/src/main.js:535-550): nothing happens for an
      unknown id or when the entry found has the active ip; otherwise every
      entry with that id goes and the rest stay in order. */
  function DeleteEntry(ps: seq<Proxy>, id: string, activeIp: Option<string>): (r: seq<Proxy>)
    ensures FirstWithId(ps, id).None? ==> r == ps
    ensures FirstWithId(ps, id).Some? && activeIp == Some(FirstWithId(ps, id).value.ip) ==> r == ps
    ensures FirstWithId(ps, id).Some? && activeIp != Some(FirstWithId(ps, id).value.ip) ==>
              && (forall p :: p in r <==> p in ps && p.id != id)
              && Fetcher.IsSubsequence(r, ps)
              && |r| < |ps|
  {
    var found := FirstWithId(ps, id);
    if found.None? then ps
    else if activeIp == Some(found.value.ip) then ps
    else
      var r := Filter(ps, (p: Proxy) => p.id != id);
      FilterInOrder(ps, (p: Proxy) => p.id != id);
      FilterDropsOne(ps, (p: Proxy) => p.id != id, found.value);
      r
  }

  /** A filter that drops an entry of the list is shorter than the list. */
  lemma {:induction false} FilterDropsOne(ps: seq<Proxy>, keep: Proxy -> bool, x: Proxy)
    requires x in ps && !keep(x)
    ensures |Filter(ps, keep)| < |ps|
  {
    var m := |ps| - 1;
    assert ps == ps[..m] + [ps[m]];
    FilterSnoc(ps[..m], ps[m], keep);
    if ps[m] != x {
      assert x in ps[..m];
      FilterDropsOne(ps[..m], keep, x);
    }
  }

  // --------------------------------------------------------- source URLs

  predicate HasScheme(url: string) {
    HasPrefix(url, "http://") || HasPrefix(url, "https://")
  }

  /** A URL without `http://` or `https://` gets `https://` in front. */
  function WithScheme(url: string): (r: string)
    ensures HasScheme(r)
    ensures HasScheme(url) ==> r == url
  {
    if HasScheme(url) then url
    else
      var r := "https://" + url;
      assert r[..8] == "https://";
      r
  }

  /** `addSource` (frontend/src/main.js:1007-1029): the trimmed input,
      unless empty, gets a scheme and is appended unless already present. */
  function AddSourceUrl(urls: seq<string>, input: string): (r: seq<string>)
    ensures Trim(input) == "" ==> r == urls
    ensures Trim(input) != "" ==> WithScheme(Trim(input)) in r
    ensures r == urls || (r == urls + [WithScheme(Trim(input))] && WithScheme(Trim(input)) !in urls)
  {
    var url := Trim(input);
    if url == "" then urls
    else
      var full := WithScheme(url);
      if full in urls then urls else urls + [full]
  }

  predicate Distinct(urls: seq<string>) {
    forall i, j :: 0 <= i < j < |urls| ==> urls[i] != urls[j]
  }

  /** Adding never creates a duplicate, and adding twice is adding once. */
  lemma AddSourceDistinct(urls: seq<string>, input: string)
    requires Distinct(urls)
    ensures Distinct(AddSourceUrl(urls, input))
    ensures AddSourceUrl(AddSourceUrl(urls, input), input) == AddSourceUrl(urls, input)
  {
    var r := AddSourceUrl(urls, input);
    if r != urls {
      assert forall i :: 0 <= i < |urls| ==> r[i] == urls[i];
    }
  }

  /** `splice(index, 1)`: a negative index counts from the end, an index
      past the end removes nothing. */
  function Splice1(urls: seq<string>, index: int): (r: seq<string>)
    ensures 0 <= index < |urls| ==> r == urls[..index] + urls[index + 1..]
    ensures -|urls| <= index < 0 ==> r == urls[..|urls| + index] + urls[|urls| + index + 1..]
    ensures index < -|urls| && |urls| > 0 ==> r == urls[1..]
    ensures index >= |urls| ==> r == urls
    ensures |r| == if urls == [] || index >= |urls| then |urls| else |urls| - 1
  {
    var start := if index < 0 then (if |urls| + index < 0 then 0 else |urls| + index)
                 else (if index > |urls| then |urls| else index);
    if start < |urls| then urls[..start] + urls[start + 1..] else urls
  }

  /** `deleteSource` at the position `addSource` just appended to undoes
      it. */
  lemma DeleteUndoesAdd(urls: seq<string>, input: string)
    requires AddSourceUrl(urls, input) != urls
    ensures Splice1(AddSourceUrl(urls, input), |urls|) == urls
  {
    var r := AddSourceUrl(urls, input);
    assert r[..|urls|] == urls;
  }
}
