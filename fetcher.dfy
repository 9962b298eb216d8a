/** The list logic of `FetchRealProxies` (app.go:312-429) and
    `removeDuplicateProxies` (app.go:432-445). The HTTP downloads are
    inputs: each source either failed or produced a body. Whether a field is
    an IP address (`net.ParseIP`) or an integer (`strconv.Atoi`) is decided by
    the predicates `ipOk` and `portOk`, passed in. */
module Fetcher {
  import opened Text
  import opened Types

  const MaxProxiesPerSource: nat := 1000
  const MaxTotalProxies: nat := 5000
  /** `io.LimitReader(resp.Body, 1024*1024)`. */
  const BodyLimit: nat := 1024 * 1024

  function Min(a: nat, b: nat): nat {
    if a <= b then a else b
  }

  /** The ID `API-<nanos % 10000>-<line index>` (app.go:388). */
  function ApiId(nanos: nat, i: nat): string {
    "API-" + NatToString(nanos % 10000) + "-" + NatToString(i)
  }

  /** The trimmed text before the first colon. */
  function FirstField(t: string): string {
    Trim(Before(t, ':'))
  }

  /** The trimmed text between the first and the second colon. */
  function SecondField(t: string): string
    requires ':' in t
  {
    Trim(Before(After(t, ':'), ':'))
  }

  /** One line of a source body (app.go:369-395). A line is accepted iff,
      once trimmed, it is non-empty, contains a colon, and its first and
      second colon-separated fields (trimmed) pass the IP and integer
      predicates; the entry then carries those fields, country "UN", status
      "new" and source "API". */
  function ParseLine(line: string, i: nat, nanos: nat, ipOk: string -> bool, portOk: string -> bool): (r: Option<Proxy>)
    ensures r.Some? <==>
              var t := Trim(line); t != "" && ':' in t && ipOk(FirstField(t)) && portOk(SecondField(t))
    ensures r.Some? ==>
              var t := Trim(line);
              r.value == Proxy(ApiId(nanos, i), FirstField(t), SecondField(t), "UN", 0, "new", "API")
    ensures r.Some? ==> ':' !in r.value.ip && ':' !in r.value.port
  {
    var t := Trim(line);
    if t == "" || ':' !in t then None
    else
      var parts := Split(t, ':');
      SplitFields(t, ':');
      if |parts| >= 2 then
        var ip := Trim(parts[0]);
        var port := Trim(parts[1]);
        if !ipOk(ip) then None
        else if !portOk(port) then None
        else Some(Proxy(ApiId(nanos, i), ip, port, "UN", 0, "new", "API"))
      else None
  }

  /** The entries of a list of parse results, in order. */
  function Somes(os: seq<Option<Proxy>>): (r: seq<Proxy>)
    ensures |r| <= |os|
    decreases |os|
  {
    if |os| == 0 then []
    else
      var prev := Somes(os[..|os| - 1]);
      var last := os[|os| - 1];
      if last.Some? then prev + [last.value] else prev
  }

  /** The result of `ParseLine` for every line, with its index. */
  function ParsedLines(lines: seq<string>, nanos: nat, ipOk: string -> bool, portOk: string -> bool): (os: seq<Option<Proxy>>)
    ensures |os| == |lines|
    ensures forall j :: 0 <= j < |lines| ==> os[j] == ParseLine(lines[j], j, nanos, ipOk, portOk)
  {
    seq(|lines|, j requires 0 <= j < |lines| => ParseLine(lines[j], j, nanos, ipOk, portOk))
  }

  /** Every entry the lines yield, in line order, before any cap. */
  function Accepted(lines: seq<string>, nanos: nat, ipOk: string -> bool, portOk: string -> bool): seq<Proxy> {
    Somes(ParsedLines(lines, nanos, ipOk, portOk))
  }

  /** The entries of a prefix of the parse results are a prefix of the
      entries of all of them. */
  lemma {:induction false} SomesPrefix(os: seq<Option<Proxy>>, n: nat)
    requires n <= |os|
    ensures var pre := Somes(os[..n]);
      |pre| <= |Somes(os)| && Somes(os)[..|pre|] == pre
    decreases |os| - n
  {
    if n < |os| {
      var m := |os| - 1;
      assert os[..m][..n] == os[..n];
      SomesPrefix(os[..m], n);
    } else {
      assert os[..n] == os;
    }
  }

  /** One more parse result extends the entries by its value, if any. */
  lemma SomesStep(os: seq<Option<Proxy>>, i: nat)
    requires i < |os|
    ensures Somes(os[..i + 1]) == Somes(os[..i]) + (if os[i].Some? then [os[i].value] else [])
  {
    assert os[..i + 1][..i] == os[..i];
  }

  /** Every entry comes from one parse result. */
  lemma {:induction false} SomesFrom(os: seq<Option<Proxy>>)
    ensures forall k :: 0 <= k < |Somes(os)| ==> exists j :: 0 <= j < |os| && os[j] == Some(Somes(os)[k])
    decreases |os|
  {
    if |os| > 0 {
      var m := |os| - 1;
      var pre := os[..m];
      SomesFrom(pre);
      var r := Somes(os);
      var prev := Somes(pre);
      forall k | 0 <= k < |r|
        ensures exists j :: 0 <= j < |os| && os[j] == Some(r[k])
      {
        if k < |prev| {
          assert r[k] == prev[k];
          assert exists j :: 0 <= j < |pre| && pre[j] == Some(prev[k]);
          var j :| 0 <= j < |pre| && pre[j] == Some(prev[k]);
          assert os[j] == pre[j];
        } else {
          assert os[m] == Some(r[k]);
        }
      }
    } else {
      assert |Somes(os)| == 0;
    }
  }

  /** Every entry one source contributes has the shape the fetcher promises:
      IP and port pass the predicates and contain no colon, the country is
      "UN", the status "new" and the source "API". */
  lemma AcceptedShape(lines: seq<string>, nanos: nat, ipOk: string -> bool, portOk: string -> bool)
    ensures var r := Accepted(lines, nanos, ipOk, portOk);
      forall k :: 0 <= k < |r| ==>
        && ipOk(r[k].ip) && portOk(r[k].port) && ':' !in r[k].ip && ':' !in r[k].port
        && r[k].country == "UN" && r[k].status == "new" && r[k].source == "API" && r[k].latency == 0
  {
    var os := ParsedLines(lines, nanos, ipOk, portOk);
    SomesFrom(os);
    var r := Accepted(lines, nanos, ipOk, portOk);
    forall k | 0 <= k < |r|
      ensures ipOk(r[k].ip) && portOk(r[k].port) && ':' !in r[k].ip && ':' !in r[k].port
      ensures r[k].country == "UN" && r[k].status == "new" && r[k].source == "API" && r[k].latency == 0
    {
      var j :| 0 <= j < |os| && os[j] == Some(r[k]);
      assert ParseLine(lines[j], j, nanos, ipOk, portOk) == Some(r[k]);
    }
  }

  /** The per-source loop (app.go:363-396): parses lines in order and stops
      once 1000 entries are collected, so it keeps exactly the first
      `min(1000, n)` of the `n` entries the lines yield. */
  method ParseSource(lines: seq<string>, nanos: nat, ipOk: string -> bool, portOk: string -> bool) returns (temp: seq<Proxy>)
    ensures |temp| <= MaxProxiesPerSource
    ensures var all := Accepted(lines, nanos, ipOk, portOk);
      temp == all[..Min(|all|, MaxProxiesPerSource)]
  {
    ghost var os := ParsedLines(lines, nanos, ipOk, portOk);
    temp := [];
    var i := 0;
    while i < |lines|
      invariant 0 <= i <= |lines|
      invariant temp == Somes(os[..i])
      invariant |temp| <= MaxProxiesPerSource
    {
      if |temp| >= MaxProxiesPerSource {
        break;
      }
      var parsed := ParseLine(lines[i], i, nanos, ipOk, portOk);
      ParseStep(lines, nanos, ipOk, portOk, i, parsed);
      if parsed.Some? {
        temp := temp + [parsed.value];
      }
      i := i + 1;
    }
    CapReached(os, i, temp);
  }

  /** One more line extends the accepted entries by its parse result. */
  lemma ParseStep(lines: seq<string>, nanos: nat, ipOk: string -> bool, portOk: string -> bool, i: nat, parsed: Option<Proxy>)
    requires i < |lines| && parsed == ParseLine(lines[i], i, nanos, ipOk, portOk)
    ensures var os := ParsedLines(lines, nanos, ipOk, portOk);
      Somes(os[..i + 1]) == Somes(os[..i]) + (if parsed.Some? then [parsed.value] else [])
  {
    SomesStep(ParsedLines(lines, nanos, ipOk, portOk), i);
  }

  /** Stopping at index `i`, either at the end or with 1000 entries, leaves
      the first `min(1000, n)` entries. */
  lemma CapReached(os: seq<Option<Proxy>>, i: nat, temp: seq<Proxy>)
    requires i <= |os| && temp == Somes(os[..i]) && |temp| <= MaxProxiesPerSource
    requires i == |os| || |temp| >= MaxProxiesPerSource
    ensures temp == Somes(os)[..Min(|Somes(os)|, MaxProxiesPerSource)]
  {
    SomesPrefix(os, i);
    if i == |os| {
      assert os[..i] == os;
    }
  }

  /** The lines of a body as `strings.Split(string(b), "\n")` sees them, after
      the 1 MiB read limit. */
  function BodyLines(body: string): seq<string> {
    Split(body[..Min(|body|, BodyLimit)], '\n')
  }

  /** What one source download produced: an error, or a body read at the
      clock reading `nanos`. */
  datatype FetchOutcome = FetchFailed | Fetched(body: string, nanos: nat)

  /** The capped entries of one source (`temp`). */
  function SourceEntries(o: FetchOutcome, ipOk: string -> bool, portOk: string -> bool): (r: seq<Proxy>)
    ensures |r| <= MaxProxiesPerSource
    ensures o.FetchFailed? ==> r == []
    ensures o.Fetched? ==>
              var all := Accepted(BodyLines(o.body), o.nanos, ipOk, portOk);
              |r| == Min(|all|, MaxProxiesPerSource) && r == all[..|r|]
  {
    match o
    case FetchFailed => []
    case Fetched(body, nanos) =>
      var all := Accepted(BodyLines(body), nanos, ipOk, portOk);
      all[..Min(|all|, MaxProxiesPerSource)]
  }

  /** Room left under the total cap. */
  function Remaining(n: nat): nat {
    if n < MaxTotalProxies then MaxTotalProxies - n else 0
  }

  /** The locked merge (app.go:398-408): appends the first
      `min(len(temp), 5000 - len(allResult))` entries of `temp`, nothing
      when the total already reached 5000. */
  function MergeCapped(all: seq<Proxy>, temp: seq<Proxy>): (r: seq<Proxy>)
    ensures r == all + temp[..Min(|temp|, Remaining(|all|))]
    ensures |all| <= MaxTotalProxies ==> |r| <= MaxTotalProxies
    ensures |all| >= MaxTotalProxies ==> r == all
  {
    var remaining := MaxTotalProxies as int - |all|;
    if remaining > 0 then
      if |temp| > remaining then all + temp[..remaining] else all + temp
    else
      assert temp[..0] == [];
      all
  }

  /** `allResult` after the per-source lists `temps` have been merged, in
      that order. A source met when the total is already 5000 is not even
      fetched. */
  function MergeAll(temps: seq<seq<Proxy>>): (r: seq<Proxy>)
    ensures |r| <= MaxTotalProxies
    decreases |temps|
  {
    if |temps| == 0 then []
    else
      var prev := MergeAll(temps[..|temps| - 1]);
      if |prev| >= MaxTotalProxies then prev
      else MergeCapped(prev, temps[|temps| - 1])
  }

  /** The capped entries of every source, in merge order. */
  function SourceLists(os: seq<FetchOutcome>, ipOk: string -> bool, portOk: string -> bool): (temps: seq<seq<Proxy>>)
    ensures |temps| == |os|
    ensures forall k :: 0 <= k < |os| ==> temps[k] == SourceEntries(os[k], ipOk, portOk)
  {
    seq(|os|, k requires 0 <= k < |os| => SourceEntries(os[k], ipOk, portOk))
  }

  /** The list `FetchRealProxies` hands to the de-duplication. */
  function Collect(os: seq<FetchOutcome>, ipOk: string -> bool, portOk: string -> bool): seq<Proxy> {
    MergeAll(SourceLists(os, ipOk, portOk))
  }

  /** Concatenation of a list of chunks. */
  function Flatten(cs: seq<seq<Proxy>>): seq<Proxy> {
    if |cs| == 0 then [] else Flatten(cs[..|cs| - 1]) + cs[|cs| - 1]
  }

  /** What each source list added to `allResult`. */
  function Contributions(temps: seq<seq<Proxy>>): (cs: seq<seq<Proxy>>)
    ensures |cs| == |temps|
    decreases |temps|
  {
    if |temps| == 0 then []
    else
      var prev := MergeAll(temps[..|temps| - 1]);
      var whole := MergeAll(temps);
      Contributions(temps[..|temps| - 1]) + [whole[Min(|prev|, |whole|)..]]
  }

  /** The merged list is the concatenation of per-source chunks, and each
      chunk is a prefix of its source's list. */
  lemma {:induction false} MergeBySource(temps: seq<seq<Proxy>>)
    ensures var cs := Contributions(temps);
      && Flatten(cs) == MergeAll(temps)
      && forall k :: 0 <= k < |temps| ==> |cs[k]| <= |temps[k]| && cs[k] == temps[k][..|cs[k]|]
    decreases |temps|
  {
    if |temps| > 0 {
      var m := |temps| - 1;
      var pre := temps[..m];
      MergeBySource(pre);
      var prev := MergeAll(pre);
      var whole := MergeAll(temps);
      var cs := Contributions(temps);
      var src := temps[m];
      var chunk := whole[Min(|prev|, |whole|)..];
      if |prev| >= MaxTotalProxies {
        assert whole == prev && chunk == [];
      } else {
        assert whole == prev + src[..Min(|src|, Remaining(|prev|))];
        assert chunk == src[..Min(|src|, Remaining(|prev|))];
      }
      assert cs == Contributions(pre) + [chunk];
      assert cs[..m] == Contributions(pre);
      assert Flatten(cs) == Flatten(cs[..m]) + chunk;
      forall k | 0 <= k < |temps|
        ensures |cs[k]| <= |temps[k]| && cs[k] == temps[k][..|cs[k]|]
      {
        if k < m {
          assert cs[k] == Contributions(pre)[k];
          assert pre[k] == temps[k];
        }
      }
    } else {
      assert Contributions(temps) == [];
    }
  }

  /** What `FetchRealProxies` collects is, source by source, a prefix of
      what that source's body yields, at most 1000 entries per source and
      5000 in total. */
  lemma CollectBySource(os: seq<FetchOutcome>, ipOk: string -> bool, portOk: string -> bool)
    ensures var cs := Contributions(SourceLists(os, ipOk, portOk));
      && Flatten(cs) == Collect(os, ipOk, portOk)
      && |Collect(os, ipOk, portOk)| <= MaxTotalProxies
      && forall k :: 0 <= k < |os| ==>
           |cs[k]| <= |SourceEntries(os[k], ipOk, portOk)| <= MaxProxiesPerSource
           && cs[k] == SourceEntries(os[k], ipOk, portOk)[..|cs[k]|]
  {
    var temps := SourceLists(os, ipOk, portOk);
    MergeBySource(temps);
    var cs := Contributions(temps);
    forall k | 0 <= k < |os|
      ensures |cs[k]| <= |SourceEntries(os[k], ipOk, portOk)| <= MaxProxiesPerSource
           && cs[k] == SourceEntries(os[k], ipOk, portOk)[..|cs[k]|]
    {
      assert temps[k] == SourceEntries(os[k], ipOk, portOk);
    }
  }

  /** The concurrent download loop of `FetchRealProxies`, run over the
      sources in the order their goroutines take the lock. */
  method CollectSources(os: seq<FetchOutcome>, ipOk: string -> bool, portOk: string -> bool) returns (all: seq<Proxy>)
    ensures all == Collect(os, ipOk, portOk)
    ensures |all| <= MaxTotalProxies
  {
    ghost var temps := SourceLists(os, ipOk, portOk);
    all := [];
    for i := 0 to |os|
      invariant all == MergeAll(temps[..i])
    {
      assert temps[..i + 1][..i] == temps[..i];
      if |all| < MaxTotalProxies {
        match os[i] {
          case FetchFailed =>
            assert temps[i] == [];
          case Fetched(body, nanos) =>
            var temp := ParseSource(BodyLines(body), nanos, ipOk, portOk);
            assert temp == temps[i];
            all := MergeCapped(all, temp);
        }
      }
    }
    assert temps[..|os|] == temps;
  }

  /** First-occurrence de-duplication by `ip:port`, given the keys already
      seen. */
  function DedupFrom(ps: seq<Proxy>, seen: set<string>): seq<Proxy>
    decreases |ps|
  {
    if |ps| == 0 then []
    else if KeyOf(ps[0]) in seen then DedupFrom(ps[1..], seen)
    else [ps[0]] + DedupFrom(ps[1..], seen + {KeyOf(ps[0])})
  }

  function Dedup(ps: seq<Proxy>): seq<Proxy> {
    DedupFrom(ps, {})
  }

  /** `a` is `b` with some elements left out. */
  predicate IsSubsequence(a: seq<Proxy>, b: seq<Proxy>)
    decreases |b|
  {
    if |a| == 0 then true
    else if |b| == 0 then false
    else if a[0] == b[0] then IsSubsequence(a[1..], b[1..])
    else IsSubsequence(a, b[1..])
  }

  /** No two entries share a key. */
  predicate DistinctKeys(ps: seq<Proxy>) {
    forall i, j :: 0 <= i < j < |ps| ==> KeyOf(ps[i]) != KeyOf(ps[j])
  }

  lemma {:induction false} DedupFromFacts(ps: seq<Proxy>, seen: set<string>)
    ensures var r := DedupFrom(ps, seen);
      && IsSubsequence(r, ps)
      && DistinctKeys(r)
      && KeySet(r) == KeySet(ps) - seen
    decreases |ps|
  {
    if |ps| > 0 {
      var p := ps[0];
      var rest := ps[1..];
      KeySetCons(p, rest);
      assert ps == [p] + rest;
      if KeyOf(p) in seen {
        DedupFromFacts(rest, seen);
        SubsequenceTail(DedupFrom(rest, seen), rest, p);
      } else {
        var tail := DedupFrom(rest, seen + {KeyOf(p)});
        DedupFromFacts(rest, seen + {KeyOf(p)});
        var r := [p] + tail;
        assert r[1..] == tail;
        KeySetCons(p, tail);
        forall i, j | 0 <= i < j < |r| ensures KeyOf(r[i]) != KeyOf(r[j]) {
          if i == 0 {
            assert KeyOf(r[j]) in KeySet(tail) by { assert tail[j - 1] == r[j]; }
          } else {
            assert r[i] == tail[i - 1] && r[j] == tail[j - 1];
          }
        }
      }
    }
  }

  /** From `a` subsequence of `b` drop the first element of `a`. */
  lemma {:induction false} SubsequencePeel(a: seq<Proxy>, b: seq<Proxy>)
    requires |a| > 0 && IsSubsequence(a, b)
    ensures IsSubsequence(a[1..], b)
    decreases |b|, 0
  {
    assert |b| > 0;
    if a[0] == b[0] {
      SubsequenceTail(a[1..], b[1..], b[0]);
    } else {
      SubsequencePeel(a, b[1..]);
      SubsequenceTail(a[1..], b[1..], b[0]);
    }
  }

  /** Prepending any element to `b` keeps `a` a subsequence of it. */
  lemma {:induction false} SubsequenceTail(a: seq<Proxy>, b: seq<Proxy>, x: Proxy)
    requires IsSubsequence(a, b)
    ensures IsSubsequence(a, [x] + b)
    decreases |b|, 1
  {
    var xb := [x] + b;
    assert xb[1..] == b;
    if |a| > 0 && a[0] == x {
      SubsequencePeel(a, b);
    }
  }

  /** Every first occurrence of a key survives de-duplication. */
  lemma {:induction false} DedupFromKeepsFirst(ps: seq<Proxy>, seen: set<string>, j: nat)
    requires j < |ps| && KeyOf(ps[j]) !in seen && KeyOf(ps[j]) !in KeySet(ps[..j])
    ensures ps[j] in DedupFrom(ps, seen)
    decreases |ps|
  {
    var p := ps[0];
    var rest := ps[1..];
    if j > 0 {
      assert KeyOf(p) in KeySet(ps[..j]) by { assert ps[..j][0] == p; }
      assert rest[j - 1] == ps[j];
      assert forall x :: x in KeySet(rest[..j - 1]) ==> x in KeySet(ps[..j]) by {
        forall x | x in KeySet(rest[..j - 1]) ensures x in KeySet(ps[..j]) {
          var i :| 0 <= i < j - 1 && KeyOf(rest[..j - 1][i]) == x;
          assert ps[..j][i + 1] == rest[..j - 1][i];
        }
      }
      if KeyOf(p) in seen {
        DedupFromKeepsFirst(rest, seen, j - 1);
      } else {
        DedupFromKeepsFirst(rest, seen + {KeyOf(p)}, j - 1);
      }
    }
  }

  /** De-duplicating a list whose keys are distinct and unseen keeps it. */
  lemma {:induction false} DedupFromDistinct(ps: seq<Proxy>, seen: set<string>)
    requires DistinctKeys(ps) && KeySet(ps) !! seen
    ensures DedupFrom(ps, seen) == ps
    decreases |ps|
  {
    if |ps| > 0 {
      var p := ps[0];
      var rest := ps[1..];
      KeySetCons(p, rest);
      assert ps == [p] + rest;
      forall i | 0 <= i < |rest| ensures KeyOf(rest[i]) != KeyOf(p) {
        assert ps[i + 1] == rest[i];
      }
      assert DistinctKeys(rest) by {
        forall i, j | 0 <= i < j < |rest| ensures KeyOf(rest[i]) != KeyOf(rest[j]) {
          assert rest[i] == ps[i + 1] && rest[j] == ps[j + 1];
        }
      }
      DedupFromDistinct(rest, seen + {KeyOf(p)});
    }
  }

  /** `removeDuplicateProxies` returns a subsequence of its input with no two
      entries sharing a key, covering every key of the input, keeping each
      key's first occurrence; applying it again changes nothing. */
  lemma DedupProperties(ps: seq<Proxy>)
    ensures var r := Dedup(ps);
      && IsSubsequence(r, ps)
      && DistinctKeys(r)
      && KeySet(r) == KeySet(ps)
      && (forall j :: 0 <= j < |ps| && KeyOf(ps[j]) !in KeySet(ps[..j]) ==> ps[j] in r)
      && Dedup(r) == r
  {
    DedupFromFacts(ps, {});
    forall j | 0 <= j < |ps| && KeyOf(ps[j]) !in KeySet(ps[..j])
      ensures ps[j] in Dedup(ps)
    {
      DedupFromKeepsFirst(ps, {}, j);
    }
    DedupFromDistinct(Dedup(ps), {});
  }

  /** `removeDuplicateProxies` (app.go:432-445): the loop over the input
      with the `seen` map. */
  method RemoveDuplicateProxies(proxies: seq<Proxy>) returns (unique: seq<Proxy>)
    ensures unique == Dedup(proxies)
    ensures DistinctKeys(unique) && KeySet(unique) == KeySet(proxies)
  {
    var seen: map<string, bool> := map[];
    unique := [];
    var i := 0;
    assert proxies[i..] == proxies && proxies[..i] == [];
    assert KeySet([]) == {};
    assert seen.Keys == {};
    while i < |proxies|
      invariant 0 <= i <= |proxies|
      invariant seen.Keys == KeySet(proxies[..i])
      invariant forall k :: k in seen ==> seen[k]
      invariant unique + DedupFrom(proxies[i..], seen.Keys) == Dedup(proxies)
    {
      var proxy := proxies[i];
      var key := KeyOf(proxy);
      assert proxies[i..] == [proxy] + proxies[i + 1..];
      KeySetSnoc(proxies[..i], proxy);
      assert proxies[..i + 1] == proxies[..i] + [proxy];
      if !(key in seen && seen[key]) {
        seen := seen[key := true];
        unique := unique + [proxy];
      }
      i := i + 1;
    }
    assert proxies[i..] == [];
    DedupProperties(proxies);
  }
  /** `FetchRealProxies` (app.go:312-429): the capped collection over the
      sources, then the de-duplication, reported by one `proxies_fetched`
      event carrying the number of unique entries. */
  method FetchRealProxies(os: seq<FetchOutcome>, ipOk: string -> bool, portOk: string -> bool)
    returns (unique: seq<Proxy>, event: Event)
    ensures unique == Dedup(Collect(os, ipOk, portOk))
    ensures IsSubsequence(unique, Collect(os, ipOk, portOk)) && DistinctKeys(unique)
    ensures KeySet(unique) == KeySet(Collect(os, ipOk, portOk))
    ensures |unique| <= MaxTotalProxies
    ensures event == ProxiesFetched(|unique|)
  {
    var all := CollectSources(os, ipOk, portOk);
    unique := RemoveDuplicateProxies(all);
    DedupProperties(all);
    DedupShorter(all, {});
    event := ProxiesFetched(|unique|);
  }

  /** De-duplication never lengthens a list. */
  lemma {:induction false} DedupShorter(ps: seq<Proxy>, seen: set<string>)
    ensures |DedupFrom(ps, seen)| <= |ps|
    decreases |ps|
  {
    if |ps| > 0 {
      DedupShorter(ps[1..], seen);
      DedupShorter(ps[1..], seen + {KeyOf(ps[0])});
    }
  }
}
