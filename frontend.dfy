/** The global state of frontend/src/main.js that the list editors change:
    `proxyList`, `sourceUrls` and `currentActiveIP`. Every handler is a
    method that updates these fields as the script does, in place where the
    script mutates entries (`forEach`, `push`, `unshift`, `splice`), and is
    proved to agree with the rule of `ListRules` it implements. DOM
    rendering, notifications, `localStorage` and the Go calls are not
    modelled; what a Go call or a file dialog returned is an input. */
module Frontend {
  import opened Text
  import opened Types
  import opened ListRules

  class Globals {
    var proxyList: seq<Proxy>
    var sourceUrls: seq<string>
    /** `null` is `None`. */
    var currentActiveIp: Option<string>

    constructor ()
      ensures proxyList == [] && sourceUrls == [] && currentActiveIp == None
    {
      proxyList := [];
      sourceUrls := [];
      currentActiveIp := None;
    }

    /** The `forEach` that turns "checking" into "dead"; returns how many
        entries it changed. */
    method RepairStuck() returns (fixedCount: nat)
      modifies this`proxyList
      ensures proxyList == Repaired(old(proxyList))
      ensures fixedCount == |Filter(old(proxyList), IsChecking)|
    {
      ghost var before := proxyList;
      fixedCount := 0;
      for i := 0 to |proxyList|
        invariant |proxyList| == |before|
        invariant forall k :: 0 <= k < i ==> proxyList[k] == RepairOne(before[k])
        invariant forall k :: i <= k < |before| ==> proxyList[k] == before[k]
        invariant fixedCount == CheckingCount(before[..i])
      {
        assert before[..i + 1][..i] == before[..i];
        if proxyList[i].status == "checking" {
          proxyList := proxyList[i := proxyList[i].(status := "dead")];
          fixedCount := fixedCount + 1;
        }
      }
      assert before[..|before|] == before;
      CheckingCountFilter(before);
    }

    /** `loadProxies` (frontend/src/main.js:111-136): `saved` is the parsed
        stored list, `None` when nothing was stored or it did not parse. */
    method LoadProxies(saved: Option<seq<Proxy>>)
      modifies this`proxyList
      ensures proxyList == if saved.Some? then Repaired(saved.value) else []
    {
      if saved.None? {
        proxyList := [];
        return;
      }
      proxyList := saved.value;
      var _ := RepairStuck();
    }

    /** The list half of `fetchProxies` (frontend/src/main.js:731-739):
        `res` is what `FetchRealProxies` returned, `None` for an error, a
        timeout or a non-array. Returns the number of entries added. */
    method FetchProxies(res: Option<seq<Proxy>>) returns (added: nat)
      modifies this`proxyList
      ensures res.None? ==> proxyList == old(proxyList) && added == 0
      ensures res.Some? ==> proxyList == FetchMerged(old(proxyList), res.value)
                            && added == |FetchAdded(old(proxyList), res.value)|
    {
      if res.None? {
        return 0;
      }
      var limited := FetchAdded(proxyList, res.value);
      proxyList := limited + proxyList;
      added := |limited|;
    }

    /** `addManualProxy` with the input box's text; `id` stands for the
        generated `MAN-<time>-<random>`. */
    method AddManualProxy(value: string, id: string)
      modifies this`proxyList
      ensures proxyList == AddManual(old(proxyList), value, id)
    {
      if ':' !in value {
        return;
      }
      var ip := Fetcher.FirstField(value);
      var port := Fetcher.SecondField(value);
      if HasPair(proxyList, ip, port) {
        return;
      }
      proxyList := [Proxy(id, ip, port, "UN", 0, "new", "Manual")] + proxyList;
    }

    /** `importFromFile` with the file's content; `stamp` stands for
        `Date.now()`. Returns how many entries were appended. */
    method ImportFromFile(content: string, stamp: string) returns (count: nat)
      modifies this`proxyList
      ensures proxyList == old(proxyList) + Imported(Split(content, '\n'), KeySet(old(proxyList)), stamp)
      ensures count == |Imported(Split(content, '\n'), KeySet(old(proxyList)), stamp)|
    {
      var lines := Split(content, '\n');
      var existing := KeySet(proxyList);
      ghost var before := proxyList;
      ghost var os := LineEntries(lines, stamp);
      count := 0;
      for i := 0 to |lines|
        invariant proxyList == before + Kept(os[..i], existing)
        invariant count == |Kept(os[..i], existing)|
      {
        KeptStep(os, existing, i);
        var entry := ImportEntry(lines[i], i, stamp);
        if entry.Some? && KeyOf(entry.value) !in existing {
          AppendAssoc(before, Kept(os[..i], existing), [entry.value]);
          proxyList := proxyList + [entry.value];
          count := count + 1;
        }
      }
      assert os[..|lines|] == os;
    }

    /** `clearDeadProxies` (frontend/src/main.js:838-846): returns the
        number of entries removed. */
    method ClearDeadProxies() returns (removed: nat)
      modifies this`proxyList
      ensures proxyList == Filter(old(proxyList), (p: Proxy) => !IsDead(p))
      ensures removed == |Filter(old(proxyList), IsDead)|
    {
      var beforeCount := |proxyList|;
      ghost var before := proxyList;
      proxyList := Filter(proxyList, (p: Proxy) => !IsDead(p));
      FilterComplement(before, IsDead, (p: Proxy) => !IsDead(p));
      removed := beforeCount - |proxyList|;
    }

    /** The worker loop of `checkAllProxies` (frontend/src/main.js:613-665):
        each entry in turn is skipped or marked "checking" and then given
        the outcome of its probe. */
    method CheckPass(skip: bool, answers: seq<Answer>)
      requires |answers| == |proxyList|
      modifies this`proxyList
      ensures |proxyList| == |old(proxyList)|
      ensures forall k :: 0 <= k < |proxyList| ==> proxyList[k] == Visited(old(proxyList)[k], skip, answers[k])
    {
      ghost var r := proxyList;
      var currentIndex := 0;
      while currentIndex < |proxyList|
        invariant |proxyList| == |r| && currentIndex <= |r|
        invariant forall k :: 0 <= k < currentIndex ==> proxyList[k] == Visited(r[k], skip, answers[k])
        invariant forall k :: currentIndex <= k < |r| ==> proxyList[k] == r[k]
      {
        var i := currentIndex;
        currentIndex := currentIndex + 1;
        var p := proxyList[i];
        assert p == r[i];
        if skip && p.status == "active" {
          continue;
        }
        proxyList := proxyList[i := p.(status := "checking")];
        var q := Applied(p, answers[i]);
        assert q == Visited(r[i], skip, answers[i]);
        proxyList := proxyList[i := q];
      }
    }

    /** `checkAllProxies` (frontend/src/main.js:569-704) with the probes
        run one after the other: `answers[i]` is what probing entry `i`
        gave. */
    method CheckAllProxies(skip: bool, autoDel: bool, answers: seq<Answer>)
      requires |answers| == |proxyList|
      modifies this`proxyList
      ensures proxyList == CheckRun(old(proxyList), skip, autoDel, answers)
    {
      var _ := RepairStuck();
      ghost var r := proxyList;
      CheckPass(skip, answers);
      assert proxyList == seq(|r|, k requires 0 <= k < |r| => Visited(r[k], skip, answers[k]));
      if autoDel {
        proxyList := Filter(proxyList, IsActive);
      }
      var _ := RepairStuck();
    }

    /** `deleteProxy` (frontend/src/main.js:535-550). */
    method DeleteProxy(id: string)
      modifies this`proxyList
      ensures proxyList == DeleteEntry(old(proxyList), id, currentActiveIp)
    {
      var found := FirstWithId(proxyList, id);
      if found.None? {
        return;
      }
      if currentActiveIp == Some(found.value.ip) {
        return;
      }
      proxyList := Filter(proxyList, (p: Proxy) => p.id != id);
    }

    /** `addSource` with the input box's text. */
    method AddSource(input: string)
      modifies this`sourceUrls
      ensures sourceUrls == AddSourceUrl(old(sourceUrls), input)
    {
      var url := Trim(input);
      if url == "" {
        return;
      }
      if !HasScheme(url) {
        url := "https://" + url;
      }
      if url in sourceUrls {
        return;
      }
      sourceUrls := sourceUrls + [url];
    }

    /** `deleteSource` (frontend/src/main.js:1041-1046). */
    method DeleteSource(index: int)
      modifies this`sourceUrls
      ensures sourceUrls == Splice1(old(sourceUrls), index)
    {
      sourceUrls := Splice1(sourceUrls, index);
    }

    /** `handleConnectionSuccess` (frontend/src/main.js:1093-1096). */
    method ConnectionSucceeded(ip: string)
      modifies this`currentActiveIp
      ensures currentActiveIp == Some(ip)
    {
      currentActiveIp := Some(ip);
    }

    /** `handleConnectionDisconnected` (frontend/src/main.js:1105-1110). */
    method ConnectionDisconnected()
      modifies this`currentActiveIp
      ensures currentActiveIp == None
    {
      currentActiveIp := None;
    }
  }
}
