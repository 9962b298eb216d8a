/** The kioslaverc line rewrites of `enableKDEProxy` (app.go:1092-1134) and
    `disableKDEProxy` (app.go:1169-1201). Reading and writing the file and
    the dbus reload are not modelled: the functions map the file's lines
    (`strings.Split(content, "\n")`) to the lines written back.

    Both loops look at a line only through the tests the Go code makes on
    it, summarised by its `Kind`. The rewrite and its general laws are
    stated for any classification of lines; `Classify` is the one the Go
    code uses. */
module Kde {
  import opened Text

  const Header: string := "[Proxy Settings]"

  /** The six keys whose lines the rewrites drop. */
  const ProxyKeys: seq<string> := ["ProxyType", "httpProxy", "httpsProxy", "ftpProxy", "socksProxy", "NoProxyFor"]

  /** `strings.Contains(line, "[Proxy Settings]")`: the line (re)enters the
      proxy section. */
  predicate IsHeader(line: string) {
    Contains(line, Header)
  }

  /** `strings.HasPrefix(line, "[")`: a line that ends the proxy section
      unless it is itself a proxy header. */
  predicate OpensSection(line: string) {
    HasPrefix(line, "[")
  }

  /** The trimmed line starts with one of the six proxy keys. */
  predicate IsProxyKey(line: string) {
    var t := Trim(line);
    HasPrefix(t, "ProxyType") || HasPrefix(t, "httpProxy") || HasPrefix(t, "httpsProxy")
    || HasPrefix(t, "ftpProxy") || HasPrefix(t, "socksProxy") || HasPrefix(t, "NoProxyFor")
  }

  /** The trimmed line starts with `ProxyType`. */
  predicate IsProxyTypeLine(line: string) {
    HasPrefix(Trim(line), "ProxyType")
  }

  /** What the loops make of a line: a proxy header, another section
      header, a `ProxyType` setting, one of the other five settings, or
      anything else. */
  datatype Kind = HeaderLine | SectionLine | TypeSetting | OtherSetting | PlainLine

  predicate IsSetting(k: Kind) {
    k == TypeSetting || k == OtherSetting
  }

  /** The tests of the Go loops, in their order. */
  function Classify(line: string): Kind {
    if IsHeader(line) then HeaderLine
    else if OpensSection(line) then SectionLine
    else if IsProxyTypeLine(line) then TypeSetting
    else if IsProxyKey(line) then OtherSetting
    else PlainLine
  }

  /** The `inProxySection` flag once a line of kind `k` has been read. */
  function Step(k: Kind, inSec: bool): bool {
    match k
    case HeaderLine => true
    case SectionLine => false
    case _ => inSec
  }

  /** The flag after a run of lines. */
  function StateAfter(lines: seq<string>, inSec: bool, kind: string -> Kind): bool
    decreases |lines|
  {
    if |lines| == 0 then inSec else StateAfter(lines[1..], Step(kind(lines[0]), inSec), kind)
  }

  /** Which of the two rewrites is running. */
  datatype Mode = Enabling | Disabling

  /** What one line becomes. Inside a proxy section a setting is dropped,
      except that disabling turns a `ProxyType` setting into `ProxyType=0`.
      Every other line is kept. */
  function Emit(line: string, k: Kind, inSec: bool, mode: Mode): seq<string> {
    if IsSetting(k) && inSec then
      if mode == Disabling && k == TypeSetting then ["ProxyType=0"] else []
    else [line]
  }

  /** The rewritten lines, starting with the given flag. */
  function Rewrite(lines: seq<string>, inSec: bool, mode: Mode, kind: string -> Kind): seq<string>
    decreases |lines|
  {
    if |lines| == 0 then []
    else
      var k := kind(lines[0]);
      Emit(lines[0], k, inSec, mode) + Rewrite(lines[1..], Step(k, inSec), mode, kind)
  }

  /** Some line is a proxy header (`proxySectionAdded` at the end of the
      loop). */
  predicate HasHeader(lines: seq<string>, kind: string -> Kind) {
    exists i :: 0 <= i < |lines| && kind(lines[i]) == HeaderLine
  }

  /** The classification reads `ProxyType=0` as a `ProxyType` setting. */
  predicate ZeroIsType(kind: string -> Kind) {
    kind("ProxyType=0") == TypeSetting
  }

  /** The setting line `key=value`. */
  function Setting(key: string, value: string): string {
    key + "=" + value
  }

  /** The value written for the `k`-th proxy key. */
  function BlockValue(k: nat, url: string): string {
    if k == 0 then "1" else if k == 5 then "localhost,127.0.0.1" else url
  }

  /** The six settings `enableKDEProxy` appends: `ProxyType=1`, the four
      proxy URLs `http://host:port`, and `NoProxyFor=localhost,127.0.0.1`. */
  function Block(host: string, port: string): (b: seq<string>)
    ensures |b| == 6
  {
    var url := "http://" + host + ":" + port;
    seq(6, k requires 0 <= k < 6 => Setting(ProxyKeys[k], BlockValue(k, url)))
  }

  /** The enable rewrite for a classification `kind` and appended block
      `b`: old settings inside proxy sections dropped, a header appended
      when there was none, then `b` appended at the end of the file. */
  function Enable(lines: seq<string>, b: seq<string>, kind: string -> Kind): seq<string> {
    var cleaned := Rewrite(lines, false, Enabling, kind);
    (if HasHeader(lines, kind) then cleaned else cleaned + [Header]) + b
  }

  /** `enableKDEProxy` as written. */
  function EnableKde(lines: seq<string>, host: string, port: string): seq<string> {
    Enable(lines, Block(host, port), Classify)
  }

  /** `disableKDEProxy`. */
  function DisableKde(lines: seq<string>): seq<string> {
    Rewrite(lines, false, Disabling, Classify)
  }

  /** `enableKDEProxy`'s rewrite of the file's lines (app.go:1092-1134):
      the cleaning loop, then the header when none was seen, then the
      block. */
  method EnableKdeLines(lines: seq<string>, host: string, port: string) returns (newLines: seq<string>)
    ensures newLines == EnableKde(lines, host, port)
  {
    var proxySectionAdded;
    newLines, proxySectionAdded := EnableLoop(lines);
    if !proxySectionAdded {
      newLines := newLines + [Header];
    }
    newLines := newLines + Block(host, port);
  }


  /** The loop of `enableKDEProxy`: drops the proxy settings of every proxy
      section and reports whether a proxy header was seen. */
  method EnableLoop(lines: seq<string>) returns (newLines: seq<string>, proxySectionAdded: bool)
    ensures newLines == Rewrite(lines, false, Enabling, Classify)
    ensures proxySectionAdded == HasHeader(lines, Classify)
  {
    newLines := [];
    var inProxySection := false;
    proxySectionAdded := false;
    for i := 0 to |lines|
      invariant newLines == Rewrite(lines[..i], false, Enabling, Classify)
      invariant inProxySection == StateAfter(lines[..i], false, Classify)
      invariant proxySectionAdded == HasHeader(lines[..i], Classify)
    {
      RewriteSnoc(lines, i, false, Enabling, Classify);
      var out, header;
      out, inProxySection, header := EnableTurn(lines[i], inProxySection);
      newLines := newLines + out;
      if header {
        proxySectionAdded := true;
      }
    }
    assert lines[..|lines|] == lines;
  }

  /** The body of the enable loop for one line: what it appends, the new
      `inProxySection`, and whether the line was a proxy header. */
  method EnableTurn(line: string, inProxySection: bool) returns (out: seq<string>, flag: bool, header: bool)
    ensures out == Emit(line, Classify(line), inProxySection, Enabling)
    ensures flag == Step(Classify(line), inProxySection)
    ensures header == (Classify(line) == HeaderLine)
  {
    flag := inProxySection;
    header := false;
    if Contains(line, "[Proxy Settings]") {
      flag := true;
      header := true;
      out := [line];
    } else {
      if flag && HasPrefix(line, "[") {
        flag := false;
      }
      if flag && IsProxyKey(line) {
        out := [];
      } else {
        out := [line];
      }
    }
  }

  /** The disable loop (app.go:1169-1201). */
  method DisableKdeLines(lines: seq<string>) returns (newLines: seq<string>)
    ensures newLines == DisableKde(lines)
  {
    newLines := [];
    var inProxySection := false;
    for i := 0 to |lines|
      invariant newLines == Rewrite(lines[..i], false, Disabling, Classify)
      invariant inProxySection == StateAfter(lines[..i], false, Classify)
    {
      RewriteSnoc(lines, i, false, Disabling, Classify);
      var out;
      out, inProxySection := DisableTurn(lines[i], inProxySection);
      newLines := newLines + out;
    }
    assert lines[..|lines|] == lines;
  }

  /** The body of the disable loop for one line: what it appends and the
      new `inProxySection`. */
  method DisableTurn(line: string, inProxySection: bool) returns (out: seq<string>, flag: bool)
    ensures out == Emit(line, Classify(line), inProxySection, Disabling)
    ensures flag == Step(Classify(line), inProxySection)
  {
    flag := inProxySection;
    if Contains(line, "[Proxy Settings]") {
      flag := true;
      out := [line];
    } else {
      if flag && HasPrefix(line, "[") {
        flag := false;
      }
      if flag && IsProxyTypeLine(line) {
        out := ["ProxyType=0"];
      } else if flag && IsProxyKey(line) {
        out := [];
      } else {
        out := [line];
      }
    }
  }

  /** One more line extends the rewrite of a prefix by what that line
      becomes, read with the flag the prefix ends with. */
  lemma RewriteSnoc(lines: seq<string>, i: nat, inSec: bool, mode: Mode, kind: string -> Kind)
    requires i < |lines|
    ensures var pre := lines[..i]; var l := lines[i];
      && Rewrite(lines[..i + 1], inSec, mode, kind)
         == Rewrite(pre, inSec, mode, kind) + Emit(l, kind(l), StateAfter(pre, inSec, kind), mode)
      && StateAfter(lines[..i + 1], inSec, kind) == Step(kind(l), StateAfter(pre, inSec, kind))
      && HasHeader(lines[..i + 1], kind) == (HasHeader(pre, kind) || kind(l) == HeaderLine)
  {
    var pre := lines[..i];
    var l := lines[i];
    assert lines[..i + 1] == pre + [l];
    RewriteAppend(pre, [l], inSec, mode, kind);
    HasHeaderAppend(pre, [l], kind);
    HasHeaderCons(l, [], kind);
    assert [l] + [] == [l];
  }

  /** A `ProxyType` line is one of the proxy-key lines, and a line that
      opens a section is none. */
  lemma HasHeaderCons(line: string, rest: seq<string>, kind: string -> Kind)
    ensures HasHeader([line] + rest, kind) <==> kind(line) == HeaderLine || HasHeader(rest, kind)
  {
    var all := [line] + rest;
    if HasHeader(rest, kind) {
      var i :| 0 <= i < |rest| && kind(rest[i]) == HeaderLine;
      assert all[i + 1] == rest[i];
    }
    if HasHeader(all, kind) {
      var i :| 0 <= i < |all| && kind(all[i]) == HeaderLine;
      if i > 0 { assert rest[i - 1] == all[i]; }
    }
    assert all[0] == line;
  }

  /** `ProxyType=0` is read as a `ProxyType` setting. */
  lemma ClassifyZero()
    ensures ZeroIsType(Classify)
  {
    ShortNotContains("ProxyType=0", Header);
    TrimKeepsPrefix("ProxyType=0", "ProxyType");
  }

  /** A line `key=...` with no `[` in it is read as a setting, a
      `ProxyType` setting exactly when the key is `ProxyType`. */
  lemma SettingLine(key: string, value: string)
    requires key in ProxyKeys
    requires '[' !in value
    ensures Classify(Setting(key, value)) == if key == "ProxyType" then TypeSetting else OtherSetting
  {
    var line := Setting(key, value);
    SettingPrefix(key, value);
    var t := Trim(line);
    KeyPrefix(t, key);
    if key == "ProxyType" {
      ClassifyType(line);
    } else {
      assert t[0] == key[0];
      ClassifyOther(line);
    }
  }

  /** A text starting with one of the six keys starts with a proxy key, and
      with `P` only when that key is `ProxyType`. */
  lemma KeyPrefix(t: string, key: string)
    requires key in ProxyKeys && |key| <= |t| && t[..|key|] == key
    ensures HasPrefix(t, "ProxyType") || HasPrefix(t, "httpProxy") || HasPrefix(t, "httpsProxy")
            || HasPrefix(t, "ftpProxy") || HasPrefix(t, "socksProxy") || HasPrefix(t, "NoProxyFor")
    ensures key == "ProxyType" ==> HasPrefix(t, "ProxyType")
    ensures key != "ProxyType" ==> |key| > 0 && key[0] != 'P'
  {
  }

  /** A line that is no header, opens no section and, trimmed, starts with
      `ProxyType` is read as the `ProxyType` setting. */
  lemma ClassifyType(line: string)
    requires !IsHeader(line) && !OpensSection(line) && HasPrefix(Trim(line), "ProxyType")
    ensures Classify(line) == TypeSetting
  {
  }

  /** A line that is no header, opens no section, starts with one of the six
      keys once trimmed but not with `P`, is read as one of the other five
      settings. */
  lemma ClassifyOther(line: string)
    requires !IsHeader(line) && !OpensSection(line) && IsProxyKey(line)
    requires |Trim(line)| > 0 && Trim(line)[0] != 'P'
    ensures Classify(line) == OtherSetting
  {
    assert !IsProxyTypeLine(line);
  }

  /** A setting line is no header, does not open a section, and trimmed it
      still starts with its key. */
  lemma SettingPrefix(key: string, value: string)
    requires key in ProxyKeys
    requires '[' !in value
    ensures var line := Setting(key, value);
      !IsHeader(line) && !OpensSection(line) && |key| <= |Trim(line)| && Trim(line)[..|key|] == key
  {
    var line := Setting(key, value);
    assert |key| > 0 && key[0] != '[' && '[' !in key;
    assert line[..|key|] == key;
    NotHeader(line);
    assert line[0] == key[0];
    TrimKeepsPrefix(line, key);
  }

  /** A line without `[` is not a proxy header. */
  lemma NotHeader(line: string)
    requires '[' !in line
    ensures !IsHeader(line)
  {
    if IsHeader(line) {
      ContainsFirstChar(line, Header);
    }
  }

  /** How the six appended settings are read. */
  lemma BlockKinds(host: string, port: string)
    requires '[' !in host && '[' !in port
    ensures var b := Block(host, port);
      && Classify(b[0]) == TypeSetting
      && forall k :: 1 <= k < 6 ==> Classify(b[k]) == OtherSetting
    ensures BlockShape(Block(host, port), Classify)
  {
    var url := "http://" + host + ":" + port;
    assert '[' !in url;
    forall k | 0 <= k < 6
      ensures Classify(Block(host, port)[k]) == if k == 0 then TypeSetting else OtherSetting
    {
      SettingLine(ProxyKeys[k], BlockValue(k, url));
    }
  }

  /** A run of settings keeps the flag, contains no header, is dropped by
      the enable rewrite inside a section and kept by either rewrite outside
      one. */
  lemma {:induction false} SettingRun(b: seq<string>, inSec: bool, mode: Mode, kind: string -> Kind)
    requires forall k :: 0 <= k < |b| ==> IsSetting(kind(b[k]))
    ensures StateAfter(b, inSec, kind) == inSec
    ensures Rewrite(b, inSec, Enabling, kind) == (if inSec then [] else b)
    ensures Rewrite(b, false, mode, kind) == b
    ensures !HasHeader(b, kind)
    decreases |b|
  {
    if |b| > 0 {
      SettingRun(b[1..], inSec, mode, kind);
      HasHeaderCons(b[0], b[1..], kind);
      assert b == [b[0]] + b[1..];
    }
  }

  /** Inside a section, disabling drops every setting that is not a
      `ProxyType` setting. */
  lemma {:induction false} OtherSettingsDropped(b: seq<string>, kind: string -> Kind)
    requires forall k :: 0 <= k < |b| ==> kind(b[k]) == OtherSetting
    ensures Rewrite(b, true, Disabling, kind) == []
    decreases |b|
  {
    if |b| > 0 {
      OtherSettingsDropped(b[1..], kind);
    }
  }

  /** Running the same rewrite again changes nothing; a file cleaned by the
      enable rewrite is left alone by either rewrite. */
  lemma {:induction false} RewriteIdempotent(lines: seq<string>, inSec: bool, mode: Mode, kind: string -> Kind)
    requires ZeroIsType(kind)
    ensures Rewrite(Rewrite(lines, inSec, mode, kind), inSec, mode, kind) == Rewrite(lines, inSec, mode, kind)
    ensures Rewrite(Rewrite(lines, inSec, Enabling, kind), inSec, mode, kind) == Rewrite(lines, inSec, Enabling, kind)
    decreases |lines|
  {
    if |lines| > 0 {
      var l := lines[0];
      var rest := lines[1..];
      var s := Step(kind(l), inSec);
      RewriteIdempotent(rest, s, mode, kind);
      EmitAgain(l, inSec, mode, mode, Rewrite(rest, s, mode, kind), kind);
      EmitAgain(l, inSec, Enabling, mode, Rewrite(rest, s, Enabling, kind), kind);
    }
  }

  /** One step of the idempotence proof: re-reading what a line became, from
      the same flag, gives it back and the same flag. */
  lemma EmitAgain(l: string, inSec: bool, first: Mode, again: Mode, tail: seq<string>, kind: string -> Kind)
    requires ZeroIsType(kind)
    requires first == again || first == Enabling
    ensures Rewrite(Emit(l, kind(l), inSec, first) + tail, inSec, again, kind)
         == Emit(l, kind(l), inSec, first) + Rewrite(tail, Step(kind(l), inSec), again, kind)
  {
    var e := Emit(l, kind(l), inSec, first);
    if |e| == 0 {
      assert e + tail == tail;
    } else {
      assert (e + tail)[1..] == tail;
      assert (e + tail)[0] == e[0];
    }
  }

  /** The rewrite of a concatenation is the concatenation of the rewrites,
      the second started from the flag the first ends with. */
  lemma RewriteAppend(a: seq<string>, b: seq<string>, inSec: bool, mode: Mode, kind: string -> Kind)
    ensures Rewrite(a + b, inSec, mode, kind)
         == Rewrite(a, inSec, mode, kind) + Rewrite(b, StateAfter(a, inSec, kind), mode, kind)
    ensures StateAfter(a + b, inSec, kind) == StateAfter(b, StateAfter(a, inSec, kind), kind)
  {
    RewriteConcat(a, b, inSec, mode, kind);
    StateAfterConcat(a, b, inSec, kind);
  }

  lemma {:induction false} RewriteConcat(a: seq<string>, b: seq<string>, inSec: bool, mode: Mode, kind: string -> Kind)
    ensures Rewrite(a + b, inSec, mode, kind)
         == Rewrite(a, inSec, mode, kind) + Rewrite(b, StateAfter(a, inSec, kind), mode, kind)
    decreases |a|
  {
    if |a| == 0 {
      assert a + b == b;
    } else {
      assert (a + b)[0] == a[0];
      assert (a + b)[1..] == a[1..] + b;
      RewriteConcat(a[1..], b, Step(kind(a[0]), inSec), mode, kind);
    }
  }

  lemma {:induction false} StateAfterConcat(a: seq<string>, b: seq<string>, inSec: bool, kind: string -> Kind)
    ensures StateAfter(a + b, inSec, kind) == StateAfter(b, StateAfter(a, inSec, kind), kind)
    decreases |a|
  {
    if |a| == 0 {
      assert a + b == b;
    } else {
      assert (a + b)[0] == a[0];
      assert (a + b)[1..] == a[1..] + b;
      StateAfterConcat(a[1..], b, Step(kind(a[0]), inSec), kind);
    }
  }

  /** Rewriting keeps the flag at the end and keeps every header. */
  lemma {:induction false} RewriteKeepsStructure(lines: seq<string>, inSec: bool, mode: Mode, kind: string -> Kind)
    requires ZeroIsType(kind)
    ensures StateAfter(Rewrite(lines, inSec, mode, kind), inSec, kind) == StateAfter(lines, inSec, kind)
    ensures HasHeader(Rewrite(lines, inSec, mode, kind), kind) == HasHeader(lines, kind)
    decreases |lines|
  {
    if |lines| > 0 {
      var l := lines[0];
      var rest := lines[1..];
      var s := Step(kind(l), inSec);
      var e := Emit(l, kind(l), inSec, mode);
      var tail := Rewrite(rest, s, mode, kind);
      RewriteKeepsStructure(rest, s, mode, kind);
      RewriteAppend(e, tail, inSec, mode, kind);
      HasHeaderCons(l, rest, kind);
      assert lines == [l] + rest;
      if |e| == 0 {
        assert e + tail == tail;
      } else {
        HasHeaderCons(e[0], tail, kind);
        assert e == [e[0]];
        assert e[1..] == [];
      }
    }
  }

  /** Without any header nothing is in a proxy section: the file is kept and
      the flag stays off. */
  lemma {:induction false} NoHeaderUntouched(lines: seq<string>, mode: Mode, kind: string -> Kind)
    requires !HasHeader(lines, kind)
    ensures Rewrite(lines, false, mode, kind) == lines
    ensures !StateAfter(lines, false, kind)
    decreases |lines|
  {
    if |lines| > 0 {
      HasHeaderCons(lines[0], lines[1..], kind);
      assert lines == [lines[0]] + lines[1..];
      NoHeaderUntouched(lines[1..], mode, kind);
    }
  }

  /** Lines that are not settings survive either rewrite, each as often as
      before, and no line is added. */
  lemma RewriteKeepsOtherLines(lines: seq<string>, inSec: bool, mode: Mode, kind: string -> Kind)
    requires ZeroIsType(kind)
    ensures |Rewrite(lines, inSec, mode, kind)| <= |lines|
    ensures forall l :: !IsSetting(kind(l)) ==>
              multiset(Rewrite(lines, inSec, mode, kind))[l] == multiset(lines)[l]
  {
    RewriteShrinks(lines, inSec, mode, kind);
    forall l | !IsSetting(kind(l))
      ensures multiset(Rewrite(lines, inSec, mode, kind))[l] == multiset(lines)[l]
    {
      RewriteKeepsLine(lines, inSec, mode, kind, l);
    }
  }

  lemma {:induction false} RewriteShrinks(lines: seq<string>, inSec: bool, mode: Mode, kind: string -> Kind)
    ensures |Rewrite(lines, inSec, mode, kind)| <= |lines|
    decreases |lines|
  {
    if |lines| > 0 {
      RewriteShrinks(lines[1..], Step(kind(lines[0]), inSec), mode, kind);
    }
  }

  lemma {:induction false} RewriteKeepsLine(lines: seq<string>, inSec: bool, mode: Mode, kind: string -> Kind, l: string)
    requires ZeroIsType(kind) && !IsSetting(kind(l))
    ensures multiset(Rewrite(lines, inSec, mode, kind))[l] == multiset(lines)[l]
    decreases |lines|
  {
    if |lines| > 0 {
      var l0 := lines[0];
      var rest := lines[1..];
      RewriteKeepsLine(rest, Step(kind(l0), inSec), mode, kind, l);
      assert lines == [l0] + rest;
      EmitKeepsLine(l0, inSec, mode, kind, l);
      assert multiset(Rewrite(lines, inSec, mode, kind))
          == multiset(Emit(l0, kind(l0), inSec, mode)) + multiset(Rewrite(rest, Step(kind(l0), inSec), mode, kind));
    }
  }

  lemma EmitKeepsLine(l0: string, inSec: bool, mode: Mode, kind: string -> Kind, l: string)
    requires ZeroIsType(kind) && !IsSetting(kind(l))
    ensures multiset(Emit(l0, kind(l0), inSec, mode))[l] == multiset([l0])[l]
  {
    if IsSetting(kind(l0)) && inSec {
      assert l != l0;
      if mode == Disabling && kind(l0) == TypeSetting {
        assert l != "ProxyType=0";
      }
    }
  }

  /** The classification reads the proxy header as a header and
      `ProxyType=0` as a `ProxyType` setting. */
  predicate SoundKind(kind: string -> Kind) {
    kind(Header) == HeaderLine && ZeroIsType(kind)
  }

  /** The appended block is a `ProxyType` setting followed by other
      settings. */
  predicate BlockShape(b: seq<string>, kind: string -> Kind) {
    |b| >= 1 && kind(b[0]) == TypeSetting && forall k :: 1 <= k < |b| ==> kind(b[k]) == OtherSetting
  }

  lemma HeaderFacts()
    ensures SoundKind(Classify)
  {
    PrefixContained(Header, Header);
    ClassifyZero();
  }

  lemma HeaderAlone(kind: string -> Kind)
    requires kind(Header) == HeaderLine
    ensures HasHeader([Header], kind) && StateAfter([Header], false, kind)
    ensures forall mode :: Rewrite([Header], false, mode, kind) == [Header]
  {
    assert [Header][0] == Header;
  }

  lemma BlockSettings(b: seq<string>, kind: string -> Kind)
    requires BlockShape(b, kind)
    ensures forall k :: 0 <= k < |b| ==> IsSetting(kind(b[k]))
  {
  }

  /** A concatenation has a header iff one of its parts has. */
  lemma HasHeaderAppend(a: seq<string>, b: seq<string>, kind: string -> Kind)
    ensures HasHeader(a + b, kind) <==> HasHeader(a, kind) || HasHeader(b, kind)
  {
    var ab := a + b;
    if HasHeader(a, kind) {
      var i :| 0 <= i < |a| && kind(a[i]) == HeaderLine;
      assert ab[i] == a[i];
    }
    if HasHeader(b, kind) {
      var i :| 0 <= i < |b| && kind(b[i]) == HeaderLine;
      assert ab[|a| + i] == b[i];
    }
    if HasHeader(ab, kind) {
      var i :| 0 <= i < |ab| && kind(ab[i]) == HeaderLine;
      if i < |a| { assert a[i] == ab[i]; } else { assert b[i - |a|] == ab[i]; }
    }
  }

  /** The cleaned file keeps its headers and its final flag, and cleaning
      it again changes nothing. */
  lemma Cleaned(lines: seq<string>, kind: string -> Kind)
    requires SoundKind(kind)
    ensures var k := Rewrite(lines, false, Enabling, kind);
      && HasHeader(k, kind) == HasHeader(lines, kind)
      && StateAfter(k, false, kind) == StateAfter(lines, false, kind)
      && Rewrite(k, false, Enabling, kind) == k
      && (!HasHeader(lines, kind) ==> k == lines && !StateAfter(lines, false, kind))
  {
    RewriteKeepsStructure(lines, false, Enabling, kind);
    RewriteIdempotent(lines, false, Enabling, kind);
    if !HasHeader(lines, kind) {
      NoHeaderUntouched(lines, Enabling, kind);
    }
  }

  /** A cleaned file followed by the block, as the enable rewrite reads it
      again: the block is dropped when read inside a proxy section and
      kept otherwise. */
  lemma CleanedThenBlock(k: seq<string>, b: seq<string>, kind: string -> Kind)
    requires BlockShape(b, kind) && Rewrite(k, false, Enabling, kind) == k
    ensures Rewrite(k + b, false, Enabling, kind) == if StateAfter(k, false, kind) then k else k + b
    ensures StateAfter(k + b, false, kind) == StateAfter(k, false, kind)
    ensures HasHeader(k + b, kind) == HasHeader(k, kind)
  {
    RewriteAppend(k, b, false, Enabling, kind);
    BlockSettings(b, kind);
    SettingRun(b, StateAfter(k, false, kind), Enabling, kind);
    HasHeaderAppend(k, b, kind);
  }

  /** Appending a header to a header-free cleaned file. */
  lemma HeaderAppended(lines: seq<string>, kind: string -> Kind)
    requires SoundKind(kind) && !HasHeader(lines, kind) && Rewrite(lines, false, Enabling, kind) == lines
    requires !StateAfter(lines, false, kind)
    ensures var kh := lines + [Header];
      && Rewrite(kh, false, Enabling, kind) == kh
      && StateAfter(kh, false, kind)
      && HasHeader(kh, kind)
      && FirstHeader(kh, kind) == |lines|
  {
    var kh := lines + [Header];
    HeaderAlone(kind);
    RewriteAppend(lines, [Header], false, Enabling, kind);
    HasHeaderAppend(lines, [Header], kind);
    assert kh[|lines|] == Header;
    assert forall j :: 0 <= j < |lines| ==> kh[j] == lines[j];
    FirstHeaderUnique(kh, |lines|, kind);
  }

  /** When the file has no header, or its last section is a proxy section,
      the enable rewrite leaves the block inside that section and running
      it twice is running it once. */
  lemma EnableSettles(lines: seq<string>, b: seq<string>, kind: string -> Kind)
    requires SoundKind(kind) && BlockShape(b, kind)
    requires !HasHeader(lines, kind) || StateAfter(lines, false, kind)
    ensures var e := Enable(lines, b, kind);
      StateAfter(e[..|e| - |b|], false, kind) && Enable(e, b, kind) == e
  {
    if HasHeader(lines, kind) {
      SettlesWithHeader(lines, b, kind);
    } else {
      SettlesWithoutHeader(lines, b, kind);
    }
  }

  lemma SettlesWithHeader(lines: seq<string>, b: seq<string>, kind: string -> Kind)
    requires SoundKind(kind) && BlockShape(b, kind)
    requires HasHeader(lines, kind) && StateAfter(lines, false, kind)
    ensures var e := Enable(lines, b, kind);
      StateAfter(e[..|e| - |b|], false, kind) && Enable(e, b, kind) == e
  {
    var k := Rewrite(lines, false, Enabling, kind);
    assert HasHeader(k, kind) && Rewrite(k, false, Enabling, kind) == k && StateAfter(k, false, kind) by {
      Cleaned(lines, kind);
    }
    assert Enable(lines, b, kind) == k + b;
    SettledInSection(k, b, kind);
  }

  lemma SettlesWithoutHeader(lines: seq<string>, b: seq<string>, kind: string -> Kind)
    requires SoundKind(kind) && BlockShape(b, kind)
    requires !HasHeader(lines, kind)
    ensures var e := Enable(lines, b, kind);
      StateAfter(e[..|e| - |b|], false, kind) && Enable(e, b, kind) == e
  {
    var k := Rewrite(lines, false, Enabling, kind);
    assert k == lines && Rewrite(k, false, Enabling, kind) == k && !StateAfter(k, false, kind) by {
      Cleaned(lines, kind);
    }
    assert Enable(lines, b, kind) == k + [Header] + b;
    HeaderAppended(k, kind);
    SettledInSection(k + [Header], b, kind);
  }

  /** A cleaned file with a header that ends inside a proxy section,
      followed by the block, is left alone by the enable rewrite. */
  lemma SettledInSection(k: seq<string>, b: seq<string>, kind: string -> Kind)
    requires BlockShape(b, kind) && Rewrite(k, false, Enabling, kind) == k
    requires HasHeader(k, kind) && StateAfter(k, false, kind)
    ensures var e := k + b;
      StateAfter(e[..|e| - |b|], false, kind) && Enable(e, b, kind) == e
  {
    var e := k + b;
    assert Rewrite(e, false, Enabling, kind) == k && HasHeader(e, kind) by {
      CleanedThenBlock(k, b, kind);
    }
    assert e[..|e| - |b|] == k;
  }

  /** When another section follows the last proxy header, the block lands
      in that other section, and each run appends it once more. */
  lemma EnableGrows(lines: seq<string>, b: seq<string>, kind: string -> Kind)
    requires SoundKind(kind) && BlockShape(b, kind)
    requires HasHeader(lines, kind) && !StateAfter(lines, false, kind)
    ensures var e := Enable(lines, b, kind);
      !StateAfter(e[..|e| - |b|], false, kind) && Enable(e, b, kind) == e + b
  {
    var k := Rewrite(lines, false, Enabling, kind);
    var e := Enable(lines, b, kind);
    assert e == k + b && !StateAfter(k, false, kind) && Rewrite(k, false, Enabling, kind) == k && HasHeader(k, kind) by {
      Cleaned(lines, kind);
    }
    assert Rewrite(e, false, Enabling, kind) == e && HasHeader(e, kind) by {
      CleanedThenBlock(k, b, kind);
    }
    assert e[..|e| - |b|] == k;
  }

  /** Disabling after an enable whose block was read inside the proxy
      section leaves the cleaned file followed by `ProxyType=0`. */
  lemma DisableUndoesEnable(lines: seq<string>, b: seq<string>, kind: string -> Kind)
    requires SoundKind(kind) && BlockShape(b, kind)
    requires HasHeader(lines, kind) && StateAfter(lines, false, kind)
    ensures Rewrite(Enable(lines, b, kind), false, Disabling, kind) == Rewrite(lines, false, Enabling, kind) + ["ProxyType=0"]
  {
    var k := Rewrite(lines, false, Enabling, kind);
    RewriteKeepsStructure(lines, false, Enabling, kind);
    RewriteIdempotent(lines, false, Disabling, kind);
    assert Enable(lines, b, kind) == k + b;
    RewriteAppend(k, b, false, Disabling, kind);
    assert b == [b[0]] + b[1..];
    OtherSettingsDropped(b[1..], kind);
  }

  /** `enableKDEProxy` as written, when the file ends inside a proxy
      section or has none: the six settings are read inside the proxy
      section, and a second run changes nothing. */
  lemma EnableIdempotentWhenLast(lines: seq<string>, host: string, port: string)
    requires '[' !in host && '[' !in port
    requires !HasHeader(lines, Classify) || StateAfter(lines, false, Classify)
    ensures var e := EnableKde(lines, host, port);
      StateAfter(e[..|e| - 6], false, Classify) && EnableKde(e, host, port) == e
  {
    BlockKinds(host, port);
    HeaderFacts();
    EnableSettles(lines, Block(host, port), Classify);
  }

  /** As written, when another section follows the proxy section the six
      settings land in that other section, and each run appends six more. */
  lemma EnableMisplaced(lines: seq<string>, host: string, port: string)
    requires '[' !in host && '[' !in port
    requires HasHeader(lines, Classify) && !StateAfter(lines, false, Classify)
    ensures var e := EnableKde(lines, host, port);
      !StateAfter(e[..|e| - 6], false, Classify) && EnableKde(e, host, port) == e + Block(host, port)
  {
    BlockKinds(host, port);
    HeaderFacts();
    EnableGrows(lines, Block(host, port), Classify);
  }

  /** The input that shows it: a proxy section followed by `[Other]`, with
      the local middleware address the app passes. */
  lemma EnableMisplacedExample()
    ensures var e := EnableKde([Header, "[Other]"], "127.0.0.1", "2080");
      !StateAfter(e[..|e| - 6], false, Classify) && |EnableKde(e, "127.0.0.1", "2080")| == |e| + 6
  {
    OtherAfterHeader();
    EnableMisplaced([Header, "[Other]"], "127.0.0.1", "2080");
  }

  /** `[Other]` after the header closes the proxy section. */
  lemma OtherAfterHeader()
    ensures HasHeader([Header, "[Other]"], Classify)
    ensures !StateAfter([Header, "[Other]"], false, Classify)
  {
    var lines := [Header, "[Other]"];
    HeaderFacts();
    ShortNotContains("[Other]", Header);
    assert Classify("[Other]") == SectionLine;
    assert lines[0] == Header && lines[1..] == ["[Other]"];
    assert HasHeader(lines, Classify);
    assert StateAfter(lines, false, Classify) == StateAfter(["[Other]"], true, Classify);
  }

  /** Index of the first header. */
  function FirstHeader(lines: seq<string>, kind: string -> Kind): (i: nat)
    requires HasHeader(lines, kind)
    ensures i < |lines| && kind(lines[i]) == HeaderLine
    ensures forall j :: 0 <= j < i ==> kind(lines[j]) != HeaderLine
    decreases |lines|
  {
    HasHeaderCons(lines[0], lines[1..], kind);
    assert lines == [lines[0]] + lines[1..];
    if kind(lines[0]) == HeaderLine then 0
    else
      var j := FirstHeader(lines[1..], kind);
      assert forall m :: 1 <= m <= j ==> lines[m] == lines[1..][m - 1];
      1 + j
  }

  lemma FirstHeaderUnique(lines: seq<string>, i: nat, kind: string -> Kind)
    requires i < |lines| && kind(lines[i]) == HeaderLine
    requires forall j :: 0 <= j < i ==> kind(lines[j]) != HeaderLine
    ensures HasHeader(lines, kind) && FirstHeader(lines, kind) == i
  {
  }

  /** Where the corrected enable puts the block: right after the first
      header of the cleaned file, or after a header appended at its end. */
  function FixedIndex(lines: seq<string>, kind: string -> Kind): nat {
    var k := Rewrite(lines, false, Enabling, kind);
    if HasHeader(k, kind) then FirstHeader(k, kind) + 1 else |k| + 1
  }

  /** The corrected enable rewrite for a classification and a block. */
  function EnableFixed(lines: seq<string>, b: seq<string>, kind: string -> Kind): seq<string> {
    var k := Rewrite(lines, false, Enabling, kind);
    if HasHeader(k, kind) then
      var h := FirstHeader(k, kind);
      k[..h + 1] + b + k[h + 1..]
    else
      k + [Header] + b
  }

  /** The corrected enable writes the block at a point inside the proxy
      section, keeps the cleaned file around it, and is idempotent. */
  lemma EnableFixedSettles(lines: seq<string>, b: seq<string>, kind: string -> Kind)
    requires SoundKind(kind) && BlockShape(b, kind)
    ensures var e := EnableFixed(lines, b, kind);
      var i := FixedIndex(lines, kind);
      && i + |b| <= |e|
      && e[i..i + |b|] == b
      && StateAfter(e[..i], false, kind)
      && e[..i] + e[i + |b|..]
         == Rewrite(lines, false, Enabling, kind) + (if HasHeader(lines, kind) then [] else [Header])
      && EnableFixed(e, b, kind) == e
  {
    if HasHeader(lines, kind) {
      FixedWithHeader(lines, b, kind);
    } else {
      FixedWithoutHeader(lines, b, kind);
    }
  }

  /** The corrected enable on a file that has a header. */
  lemma FixedWithHeader(lines: seq<string>, b: seq<string>, kind: string -> Kind)
    requires SoundKind(kind) && BlockShape(b, kind) && HasHeader(lines, kind)
    ensures var e := EnableFixed(lines, b, kind);
      var i := FixedIndex(lines, kind);
      && i + |b| <= |e| && e[i..i + |b|] == b && StateAfter(e[..i], false, kind)
      && e[..i] + e[i + |b|..] == Rewrite(lines, false, Enabling, kind)
      && EnableFixed(e, b, kind) == e
  {
    var k := Rewrite(lines, false, Enabling, kind);
    assert HasHeader(k, kind) && Rewrite(k, false, Enabling, kind) == k by {
      Cleaned(lines, kind);
    }
    var h := FirstHeader(k, kind);
    var pre := k[..h + 1];
    var post := k[h + 1..];
    var e := pre + b + post;
    assert EnableFixed(lines, b, kind) == e && FixedIndex(lines, kind) == h + 1;
    assert pre + post == k by { SplitAt(k, h + 1); }
    InsertSlices(pre, b, post);
    assert Rewrite(e, false, Enabling, kind) == k && StateAfter(pre, false, kind) by {
      InsertedAfterHeader(k, h, b, kind);
    }
  }

  /** The corrected enable on a file without a header. */
  lemma FixedWithoutHeader(lines: seq<string>, b: seq<string>, kind: string -> Kind)
    requires SoundKind(kind) && BlockShape(b, kind) && !HasHeader(lines, kind)
    ensures var e := EnableFixed(lines, b, kind);
      var i := FixedIndex(lines, kind);
      && i + |b| <= |e| && e[i..i + |b|] == b && StateAfter(e[..i], false, kind)
      && e[..i] + e[i + |b|..] == Rewrite(lines, false, Enabling, kind) + [Header]
      && EnableFixed(e, b, kind) == e
  {
    var k := Rewrite(lines, false, Enabling, kind);
    assert !HasHeader(k, kind) && k == lines && !StateAfter(k, false, kind) by {
      Cleaned(lines, kind);
    }
    var pre := k + [Header];
    var e := pre + b;
    assert EnableFixed(lines, b, kind) == e && FixedIndex(lines, kind) == |pre|;
    InsertSlices(pre, b, []);
    assert e + [] == e;
    assert Rewrite(e, false, Enabling, kind) == pre && HasHeader(pre, kind) && FirstHeader(pre, kind) == |k|
        && StateAfter(pre, false, kind) by {
      HeaderAppended(k, kind);
      CleanedThenBlock(pre, b, kind);
    }
  }

  lemma SplitAt(s: seq<string>, n: nat)
    requires n <= |s|
    ensures s[..n] + s[n..] == s
  {
  }

  lemma InsertSlices(a: seq<string>, b: seq<string>, c: seq<string>)
    ensures var e := a + b + c;
      e[..|a|] == a && e[|a|..|a| + |b|] == b && e[|a| + |b|..] == c
  {
  }

  /** A block inserted right after a header of a cleaned file is read inside
      the proxy section, and cleaning drops exactly the block. */
  lemma InsertedAfterHeader(k: seq<string>, h: nat, b: seq<string>, kind: string -> Kind)
    requires BlockShape(b, kind) && Rewrite(k, false, Enabling, kind) == k
    requires h < |k| && kind(k[h]) == HeaderLine
    ensures StateAfter(k[..h + 1], false, kind)
    ensures Rewrite(k[..h + 1] + b + k[h + 1..], false, Enabling, kind) == k
  {
    var pre := k[..h + 1];
    var post := k[h + 1..];
    assert StateAfter(pre, false, kind) by {
      assert pre == k[..h] + [k[h]];
      RewriteAppend(k[..h], [k[h]], false, Enabling, kind);
    }
    assert Rewrite(pre + b, false, Enabling, kind) == Rewrite(pre, false, Enabling, kind)
        && StateAfter(pre + b, false, kind) == true by {
      RewriteAppend(pre, b, false, Enabling, kind);
      BlockSettings(b, kind);
      SettingRun(b, true, Enabling, kind);
    }
    RewriteAppend(pre + b, post, false, Enabling, kind);
    RewriteAppend(pre, post, false, Enabling, kind);
    assert pre + post == k;
  }

  /** The corrected `enableKDEProxy`: the six settings go right after the
      first proxy header. */
  function EnableKdeFixed(lines: seq<string>, host: string, port: string): seq<string> {
    EnableFixed(lines, Block(host, port), Classify)
  }

  /** The corrected enable puts the six settings inside the proxy section
      whatever follows it, keeps every other line of the cleaned file, and
      running it twice is running it once. */
  lemma EnableFixedCorrect(lines: seq<string>, host: string, port: string)
    requires '[' !in host && '[' !in port
    ensures var e := EnableKdeFixed(lines, host, port);
      var i := FixedIndex(lines, Classify);
      && i + 6 <= |e|
      && e[i..i + 6] == Block(host, port)
      && StateAfter(e[..i], false, Classify)
      && e[..i] + e[i + 6..]
         == Rewrite(lines, false, Enabling, Classify) + (if HasHeader(lines, Classify) then [] else [Header])
      && EnableKdeFixed(e, host, port) == e
  {
    BlockKinds(host, port);
    HeaderFacts();
    EnableFixedSettles(lines, Block(host, port), Classify);
  }

  /** After the as-written enable, when the settings were read inside the
      proxy section, disabling leaves the cleaned file followed by
      `ProxyType=0`. */
  lemma DisableAfterEnable(lines: seq<string>, host: string, port: string)
    requires '[' !in host && '[' !in port
    requires HasHeader(lines, Classify) && StateAfter(lines, false, Classify)
    ensures DisableKde(EnableKde(lines, host, port)) == Rewrite(lines, false, Enabling, Classify) + ["ProxyType=0"]
  {
    BlockKinds(host, port);
    HeaderFacts();
    DisableUndoesEnable(lines, Block(host, port), Classify);
  }
}
