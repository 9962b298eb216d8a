/** String helpers with the semantics of Go's `strings` package and the
    matching JavaScript string methods, restricted to what ProxyMaster uses:
    trimming, splitting on one separator character, joining, substring and
    prefix tests, ASCII lower-casing and decimal rendering of naturals. */
module Text {

  /** The whitespace that `strings.TrimSpace` and `String.prototype.trim`
      both remove (ASCII part only). */
  predicate IsSpace(c: char) {
    c == ' ' || c == '\t' || c == '\n' || c == '\r' || c == '\U{000B}' || c == '\U{000C}'
  }

  /** Drops leading whitespace: the result is a suffix of `s` and only
      whitespace was dropped. */
  function TrimLeft(s: string): (r: string)
    ensures |r| <= |s| && r == s[|s| - |r|..]
    ensures forall k :: 0 <= k < |s| - |r| ==> IsSpace(s[k])
    ensures r != [] ==> !IsSpace(r[0])
    decreases |s|
  {
    if |s| > 0 && IsSpace(s[0]) then TrimLeft(s[1..]) else s
  }

  /** Drops trailing whitespace: the result is a prefix of `s` and only
      whitespace was dropped. */
  function TrimRight(s: string): (r: string)
    ensures |r| <= |s| && r == s[..|r|]
    ensures forall k :: |r| <= k < |s| ==> IsSpace(s[k])
    ensures r != [] ==> !IsSpace(r[|r| - 1])
    decreases |s|
  {
    if |s| > 0 && IsSpace(s[|s| - 1]) then TrimRight(s[..|s| - 1]) else s
  }

  /** `strings.TrimSpace` / `trim()`. */
  function Trim(s: string): (r: string)
    ensures |r| <= |s|
    ensures r != [] ==> !IsSpace(r[0]) && !IsSpace(r[|r| - 1])
  {
    TrimRight(TrimLeft(s))
  }

  lemma TrimLeftNoop(s: string)
    requires s == [] || !IsSpace(s[0])
    ensures TrimLeft(s) == s
  {
  }

  lemma TrimRightNoop(s: string)
    requires s == [] || !IsSpace(s[|s| - 1])
    ensures TrimRight(s) == s
  {
  }

  /** Trimming twice is trimming once. */
  lemma TrimIdempotent(s: string)
    ensures Trim(Trim(s)) == Trim(s)
  {
    var t := Trim(s);
    TrimLeftNoop(t);
    TrimRightNoop(t);
  }

  /** Index of the first `c` in `s`, or -1. */
  function IndexOf(s: string, c: char): (r: int)
    ensures r == -1 <==> c !in s
    ensures r >= 0 ==> r < |s| && s[r] == c && c !in s[..r]
    decreases |s|
  {
    if |s| == 0 then -1
    else if s[0] == c then 0
    else
      var k := IndexOf(s[1..], c);
      assert s[1..][..(if k < 0 then 0 else k)] == s[1..1 + (if k < 0 then 0 else k)];
      if k < 0 then -1 else k + 1
  }

  /** `strings.Split(s, string(c))` and `s.split(c)`: the pieces between
      occurrences of `c`; never empty, and no piece contains `c`. */
  function Split(s: string, c: char): (r: seq<string>)
    ensures |r| >= 1
    ensures forall k :: 0 <= k < |r| ==> c !in r[k]
    decreases |s|
  {
    var i := IndexOf(s, c);
    if i < 0 then [s] else [s[..i]] + Split(s[i + 1..], c)
  }

  /** `strings.Join(parts, string(c))`. */
  function Join(parts: seq<string>, c: char): string
  {
    if |parts| == 0 then ""
    else if |parts| == 1 then parts[0]
    else parts[0] + [c] + Join(parts[1..], c)
  }

  lemma JoinCons(p: string, rest: seq<string>, c: char)
    requires |rest| >= 1
    ensures Join([p] + rest, c) == p + [c] + Join(rest, c)
  {
    assert ([p] + rest)[1..] == rest;
  }

  /** Joining the pieces of a split gives back the original text. */
  lemma {:induction false} JoinSplit(s: string, c: char)
    ensures Join(Split(s, c), c) == s
    decreases |s|
  {
    var i := IndexOf(s, c);
    if i >= 0 {
      var rest := s[i + 1..];
      var parts := Split(rest, c);
      JoinSplit(rest, c);
      var all := [s[..i]] + parts;
      assert Split(s, c) == all;
      assert all[1..] == parts;
      assert Join(all, c) == s[..i] + [c] + Join(parts, c);
      assert s == s[..i] + [c] + rest;
    }
  }

  /** Splitting a join of separator-free pieces gives back the pieces. */
  lemma {:induction false} SplitJoin(parts: seq<string>, c: char)
    requires |parts| >= 1
    requires forall k :: 0 <= k < |parts| ==> c !in parts[k]
    ensures Split(Join(parts, c), c) == parts
    decreases |parts|
  {
    if |parts| > 1 {
      var p := parts[0];
      var tail := Join(parts[1..], c);
      var s := p + [c] + tail;
      assert s[..|p|] == p;
      assert c !in s[..|p|] && s[|p|] == c;
      IndexOfAt(s, c, |p|);
      assert s[|p| + 1..] == tail;
      SplitJoin(parts[1..], c);
    } else {
      assert IndexOf(parts[0], c) == -1;
    }
  }

  /** The first `c` is found where the prefix before it is free of `c`. */
  lemma {:induction false} IndexOfAt(s: string, c: char, i: nat)
    requires i < |s| && s[i] == c && c !in s[..i]
    ensures IndexOf(s, c) == i
    decreases i
  {
    if i > 0 {
      assert s[0] == s[..i][0];
      assert s[1..][i - 1] == c;
      assert s[1..][..i - 1] == s[1..i];
      assert forall x :: x in s[1..i] ==> x in s[..i];
      IndexOfAt(s[1..], c, i - 1);
    }
  }

  /** A line yields at least two fields exactly when it contains the separator. */
  lemma SplitHasTwoFields(s: string, c: char)
    ensures |Split(s, c)| >= 2 <==> c in s
  {
    var i := IndexOf(s, c);
    if i >= 0 {
      assert |Split(s, c)| == 1 + |Split(s[i + 1..], c)|;
    }
  }

  /** The text before the first `c` (all of `s` when there is none). */
  function Before(s: string, c: char): (r: string)
    ensures c !in r
    ensures c in s ==> |r| < |s| && s[|r|] == c && s[..|r|] == r
    ensures c !in s ==> r == s
  {
    var i := IndexOf(s, c);
    if i < 0 then s else s[..i]
  }

  /** The text after the first `c`. */
  function After(s: string, c: char): (r: string)
    requires c in s
    ensures s == Before(s, c) + [c] + r
  {
    s[IndexOf(s, c) + 1..]
  }

  /** The first and second pieces of a split are described without `Split`:
      the text before the first separator, and the text between the first
      and the second. */
  lemma SplitFields(s: string, c: char)
    requires c in s
    ensures |Split(s, c)| >= 2
    ensures Split(s, c)[0] == Before(s, c)
    ensures Split(s, c)[1] == Before(After(s, c), c)
  {
    SplitHasTwoFields(s, c);
    var i := IndexOf(s, c);
    var rest := s[i + 1..];
    assert Split(s, c) == [s[..i]] + Split(rest, c);
    var j := IndexOf(rest, c);
    if j < 0 { assert Split(rest, c) == [rest]; }
    else { assert Split(rest, c)[0] == rest[..j]; }
  }

  /** `strings.HasPrefix` / `startsWith`. */
  predicate HasPrefix(s: string, p: string) {
    |p| <= |s| && s[..|p|] == p
  }

  /** `sub` occurs in `s` starting at position `i`. */
  predicate OccursAt(s: string, sub: string, i: int) {
    0 <= i <= |s| - |sub| && s[i..i + |sub|] == sub
  }

  /** `strings.Contains` / `includes`: `sub` occurs at some position. */
  predicate Contains(s: string, sub: string) {
    exists i | 0 <= i <= |s| - |sub| :: OccursAt(s, sub, i)
  }

  /** A string that has `p` as a prefix contains `p`. */
  lemma PrefixContained(s: string, p: string)
    requires HasPrefix(s, p)
    ensures Contains(s, p)
  {
    assert OccursAt(s, p, 0);
  }

  /** A string that contains a non-empty `sub` contains its first character. */
  lemma ContainsFirstChar(s: string, sub: string)
    requires |sub| > 0 && Contains(s, sub)
    ensures sub[0] in s
  {
    var i :| 0 <= i <= |s| - |sub| && OccursAt(s, sub, i);
    assert s[i..i + |sub|][0] == s[i];
  }

  /** Trimming keeps a prefix that starts and ends with non-space. */
  lemma TrimKeepsPrefix(s: string, p: string)
    requires HasPrefix(s, p) && |p| > 0
    requires !IsSpace(p[0]) && !IsSpace(p[|p| - 1])
    ensures HasPrefix(Trim(s), p)
  {
    TrimLeftNoop(s);
    var r := TrimRight(s);
    assert s[|p| - 1] == p[|p| - 1];
    assert |r| >= |p|;
    assert r[..|p|] == s[..|p|];
  }

  /** A string shorter than `sub` cannot contain it. */
  lemma ShortNotContains(s: string, sub: string)
    requires |s| < |sub|
    ensures !Contains(s, sub)
  {
  }

  function Lower(c: char): char {
    if 'A' <= c <= 'Z' then (c as int + 32) as char else c
  }

  /** `strings.ToLower` on the ASCII letters. */
  function ToLower(s: string): (r: string)
    ensures |r| == |s|
    ensures forall k :: 0 <= k < |s| ==> r[k] == Lower(s[k])
  {
    seq(|s|, k requires 0 <= k < |s| => Lower(s[k]))
  }

  function DigitChar(d: nat): char
    requires d < 10
  {
    ('0' as int + d) as char
  }

  predicate IsDigit(c: char) {
    '0' <= c <= '9'
  }

  /** Decimal rendering of a natural, as `%d`, `String(n)` or a template
      literal print it. */
  function NatToString(n: nat): (r: string)
    ensures |r| >= 1
    ensures forall k :: 0 <= k < |r| ==> IsDigit(r[k])
    ensures n >= 10 ==> r[0] != '0'
    decreases n
  {
    if n < 10 then [DigitChar(n)] else NatToString(n / 10) + [DigitChar(n % 10)]
  }

  /** Reads a run of decimal digits back as a natural. */
  function DigitsValue(s: string): nat
    requires forall k :: 0 <= k < |s| ==> IsDigit(s[k])
  {
    if |s| == 0 then 0
    else
      assert IsDigit(s[|s| - 1]);
      10 * DigitsValue(s[..|s| - 1]) + (s[|s| - 1] as int - '0' as int) as nat
  }

  /** Rendering then reading a natural gives it back. */
  lemma {:induction false} NatToStringRoundTrip(n: nat)
    ensures DigitsValue(NatToString(n)) == n
    decreases n
  {
    var r := NatToString(n);
    if n >= 10 {
      NatToStringRoundTrip(n / 10);
      assert r[..|r| - 1] == NatToString(n / 10);
    }
  }

  /** Distinct naturals render as distinct strings. */
  lemma NatToStringInjective(m: nat, n: nat)
    requires NatToString(m) == NatToString(n)
    ensures m == n
  {
    NatToStringRoundTrip(m);
    NatToStringRoundTrip(n);
  }

  /** The `ip + ":" + port` key used for de-duplication. */
  function Key(ip: string, port: string): string {
    ip + ":" + port
  }

  /** When the ip part holds no colon, the key determines ip and port. */
  lemma KeyInjective(ip1: string, port1: string, ip2: string, port2: string)
    requires ':' !in ip1 && ':' !in ip2
    requires Key(ip1, port1) == Key(ip2, port2)
    ensures ip1 == ip2 && port1 == port2
  {
    var k := Key(ip1, port1);
    assert k[..|ip1|] == ip1 && k[|ip1|] == ':';
    assert k[..|ip2|] == ip2 && k[|ip2|] == ':';
    IndexOfAt(k, ':', |ip1|);
    IndexOfAt(k, ':', |ip2|);
    assert port1 == k[|ip1| + 1..];
    assert port2 == k[|ip2| + 1..];
  }
}
