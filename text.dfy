/** The JavaScript string operations the participant lookup relies on, restricted to ASCII
    case mapping and ASCII whitespace. Strings are sequences of characters. */
module Text {

  datatype Option<T> = None | Some(value: T)

  predicate IsUpperAscii(c: char) { 'A' <= c <= 'Z' }
  predicate IsLowerAscii(c: char) { 'a' <= c <= 'z' }
  predicate IsLetter(c: char) { IsUpperAscii(c) || IsLowerAscii(c) }
  predicate IsDigit(c: char) { '0' <= c <= '9' }

  /** JavaScript `trim` removes these; other Unicode spaces are not modelled. */
  predicate IsSpace(c: char) {
    c == ' ' || c == '\t' || c == '\n' || c == '\r' || c == '\U{B}' || c == '\U{C}'
  }

  function LowerChar(c: char): (r: char)
    ensures IsUpperAscii(c) ==> IsLowerAscii(r)
    ensures !IsUpperAscii(c) ==> r == c
  {
    if IsUpperAscii(c) then (c as int + 32) as char else c
  }

  function UpperChar(c: char): (r: char)
    ensures IsLowerAscii(c) ==> IsUpperAscii(r)
    ensures !IsLowerAscii(c) ==> r == c
  {
    if IsLowerAscii(c) then (c as int - 32) as char else c
  }

  /** `toLowerCase` on ASCII text. */
  function Lower(s: string): (r: string)
    ensures |r| == |s|
    ensures forall i :: 0 <= i < |s| ==> r[i] == LowerChar(s[i])
  {
    seq(|s|, i requires 0 <= i < |s| => LowerChar(s[i]))
  }

  /** `toUpperCase` on ASCII text. */
  function Upper(s: string): (r: string)
    ensures |r| == |s|
    ensures forall i :: 0 <= i < |s| ==> r[i] == UpperChar(s[i])
  {
    seq(|s|, i requires 0 <= i < |s| => UpperChar(s[i]))
  }

  lemma LowerAppend(a: string, b: string)
    ensures Lower(a + b) == Lower(a) + Lower(b)
  {
  }

  lemma LowerSlice(s: string, i: nat, j: nat)
    requires i <= j <= |s|
    ensures Lower(s[i..j]) == Lower(s)[i..j]
  {
  }

  predicate StartsWith(s: string, prefix: string) {
    |prefix| <= |s| && s[..|prefix|] == prefix
  }

  predicate EndsWith(s: string, suffix: string) {
    |suffix| <= |s| && s[|s| - |suffix|..] == suffix
  }

  /** `pattern` occurs in `s` starting at index `i`. */
  predicate OccursAt(s: string, pattern: string, i: nat) {
    i + |pattern| <= |s| && s[i..i + |pattern|] == pattern
  }

  /** The leftmost occurrence of `pattern` at or after `from`, as `indexOf` finds it. */
  function IndexOfFrom(s: string, pattern: string, from: nat): (r: Option<nat>)
    ensures r.Some? ==> from <= r.value && OccursAt(s, pattern, r.value)
    ensures r.Some? ==> forall j :: from <= j < r.value ==> !OccursAt(s, pattern, j)
    ensures r.None? ==> forall j :: from <= j ==> !OccursAt(s, pattern, j)
    decreases |s| - from
  {
    if from + |pattern| > |s| then None
    else if OccursAt(s, pattern, from) then Some(from)
    else IndexOfFrom(s, pattern, from + 1)
  }

  function IndexOf(s: string, pattern: string): Option<nat> {
    IndexOfFrom(s, pattern, 0)
  }

  /** `s.includes(pattern)`. */
  predicate Contains(s: string, pattern: string) {
    IndexOf(s, pattern).Some?
  }

  lemma ContainsAt(s: string, pattern: string, i: nat)
    requires OccursAt(s, pattern, i)
    ensures Contains(s, pattern)
  {
  }

  lemma ContainsAppend(a: string, b: string, pattern: string)
    requires Contains(a, pattern) || Contains(b, pattern)
    ensures Contains(a + b, pattern)
  {
    if Contains(a, pattern) {
      var i := IndexOf(a, pattern).value;
      assert (a + b)[i..i + |pattern|] == a[i..i + |pattern|];
      ContainsAt(a + b, pattern, i);
    } else {
      var i := IndexOf(b, pattern).value;
      assert (a + b)[|a| + i..|a| + i + |pattern|] == b[i..i + |pattern|];
      ContainsAt(a + b, pattern, |a| + i);
    }
  }

  /** An occurrence of `u + v` is an occurrence of `u` followed by one of `v`. */
  lemma OccursConcat(s: string, u: string, v: string, p: nat)
    ensures OccursAt(s, u + v, p) <==> OccursAt(s, u, p) && OccursAt(s, v, p + |u|)
  {
    if OccursAt(s, u, p) && OccursAt(s, v, p + |u|) {
      assert s[p..p + |u + v|] == s[p..p + |u|] + s[p + |u|..p + |u| + |v|];
    }
    if OccursAt(s, u + v, p) {
      assert s[p..p + |u|] == (u + v)[..|u|];
      assert s[p + |u|..p + |u| + |v|] == (u + v)[|u|..];
    }
  }

  /** An occurrence inside an occurrence. */
  lemma OccursInside(s: string, m: string, p: nat, k: nat, n: nat)
    requires OccursAt(s, m, p) && k + n <= |m|
    ensures OccursAt(s, m[k..k + n], p + k)
  {
    var a, b := s[p + k..p + k + n], m[k..k + n];
    forall t | 0 <= t < n
      ensures a[t] == b[t]
    {
      assert s[p..p + |m|][k + t] == m[k + t];
    }
  }

  lemma OccursPrefix(s: string, m: string, p: nat, n: nat)
    requires OccursAt(s, m, p) && p + |m| <= n <= |s|
    ensures OccursAt(s[..n], m, p)
  {
    assert s[..n][p..p + |m|] == s[p..p + |m|];
  }

  lemma OccursDrop(s: string, m: string, p: nat, d: nat)
    requires OccursAt(s, m, p) && d <= p
    ensures OccursAt(s[d..], m, p - d)
  {
    assert s[d..][p - d..p - d + |m|] == s[p..p + |m|];
  }

  /** `s.split(sep)` for a non-empty separator: the pieces between leftmost,
      non-overlapping occurrences of `sep`. */
  function Split(s: string, sep: string): (parts: seq<string>)
    requires |sep| > 0
    ensures |parts| >= 1
    decreases |s|
  {
    match IndexOf(s, sep)
    case None => [s]
    case Some(i) => [s[..i]] + Split(s[i + |sep|..], sep)
  }

  /** `parts.join(sep)`. */
  function Join(parts: seq<string>, sep: string): string
  {
    if |parts| == 0 then ""
    else if |parts| == 1 then parts[0]
    else parts[0] + sep + Join(parts[1..], sep)
  }

  /** Splitting loses nothing: joining the pieces with the separator gives the text back. */
  lemma {:induction false} JoinSplit(s: string, sep: string)
    requires |sep| > 0
    ensures Join(Split(s, sep), sep) == s
    decreases |s|
  {
    match IndexOf(s, sep)
    case None =>
    case Some(i) =>
      var rest := s[i + |sep|..];
      var parts := Split(rest, sep);
      JoinSplit(rest, sep);
      assert ([s[..i]] + parts)[1..] == parts;
      assert Join(Split(s, sep), sep) == s[..i] + sep + Join(parts, sep);
      assert s == s[..i] + s[i..i + |sep|] + rest;
  }

  /** No piece of a split contains the separator. */
  lemma {:induction false} SplitPartsAvoidSep(s: string, sep: string, k: nat)
    requires |sep| > 0 && k < |Split(s, sep)|
    ensures !Contains(Split(s, sep)[k], sep)
    decreases |s|
  {
    match IndexOf(s, sep)
    case None =>
    case Some(i) =>
      if k == 0 {
        if Contains(s[..i], sep) {
          var j := IndexOf(s[..i], sep).value;
          assert s[j..j + |sep|] == s[..i][j..j + |sep|];
          assert OccursAt(s, sep, j);
          assert false;
        }
      } else {
        SplitPartsAvoidSep(s[i + |sep|..], sep, k - 1);
      }
  }

  /** Text free of the separator splits into itself alone. */
  lemma SplitNoSep(s: string, sep: string)
    requires |sep| > 0 && !Contains(s, sep)
    ensures Split(s, sep) == [s]
  {
  }

  /** Splitting on a single character after a separator-free head. */
  lemma SplitCharHead(head: string, c: char, tail: string)
    requires c !in head
    ensures Split(head + [c] + tail, [c]) == [head] + Split(tail, [c])
  {
    var s := head + [c] + tail;
    assert OccursAt(s, [c], |head|);
    forall j: nat | j < |head|
      ensures !OccursAt(s, [c], j)
    {
      assert s[j..j + 1] == [head[j]];
    }
    assert IndexOf(s, [c]) == Some(|head|);
    assert s[..|head|] == head;
    assert s[|head| + 1..] == tail;
  }

  function TrimStart(s: string): (r: string)
    ensures |r| <= |s| && r == s[|s| - |r|..]
    ensures forall i :: 0 <= i < |s| - |r| ==> IsSpace(s[i])
    ensures r == [] || !IsSpace(r[0])
  {
    if |s| > 0 && IsSpace(s[0]) then TrimStart(s[1..]) else s
  }

  function TrimEnd(s: string): (r: string)
    ensures |r| <= |s| && r == s[..|r|]
    ensures forall i :: |r| <= i < |s| ==> IsSpace(s[i])
    ensures r == [] || !IsSpace(r[|r| - 1])
  {
    if |s| > 0 && IsSpace(s[|s| - 1]) then TrimEnd(s[..|s| - 1]) else s
  }

  /** `trim`: the text without leading and trailing whitespace. */
  function Trim(s: string): (r: string)
  {
    TrimEnd(TrimStart(s))
  }

  /** Trimming keeps any occurrence of a text that does not begin or end with whitespace. */
  lemma TrimStartKeeps(s: string, m: string, p: nat)
    requires OccursAt(s, m, p) && m != [] && !IsSpace(m[0])
    ensures |s| - |TrimStart(s)| <= p && OccursAt(TrimStart(s), m, p - (|s| - |TrimStart(s)|))
  {
    var r := TrimStart(s);
    var l := |s| - |r|;
    assert s[p] == s[p..p + |m|][0] == m[0];
    assert r[p - l..p - l + |m|] == s[p..p + |m|];
  }

  lemma TrimEndKeeps(s: string, m: string, p: nat)
    requires OccursAt(s, m, p) && m != [] && !IsSpace(m[|m| - 1])
    ensures OccursAt(TrimEnd(s), m, p)
  {
    var r := TrimEnd(s);
    assert s[p + |m| - 1] == s[p..p + |m|][|m| - 1] == m[|m| - 1];
    assert r[p..p + |m|] == s[p..p + |m|];
  }

  lemma TrimKeeps(s: string, m: string, p: nat)
    requires OccursAt(s, m, p) && m != [] && !IsSpace(m[0]) && !IsSpace(m[|m| - 1])
    ensures exists q: nat :: OccursAt(Trim(s), m, q)
  {
    TrimStartKeeps(s, m, p);
    var q: nat := p - (|s| - |TrimStart(s)|);
    TrimEndKeeps(TrimStart(s), m, q);
    assert OccursAt(Trim(s), m, q);
  }

  /** `s.replace(/^"|"$/g, '')`: one leading and one trailing double quote removed. */
  function StripQuotes(s: string): (r: string)
  {
    var a := if |s| > 0 && s[0] == '"' then s[1..] else s;
    if |a| > 0 && a[|a| - 1] == '"' then a[..|a| - 1] else a
  }

  /** Quote stripping keeps any occurrence of a text that does not begin or end with a quote. */
  lemma StripQuotesKeeps(s: string, m: string, p: nat)
    requires OccursAt(s, m, p) && m != [] && m[0] != '"' && m[|m| - 1] != '"'
    ensures exists q: nat :: OccursAt(StripQuotes(s), m, q)
  {
    var d := if |s| > 0 && s[0] == '"' then 1 else 0;
    var a := s[d..];
    if d == 1 {
      assert s[p] == s[p..p + |m|][0] == m[0];
    }
    OccursDrop(s, m, p, d);
    if |a| > 0 && a[|a| - 1] == '"' {
      assert a[p - d + |m| - 1] == a[p - d..p - d + |m|][|m| - 1] == m[|m| - 1];
      OccursPrefix(a, m, p - d, |a| - 1);
    }
    assert OccursAt(StripQuotes(s), m, p - d);
  }

  function DigitChar(d: nat): (c: char)
    requires d < 10
    ensures IsDigit(c)
  {
    ('0' as int + d) as char
  }

  /** The decimal text of a natural number, as a template literal prints it. */
  function NatToString(n: nat): (r: string)
    ensures |r| >= 1 && forall i :: 0 <= i < |r| ==> IsDigit(r[i])
  {
    if n < 10 then [DigitChar(n)] else NatToString(n / 10) + [DigitChar(n % 10)]
  }

  /** The value of a text of decimal digits. */
  function DigitsValue(s: string): nat
    requires forall i :: 0 <= i < |s| ==> IsDigit(s[i])
  {
    if s == [] then 0
    else
      var d := s[|s| - 1] as int - '0' as int;
      assert IsDigit(s[|s| - 1]);
      10 * DigitsValue(s[..|s| - 1]) + d
  }

  /** Printing a number in decimal can be read back. */
  lemma {:induction false} NatToStringRoundTrip(n: nat)
    ensures DigitsValue(NatToString(n)) == n
  {
    if n >= 10 {
      NatToStringRoundTrip(n / 10);
      var s := NatToString(n);
      assert s[..|s| - 1] == NatToString(n / 10);
    }
  }

  /** Distinct numbers print differently. */
  lemma NatToStringInjective(m: nat, n: nat)
    requires NatToString(m) == NatToString(n)
    ensures m == n
  {
    NatToStringRoundTrip(m);
    NatToStringRoundTrip(n);
  }
}
