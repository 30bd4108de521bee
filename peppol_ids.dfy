/** Peppol identifier text shared by the lookup code and the load scripts: the
    `scheme:endpoint` split, and scanners for the two document-identifier patterns
    `/::([A-Za-z]+)-2::([A-Za-z]+)##/` and `/::([A-Za-z]+)##/`. */
module PeppolIds {
  import opened Text

  /** `const [schemeId, endpointId] = value.split(":")` followed by the check that both are
      non-empty; the source skips the row otherwise. */
  function SplitPid(value: string): (r: Option<(string, string)>)
  {
    var parts := Split(value, ":");
    if |parts| >= 2 && parts[0] != "" && parts[1] != "" then Some((parts[0], parts[1])) else None
  }

  function FullPid(scheme: string, endpoint: string): string {
    scheme + ":" + endpoint
  }

  /** A split identifier has colon-free, non-empty parts that start the value in order. */
  lemma SplitPidSound(value: string)
    requires SplitPid(value).Some?
    ensures var (s, e) := SplitPid(value).value;
      s != "" && e != "" && ':' !in s && ':' !in e && StartsWith(value, FullPid(s, e))
  {
    var parts := Split(value, ":");
    SplitPartsAvoidSep(value, ":", 0);
    SplitPartsAvoidSep(value, ":", 1);
    NoCharNotContained(parts[0], ':');
    NoCharNotContained(parts[1], ':');
    var i := IndexOf(value, ":").value;
    var rest := value[i + 1..];
    assert parts[0] == value[..i] && parts[1] == Split(rest, ":")[0];
    JoinSplit(rest, ":");
    SplitHeadPrefix(rest, ":");
    assert value == value[..i] + ":" + rest;
  }

  lemma NoCharNotContained(s: string, c: char)
    requires !Contains(s, [c])
    ensures c !in s
  {
    if c in s {
      var i :| 0 <= i < |s| && s[i] == c;
      assert s[i..i + 1] == [c];
      ContainsAt(s, [c], i);
    }
  }

  lemma {:induction false} SplitHeadPrefix(s: string, sep: string)
    requires |sep| > 0
    ensures StartsWith(s, Split(s, sep)[0])
  {
  }

  /** Splitting a full participant id built from colon-free parts gives the parts back: the
      batch loaders re-split `fullPid` and recover the scheme and endpoint they joined. */
  lemma SplitPidRoundTrip(scheme: string, endpoint: string)
    requires scheme != "" && endpoint != "" && ':' !in scheme && ':' !in endpoint
    ensures SplitPid(FullPid(scheme, endpoint)) == Some((scheme, endpoint))
  {
    SplitCharHead(scheme, ':', endpoint);
    assert FullPid(scheme, endpoint) == scheme + [':'] + endpoint;
    SplitOfColonFree(endpoint);
  }

  lemma SplitOfColonFree(s: string)
    requires ':' !in s
    ensures Split(s, ":") == [s]
  {
    assert forall j: nat :: OccursAt(s, ":", j) ==> s[j] == s[j..j + 1][0] == ':';
  }

  /** Length of the maximal run of ASCII letters starting at `i`. */
  function LetterRun(s: string, i: nat): (n: nat)
    requires i <= |s|
    ensures i + n <= |s|
    ensures forall k :: i <= k < i + n ==> IsLetter(s[k])
    ensures i + n == |s| || !IsLetter(s[i + n])
    decreases |s| - i
  {
    if i < |s| && IsLetter(s[i]) then 1 + LetterRun(s, i + 1) else 0
  }

  predicate AllLetters(s: string) {
    forall k :: 0 <= k < |s| ==> IsLetter(s[k])
  }

  /** The two document-identifier patterns: `::X-2::Y##` (capture Y) and `::X##` (capture X). */
  datatype Pattern = VersionedName | PlainName

  /** The capture of `pat` when it matches at position `p`. Letter runs are taken maximal:
      a regular-expression engine that backtracks into a shorter run would next meet a letter,
      which neither `-` nor `#` is. */
  function MatchAt(pat: Pattern, s: string, p: nat): (r: Option<string>)
    ensures r.Some? ==> r.value != "" && AllLetters(r.value)
  {
    if !OccursAt(s, "::", p) then None
    else
      var a := p + 2;
      var n1 := LetterRun(s, a);
      if n1 == 0 then None
      else match pat
        case PlainName =>
          if OccursAt(s, "##", a + n1) then Some(s[a..a + n1]) else None
        case VersionedName =>
          if !OccursAt(s, "-2::", a + n1) then None
          else
            var b := a + n1 + 4;
            var n2 := LetterRun(s, b);
            if n2 > 0 && OccursAt(s, "##", b + n2) then Some(s[b..b + n2]) else None
  }

  /** The leftmost position at or after `from` where `pat` matches. */
  function FirstMatchFrom(pat: Pattern, s: string, from: nat): (r: Option<nat>)
    ensures r.Some? ==> from <= r.value && MatchAt(pat, s, r.value).Some?
    ensures r.Some? ==> forall q :: from <= q < r.value ==> MatchAt(pat, s, q).None?
    ensures r.None? ==> forall q :: from <= q ==> MatchAt(pat, s, q).None?
    decreases |s| - from
  {
    if from + 2 > |s| then None
    else if MatchAt(pat, s, from).Some? then Some(from)
    else FirstMatchFrom(pat, s, from + 1)
  }

  /** `s.match(pattern)` and its capture group. */
  function Capture(pat: Pattern, s: string): (r: Option<string>)
    ensures r.Some? ==> r.value != "" && AllLetters(r.value)
  {
    match FirstMatchFrom(pat, s, 0)
    case None => None
    case Some(p) => MatchAt(pat, s, p)
  }

  lemma LetterRunAt(s: string, i: nat, x: string)
    requires i + |x| < |s| && s[i..i + |x|] == x && AllLetters(x) && !IsLetter(s[i + |x|])
    ensures LetterRun(s, i) == |x|
    decreases |x|
  {
    if |x| > 0 {
      assert s[i] == x[0];
      assert s[i + 1..i + 1 + |x[1..]|] == x[1..];
      LetterRunAt(s, i + 1, x[1..]);
    }
  }

  /** The plain pattern matches at `p` exactly when `::X##` stands there with X a non-empty run
      of letters, and then X is the capture. */
  lemma PlainMatchIff(s: string, p: nat, x: string)
    ensures MatchAt(PlainName, s, p) == Some(x) <==>
      (x != "" && AllLetters(x) && OccursAt(s, "::", p) && OccursAt(s, x, p + 2)
       && OccursAt(s, "##", p + 2 + |x|))
  {
    if x != "" && AllLetters(x) && OccursAt(s, "::", p) && OccursAt(s, x, p + 2)
       && OccursAt(s, "##", p + 2 + |x|) {
      LetterRunBeforeMark(s, p + 2, x, "##");
    }
  }

  /** `::X-2::Y##` stands at `p`, X being the `n` letters after the first `::`. */
  predicate VersionedAt(s: string, p: nat, n: nat, y: string) {
    var x := p + 2;
    var b := x + n + 4;
    OccursAt(s, "::", p) && n > 0 && x + n <= |s| && AllLetters(s[x..x + n])
    && OccursAt(s, "-2::", x + n)
    && y != "" && AllLetters(y) && OccursAt(s, y, b) && OccursAt(s, "##", b + |y|)
  }

  /** The versioned pattern matches at `p` exactly when `::X-2::Y##` stands there with X and Y
      non-empty runs of letters, and then Y is the capture. */
  lemma VersionedMatchIff(s: string, p: nat, y: string)
    ensures MatchAt(VersionedName, s, p) == Some(y) <==> exists n: nat :: VersionedAt(s, p, n, y)
  {
    if MatchAt(VersionedName, s, p) == Some(y) {
      VersionedMatchSound(s, p, y);
    }
    if n: nat :| VersionedAt(s, p, n, y) {
      VersionedMatchComplete(s, p, n, y);
    }
  }

  lemma VersionedMatchSound(s: string, p: nat, y: string)
    requires MatchAt(VersionedName, s, p) == Some(y)
    ensures VersionedAt(s, p, LetterRun(s, p + 2), y)
  {
    var n := LetterRun(s, p + 2);
    assert AllLetters(s[p + 2..p + 2 + n]);
  }

  lemma VersionedMatchComplete(s: string, p: nat, n: nat, y: string)
    requires VersionedAt(s, p, n, y)
    ensures MatchAt(VersionedName, s, p) == Some(y)
  {
    VersionedRuns(s, p, n, y);
    VersionedMatchIntro(s, p, n, |y|);
  }

  lemma VersionedRuns(s: string, p: nat, n: nat, y: string)
    requires VersionedAt(s, p, n, y)
    ensures LetterRun(s, p + 2) == n && LetterRun(s, p + 6 + n) == |y|
  {
    LetterRunBeforeMark(s, p + 2, s[p + 2..p + 2 + n], "-2::");
    LetterRunBeforeMark(s, p + 6 + n, y, "##");
  }

  lemma VersionedMatchIntro(s: string, p: nat, n1: nat, n2: nat)
    requires p + 2 <= |s| && OccursAt(s, "::", p) && LetterRun(s, p + 2) == n1 > 0
    requires OccursAt(s, "-2::", p + 2 + n1)
    requires LetterRun(s, p + 6 + n1) == n2 > 0 && OccursAt(s, "##", p + 6 + n1 + n2)
    ensures MatchAt(VersionedName, s, p) == Some(s[p + 6 + n1..p + 6 + n1 + n2])
  {
  }

  /** A run of letters followed by a text that starts with a non-letter is a maximal run. */
  lemma LetterRunBeforeMark(s: string, i: nat, x: string, mark: string)
    requires OccursAt(s, x, i) && AllLetters(x) && OccursAt(s, mark, i + |x|)
    requires mark != [] && !IsLetter(mark[0])
    ensures LetterRun(s, i) == |x|
  {
    assert s[i + |x|] == s[i + |x|..i + |x| + |mark|][0];
    LetterRunAt(s, i, x);
  }

  /** Pattern 3 of the source: the text after the last `::`, up to the first `##`, without a
      trailing `-2`. `None` when the line holds no `::` at all. */
  function LastSegmentName(line: string): (r: Option<string>)
    ensures r.Some? <==> Contains(line, "::")
  {
    var parts := Split(line, "::");
    if |parts| > 1 then
      var name := Split(parts[|parts| - 1], "##")[0];
      Some(if EndsWith(name, "-2") then name[..|name| - 2] else name)
    else
      assert IndexOf(line, "::").None?;
      None
  }

  /** The cascade shared by the three line parsers: pattern 1, else pattern 2, else pattern 3. */
  function LineName(line: string): (r: Option<string>)
    ensures r.None? <==> !Contains(line, "::")
  {
    match Capture(VersionedName, line)
    case Some(y) => Some(y)
    case None =>
      match Capture(PlainName, line)
      case Some(x) => Some(x)
      case None => LastSegmentName(line)
  }

  lemma CaptureNeedsSeparator(pat: Pattern, line: string)
    requires Capture(pat, line).Some?
    ensures Contains(line, "::")
  {
    var p := FirstMatchFrom(pat, line, 0).value;
    ContainsAt(line, "::", p);
  }

  const DocIdMarker: string := "busdox-docid-qns::"

  /** The line a parser works on: `line.trim().replace(/^"|"$/g, '')`. */
  function CleanLine(line: string): string {
    StripQuotes(Trim(line))
  }

  /** Every parser first keeps only lines that contain the document-identifier marker; such a
      line still contains `::` after trimming and quote stripping, so pattern 3 always applies
      and the source's last-resort fallbacks (the whole line, or '') are never reached. */
  lemma MarkedLineHasName(line: string)
    requires Contains(line, DocIdMarker)
    ensures Contains(CleanLine(line), DocIdMarker) && LineName(CleanLine(line)).Some?
  {
    var r := MarkedLineKeepsMarker(line);
    ContainsAt(CleanLine(line), DocIdMarker, r);
    OccursInside(CleanLine(line), DocIdMarker, r, 16, 2);
    assert DocIdMarker[16..18] == "::";
    ContainsAt(CleanLine(line), "::", r + 16);
  }

  lemma MarkedLineKeepsMarker(line: string) returns (r: nat)
    requires Contains(line, DocIdMarker)
    ensures OccursAt(CleanLine(line), DocIdMarker, r)
  {
    var i := IndexOf(line, DocIdMarker).value;
    TrimKeeps(line, DocIdMarker, i);
    var q: nat :| OccursAt(Trim(line), DocIdMarker, q);
    StripQuotesKeeps(Trim(line), DocIdMarker, q);
    r :| OccursAt(CleanLine(line), DocIdMarker, r);
  }
}
