/** The pieces of JavaScript string handling that the metrics scrapers rely on:
    the character classes `\w`, `\d` and `\s`, the three regular expressions
    `/(\w+)\s+load time:\s+(\d+)ms/`, `/(\d+)\s+passed/` (or `failed`) and `/(\d+)ms/`,
    leftmost and global matching, `String.prototype.includes` and `parseInt` on a run of
    decimal digits.

    Every pattern is given twice: as a ghost predicate saying which index tuples its
    language admits (`IsLoadTimeMatch`, `IsTallyMatch`, `IsMsMatch`), and as a greedy
    scanner (`LoadTimeAt`, `TallyAt`, `MsAt`). The `...IsUnique` lemmas show that at a
    given start the language admits at most the scanner's parse, so the backtracking
    engine, whatever order it tries alternatives in, finds exactly that match. */
module TextScan {
  import opened Optional

  // ---------------------------------------------------------------------------
  // Character classes (no `u`, `i` or `m` flag on any of the patterns)
  // ---------------------------------------------------------------------------

  datatype CharClass = Word | Digit | Space

  /** `\s`: the ECMAScript WhiteSpace and LineTerminator code points. */
  predicate IsJsSpace(c: char) {
    || c == '\t' || c == '\n' || c == '\U{000B}' || c == '\U{000C}' || c == '\r' || c == ' '
    || c == '\U{00A0}' || c == '\U{1680}' || ('\U{2000}' <= c <= '\U{200A}')
    || c == '\U{2028}' || c == '\U{2029}' || c == '\U{202F}' || c == '\U{205F}'
    || c == '\U{3000}' || c == '\U{FEFF}'
  }

  predicate InClass(k: CharClass, c: char) {
    match k
    case Word => 'A' <= c <= 'Z' || 'a' <= c <= 'z' || '0' <= c <= '9' || c == '_'
    case Digit => '0' <= c <= '9'
    case Space => IsJsSpace(c)
  }

  /** s[i..j] consists of characters of class k. */
  ghost predicate Run(s: string, i: nat, j: nat, k: CharClass)
    decreases j - i
  {
    i <= j <= |s| && (i == j || (InClass(k, s[i]) && Run(s, i + 1, j, k)))
  }

  /** Each character of a run is in its class. */
  lemma {:induction false} RunAt(s: string, i: nat, j: nat, k: CharClass, t: nat)
    requires Run(s, i, j, k) && i <= t < j
    ensures InClass(k, s[t])
    decreases j - i
  {
    if i < t {
      RunAt(s, i + 1, j, k, t);
    }
  }

  /** Conversely, consecutive class-k characters form a run. */
  lemma {:induction false} RunOfClass(s: string, i: nat, j: nat, k: CharClass)
    requires i <= j <= |s|
    requires forall t :: i <= t < j ==> InClass(k, s[t])
    ensures Run(s, i, j, k)
    decreases j - i
  {
    if i < j {
      RunOfClass(s, i + 1, j, k);
    }
  }

  /** The end of the longest run of class-k characters that starts at i. */
  function Span(s: string, i: nat, k: CharClass): (e: nat)
    requires i <= |s|
    ensures i <= e <= |s|
    ensures Run(s, i, e, k)
    ensures e < |s| ==> !InClass(k, s[e])
    decreases |s| - i
  {
    if i < |s| && InClass(k, s[i]) then Span(s, i + 1, k) else i
  }

  /** A run that cannot be extended is the one Span finds. */
  lemma {:induction false} SpanIsUnique(s: string, i: nat, e: nat, k: CharClass)
    requires Run(s, i, e, k) && (e < |s| ==> !InClass(k, s[e]))
    ensures Span(s, i, k) == e
    decreases e - i
  {
    if i < e {
      SpanIsUnique(s, i + 1, e, k);
    }
  }

  /** s[i..i+|w|] is the literal w. */
  ghost predicate LiteralAt(s: string, i: nat, w: string) {
    i + |w| <= |s| && s[i..i + |w|] == w
  }

  lemma LiteralAtHead(s: string, i: nat, w: string)
    requires LiteralAt(s, i, w) && |w| > 0
    ensures s[i] == w[0]
  {
    assert s[i..i + |w|][0] == s[i];
  }

  // ---------------------------------------------------------------------------
  // /(\w+)\s+load time:\s+(\d+)ms/
  // ---------------------------------------------------------------------------

  const LoadTimeLabel := "load time:"

  /** Where the parts of one match lie: the word (group 1) is s[start..wordEnd], the
      label starts at labelAt, the number (group 2) is s[digitsStart..digitsEnd], and
      "ms" follows it. */
  datatype LoadTimeMatch = LoadTimeMatch(start: nat, wordEnd: nat, labelAt: nat, digitsStart: nat, digitsEnd: nat)
  {
    function End(): nat { digitsEnd + 2 }
  }

  /** m is a parse of the pattern's language inside s. */
  ghost predicate IsLoadTimeMatch(s: string, m: LoadTimeMatch) {
    && m.start < m.wordEnd < m.labelAt
    && m.labelAt + |LoadTimeLabel| < m.digitsStart < m.digitsEnd
    && Run(s, m.start, m.wordEnd, Word)
    && Run(s, m.wordEnd, m.labelAt, Space)
    && LiteralAt(s, m.labelAt, LoadTimeLabel)
    && Run(s, m.labelAt + |LoadTimeLabel|, m.digitsStart, Space)
    && Run(s, m.digitsStart, m.digitsEnd, Digit)
    && LiteralAt(s, m.digitsEnd, "ms")
  }

  /** The greedy match of the load-time pattern that starts at i, if there is one. */
  function LoadTimeAt(s: string, i: nat): (r: Option<LoadTimeMatch>)
    ensures r.Some? ==> r.value.start == i && IsLoadTimeMatch(s, r.value)
  {
    if i >= |s| then None
    else
      var a := Span(s, i, Word);
      if a == i then None
      else
        var b := Span(s, a, Space);
        if b == a || b + |LoadTimeLabel| > |s| || s[b..b + |LoadTimeLabel|] != LoadTimeLabel then None
        else
          var d := Span(s, b + |LoadTimeLabel|, Space);
          if d == b + |LoadTimeLabel| then None
          else
            var e := Span(s, d, Digit);
            if e == d || e + 2 > |s| || s[e..e + 2] != "ms" then None
            else Some(LoadTimeMatch(i, a, b, d, e))
  }

  /** Any parse of the pattern that starts at i is the greedy one. */
  lemma LoadTimeAtIsUnique(s: string, m: LoadTimeMatch)
    requires IsLoadTimeMatch(s, m)
    ensures LoadTimeAt(s, m.start) == Some(m)
  {
    LiteralAtHead(s, m.labelAt, LoadTimeLabel);
    LiteralAtHead(s, m.digitsEnd, "ms");
    assert InClass(Space, s[m.wordEnd]);
    SpanIsUnique(s, m.start, m.wordEnd, Word);
    SpanIsUnique(s, m.wordEnd, m.labelAt, Space);
    assert InClass(Digit, s[m.digitsStart]);
    SpanIsUnique(s, m.labelAt + |LoadTimeLabel|, m.digitsStart, Space);
    SpanIsUnique(s, m.digitsStart, m.digitsEnd, Digit);
  }

  /** The leftmost match at or after `from`: one step of a global (`/g`) search, trying
      start positions from left to right. */
  function NextLoadTime(s: string, from: nat): (r: Option<LoadTimeMatch>)
    ensures r.Some? ==> from <= r.value.start && IsLoadTimeMatch(s, r.value)
    ensures forall k :: from <= k && (r.None? || k < r.value.start) ==> LoadTimeAt(s, k).None?
    decreases |s| - from
  {
    if from >= |s| then None
    else if LoadTimeAt(s, from).Some? then LoadTimeAt(s, from)
    else NextLoadTime(s, from + 1)
  }

  /** The matches `output.match(/(\w+)\s+load time:\s+(\d+)ms/g)` returns (none: `null`,
      modelled as the empty list), searching from `from` on: each search resumes where
      the previous match ended. */
  function LoadTimeMatchesFrom(s: string, from: nat): (ms: seq<LoadTimeMatch>)
    ensures forall j :: 0 <= j < |ms| ==> from <= ms[j].start && IsLoadTimeMatch(s, ms[j])
    decreases |s| - from
  {
    var n := NextLoadTime(s, from);
    if n.None? then []
    else
      var m := n.value;
      assert m.End() <= |s| by { LiteralAtHead(s, m.digitsEnd, "ms"); }
      [m] + LoadTimeMatchesFrom(s, m.End())
  }

  /** Matches listed in order of appearance, none overlapping the next. */
  ghost predicate InOrder(ms: seq<LoadTimeMatch>) {
    forall i, j :: 0 <= i < j < |ms| ==> ms[i].End() <= ms[j].start
  }

  /** Position k lies inside (or at the start of) one of the listed matches. */
  ghost predicate Covered(ms: seq<LoadTimeMatch>, k: nat) {
    exists j :: 0 <= j < |ms| && ms[j].start <= k < ms[j].End()
  }

  /** The global search lists its matches in order of appearance, without overlap. */
  lemma {:induction false} LoadTimeMatchesOrdered(s: string, from: nat)
    ensures InOrder(LoadTimeMatchesFrom(s, from))
    decreases |s| - from
  {
    var n := NextLoadTime(s, from);
    if n.Some? {
      var m := n.value;
      assert m.End() <= |s| by { LiteralAtHead(s, m.digitsEnd, "ms"); }
      LoadTimeMatchesOrdered(s, m.End());
      InOrderCons(m, LoadTimeMatchesFrom(s, m.End()));
    }
  }

  lemma InOrderCons(m: LoadTimeMatch, rest: seq<LoadTimeMatch>)
    requires InOrder(rest)
    requires forall j :: 0 <= j < |rest| ==> m.End() <= rest[j].start
    ensures InOrder([m] + rest)
  {
    var ms := [m] + rest;
    forall i, j | 0 <= i < j < |ms| ensures ms[i].End() <= ms[j].start {
      assert ms[j] == rest[j - 1];
      if i > 0 {
        assert ms[i] == rest[i - 1];
      }
    }
  }

  /** The search from `from` stops at or before any match that starts at `from` or
      later. */
  lemma NextLoadTimeFinds(s: string, from: nat, m: LoadTimeMatch)
    requires IsLoadTimeMatch(s, m) && from <= m.start
    ensures NextLoadTime(s, from).Some? && NextLoadTime(s, from).value.start <= m.start
  {
    LoadTimeAtIsUnique(s, m);
  }

  /** Two parses of the load-time pattern with the same start are the same parse. */
  lemma LoadTimeMatchesAgree(s: string, m1: LoadTimeMatch, m2: LoadTimeMatch)
    requires IsLoadTimeMatch(s, m1) && IsLoadTimeMatch(s, m2) && m1.start == m2.start
    ensures m1 == m2
  {
    LoadTimeAtIsUnique(s, m1);
    LoadTimeAtIsUnique(s, m2);
  }

  /** One step of the global search. */
  lemma LoadTimeMatchesStep(s: string, from: nat)
    requires NextLoadTime(s, from).Some?
    ensures var first := NextLoadTime(s, from).value;
      first.End() <= |s| && LoadTimeMatchesFrom(s, from) == [first] + LoadTimeMatchesFrom(s, first.End())
  {
    LiteralAtHead(s, NextLoadTime(s, from).value.digitsEnd, "ms");
  }

  lemma CoveredCons(first: LoadTimeMatch, rest: seq<LoadTimeMatch>, k: nat)
    requires (first.start <= k < first.End()) || Covered(rest, k)
    ensures Covered([first] + rest, k)
  {
    var ms := [first] + rest;
    if first.start <= k < first.End() {
      assert ms[0] == first;
    } else {
      var j :| 0 <= j < |rest| && rest[j].start <= k < rest[j].End();
      assert ms[j + 1] == rest[j];
    }
  }

  /** No match is skipped: every parse of the pattern that starts at or after `from`
      starts or lies inside one of the matches the global search returns. */
  lemma {:induction false} LoadTimeMatchesComplete(s: string, from: nat, m: LoadTimeMatch)
    requires IsLoadTimeMatch(s, m) && from <= m.start
    ensures Covered(LoadTimeMatchesFrom(s, from), m.start)
    decreases |s| - from
  {
    NextLoadTimeFinds(s, from, m);
    LoadTimeMatchesStep(s, from);
    var first := NextLoadTime(s, from).value;
    if first.End() <= m.start {
      LoadTimeMatchesComplete(s, first.End(), m);
    }
    CoveredCons(first, LoadTimeMatchesFrom(s, first.End()), m.start);
  }

  // ---------------------------------------------------------------------------
  // /(\d+)\s+passed/ and /(\d+)\s+failed/
  // ---------------------------------------------------------------------------

  /** The two counts the test runner's summary reports. */
  datatype Tally = Passed | Failed

  function Keyword(t: Tally): string {
    match t
    case Passed => "passed"
    case Failed => "failed"
  }

  /** One match: the number (group 1) is s[start..digitsEnd], the keyword starts at
      keywordAt. */
  datatype TallyMatch = TallyMatch(start: nat, digitsEnd: nat, keywordAt: nat)

  ghost predicate IsTallyMatch(s: string, t: Tally, m: TallyMatch) {
    && m.start < m.digitsEnd < m.keywordAt
    && Run(s, m.start, m.digitsEnd, Digit)
    && Run(s, m.digitsEnd, m.keywordAt, Space)
    && LiteralAt(s, m.keywordAt, Keyword(t))
  }

  /** The greedy match of the count pattern for t that starts at i, if there is one. */
  function TallyAt(s: string, i: nat, t: Tally): (r: Option<TallyMatch>)
    ensures r.Some? ==> r.value.start == i && IsTallyMatch(s, t, r.value)
  {
    if i >= |s| then None
    else
      var e := Span(s, i, Digit);
      if e == i then None
      else
        var p := Span(s, e, Space);
        if p == e || p + |Keyword(t)| > |s| || s[p..p + |Keyword(t)|] != Keyword(t) then None
        else Some(TallyMatch(i, e, p))
  }

  lemma TallyAtIsUnique(s: string, t: Tally, m: TallyMatch)
    requires IsTallyMatch(s, t, m)
    ensures TallyAt(s, m.start, t) == Some(m)
  {
    LiteralAtHead(s, m.keywordAt, Keyword(t));
    assert InClass(Space, s[m.digitsEnd]);
    SpanIsUnique(s, m.start, m.digitsEnd, Digit);
    SpanIsUnique(s, m.digitsEnd, m.keywordAt, Space);
  }

  /** `s.match(/(\d+)\s+passed/)` (or `failed`) searching from `from`: the leftmost match. */
  function FirstTally(s: string, t: Tally, from: nat): (r: Option<TallyMatch>)
    ensures r.Some? ==> from <= r.value.start && IsTallyMatch(s, t, r.value)
    ensures forall k :: from <= k && (r.None? || k < r.value.start) ==> TallyAt(s, k, t).None?
    decreases |s| - from
  {
    if from >= |s| then None
    else if TallyAt(s, from, t).Some? then TallyAt(s, from, t)
    else FirstTally(s, t, from + 1)
  }

  /** The search from `from` stops at or before any match that starts at `from` or
      later. */
  lemma FirstTallyFinds(s: string, t: Tally, from: nat, m: TallyMatch)
    requires IsTallyMatch(s, t, m) && from <= m.start
    ensures FirstTally(s, t, from).Some? && FirstTally(s, t, from).value.start <= m.start
  {
    TallyAtIsUnique(s, t, m);
  }

  /** Two parses of the count pattern with the same start are the same parse. */
  lemma TallyMatchesAgree(s: string, t: Tally, m1: TallyMatch, m2: TallyMatch)
    requires IsTallyMatch(s, t, m1) && IsTallyMatch(s, t, m2) && m1.start == m2.start
    ensures m1 == m2
  {
    TallyAtIsUnique(s, t, m1);
    TallyAtIsUnique(s, t, m2);
  }

  // ---------------------------------------------------------------------------
  // /(\d+)ms/
  // ---------------------------------------------------------------------------

  /** One match: the number (group 1) is s[start..digitsEnd], "ms" follows it. */
  datatype MsMatch = MsMatch(start: nat, digitsEnd: nat)

  ghost predicate IsMsMatch(s: string, m: MsMatch) {
    && m.start < m.digitsEnd
    && Run(s, m.start, m.digitsEnd, Digit)
    && LiteralAt(s, m.digitsEnd, "ms")
  }

  function MsAt(s: string, i: nat): (r: Option<MsMatch>)
    ensures r.Some? ==> r.value.start == i && IsMsMatch(s, r.value)
  {
    if i >= |s| then None
    else
      var e := Span(s, i, Digit);
      if e == i || e + 2 > |s| || s[e..e + 2] != "ms" then None
      else Some(MsMatch(i, e))
  }

  lemma MsAtIsUnique(s: string, m: MsMatch)
    requires IsMsMatch(s, m)
    ensures MsAt(s, m.start) == Some(m)
  {
    LiteralAtHead(s, m.digitsEnd, "ms");
    SpanIsUnique(s, m.start, m.digitsEnd, Digit);
  }

  /** `s.match(/(\d+)ms/)` searching from `from`: the leftmost match. */
  function FirstMs(s: string, from: nat): (r: Option<MsMatch>)
    ensures r.Some? ==> from <= r.value.start && IsMsMatch(s, r.value)
    ensures forall k :: from <= k && (r.None? || k < r.value.start) ==> MsAt(s, k).None?
    decreases |s| - from
  {
    if from >= |s| then None
    else if MsAt(s, from).Some? then MsAt(s, from)
    else FirstMs(s, from + 1)
  }

  /** The search finds a match no later than any parse of `(\d+)ms` at or after `from`. */
  lemma FirstMsFinds(s: string, from: nat, m: MsMatch)
    requires IsMsMatch(s, m) && from <= m.start
    ensures FirstMs(s, from).Some? && FirstMs(s, from).value.start <= m.start
  {
    MsAtIsUnique(s, m);
  }

  /** Two parses of `(\d+)ms` with the same start are the same parse. */
  lemma MsMatchesAgree(s: string, m1: MsMatch, m2: MsMatch)
    requires IsMsMatch(s, m1) && IsMsMatch(s, m2) && m1.start == m2.start
    ensures m1 == m2
  {
    MsAtIsUnique(s, m1);
    MsAtIsUnique(s, m2);
  }

  // ---------------------------------------------------------------------------
  // parseInt on a digit run, and the decimal form a number is printed in
  // ---------------------------------------------------------------------------

  function DigitValue(c: char): (v: nat)
    requires InClass(Digit, c)
    ensures v < 10
  {
    (c as int) - ('0' as int)
  }

  ghost predicate AllDigits(ds: string) {
    forall t :: 0 <= t < |ds| ==> InClass(Digit, ds[t])
  }

  lemma RunIsDigits(s: string, i: nat, j: nat)
    requires Run(s, i, j, Digit)
    ensures AllDigits(s[i..j])
  {
    forall t | 0 <= t < j - i ensures InClass(Digit, s[i..j][t]) {
      RunAt(s, i, j, Digit, i + t);
    }
  }

  /** `parseInt(ds)` for a run of ASCII digits: its decimal value. */
  function DecimalValue(ds: string): (v: nat)
    requires AllDigits(ds)
    decreases |ds|
  {
    if ds == [] then 0
    else 10 * DecimalValue(ds[..|ds| - 1]) + DigitValue(ds[|ds| - 1])
  }

  /** `parseInt` of the capture group `(\d+)` that spans s[i..j]. */
  function CapturedNumber(s: string, i: nat, j: nat): nat
    requires Run(s, i, j, Digit)
  {
    RunIsDigits(s, i, j);
    DecimalValue(s[i..j])
  }

  function DigitChar(d: nat): (c: char)
    requires d < 10
    ensures InClass(Digit, c) && DigitValue(c) == d
  {
    ('0' as int + d) as char
  }

  /** How a template literal `${n}` prints a non-negative integer. */
  function ToDecimal(n: nat): (ds: string)
    ensures |ds| > 0 && AllDigits(ds)
    ensures DecimalValue(ds) == n
  {
    if n < 10 then [DigitChar(n)]
    else
      var ds := ToDecimal(n / 10) + [DigitChar(n % 10)];
      assert ds[..|ds| - 1] == ToDecimal(n / 10);
      ds
  }

  // ---------------------------------------------------------------------------
  // String.prototype.includes
  // ---------------------------------------------------------------------------

  /** `s.includes(sub)` looking at positions k and later. */
  function ContainsFrom(s: string, sub: string, k: nat): (r: bool)
    ensures r <==> exists j :: k <= j && LiteralAt(s, j, sub)
    decreases |s| - k
  {
    if k + |sub| > |s| then false
    else if s[k..k + |sub|] == sub then assert LiteralAt(s, k, sub); true
    else ContainsFrom(s, sub, k + 1)
  }

  /** `s.includes(sub)`. */
  function Contains(s: string, sub: string): (r: bool)
    ensures r <==> exists j :: LiteralAt(s, j, sub)
  {
    ContainsFrom(s, sub, 0)
  }
}
