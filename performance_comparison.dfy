/** The metrics scraper of the performance comparison script: `extractMetrics` reads a
    test run's standard output and returns the load times it printed, whether the
    throttling fixture announced itself, and the passed and failed counts of the runner's
    summary; `main` runs the local and the CI mode and prints one table row per mode
    with "N/A" where there is nothing to average or no test was counted.

    The runs themselves (`runTests`, `execSync`, the clock) are parameters here. */
module PerformanceComparison {
  import opened Optional
  import opened TextScan
  import BaseFixtures

  /** The line the throttling fixture logs before it throttles. */
  const ThrottlingMarker := "Applying throttling to chrome-for-flake project"

  datatype TestResults = TestResults(passed: nat, failed: nat)

  datatype Metrics = Metrics(loadTimes: seq<nat>, throttlingApplied: bool, testResults: TestResults)

  // ---------------------------------------------------------------------------
  // What extractMetrics computes, as functions of the output
  // ---------------------------------------------------------------------------

  /** The strings `output.match(/(\w+)\s+load time:\s+(\d+)ms/g)` returns. */
  function LoadTimeTexts(output: string): (texts: seq<string>)
    ensures var ms := LoadTimeMatchesFrom(output, 0);
      |texts| == |ms| && forall j :: 0 <= j < |ms| ==> texts[j] == output[ms[j].start..ms[j].End()]
  {
    var ms := LoadTimeMatchesFrom(output, 0);
    seq(|ms|, j requires 0 <= j < |ms| =>
      LiteralAtHead(output, ms[j].digitsEnd, "ms");
      output[ms[j].start..ms[j].End()])
  }

  /** `parseInt(text.match(/(\d+)ms/)[1])`, or None where that match is `null`. */
  function MsValue(text: string): (v: Option<nat>)
    ensures v.Some? <==> exists m :: IsMsMatch(text, m)
  {
    var m := FirstMs(text, 0);
    if m.None? then
      assert forall mm :: !IsMsMatch(text, mm) by {
        forall mm | IsMsMatch(text, mm) ensures false { MsAtIsUnique(text, mm); }
      }
      None
    else Some(CapturedNumber(text, m.value.start, m.value.digitsEnd))
  }

  /** The load times the `forEach` pushes: one per text whose `(\d+)ms` match exists. */
  function PushedValues(texts: seq<string>): (vs: seq<nat>)
    decreases |texts|
  {
    if texts == [] then []
    else
      var last := MsValue(texts[|texts| - 1]);
      PushedValues(texts[..|texts| - 1]) + (if last.Some? then [last.value] else [])
  }

  lemma PushedValuesStep(texts: seq<string>, i: nat)
    requires i < |texts|
    ensures var v := MsValue(texts[i]);
      PushedValues(texts[..i + 1]) == PushedValues(texts[..i]) + (if v.Some? then [v.value] else [])
  {
    assert texts[..i + 1][..i] == texts[..i];
  }

  /** The `loadTimes` list extractMetrics produces for `output`. */
  function LoadTimes(output: string): seq<nat> {
    PushedValues(LoadTimeTexts(output))
  }

  /** `parseInt(output.match(/(\d+)\s+passed/)[1])` (or `failed`), and 0 when there is no
      match. */
  function TallyCount(output: string, t: Tally): (n: nat)
  {
    var m := FirstTally(output, t, 0);
    if m.None? then 0 else CapturedNumber(output, m.value.start, m.value.digitsEnd)
  }

  /** `output.includes('Applying throttling to chrome-for-flake project')`. */
  function ThrottlingApplied(output: string): (r: bool)
    ensures r <==> exists k :: LiteralAt(output, k, ThrottlingMarker)
  {
    Contains(output, ThrottlingMarker)
  }

  // ---------------------------------------------------------------------------
  // extractMetrics
  // ---------------------------------------------------------------------------

  method ExtractMetrics(output: string) returns (metrics: Metrics)
    ensures metrics.loadTimes == LoadTimes(output)
    ensures metrics.throttlingApplied == ThrottlingApplied(output)
    ensures metrics.testResults == TestResults(TallyCount(output, Passed), TallyCount(output, Failed))
  {
    metrics := Metrics([], false, TestResults(0, 0));

    var loadTimeMatches := LoadTimeTexts(output);
    var i := 0;
    while i < |loadTimeMatches|
      invariant i <= |loadTimeMatches|
      invariant metrics == Metrics(PushedValues(loadTimeMatches[..i]), false, TestResults(0, 0))
    {
      PushedValuesStep(loadTimeMatches, i);
      var timeMatch := MsValue(loadTimeMatches[i]);
      if timeMatch.Some? {
        metrics := metrics.(loadTimes := metrics.loadTimes + [timeMatch.value]);
      }
      i := i + 1;
    }
    assert loadTimeMatches[..i] == loadTimeMatches;

    metrics := metrics.(throttlingApplied := Contains(output, ThrottlingMarker));

    var passedMatch := FirstTally(output, Passed, 0);
    var failedMatch := FirstTally(output, Failed, 0);
    if passedMatch.Some? {
      var n := CapturedNumber(output, passedMatch.value.start, passedMatch.value.digitsEnd);
      metrics := metrics.(testResults := metrics.testResults.(passed := n));
    }
    if failedMatch.Some? {
      var n := CapturedNumber(output, failedMatch.value.start, failedMatch.value.digitsEnd);
      metrics := metrics.(testResults := metrics.testResults.(failed := n));
    }
  }

  // ---------------------------------------------------------------------------
  // main: the two runs, the comparison table and the key insights
  // ---------------------------------------------------------------------------

  /** What `runTests` returns; the run itself is a parameter of the model. */
  datatype RunResult = RunResult(success: bool, duration: nat, output: string)

  /** `{...runResult, metrics, mode, description}`. */
  datatype ModeResult = ModeResult(
    success: bool, duration: nat, output: string, metrics: Metrics, mode: string, description: string)

  datatype Results = Results(local: ModeResult, ci: ModeResult)

  /** An average the report prints: total / count, with count > 0. */
  datatype Mean = Mean(total: nat, count: nat)

  /** A pass rate the report prints: passed / total, with total > 0. */
  datatype PassRate = PassRate(passed: nat, total: nat)

  /** One line of the comparison table; None stands for the printed "N/A". */
  datatype ReportRow = ReportRow(
    description: string, duration: nat, avgLoadTime: Option<Mean>, throttlingApplied: bool,
    passRate: Option<PassRate>)

  /** The CI average over the local one. */
  datatype Slowdown = Slowdown(ci: Mean, local: Mean)

  /** "passed/total tests passed". */
  datatype SuccessLine = SuccessLine(passed: nat, total: nat)

  datatype Insights = Insights(
    slowdown: Option<Slowdown>, localSuccess: SuccessLine, ciSuccess: SuccessLine,
    throttlingConfirmed: bool)

  /** `loadTimes.reduce((a, b) => a + b, 0)`. */
  function Sum(xs: seq<nat>): nat {
    if xs == [] then 0 else Sum(xs[..|xs| - 1]) + xs[|xs| - 1]
  }

  /** The record main keeps for one mode. */
  ghost predicate ModeRecord(r: ModeResult, run: RunResult, mode: string, description: string) {
    && r.success == run.success && r.duration == run.duration && r.output == run.output
    && r.metrics.loadTimes == LoadTimes(run.output)
    && r.metrics.throttlingApplied == ThrottlingApplied(run.output)
    && r.metrics.testResults == TestResults(TallyCount(run.output, Passed), TallyCount(run.output, Failed))
    && r.mode == mode && r.description == description
  }

  /** What the table prints for a mode: an average only when there are load times, a pass
      rate only when some test was counted. */
  ghost predicate RowDescribes(row: ReportRow, r: ModeResult) {
    var lt := r.metrics.loadTimes;
    var total := r.metrics.testResults.passed + r.metrics.testResults.failed;
    && row.description == r.description && row.duration == r.duration
    && (row.avgLoadTime.None? <==> lt == [])
    && (row.avgLoadTime.Some? ==> row.avgLoadTime.value == Mean(Sum(lt), |lt|))
    && (row.passRate.None? <==> total == 0)
    && (row.passRate.Some? ==> row.passRate.value == PassRate(r.metrics.testResults.passed, total))
    && row.throttlingApplied == r.metrics.throttlingApplied
  }

  const LocalMode := "local-headless"
  const LocalDescription := "Local Headless (Full Performance)"
  const CiMode := "ci"
  const CiDescription := "CI Mode (Throttled)"

  method ComparePerformance(localRun: RunResult, ciRun: RunResult)
    returns (results: Results, rows: seq<ReportRow>, insights: Insights)
    ensures ModeRecord(results.local, localRun, LocalMode, LocalDescription)
    ensures ModeRecord(results.ci, ciRun, CiMode, CiDescription)
    ensures |rows| == 2 && RowDescribes(rows[0], results.local) && RowDescribes(rows[1], results.ci)
    ensures InsightsDescribe(insights, results)
  {
    var localMetrics := ExtractMetrics(localRun.output);
    var local := ModeResult(localRun.success, localRun.duration, localRun.output, localMetrics,
      LocalMode, LocalDescription);
    var ciMetrics := ExtractMetrics(ciRun.output);
    var ci := ModeResult(ciRun.success, ciRun.duration, ciRun.output, ciMetrics, CiMode, CiDescription);
    results := Results(local, ci);
    rows := ReportRows([results.local, results.ci]);
    insights := KeyInsights(results);
  }

  /** The table: one row per mode, in the order the modes were recorded. */
  method ReportRows(values: seq<ModeResult>) returns (rows: seq<ReportRow>)
    ensures |rows| == |values|
    ensures forall k :: 0 <= k < |values| ==> RowDescribes(rows[k], values[k])
  {
    rows := [];
    var i := 0;
    while i < |values|
      invariant i <= |values| && |rows| == i
      invariant forall k :: 0 <= k < i ==> RowDescribes(rows[k], values[k])
    {
      var result := values[i];
      var loadTimes := result.metrics.loadTimes;
      var avgLoadTime := if |loadTimes| > 0 then Some(Mean(Sum(loadTimes), |loadTimes|)) else None;
      var totalTests := result.metrics.testResults.passed + result.metrics.testResults.failed;
      var passRate := if totalTests > 0 then Some(PassRate(result.metrics.testResults.passed, totalTests)) else None;
      rows := rows + [ReportRow(result.description, result.duration, avgLoadTime,
        result.metrics.throttlingApplied, passRate)];
      i := i + 1;
    }
  }

  /** The insights: a slowdown only when both modes have load times, both success lines,
      and whether the CI run announced throttling. */
  ghost predicate InsightsDescribe(insights: Insights, results: Results) {
    var local := results.local.metrics;
    var ci := results.ci.metrics;
    && (insights.slowdown.Some? <==> local.loadTimes != [] && ci.loadTimes != [])
    && (insights.slowdown.Some? ==> insights.slowdown.value == Slowdown(
         Mean(Sum(ci.loadTimes), |ci.loadTimes|), Mean(Sum(local.loadTimes), |local.loadTimes|)))
    && insights.localSuccess == SuccessLine(local.testResults.passed,
         local.testResults.passed + local.testResults.failed)
    && insights.ciSuccess == SuccessLine(ci.testResults.passed, ci.testResults.passed + ci.testResults.failed)
    && insights.throttlingConfirmed == ci.throttlingApplied
  }

  method KeyInsights(results: Results) returns (insights: Insights)
    ensures InsightsDescribe(insights, results)
  {
    var local := results.local.metrics;
    var ci := results.ci.metrics;
    var slowdown := None;
    if |local.loadTimes| > 0 && |ci.loadTimes| > 0 {
      slowdown := Some(Slowdown(Mean(Sum(ci.loadTimes), |ci.loadTimes|),
        Mean(Sum(local.loadTimes), |local.loadTimes|)));
    }
    insights := Insights(slowdown,
      SuccessLine(local.testResults.passed, local.testResults.passed + local.testResults.failed),
      SuccessLine(ci.testResults.passed, ci.testResults.passed + ci.testResults.failed),
      ci.throttlingApplied);
  }

  /** The CI run is reported as throttled exactly when its output carries the fixture's
      notice. */
  lemma CiThrottlingFromMarker(results: Results, ciRun: RunResult, insights: Insights)
    requires ModeRecord(results.ci, ciRun, CiMode, CiDescription)
    requires InsightsDescribe(insights, results)
    ensures insights.throttlingConfirmed <==> exists k :: LiteralAt(ciRun.output, k, ThrottlingMarker)
  {
  }

  // ---------------------------------------------------------------------------
  // Properties of the scraper
  // ---------------------------------------------------------------------------

  /** A pattern's number lies at the same place inside the match's own text. */
  lemma {:induction false} RunInSlice(s: string, lo: nat, hi: nat, i: nat, j: nat, k: CharClass)
    requires lo <= i && j <= hi <= |s| && Run(s, i, j, k)
    ensures Run(s[lo..hi], i - lo, j - lo, k)
    decreases j - i
  {
    if i < j {
      RunInSlice(s, lo, hi, i + 1, j, k);
    }
  }

  /** The text of every load-time match holds a `(\d+)ms` match: its own group 2. */
  lemma MatchTextHasMsMatch(s: string, m: LoadTimeMatch)
    requires IsLoadTimeMatch(s, m)
    ensures m.End() <= |s|
    ensures IsMsMatch(s[m.start..m.End()], MsMatch(m.digitsStart - m.start, m.digitsEnd - m.start))
  {
    LiteralAtHead(s, m.digitsEnd, "ms");
    var t := s[m.start..m.End()];
    RunInSlice(s, m.start, m.End(), m.digitsStart, m.digitsEnd, Digit);
    assert t[m.digitsEnd - m.start..m.digitsEnd - m.start + 2] == s[m.digitsEnd..m.digitsEnd + 2];
  }

  /** The `if (timeMatch)` test never fails: loadTimes has exactly one entry per global
      match, in the order of the matches, each the value of the first `(\d+)ms` inside
      that match's text. */
  lemma {:induction false} PushedValuesOnePerText(texts: seq<string>)
    requires forall j :: 0 <= j < |texts| ==> MsValue(texts[j]).Some?
    ensures var vs := PushedValues(texts);
      |vs| == |texts| && forall j :: 0 <= j < |texts| ==> vs[j] == MsValue(texts[j]).value
    decreases |texts|
  {
    if texts != [] {
      var init := texts[..|texts| - 1];
      PushedValuesOnePerText(init);
    }
  }

  lemma LoadTimesOnePerMatch(output: string)
    ensures var ms := LoadTimeMatchesFrom(output, 0);
      var lt := LoadTimes(output);
      |lt| == |ms| &&
      forall j :: 0 <= j < |ms| ==> MsValue(output[ms[j].start..ms[j].End()]) == Some(lt[j])
  {
    var texts := LoadTimeTexts(output);
    var ms := LoadTimeMatchesFrom(output, 0);
    forall j | 0 <= j < |texts| ensures MsValue(texts[j]).Some? {
      MatchTextHasMsMatch(output, ms[j]);
    }
    PushedValuesOnePerText(texts);
  }

  lemma LabelHasNoDigit(i: nat)
    requires i < |LoadTimeLabel|
    ensures !InClass(Digit, LoadTimeLabel[i])
  {
    assert i == 0 || i == 1 || i == 2 || i == 3 || i == 4 || i == 5 || i == 6 || i == 7 || i == 8 || i == 9;
  }

  /** Between a load-time match's start and its second group no character is a digit
      when the word holds none: the blanks and the label hold none. */
  lemma NoDigitBeforeGroup(s: string, m: LoadTimeMatch, p: nat)
    requires IsLoadTimeMatch(s, m)
    requires forall q :: m.start <= q < m.wordEnd ==> !InClass(Digit, s[q])
    requires m.start <= p < m.digitsStart
    ensures !InClass(Digit, s[p])
  {
    if p < m.wordEnd {
    } else if p < m.labelAt {
      RunAt(s, m.wordEnd, m.labelAt, Space, p);
    } else if p < m.labelAt + |LoadTimeLabel| {
      assert s[p] == s[m.labelAt..m.labelAt + |LoadTimeLabel|][p - m.labelAt];
      LabelHasNoDigit(p - m.labelAt);
    } else {
      RunAt(s, m.labelAt + |LoadTimeLabel|, m.digitsStart, Space, p);
    }
  }

  /** Where the word before " load time:" holds no digit, the load time recorded for a
      match is the number the pattern's second group captured. */
  lemma LoadTimeIsCapturedNumber(s: string, m: LoadTimeMatch)
    requires IsLoadTimeMatch(s, m)
    requires forall p :: m.start <= p < m.wordEnd ==> !InClass(Digit, s[p])
    ensures m.End() <= |s|
    ensures MsValue(s[m.start..m.End()]) == Some(CapturedNumber(s, m.digitsStart, m.digitsEnd))
  {
    FirstMsIsGroup(s, m);
    var t := s[m.start..m.End()];
    assert t[m.digitsStart - m.start..m.digitsEnd - m.start] == s[m.digitsStart..m.digitsEnd];
  }

  /** The first `(\d+)ms` inside such a match's text is its second group. */
  lemma FirstMsIsGroup(s: string, m: LoadTimeMatch)
    requires IsLoadTimeMatch(s, m)
    requires forall p :: m.start <= p < m.wordEnd ==> !InClass(Digit, s[p])
    ensures m.End() <= |s|
    ensures FirstMs(s[m.start..m.End()], 0) == Some(MsMatch(m.digitsStart - m.start, m.digitsEnd - m.start))
  {
    MatchTextHasMsMatch(s, m);
    var t := s[m.start..m.End()];
    var g := MsMatch(m.digitsStart - m.start, m.digitsEnd - m.start);
    FirstMsFinds(t, 0, g);
    var first := FirstMs(t, 0).value;
    if first.start < g.start {
      RunAt(t, first.start, first.digitsEnd, Digit, first.start);
      assert t[first.start] == s[m.start + first.start];
      NoDigitBeforeGroup(s, m, m.start + first.start);
    } else {
      MsMatchesAgree(t, first, g);
    }
  }

  /** leftmost rule for the counts: the number of the leftmost match, whichever parse of
      the pattern is considered. */
  lemma TallyCountIsLeftmost(s: string, t: Tally, m: TallyMatch)
    requires IsTallyMatch(s, t, m)
    requires forall m' :: IsTallyMatch(s, t, m') ==> m.start <= m'.start
    ensures TallyCount(s, t) == CapturedNumber(s, m.start, m.digitsEnd)
  {
    FirstTallyIs(s, t, m);
  }

  lemma FirstTallyIs(s: string, t: Tally, m: TallyMatch)
    requires IsTallyMatch(s, t, m)
    requires forall m' :: IsTallyMatch(s, t, m') ==> m.start <= m'.start
    ensures FirstTally(s, t, 0) == Some(m)
  {
    FirstTallyFinds(s, t, 0, m);
    TallyMatchesAgree(s, t, FirstTally(s, t, 0).value, m);
  }

  /** Without a match the count stays 0. */
  lemma TallyCountWithoutMatch(s: string, t: Tally)
    requires forall m :: !IsTallyMatch(s, t, m)
    ensures TallyCount(s, t) == 0
  {
  }

  /** The global match comes back empty exactly when no match starts at `from` or later. */
  lemma LoadTimeMatchesEmpty(s: string, from: nat)
    ensures LoadTimeMatchesFrom(s, from) == [] <==>
      forall m: LoadTimeMatch :: from <= m.start ==> !IsLoadTimeMatch(s, m)
  {
    var ms := LoadTimeMatchesFrom(s, from);
    if ms != [] {
      assert from <= ms[0].start && IsLoadTimeMatch(s, ms[0]);
    }
    forall m: LoadTimeMatch | from <= m.start && IsLoadTimeMatch(s, m) ensures ms != [] {
      LoadTimeMatchesComplete(s, from, m);
    }
  }

  /** Any output that carries the line the fixture logs before throttling is reported
      as throttled. */
  lemma FixtureNoticeIsDetected(before: string, after: string)
    ensures ThrottlingApplied(before + BaseFixtures.ThrottlingNotice + after)
  {
    var s := before + BaseFixtures.ThrottlingNotice + after;
    assert s[|before|..|before| + |ThrottlingMarker|] == BaseFixtures.ThrottlingNotice == ThrottlingMarker;
    assert LiteralAt(s, |before|, ThrottlingMarker);
  }

  /** Output with no load-time match, no count match and no marker gives the initial
      record. */
  lemma QuietOutputMetrics(s: string)
    requires forall m :: !IsLoadTimeMatch(s, m)
    requires forall m :: !IsTallyMatch(s, Passed, m)
    requires forall m :: !IsTallyMatch(s, Failed, m)
    requires forall k :: !LiteralAt(s, k, ThrottlingMarker)
    ensures LoadTimes(s) == [] && !ThrottlingApplied(s)
    ensures TallyCount(s, Passed) == 0 && TallyCount(s, Failed) == 0
  {
    LoadTimeMatchesEmpty(s, 0);
  }

  // ---------------------------------------------------------------------------
  // The lines the test specifications print
  // ---------------------------------------------------------------------------

  /** The line `${pre} load time: ${n}ms`. */
  function LoadTimeLine(pre: string, n: nat): string {
    pre + " load time: " + ToDecimal(n) + "ms"
  }

  ghost predicate NoColon(s: string) {
    forall q :: 0 <= q < |s| ==> s[q] != ':'
  }

  /** Where each character of such a line comes from, with ds the printed number. */
  ghost predicate LineLayout(s: string, pre: string, ds: string) {
    && |ds| > 0 && AllDigits(ds)
    && |s| == |pre| + 14 + |ds|
    && s[..|pre|] == pre
    && s[|pre|..|pre| + 12] == " load time: "
    && s[|pre| + 12..|pre| + 12 + |ds|] == ds
    && s[|pre| + 12 + |ds|..] == "ms"
  }

  lemma LineHasLayout(pre: string, n: nat)
    ensures LineLayout(LoadTimeLine(pre, n), pre, ToDecimal(n))
  {
    var ds := ToDecimal(n);
    var s := LoadTimeLine(pre, n);
    assert s == pre + " load time: " + ds + "ms";
  }

  /** The label of any match in such a line is the one after `pre`, since its colon is
      the line's only one. */
  lemma LabelAfterPrefix(s: string, pre: string, ds: string, m: LoadTimeMatch)
    requires LineLayout(s, pre, ds) && NoColon(pre)
    requires IsLoadTimeMatch(s, m)
    ensures m.labelAt == |pre| + 1
  {
    var c := m.labelAt + |LoadTimeLabel| - 1;
    assert s[c] == s[m.labelAt..m.labelAt + |LoadTimeLabel|][|LoadTimeLabel| - 1];
    if |pre| <= c < |pre| + 12 {
      assert s[c] == s[|pre|..|pre| + 12][c - |pre|];
    }
  }

  /** A global match list that holds only the match `m` when `m` runs to the end of the
      string and no match starts before it. */
  lemma OnlyMatch(s: string, m: LoadTimeMatch)
    requires IsLoadTimeMatch(s, m) && m.End() == |s|
    requires forall m' :: IsLoadTimeMatch(s, m') ==> m.start <= m'.start
    ensures LoadTimeMatchesFrom(s, 0) == [m]
  {
    FirstMatchIs(s, m);
    assert LoadTimeMatchesFrom(s, m.End()) == [];
  }

  /** The search from the start of the string finds the leftmost match. */
  lemma FirstMatchIs(s: string, m: LoadTimeMatch)
    requires IsLoadTimeMatch(s, m)
    requires forall m' :: IsLoadTimeMatch(s, m') ==> m.start <= m'.start
    ensures NextLoadTime(s, 0) == Some(m)
  {
    NextLoadTimeFinds(s, 0, m);
    LoadTimeMatchesAgree(s, NextLoadTime(s, 0).value, m);
  }

  /** The match a line `${prefix}${word} load time: ${n}ms` carries. */
  lemma LineMatch(s: string, prefix: string, word: string, ds: string)
    requires LineLayout(s, prefix + word, ds)
    requires |word| > 0 && forall p :: 0 <= p < |word| ==> InClass(Word, word[p])
    ensures var w := |prefix + word|;
      IsLoadTimeMatch(s, LoadTimeMatch(|prefix|, w, w + 1, w + 12, w + 12 + |ds|))
  {
    LineWord(s, prefix, word, ds);
    LineLabel(s, prefix + word, ds);
    LineDigits(s, prefix + word, ds);
  }

  /** The last word of the text before the label is a `\w` run. */
  lemma LineWord(s: string, prefix: string, word: string, ds: string)
    requires LineLayout(s, prefix + word, ds)
    requires |word| > 0 && forall p :: 0 <= p < |word| ==> InClass(Word, word[p])
    ensures Run(s, |prefix|, |prefix + word|, Word)
  {
    var w := |prefix + word|;
    forall t | |prefix| <= t < w ensures InClass(Word, s[t]) {
      assert s[t] == s[..w][t] == (prefix + word)[t] == word[t - |prefix|];
    }
    RunOfClass(s, |prefix|, w, Word);
  }

  /** The blank, the label and the blank after it. */
  lemma LineLabel(s: string, pre: string, ds: string)
    requires LineLayout(s, pre, ds)
    ensures var w := |pre|;
      Run(s, w, w + 1, Space) && LiteralAt(s, w + 1, LoadTimeLabel) && Run(s, w + 11, w + 12, Space)
  {
    var w := |pre|;
    assert s[w] == s[w..w + 12][0];
    RunOfClass(s, w, w + 1, Space);
    var gap := s[w..w + 12];
    assert gap == " " + LoadTimeLabel + " ";
    forall k | 0 <= k < |LoadTimeLabel| ensures s[w + 1..w + 11][k] == LoadTimeLabel[k] {
      assert s[w + 1 + k] == gap[1 + k];
    }
    assert s[w + 11] == s[w..w + 12][11];
    RunOfClass(s, w + 11, w + 12, Space);
  }

  /** The printed number is a `\d` run followed by `ms`. */
  lemma LineDigits(s: string, pre: string, ds: string)
    requires LineLayout(s, pre, ds)
    ensures var w := |pre|;
      Run(s, w + 12, w + 12 + |ds|, Digit) && LiteralAt(s, w + 12 + |ds|, "ms")
  {
    var w := |pre|;
    forall t | w + 12 <= t < w + 12 + |ds| ensures InClass(Digit, s[t]) {
      assert s[t] == s[w + 12..w + 12 + |ds|][t - w - 12];
    }
    RunOfClass(s, w + 12, w + 12 + |ds|, Digit);
  }

  /** No match of such a line starts inside `prefix` when `prefix` is empty or ends in a
      non-word character. */
  lemma NoMatchInPrefix(s: string, prefix: string, word: string, ds: string, m: LoadTimeMatch)
    requires LineLayout(s, prefix + word, ds)
    requires |word| > 0 && forall p :: 0 <= p < |word| ==> InClass(Word, word[p])
    requires NoColon(prefix) && (prefix == [] || !InClass(Word, prefix[|prefix| - 1]))
    requires IsLoadTimeMatch(s, m)
    ensures |prefix| <= m.start
  {
    var w := |prefix + word|;
    assert NoColon(prefix + word) by {
      forall q | 0 <= q < w ensures (prefix + word)[q] != ':' {
        if q >= |prefix| { assert (prefix + word)[q] == word[q - |prefix|]; }
      }
    }
    LabelAfterPrefix(s, prefix + word, ds, m);
    assert s[w - 1] == s[..w][w - 1] == word[|word| - 1];
    if m.wordEnd < w {
      RunAt(s, m.wordEnd, m.labelAt, Space, w - 1);
      assert false;
    }
    if m.start < |prefix| {
      assert s[|prefix| - 1] == s[..w][|prefix| - 1] == prefix[|prefix| - 1];
      RunAt(s, m.start, m.wordEnd, Word, |prefix| - 1);
      assert false;
    }
  }

  /** A line `${prefix}${word} load time: ${n}ms`, with a digit-free word after a
      colon-free prefix that is empty or ends in a non-word character, is read as the
      single load time n. The line `Standard Chrome load time: ${loadTime}ms`, printed by
      the "standard chrome" demonstration tests, is one. */
  lemma LoadTimeLineIsRead(prefix: string, word: string, n: nat)
    requires |word| > 0
    requires forall p :: 0 <= p < |word| ==> InClass(Word, word[p]) && !InClass(Digit, word[p])
    requires NoColon(prefix) && (prefix == [] || !InClass(Word, prefix[|prefix| - 1]))
    ensures LoadTimes(LoadTimeLine(prefix + word, n)) == [n]
  {
    var s := LoadTimeLine(prefix + word, n);
    var ds := ToDecimal(n);
    LineHasLayout(prefix + word, n);
    var m := LineMatchAt(s, prefix, word, ds);
    LoadTimeIsCapturedNumber(s, m);
    SingleMatchLoadTimes(s, m);
  }

  lemma SingleMatchLoadTimes(s: string, m: LoadTimeMatch)
    requires LoadTimeMatchesFrom(s, 0) == [m]
    requires m.start <= m.End() <= |s| && MsValue(s[m.start..m.End()]).Some?
    ensures LoadTimes(s) == [MsValue(s[m.start..m.End()]).value]
  {
    SingleMatchText(s, m);
    PushedValuesOfOne(s[m.start..m.End()]);
  }

  lemma SingleMatchText(s: string, m: LoadTimeMatch)
    requires LoadTimeMatchesFrom(s, 0) == [m]
    requires m.start <= m.End() <= |s|
    ensures LoadTimeTexts(s) == [s[m.start..m.End()]]
  {
  }

  lemma PushedValuesOfOne(t: string)
    requires MsValue(t).Some?
    ensures PushedValues([t]) == [MsValue(t).value]
  {
    assert [t][..0] == [];
  }

  /** The single match of such a line, and what it captures. */
  lemma LineMatchAt(s: string, prefix: string, word: string, ds: string) returns (m: LoadTimeMatch)
    requires LineLayout(s, prefix + word, ds)
    requires |word| > 0
    requires forall p :: 0 <= p < |word| ==> InClass(Word, word[p]) && !InClass(Digit, word[p])
    requires NoColon(prefix) && (prefix == [] || !InClass(Word, prefix[|prefix| - 1]))
    ensures LoadTimeMatchesFrom(s, 0) == [m] && IsLoadTimeMatch(s, m)
    ensures s[m.digitsStart..m.digitsEnd] == ds
    ensures forall p :: m.start <= p < m.wordEnd ==> !InClass(Digit, s[p])
  {
    var w := |prefix + word|;
    m := LoadTimeMatch(|prefix|, w, w + 1, w + 12, w + 12 + |ds|);
    LineMatch(s, prefix, word, ds);
    forall m' | IsLoadTimeMatch(s, m') ensures m.start <= m'.start {
      NoMatchInPrefix(s, prefix, word, ds, m');
    }
    OnlyMatch(s, m);
    forall p | m.start <= p < m.wordEnd ensures !InClass(Digit, s[p]) {
      assert s[p] == s[..w][p] == (prefix + word)[p] == word[p - |prefix|];
    }
  }

  /** A line whose text before " load time:" ends in a character that is neither a word
      character nor a blank carries no match at all, so it adds no load time. The line
      `Throttled Chrome (chrome-for-flake) load time: ${loadTime}ms`, printed by the
      "throttled chrome-for-flake" demonstration tests, is one: the `)` before the blank is
      not a word character. */
  lemma LoadTimeLineIsSkipped(pre: string, n: nat)
    requires NoColon(pre)
    requires pre == [] || (!InClass(Word, pre[|pre| - 1]) && !InClass(Space, pre[|pre| - 1]))
    ensures LoadTimes(LoadTimeLine(pre, n)) == []
  {
    var s := LoadTimeLine(pre, n);
    LineHasLayout(pre, n);
    forall m: LoadTimeMatch | IsLoadTimeMatch(s, m) ensures false {
      LabelAfterPrefix(s, pre, ToDecimal(n), m);
      assert s[|pre| - 1] == s[..|pre|][|pre| - 1];
      RunAt(s, m.start, m.wordEnd, Word, m.wordEnd - 1);
      if m.wordEnd < |pre| {
        RunAt(s, m.wordEnd, m.labelAt, Space, |pre| - 1);
      }
    }
    LoadTimeMatchesEmpty(s, 0);
  }

  /** The line the "standard chrome" demonstration tests print is read as its number.
      Those tests run in both projects, so in either mode their load times are scraped. */
  lemma StandardLineIsRead(n: nat)
    ensures LoadTimes(LoadTimeLine("Standard Chrome", n)) == [n]
  {
    assert "Standard " + "Chrome" == "Standard Chrome";
    LoadTimeLineIsRead("Standard ", "Chrome", n);
  }

  /** The line the "throttled chrome-for-flake" demonstration tests print is never read.
      Despite their names those tests run in both projects, and in neither mode does
      their load time reach the report. */
  lemma ThrottledLineIsSkipped(n: nat)
    ensures LoadTimes(LoadTimeLine("Throttled Chrome (chrome-for-flake)", n)) == []
  {
    LoadTimeLineIsSkipped("Throttled Chrome (chrome-for-flake)", n);
  }
}
