# Playwright FlakerFinder — a verified model of the throttling fixture and the metrics scrapers

FlakerFinder makes timing-sensitive end-to-end tests fail locally the way they fail on a
slow CI machine. It does this with a Playwright fixture that throttles the browser's CPU
and network through the Chrome DevTools Protocol for the project named
`chrome-for-flake`. Two Node scripts then read the test runner's output:
- `performance-comparison.js` runs the local and the CI mode and prints a comparison
  table;
- `capture-ci-performance.js` records one CI run as a JSON report.

This project models those three files in Dafny and proves what they promise.

- `optional.dfy` (`Optional`) is the `Option` type used for JavaScript's `undefined`,
  `null` and regex `match` results.
- `text_scan.dfy` (`TextScan`) holds the JavaScript string semantics the scrapers rely on:
  - the classes `\w`, `\d` and `\s` (the full ECMAScript white-space set);
  - the three regular expressions, leftmost and global matching;
  - `String.prototype.includes`, and `parseInt` on a digit run.

  Each pattern is given both as the set of parses its language admits (`IsLoadTimeMatch`,
  `IsTallyMatch`, `IsMsMatch`) and as a greedy scanner. The `...IsUnique` lemmas prove
  that at any start the scanner's parse is the only one. So a backtracking matcher,
  whatever order it tries alternatives in, returns exactly the scanner's match.
- `base_fixtures.dfy` (`BaseFixtures`) covers `applyThrottling` and the `page` fixture.
  - Resolving the defaults is pure.
  - The DevTools channel is a `Page` class. It has a log of what reached the browser, a
    flag for whether a session can be opened, and the set of send ordinals the browser
    rejects.
  - `ApplyThrottling` changes that log. It is proved against the pure `ThrottleTrace`,
    whose properties are proved as lemmas.
- `performance_comparison.dfy` (`PerformanceComparison`) covers `extractMetrics` and the
  report logic of `main`.
  - `ExtractMetrics` keeps the source's loop and record updates. It is proved against
    the specification functions `LoadTimes`, `ThrottlingApplied` and `TallyCount`.
  - It also proves what those functions return for the lines the test specifications
    print.
- `capture_ci_performance.dfy` (`CapturePerformance`) covers the CI capture script, with
  its success record and its failure record.

A consequence of the source that the model makes explicit. The Playwright configuration
gives both projects, `chrome` and `chrome-for-flake`, the same test directory and no
filter, so every test runs in both projects. Two pairs of tests (in
`tests/throttling-demo.spec.ts` and `tests/crowdstrike.spec.ts`) are named for one
project each, but both members of a pair print their line in every project.
- The line of the "standard chrome" tests, `Standard Chrome load time: <n>ms`, yields
  exactly `[n]` (`StandardLineIsRead`).
- The line of the "throttled chrome-for-flake" tests,
  `Throttled Chrome (chrome-for-flake) load time: <n>ms`, never yields a load time
  (`ThrottledLineIsSkipped`). The pattern `(\w+)\s+load time:` needs a word character
  right before the blanks that precede `load time:`, and there the character is `)`.

So each such line, taken alone, yields the load time of a "standard chrome" test and
never that of a "throttled chrome-for-flake" test, in either mode. (The remaining
load-time line, `Slow network load time: <n>ms` in `tests/crowdstrike.spec.ts`, has the
shape of `LoadTimeLineIsRead` and is read too.) The lemmas are about a line by itself.
They do not cover a whole run's output, where the fixture's `Project name: …` lines and
the runner's own lines surround them.

## Model

| member | source | states |
|---|---|---|
| BaseFixtures.OrElse | baseFixtures.ts:16-19 | `value ?? fallback`: the supplied value whenever there is one (0 included, since `??` only replaces `undefined` and `null`), the fallback otherwise |
| BaseFixtures.Resolve | baseFixtures.ts:16-19 | each setting is the supplied value when there is one, zero included, and otherwise its default: rate 2, latency 100 ms, 393216 B/s down (floor(3·1024·1024/8)), 196608 B/s up (floor(1.5·1024·1024/8)); with `opts` absent all four defaults apply |
| BaseFixtures.ResolveKeepsSupplied | baseFixtures.ts:16-19 | a fully supplied argument is taken unchanged (no validation, no clamping); as a corollary, resolving again changes nothing |
| BaseFixtures.ResolveEmptyIsDefault | baseFixtures.ts:16-19 | passing `{}` and leaving `opts` out resolve to the same settings |
| BaseFixtures.CdpMethod | baseFixtures.ts:25-29 | the DevTools method each command invokes: `Emulation.setCPUThrottlingRate`, `Network.enable`, `Network.emulateNetworkConditions` |
| BaseFixtures.ThrottleCommands | baseFixtures.ts:24-35 | the three commands in the order the fixture awaits them: the resolved CPU rate, then `Network.enable`, then the network conditions with `offline` false, the resolved latency and throughputs, and `cellular4g` |
| BaseFixtures.ThrottleCommandOrder | baseFixtures.ts:25-29 | by DevTools method name, the commands are sent as setCPUThrottlingRate, then Network.enable, then emulateNetworkConditions |
| BaseFixtures.SendInOrder | baseFixtures.ts:24-35 | awaiting commands one after another from a given send ordinal: each is accepted unless its ordinal is rejected, and the first rejection ends the sequence with that command as the error |
| BaseFixtures.ThrottleTrace | baseFixtures.ts:16-35 | the whole of applyThrottling: without a DevTools session it rejects having sent nothing; otherwise the session is opened and the resolved commands are sent as `SendInOrder` says |
| BaseFixtures.Page.NewCdpSession | baseFixtures.ts:22 | opening a session succeeds exactly when the page offers DevTools, and only then is the session recorded |
| BaseFixtures.Page.Send | baseFixtures.ts:25-35 | a send is accepted exactly when its ordinal is not one the browser rejects; the log gains that one command, marked accepted or rejected |
| BaseFixtures.ApplyThrottling | baseFixtures.ts:7-36 | the outcome and the new log are those of `ThrottleTrace`: open the session, then the three commands in order, stopping at the first failure |
| BaseFixtures.SendThrottleCommands | baseFixtures.ts:24-35 | the three awaited sends append exactly the events of `SendInOrder` for the CPU rate, `Network.enable` and the network conditions, with the resolved values |
| BaseFixtures.ThreeSends | baseFixtures.ts:24-35 | the three awaited sends from ordinal n, case by case: the first rejected ordinal among n, n+1, n+2 ends the sequence with that command as the error after the earlier ones were accepted; with none rejected all three are accepted |
| BaseFixtures.SendInOrderAccepted | baseFixtures.ts:24-35 | with no rejected ordinal every command is accepted, in order, and the sequence completes |
| BaseFixtures.SendInOrderStops | baseFixtures.ts:24-35 | at the first rejected ordinal the earlier commands are accepted, that one is rejected and reported as the error, and nothing after it is sent |
| BaseFixtures.SendInOrderAppliedOnlyIfNoneRejected | baseFixtures.ts:24-35 | the sequence completes only if none of its ordinals was rejected |
| BaseFixtures.SendInOrderIsPrefix | baseFixtures.ts:24-35 | what reaches the browser is a prefix of the commands, in order, each accepted except possibly the last |
| BaseFixtures.ThrottleApplied | baseFixtures.ts:22-35 | applyThrottling resolves exactly when the session opens and none of its three sends is rejected; then the browser received the session, `setCPUThrottlingRate{rate}`, `Network.enable` and `emulateNetworkConditions{offline false, latency, download, upload, 'cellular4g'}` and nothing else |
| BaseFixtures.OpenFailureSendsNothing | baseFixtures.ts:22 | when the session cannot be opened nothing is sent and the call rejects |
| BaseFixtures.ThrottleStopsAtRejection | baseFixtures.ts:24-35 | a rejection of the k-th command is what applyThrottling rejects with, and no later command reaches the browser |
| BaseFixtures.EnableBeforeEmulate | baseFixtures.ts:27-29 | in every trace the session comes first, and the network conditions are only sent as the fourth event, right after `Network.enable` was accepted |
| BaseFixtures.PageFixture | baseFixtures.ts:44-53 | the project name is logged first; only for exactly `chrome-for-flake` is the throttling notice logged and applyThrottling run; otherwise "No throttling applied" is logged and the page is untouched; `use` gets the same page unless throttling threw, in which case the error is passed on |
| TextScan.IsJsSpace | scripts/performance-comparison.js:43 | `\s` without the `u` flag: exactly the ECMAScript WhiteSpace and LineTerminator code points (tab, LF, VT, FF, CR, space, U+00A0, U+1680, U+2000–U+200A, U+2028, U+2029, U+202F, U+205F, U+3000, U+FEFF) |
| TextScan.InClass | scripts/performance-comparison.js:43 | the classes the three patterns use: `\w` is `[A-Za-z0-9_]`, `\d` is `[0-9]`, `\s` is `IsJsSpace` (no `i` or `u` flag widens them) |
| TextScan.Span | scripts/performance-comparison.js:43 | the end of the longest run of a class from a position: a run, and not extendable |
| TextScan.SpanIsUnique | scripts/performance-comparison.js:43 | every run that cannot be extended ends where Span says |
| TextScan.RunAt | scripts/performance-comparison.js:43 | each character of a run is in its class |
| TextScan.RunOfClass | scripts/performance-comparison.js:43 | consecutive characters of a class form a run |
| TextScan.IsLoadTimeMatch | scripts/performance-comparison.js:43 | the language of `(\w+)\s+load time:\s+(\d+)ms`: a word run, a blank run, the label, a blank run, a digit run, then `ms`, with the positions of the two groups |
| TextScan.LoadTimeAt | scripts/performance-comparison.js:43 | a found load-time match starts at the given position and is a parse of `(\w+)\s+load time:\s+(\d+)ms` |
| TextScan.LoadTimeAtIsUnique | scripts/performance-comparison.js:43 | any parse of the load-time pattern at a start is the one the scanner finds |
| TextScan.LoadTimeMatchesAgree | scripts/performance-comparison.js:43 | two parses of the load-time pattern with the same start coincide |
| TextScan.NextLoadTime | scripts/performance-comparison.js:43 | the match found is a parse at or after the search position, and no match starts between that position and it |
| TextScan.NextLoadTimeFinds | scripts/performance-comparison.js:43 | the search finds a match no later than any parse that starts at or after its position |
| TextScan.LoadTimeMatchesFrom | scripts/performance-comparison.js:43 | every element of the global match list is a parse that starts at or after the search position |
| TextScan.LoadTimeMatchesStep | scripts/performance-comparison.js:43 | the global list is the first match followed by the matches found from where it ends |
| TextScan.LoadTimeMatchesOrdered | scripts/performance-comparison.js:43 | the global matches come in order of appearance and do not overlap |
| TextScan.LoadTimeMatchesComplete | scripts/performance-comparison.js:43 | no parse is skipped: every parse at or after the search position starts inside one of the listed matches |
| TextScan.TallyAt | scripts/performance-comparison.js:57-58 | a found count match starts at the given position and is a parse of `(\d+)\s+passed` (or `failed`) |
| TextScan.TallyAtIsUnique | scripts/performance-comparison.js:57-58 | any parse of the count pattern at a start is the one the scanner finds |
| TextScan.TallyMatchesAgree | scripts/performance-comparison.js:57-58 | two parses of the count pattern with the same start coincide |
| TextScan.IsTallyMatch | scripts/performance-comparison.js:57-58 | the language of `(\d+)\s+passed` (or `failed`): a digit run, a blank run, then the keyword |
| TextScan.FirstTally | scripts/performance-comparison.js:57-58 | the match found is a parse, and no match starts before it: the leftmost match |
| TextScan.FirstTallyFinds | scripts/performance-comparison.js:57-58 | the search finds a match no later than any parse of the count pattern |
| TextScan.MsAt | scripts/performance-comparison.js:46 | a found match starts at the given position and is a parse of `(\d+)ms` |
| TextScan.MsAtIsUnique | scripts/performance-comparison.js:46 | any parse of `(\d+)ms` at a start is the one the scanner finds |
| TextScan.FirstMs | scripts/performance-comparison.js:46 | the match found is a parse, and no match starts before it |
| TextScan.FirstMsFinds | scripts/performance-comparison.js:46 | the search finds a match no later than any parse of `(\d+)ms` at or after its position |
| TextScan.MsMatchesAgree | scripts/performance-comparison.js:46 | two parses of `(\d+)ms` with the same start coincide |
| TextScan.IsMsMatch | scripts/performance-comparison.js:46 | the language of `(\d+)ms`: a digit run followed by `ms` |
| TextScan.RunIsDigits | scripts/performance-comparison.js:48 | a `\d` run is all decimal digits, so `parseInt` reads all of it |
| TextScan.DecimalValue | scripts/performance-comparison.js:48 | `parseInt` of a string of ASCII digits: its base-10 value, most significant digit first |
| TextScan.CapturedNumber | scripts/performance-comparison.js:48 | `parseInt` applied to the text a `(\d+)` group captured |
| TextScan.ToDecimal | tests/throttling-demo.spec.ts:21 | a non-negative integer prints as a non-empty digit string whose decimal value is that integer |
| TextScan.ContainsFrom | scripts/performance-comparison.js:54 | true exactly when the text occurs at or after the given position |
| TextScan.Contains | scripts/performance-comparison.js:54 | `includes` is true exactly when the text occurs somewhere |
| PerformanceComparison.LoadTimeTexts | scripts/performance-comparison.js:43 | one string per global match, each the matched text |
| PerformanceComparison.MsValue | scripts/performance-comparison.js:46-48 | `match(/(\d+)ms/)` yields a value exactly when the text has a parse of that pattern |
| PerformanceComparison.PushedValues | scripts/performance-comparison.js:44-50 | the `forEach` over the match texts: in order, the `(\d+)ms` value of each text where that match exists, and nothing for the others |
| PerformanceComparison.LoadTimes | scripts/performance-comparison.js:43-51 | the `loadTimes` array: the values pushed over the texts of the global load-time match (none when it is `null`) |
| PerformanceComparison.TallyCount | scripts/performance-comparison.js:57-61 | `parseInt` of group 1 of the leftmost `(\d+)\s+passed` (or `failed`) match, and 0 when there is none; the CI capture script computes its counts the same way (scripts/capture-ci-performance.js lines 30-31 and 40-41) |
| PerformanceComparison.ThrottlingApplied | scripts/performance-comparison.js:54 | true exactly when the fixture's notice occurs in the output |
| PerformanceComparison.ExtractMetrics | scripts/performance-comparison.js:35-64 | the record holds the pushed load times, the `includes` test and the two leftmost counts (0 where absent) |
| PerformanceComparison.PushedValuesStep | scripts/performance-comparison.js:45-50 | one `forEach` step appends a value exactly when the `(\d+)ms` match exists |
| PerformanceComparison.PushedValuesOnePerText | scripts/performance-comparison.js:45-50 | when every text holds a `(\d+)ms` match, one value is pushed per text, in order |
| PerformanceComparison.MatchTextHasMsMatch | scripts/performance-comparison.js:43-46 | the text of every load-time match holds a `(\d+)ms` match, at its own second group |
| PerformanceComparison.LoadTimesOnePerMatch | scripts/performance-comparison.js:43-50 | the `if (timeMatch)` test never fails: exactly one load time per global match, in match order |
| PerformanceComparison.NoDigitBeforeGroup | scripts/performance-comparison.js:43 | with a digit-free word, nothing between a match's start and its number is a digit |
| PerformanceComparison.FirstMsIsGroup | scripts/performance-comparison.js:46 | with a digit-free word, the first `(\d+)ms` in a match's text is the second group |
| PerformanceComparison.LoadTimeIsCapturedNumber | scripts/performance-comparison.js:43-48 | with a digit-free word, the load time recorded is the number the second group captured |
| PerformanceComparison.TallyCountIsLeftmost | scripts/performance-comparison.js:57-61 | the count is the number of the leftmost parse of the pattern |
| PerformanceComparison.FirstTallyIs | scripts/performance-comparison.js:57-58 | the leftmost search returns the leftmost parse |
| PerformanceComparison.TallyCountWithoutMatch | scripts/performance-comparison.js:60-61 | without any parse the count stays 0 |
| PerformanceComparison.LoadTimeMatchesEmpty | scripts/performance-comparison.js:43-44 | the global match is empty exactly when no parse starts at or after the position |
| PerformanceComparison.QuietOutputMetrics | scripts/performance-comparison.js:36-40 | output with no match and no notice gives the initial record |
| PerformanceComparison.FixtureNoticeIsDetected | scripts/performance-comparison.js:54 | any output containing the line the fixture logs before throttling is reported as throttled |
| PerformanceComparison.Sum | scripts/performance-comparison.js:100 | `loadTimes.reduce((a, b) => a + b, 0)`, the sum of the load times, also used for the averages of lines 118-119 |
| PerformanceComparison.ModeRecord | scripts/performance-comparison.js:73-89 | the record `{...runResult, metrics: extractMetrics(output), mode, description}` kept for one mode: the run's success, duration and output, the scraped metrics, and the mode's fixed names |
| PerformanceComparison.RowDescribes | scripts/performance-comparison.js:98-111 | what the table prints for one mode: its description and duration, the average Sum/length exactly when there are load times (else N/A), the pass rate passed/(passed+failed) exactly when that total is positive (else N/A), and the throttling flag |
| PerformanceComparison.InsightsDescribe | scripts/performance-comparison.js:117-132 | the key insights: a slowdown (CI average over local average) exactly when both modes have load times, both passed/total success lines, and the CI run's throttling flag as the confirmation |
| PerformanceComparison.ComparePerformance | scripts/performance-comparison.js:67-132 | both mode records carry their run, its scraped metrics, mode and description; the table has one row per mode, local first; the insights are those of `InsightsDescribe` |
| PerformanceComparison.ReportRows | scripts/performance-comparison.js:98-111 | one row per mode: an average only when there are load times (else N/A), a pass rate passed/(passed+failed) only when that total is positive (else N/A), and the throttling flag |
| PerformanceComparison.KeyInsights | scripts/performance-comparison.js:117-132 | a slowdown exactly when both modes have load times, the two success lines passed/(passed+failed), and the CI run's throttling flag |
| PerformanceComparison.CiThrottlingFromMarker | scripts/performance-comparison.js:128 | the CI run counts as throttled exactly when its output carries the fixture's notice |
| PerformanceComparison.SingleMatchLoadTimes | scripts/performance-comparison.js:43-50 | output with a single match yields that match's `(\d+)ms` value alone |
| PerformanceComparison.OnlyMatch | scripts/performance-comparison.js:43 | a match that ends the string and has no parse before it is the whole global list |
| PerformanceComparison.FirstMatchIs | scripts/performance-comparison.js:43 | the search from the start returns the leftmost parse |
| PerformanceComparison.LabelAfterPrefix | scripts/performance-comparison.js:43 | in a printed line with a colon-free prefix, any match's label is the printed one |
| PerformanceComparison.NoMatchInPrefix | scripts/performance-comparison.js:43 | no match of such a line starts before the last word of its prefix |
| PerformanceComparison.LineMatchAt | scripts/performance-comparison.js:43 | such a line has exactly one match, whose number is the printed digits |
| PerformanceComparison.LoadTimeLine | tests/throttling-demo.spec.ts:21 | the template literal `${label} load time: ${loadTime}ms` the demonstration tests log, with the number in its decimal form |
| PerformanceComparison.LoadTimeLineIsRead | scripts/performance-comparison.js:43-48 | `${prefix}${word} load time: ${n}ms`, where the prefix has no colon and is empty or ends in a non-word character and the word is a non-empty run of digit-free word characters, yields exactly [n] |
| PerformanceComparison.LoadTimeLineIsSkipped | scripts/performance-comparison.js:43 | such a line whose text before the blank ends in a character that is neither a word character nor a blank yields no load time |
| PerformanceComparison.StandardLineIsRead | tests/throttling-demo.spec.ts:21 | `Standard Chrome load time: ${n}ms` yields exactly [n] |
| PerformanceComparison.ThrottledLineIsSkipped | tests/throttling-demo.spec.ts:36 | `Throttled Chrome (chrome-for-flake) load time: ${n}ms` yields nothing |
| CapturePerformance.ErrorOutput | scripts/capture-ci-performance.js:57 | `error.stdout || error.message`: the error's standard output when it is non-empty, else its message |
| CapturePerformance.FailureRecord | scripts/capture-ci-performance.js:53-60 | the failure record: not a success, duration 0, no load times, no throttling, counts 0, the given output, the CI environment name |
| CapturePerformance.CaptureCiPerformance | scripts/capture-ci-performance.js:9-62 | a completed run is saved with its duration, output and the same load times and counts `extractMetrics` scrapes, with throttling always false; when the run or the first save throws, the failure record is saved instead |

## Left out

- `runTests`, `execSync`, `Date.now`, `console.log` and `fs.writeFileSync` are left out. A run is a parameter (`RunResult`, `ExecOutcome`), and the printed lines are not modelled beyond the values they show.
- The DevTools transport and Playwright's `BrowserContext` are left out. `Page` stands in for them with a fixed "can open a session" flag and a fixed set of rejected send ordinals. Concurrency and the `await` scheduling are not modelled.
- `use(page)`, the test body, is not run. `PageFixture` returns the page it would hand over.
- Floating point is left out. Averages, the slowdown ratio and the pass-rate percentage are kept as exact fractions (`Mean`, `PassRate`, `Slowdown`), without `toFixed`, division by a zero local average or rounding.
- `ComparePerformance`: the JSON report written at the end is left out.
- `Resolve`: JavaScript numbers are modelled as reals, so NaN, the infinities and -0 are not covered.
- `MsValue`: `parseInt` is exact here. The precision loss of numbers above 2^53 is not modelled.
- Strings are sequences of Unicode scalar values rather than UTF-16 code units. This makes no difference to the three ASCII-anchored patterns.
- `CaptureCiPerformance`: the write in the `catch` block is assumed to succeed. Its `timestamp` field is not modelled.
- The test specifications, the Playwright configuration and the package scripts are not part of this model. Only the two lines the demonstration prints serve as inputs to `StandardLineIsRead` and `ThrottledLineIsSkipped`.
