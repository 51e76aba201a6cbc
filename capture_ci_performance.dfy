/** The CI capture script: it runs the headless suite once, scrapes the same load times
    and test counts as the comparison script (it never reports throttling), and saves one
    record; when the run or the first save throws, the record it saves instead is the
    failure record, whose output is the error's standard output or, failing that, its
    message.

    The run (`execSync`), the clock and the file system are parameters here. */
module CapturePerformance {
  import opened Optional
  import opened TextScan
  import opened PerformanceComparison

  /** How `execSync('npm run test:local-headless')` ended. `stdout` is "" where the error
      carries none (JavaScript's `undefined` and `""` are both falsy). */
  datatype ExecOutcome =
    | Completed(output: string, duration: nat)
    | ExecThrew(stdout: string, message: string)

  datatype CiData = CiData(success: bool, duration: nat, metrics: Metrics, output: string, environment: string)

  const Environment := "GitHub Actions CI"

  /** `error.stdout || error.message`. */
  function ErrorOutput(stdout: string, message: string): (out: string)
    ensures stdout != [] ==> out == stdout
    ensures stdout == [] ==> out == message
  {
    if stdout != [] then stdout else message
  }

  /** The record the catch block saves. */
  function FailureRecord(output: string): (d: CiData)
    ensures !d.success && d.duration == 0 && d.output == output && d.environment == Environment
    ensures d.metrics == Metrics([], false, TestResults(0, 0))
  {
    CiData(false, 0, Metrics([], false, TestResults(0, 0)), output, Environment)
  }

  /** `saveError` is the message of the first `writeFileSync` when it throws; the catch
      block's own save is assumed to succeed. */
  method CaptureCiPerformance(run: ExecOutcome, saveError: Option<string>) returns (saved: CiData)
    ensures run.Completed? && saveError.None? ==>
      saved == CiData(true, run.duration,
        Metrics(LoadTimes(run.output), false,
          TestResults(TallyCount(run.output, Passed), TallyCount(run.output, Failed))),
        run.output, Environment)
    ensures run.Completed? && saveError.Some? ==> saved == FailureRecord(saveError.value)
    ensures run.ExecThrew? ==> saved == FailureRecord(ErrorOutput(run.stdout, run.message))
  {
    if run.ExecThrew? {
      saved := FailureRecord(ErrorOutput(run.stdout, run.message));
      return;
    }
    var output := run.output;
    var duration := run.duration;

    var loadTimeMatches := LoadTimeTexts(output);
    var loadTimes := [];
    var i := 0;
    while i < |loadTimeMatches|
      invariant i <= |loadTimeMatches|
      invariant loadTimes == PushedValues(loadTimeMatches[..i])
    {
      PushedValuesStep(loadTimeMatches, i);
      var timeMatch := MsValue(loadTimeMatches[i]);
      if timeMatch.Some? {
        loadTimes := loadTimes + [timeMatch.value];
      }
      i := i + 1;
    }
    assert loadTimeMatches[..i] == loadTimeMatches;

    var passedMatch := FirstTally(output, Passed, 0);
    var failedMatch := FirstTally(output, Failed, 0);
    var passed := if passedMatch.Some? then CapturedNumber(output, passedMatch.value.start, passedMatch.value.digitsEnd) else 0;
    var failed := if failedMatch.Some? then CapturedNumber(output, failedMatch.value.start, failedMatch.value.digitsEnd) else 0;

    var ciData := CiData(true, duration, Metrics(loadTimes, false, TestResults(passed, failed)), output, Environment);
    if saveError.Some? {
      saved := FailureRecord(saveError.value);
    } else {
      saved := ciData;
    }
  }
}
