/** captcha_solver.py: recognising the captcha with OCR, retrying with a fresh
    image, filling the answer in, and reading the verdict after submitting.
    The download, the OCR engine and the page are scripted per attempt. */
module CaptchaSolving {
  import opened Wrappers
  import opened PyText
  import opened Browser
  import opened CaptchaPage
  import Purchase

  /** `config.MAX_OCR_RETRY`. */
  const MaxOcrRetry: int := 5

  /** The sanity check on recognised text: at least this many characters. */
  const MinCaptchaLength: nat := 4

  datatype CaptchaError = DownloadFailed | NoOcrResult | TooShort(length: nat)

  /** One recognition attempt as the outside world plays it: the image download
      (a file path, or it raises), the texts the OCR engine reads off the image
      in order (empty when it reads nothing; the engine never raises), and
      how the page answers the clicks that ask for a new image afterwards. */
  datatype OcrAttempt = OcrAttempt(download: Reply<string>, ocr: seq<string>, refresh: RefreshScript)

  datatype SolveReport = SolveReport(result: Result<string, CaptchaError>, steps: seq<Action>)

  /** `max_retry or config.MAX_OCR_RETRY`: a missing or zero argument falls
      back to the configured limit. */
  function RetryLimit(arg: Option<int>): (m: int)
    ensures m != 0
    ensures arg.None? || arg == Some(0) ==> m == MaxOcrRetry
    ensures arg.Some? && arg.value != 0 ==> m == arg.value
  {
    match arg
    case None => MaxOcrRetry
    case Some(n) => if n == 0 then MaxOcrRetry else n
  }

  /** `solve(image_path)`: downloads an image only when no path is given, then
      takes the first OCR text, stripped, and rejects it when it is shorter than
      four characters. */
  function Solve(path: Option<string>, download: Reply<string>, ocr: seq<string>): (r: SolveReport)
    ensures r.result.Ok? ==> ocr != [] && r.result.value == Strip(ocr[0]) && |r.result.value| >= MinCaptchaLength
    ensures ocr == [] ==> r.result.Err?
    ensures r.result.Ok? <==> (path.Some? || download.Returns?) && ocr != [] && |Strip(ocr[0])| >= MinCaptchaLength
  {
    var fetch: seq<Action> := if path.None? then [DownloadCaptcha] else [];
    if path.None? && download.Raises? then SolveReport(Err(DownloadFailed), fetch)
    else
      var steps := fetch + [RecognizeCaptcha];
      if ocr == [] then SolveReport(Err(NoOcrResult), steps)
      else
        var text := Strip(ocr[0]);
        if |text| < MinCaptchaLength then SolveReport(Err(TooShort(|text|)), steps)
        else SolveReport(Ok(text), steps)
  }

  /** One pass of the `solve_with_retry` loop body: `get_image()`, then
      `solve(image_path)`. */
  function AttemptOnce(a: OcrAttempt): SolveReport {
    match a.download
    case Raises => SolveReport(Err(DownloadFailed), [DownloadCaptcha])
    case Returns(path) =>
      var s := Solve(Some(path), a.download, a.ocr);
      SolveReport(s.result, [DownloadCaptcha] + s.steps)
  }

  /** `solve()` downloads once exactly when it is given no path, then at most
      recognises: it never clicks for a new image. */
  lemma SolveCallCounts(path: Option<string>, download: Reply<string>, ocr: seq<string>)
    ensures var t := Solve(path, download, ocr).steps;
      Occurrences(t, DownloadCaptcha) == (if path.None? then 1 else 0)
      && Occurrences(t, ClickCaptcha) == 0
      && forall x :: x in t ==> x == DownloadCaptcha || x == RecognizeCaptcha
  {
    var fetch: seq<Action> := if path.None? then [DownloadCaptcha] else [];
    var t := Solve(path, download, ocr).steps;
    OccurrencesOne(DownloadCaptcha, DownloadCaptcha);
    OccurrencesOne(DownloadCaptcha, ClickCaptcha);
    if !(path.None? && download.Raises?) {
      assert t == fetch + [RecognizeCaptcha];
      OccurrencesAppend(fetch, [RecognizeCaptcha], DownloadCaptcha);
      OccurrencesAppend(fetch, [RecognizeCaptcha], ClickCaptcha);
      OccurrencesOne(RecognizeCaptcha, DownloadCaptcha);
      OccurrencesOne(RecognizeCaptcha, ClickCaptcha);
    }
  }

  /** Downloading first and then solving the saved file behaves exactly like
      `solve()` with no path: one download, then recognition. */
  lemma AttemptIsSolveWithoutPath(a: OcrAttempt)
    ensures AttemptOnce(a) == Solve(None, a.download, a.ocr)
    ensures Occurrences(AttemptOnce(a).steps, DownloadCaptcha) == 1
    ensures Occurrences(AttemptOnce(a).steps, ClickCaptcha) == 0
  {
    if a.download.Returns? {
      assert [DownloadCaptcha] + Solve(Some(a.download.value), a.download, a.ocr).steps
          == [DownloadCaptcha] + [RecognizeCaptcha];
    }
    SolveCallCounts(None, a.download, a.ocr);
  }

  datatype RetryFailure = Exhausted(last: Option<CaptchaError>)

  datatype RetryReport = RetryReport(result: Result<string, RetryFailure>, steps: seq<Action>)

  /** What one pass of the loop yields: the attempt's result and calls, and
      the calls of the refresh asked for after it. */
  datatype AttemptReport = AttemptReport(result: Result<string, CaptchaError>, steps: seq<Action>, refreshSteps: seq<Action>)

  /** What one attempt yields, with the calls of the solver's refresh after it. */
  function AttemptOutcome(a: OcrAttempt): AttemptReport {
    AttemptReport(AttemptOnce(a).result, AttemptOnce(a).steps, SolverRefresh(a.refresh).1)
  }

  /** What each attempt of the loop yields, attempt by attempt. */
  function AttemptOutcomes(attempts: nat -> OcrAttempt): nat -> AttemptReport {
    (k: nat) => AttemptOutcome(attempts(k))
  }

  /** Every attempt downloads exactly once and never clicks the image by itself. */
  ghost predicate OneDownloadEach(outcomes: nat -> AttemptReport) {
    forall k :: Occurrences(outcomes(k).steps, DownloadCaptcha) == 1 && Occurrences(outcomes(k).steps, ClickCaptcha) == 0
  }

  /** Every refresh records one find-and-click of the image and never downloads. */
  ghost predicate RefreshesClickOnce(outcomes: nat -> AttemptReport) {
    forall k :: Occurrences(outcomes(k).refreshSteps, ClickCaptcha) == 1 && Occurrences(outcomes(k).refreshSteps, DownloadCaptcha) == 0
  }

  /** Every text an attempt returns passed the four-character check. */
  ghost predicate OnlyLongTexts(outcomes: nat -> AttemptReport) {
    forall k :: outcomes(k).result.Ok? ==> |outcomes(k).result.value| >= MinCaptchaLength
  }

  lemma AttemptOutcomesWellFormed(attempts: nat -> OcrAttempt)
    ensures OneDownloadEach(AttemptOutcomes(attempts))
    ensures OnlyLongTexts(AttemptOutcomes(attempts))
    ensures RefreshesClickOnce(AttemptOutcomes(attempts))
  {
    forall k ensures Occurrences(AttemptOutcomes(attempts)(k).steps, DownloadCaptcha) == 1
                     && Occurrences(AttemptOutcomes(attempts)(k).steps, ClickCaptcha) == 0 {
      AttemptIsSolveWithoutPath(attempts(k));
    }
    forall k | AttemptOutcomes(attempts)(k).result.Ok?
      ensures |AttemptOutcomes(attempts)(k).result.value| >= MinCaptchaLength {
      assert AttemptOutcomes(attempts)(k).result == AttemptOnce(attempts(k)).result;
    }
    forall k ensures Occurrences(AttemptOutcomes(attempts)(k).refreshSteps, ClickCaptcha) == 1
                     && Occurrences(AttemptOutcomes(attempts)(k).refreshSteps, DownloadCaptcha) == 0 {
      SolverRefreshCounts(attempts(k).refresh);
    }
  }

  /** The message the solver's `refresh_captcha()` raises when captcha.py's
      refresh fails. */
  const CaptchaRefreshFailedMessage: string := "刷新驗證碼失敗"

  /** The solver's `refresh_captcha()`: captcha.py's refresh, which either
      reports success or raises the solver's own failure message. */
  function SolverRefresh(s: RefreshScript): (r: (Result<bool, string>, seq<Action>))
    ensures r.0.Ok? <==> !(s.clickRaises && s.scriptClickRaises)
    ensures r.0.Ok? ==> r.0.value
    ensures r.0.Err? ==> r.0.error == CaptchaRefreshFailedMessage
  {
    var (refreshed, steps) := RefreshCaptcha(s);
    (if refreshed then Ok(true) else Err(CaptchaRefreshFailedMessage), steps)
  }

  /** The solver's refresh records one find-and-click of the image, whether
      it works or raises, and never downloads. */
  lemma SolverRefreshCounts(s: RefreshScript)
    ensures Occurrences(SolverRefresh(s).1, ClickCaptcha) == 1
    ensures Occurrences(SolverRefresh(s).1, DownloadCaptcha) == 0
  {
    RefreshClicksOnce(s);
  }

  /** Apart from the script click fallback and its sleep, the solver's
      refresh makes the same calls however the page answers it. */
  lemma SolverRefreshCount(s: RefreshScript, x: Action)
    requires x != ScriptClickCaptcha && x != Pause(500)
    ensures Occurrences(SolverRefresh(s).1, x) == (if x == ClickCaptcha then 1 else 0)
  {
    if x == ClickCaptcha {
      RefreshClicksOnce(s);
    } else {
      RefreshAvoids(s, x);
    }
  }

  /** The calls after failed attempt `k`: a refresh while attempts remain,
      recorded whether it works or raises, since a raising refresh is only
      logged. */
  function RefreshAfter(maxRetry: int, a: AttemptReport, k: nat): seq<Action> {
    if k < maxRetry then a.refreshSteps else []
  }

  /** The `solve_with_retry` loop from attempt `k` on, with `last` the error
      recorded so far: a refresh follows a failed attempt only while attempts
      remain, the loop goes on whether or not that refresh raises, and
      running out raises with the last error attached. */
  function RetryFrom(maxRetry: int, outcomes: nat -> AttemptReport, k: nat, last: Option<CaptchaError>): RetryReport
    requires k >= 1
    decreases maxRetry + 1 - k
  {
    if k > maxRetry then RetryReport(Err(Exhausted(last)), [])
    else
      var a := outcomes(k);
      match a.result
      case Ok(text) => RetryReport(Ok(text), a.steps)
      case Err(e) =>
        var rest := RetryFrom(maxRetry, outcomes, k + 1, Some(e));
        RetryReport(rest.result, a.steps + RefreshAfter(maxRetry, a, k) + rest.steps)
  }

  /** The loop from attempt `k` on, after the calls `acc` of the attempts before it. */
  function RetryAfter(maxRetry: int, outcomes: nat -> AttemptReport, k: nat, last: Option<CaptchaError>, acc: seq<Action>): RetryReport
    requires k >= 1
    decreases maxRetry + 1 - k
  {
    if k > maxRetry then RetryReport(Err(Exhausted(last)), acc)
    else
      var a := outcomes(k);
      match a.result
      case Ok(text) => RetryReport(Ok(text), acc + a.steps)
      case Err(e) =>
        RetryAfter(maxRetry, outcomes, k + 1, Some(e), acc + (a.steps + RefreshAfter(maxRetry, a, k)))
  }

  lemma {:induction false} RetryAfterIsRetryFrom(maxRetry: int, outcomes: nat -> AttemptReport, k: nat, last: Option<CaptchaError>, acc: seq<Action>)
    requires k >= 1
    ensures RetryAfter(maxRetry, outcomes, k, last, acc)
         == RetryReport(RetryFrom(maxRetry, outcomes, k, last).result, acc + RetryFrom(maxRetry, outcomes, k, last).steps)
    decreases maxRetry + 1 - k
  {
    if k > maxRetry {
      assert acc + [] == acc;
    } else if outcomes(k).result.Err? {
      var a := outcomes(k);
      var refresh := RefreshAfter(maxRetry, a, k);
      var e := a.result.error;
      RetryAfterIsRetryFrom(maxRetry, outcomes, k + 1, Some(e), acc + (a.steps + refresh));
      AppendAssociative(acc, a.steps + refresh, RetryFrom(maxRetry, outcomes, k + 1, Some(e)).steps);
    }
  }

  /** How often a call occurs over attempts `i .. maxRetry` that all fail,
      when each attempt makes it `n` times and each refresh `m` times. */
  ghost function FailedTally(maxRetry: int, i: nat, n: nat, m: nat): nat
    decreases maxRetry + 1 - i
  {
    if i > maxRetry then 0
    else n + (if i < maxRetry then m else 0) + FailedTally(maxRetry, i + 1, n, m)
  }

  /** How often a call occurs when attempts `i .. k-1` fail and attempt `k`
      passes, each attempt making it `n` times and each refresh `m` times. */
  ghost function PassTally(i: nat, k: nat, n: nat, m: nat): nat
    decreases k - i
  {
    if i >= k then n else n + m + PassTally(i + 1, k, n, m)
  }

  /** One call per attempt, or one per refresh, over failing attempts. */
  lemma {:induction false} FailedTallyOnes(maxRetry: int, i: nat)
    ensures FailedTally(maxRetry, i, 1, 0) == (if i <= maxRetry then maxRetry - i + 1 else 0)
    ensures FailedTally(maxRetry, i, 0, 1) == (if i <= maxRetry then maxRetry - i else 0)
    decreases maxRetry + 1 - i
  {
    if i <= maxRetry {
      FailedTallyOnes(maxRetry, i + 1);
    }
  }

  /** One call per attempt, or one per refresh, up to the first pass. */
  lemma {:induction false} PassTallyOnes(i: nat, k: nat)
    requires i <= k
    ensures PassTally(i, k, 1, 0) == k - i + 1
    ensures PassTally(i, k, 0, 1) == k - i
    decreases k - i
  {
    if i < k {
      PassTallyOnes(i + 1, k);
    }
  }

  /** Over failing attempts, a call occurs as often as the attempts and the
      refreshes between them make it. */
  lemma {:induction false} RetryFailedCount(maxRetry: int, outcomes: nat -> AttemptReport, i: nat, last: Option<CaptchaError>, x: Action, n: nat, m: nat)
    requires 1 <= i
    requires forall j :: i <= j <= maxRetry ==> outcomes(j).result.Err?
    requires forall j :: Occurrences(outcomes(j).steps, x) == n && Occurrences(outcomes(j).refreshSteps, x) == m
    ensures Occurrences(RetryFrom(maxRetry, outcomes, i, last).steps, x) == FailedTally(maxRetry, i, n, m)
    decreases maxRetry + 1 - i
  {
    if i <= maxRetry {
      RetryFailedCount(maxRetry, outcomes, i + 1, Some(outcomes(i).result.error), x, n, m);
      RetryStepCount(maxRetry, outcomes, i, last, x);
    }
  }

  /** Up to the first attempt that passes, a call occurs as often as the
      attempts and the refreshes between them make it. */
  lemma {:induction false} RetryPassCount(maxRetry: int, outcomes: nat -> AttemptReport, i: nat, last: Option<CaptchaError>, k: nat, x: Action, n: nat, m: nat)
    requires 1 <= i <= k <= maxRetry
    requires forall j :: i <= j < k ==> outcomes(j).result.Err?
    requires outcomes(k).result.Ok?
    requires forall j :: Occurrences(outcomes(j).steps, x) == n && Occurrences(outcomes(j).refreshSteps, x) == m
    ensures Occurrences(RetryFrom(maxRetry, outcomes, i, last).steps, x) == PassTally(i, k, n, m)
    decreases k - i
  {
    if i < k {
      RetryPassCount(maxRetry, outcomes, i + 1, Some(outcomes(i).result.error), k, x, n, m);
      RetryStepCount(maxRetry, outcomes, i, last, x);
    }
  }

  /** Whatever the attempts do, a call occurs at most as often as attempts
      and refreshes that all failed would make it. */
  lemma {:induction false} RetryCountAtMost(maxRetry: int, outcomes: nat -> AttemptReport, i: nat, last: Option<CaptchaError>, x: Action, n: nat, m: nat)
    requires 1 <= i
    requires forall j :: Occurrences(outcomes(j).steps, x) <= n && Occurrences(outcomes(j).refreshSteps, x) <= m
    ensures Occurrences(RetryFrom(maxRetry, outcomes, i, last).steps, x) <= FailedTally(maxRetry, i, n, m)
    decreases maxRetry + 1 - i
  {
    if i <= maxRetry && outcomes(i).result.Err? {
      RetryCountAtMost(maxRetry, outcomes, i + 1, Some(outcomes(i).result.error), x, n, m);
      RetryStepCount(maxRetry, outcomes, i, last, x);
    }
  }

  /** The result when attempts `i .. k-1` fail and attempt `k` passes. */
  lemma {:induction false} RetryFirstPassResult(maxRetry: int, outcomes: nat -> AttemptReport, i: nat, last: Option<CaptchaError>, k: nat)
    requires 1 <= i <= k <= maxRetry
    requires forall j :: i <= j < k ==> outcomes(j).result.Err?
    requires outcomes(k).result.Ok?
    ensures RetryFrom(maxRetry, outcomes, i, last).result == Ok(outcomes(k).result.value)
    decreases k - i
  {
    if i < k {
      RetryFirstPassResult(maxRetry, outcomes, i + 1, Some(outcomes(i).result.error), k);
    }
  }

  /** When attempts `i .. k-1` fail and attempt `k` passes, the loop returns
      attempt `k`'s text after exactly `k - i + 1` downloads and `k - i`
      refresh clicks. */
  lemma RetryReturnsFirstPass(maxRetry: int, outcomes: nat -> AttemptReport, i: nat, last: Option<CaptchaError>, k: nat)
    requires OneDownloadEach(outcomes) && RefreshesClickOnce(outcomes)
    requires 1 <= i <= k <= maxRetry
    requires forall j :: i <= j < k ==> outcomes(j).result.Err?
    requires outcomes(k).result.Ok?
    ensures RetryFrom(maxRetry, outcomes, i, last).result == Ok(outcomes(k).result.value)
    ensures Occurrences(RetryFrom(maxRetry, outcomes, i, last).steps, DownloadCaptcha) == k - i + 1
    ensures Occurrences(RetryFrom(maxRetry, outcomes, i, last).steps, ClickCaptcha) == k - i
  {
    RetryFirstPassResult(maxRetry, outcomes, i, last, k);
    RetryPassCount(maxRetry, outcomes, i, last, k, DownloadCaptcha, 1, 0);
    RetryPassCount(maxRetry, outcomes, i, last, k, ClickCaptcha, 0, 1);
    PassTallyOnes(i, k);
  }

  /** When every attempt from `i` on fails, the loop raises with the error of
      the final attempt (or the error carried in, if no attempt is left), after
      one download per attempt and one refresh click between consecutive
      attempts. */
  lemma RetryExhausted(maxRetry: int, outcomes: nat -> AttemptReport, i: nat, last: Option<CaptchaError>)
    requires OneDownloadEach(outcomes) && RefreshesClickOnce(outcomes)
    requires 1 <= i
    requires forall j :: i <= j <= maxRetry ==> outcomes(j).result.Err?
    ensures RetryFrom(maxRetry, outcomes, i, last).result
            == Err(Exhausted(if i <= maxRetry then Some(outcomes(maxRetry).result.error) else last))
    ensures Occurrences(RetryFrom(maxRetry, outcomes, i, last).steps, DownloadCaptcha)
            == (if i <= maxRetry then maxRetry - i + 1 else 0)
    ensures Occurrences(RetryFrom(maxRetry, outcomes, i, last).steps, ClickCaptcha)
            == (if i <= maxRetry then maxRetry - i else 0)
  {
    RetryExhaustedResult(maxRetry, outcomes, i, last);
    RetryFailedCount(maxRetry, outcomes, i, last, DownloadCaptcha, 1, 0);
    RetryFailedCount(maxRetry, outcomes, i, last, ClickCaptcha, 0, 1);
    FailedTallyOnes(maxRetry, i);
  }

  /** The error a loop of failing attempts raises. */
  lemma {:induction false} RetryExhaustedResult(maxRetry: int, outcomes: nat -> AttemptReport, i: nat, last: Option<CaptchaError>)
    requires 1 <= i
    requires forall j :: i <= j <= maxRetry ==> outcomes(j).result.Err?
    ensures RetryFrom(maxRetry, outcomes, i, last).result
            == Err(Exhausted(if i <= maxRetry then Some(outcomes(maxRetry).result.error) else last))
    decreases maxRetry + 1 - i
  {
    if i <= maxRetry {
      RetryExhaustedResult(maxRetry, outcomes, i + 1, Some(outcomes(i).result.error));
    }
  }

  /** Any text the loop returns was read by one of the attempts made. */
  lemma {:induction false} RetryResultFromAttempt(maxRetry: int, outcomes: nat -> AttemptReport, i: nat, last: Option<CaptchaError>)
    requires 1 <= i
    ensures RetryFrom(maxRetry, outcomes, i, last).result.Ok? ==>
              exists k :: i <= k <= maxRetry && outcomes(k).result == Ok(RetryFrom(maxRetry, outcomes, i, last).result.value)
    decreases maxRetry + 1 - i
  {
    if i <= maxRetry && outcomes(i).result.Err? {
      RetryResultFromAttempt(maxRetry, outcomes, i + 1, Some(outcomes(i).result.error));
    }
  }

  /** Whatever the attempts do: at most one download per remaining attempt, and
      any text returned is the text of one of the attempts made. */
  lemma RetryBounded(maxRetry: int, outcomes: nat -> AttemptReport, i: nat, last: Option<CaptchaError>)
    requires OneDownloadEach(outcomes) && RefreshesClickOnce(outcomes)
    requires 1 <= i
    ensures Occurrences(RetryFrom(maxRetry, outcomes, i, last).steps, DownloadCaptcha)
            <= (if i <= maxRetry then maxRetry - i + 1 else 0)
    ensures RetryFrom(maxRetry, outcomes, i, last).result.Ok? ==>
              exists k :: i <= k <= maxRetry && outcomes(k).result == Ok(RetryFrom(maxRetry, outcomes, i, last).result.value)
  {
    RetryCountAtMost(maxRetry, outcomes, i, last, DownloadCaptcha, 1, 0);
    FailedTallyOnes(maxRetry, i);
    RetryResultFromAttempt(maxRetry, outcomes, i, last);
  }

  /** One attempt only downloads and recognises. */
  lemma AttemptNeverSubmits(a: OcrAttempt)
    ensures Occurrences(AttemptOnce(a).steps, Submit) == 0
  {
    AttemptIsSolveWithoutPath(a);
    SolveCallCounts(None, a.download, a.ocr);
    OccurrencesAbsent(AttemptOnce(a).steps, Submit);
  }

  /** An action that neither an attempt nor a refresh performs never occurs
      in the whole loop. */
  lemma {:induction false} RetryAvoids(maxRetry: int, outcomes: nat -> AttemptReport, i: nat, last: Option<CaptchaError>, x: Action)
    requires 1 <= i
    requires forall k :: Occurrences(outcomes(k).steps, x) == 0 && Occurrences(outcomes(k).refreshSteps, x) == 0
    ensures Occurrences(RetryFrom(maxRetry, outcomes, i, last).steps, x) == 0
    decreases maxRetry + 1 - i
  {
    if i <= maxRetry && outcomes(i).result.Err? {
      RetryAvoids(maxRetry, outcomes, i + 1, Some(outcomes(i).result.error), x);
      RetryStepCount(maxRetry, outcomes, i, last, x);
    }
  }

  /** Counting over a failed attempt's pass: its own calls, the refresh
      after it, and the rest of the loop. */
  lemma RetryStepCount(maxRetry: int, outcomes: nat -> AttemptReport, i: nat, last: Option<CaptchaError>, x: Action)
    requires 1 <= i <= maxRetry && outcomes(i).result.Err?
    ensures Occurrences(RetryFrom(maxRetry, outcomes, i, last).steps, x)
         == Occurrences(outcomes(i).steps, x) + Occurrences(RefreshAfter(maxRetry, outcomes(i), i), x)
            + Occurrences(RetryFrom(maxRetry, outcomes, i + 1, Some(outcomes(i).result.error)).steps, x)
  {
    var a := outcomes(i);
    var rest := RetryFrom(maxRetry, outcomes, i + 1, Some(a.result.error));
    OccurrencesSplit(a.steps + RefreshAfter(maxRetry, a, i) + rest.steps, a.steps, RefreshAfter(maxRetry, a, i), rest.steps, x);
  }

  /** Two runs of the loop whose attempts fail and pass alike, with the same
      calls, and whose refreshes make `x` equally often, agree on the result
      and on the count of `x`, however else the refreshes differ. */
  lemma {:induction false} RetryAgrees(maxRetry: int, oa: nat -> AttemptReport, ob: nat -> AttemptReport, i: nat, last: Option<CaptchaError>, x: Action)
    requires 1 <= i
    requires forall j :: oa(j).result == ob(j).result && oa(j).steps == ob(j).steps
                         && Occurrences(oa(j).refreshSteps, x) == Occurrences(ob(j).refreshSteps, x)
    ensures RetryFrom(maxRetry, oa, i, last).result == RetryFrom(maxRetry, ob, i, last).result
    ensures Occurrences(RetryFrom(maxRetry, oa, i, last).steps, x) == Occurrences(RetryFrom(maxRetry, ob, i, last).steps, x)
    decreases maxRetry + 1 - i
  {
    if i <= maxRetry {
      assert oa(i).result == ob(i).result && oa(i).steps == ob(i).steps;
      if oa(i).result.Err? {
        var e := oa(i).result.error;
        RetryAgrees(maxRetry, oa, ob, i + 1, Some(e), x);
        RetryStepCount(maxRetry, oa, i, last, x);
        RetryStepCount(maxRetry, ob, i, last, x);
      }
    }
  }

  /** A refresh that raises is only logged: two runs whose attempts download
      and read alike, however differently the page answers the refresh
      clicks, return the same result, and every call other than the script
      click fallback and its sleep occurs equally often in both. */
  lemma RefreshFailureTolerated(maxRetry: int, attempts: nat -> OcrAttempt, other: nat -> OcrAttempt, x: Action)
    requires x != ScriptClickCaptcha && x != Pause(500)
    requires forall j :: attempts(j).download == other(j).download && attempts(j).ocr == other(j).ocr
    ensures RetryFrom(maxRetry, AttemptOutcomes(attempts), 1, None).result == RetryFrom(maxRetry, AttemptOutcomes(other), 1, None).result
    ensures Occurrences(RetryFrom(maxRetry, AttemptOutcomes(attempts), 1, None).steps, x)
         == Occurrences(RetryFrom(maxRetry, AttemptOutcomes(other), 1, None).steps, x)
  {
    var oa := AttemptOutcomes(attempts);
    var ob := AttemptOutcomes(other);
    forall j ensures oa(j).result == ob(j).result && oa(j).steps == ob(j).steps
                     && Occurrences(oa(j).refreshSteps, x) == Occurrences(ob(j).refreshSteps, x) {
      assert attempts(j).download == other(j).download && attempts(j).ocr == other(j).ocr;
      assert AttemptOnce(attempts(j)) == AttemptOnce(other(j));
      SolverRefreshCount(attempts(j).refresh, x);
      SolverRefreshCount(other(j).refresh, x);
    }
    RetryAgrees(maxRetry, oa, ob, 1, None, x);
  }

  /** The outcome of `solve_and_fill`: the text when recognition succeeds and
      typing it in does not raise, `None` for the "驗證碼處理失敗" exception. */
  function SolveAndFillSpec(maxRetry: int, attempts: nat -> OcrAttempt, fillRaises: bool): (Option<string>, seq<Action>) {
    var s := RetryFrom(maxRetry, AttemptOutcomes(attempts), 1, None);
    match s.result
    case Ok(text) => (if fillRaises then None else Some(text), s.steps + [FillCaptcha(text)])
    case Err(_) => (None, s.steps)
  }

  /** Whatever `solve_and_fill` types in is a text of at least four
      characters, and typing it in is its last step. */
  lemma SolveAndFillLongText(maxRetry: int, attempts: nat -> OcrAttempt, fillRaises: bool)
    ensures var (text, steps) := SolveAndFillSpec(maxRetry, attempts, fillRaises);
            text.Some? ==> |text.value| >= MinCaptchaLength && steps != [] && steps[|steps| - 1] == FillCaptcha(text.value)
  {
    AttemptOutcomesWellFormed(attempts);
    RetryBounded(maxRetry, AttemptOutcomes(attempts), 1, None);
  }

  // ---------------------------------------------------------------------------
  // get_image as written

  /** `get_image()` as written passes `max_keep=5` to captcha.py's
      `download_captcha_image`, which takes the driver only: the call raises
      a TypeError whatever the page shows, and the handler turns it into
      "下載驗證碼圖片失敗". An attempt as written is the attempt with that
      download. */
  function AsWrittenAttempt(a: OcrAttempt): (r: OcrAttempt)
    ensures r.download.Raises? && r.ocr == a.ocr && r.refresh == a.refresh
  {
    a.(download := Raises)
  }

  function AsWrittenAttempts(attempts: nat -> OcrAttempt): nat -> OcrAttempt {
    (k: nat) => AsWrittenAttempt(attempts(k))
  }

  /** With `get_image` as written, `solve_with_retry` can never succeed: it
      raises with the download error after one failed download per attempt,
      OCR never runs, and `solve_and_fill` never has a text to type in. */
  lemma AsWrittenSolveNeverSucceeds(maxRetry: int, attempts: nat -> OcrAttempt, fillRaises: bool)
    ensures var s := RetryFrom(maxRetry, AttemptOutcomes(AsWrittenAttempts(attempts)), 1, None);
      s.result == Err(Exhausted(if maxRetry >= 1 then Some(DownloadFailed) else None))
      && Occurrences(s.steps, DownloadCaptcha) == (if maxRetry >= 1 then maxRetry else 0)
      && Occurrences(s.steps, RecognizeCaptcha) == 0
    ensures SolveAndFillSpec(maxRetry, AsWrittenAttempts(attempts), fillRaises).0.None?
  {
    var written := AsWrittenAttempts(attempts);
    var outcomes := AttemptOutcomes(written);
    forall j: nat ensures outcomes(j).result == Err(DownloadFailed) && outcomes(j).steps == [DownloadCaptcha] {
      assert written(j) == AsWrittenAttempt(attempts(j));
      assert outcomes(j) == AttemptOutcome(written(j));
    }
    forall j: nat ensures Occurrences(outcomes(j).steps, RecognizeCaptcha) == 0
                          && Occurrences(outcomes(j).refreshSteps, RecognizeCaptcha) == 0 {
      OccurrencesOne(DownloadCaptcha, RecognizeCaptcha);
      SolverRefreshCount(written(j).refresh, RecognizeCaptcha);
    }
    AttemptOutcomesWellFormed(written);
    RetryExhausted(maxRetry, outcomes, 1, None);
    RetryAvoids(maxRetry, outcomes, 1, None, RecognizeCaptcha);
  }

  /** With a download that works, as intended, a first attempt whose OCR
      text passes the check is the text `solve_and_fill` types in. */
  lemma WorkingDownloadSolves(maxRetry: int, attempts: nat -> OcrAttempt, fillRaises: bool)
    requires maxRetry >= 1 && !fillRaises
    requires attempts(1).download.Returns? && attempts(1).ocr != [] && |Strip(attempts(1).ocr[0])| >= MinCaptchaLength
    ensures SolveAndFillSpec(maxRetry, attempts, fillRaises).0 == Some(Strip(attempts(1).ocr[0]))
  {
    var outcomes := AttemptOutcomes(attempts);
    AttemptIsSolveWithoutPath(attempts(1));
    assert outcomes(1).result == Ok(Strip(attempts(1).ocr[0]));
    AttemptOutcomesWellFormed(attempts);
    RetryReturnsFirstPass(maxRetry, outcomes, 1, None, 1);
  }

  /** What `verify_and_handle_error` reports: whether the captcha was rejected,
      and why. */
  datatype Verdict = Verdict(hasError: bool, message: string)

  /** `verify_and_handle_error`: an accepted alert means the captcha was wrong,
      no alert means it was right, and a failure of the check itself is
      reported as an error, the cautious reading. `check` is `Raises` when
      calling the alert handler fails; `why` is that failure's text. */
  function VerifyAndHandleError(check: Reply<Purchase.AlertScript>, why: string): (v: Verdict)
    ensures !v.hasError <==> check.Returns? && !Purchase.HandleCaptchaErrorAlert(check.value, true).0
    ensures !v.hasError ==> v.message == ""
    ensures v.hasError ==> v.message != ""
    ensures check.Returns? && check.value.AlertShown? && !check.value.acceptRaises ==> v == Verdict(true, "驗證碼錯誤")
  {
    match check
    case Raises => Verdict(true, "檢查失敗: " + why)
    case Returns(alert) =>
      if Purchase.HandleCaptchaErrorAlert(alert, true).0 then Verdict(true, "驗證碼錯誤")
      else Verdict(false, "")
  }

  /** The solver object: its retry limit and whether the OCR model was
      preloaded. */
  class CaptchaSolver {
    var maxRetry: int
    var ocrReady: bool

    /** `CaptchaSolver(web_client, max_retry)`: the limit falls back to the
        configured one when missing or zero; a failing model preload is logged
        and leaves no reader. */
    constructor (maxRetryArg: Option<int>, readerLoads: bool)
      ensures maxRetry == RetryLimit(maxRetryArg) && maxRetry != 0
      ensures ocrReady == readerLoads
    {
      maxRetry := RetryLimit(maxRetryArg);
      ocrReady := readerLoads;
    }

    /** `set_max_retry`: overwrites the limit and nothing else. */
    method SetMaxRetry(n: int)
      modifies this
      ensures maxRetry == n && ocrReady == old(ocrReady)
    {
      maxRetry := n;
    }

    /** `solve_with_retry`: attempts 1 .. maxRetry in order, the first text that
        passes the check is returned, a refresh follows each failed attempt
        except the last, and a refresh that raises is only logged. */
    method SolveWithRetry(attempts: nat -> OcrAttempt) returns (r: Result<string, RetryFailure>, trace: seq<Action>)
      ensures RetryReport(r, trace) == RetryFrom(maxRetry, AttemptOutcomes(attempts), 1, None)
      ensures r.Ok? ==> |r.value| >= MinCaptchaLength
    {
      ghost var outcomes := AttemptOutcomes(attempts);
      RetryAfterIsRetryFrom(maxRetry, outcomes, 1, None, []);
      assert [] + RetryFrom(maxRetry, outcomes, 1, None).steps == RetryFrom(maxRetry, outcomes, 1, None).steps;
      ghost var spec := RetryAfter(maxRetry, outcomes, 1, None, []);
      var lastError: Option<CaptchaError> := None;
      trace := [];
      var attempt: nat := 1;
      while attempt <= maxRetry
        invariant attempt >= 1
        invariant spec == RetryAfter(maxRetry, outcomes, attempt, lastError, trace)
        decreases maxRetry + 1 - attempt
      {
        var a := attempts(attempt);
        var outcome := AttemptOnce(a);
        assert outcome.result == outcomes(attempt).result && outcome.steps == outcomes(attempt).steps;
        if outcome.result.Ok? {
          return Ok(outcome.result.value), trace + outcome.steps;
        }
        lastError := Some(outcome.result.error);
        var refresh: seq<Action> := [];
        if attempt < maxRetry {
          var (refreshed, refreshSteps) := SolverRefresh(a.refresh);
          refresh := refreshSteps;
          if refreshed.Err? {
            // "刷新驗證碼失敗" is logged and the loop goes on with the next
            // attempt, in case the page brings a new image by itself
            assert !RefreshCaptcha(a.refresh).0;
          }
        }
        assert refresh == RefreshAfter(maxRetry, outcomes(attempt), attempt);
        trace := trace + (outcome.steps + refresh);
        attempt := attempt + 1;
      }
      r := Err(Exhausted(lastError));
    }

    /** `solve_and_fill`: recognise with retries, then type the text in; any
        failure becomes the single "驗證碼處理失敗" exception (`None`). */
    method SolveAndFill(attempts: nat -> OcrAttempt, fillRaises: bool) returns (r: Option<string>, trace: seq<Action>)
      ensures (r, trace) == SolveAndFillSpec(maxRetry, attempts, fillRaises)
      ensures r.Some? ==> |r.value| >= MinCaptchaLength && trace[|trace| - 1] == FillCaptcha(r.value)
    {
      var solved;
      solved, trace := SolveWithRetry(attempts);
      if solved.Err? {
        return None, trace;
      }
      var text := solved.value;
      trace := trace + [FillCaptcha(text)];
      if fillRaises {
        return None, trace;
      }
      r := Some(text);
    }
  }
}
