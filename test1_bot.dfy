/** The modular script test1.py (`TixcraftBot`): its own `solve_captcha`,
    which gives up by raising, its `run` with a captcha cycle capped at five
    passes, and the helpers of captcha.py it calls. Browser and OCR answers
    are scripted per attempt; effects are returned as a trace of actions. */
module Test1Bot {
  import opened Wrappers
  import opened PyText
  import opened Browser
  import opened CaptchaPage
  import opened Purchase
  import opened SaleSchedule

  /** `config.MAX_OCR_RETRY`. */
  const MaxOcrRetry: nat := 5

  /** `MAX_CAPTCHA_RETRIES` of `run`. */
  const MaxCaptchaRetries: nat := 5

  /** The shortest OCR text taken for a captcha. */
  const MinCaptchaLength: nat := 4

  /** `config.TICKET_VALUE` and `config.GAME_URL`. */
  const TicketValue: string := "2"
  const GameUrl: string := "https://tixcraft.com/activity/detail/25_yama"

  /** The messages test1.py raises when recognition gives up and when the
      error alert is still there after the last pass. */
  const OcrFailedMessage: string := "驗證碼辨識失敗"
  const RetriesExhaustedMessage: string := "已達最大驗證碼重試次數"

  // ---------------------------------------------------------------------------
  // solve_captcha

  /** One recognition attempt: whether `download_captcha_image` raises (both
      the download and the screenshot fallback failed), the texts OCR reads
      (an OCR error reads as no text), and what the refresh after it meets. */
  datatype T1Attempt = T1Attempt(downloadRaises: bool, ocr: seq<string>, refresh: RefreshScript)

  /** The attempt reads a usable captcha: a first text of at least four
      characters once stripped. */
  predicate Readable(a: T1Attempt) {
    a.ocr != [] && |Strip(a.ocr[0])| >= MinCaptchaLength
  }

  /** What an attempt yields: a captcha text, an unusable reading, or a failed
      download. */
  datatype Reading = Read(text: string) | Unreadable | DownloadFailed

  datatype ReadReport = ReadReport(reading: Reading, refresh: RefreshScript)

  /** The calls of an attempt: the download, then OCR unless the download raised. */
  function ReadSteps(r: Reading): seq<Action> {
    if r.DownloadFailed? then [DownloadCaptcha] else [DownloadCaptcha, RecognizeCaptcha]
  }

  /** One attempt, up to the length check. */
  function ReadAttempt(a: T1Attempt): (r: ReadReport)
    ensures r.reading.DownloadFailed? <==> a.downloadRaises
    ensures r.reading.Read? <==> !a.downloadRaises && Readable(a)
    ensures r.reading.Read? ==> r.reading.text == Strip(a.ocr[0]) && |r.reading.text| >= MinCaptchaLength
    ensures r.refresh == a.refresh
  {
    if a.downloadRaises then ReadReport(DownloadFailed, a.refresh)
    else if Readable(a) then ReadReport(Read(Strip(a.ocr[0])), a.refresh)
    else ReadReport(Unreadable, a.refresh)
  }

  /** The reports of the attempts, attempt by attempt. */
  function ReadOutcomes(attempts: nat -> T1Attempt): nat -> ReadReport {
    (k: nat) => ReadAttempt(attempts(k))
  }

  /** Why `solve_captcha` raises: the image never appeared within 3 s, a
      download failed, a refresh failed, or every attempt was unusable. */
  datatype SolveError = ImageMissing | ImageDownloadFailed | RefreshFailed | RecognitionFailed

  datatype SolveReport = SolveReport(result: Result<string, SolveError>, steps: seq<Action>)

  /** The calls of an unusable attempt whose refresh worked: the attempt, the
      refresh, and the second of sleep before the next attempt. */
  function RetryBlock(o: ReadReport): seq<Action> {
    ReadSteps(o.reading) + RefreshCaptcha(o.refresh).1 + [Pause(1000)]
  }

  /** The attempt loop from attempt `k` on: the first usable reading is
      returned; a failed download raises at once; after an unusable reading
      the image is refreshed and a second slept, except after the last
      attempt, which raises. */
  function SolveFrom(outcomes: nat -> ReadReport, k: nat): SolveReport
    requires k >= 1
    decreases MaxOcrRetry + 1 - k
  {
    if k > MaxOcrRetry then SolveReport(Err(RecognitionFailed), [])
    else
      var o := outcomes(k);
      match o.reading
      case DownloadFailed => SolveReport(Err(ImageDownloadFailed), ReadSteps(o.reading))
      case Read(text) => SolveReport(Ok(text), ReadSteps(o.reading))
      case Unreadable =>
        if k == MaxOcrRetry then SolveReport(Err(RecognitionFailed), ReadSteps(o.reading))
        else if !RefreshCaptcha(o.refresh).0 then SolveReport(Err(RefreshFailed), ReadSteps(o.reading) + RefreshCaptcha(o.refresh).1)
        else
          var rest := SolveFrom(outcomes, k + 1);
          SolveReport(rest.result, RetryBlock(o) + rest.steps)
  }

  /** `solve_captcha` as a whole. */
  function SolveSpec(imageShown: bool, attempts: nat -> T1Attempt): SolveReport {
    if !imageShown then SolveReport(Err(ImageMissing), [])
    else SolveFrom(ReadOutcomes(attempts), 1)
  }

  /** One unfolding of the loop past an unusable attempt whose refresh worked. */
  lemma SolveFromRetry(outcomes: nat -> ReadReport, k: nat)
    requires 1 <= k < MaxOcrRetry
    requires outcomes(k).reading.Unreadable? && RefreshCaptcha(outcomes(k).refresh).0
    ensures SolveFrom(outcomes, k)
         == SolveReport(SolveFrom(outcomes, k + 1).result, RetryBlock(outcomes(k)) + SolveFrom(outcomes, k + 1).steps)
  {
  }

  /** Counting over a retry block followed by the rest of the loop. */
  lemma BlockCounts(o: ReadReport, rest: seq<Action>)
    requires o.reading.Unreadable?
    requires RefreshCaptcha(o.refresh).0
    ensures Occurrences(RetryBlock(o) + rest, DownloadCaptcha) == 1 + Occurrences(rest, DownloadCaptcha)
    ensures Occurrences(RetryBlock(o) + rest, ClickCaptcha) == 1 + Occurrences(rest, ClickCaptcha)
  {
    var r := RefreshCaptcha(o.refresh).1;
    RefreshClicksOnce(o.refresh);
    AttemptCounts(o.reading);
    forall x | x == DownloadCaptcha || x == ClickCaptcha
      ensures Occurrences(RetryBlock(o) + rest, x)
           == Occurrences(ReadSteps(o.reading), x) + Occurrences(r, x) + Occurrences(rest, x)
    {
      OccurrencesAppend(ReadSteps(o.reading), r, x);
      OccurrencesAppend(ReadSteps(o.reading) + r, [Pause(1000)], x);
      OccurrencesAppend(RetryBlock(o), rest, x);
      OccurrencesOne(Pause(1000), x);
    }
  }

  /** An attempt downloads once and never clicks the image. */
  lemma AttemptCounts(r: Reading)
    ensures Occurrences(ReadSteps(r), DownloadCaptcha) == 1
    ensures Occurrences(ReadSteps(r), ClickCaptcha) == 0
  {
    OccurrencesOne(DownloadCaptcha, DownloadCaptcha);
    OccurrencesOne(DownloadCaptcha, ClickCaptcha);
    if !r.DownloadFailed? {
      assert ReadSteps(r) == [DownloadCaptcha] + [RecognizeCaptcha];
      OccurrencesAppend([DownloadCaptcha], [RecognizeCaptcha], DownloadCaptcha);
      OccurrencesAppend([DownloadCaptcha], [RecognizeCaptcha], ClickCaptcha);
      OccurrencesOne(RecognizeCaptcha, DownloadCaptcha);
      OccurrencesOne(RecognizeCaptcha, ClickCaptcha);
    }
  }

  /** Past an unusable attempt whose refresh worked, the loop has made one
      more download and one more click than from the next attempt on, and
      ends as that rest does. */
  lemma RetryCounts(outcomes: nat -> ReadReport, i: nat)
    requires 1 <= i < MaxOcrRetry
    requires outcomes(i).reading.Unreadable? && RefreshCaptcha(outcomes(i).refresh).0
    ensures var r := SolveFrom(outcomes, i);
      var rest := SolveFrom(outcomes, i + 1);
      r.result == rest.result
      && Occurrences(r.steps, DownloadCaptcha) == 1 + Occurrences(rest.steps, DownloadCaptcha)
      && Occurrences(r.steps, ClickCaptcha) == 1 + Occurrences(rest.steps, ClickCaptcha)
      && (EndsWith(rest.steps, DownloadCaptcha) ==> EndsWith(r.steps, DownloadCaptcha))
  {
    var rest := SolveFrom(outcomes, i + 1).steps;
    SolveFromRetry(outcomes, i);
    BlockCounts(outcomes(i), rest);
    if |rest| > 0 {
      assert (RetryBlock(outcomes(i)) + rest)[|RetryBlock(outcomes(i)) + rest| - 1] == rest[|rest| - 1];
    }
  }

  /** An attempt that ends the loop: a usable reading, a failed download, or
      an unusable last attempt. The loop's calls are that attempt's. */
  lemma FinalAttemptCounts(outcomes: nat -> ReadReport, i: nat)
    requires 1 <= i <= MaxOcrRetry
    requires !outcomes(i).reading.Unreadable? || i == MaxOcrRetry
    ensures var r := SolveFrom(outcomes, i);
      r.steps == ReadSteps(outcomes(i).reading)
      && Occurrences(r.steps, DownloadCaptcha) == 1 && Occurrences(r.steps, ClickCaptcha) == 0
      && r.result == match outcomes(i).reading
                     case Read(text) => Ok(text)
                     case DownloadFailed => Err(ImageDownloadFailed)
                     case Unreadable => Err(RecognitionFailed)
  {
    AttemptCounts(outcomes(i).reading);
  }

  /** Attempt `k` is the first usable one and every refresh before it worked:
      its text is returned, after `k - i + 1` downloads and one refresh
      between two attempts. */
  lemma {:induction false} SolveFirstReadable(outcomes: nat -> ReadReport, i: nat, k: nat)
    requires 1 <= i <= k <= MaxOcrRetry
    requires forall j :: i <= j < k ==> outcomes(j).reading.Unreadable? && RefreshCaptcha(outcomes(j).refresh).0
    requires outcomes(k).reading.Read?
    ensures var r := SolveFrom(outcomes, i);
      r.result == Ok(outcomes(k).reading.text)
      && Occurrences(r.steps, DownloadCaptcha) == k - i + 1
      && Occurrences(r.steps, ClickCaptcha) == k - i
    decreases k - i
  {
    if i < k {
      RetryCounts(outcomes, i);
      SolveFirstReadable(outcomes, i + 1, k);
    } else {
      FinalAttemptCounts(outcomes, i);
    }
  }

  /** Every attempt unusable and every refresh working: `solve_captcha`
      raises after `MaxOcrRetry` downloads and one refresh fewer — none after
      the last attempt. */
  lemma {:induction false} AllUnreadableRaises(outcomes: nat -> ReadReport, i: nat)
    requires 1 <= i <= MaxOcrRetry
    requires forall j :: i <= j <= MaxOcrRetry ==> outcomes(j).reading.Unreadable?
    requires forall j :: i <= j < MaxOcrRetry ==> RefreshCaptcha(outcomes(j).refresh).0
    ensures var r := SolveFrom(outcomes, i);
      r.result == Err(RecognitionFailed)
      && Occurrences(r.steps, DownloadCaptcha) == MaxOcrRetry - i + 1
      && Occurrences(r.steps, ClickCaptcha) == MaxOcrRetry - i
    decreases MaxOcrRetry - i
  {
    if i < MaxOcrRetry {
      RetryCounts(outcomes, i);
      AllUnreadableRaises(outcomes, i + 1);
    } else {
      FinalAttemptCounts(outcomes, i);
    }
  }

  /** A failed download leaves `solve_captcha` at once: no OCR, no refresh
      and no further attempt after it. */
  lemma {:induction false} DownloadFailurePropagates(outcomes: nat -> ReadReport, i: nat, k: nat)
    requires 1 <= i <= k <= MaxOcrRetry
    requires forall j :: i <= j < k ==> outcomes(j).reading.Unreadable? && RefreshCaptcha(outcomes(j).refresh).0
    requires outcomes(k).reading.DownloadFailed?
    ensures var r := SolveFrom(outcomes, i);
      r.result == Err(ImageDownloadFailed)
      && Occurrences(r.steps, DownloadCaptcha) == k - i + 1
    decreases k - i
  {
    if i < k {
      assert outcomes(i).reading.Unreadable? && RefreshCaptcha(outcomes(i).refresh).0;
      RetryCounts(outcomes, i);
      DownloadFailurePropagates(outcomes, i + 1, k);
      var rest := SolveFrom(outcomes, i + 1);
      assert rest.result == Err(ImageDownloadFailed);
      assert Occurrences(rest.steps, DownloadCaptcha) == k - i;
    } else {
      FinalAttemptCounts(outcomes, i);
    }
  }

  /** The failed download is the last call `solve_captcha` makes. */
  lemma {:induction false} DownloadFailureLast(outcomes: nat -> ReadReport, i: nat, k: nat)
    requires 1 <= i <= k <= MaxOcrRetry
    requires forall j :: i <= j < k ==> outcomes(j).reading.Unreadable? && RefreshCaptcha(outcomes(j).refresh).0
    requires outcomes(k).reading.DownloadFailed?
    ensures EndsWith(SolveFrom(outcomes, i).steps, DownloadCaptcha)
    decreases k - i
  {
    if i < k {
      RetryCounts(outcomes, i);
      DownloadFailureLast(outcomes, i + 1, k);
    } else {
      FinalAttemptCounts(outcomes, i);
    }
  }

  /** A returned text is the usable reading of some attempt, and every
      attempt before it was unusable. */
  lemma {:induction false} SolveResultIsReading(outcomes: nat -> ReadReport, i: nat)
    requires i >= 1
    ensures var r := SolveFrom(outcomes, i);
      r.result.Ok? ==>
        exists k :: i <= k <= MaxOcrRetry && outcomes(k).reading == Read(r.result.value)
          && forall j :: i <= j < k ==> outcomes(j).reading.Unreadable?
    decreases MaxOcrRetry + 1 - i
  {
    var r := SolveFrom(outcomes, i);
    if i <= MaxOcrRetry && r.result.Ok? {
      var o := outcomes(i);
      if o.reading.Read? {
        assert o.reading == Read(r.result.value);
      } else {
        assert o.reading.Unreadable? && i < MaxOcrRetry;
        SolveResultIsReading(outcomes, i + 1);
        var k :| i + 1 <= k <= MaxOcrRetry && outcomes(k).reading == Read(r.result.value)
          && forall j :: i + 1 <= j < k ==> outcomes(j).reading.Unreadable?;
        assert forall j :: i <= j < k ==> outcomes(j).reading.Unreadable?;
      }
    }
  }

  /** `solve_captcha` only downloads, reads, refreshes and sleeps. */
  lemma {:induction false} SolveCalls(outcomes: nat -> ReadReport, i: nat, x: Action)
    requires i >= 1
    requires x in SolveFrom(outcomes, i).steps
    ensures x in {DownloadCaptcha, RecognizeCaptcha, ClickCaptcha, ScriptClickCaptcha, Pause(500), Pause(1000)}
    decreases MaxOcrRetry + 1 - i
  {
    var o := outcomes(i);
    if o.reading.Unreadable? && i < MaxOcrRetry && RefreshCaptcha(o.refresh).0 {
      var rest := SolveFrom(outcomes, i + 1);
      if x in rest.steps {
        SolveCalls(outcomes, i + 1, x);
      }
    }
  }

  /** The attempt loop from attempt `k` on with the calls made so far in
      `acc`: `SolveFrom` in the order the code runs it. */
  function SolveAfter(outcomes: nat -> ReadReport, k: nat, acc: seq<Action>): SolveReport
    requires k >= 1
    decreases MaxOcrRetry + 1 - k
  {
    if k > MaxOcrRetry then SolveReport(Err(RecognitionFailed), acc)
    else
      var o := outcomes(k);
      match o.reading
      case DownloadFailed => SolveReport(Err(ImageDownloadFailed), acc + ReadSteps(o.reading))
      case Read(text) => SolveReport(Ok(text), acc + ReadSteps(o.reading))
      case Unreadable =>
        if k == MaxOcrRetry then SolveReport(Err(RecognitionFailed), acc + ReadSteps(o.reading))
        else if !RefreshCaptcha(o.refresh).0 then SolveReport(Err(RefreshFailed), acc + (ReadSteps(o.reading) + RefreshCaptcha(o.refresh).1))
        else SolveAfter(outcomes, k + 1, acc + RetryBlock(o))
  }

  lemma {:induction false} SolveAfterIsSolveFrom(outcomes: nat -> ReadReport, k: nat, acc: seq<Action>)
    requires k >= 1
    ensures SolveAfter(outcomes, k, acc) == SolveReport(SolveFrom(outcomes, k).result, acc + SolveFrom(outcomes, k).steps)
    decreases MaxOcrRetry + 1 - k
  {
    if k > MaxOcrRetry {
      assert acc + [] == acc;
    } else if outcomes(k).reading.Unreadable? && k < MaxOcrRetry && RefreshCaptcha(outcomes(k).refresh).0 {
      var block := RetryBlock(outcomes(k));
      SolveAfterIsSolveFrom(outcomes, k + 1, acc + block);
      var rest := SolveFrom(outcomes, k + 1).steps;
      AppendAssociative(acc, block, rest);
    }
  }

  /** The recognition of one attempt. */
  method ReadCaptcha(a: T1Attempt) returns (o: ReadReport, steps: seq<Action>)
    ensures o == ReadAttempt(a) && steps == ReadSteps(o.reading)
  {
    if a.downloadRaises {
      return ReadReport(DownloadFailed, a.refresh), [DownloadCaptcha];
    }
    steps := [DownloadCaptcha, RecognizeCaptcha];
    if a.ocr != [] {
      var text := Strip(a.ocr[0]);
      if |text| >= MinCaptchaLength {
        return ReadReport(Read(text), a.refresh), steps;
      }
    }
    o := ReadReport(Unreadable, a.refresh);
  }

  /** One pass of the attempt loop: the attempt and, after an unusable
      reading, the refresh and the sleep. `None` means the loop goes on. */
  method SolveStep(attempts: nat -> T1Attempt, k: nat, ghost acc: seq<Action>)
    returns (stop: Option<Result<string, SolveError>>, steps: seq<Action>)
    requires 1 <= k <= MaxOcrRetry
    ensures stop.Some? ==> SolveAfter(ReadOutcomes(attempts), k, acc) == SolveReport(stop.value, acc + steps)
    ensures stop.None? ==> k < MaxOcrRetry
                           && SolveAfter(ReadOutcomes(attempts), k, acc) == SolveAfter(ReadOutcomes(attempts), k + 1, acc + steps)
  {
    var o, readSteps := ReadCaptcha(attempts(k));
    assert ReadOutcomes(attempts)(k) == o;
    match o.reading {
      case DownloadFailed =>
        return Some(Err(ImageDownloadFailed)), readSteps;
      case Read(text) =>
        return Some(Ok(text)), readSteps;
      case Unreadable =>
        if k == MaxOcrRetry {
          return Some(Err(RecognitionFailed)), readSteps;
        }
        var (refreshed, refreshSteps) := RefreshCaptcha(o.refresh);
        if !refreshed {
          return Some(Err(RefreshFailed)), readSteps + refreshSteps;
        }
        return None, readSteps + refreshSteps + [Pause(1000)];
    }
  }

  /** `solve_captcha`. */
  method SolveCaptcha(imageShown: bool, attempts: nat -> T1Attempt) returns (r: Result<string, SolveError>, trace: seq<Action>)
    ensures SolveReport(r, trace) == SolveSpec(imageShown, attempts)
  {
    if !imageShown {
      return Err(ImageMissing), [];
    }
    ghost var outcomes := ReadOutcomes(attempts);
    SolveAfterIsSolveFrom(outcomes, 1, []);
    assert [] + SolveFrom(outcomes, 1).steps == SolveFrom(outcomes, 1).steps;
    ghost var spec := SolveAfter(outcomes, 1, []);
    trace := [];
    var attempt: nat := 1;
    while attempt <= MaxOcrRetry
      invariant 1 <= attempt <= MaxOcrRetry + 1
      invariant spec == SolveAfter(outcomes, attempt, trace)
      decreases MaxOcrRetry + 1 - attempt
    {
      var stop, steps := SolveStep(attempts, attempt, trace);
      if stop.Some? {
        return stop.value, trace + steps;
      }
      trace := trace + steps;
      attempt := attempt + 1;
    }
    r := Err(RecognitionFailed);
  }

  // ---------------------------------------------------------------------------
  // The captcha cycle of run

  /** What one pass meets: the ticket form, whether the captcha image
      appears, the recognition attempts, whether typing the answer or
      submitting raises, and the alert check. */
  datatype T1Cycle = T1Cycle(
    form: TicketForm,
    imageShown: bool,
    attempts: nat -> T1Attempt,
    fillRaises: bool,
    submitRaises: bool,
    alert: AlertScript)

  /** What makes `run` raise. */
  datatype Failure =
    | BuyFailed
    | ShowFailed
    | AreaFailed
    | TicketsFailed
    | SolveFailed(why: SolveError)
    | FillFailed
    | SubmitFailed
    | RetriesExhausted

  /** A pass ends with no alert, with the error alert, or by raising. */
  datatype PassEnd = Passed | Rejected | PassFailed(failure: Failure)

  datatype PassReport = PassReport(end: PassEnd, steps: seq<Action>)

  /** One pass: `select_tickets` of purchase.py, `solve_captcha`, typing the
      answer, `submit_booking` (a click and a second's sleep) and
      `handle_captcha_error_alert`. */
  function PassSpec(c: T1Cycle): PassReport {
    if SelectTickets(c.form, TicketValue).Err? then PassReport(PassFailed(TicketsFailed), [])
    else AfterSolve(c, SolveSpec(c.imageShown, c.attempts))
  }

  /** The rest of a pass once `solve_captcha` has ended with `s`. */
  function AfterSolve(c: T1Cycle, s: SolveReport): PassReport {
    match s.result
    case Err(why) => PassReport(PassFailed(SolveFailed(why)), s.steps)
    case Ok(text) =>
      var filled := s.steps + [FillCaptcha(text)];
      if c.fillRaises then PassReport(PassFailed(FillFailed), filled)
      else if c.submitRaises then PassReport(PassFailed(SubmitFailed), filled + [Submit])
      else
        var (alerted, alertSteps) := HandleCaptchaErrorAlert(c.alert, true);
        PassReport(if alerted then Rejected else Passed, filled + [Submit, Pause(1000)] + alertSteps)
  }

  /** A pass submits at most once, exactly once when it reaches the alert
      check, and only a readable captcha of at least four characters. */
  lemma PassSubmitsOnce(c: T1Cycle)
    ensures Occurrences(PassSpec(c).steps, Submit) <= 1
    ensures !PassSpec(c).end.PassFailed? ==> Occurrences(PassSpec(c).steps, Submit) == 1
    ensures !PassSpec(c).end.PassFailed? ==>
              var s := SolveSpec(c.imageShown, c.attempts);
              s.result.Ok? && |s.result.value| >= MinCaptchaLength && FillCaptcha(s.result.value) in PassSpec(c).steps
  {
    if SelectTickets(c.form, TicketValue).Ok? {
      var s := SolveSpec(c.imageShown, c.attempts);
      if c.imageShown {
        assert Submit !in s.steps by {
          if Submit in s.steps {
            SolveCalls(ReadOutcomes(c.attempts), 1, Submit);
          }
        }
        if s.result.Ok? {
          SolveResultIsReading(ReadOutcomes(c.attempts), 1);
          var k :| 1 <= k <= MaxOcrRetry && ReadOutcomes(c.attempts)(k).reading == Read(s.result.value);
          assert ReadOutcomes(c.attempts)(k) == ReadAttempt(c.attempts(k));
        }
      }
      AfterSolveSubmitsOnce(c, s);
    } else {
      assert PassSpec(c).steps == [];
    }
  }

  /** After a solve that did not submit, the pass submits at most once, and
      exactly once when it reaches the alert check. */
  lemma AfterSolveSubmitsOnce(c: T1Cycle, s: SolveReport)
    requires Submit !in s.steps
    ensures Occurrences(AfterSolve(c, s).steps, Submit) <= 1
    ensures !AfterSolve(c, s).end.PassFailed? ==>
              Occurrences(AfterSolve(c, s).steps, Submit) == 1
              && s.result.Ok? && FillCaptcha(s.result.value) in AfterSolve(c, s).steps
  {
    OccurrencesAbsent(s.steps, Submit);
    if s.result.Ok? {
      var filled := s.steps + [FillCaptcha(s.result.value)];
      OccurrencesAppend(s.steps, [FillCaptcha(s.result.value)], Submit);
      OccurrencesOne(FillCaptcha(s.result.value), Submit);
      OccurrencesOne(Submit, Submit);
      OccurrencesAppend(filled, [Submit], Submit);
      if !c.fillRaises && !c.submitRaises {
        var alertSteps := HandleCaptchaErrorAlert(c.alert, true).1;
        var tail := [Pause(1000)] + alertSteps;
        assert Submit !in tail;
        OccurrencesAbsent(tail, Submit);
        assert filled + [Submit, Pause(1000)] + alertSteps == (filled + [Submit]) + tail;
        OccurrencesAppend(filled + [Submit], tail, Submit);
        assert filled[|filled| - 1] == FillCaptcha(s.result.value);
      }
    }
  }

  datatype RunOutcome = Completed | Interrupted | Raised(failure: Failure)

  datatype RunReport = RunReport(outcome: RunOutcome, steps: seq<Action>)

  /** The cycle from pass `k` (counted from 1) on: no alert completes the
      purchase; an alert costs a second's sleep and another pass, except on
      the last pass, which raises; a failing step raises. */
  function CycleFrom(outcomes: nat -> PassReport, k: nat): RunReport
    requires 1 <= k <= MaxCaptchaRetries
    decreases MaxCaptchaRetries - k
  {
    var p := outcomes(k);
    match p.end
    case Passed => RunReport(Completed, p.steps)
    case PassFailed(f) => RunReport(Raised(f), p.steps)
    case Rejected =>
      if k == MaxCaptchaRetries then RunReport(Raised(RetriesExhausted), p.steps + [Pause(1000)])
      else
        var rest := CycleFrom(outcomes, k + 1);
        RunReport(rest.outcome, p.steps + [Pause(1000)] + rest.steps)
  }

  /** The passes of the cycle, pass by pass. */
  function PassOutcomes(cycles: nat -> T1Cycle): nat -> PassReport {
    (k: nat) => PassSpec(cycles(k))
  }

  /** The calls of the rejected passes `i .. j-1`, each with its sleep. */
  function RejectedSteps(outcomes: nat -> PassReport, i: nat, j: nat): seq<Action>
    requires i <= j
    decreases j - i
  {
    if i == j then [] else outcomes(i).steps + [Pause(1000)] + RejectedSteps(outcomes, i + 1, j)
  }

  /** The cycle stops at the first pass without the error alert: no later
      pass runs, and `run` completes or raises as that pass says. */
  lemma {:induction false} CycleStopsAtFirst(outcomes: nat -> PassReport, i: nat, k: nat)
    requires 1 <= i <= k <= MaxCaptchaRetries
    requires forall j :: i <= j < k ==> outcomes(j).end == Rejected
    requires outcomes(k).end != Rejected
    ensures var r := CycleFrom(outcomes, i);
      r.steps == RejectedSteps(outcomes, i, k) + outcomes(k).steps
      && r.outcome == match outcomes(k).end
                      case Passed => Completed
                      case PassFailed(f) => Raised(f)
                      case Rejected => Completed
    decreases k - i
  {
    if i < k {
      CycleStopsAtFirst(outcomes, i + 1, k);
      var p := outcomes(i).steps + [Pause(1000)];
      assert p + (RejectedSteps(outcomes, i + 1, k) + outcomes(k).steps)
          == (p + RejectedSteps(outcomes, i + 1, k)) + outcomes(k).steps;
    } else {
      assert RejectedSteps(outcomes, i, k) == [];
    }
  }

  /** The error alert on every pass makes `run` raise after all five passes. */
  lemma {:induction false} AlertEveryPassRaises(outcomes: nat -> PassReport, i: nat)
    requires 1 <= i <= MaxCaptchaRetries
    requires forall j :: i <= j <= MaxCaptchaRetries ==> outcomes(j).end == Rejected
    ensures CycleFrom(outcomes, i) == RunReport(Raised(RetriesExhausted), RejectedSteps(outcomes, i, MaxCaptchaRetries + 1))
    decreases MaxCaptchaRetries - i
  {
    if i < MaxCaptchaRetries {
      AlertEveryPassRaises(outcomes, i + 1);
      var p := outcomes(i).steps + [Pause(1000)];
      assert p + RejectedSteps(outcomes, i + 1, MaxCaptchaRetries + 1)
          == RejectedSteps(outcomes, i, MaxCaptchaRetries + 1);
    } else {
      assert RejectedSteps(outcomes, i + 1, i + 1) == [];
      assert outcomes(i).steps + [Pause(1000)] + [] == outcomes(i).steps + [Pause(1000)];
    }
  }

  /** The cycle completes exactly when some pass ends without the alert and
      every pass before it got the alert. */
  lemma {:induction false} CycleCompletes(outcomes: nat -> PassReport, i: nat)
    requires 1 <= i <= MaxCaptchaRetries
    ensures CycleFrom(outcomes, i).outcome == Completed <==>
              exists k :: i <= k <= MaxCaptchaRetries && outcomes(k).end == Passed
                && forall j :: i <= j < k ==> outcomes(j).end == Rejected
    decreases MaxCaptchaRetries - i
  {
    var r := CycleFrom(outcomes, i);
    var p := outcomes(i);
    if p.end == Rejected && i < MaxCaptchaRetries {
      CycleCompletes(outcomes, i + 1);
      if r.outcome == Completed {
        var k :| i + 1 <= k <= MaxCaptchaRetries && outcomes(k).end == Passed
          && forall j :: i + 1 <= j < k ==> outcomes(j).end == Rejected;
        assert forall j :: i <= j < k ==> outcomes(j).end == Rejected;
      }
      if exists k :: i <= k <= MaxCaptchaRetries && outcomes(k).end == Passed
          && forall j :: i <= j < k ==> outcomes(j).end == Rejected {
        var k :| i <= k <= MaxCaptchaRetries && outcomes(k).end == Passed
          && forall j :: i <= j < k ==> outcomes(j).end == Rejected;
        assert k != i;
        assert forall j :: i + 1 <= j < k ==> outcomes(j).end == Rejected;
      }
    } else if p.end == Passed {
      assert r.outcome == Completed;
    } else {
      assert r.outcome != Completed;
      assert forall k :: (i <= k <= MaxCaptchaRetries && outcomes(k).end == Passed
        ==> !(forall j :: i <= j < k ==> outcomes(j).end == Rejected));
    }
  }

  /** The cycle submits at most once per pass. */
  lemma {:induction false} CycleSubmitsBounded(outcomes: nat -> PassReport, i: nat)
    requires 1 <= i <= MaxCaptchaRetries
    requires forall k :: Occurrences(outcomes(k).steps, Submit) <= 1
    ensures Occurrences(CycleFrom(outcomes, i).steps, Submit) <= MaxCaptchaRetries - i + 1
    decreases MaxCaptchaRetries - i
  {
    var p := outcomes(i);
    var r := CycleFrom(outcomes, i);
    assert Occurrences(p.steps, Submit) <= 1;
    if p.end == Rejected {
      var block := p.steps + [Pause(1000)];
      OccurrencesAppend(p.steps, [Pause(1000)], Submit);
      OccurrencesOne(Pause(1000), Submit);
      if i < MaxCaptchaRetries {
        var rest := CycleFrom(outcomes, i + 1);
        assert r.steps == block + rest.steps;
        CycleSubmitsBounded(outcomes, i + 1);
        OccurrencesAppend(block, rest.steps, Submit);
      } else {
        assert r.steps == block;
      }
    } else {
      assert r.steps == p.steps;
    }
  }

  /** The passes of `run` submit at most once each. */
  lemma PassOutcomesSubmitOnce(cycles: nat -> T1Cycle)
    ensures forall k :: Occurrences(PassOutcomes(cycles)(k).steps, Submit) <= 1
  {
    forall k ensures Occurrences(PassOutcomes(cycles)(k).steps, Submit) <= 1 {
      assert PassOutcomes(cycles)(k) == PassSpec(cycles(k));
      PassSubmitsOnce(cycles(k));
    }
  }

  /** One pass of the cycle. */
  method RunPass(c: T1Cycle) returns (end: PassEnd, steps: seq<Action>)
    ensures PassReport(end, steps) == PassSpec(c)
  {
    if SelectTickets(c.form, TicketValue).Err? {
      return PassFailed(TicketsFailed), [];
    }
    var solved;
    solved, steps := SolveCaptcha(c.imageShown, c.attempts);
    if solved.Err? {
      return PassFailed(SolveFailed(solved.error)), steps;
    }
    steps := steps + [FillCaptcha(solved.value)];
    if c.fillRaises {
      return PassFailed(FillFailed), steps;
    }
    steps := steps + [Submit];
    if c.submitRaises {
      return PassFailed(SubmitFailed), steps;
    }
    steps := steps + [Pause(1000)];
    var (alerted, alertSteps) := HandleCaptchaErrorAlert(c.alert, true);
    assert steps + alertSteps == AfterSolve(c, SolveSpec(c.imageShown, c.attempts)).steps;
    steps := steps + alertSteps;
    end := if alerted then Rejected else Passed;
  }

  /** The cycle from pass `k` on, after the calls `acc` of the passes before it. */
  function CycleAfter(outcomes: nat -> PassReport, k: nat, acc: seq<Action>): RunReport
    requires 1 <= k <= MaxCaptchaRetries
    decreases MaxCaptchaRetries - k
  {
    var p := outcomes(k);
    match p.end
    case Passed => RunReport(Completed, acc + p.steps)
    case PassFailed(f) => RunReport(Raised(f), acc + p.steps)
    case Rejected =>
      if k == MaxCaptchaRetries then RunReport(Raised(RetriesExhausted), acc + (p.steps + [Pause(1000)]))
      else CycleAfter(outcomes, k + 1, acc + (p.steps + [Pause(1000)]))
  }

  lemma {:induction false} CycleAfterIsCycleFrom(outcomes: nat -> PassReport, k: nat, acc: seq<Action>)
    requires 1 <= k <= MaxCaptchaRetries
    ensures CycleAfter(outcomes, k, acc) == RunReport(CycleFrom(outcomes, k).outcome, acc + CycleFrom(outcomes, k).steps)
    decreases MaxCaptchaRetries - k
  {
    var p := outcomes(k);
    if p.end == Rejected && k < MaxCaptchaRetries {
      var block := p.steps + [Pause(1000)];
      CycleAfterIsCycleFrom(outcomes, k + 1, acc + block);
      var rest := CycleFrom(outcomes, k + 1).steps;
      AppendAssociative(acc, block, rest);
    }
  }

  /** One pass of the cycle, with the sleep after an alert. `None` means the
      cycle goes on. */
  method CycleStep(cycles: nat -> T1Cycle, k: nat, ghost acc: seq<Action>)
    returns (stop: Option<RunOutcome>, steps: seq<Action>)
    requires 1 <= k <= MaxCaptchaRetries
    ensures stop.Some? ==> CycleAfter(PassOutcomes(cycles), k, acc) == RunReport(stop.value, acc + steps)
    ensures stop.None? ==> k < MaxCaptchaRetries
                           && CycleAfter(PassOutcomes(cycles), k, acc) == CycleAfter(PassOutcomes(cycles), k + 1, acc + steps)
  {
    var end, passSteps := RunPass(cycles(k));
    assert PassOutcomes(cycles)(k) == PassReport(end, passSteps);
    match end {
      case PassFailed(f) =>
        return Some(Raised(f)), passSteps;
      case Passed =>
        return Some(Completed), passSteps;
      case Rejected =>
        if k == MaxCaptchaRetries {
          return Some(Raised(RetriesExhausted)), passSteps + [Pause(1000)];
        }
        return None, passSteps + [Pause(1000)];
    }
  }

  /** The captcha cycle of `run`. */
  method CaptchaCycle(cycles: nat -> T1Cycle) returns (outcome: RunOutcome, trace: seq<Action>)
    ensures RunReport(outcome, trace) == CycleFrom(PassOutcomes(cycles), 1)
  {
    ghost var outcomes := PassOutcomes(cycles);
    CycleAfterIsCycleFrom(outcomes, 1, []);
    assert [] + CycleFrom(outcomes, 1).steps == CycleFrom(outcomes, 1).steps;
    ghost var spec := CycleAfter(outcomes, 1, []);
    trace := [];
    var attempt: nat := 1;
    while true
      invariant 1 <= attempt <= MaxCaptchaRetries
      invariant spec == CycleAfter(outcomes, attempt, trace)
      decreases MaxCaptchaRetries - attempt
    {
      var stop, steps := CycleStep(cycles, attempt, trace);
      if stop.Some? {
        return stop.value, trace + steps;
      }
      trace := trace + steps;
      attempt := attempt + 1;
    }
  }

  // ---------------------------------------------------------------------------
  // run

  /** What `run` meets: the sale time and preparation minutes, the "立即購票"
      link (`Raises` when it never appears) and whether loading it raises, the
      show list, the area page, the passes of the captcha cycle, and the stage
      at whose start the user presses Ctrl+C, if any. */
  datatype T1Script = T1Script(
    saleStart: Option<int>,
    prepareMinutes: int,
    buyHref: Reply<string>,
    buyNavigateRaises: bool,
    game: GamePage,
    area: AreaPage,
    cycles: nat -> T1Cycle,
    interruptAt: Option<Stage>)

  /** From the show step on. */
  function ShowStage(b: T1Script, steps: seq<Action>): RunReport {
    if b.interruptAt == Some(AtShow) then RunReport(Interrupted, steps)
    else
      var (shown, showSteps) := ShowStep(b.game);
      if !shown then RunReport(Raised(ShowFailed), steps + showSteps)
      else AreaStage(b, steps + showSteps)
  }

  /** From the area step on. */
  function AreaStage(b: T1Script, steps: seq<Action>): RunReport {
    if b.interruptAt == Some(AtArea) then RunReport(Interrupted, steps)
    else
      var area := SelectAreaSpec(b.area, TicketValue, true);
      if area.result.Err? then RunReport(Raised(AreaFailed), steps + area.steps)
      else if b.interruptAt == Some(AtCaptcha) then RunReport(Interrupted, steps + area.steps)
      else
        var cycle := CycleFrom(PassOutcomes(b.cycles), 1);
        RunReport(cycle.outcome, steps + area.steps + cycle.steps)
  }

  /** From `start_buy` on: the link, with the domain put in front of a
      site-relative one. */
  function BuyStage(b: T1Script, steps: seq<Action>): RunReport {
    if b.interruptAt == Some(AtBuyPage) then RunReport(Interrupted, steps)
    else match b.buyHref
      case Raises => RunReport(Raised(BuyFailed), steps)
      case Returns(href) =>
        var t := steps + [Navigate(BuyUrl(href))];
        if b.buyNavigateRaises then RunReport(Raised(BuyFailed), t)
        else ShowStage(b, t)
  }

  /** `run` from clock reading `now`: open the show page, wait for the sale
      with the half-second step, then buy. A Ctrl+C ends it quietly; any
      other exception is raised again. */
  function RunSpec(b: T1Script, now: int): RunReport {
    var onGame := [Navigate(GameUrl)];
    if b.saleStart.Some? && b.interruptAt == Some(AtWait) then RunReport(Interrupted, onGame)
    else
      var w := WaitPlan(b.saleStart, b.prepareMinutes * MinuteMs, now, ScriptFineMs);
      BuyStage(b, onGame + w.steps)
  }

  /** `run` gets past every step before the captcha cycle. */
  predicate ReachesCycle(b: T1Script) {
    !(b.saleStart.Some? && b.interruptAt == Some(AtWait))
    && b.interruptAt != Some(AtBuyPage)
    && b.buyHref.Returns? && !b.buyNavigateRaises
    && b.interruptAt != Some(AtShow)
    && ShowStep(b.game).0
    && b.interruptAt != Some(AtArea)
    && SelectAreaSpec(b.area, TicketValue, true).result.Ok?
    && b.interruptAt != Some(AtCaptcha)
  }

  /** `run` completes only after buying, choosing a show and an area, and a
      pass whose captcha drew no alert, with every earlier pass rejected. */
  lemma CompletedRunPassed(b: T1Script, now: int)
    requires RunSpec(b, now).outcome == Completed
    ensures ReachesCycle(b)
    ensures exists k :: 1 <= k <= MaxCaptchaRetries && PassOutcomes(b.cycles)(k).end == Passed
              && forall j :: 1 <= j < k ==> PassOutcomes(b.cycles)(j).end == Rejected
  {
    var pre := [Navigate(GameUrl)] + WaitPlan(b.saleStart, b.prepareMinutes * MinuteMs, now, ScriptFineMs).steps;
    assert RunSpec(b, now) == BuyStage(b, pre);
    assert b.interruptAt != Some(AtBuyPage) && b.buyHref.Returns? && !b.buyNavigateRaises;
    var t := pre + [Navigate(BuyUrl(b.buyHref.value))];
    assert BuyStage(b, pre) == ShowStage(b, t);
    assert b.interruptAt != Some(AtShow) && ShowStep(b.game).0;
    assert ShowStage(b, t) == AreaStage(b, t + ShowStep(b.game).1);
    assert b.interruptAt != Some(AtArea) && b.interruptAt != Some(AtCaptcha);
    CycleCompletes(PassOutcomes(b.cycles), 1);
  }

  /** An interrupt is the only way `run` ends without completing or raising,
      and one pressed at the start of a stage that is reached is swallowed
      there: nothing after it runs. */
  lemma InterruptStops(b: T1Script, now: int)
    ensures RunSpec(b, now).outcome == Interrupted ==> b.interruptAt.Some?
    ensures b.interruptAt == Some(AtBuyPage) ==>
              RunSpec(b, now) == RunReport(Interrupted, [Navigate(GameUrl)] + WaitPlan(b.saleStart, b.prepareMinutes * MinuteMs, now, ScriptFineMs).steps)
  {
    var pre := [Navigate(GameUrl)] + WaitPlan(b.saleStart, b.prepareMinutes * MinuteMs, now, ScriptFineMs).steps;
    if b.interruptAt.None? {
      assert RunSpec(b, now) == BuyStage(b, pre);
      CycleNeverInterrupted(PassOutcomes(b.cycles), 1);
      if b.buyHref.Returns? && !b.buyNavigateRaises {
        var t := pre + [Navigate(BuyUrl(b.buyHref.value))];
        assert BuyStage(b, pre) == ShowStage(b, t);
        if ShowStep(b.game).0 {
          AreaStageNotInterrupted(b, t + ShowStep(b.game).1);
        }
      }
    }
  }

  /** Without a Ctrl+C the area step and the cycle after it never end as
      interrupted. */
  lemma AreaStageNotInterrupted(b: T1Script, steps: seq<Action>)
    requires b.interruptAt.None?
    ensures AreaStage(b, steps).outcome != Interrupted
  {
    CycleNeverInterrupted(PassOutcomes(b.cycles), 1);
  }

  /** The captcha cycle itself never ends as interrupted: it completes or
      raises. */
  lemma {:induction false} CycleNeverInterrupted(outcomes: nat -> PassReport, k: nat)
    requires 1 <= k <= MaxCaptchaRetries
    ensures CycleFrom(outcomes, k).outcome != Interrupted
    decreases MaxCaptchaRetries - k
  {
    if outcomes(k).end == Rejected && k < MaxCaptchaRetries {
      CycleNeverInterrupted(outcomes, k + 1);
    }
  }

  /** `run` submits at most once per pass of the captcha cycle, and not at
      all when it never reaches the cycle. */
  lemma RunSubmitsBounded(b: T1Script, now: int)
    ensures Occurrences(RunSpec(b, now).steps, Submit) <= MaxCaptchaRetries
    ensures !ReachesCycle(b) ==> Submit !in RunSpec(b, now).steps
  {
    var r := RunSpec(b, now);
    var w := WaitPlan(b.saleStart, b.prepareMinutes * MinuteMs, now, ScriptFineMs);
    WaitHasNoSubmit(b.saleStart, b.prepareMinutes * MinuteMs, now);
    SelectAreaMoves(b.area, TicketValue, true);
    var area := SelectAreaSpec(b.area, TicketValue, true);
    if ReachesCycle(b) {
      var cycle := CycleFrom(PassOutcomes(b.cycles), 1);
      PassOutcomesSubmitOnce(b.cycles);
      CycleSubmitsBounded(PassOutcomes(b.cycles), 1);
      var t := [Navigate(GameUrl)] + w.steps + [Navigate(BuyUrl(b.buyHref.value))]
               + ShowStep(b.game).1 + area.steps;
      assert r.steps == t + cycle.steps;
      assert Submit !in t;
      OccurrencesAbsent(t, Submit);
      OccurrencesAppend(t, cycle.steps, Submit);
    } else {
      assert Submit !in r.steps;
      OccurrencesAbsent(r.steps, Submit);
    }
  }

  /** The wait never submits. */
  lemma WaitHasNoSubmit(start: Option<int>, prepareMs: int, now: int)
    ensures Submit !in WaitPlan(start, prepareMs, now, ScriptFineMs).steps
  {
    WaitOnlySleepsAndRefresh(start, prepareMs, now, ScriptFineMs);
  }

  /** `wait_until_start_time`: the shared wait with the half-second fine step. */
  method WaitUntilStartTime(clock: Clock, saleStart: Option<int>, prepareMinutes: int) returns (trace: seq<Action>)
    modifies clock
    ensures Schedule(trace, clock.now) == WaitPlan(saleStart, prepareMinutes * MinuteMs, old(clock.now), ScriptFineMs)
    ensures Occurrences(trace, Refresh) == 1 && trace[|trace| - 1] == Refresh
    ensures saleStart.Some? && prepareMinutes > 0 && old(clock.now) < saleStart.value ==>
              saleStart.value <= clock.now < saleStart.value + ScriptFineMs
  {
    ghost var now := clock.now;
    trace := WaitForSale(clock, saleStart, prepareMinutes * MinuteMs, ScriptFineMs);
    if saleStart.Some? {
      WaitShape(saleStart.value, prepareMinutes * MinuteMs, now, ScriptFineMs);
      if prepareMinutes > 0 && now < saleStart.value {
        WaitLandsOnTime(saleStart.value, prepareMinutes * MinuteMs, now, ScriptFineMs);
      }
    } else {
      OccurrencesOne(Refresh, Refresh);
    }
  }

  /** `run`, on the clock: the clock moves by exactly what the run sleeps,
      and after a wait it stands no earlier than the moment the wait ended. */
  method Run(clock: Clock, b: T1Script) returns (outcome: RunOutcome, trace: seq<Action>)
    modifies clock
    ensures RunReport(outcome, trace) == RunSpec(b, old(clock.now))
    ensures clock.now == old(clock.now) + SleptMs(trace)
    ensures !(b.saleStart.Some? && b.interruptAt == Some(AtWait)) ==>
              clock.now >= WaitPlan(b.saleStart, b.prepareMinutes * MinuteMs, old(clock.now), ScriptFineMs).refreshAt
  {
    ghost var now := clock.now;
    trace := [Navigate(GameUrl)];
    assert SleptMs(trace) == 0;
    if b.saleStart.Some? && b.interruptAt == Some(AtWait) {
      return Interrupted, trace;
    }
    var waitSteps := WaitUntilStartTime(clock, b.saleStart, b.prepareMinutes);
    WaitClock(b.saleStart, b.prepareMinutes * MinuteMs, now, ScriptFineMs);
    SleptMsAppend(trace, waitSteps);
    trace := trace + waitSteps;
    outcome, trace := RunFromBuy(clock, b, trace);
  }

  /** `run` once the wait is over; the sleeps of a step are over when it
      returns. */
  method RunFromBuy(clock: Clock, b: T1Script, trace0: seq<Action>) returns (outcome: RunOutcome, trace: seq<Action>)
    modifies clock
    ensures RunReport(outcome, trace) == BuyStage(b, trace0)
    ensures clock.now == old(clock.now) + SleptMs(trace) - SleptMs(trace0) >= old(clock.now)
  {
    trace := trace0;
    if b.interruptAt == Some(AtBuyPage) {
      return Interrupted, trace;
    }
    if b.buyHref.Raises? {
      return Raised(BuyFailed), trace;
    }
    SleptMsAppend(trace, [Navigate(BuyUrl(b.buyHref.value))]);
    assert SleptMs([Navigate(BuyUrl(b.buyHref.value))]) == 0;
    trace := trace + [Navigate(BuyUrl(b.buyHref.value))];
    if b.buyNavigateRaises {
      return Raised(BuyFailed), trace;
    }
    if b.interruptAt == Some(AtShow) {
      return Interrupted, trace;
    }
    var show, showSteps := SelectMatchAndBuy(b.game);
    SleptMsAppend(trace, showSteps);
    assert SleptMs(showSteps) == 0 by {
      if showSteps != [] {
        assert showSteps[1..] == [];
      }
    }
    trace := trace + showSteps;
    if show.Err? {
      return Raised(ShowFailed), trace;
    }
    if b.interruptAt == Some(AtArea) {
      return Interrupted, trace;
    }
    var area, areaSteps := SelectArea(b.area, TicketValue);
    clock.Sleep(SleptMs(areaSteps));
    SleptMsAppend(trace, areaSteps);
    trace := trace + areaSteps;
    if area.Err? {
      return Raised(AreaFailed), trace;
    }
    if b.interruptAt == Some(AtCaptcha) {
      return Interrupted, trace;
    }
    var cycleSteps;
    outcome, cycleSteps := CaptchaCycle(b.cycles);
    clock.Sleep(SleptMs(cycleSteps));
    SleptMsAppend(trace, cycleSteps);
    trace := trace + cycleSteps;
  }
}
