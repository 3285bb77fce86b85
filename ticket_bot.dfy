/** ticket_bot.py: the `TicketBot` that runs the whole purchase, step by step,
    and keeps its status, error message and start/end times in fields. The
    pages it meets are scripted as in `Purchase` and `CaptchaSolving`; the
    clock is the only thing that moves, and only by sleeping. */
module TicketBotCore {
  import opened Wrappers
  import opened PyText
  import opened Browser
  import opened Purchase
  import opened CaptchaSolving
  import opened SaleSchedule

  /** `BotStatus`. */
  datatype BotStatus =
    | Idle | Initializing | Waiting | LoggingIn | SelectingShow | SelectingArea
    | SelectingTickets | SolvingCaptcha | Submitting | Success | Failed | Error

  /** The enum's values, as `report_status` shows them. */
  function StatusValue(s: BotStatus): string {
    match s
    case Idle => "閒置"
    case Initializing => "初始化中"
    case Waiting => "等待開賣"
    case LoggingIn => "登入中"
    case SelectingShow => "選擇場次中"
    case SelectingArea => "選擇區域中"
    case SelectingTickets => "選擇票數中"
    case SolvingCaptcha => "處理驗證碼中"
    case Submitting => "提交中"
    case Success => "購票成功"
    case Failed => "購票失敗"
    case Error => "發生錯誤"
  }

  /** The statuses in which the bot is not running. */
  predicate IsRunningStatus(s: BotStatus) {
    s !in {Idle, Success, Failed, Error}
  }

  const DefaultCaptchaRetry: int := 5

  /** Messages of the exceptions that end `start_booking` with an error. */
  const RefreshFailedMessage: string := "刷新頁面失敗"
  const BuyPageMessage: string := "無法進入購票頁面"
  const ShowFailedMessage: string := "選擇場次失敗"
  const AreaFailedMessage: string := "選擇座位區域失敗"
  const NotCompletedMessage: string := "購票流程未能完成"
  const InterruptedMessage: string := "使用者中斷"

  /** The message `_handle_captcha_with_retry` raises after its last cycle. */
  function CaptchaRetryMessage(maxRetry: nat): string {
    "驗證碼處理失敗（" + IntString(maxRetry) + " 次重試）"
  }

  // ---------------------------------------------------------------------------
  // One cycle of _handle_captcha_with_retry

  /** What one cycle meets: the ticket form, the OCR attempts of its
      `solve_and_fill`, whether typing the answer raises, whether submitting
      raises, and the alert check (`Raises` when the check itself fails, with
      `checkWhy` its message). */
  datatype CycleScript = CycleScript(
    form: TicketForm,
    attempts: nat -> OcrAttempt,
    fillRaises: bool,
    submitRaises: bool,
    check: Reply<AlertScript>,
    checkWhy: string)

  /** A cycle passes (no error after submitting), is rejected (the captcha was
      wrong), or raises somewhere on the way. */
  datatype CycleOutcome = Passed | Rejected | Raised

  datatype CycleReport = CycleReport(outcome: CycleOutcome, steps: seq<Action>)

  /** select_ticket_count, solve_and_fill, submit_booking (a click and one
      second's sleep) and verify_and_handle_error, stopping at the first raise. */
  function CycleSpec(c: CycleScript, ocrRetry: int): CycleReport {
    match SelectTickets(c.form, DefaultTicketValue)
    case Err(_) => CycleReport(Raised, [])
    case Ok(_) =>
      var (text, solving) := SolveAndFillSpec(ocrRetry, c.attempts, c.fillRaises);
      if text.None? then CycleReport(Raised, solving)
      else if c.submitRaises then CycleReport(Raised, solving + [Submit])
      else
        var submitted := solving + [Submit, Pause(1000)];
        var alert := if c.check.Returns? then HandleCaptchaErrorAlert(c.check.value, true).1 else [];
        var verdict := VerifyAndHandleError(c.check, c.checkWhy);
        CycleReport(if verdict.hasError then Rejected else Passed, submitted + alert)
  }

  /** A cycle passes only when a captcha of at least four characters was typed
      in and submitted and no alert came back. */
  lemma PassedCycle(c: CycleScript, ocrRetry: int)
    requires CycleSpec(c, ocrRetry).outcome == Passed
    ensures SelectTickets(c.form, DefaultTicketValue).Ok?
    ensures var (text, _) := SolveAndFillSpec(ocrRetry, c.attempts, c.fillRaises);
            text.Some? && |text.value| >= MinCaptchaLength
    ensures !c.submitRaises && c.check.Returns? && !HandleCaptchaErrorAlert(c.check.value, true).0
    ensures Occurrences(CycleSpec(c, ocrRetry).steps, Submit) == 1
  {
    var (text, solving) := SolveAndFillSpec(ocrRetry, c.attempts, c.fillRaises);
    SolveAndFillSubmitsNothing(ocrRetry, c.attempts, c.fillRaises);
    SolveAndFillLongText(ocrRetry, c.attempts, c.fillRaises);
    var alert := HandleCaptchaErrorAlert(c.check.value, true).1;
    AlertNeverSubmits(c.check.value, true);
    SubmitStepCounts();
    assert CycleSpec(c, ocrRetry).steps == solving + [Submit, Pause(1000)] + alert;
    OccurrencesSplit(CycleSpec(c, ocrRetry).steps, solving, [Submit, Pause(1000)], alert, Submit);
  }

  /** Submitting clicks the button once and then sleeps. */
  lemma SubmitStepCounts()
    ensures Occurrences([Submit, Pause(1000)], Submit) == 1
  {
    assert [Submit, Pause(1000)] == [Submit] + [Pause(1000)];
    OccurrencesAppend([Submit], [Pause(1000)], Submit);
    OccurrencesOne(Submit, Submit);
    OccurrencesOne(Pause(1000), Submit);
  }

  /** `solve_and_fill` never submits. */
  lemma SolveAndFillSubmitsNothing(ocrRetry: int, attempts: nat -> OcrAttempt, fillRaises: bool)
    ensures Occurrences(SolveAndFillSpec(ocrRetry, attempts, fillRaises).1, Submit) == 0
  {
    var s := RetryFrom(ocrRetry, AttemptOutcomes(attempts), 1, None);
    forall k ensures Occurrences(AttemptOutcomes(attempts)(k).steps, Submit) == 0
                     && Occurrences(AttemptOutcomes(attempts)(k).refreshSteps, Submit) == 0 {
      AttemptNeverSubmits(attempts(k));
      SolverRefreshCount(attempts(k).refresh, Submit);
    }
    RetryAvoids(ocrRetry, AttemptOutcomes(attempts), 1, None, Submit);
    if s.result.Ok? {
      OccurrencesAppend(s.steps, [FillCaptcha(s.result.value)], Submit);
      assert [FillCaptcha(s.result.value)][..0] == [];
    }
  }

  // ---------------------------------------------------------------------------
  // _handle_captcha_with_retry

  datatype HandleReport = HandleReport(result: Result<bool, string>, steps: seq<Action>)

  /** The cycle loop from cycle `k` on: the first passing cycle returns
      `True`; a failing cycle before the last is swallowed and the next one
      runs; a failing last cycle raises; no cycle at all returns `False`. */
  function CaptchaLoop(maxRetry: int, outcomes: nat -> CycleReport, k: nat): HandleReport
    requires k >= 1
    decreases maxRetry + 1 - k
  {
    if k > maxRetry then HandleReport(Ok(false), [])
    else
      var c := outcomes(k);
      if c.outcome == Passed then HandleReport(Ok(true), c.steps)
      else if k == maxRetry then HandleReport(Err(CaptchaRetryMessage(k)), c.steps)
      else
        var rest := CaptchaLoop(maxRetry, outcomes, k + 1);
        HandleReport(rest.result, c.steps + rest.steps)
  }

  /** The steps of cycles `i .. j-1`, one after another. */
  function CycleSteps(outcomes: nat -> CycleReport, i: nat, j: nat): seq<Action>
    requires i <= j
    decreases j - i
  {
    if i == j then [] else outcomes(i).steps + CycleSteps(outcomes, i + 1, j)
  }

  /** What the loop returns: `True` iff some cycle up to the limit passes,
      `False` iff no cycle runs at all, and otherwise the retry message. */
  lemma {:induction false} CaptchaLoopResult(maxRetry: int, outcomes: nat -> CycleReport, i: nat)
    requires 1 <= i
    ensures var r := CaptchaLoop(maxRetry, outcomes, i).result;
      (r == Ok(true) <==> exists k :: i <= k <= maxRetry && outcomes(k).outcome == Passed)
      && (r == Ok(false) <==> i > maxRetry)
      && (r.Err? ==> maxRetry >= 1 && r.error == CaptchaRetryMessage(maxRetry))
    decreases maxRetry + 1 - i
  {
    if i <= maxRetry && outcomes(i).outcome != Passed && i < maxRetry {
      CaptchaLoopResult(maxRetry, outcomes, i + 1);
      var r := CaptchaLoop(maxRetry, outcomes, i).result;
      if r == Ok(true) {
        var k :| i + 1 <= k <= maxRetry && outcomes(k).outcome == Passed;
      }
      if exists k :: i <= k <= maxRetry && outcomes(k).outcome == Passed {
        var k :| i <= k <= maxRetry && outcomes(k).outcome == Passed;
        assert k != i;
      }
    } else if i <= maxRetry && outcomes(i).outcome != Passed {
      forall k | i <= k <= maxRetry ensures outcomes(k).outcome != Passed {
        assert k == i;
      }
    }
  }

  /** The loop stops at the first passing cycle: the cycles run are exactly
      those up to and including it, or all of them when none passes. */
  lemma {:induction false} CaptchaLoopStopsAtFirstPass(maxRetry: int, outcomes: nat -> CycleReport, i: nat, w: nat)
    requires 1 <= i <= w <= maxRetry
    requires forall k :: i <= k < w ==> outcomes(k).outcome != Passed
    requires outcomes(w).outcome == Passed || w == maxRetry
    ensures CaptchaLoop(maxRetry, outcomes, i).steps == CycleSteps(outcomes, i, w + 1)
    decreases w - i
  {
    if i < w {
      CaptchaLoopStopsAtFirstPass(maxRetry, outcomes, i + 1, w);
    } else {
      assert CycleSteps(outcomes, i + 1, w + 1) == [];
    }
  }

  // ---------------------------------------------------------------------------
  // start_booking

  /** Everything `start_booking` meets: the sale time and preparation, whether
      the refresh at the opening raises, the "立即購票" link (`Raises` when it is
      missing) and whether loading it raises, the show page, the area page, the
      captcha cycles, and where the user interrupts, if anywhere. */
  datatype BookingScript = BookingScript(
    saleStart: Option<int>,
    prepareMinutes: int,
    refreshRaises: bool,
    buyHref: Reply<string>,
    buyLoadRaises: bool,
    game: GamePage,
    area: AreaPage,
    cycles: nat -> CycleScript,
    interruptAt: Option<Stage>)

  datatype BookingOutcome = Booked | Interrupted | Crashed(message: string)

  /** The status `start_booking` ends in. */
  function FinalStatus(o: BookingOutcome): BotStatus {
    match o
    case Booked => Success
    case Interrupted => Failed
    case Crashed(_) => Error
  }

  /** The outcome, the statuses assigned on the way (the final one aside), the
      browser and sleep calls, and the clock reading at the end. */
  datatype BookingReport = BookingReport(outcome: BookingOutcome, statuses: seq<BotStatus>, steps: seq<Action>, clockAfter: int)

  /** The outcomes of the captcha cycles when the solver allows `ocrRetry`
      recognition attempts. */
  function CycleOutcomes(cycles: nat -> CycleScript, ocrRetry: int): nat -> CycleReport {
    (k: nat) => CycleSpec(cycles(k), ocrRetry)
  }

  /** The cycle loop over the scripted cycles returns `True` iff one of them
      passes and `False` iff no cycle may run. */
  lemma CaptchaLoopMeaning(maxRetry: int, cycles: nat -> CycleScript, ocrRetry: int)
    ensures CaptchaLoop(maxRetry, CycleOutcomes(cycles, ocrRetry), 1).result == Ok(false) <==> maxRetry < 1
    ensures CaptchaLoop(maxRetry, CycleOutcomes(cycles, ocrRetry), 1).result == Ok(true)
            <==> exists k :: 1 <= k <= maxRetry && CycleSpec(cycles(k), ocrRetry).outcome == Passed
  {
    var outcomes := CycleOutcomes(cycles, ocrRetry);
    CaptchaLoopResult(maxRetry, outcomes, 1);
    if exists k :: 1 <= k <= maxRetry && CycleSpec(cycles(k), ocrRetry).outcome == Passed {
      var k :| 1 <= k <= maxRetry && CycleSpec(cycles(k), ocrRetry).outcome == Passed;
      assert outcomes(k).outcome == Passed;
    }
    if exists k :: 1 <= k <= maxRetry && outcomes(k).outcome == Passed {
      var k :| 1 <= k <= maxRetry && outcomes(k).outcome == Passed;
      assert CycleSpec(cycles(k), ocrRetry).outcome == Passed;
    }
  }

  /** From the captcha step on, from clock reading `clock`: the sleeps of the
      captcha cycles move the clock on. */
  function CaptchaStage(b: BookingScript, statuses: seq<BotStatus>, steps: seq<Action>, clock: int, ocrRetry: int, captchaRetry: int): BookingReport {
    var st := statuses + [SolvingCaptcha];
    if b.interruptAt == Some(AtCaptcha) then BookingReport(Interrupted, st, steps, clock)
    else
      var h := CaptchaLoop(captchaRetry, CycleOutcomes(b.cycles, ocrRetry), 1);
      var after := clock + SleptMs(h.steps);
      match h.result
      case Err(m) => BookingReport(Crashed(m), st, steps + h.steps, after)
      case Ok(done) =>
        if done then BookingReport(Booked, st, steps + h.steps, after)
        else BookingReport(Crashed(NotCompletedMessage), st, steps + h.steps, after)
  }

  /** From the show step on: choosing the show does not sleep. */
  function ShowStage(b: BookingScript, statuses: seq<BotStatus>, steps: seq<Action>, clock: int, ocrRetry: int, captchaRetry: int): BookingReport {
    var st := statuses + [SelectingShow];
    if b.interruptAt == Some(AtShow) then BookingReport(Interrupted, st, steps, clock)
    else
      var (shown, showSteps) := ShowStep(b.game);
      var t := steps + showSteps;
      if !shown then BookingReport(Crashed(ShowFailedMessage), st, t, clock)
      else AreaStage(b, st, t, clock, ocrRetry, captchaRetry)
  }

  /** From the area step on: the sleeps after the back navigations move the
      clock on. */
  function AreaStage(b: BookingScript, statuses: seq<BotStatus>, steps: seq<Action>, clock: int, ocrRetry: int, captchaRetry: int): BookingReport {
    var st := statuses + [SelectingArea];
    if b.interruptAt == Some(AtArea) then BookingReport(Interrupted, st, steps, clock)
    else
      var a := SelectAreaSpec(b.area, DefaultTicketValue, true);
      var after := clock + SleptMs(a.steps);
      if a.result.Err? then BookingReport(Crashed(AreaFailedMessage), st, steps + a.steps, after)
      else CaptchaStage(b, st, steps + a.steps, after, ocrRetry, captchaRetry)
  }

  /** Every status `start_booking` itself sets before its final one is one in
      which `is_running` is true. Without a start time, the first step runs
      under whatever status the bot had before the call. */
  lemma BookingStatusesRunning(b: BookingScript, now: int, ocrRetry: int, captchaRetry: int)
    ensures forall s :: s in BookingSpec(b, now, ocrRetry, captchaRetry).statuses ==> IsRunningStatus(s)
  {
    if !(b.saleStart.Some? && b.interruptAt == Some(AtWait)) {
      var waited := if b.saleStart.Some? then [Waiting] else [];
      var w := WaitPlan(b.saleStart, b.prepareMinutes * MinuteMs, now, TicketBotFineMs);
      var steps := if b.saleStart.Some? then w.steps else [];
      var clock := if b.saleStart.Some? then w.refreshAt else now;
      if !(b.saleStart.Some? && b.refreshRaises) && b.interruptAt != Some(AtBuyPage) && b.buyHref.Returns? && !b.buyLoadRaises {
        var t := steps + [Navigate(BuyUrl(b.buyHref.value))];
        assert BookingSpec(b, now, ocrRetry, captchaRetry) == ShowStage(b, waited, t, clock, ocrRetry, captchaRetry);
        ShowStageRunning(b, waited, t, clock, ocrRetry, captchaRetry);
      }
    }
  }

  /** The show step and everything after it add only running statuses. */
  lemma ShowStageRunning(b: BookingScript, statuses: seq<BotStatus>, steps: seq<Action>, clock: int, ocrRetry: int, captchaRetry: int)
    requires forall s :: s in statuses ==> IsRunningStatus(s)
    ensures forall s :: s in ShowStage(b, statuses, steps, clock, ocrRetry, captchaRetry).statuses ==> IsRunningStatus(s)
  {
    var st := statuses + [SelectingShow];
    var (shown, showSteps) := ShowStep(b.game);
    if b.interruptAt != Some(AtShow) && shown {
      AreaStageRunning(b, st, steps + showSteps, clock, ocrRetry, captchaRetry);
    }
  }

  /** The area step and everything after it add only running statuses. */
  lemma AreaStageRunning(b: BookingScript, statuses: seq<BotStatus>, steps: seq<Action>, clock: int, ocrRetry: int, captchaRetry: int)
    requires forall s :: s in statuses ==> IsRunningStatus(s)
    ensures forall s :: s in AreaStage(b, statuses, steps, clock, ocrRetry, captchaRetry).statuses ==> IsRunningStatus(s)
  {
    var st := statuses + [SelectingArea];
    var a := SelectAreaSpec(b.area, DefaultTicketValue, true);
    if b.interruptAt != Some(AtArea) && a.result.Ok? {
      CaptchaStageStatuses(b, st, steps + a.steps, clock + SleptMs(a.steps), ocrRetry, captchaRetry);
    }
  }

  /** The captcha step, however it ends, adds exactly `SOLVING_CAPTCHA`. */
  lemma CaptchaStageStatuses(b: BookingScript, statuses: seq<BotStatus>, steps: seq<Action>, clock: int, ocrRetry: int, captchaRetry: int)
    ensures CaptchaStage(b, statuses, steps, clock, ocrRetry, captchaRetry).statuses == statuses + [SolvingCaptcha]
  {
    if b.interruptAt != Some(AtCaptcha) {
      var h := CaptchaLoop(captchaRetry, CycleOutcomes(b.cycles, ocrRetry), 1);
      match h.result
      case Err(m) =>
      case Ok(done) =>
    }
  }

  /** `start_booking` as a whole, from clock reading `now`. */
  function BookingSpec(b: BookingScript, now: int, ocrRetry: int, captchaRetry: int): BookingReport {
    if b.saleStart.Some? && b.interruptAt == Some(AtWait) then BookingReport(Interrupted, [], [], now)
    else
      var w := WaitPlan(b.saleStart, b.prepareMinutes * MinuteMs, now, TicketBotFineMs);
      var waited := if b.saleStart.Some? then [Waiting] else [];
      var steps := if b.saleStart.Some? then w.steps else [];
      var clock := if b.saleStart.Some? then w.refreshAt else now;
      if b.saleStart.Some? && b.refreshRaises then BookingReport(Crashed(RefreshFailedMessage), waited, steps, clock)
      else if b.interruptAt == Some(AtBuyPage) then BookingReport(Interrupted, waited, steps, clock)
      else match b.buyHref
        case Raises => BookingReport(Crashed(BuyPageMessage), waited, steps, clock)
        case Returns(href) =>
          var t := steps + [Navigate(BuyUrl(href))];
          if b.buyLoadRaises then BookingReport(Crashed(BuyPageMessage), waited, t, clock)
          else ShowStage(b, waited, t, clock, ocrRetry, captchaRetry)
  }

  /** The captcha step books only when some cycle passes. */
  lemma CaptchaStageBooked(b: BookingScript, statuses: seq<BotStatus>, steps: seq<Action>, clock: int, ocrRetry: int, captchaRetry: int)
    requires CaptchaStage(b, statuses, steps, clock, ocrRetry, captchaRetry).outcome == Booked
    ensures b.interruptAt != Some(AtCaptcha)
    ensures exists k :: 1 <= k <= captchaRetry && CycleSpec(b.cycles(k), ocrRetry).outcome == Passed
    ensures CaptchaStage(b, statuses, steps, clock, ocrRetry, captchaRetry).statuses == statuses + [SolvingCaptcha]
  {
    CaptchaLoopResult(captchaRetry, CycleOutcomes(b.cycles, ocrRetry), 1);
    var k :| 1 <= k <= captchaRetry && CycleOutcomes(b.cycles, ocrRetry)(k).outcome == Passed;
    assert CycleSpec(b.cycles(k), ocrRetry).outcome == Passed;
  }

  /** From the show step on, booking needs the show and the area chosen,
      without interruption, and passes through their statuses in order. */
  lemma ShowStageBooked(b: BookingScript, statuses: seq<BotStatus>, steps: seq<Action>, clock: int, ocrRetry: int, captchaRetry: int)
    requires ShowStage(b, statuses, steps, clock, ocrRetry, captchaRetry).outcome == Booked
    ensures b.interruptAt != Some(AtShow) && b.interruptAt != Some(AtArea) && b.interruptAt != Some(AtCaptcha)
    ensures ShowStep(b.game).0 && SelectAreaSpec(b.area, DefaultTicketValue, true).result.Ok?
    ensures exists k :: 1 <= k <= captchaRetry && CycleSpec(b.cycles(k), ocrRetry).outcome == Passed
    ensures ShowStage(b, statuses, steps, clock, ocrRetry, captchaRetry).statuses
            == statuses + [SelectingShow, SelectingArea, SolvingCaptcha]
  {
    var st1 := statuses + [SelectingShow];
    var st2 := st1 + [SelectingArea];
    var t1 := steps + ShowStep(b.game).1;
    var t := t1 + SelectAreaSpec(b.area, DefaultTicketValue, true).steps;
    var c := clock + SleptMs(SelectAreaSpec(b.area, DefaultTicketValue, true).steps);
    assert ShowStage(b, statuses, steps, clock, ocrRetry, captchaRetry) == AreaStage(b, st1, t1, clock, ocrRetry, captchaRetry);
    assert AreaStage(b, st1, t1, clock, ocrRetry, captchaRetry) == CaptchaStage(b, st2, t, c, ocrRetry, captchaRetry);
    CaptchaStageBooked(b, st2, t, c, ocrRetry, captchaRetry);
  }

  /** A booking succeeds exactly when every step succeeds and some captcha
      cycle passes; the statuses then run through the steps in order. */
  lemma BookedPath(b: BookingScript, now: int, ocrRetry: int, captchaRetry: int)
    requires BookingSpec(b, now, ocrRetry, captchaRetry).outcome == Booked
    ensures b.interruptAt.None? || (b.saleStart.None? && b.interruptAt == Some(AtWait))
    ensures b.saleStart.Some? ==> !b.refreshRaises
    ensures b.buyHref.Returns? && !b.buyLoadRaises && ShowStep(b.game).0
    ensures SelectAreaSpec(b.area, DefaultTicketValue, true).result.Ok?
    ensures exists k :: 1 <= k <= captchaRetry && CycleSpec(b.cycles(k), ocrRetry).outcome == Passed
    ensures BookingSpec(b, now, ocrRetry, captchaRetry).statuses
            == (if b.saleStart.Some? then [Waiting] else []) + [SelectingShow, SelectingArea, SolvingCaptcha]
  {
    var w := WaitPlan(b.saleStart, b.prepareMinutes * MinuteMs, now, TicketBotFineMs);
    var waited := if b.saleStart.Some? then [Waiting] else [];
    var steps := if b.saleStart.Some? then w.steps else [];
    var clock := if b.saleStart.Some? then w.refreshAt else now;
    var t := steps + [Navigate(BuyUrl(b.buyHref.value))];
    assert BookingSpec(b, now, ocrRetry, captchaRetry) == ShowStage(b, waited, t, clock, ocrRetry, captchaRetry);
    ShowStageBooked(b, waited, t, clock, ocrRetry, captchaRetry);
    if b.interruptAt.Some? {
      match b.interruptAt.value
      case AtWait =>
      case AtBuyPage =>
      case AtShow =>
      case AtArea =>
      case AtCaptcha =>
    }
  }

  /** A limit below one runs no cycle, and the booking then fails with
      "購票流程未能完成" once the area is chosen. */
  lemma NoCycleNotCompleted(b: BookingScript, now: int, ocrRetry: int, captchaRetry: int)
    requires captchaRetry < 1
    ensures BookingSpec(b, now, ocrRetry, captchaRetry).outcome != Booked
    ensures CaptchaLoop(captchaRetry, CycleOutcomes(b.cycles, ocrRetry), 1) == HandleReport(Ok(false), [])
  {
  }

  /** A failure outcome carries one of the step messages; interruption is the
      only way to fail without one. */
  lemma CrashMessages(b: BookingScript, now: int, ocrRetry: int, captchaRetry: int)
    ensures var o := BookingSpec(b, now, ocrRetry, captchaRetry).outcome;
      o.Crashed? ==> o.message in {RefreshFailedMessage, BuyPageMessage, ShowFailedMessage, AreaFailedMessage, NotCompletedMessage}
                     || (captchaRetry >= 1 && o.message == CaptchaRetryMessage(captchaRetry))
  {
    if !(b.saleStart.Some? && b.interruptAt == Some(AtWait)) {
      var waited := if b.saleStart.Some? then [Waiting] else [];
      var w := WaitPlan(b.saleStart, b.prepareMinutes * MinuteMs, now, TicketBotFineMs);
      var steps := if b.saleStart.Some? then w.steps else [];
      var clock := if b.saleStart.Some? then w.refreshAt else now;
      if !(b.saleStart.Some? && b.refreshRaises) && b.interruptAt != Some(AtBuyPage) && b.buyHref.Returns? && !b.buyLoadRaises {
        var t := steps + [Navigate(BuyUrl(b.buyHref.value))];
        assert BookingSpec(b, now, ocrRetry, captchaRetry) == ShowStage(b, waited, t, clock, ocrRetry, captchaRetry);
        ShowStageCrash(b, waited, t, clock, ocrRetry, captchaRetry);
      }
    }
  }

  /** From the show step on, a crash carries the show, area, not-completed
      or retry-exhausted message. */
  lemma ShowStageCrash(b: BookingScript, statuses: seq<BotStatus>, steps: seq<Action>, clock: int, ocrRetry: int, captchaRetry: int)
    ensures var o := ShowStage(b, statuses, steps, clock, ocrRetry, captchaRetry).outcome;
      o.Crashed? ==> o.message in {ShowFailedMessage, AreaFailedMessage, NotCompletedMessage}
                     || (captchaRetry >= 1 && o.message == CaptchaRetryMessage(captchaRetry))
  {
    var st := statuses + [SelectingShow];
    var (shown, showSteps) := ShowStep(b.game);
    if b.interruptAt != Some(AtShow) && shown {
      var t := steps + showSteps;
      var st2 := st + [SelectingArea];
      var a := SelectAreaSpec(b.area, DefaultTicketValue, true);
      if b.interruptAt != Some(AtArea) && a.result.Ok? {
        assert ShowStage(b, statuses, steps, clock, ocrRetry, captchaRetry)
            == CaptchaStage(b, st2, t + a.steps, clock + SleptMs(a.steps), ocrRetry, captchaRetry);
        CaptchaLoopResult(captchaRetry, CycleOutcomes(b.cycles, ocrRetry), 1);
      }
    }
  }

  /** The captcha step moves the clock by exactly what it sleeps. */
  lemma CaptchaStageClock(b: BookingScript, statuses: seq<BotStatus>, steps: seq<Action>, clock: int, ocrRetry: int, captchaRetry: int)
    ensures var r := CaptchaStage(b, statuses, steps, clock, ocrRetry, captchaRetry);
      r.clockAfter == clock + SleptMs(r.steps) - SleptMs(steps)
  {
    var h := CaptchaLoop(captchaRetry, CycleOutcomes(b.cycles, ocrRetry), 1);
    SleptMsAppend(steps, h.steps);
  }

  /** From the show step on, the clock moves by exactly what is slept. */
  lemma ShowStageClock(b: BookingScript, statuses: seq<BotStatus>, steps: seq<Action>, clock: int, ocrRetry: int, captchaRetry: int)
    ensures var r := ShowStage(b, statuses, steps, clock, ocrRetry, captchaRetry);
      r.clockAfter == clock + SleptMs(r.steps) - SleptMs(steps)
  {
    var st1 := statuses + [SelectingShow];
    var st2 := st1 + [SelectingArea];
    var (shown, showSteps) := ShowStep(b.game);
    var t1 := steps + showSteps;
    var a := SelectAreaSpec(b.area, DefaultTicketValue, true);
    var t := t1 + a.steps;
    var c := clock + SleptMs(a.steps);
    SleptMsAppend(steps, showSteps);
    SleptMsAppend(t1, a.steps);
    assert SleptMs(showSteps) == 0 by {
      if showSteps != [] {
        assert showSteps[1..] == [];
      }
    }
    CaptchaStageClock(b, st2, t, c, ocrRetry, captchaRetry);
  }

  /** The clock at the end of `start_booking` is the clock at its start plus
      everything slept: the wait, the sleeps after the area page's back
      navigations, and those of the captcha cycles. It never runs backwards,
      and once the bot has waited for a sale it ends no earlier than the sale
      opens. */
  lemma BookingClock(b: BookingScript, now: int, ocrRetry: int, captchaRetry: int)
    ensures var r := BookingSpec(b, now, ocrRetry, captchaRetry);
      r.clockAfter == now + SleptMs(r.steps)
      && r.clockAfter >= now
      && (b.saleStart.Some? && b.interruptAt != Some(AtWait) ==> r.clockAfter >= b.saleStart.value)
  {
    var r := BookingSpec(b, now, ocrRetry, captchaRetry);
    if !(b.saleStart.Some? && b.interruptAt == Some(AtWait)) {
      var w := WaitPlan(b.saleStart, b.prepareMinutes * MinuteMs, now, TicketBotFineMs);
      var waited := if b.saleStart.Some? then [Waiting] else [];
      var steps := if b.saleStart.Some? then w.steps else [];
      var clock := if b.saleStart.Some? then w.refreshAt else now;
      if b.saleStart.Some? {
        WaitShape(b.saleStart.value, b.prepareMinutes * MinuteMs, now, TicketBotFineMs);
      }
      assert clock == now + SleptMs(steps);
      if b.buyHref.Returns? {
        var t := steps + [Navigate(BuyUrl(b.buyHref.value))];
        SleptMsAppend(steps, [Navigate(BuyUrl(b.buyHref.value))]);
        assert SleptMs([Navigate(BuyUrl(b.buyHref.value))]) == 0;
        if !b.buyLoadRaises && !(b.saleStart.Some? && b.refreshRaises) && b.interruptAt != Some(AtBuyPage) {
          ShowStageClock(b, waited, t, clock, ocrRetry, captchaRetry);
        }
      }
    }
  }

  /** The clock reading and trace a booking ends with differ from the start
      reading by exactly the time slept along that trace. */
  lemma BookingDuration(b: BookingScript, now: int, ocrRetry: int, captchaRetry: int, steps: seq<Action>, after: int)
    requires steps == BookingSpec(b, now, ocrRetry, captchaRetry).steps
    requires after == BookingSpec(b, now, ocrRetry, captchaRetry).clockAfter
    ensures after - now == SleptMs(steps)
  {
    BookingClock(b, now, ocrRetry, captchaRetry);
  }

  /** Every cycle with `get_image` as written. */
  function AsWrittenCycles(cycles: nat -> CycleScript): nat -> CycleScript {
    (k: nat) => cycles(k).(attempts := AsWrittenAttempts(cycles(k).attempts))
  }

  /** With `get_image` as written, every captcha cycle raises before
      submitting anything. */
  lemma AsWrittenCycleRaises(c: CycleScript, ocrRetry: int)
    ensures var r := CycleSpec(c.(attempts := AsWrittenAttempts(c.attempts)), ocrRetry);
      r.outcome == Raised && Occurrences(r.steps, Submit) == 0
  {
    AsWrittenSolveNeverSucceeds(ocrRetry, c.attempts, c.fillRaises);
    SolveAndFillSubmitsNothing(ocrRetry, AsWrittenAttempts(c.attempts), c.fillRaises);
  }

  /** With `get_image` as written, `start_booking` never succeeds. */
  lemma AsWrittenNeverBooks(b: BookingScript, now: int, ocrRetry: int, captchaRetry: int)
    ensures BookingSpec(b.(cycles := AsWrittenCycles(b.cycles)), now, ocrRetry, captchaRetry).outcome != Booked
  {
    var written := b.(cycles := AsWrittenCycles(b.cycles));
    forall k ensures CycleSpec(written.cycles(k), ocrRetry).outcome != Passed {
      AsWrittenCycleRaises(b.cycles(k), ocrRetry);
    }
    if BookingSpec(written, now, ocrRetry, captchaRetry).outcome == Booked {
      BookedPath(written, now, ocrRetry, captchaRetry);
    }
  }

  // ---------------------------------------------------------------------------
  // report_status

  /** The fields of `report_status` that the bot itself keeps. */
  datatype StatusReport = StatusReport(
    status: string,
    errorMessage: string,
    startTime: Option<int>,
    endTime: Option<int>,
    durationMs: Option<int>)

  class TicketBot {
    var status: BotStatus
    var errorMessage: string
    var startTime: Option<int>
    var endTime: Option<int>
    var maxCaptchaRetry: int
    /** Every status assigned so far, in order. */
    ghost var history: seq<BotStatus>
    const clock: Clock
    const solver: CaptchaSolver

    /** `TicketBot(driver, bot_config)`: idle, no message, no times; the
        captcha cycle limit is the configured one or 5; the solver is built
        without a limit, so it allows the configured OCR attempts. */
    constructor (clk: Clock, configuredRetry: Option<int>, readerLoads: bool)
      ensures status == Idle && errorMessage == "" && startTime.None? && endTime.None?
      ensures maxCaptchaRetry == configuredRetry.GetOr(DefaultCaptchaRetry)
      ensures clock == clk && fresh(solver) && solver.maxRetry == MaxOcrRetry
      ensures history == [Initializing, Idle]
    {
      status := Initializing;
      history := [Initializing];
      errorMessage := "";
      startTime := None;
      endTime := None;
      clock := clk;
      solver := new CaptchaSolver(None, readerLoads);
      maxCaptchaRetry := configuredRetry.GetOr(DefaultCaptchaRetry);
      status := Idle;
      history := history + [Idle];
    }

    /** `report_status`: the duration is present exactly when both times are. */
    function ReportStatus(): (r: StatusReport)
      reads this
      ensures r.status == StatusValue(status) && r.errorMessage == errorMessage
      ensures r.startTime == startTime && r.endTime == endTime
      ensures r.durationMs.Some? <==> startTime.Some? && endTime.Some?
      ensures r.durationMs.Some? ==> r.durationMs.value == endTime.value - startTime.value
    {
      StatusReport(StatusValue(status), errorMessage, startTime, endTime,
        if startTime.Some? && endTime.Some? then Some(endTime.value - startTime.value) else None)
    }

    /** `is_running`. */
    function IsRunning(): (b: bool)
      reads this
      ensures !b <==> status == Idle || status == Success || status == Failed || status == Error
    {
      IsRunningStatus(status)
    }

    /** `is_success`. */
    function IsSuccess(): (b: bool)
      reads this
      ensures b <==> status == Success
    {
      status == Success
    }

    /** `reset`: back to idle, with no message and no times. */
    method Reset()
      modifies this
      ensures status == Idle && errorMessage == "" && startTime.None? && endTime.None?
      ensures maxCaptchaRetry == old(maxCaptchaRetry) && history == old(history) + [Idle]
      ensures !IsRunning()
    {
      status := Idle;
      history := history + [Idle];
      errorMessage := "";
      startTime := None;
      endTime := None;
    }

    /** `wait_until_start_time` with the 1 s fine step. The refresh at the end
        is issued either way; `refreshed` is false when it raised. */
    method WaitUntilStartTime(saleStart: Option<int>, prepareMinutes: int, refreshRaises: bool)
      returns (refreshed: bool, trace: seq<Action>)
      modifies this, clock
      ensures Schedule(trace, clock.now) == WaitPlan(saleStart, prepareMinutes * MinuteMs, old(clock.now), TicketBotFineMs)
      ensures refreshed == !refreshRaises
      ensures saleStart.Some? ==> status == Waiting && history == old(history) + [Waiting]
      ensures saleStart.None? ==> status == old(status) && history == old(history)
      ensures errorMessage == old(errorMessage) && startTime == old(startTime) && endTime == old(endTime)
      ensures maxCaptchaRetry == old(maxCaptchaRetry)
    {
      if saleStart.Some? {
        status := Waiting;
        history := history + [Waiting];
      }
      trace := WaitForSale(clock, saleStart, prepareMinutes * MinuteMs, TicketBotFineMs);
      refreshed := !refreshRaises;
    }

    /** One cycle of `_handle_captcha_with_retry`. */
    method RunCycle(c: CycleScript) returns (outcome: CycleOutcome, steps: seq<Action>)
      ensures CycleReport(outcome, steps) == CycleSpec(c, solver.maxRetry)
    {
      var tickets := SelectTickets(c.form, DefaultTicketValue);
      if tickets.Err? {
        return Raised, [];
      }
      var text;
      text, steps := solver.SolveAndFill(c.attempts, c.fillRaises);
      if text.None? {
        return Raised, steps;
      }
      if c.submitRaises {
        return Raised, steps + [Submit];
      }
      steps := steps + [Submit, Pause(1000)];
      if c.check.Returns? {
        var (_, alertSteps) := HandleCaptchaErrorAlert(c.check.value, true);
        steps := steps + alertSteps;
      }
      var verdict := VerifyAndHandleError(c.check, c.checkWhy);
      outcome := if verdict.hasError then Rejected else Passed;
    }

    /** `_handle_captcha_with_retry`: cycles 1 .. maxCaptchaRetry until one
        passes; `Err` carries the message of the exception it raises. */
    method HandleCaptchaWithRetry(cycles: nat -> CycleScript) returns (r: Result<bool, string>, trace: seq<Action>)
      ensures HandleReport(r, trace) == CaptchaLoop(maxCaptchaRetry, CycleOutcomes(cycles, solver.maxRetry), 1)
      ensures r == Ok(false) <==> maxCaptchaRetry < 1
      ensures r == Ok(true) <==> exists k :: 1 <= k <= maxCaptchaRetry && CycleSpec(cycles(k), solver.maxRetry).outcome == Passed
    {
      ghost var outcomes := CycleOutcomes(cycles, solver.maxRetry);
      trace := [];
      var attempt: nat := 1;
      while attempt <= maxCaptchaRetry
        invariant attempt >= 1
        invariant CaptchaLoop(maxCaptchaRetry, outcomes, 1).result == CaptchaLoop(maxCaptchaRetry, outcomes, attempt).result
        invariant CaptchaLoop(maxCaptchaRetry, outcomes, 1).steps == trace + CaptchaLoop(maxCaptchaRetry, outcomes, attempt).steps
        decreases maxCaptchaRetry + 1 - attempt
      {
        var outcome, steps := RunCycle(cycles(attempt));
        assert CycleReport(outcome, steps) == outcomes(attempt);
        AppendAssociative(trace, steps, CaptchaLoop(maxCaptchaRetry, outcomes, attempt + 1).steps);
        trace := trace + steps;
        if outcome == Passed {
          r := Ok(true);
          break;
        }
        if attempt == maxCaptchaRetry {
          r := Err(CaptchaRetryMessage(attempt));
          break;
        }
        attempt := attempt + 1;
      }
      if attempt > maxCaptchaRetry {
        r := Ok(false);
      }
      CaptchaLoopMeaning(maxCaptchaRetry, cycles, solver.maxRetry);
    }

    /** `start_booking`: records the start time, waits for the sale when a
        start time is given, opens the buy page, chooses the show and the area,
        and runs the captcha cycles. A Ctrl+C ends in `FAILED` with "使用者中斷"
        and no end time; any other exception ends in `ERROR` with its message
        and an end time; success ends in `SUCCESS` with an end time. The
        duration reported then is everything slept on the way. */
    method StartBooking(b: BookingScript) returns (ok: bool, trace: seq<Action>)
      modifies this, clock
      ensures trace == BookingSpec(b, old(clock.now), solver.maxRetry, old(maxCaptchaRetry)).steps
      ensures clock.now == BookingSpec(b, old(clock.now), solver.maxRetry, old(maxCaptchaRetry)).clockAfter
      ensures history == old(history) + BookingSpec(b, old(clock.now), solver.maxRetry, old(maxCaptchaRetry)).statuses + [status]
      ensures ok <==> BookingSpec(b, old(clock.now), solver.maxRetry, old(maxCaptchaRetry)).outcome == Booked
      ensures startTime == Some(old(clock.now))
      ensures EndedWith(BookingSpec(b, old(clock.now), solver.maxRetry, old(maxCaptchaRetry)).outcome, old(endTime), old(errorMessage))
      ensures status != Failed ==> ReportStatus().durationMs == Some(SleptMs(trace))
      ensures !IsRunning() && (IsSuccess() <==> ok)
      ensures maxCaptchaRetry == old(maxCaptchaRetry)
    {
      ghost var now0 := clock.now;
      ghost var max0 := maxCaptchaRetry;
      startTime := Some(clock.now);
      trace := [];
      var outcome: BookingOutcome;
      ghost var statuses: seq<BotStatus> := [];
      outcome, trace, statuses := RunBooking(b);
      ghost var spec := BookingSpec(b, now0, solver.maxRetry, max0);
      assert outcome == spec.outcome && trace == spec.steps && clock.now == spec.clockAfter && statuses == spec.statuses;
      BookingDuration(b, now0, solver.maxRetry, max0, trace, clock.now);
      ghost var end0, message0 := endTime, errorMessage;
      ok := Conclude(outcome);
      assert EndedWith(outcome, end0, message0);
    }

    /** What `start_booking` leaves once its `try` block ended with `o`: the
        final status; an end time on success and on any exception but not on
        Ctrl+C; the exception's message on a crash, "使用者中斷" on Ctrl+C, and
        the old message on success. `endBefore` and `messageBefore` are the
        end time and message from before the call. */
    predicate EndedWith(o: BookingOutcome, endBefore: Option<int>, messageBefore: string)
      reads this, clock
    {
      status == FinalStatus(o)
      && (o == Booked ==> endTime == Some(clock.now) && errorMessage == messageBefore)
      && (o == Interrupted ==> endTime == endBefore && errorMessage == InterruptedMessage)
      && (o.Crashed? ==> endTime == Some(clock.now) && errorMessage == o.message)
    }

    /** The end of `start_booking` once its `try` block is over: success and
        any exception set the end time, Ctrl+C does not; an exception leaves
        its message, Ctrl+C "使用者中斷". */
    method Conclude(outcome: BookingOutcome) returns (ok: bool)
      modifies this
      ensures EndedWith(outcome, old(endTime), old(errorMessage))
      ensures history == old(history) + [status]
      ensures ok <==> outcome == Booked
      ensures startTime == old(startTime) && maxCaptchaRetry == old(maxCaptchaRetry)
    {
      match outcome {
        case Booked =>
          status := Success;
          endTime := Some(clock.now);
          ok := true;
        case Interrupted =>
          status := Failed;
          errorMessage := InterruptedMessage;
          ok := false;
        case Crashed(m) =>
          status := Error;
          errorMessage := m;
          endTime := Some(clock.now);
          ok := false;
      }
      history := history + [status];
    }

    /** The `try` block of `start_booking`, up to the exception or the success. */
    method RunBooking(b: BookingScript) returns (outcome: BookingOutcome, trace: seq<Action>, ghost statuses: seq<BotStatus>)
      modifies this, clock
      ensures BookingReport(outcome, statuses, trace, clock.now) == BookingSpec(b, old(clock.now), solver.maxRetry, old(maxCaptchaRetry))
      ensures history == old(history) + statuses
      ensures startTime == old(startTime) && endTime == old(endTime) && errorMessage == old(errorMessage)
      ensures maxCaptchaRetry == old(maxCaptchaRetry)
    {
      trace := [];
      statuses := [];
      if b.saleStart.Some? {
        if b.interruptAt == Some(AtWait) {
          return Interrupted, trace, statuses;
        }
        var refreshed;
        refreshed, trace := WaitUntilStartTime(b.saleStart, b.prepareMinutes, b.refreshRaises);
        statuses := [Waiting];
        if !refreshed {
          return Crashed(RefreshFailedMessage), trace, statuses;
        }
      }
      if b.interruptAt == Some(AtBuyPage) {
        return Interrupted, trace, statuses;
      }
      if b.buyHref.Raises? {
        return Crashed(BuyPageMessage), trace, statuses;
      }
      trace := trace + [Navigate(BuyUrl(b.buyHref.value))];
      if b.buyLoadRaises {
        return Crashed(BuyPageMessage), trace, statuses;
      }
      ghost var added;
      outcome, trace, added := RunFromShow(b, trace, statuses);
      statuses := statuses + added;
    }

    /** From the show step on (`ShowStage`). */
    method RunFromShow(b: BookingScript, trace0: seq<Action>, ghost statuses0: seq<BotStatus>)
      returns (outcome: BookingOutcome, trace: seq<Action>, ghost added: seq<BotStatus>)
      modifies this, clock
      ensures BookingReport(outcome, statuses0 + added, trace, clock.now) == ShowStage(b, statuses0, trace0, old(clock.now), solver.maxRetry, old(maxCaptchaRetry))
      ensures history == old(history) + added
      ensures startTime == old(startTime) && endTime == old(endTime) && errorMessage == old(errorMessage)
      ensures maxCaptchaRetry == old(maxCaptchaRetry)
    {
      trace := trace0;
      status := SelectingShow;
      history := history + [SelectingShow];
      added := [SelectingShow];
      if b.interruptAt == Some(AtShow) {
        return Interrupted, trace, added;
      }
      var shown, showSteps := ShowCall(b.game);
      trace := trace + showSteps;
      if !shown {
        return Crashed(ShowFailedMessage), trace, added;
      }
      ghost var rest;
      outcome, trace, rest := RunFromArea(b, trace, statuses0 + [SelectingShow]);
      added := [SelectingShow] + rest;
      assert statuses0 + added == statuses0 + [SelectingShow] + rest;
    }

    /** From the area step on (`AreaStage`). */
    method RunFromArea(b: BookingScript, trace0: seq<Action>, ghost statuses0: seq<BotStatus>)
      returns (outcome: BookingOutcome, trace: seq<Action>, ghost added: seq<BotStatus>)
      modifies this, clock
      ensures BookingReport(outcome, statuses0 + added, trace, clock.now) == AreaStage(b, statuses0, trace0, old(clock.now), solver.maxRetry, old(maxCaptchaRetry))
      ensures history == old(history) + added
      ensures startTime == old(startTime) && endTime == old(endTime) && errorMessage == old(errorMessage)
      ensures maxCaptchaRetry == old(maxCaptchaRetry)
    {
      trace := trace0;
      status := SelectingArea;
      history := history + [SelectingArea];
      added := [SelectingArea];
      if b.interruptAt == Some(AtArea) {
        return Interrupted, trace, added;
      }
      var entered, areaSteps := AreaStep(b);
      trace := trace + areaSteps;
      if !entered {
        return Crashed(AreaFailedMessage), trace, added;
      }
      ghost var rest;
      outcome, trace, rest := RunCaptchaStage(b, trace, statuses0 + [SelectingArea]);
      added := [SelectingArea] + rest;
      assert statuses0 + added == statuses0 + [SelectingArea] + rest;
    }

    /** `select_match_and_buy` as the booking sees it (`ShowStep`). */
    method ShowCall(page: GamePage) returns (shown: bool, steps: seq<Action>)
      ensures (shown, steps) == ShowStep(page)
    {
      var r;
      r, steps := SelectMatchAndBuy(page);
      shown := r.Ok?;
    }

    /** `select_area` with its sleeps applied to the clock when it returns. */
    method AreaStep(b: BookingScript) returns (entered: bool, steps: seq<Action>)
      modifies clock
      ensures entered <==> SelectAreaSpec(b.area, DefaultTicketValue, true).result.Ok?
      ensures steps == SelectAreaSpec(b.area, DefaultTicketValue, true).steps
      ensures clock.now == old(clock.now) + SleptMs(steps)
    {
      var area;
      area, steps := SelectArea(b.area, DefaultTicketValue);
      entered := area.Ok?;
      clock.Sleep(SleptMs(steps));
    }

    /** The captcha step (`CaptchaStage`). */
    method RunCaptchaStage(b: BookingScript, trace0: seq<Action>, ghost statuses0: seq<BotStatus>)
      returns (outcome: BookingOutcome, trace: seq<Action>, ghost added: seq<BotStatus>)
      modifies this, clock
      ensures BookingReport(outcome, statuses0 + added, trace, clock.now) == CaptchaStage(b, statuses0, trace0, old(clock.now), solver.maxRetry, old(maxCaptchaRetry))
      ensures added == [SolvingCaptcha] && history == old(history) + added
      ensures startTime == old(startTime) && endTime == old(endTime) && errorMessage == old(errorMessage)
      ensures maxCaptchaRetry == old(maxCaptchaRetry)
    {
      status := SolvingCaptcha;
      history := history + [SolvingCaptcha];
      added := [SolvingCaptcha];
      trace := trace0;
      if b.interruptAt == Some(AtCaptcha) {
        return Interrupted, trace, added;
      }
      var done, captchaSteps := HandleCaptchaWithRetry(b.cycles);
      // the sleeps of the captcha cycles are over when they return
      clock.Sleep(SleptMs(captchaSteps));
      trace := trace + captchaSteps;
      match done
      case Err(m) => outcome := Crashed(m);
      case Ok(passed) => outcome := if passed then Booked else Crashed(NotCompletedMessage);
    }
  }
}
