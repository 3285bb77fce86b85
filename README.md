# Ticket bot control core in Dafny

This project models the control logic of a Selenium ticket-buying bot for a
ticketing site. Each of its entry points drives the same purchase:

- wait for the sale to open, refresh the page at the opening time, and press
  "buy now";
- pick the first game with a buy button;
- pick a seating area whose label says it still has enough seats;
- choose the ticket quantity;
- read the image captcha with an OCR engine, refresh it when the reading is
  too short, fill it in and submit;
- start again when the site answers with a "wrong captcha" alert.

The entry points are the `TicketBot` class (ticket_bot.py, with the helpers in
purchase.py, captcha_solver.py and cookies.py), the stand-alone script
main.py, and the script test1.py. The generic `retry` decorator of
utils/retry.py is modelled as well.

The browser, the OCR engine and the clock are not modelled as code. They
become oracles passed in as parameters:

- what a page shows, and whether a click or a lookup raises, is a field of a
  page "script" datatype;
- what the n-th retry attempt sees is a total function `nat -> Script`;
- the time is a `Browser.Clock` object whose `Sleep` advances `now` by
  exactly the number of milliseconds asked for.

Every sleep is a `Pause` entry in the trace, and the clock moves by the total
of those pauses (`SaleSchedule.SleptMs`). The wait for the sale sleeps on the
clock directly. The pauses inside a later step (the back navigation of the
area page, the sleep after submitting, the alert, the captcha refresh) are
put on the clock when that step returns. Nothing reads the clock in between.
So the end time and the duration of `start_booking` count every second the
bot slept.

The calls that decide what the bot does next are recorded, in order, in a
returned trace of `Browser.Action`s: navigate, click, back, pause, refresh,
captcha download, OCR, fill, submit, accept an alert, add a cookie. Counting
trace entries (`Browser.Occurrences`) states how many times the bot submits,
downloads or refreshes. A few calls whose result the bot never branches on
are not traced; "## Left out" lists them.

Every loop of the source is a `method` with a `while` loop. Its postcondition
equates its result and trace with a recursive specification function. The
lemmas state the promised properties of those functions:

- the first success wins;
- attempts are bounded;
- submits happen at most once per cycle;
- the refresh lands within one polling step after the opening time.

Module layout:

| module | file | models |
|---|---|---|
| `Wrappers` | wrappers.dfy | Option/Result and the `Reply` of an oracle (returns or raises) |
| `PyText` | py_text.dfy | `str.strip`, `int()` on digit strings, `in` on strings |
| `Browser` | browser.dfy | the action alphabet, trace counting, the clock and the points where a Ctrl+C can land |
| `AreaLabel` | area_label.dfy | the sold-out / remaining / hot-selling reading of an area label |
| `Purchase` | purchase.dfy | purchase.py: game, area, ticket quantity, submit, captcha alert; the buy-link URL all three bots follow |
| `CaptchaPage` | captcha_page.dfy | captcha.py `refresh_captcha`, shared by the solver and test1.py |
| `CaptchaSolving` | captcha_solver.dfy | captcha_solver.py: the `CaptchaSolver` class |
| `SaleSchedule` | sale_schedule.dfy | the wait-for-sale polling shared by all entry points |
| `TicketBotCore` | ticket_bot.dfy | ticket_bot.py: the `TicketBot` class and its status machine |
| `Cookies` | cookies.dfy | cookies.py `load_cookies_json` and its copy in main.py |
| `RetryDecorator` | retry.dfy | utils/retry.py |
| `MainBot` | main_bot.dfy | main.py's `run` and its own captcha, area and submit steps |
| `Test1Bot` | test1_bot.dfy | test1.py's `run` and its captcha loop |

Where main.py and purchase.py differ only in the pauses between steps, a
single definition has a `pauses` flag. `MainBot.SameAreaAsPurchase` proves
that both variants pick the same area and make the same moves.

## Model

| member | source | states |
|---|---|---|
| PyText.StripSpec | ticketbot/captcha_solver.py:135 | `Strip` removes exactly the leading and trailing white space: the result is a slice of the input with no white space at either end, and everything dropped is white space |
| PyText.IntStringRoundTrip | ticketbot/purchase.py:114-116 | the decimal string of n is all digits and reads back as n |
| PyText.ParseIntOfIntString | ticketbot/purchase.py:100 | `int()` of the decimal string of n is n |
| AreaLabel.SoldOutNeverAttempted | ticketbot/purchase.py:109-111 | a label containing the sold-out mark is classified SoldOut and never attempted, whatever else it says |
| AreaLabel.UnmarkedSkipped | ticketbot/purchase.py:126-128 | a label with neither mark is skipped |
| AreaLabel.HotSellingAttempted | ticketbot/purchase.py:123-124 | a hot-selling label without the other marks is attempted |
| AreaLabel.UnreadableRemainingAttempted | ticketbot/purchase.py:113-121 | a "remaining" label whose count cannot be read falls through and is attempted |
| AreaLabel.RemainingLabelReadsCount | ticketbot/purchase.py:114-116 | the label "remaining n" is read back as exactly n |
| AreaLabel.RemainingBoundary | ticketbot/purchase.py:116-121 | "remaining n" is attempted iff n ≥ the wanted ticket count (both directions) |
| Purchase.FirstUrl | ticketbot/purchase.py:45-52 | the index returned is the first non-empty buy URL at or after i; None means every later URL is empty |
| Purchase.SelectMatchAndBuy | ticketbot/purchase.py:20-59 | no game list → GameListMissing, no usable button → NoBuyButton, both without browser actions; otherwise it navigates to the first non-empty URL |
| Purchase.HandleArea | ticketbot/purchase.py:103-178 | entering one area (skip, open, probe the ticket list, go back after an error) gives the outcome and moves of the per-area specification |
| Purchase.TryAreasInOrder | ticketbot/purchase.py:103-178 | the loop over areas equals the recursive selection specification |
| Purchase.SelectArea | ticketbot/purchase.py:62-185 | `select_area` equals its specification and any chosen index is a real area |
| Purchase.SelectFromWinner | ticketbot/purchase.py:103-178 | the chosen area is the first one that was entered; when none is chosen, no area was entered |
| Purchase.SelectFromTrace | ticketbot/purchase.py:103-178 | the trace is exactly the moves of the areas up to and including the winner (all of them when none wins) |
| Purchase.NothingAttemptedNothingTouched | ticketbot/purchase.py:108-128 | when no label qualifies and every link reads, the loop makes no browser move and chooses nothing |
| Purchase.AllSoldOutFails | ticketbot/purchase.py:179-185 | a page whose areas are all sold out fails with AllAreasFailed and no browser action |
| Purchase.SoldOutAreaUntouched | ticketbot/purchase.py:109-111 | a sold-out area is skipped without any browser action |
| Purchase.FailedProbeBackRule | ticketbot/purchase.py:148-172 | a shown ticket list is abandoned without going back; a shown error message makes exactly one Back |
| Purchase.AbandonedAreaIsolated | ticketbot/purchase.py:103-178 | replacing an area that is not entered by another area that is not entered leaves the winner unchanged |
| Purchase.SelectAreaMoves | ticketbot/purchase.py:62-185 | area selection only clicks, navigates, goes back or pauses: it never submits or touches the captcha |
| Purchase.QuantityRule | ticketbot/purchase.py:228-245 | the wanted quantity is chosen when offered; otherwise the largest positive digit option; otherwise "0" |
| Purchase.TicketOutcome | ticketbot/purchase.py:188-265 | success iff the form is loaded, has a select and the chosen quantity is one of its options; the chosen value is then an option |
| Purchase.SelectTickets | ticketbot/purchase.py:188-265 | `select_tickets` succeeds with an offered option only when ticking the agree box does not raise; an offered wanted quantity is chosen as is |
| Purchase.HandleCaptchaErrorAlert | ticketbot/purchase.py:300-338 | reports a wrong captcha iff an alert is shown and accepting it does not raise, and does nothing when no alert is shown |
| Purchase.AlertCalls | ticketbot/purchase.py:300-338 | accepts the alert exactly once when one is shown and never otherwise; its only other call is the sleep after accepting |
| CaptchaSolving.RetryLimit | ticketbot/captcha_solver.py:39-55 | a missing or zero `max_retry` falls back to the default 5; any other value is kept |
| CaptchaSolving.Solve | ticketbot/captcha_solver.py:106-149 | succeeds iff an image is available and the stripped first OCR text has at least 4 characters, returning that text; no OCR text is always an error |
| CaptchaPage.RefreshCaptchaOutcome | ticketbot/captcha.py:86-108 | a click, a script click iff the click raises, and the pause iff one of them works; the refresh raises iff both clicks raise |
| CaptchaPage.RefreshClicksOnce | ticketbot/captcha.py:86-108 | a refresh records exactly one image-click entry (the find-and-click of the image, see "Left out"), whichever way it goes, and never downloads |
| CaptchaPage.RefreshAvoids | ticketbot/captcha.py:86-108 | a refresh performs nothing but the click, the script click and the half-second sleep |
| CaptchaSolving.SolveCallCounts | ticketbot/captcha_solver.py:106-149 | downloads once exactly when no path is given, never clicks for a new image, and makes no call besides the download and the recognition |
| CaptchaSolving.AttemptIsSolveWithoutPath | ticketbot/captcha_solver.py:217-264 | one retry attempt is `solve()` with a fresh download: exactly one download, no refresh click |
| CaptchaSolving.SolverRefresh | ticketbot/captcha_solver.py:180-202 | the solver's refresh succeeds iff captcha.py's refresh does, and otherwise raises "刷新驗證碼失敗" |
| CaptchaSolving.SolverRefreshCount | ticketbot/captcha_solver.py:180-202 | the solver's refresh records exactly one image-click entry whether or not it raises, and makes no other call apart from the script-click fallback and its sleep |
| CaptchaSolving.RetryStepCount | ticketbot/captcha_solver.py:226-253 | a failed attempt's pass is its own calls, then the refresh, then the rest of the loop |
| CaptchaSolving.RetryReturnsFirstPass | ticketbot/captcha_solver.py:217-264 | when attempt k is the first to read, the loop returns its text after k−i+1 downloads and k−i refresh clicks |
| CaptchaSolving.RetryExhausted | ticketbot/captcha_solver.py:217-264 | when every attempt fails, the loop raises with the last attempt's error after max_retry downloads and one refresh click fewer |
| CaptchaSolving.RetryBounded | ticketbot/captcha_solver.py:217-264 | never more than max_retry downloads; any returned text was read by one attempt |
| CaptchaSolving.RetryAvoids | ticketbot/captcha_solver.py:217-264 | a call no attempt makes, other than the refresh's clicks and sleep, never occurs in the loop |
| CaptchaSolving.RetryAgrees | ticketbot/captcha_solver.py:246-253 | two loops whose attempts fail and pass alike agree on the result and on every call but the script-click fallback and its sleep |
| CaptchaSolving.RefreshFailureTolerated | ticketbot/captcha_solver.py:246-253 | a refresh that raises is only logged: however the refresh clicks go, the result is the same and every call but the fallback click and its sleep occurs as often |
| CaptchaSolving.SolveAndFillLongText | ticketbot/captcha_solver.py:303-328 | a filled captcha has at least 4 characters and the fill is the last action |
| CaptchaSolving.AsWrittenAttempt | ticketbot/captcha_solver.py:80-95 | `get_image` as written always fails: the attempt's download raises, the rest is unchanged |
| CaptchaSolving.AsWrittenSolveNeverSucceeds | ticketbot/captcha_solver.py:80-95 | with `get_image` as written the retry loop raises the download error after one download per attempt, OCR never runs, and nothing is filled in |
| CaptchaSolving.WorkingDownloadSolves | ticketbot/captcha_solver.py:217-264 | with a working download, a first OCR text of at least 4 characters is the text typed in |
| CaptchaSolving.VerifyAndHandleError | ticketbot/captcha_solver.py:265-302 | the captcha is rejected iff the check does not return or the alert is shown and accepted; a rejection always carries a message, an acceptance never does |
| CaptchaSolving.CaptchaSolver.constructor | ticketbot/captcha_solver.py:39-55 | the retry limit is `RetryLimit` of the argument, never 0 |
| CaptchaSolving.CaptchaSolver.SetMaxRetry | ticketbot/captcha_solver.py:350-357 | sets the limit and changes nothing else |
| CaptchaSolving.CaptchaSolver.SolveWithRetry | ticketbot/captcha_solver.py:217-264 | the retry loop equals its specification; returned text has at least 4 characters |
| CaptchaSolving.CaptchaSolver.SolveAndFill | ticketbot/captcha_solver.py:303-328 | solve then fill; on success the filled text is the last action |
| SaleSchedule.PollsShape | ticketbot/ticket_bot.py:251-265 | the polling loop sleeps 15 s or 1 s, then refreshes exactly once as its last action; the refresh time is the start time plus the total sleep |
| SaleSchedule.PollsLandOnTime | ticketbot/ticket_bot.py:251-265 | the refresh happens at or after the opening time and less than one fine step after it |
| SaleSchedule.CoarseSleepsEndBeforeStart | ticketbot/ticket_bot.py:251-265 | the clock reading after any 15 s sleep of the polling loop is still more than 15 s before the opening |
| SaleSchedule.SleptMsNoPause | ticketbot/ticket_bot.py:251-265 | a trace without sleeps takes no time |
| SaleSchedule.WaitClock | ticketbot/ticket_bot.py:225-265 | the wait, with or without a start time, moves the clock by exactly what it sleeps |
| SaleSchedule.NoStartTimeRefreshesAtOnce | ticketbot/ticket_bot.py:233-236 | without a start time the bot refreshes at once and does not sleep |
| SaleSchedule.WaitShape | ticketbot/ticket_bot.py:225-265 | before the prepare time, one long sleep up to it, then the polling sleeps, then one refresh |
| SaleSchedule.PollsOnlySleepsAndRefresh | ticketbot/ticket_bot.py:251-265 | the polling loop calls nothing but sleeps and the refresh |
| SaleSchedule.WaitOnlySleepsAndRefresh | ticketbot/ticket_bot.py:225-265 | the whole wait calls nothing but sleeps and the refresh |
| SaleSchedule.WaitLandsOnTime | ticketbot/ticket_bot.py:225-265 | with a start time, the refresh lands in [start, start + fine step) |
| SaleSchedule.WaitForSale | ticketbot/main.py:595-621 | the waiting code equals the wait plan, and the clock ends at its refresh time |
| TicketBotCore.BookingStatusesRunning | ticketbot/ticket_bot.py:360-428 | every status the booking sets before its final one is a running status (not IDLE, SUCCESS, FAILED or ERROR), so `is_running` (472-486) holds from the first status it sets until the end (see "Left out" for the step before it) |
| TicketBotCore.PassedCycle | ticketbot/ticket_bot.py:307-359 | a passing cycle chose tickets, filled a captcha of at least 4 characters, submitted without an error, and submitted exactly once |
| TicketBotCore.CaptchaLoopResult | ticketbot/ticket_bot.py:307-359 | the loop returns True iff some cycle up to the limit passes, False iff it runs no cycle, and otherwise raises the retry message |
| TicketBotCore.CaptchaLoopStopsAtFirstPass | ticketbot/ticket_bot.py:307-359 | the cycles run are exactly those up to the first passing one |
| TicketBotCore.BookedPath | ticketbot/ticket_bot.py:360-428 | a booked run was not interrupted, refreshed, reached the buy page, showed the game, entered an area and passed a captcha cycle; its statuses run through the booking stages |
| TicketBotCore.NoCycleNotCompleted | ticketbot/ticket_bot.py:399-413 | with a captcha retry limit below 1 the loop runs nothing and the booking is never a success |
| TicketBotCore.CrashMessages | ticketbot/ticket_bot.py:360-428 | every crash carries one of the step failure messages or the retry message |
| TicketBotCore.CaptchaStageClock | ticketbot/ticket_bot.py:307-359 | the captcha step moves the clock by exactly what it sleeps |
| TicketBotCore.ShowStageClock | ticketbot/ticket_bot.py:388-413 | from the show step on, the clock moves by exactly what is slept |
| TicketBotCore.BookingClock | ticketbot/ticket_bot.py:360-428 | the clock at the end of the booking is the start reading plus everything slept; it never runs backwards, and after a wait it is no earlier than the sale start |
| TicketBotCore.AsWrittenCycleRaises | ticketbot/captcha_solver.py:80-95 | with `get_image` as written every captcha cycle raises before submitting |
| TicketBotCore.AsWrittenNeverBooks | ticketbot/captcha_solver.py:80-95 | with `get_image` as written `start_booking` never succeeds |
| TicketBotCore.TicketBot.constructor | ticketbot/ticket_bot.py:69-112 | a new bot is IDLE with no error, no times, the configured captcha retry (default 5) and a solver with the default OCR limit |
| TicketBotCore.TicketBot.Reset | ticketbot/ticket_bot.py:487-495 | back to IDLE with no error and no times; the retry setting is kept; the bot is then not running |
| TicketBotCore.TicketBot.WaitUntilStartTime | ticketbot/ticket_bot.py:225-270 | follows the wait plan with 1 s fine steps; WAITING only when a start time is given; nothing else changes |
| TicketBotCore.TicketBot.HandleCaptchaWithRetry | ticketbot/ticket_bot.py:307-359 | equals the loop specification: True iff a cycle passes within the limit, False iff the limit is below 1 |
| TicketBotCore.CaptchaStageStatuses | ticketbot/ticket_bot.py:397-425 | the captcha step sets SOLVING_CAPTCHA and no other status before the final one, however the loop ends |
| TicketBotCore.CaptchaLoopMeaning | ticketbot/ticket_bot.py:307-359 | the captcha loop returns False iff the retry limit is below 1, and True iff some cycle within the limit passes |
| TicketBotCore.BookingDuration | ticketbot/ticket_bot.py:360-428 | from its start to its end the booking's clock moves by exactly the milliseconds it sleeps |
| TicketBotCore.TicketBot.Conclude | ticketbot/ticket_bot.py:400-425 | success sets SUCCESS and the end time and keeps the message; Ctrl+C sets FAILED and "使用者中斷" and keeps the end time; any other exception sets ERROR, its message and the end time; True iff success |
| TicketBotCore.TicketBot.StartBooking | ticketbot/ticket_bot.py:360-428 | the trace, clock and statuses follow the booking specification; True iff booked; SUCCESS, interruption and crash set end time and error message as the source does; after SUCCESS or ERROR the duration in `get_status` (429-453) is everything slept; afterwards `is_running` (472-486) is false and `is_success` (463-470) holds iff it returned True |
| TicketBotCore.TicketBot.RunBooking | ticketbot/ticket_bot.py:378-413 | the stages in order (wait, buy page, show, area, captcha) equal the booking specification |
| Cookies.AddStepsExactlyUnexpired | ticketbot/cookies.py:45-52 | a cookie is offered to the browser iff it is not expired (expiry in seconds against the clock in milliseconds) |
| Cookies.AddStepsOnlyAdd | ticketbot/cookies.py:45-54 | loading cookies makes no call but adding the listed cookies |
| Cookies.AddedAtMostCalls | ticketbot/cookies.py:45-54 | the count of added cookies never exceeds the add calls, and equals it when no add raises |
| Cookies.AddedPositive | ticketbot/cookies.py:56-61 | the count is positive iff some unexpired cookie was accepted |
| Cookies.AddValidCookies | ticketbot/cookies.py:42-54 | the loop makes the add calls and counts the adds that succeeded |
| Cookies.LoadCookiesJson | ticketbot/cookies.py:17-61 | missing file → False, no action; malformed → raises (cookies.py) or False (main.py); otherwise True iff a cookie was added |
| RetryDecorator.WrapperShape | ticketbot/utils/retry.py:17-28 | calls alternate with sleeps, never more than max_attempts calls, and None is returned iff no call was made |
| RetryDecorator.FirstSuccessReturned | ticketbot/utils/retry.py:17-28 | the first returning call's value is returned after k−i+1 calls |
| RetryDecorator.ReturnedIsFirstSuccess | ticketbot/utils/retry.py:17-28 | a returned value comes from a call preceded only by caught failures |
| RetryDecorator.AllCaughtReraisesLast | ticketbot/utils/retry.py:17-28 | when every call fails, the last failure is re-raised after max_attempts calls |
| RetryDecorator.UncaughtPropagates | ticketbot/utils/retry.py:17-28 | an exception that is not listed leaves at once |
| RetryDecorator.Wrapper | ticketbot/utils/retry.py:17-28 | the wrapper's loop equals its specification |
| MainBot.RefreshCaptchaSteps | ticketbot/main.py:207-219 | records one image-click entry (the find-and-click, see "Left out"), and falls back to a script click iff that find-and-click raises |
| MainBot.AttemptOnce | ticketbot/main.py:231-262 | an attempt reads text iff OCR ran and the stripped first text has at least 4 characters; it downloads exactly once |
| MainBot.SolveText | ticketbot/main.py:222-268 | the text returned is the first attempt's that read; None iff no attempt up to 5 read |
| MainBot.SolveDownloads | ticketbot/main.py:222-268 | at most 5 downloads, exactly 5 when nothing is read |
| MainBot.SolveRefreshAfterOcr | ticketbot/main.py:222-268 | the image is refreshed only after an OCR run |
| MainBot.SolveRefreshesBetweenAttempts | ticketbot/main.py:222-268 | when every OCR reads too little, 5 recognitions and 4 refreshes |
| MainBot.NoImageNoRefresh | ticketbot/main.py:222-268 | when OCR never runs, 5 downloads, no refresh and no text |
| MainBot.SolveNoSubmit | ticketbot/main.py:222-268 | the captcha loop never submits |
| MainBot.SolveCaptchaText | ticketbot/main.py:222-268 | the returned text is the stripped OCR text of the first recognised attempt, with at least 4 characters; None iff none is recognised |
| MainBot.SolveCaptcha | ticketbot/main.py:222-268 | no captcha image raises; otherwise the solve loop's text is returned |
| MainBot.SameAreaAsPurchase | ticketbot/main.py:334-441 | main.py picks the same area as purchase.py, with the same moves minus the pauses |
| MainBot.SelectArea | ticketbot/main.py:334-441 | success iff the area specification chooses an area, which was then really entered |
| MainBot.SelectTicketsOk | ticketbot/main.py:444-512 | success iff the form is loaded, has a select, and the chosen quantity is an option; the agree box cannot fail it |
| MainBot.StartBuy | ticketbot/main.py:282-299 | success iff the buy link is found and the navigation does not raise; it navigates once to the buy URL |
| MainBot.CycleSubmitsOnce | ticketbot/main.py:641-676 | one submit cycle submits at most once, and exactly once when it reaches the alert check |
| MainBot.SubmitLoopStopsAtFirst | ticketbot/main.py:641-676 | the loop stops at the first pass without an accepted alert, with that pass's ending |
| MainBot.AlertEveryPassStillCompletes | ticketbot/main.py:641-676 | when every pass gets an alert, the loop ends after 5 passes as completed |
| MainBot.SubmitLoopBounded | ticketbot/main.py:641-676 | never more than 5 submits |
| MainBot.SubmitCycles | ticketbot/main.py:641-676 | the loop equals its specification |
| MainBot.RunSubmitsBounded | ticketbot/main.py:570-676 | the whole run submits at most 5 times, and only when "buy", the show and the area all succeeded |
| MainBot.RunWaitLandsOnTime | ticketbot/main.py:595-621 | with a start time, the single refresh is the last wait step and lands in [start, start + 500 ms) |
| MainBot.Run | ticketbot/main.py:570-685 | the whole run equals its specification; the clock moves by exactly what the run sleeps and ends no earlier than the refresh time |
| Test1Bot.ReadAttempt | ticketbot/test1.py:91-110 | a failed download is reported as such; otherwise text is read iff the stripped first OCR text has at least 4 characters |
| Test1Bot.SolveFirstReadable | ticketbot/test1.py:70-119 | the first readable attempt's text is returned after k−i+1 downloads and k−i refreshes |
| Test1Bot.AllUnreadableRaises | ticketbot/test1.py:70-119 | when no attempt reads, recognition fails after 5 downloads and 4 refreshes |
| Test1Bot.DownloadFailurePropagates | ticketbot/test1.py:70-119 | a failed download ends the solve with that error, after one download per attempt up to it |
| Test1Bot.DownloadFailureLast | ticketbot/test1.py:70-119 | the failed download is the last call of the solve: no OCR, refresh or further attempt follows it |
| Test1Bot.SolveResultIsReading | ticketbot/test1.py:70-119 | a returned text is the reading of an attempt preceded only by unreadable ones |
| Test1Bot.SolveCaptcha | ticketbot/test1.py:70-119 | the solve loop equals its specification |
| Test1Bot.PassSubmitsOnce | ticketbot/test1.py:195-222 | one pass submits at most once, and exactly once when it reaches the alert check |
| Test1Bot.CycleStopsAtFirst | ticketbot/test1.py:195-222 | the cycle stops at the first pass that is not rejected, with its ending |
| Test1Bot.AlertEveryPassRaises | ticketbot/test1.py:195-222 | when every pass is rejected, the cycle raises "retries exhausted" after 5 passes |
| Test1Bot.CycleCompletes | ticketbot/test1.py:195-222 | the cycle completes iff some pass within 5 passes and every earlier one was rejected |
| Test1Bot.CycleSubmitsBounded | ticketbot/test1.py:195-222 | never more than 5 submits |
| Test1Bot.CaptchaCycle | ticketbot/test1.py:195-222 | the cycle loop equals its specification |
| Test1Bot.CompletedRunPassed | ticketbot/test1.py:161-231 | a completed run reached the captcha cycle, and a pass within 5 passed after only rejected ones |
| Test1Bot.InterruptStops | ticketbot/test1.py:227-231 | an interrupted run was interrupted at some stage; one interrupted at the buy page did nothing after the wait |
| Test1Bot.RunSubmitsBounded | ticketbot/test1.py:161-231 | a run submits at most 5 times, and never when it does not reach the cycle |
| Test1Bot.WaitHasNoSubmit | ticketbot/test1.py:121-159 | the wait never submits |
| Test1Bot.WaitUntilStartTime | ticketbot/test1.py:121-159 | follows the wait plan with 0.5 s steps and ends with its only refresh, landing in [start, start + 500 ms) |
| Test1Bot.Run | ticketbot/test1.py:161-231 | the whole run equals its specification; the clock moves by exactly what the run sleeps and, unless interrupted while waiting, ends no earlier than the refresh time |

## Left out

- Selenium, the OCR engine and the file system are not modelled as code. What they answer is a parameter, and what the bot does to them is a trace entry.
- Time is integer milliseconds. The source's float seconds and `datetime` arithmetic are not modelled.
- Digits are ASCII only. Python's `\d` and `int()` also accept other Unicode digits and underscores.
- OCR lower-casing and image saving happen inside the OCR oracle.
- The automatic seat-assignment radio button in the area pages is not modelled.
- Exceptions raised by the first `driver.get`, the page refresh or the driver setup in main.py and test1.py are not modelled. main.py catches and logs any exception, which the model reports as `Crashed`.
- The interactive manual login (`input()`) and saving cookies are left out. main.py refreshes whether or not cookies were loaded.
- `set_target`, `load_login_session`, `get_ocr_stats`, `get_status`, logging and the download internals of captcha.py are left out: they only read configuration, count or log. `fill_captcha` is the `FillCaptcha` entry, which may raise, and `get_image` is the `DownloadCaptcha` entry of each attempt.
- Some browser calls are not traced, because the bot never branches on what they return: `select_by_value` on the quantity select (purchase.py:232-245, main.py:486-500), the agree-box click (purchase.py:252-258) and the `WebDriverWait` waits. A failure in the agree box is modelled, as the form's `agreeRaises`.
- A `ClickCaptcha` entry stands for finding the captcha image and clicking it (ticketbot/captcha.py:96-97, ticketbot/main.py:210-211). Both happen inside one `try`, so when `find_element` raises the entry is still recorded, although nothing was clicked.
- A `ScriptClickCaptcha` entry likewise stands for finding the image again and clicking it by script (ticketbot/captcha.py:101-103, ticketbot/main.py:214-216). It is recorded even when that second `find_element` raises and nothing is clicked.
- `TicketBotCore.BookingStatusesRunning`: `start_booking` sets no status before the buy-page step (ticketbot/ticket_bot.py:371-384). Without a start time, that step runs under the status the bot had before the call (IDLE, or the SUCCESS, FAILED or ERROR of an earlier booking), in which `is_running` is false. The lemma covers only the statuses the booking itself sets.
- A `Submit` entry stands for the call of `submit_booking`. When that call raises, the entry is still recorded, although the button may not have been found and nothing clicked.
- `CaptchaSolving.CaptchaSolver.constructor`: the `ocrReady` flag (whether the OCR reader loaded) is recorded but has no effect on the modelled behaviour.
- `TicketBotCore.TicketBot.RunBooking`: a `KeyboardInterrupt` is modelled only at the start of a stage, not in the middle of one.
- `Test1Bot.Run`: a `KeyboardInterrupt` is modelled only at the start of a stage (test1.py:227-231), not in the middle of one, and during the wait only when a start time is given.
- The default of the optional `RETRY_LIMIT` setting in config2.py is not part of this model. The captcha solver's built-in default of 5 is used.

## Findings

| source | as written | input that shows it | evidently intended | confidence | as-written member | corrected member |
|---|---|---|---|---|---|---|
| ticketbot/captcha_solver.py:88 | `get_image` calls `captcha.download_captcha_image(self.driver, max_keep=5)`, but captcha.py:21 declares `download_captcha_image(driver)` with no `max_keep` parameter. Every call raises a TypeError, which the handler turns into "下載驗證碼圖片失敗". | any page, any OCR answer: every attempt of `solve_with_retry` fails at the download, so `solve_and_fill` always raises and no captcha cycle of `start_booking` can pass | download the image (passing only the driver, or adding `max_keep` to the helper) and recognise it | high (the call cannot bind its arguments); not executed | CaptchaSolving.AsWrittenSolveNeverSucceeds | CaptchaSolving.WorkingDownloadSolves |
