/** main.py: the single-file `TixcraftBot`. Its area and ticket choices follow
    the same rules as purchase.py but report failure as `False`; it keeps its
    own captcha loop (download, save, OCR, refresh by clicking the image) and a
    `run` that logs in, waits for the sale and submits at most five times. */
module MainBot {
  import opened Wrappers
  import opened PyText
  import opened Browser
  import opened Purchase
  import opened Cookies
  import opened SaleSchedule

  /** `MAX_OCR_RETRY` of main.py. */
  const OcrAttemptLimit: int := 5

  /** `MAX_RETRIES` of the submission loop in `run`. */
  const SubmitAttemptLimit: nat := 5

  /** `TICKET_VALUE` of main.py. */
  const TicketValue: string := "2"

  /** `GAME_URL` of main.py. */
  const GameUrl: string := "https://tixcraft.com/activity/detail/25_yama"

  // ---------------------------------------------------------------------------
  // refresh_captcha

  /** `refresh_captcha`: finding and clicking the captcha image (one
      `ClickCaptcha` entry) and, only when that raises, a JavaScript click; a failure of that one is only logged, so the
      method never raises. */
  function RefreshCaptchaSteps(clickRaises: bool): (steps: seq<Action>)
    ensures |steps| >= 1 && steps[0] == ClickCaptcha
    ensures ScriptClickCaptcha in steps <==> clickRaises
    ensures Occurrences(steps, ClickCaptcha) == 1
  {
    if clickRaises then
      OccurrencesSplit([ClickCaptcha, ScriptClickCaptcha], [ClickCaptcha], [ScriptClickCaptcha], [], ClickCaptcha);
      OccurrencesOne(ClickCaptcha, ClickCaptcha);
      OccurrencesOne(ScriptClickCaptcha, ClickCaptcha);
      [ClickCaptcha, ScriptClickCaptcha]
    else
      OccurrencesOne(ClickCaptcha, ClickCaptcha);
      [ClickCaptcha]
  }

  // ---------------------------------------------------------------------------
  // solve_captcha

  /** One attempt as the outside world plays it: whether the image could be
      fetched (by HTTP or, failing that, by a screenshot), whether writing it
      to a file worked, the OCR texts (empty when the engine reads nothing or
      fails), and whether the plain click of a following refresh raises. */
  datatype MainOcrAttempt = MainOcrAttempt(fetched: bool, saved: bool, ocr: seq<string>, clickRaises: bool)

  /** The attempt reached the OCR engine. */
  predicate OcrRan(a: MainOcrAttempt) {
    a.fetched && a.saved
  }

  /** The attempt produced an acceptable text: the first OCR result, stripped,
      has at least four characters. */
  predicate Recognised(a: MainOcrAttempt) {
    OcrRan(a) && a.ocr != [] && |Strip(a.ocr[0])| >= 4
  }

  /** The calls one attempt makes: download, then save if there is an image,
      then OCR if it was saved. */
  function AttemptSteps(a: MainOcrAttempt): seq<Action> {
    [DownloadCaptcha] + (if a.fetched then [SaveCaptcha] else []) + (if OcrRan(a) then [RecognizeCaptcha] else [])
  }

  /** Per-attempt counts: one download, one OCR run exactly when the image was
      fetched and saved, no refresh of its own, and no submit. */
  lemma AttemptCounts(a: MainOcrAttempt)
    ensures Occurrences(AttemptSteps(a), DownloadCaptcha) == 1
    ensures Occurrences(AttemptSteps(a), RecognizeCaptcha) == (if OcrRan(a) then 1 else 0)
    ensures Occurrences(AttemptSteps(a), ClickCaptcha) == 0
    ensures Submit !in AttemptSteps(a)
  {
    var save: seq<Action> := if a.fetched then [SaveCaptcha] else [];
    var ocr: seq<Action> := if OcrRan(a) then [RecognizeCaptcha] else [];
    forall x | x in {DownloadCaptcha, RecognizeCaptcha, ClickCaptcha}
      ensures Occurrences(AttemptSteps(a), x) == Occurrences([DownloadCaptcha], x) + Occurrences(save, x) + Occurrences(ocr, x)
    {
      OccurrencesSplit(AttemptSteps(a), [DownloadCaptcha], save, ocr, x);
      OccurrencesOne(DownloadCaptcha, x);
      OccurrencesOne(SaveCaptcha, x);
      OccurrencesOne(RecognizeCaptcha, x);
    }
  }

  /** What one attempt yields to the loop: the accepted text, if any, whether
      the OCR engine ran, whether a following plain click raises, and its calls. */
  datatype AttemptReport = AttemptReport(text: Option<string>, ocrRan: bool, clickRaises: bool, steps: seq<Action>)

  function AttemptOnce(a: MainOcrAttempt): (r: AttemptReport)
    ensures r.text.Some? <==> Recognised(a)
    ensures r.text.Some? ==> r.text.value == Strip(a.ocr[0]) && |r.text.value| >= 4
    ensures r.ocrRan == OcrRan(a) && r.clickRaises == a.clickRaises && r.steps == AttemptSteps(a)
  {
    AttemptReport(if Recognised(a) then Some(Strip(a.ocr[0])) else None, OcrRan(a), a.clickRaises, AttemptSteps(a))
  }

  /** What each attempt of the loop yields, attempt by attempt. */
  function AttemptOutcomes(attempts: nat -> MainOcrAttempt): nat -> AttemptReport {
    (k: nat) => AttemptOnce(attempts(k))
  }

  /** An attempt downloads once, runs OCR once exactly when `ocrRan`, makes no
      refresh or submit of its own, and only accepts a text of at least four
      characters read by the OCR engine. */
  ghost predicate WellFormedAttempt(o: AttemptReport) {
    Occurrences(o.steps, DownloadCaptcha) == 1
    && Occurrences(o.steps, RecognizeCaptcha) == (if o.ocrRan then 1 else 0)
    && Occurrences(o.steps, ClickCaptcha) == 0
    && Submit !in o.steps
    && (o.text.Some? ==> o.ocrRan && |o.text.value| >= 4)
  }

  /** Every attempt of the loop is well formed. */
  ghost predicate WellFormedAttempts(outcomes: nat -> AttemptReport) {
    forall k :: WellFormedAttempt(outcomes(k))
  }

  lemma AttemptOutcomesWellFormed(attempts: nat -> MainOcrAttempt)
    ensures WellFormedAttempts(AttemptOutcomes(attempts))
  {
    forall k ensures WellFormedAttempt(AttemptOutcomes(attempts)(k)) {
      assert AttemptOutcomes(attempts)(k) == AttemptOnce(attempts(k));
      AttemptCounts(attempts(k));
    }
  }

  /** The text `solve_captcha` returns (`None` for `(False, "")`), and its calls. */
  datatype MainSolveReport = MainSolveReport(text: Option<string>, steps: seq<Action>)

  /** The refresh after attempt `k` found no text: only after an OCR run, and
      not after the last attempt. */
  function RetryRefresh(o: AttemptReport, k: nat): seq<Action> {
    if o.ocrRan && k < OcrAttemptLimit then RefreshCaptchaSteps(o.clickRaises) else []
  }

  /** The attempt loop of `solve_captcha` from attempt `k` on. A missing image
      or a failed save goes straight to the next attempt; a rejected OCR text
      refreshes the image first, unless it was the last attempt. */
  function SolveFrom(outcomes: nat -> AttemptReport, k: nat): MainSolveReport
    requires k >= 1
    decreases OcrAttemptLimit + 1 - k
  {
    if k > OcrAttemptLimit then MainSolveReport(None, [])
    else
      var o := outcomes(k);
      if o.text.Some? then MainSolveReport(o.text, o.steps)
      else
        var rest := SolveFrom(outcomes, k + 1);
        MainSolveReport(rest.text, o.steps + RetryRefresh(o, k) + rest.steps)
  }

  /** The text of the loop from attempt `i` is the text of the first attempt
      that accepts one; no text means no attempt accepted one. */
  lemma {:induction false} SolveText(outcomes: nat -> AttemptReport, i: nat)
    requires i >= 1
    ensures var r := SolveFrom(outcomes, i);
      (r.text.Some? ==>
         exists k :: i <= k <= OcrAttemptLimit && outcomes(k).text == r.text
                     && forall j :: i <= j < k ==> outcomes(j).text.None?)
      && (r.text.None? <==> forall j :: i <= j <= OcrAttemptLimit ==> outcomes(j).text.None?)
    decreases OcrAttemptLimit + 1 - i
  {
    var r := SolveFrom(outcomes, i);
    if i <= OcrAttemptLimit {
      if outcomes(i).text.Some? {
        assert r.text == outcomes(i).text;
      } else {
        SolveText(outcomes, i + 1);
        assert r.text == SolveFrom(outcomes, i + 1).text;
        if r.text.Some? {
          var k :| i + 1 <= k <= OcrAttemptLimit && outcomes(k).text == r.text
                   && forall j :: i + 1 <= j < k ==> outcomes(j).text.None?;
          assert forall j :: i <= j < k ==> outcomes(j).text.None?;
        }
      }
    }
  }

  /** How often `x` occurs in the loop from attempt `i`, counted attempt by
      attempt: each attempt's own calls, and the refresh after one that
      finds no text. */
  ghost function AttemptTally(outcomes: nat -> AttemptReport, i: nat, x: Action): nat
    decreases OcrAttemptLimit + 1 - i
  {
    if i > OcrAttemptLimit then 0
    else
      var o := outcomes(i);
      if o.text.Some? then Occurrences(o.steps, x)
      else Occurrences(o.steps, x) + Occurrences(RetryRefresh(o, i), x) + AttemptTally(outcomes, i + 1, x)
  }

  /** One pass of the loop body that finds no text: the attempt's calls, the
      refresh and the rest of the loop, so the tally of the rest of the loop
      carries over to the loop from this attempt. */
  lemma SolvePassCount(outcomes: nat -> AttemptReport, i: nat, x: Action)
    requires 1 <= i <= OcrAttemptLimit && outcomes(i).text.None?
    requires Occurrences(SolveFrom(outcomes, i + 1).steps, x) == AttemptTally(outcomes, i + 1, x)
    ensures Occurrences(SolveFrom(outcomes, i).steps, x) == AttemptTally(outcomes, i, x)
  {
    var o := outcomes(i);
    OccurrencesSplit(SolveFrom(outcomes, i).steps, o.steps, RetryRefresh(o, i), SolveFrom(outcomes, i + 1).steps, x);
  }

  /** The calls of the loop from attempt `i` are counted by the tally. */
  lemma {:induction false} SolveTally(outcomes: nat -> AttemptReport, i: nat, x: Action)
    requires i >= 1
    ensures Occurrences(SolveFrom(outcomes, i).steps, x) == AttemptTally(outcomes, i, x)
    decreases OcrAttemptLimit + 1 - i
  {
    if i > OcrAttemptLimit {
      SolveEndCount(outcomes, i, x);
    } else if outcomes(i).text.None? {
      SolveTally(outcomes, i + 1, x);
      SolvePassCount(outcomes, i, x);
    } else {
      SolveFoundCount(outcomes, i, x);
    }
  }

  /** Past the last attempt the loop makes no call. */
  lemma SolveEndCount(outcomes: nat -> AttemptReport, i: nat, x: Action)
    requires i > OcrAttemptLimit
    ensures Occurrences(SolveFrom(outcomes, i).steps, x) == AttemptTally(outcomes, i, x) == 0
  {
    assert SolveFrom(outcomes, i).steps == [];
  }


  /** The attempt that accepts a text ends the loop with its own calls. */
  lemma SolveFoundCount(outcomes: nat -> AttemptReport, i: nat, x: Action)
    requires 1 <= i <= OcrAttemptLimit && outcomes(i).text.Some?
    ensures Occurrences(SolveFrom(outcomes, i).steps, x) == AttemptTally(outcomes, i, x) == Occurrences(outcomes(i).steps, x)
  {
    assert SolveFrom(outcomes, i).steps == outcomes(i).steps;
  }

  /** The refresh after attempt `k` clicks once when it happens and never
      downloads or runs OCR. */
  lemma RetryRefreshCounts(o: AttemptReport, k: nat)
    ensures Occurrences(RetryRefresh(o, k), DownloadCaptcha) == 0
    ensures Occurrences(RetryRefresh(o, k), RecognizeCaptcha) == 0
    ensures Occurrences(RetryRefresh(o, k), ClickCaptcha) == if o.ocrRan && k < OcrAttemptLimit then 1 else 0
  {
    OccurrencesAbsent(RetryRefresh(o, k), DownloadCaptcha);
    OccurrencesAbsent(RetryRefresh(o, k), RecognizeCaptcha);
  }

  lemma {:induction false} DownloadTallyBound(outcomes: nat -> AttemptReport, i: nat)
    requires 1 <= i <= OcrAttemptLimit + 1
    requires WellFormedAttempts(outcomes)
    ensures AttemptTally(outcomes, i, DownloadCaptcha) <= OcrAttemptLimit - i + 1
    ensures SolveFrom(outcomes, i).text.None? ==> AttemptTally(outcomes, i, DownloadCaptcha) == OcrAttemptLimit - i + 1
    decreases OcrAttemptLimit + 1 - i
  {
    if i <= OcrAttemptLimit {
      assert WellFormedAttempt(outcomes(i));
      RetryRefreshCounts(outcomes(i), i);
      if outcomes(i).text.None? {
        DownloadTallyBound(outcomes, i + 1);
        assert SolveFrom(outcomes, i).text == SolveFrom(outcomes, i + 1).text;
      }
    }
  }

  lemma {:induction false} ClickTallyBound(outcomes: nat -> AttemptReport, i: nat)
    requires i >= 1
    requires WellFormedAttempts(outcomes)
    ensures AttemptTally(outcomes, i, ClickCaptcha) <= AttemptTally(outcomes, i, RecognizeCaptcha)
    decreases OcrAttemptLimit + 1 - i
  {
    if i <= OcrAttemptLimit {
      assert WellFormedAttempt(outcomes(i));
      RetryRefreshCounts(outcomes(i), i);
      if outcomes(i).text.None? {
        ClickTallyBound(outcomes, i + 1);
      }
    }
  }

  /** The image is downloaded once per attempt of the loop from attempt `i`:
      at most `OcrAttemptLimit - i + 1` times, and exactly that often when no
      text is found. */
  lemma SolveDownloads(outcomes: nat -> AttemptReport, i: nat)
    requires 1 <= i <= OcrAttemptLimit + 1
    requires WellFormedAttempts(outcomes)
    ensures var r := SolveFrom(outcomes, i);
      Occurrences(r.steps, DownloadCaptcha) <= OcrAttemptLimit - i + 1
      && (r.text.None? ==> Occurrences(r.steps, DownloadCaptcha) == OcrAttemptLimit - i + 1)
  {
    SolveTally(outcomes, i, DownloadCaptcha);
    DownloadTallyBound(outcomes, i);
  }

  /** Every refresh of the loop follows an OCR run, never a failed download or
      save: there are no more refreshes than OCR runs. */
  lemma SolveRefreshAfterOcr(outcomes: nat -> AttemptReport, i: nat)
    requires i >= 1
    requires WellFormedAttempts(outcomes)
    ensures var r := SolveFrom(outcomes, i);
      Occurrences(r.steps, ClickCaptcha) <= Occurrences(r.steps, RecognizeCaptcha)
  {
    SolveTally(outcomes, i, ClickCaptcha);
    SolveTally(outcomes, i, RecognizeCaptcha);
    ClickTallyBound(outcomes, i);
  }

  /** The tallies when every attempt from `i` on runs OCR and finds no text. */
  lemma {:induction false} AllRejectedTallies(outcomes: nat -> AttemptReport, i: nat)
    requires 1 <= i <= OcrAttemptLimit
    requires WellFormedAttempts(outcomes)
    requires forall j :: i <= j <= OcrAttemptLimit ==> outcomes(j).ocrRan && outcomes(j).text.None?
    ensures SolveFrom(outcomes, i).text.None?
    ensures AttemptTally(outcomes, i, ClickCaptcha) == OcrAttemptLimit - i
    ensures AttemptTally(outcomes, i, RecognizeCaptcha) == OcrAttemptLimit - i + 1
    decreases OcrAttemptLimit - i
  {
    assert WellFormedAttempt(outcomes(i));
    RetryRefreshCounts(outcomes(i), i);
    if i < OcrAttemptLimit {
      AllRejectedTallies(outcomes, i + 1);
    }
    assert SolveFrom(outcomes, i).text == SolveFrom(outcomes, i + 1).text;
  }

  /** When every attempt from `i` on reaches the OCR engine and is rejected,
      the image is refreshed between attempts only: one refresh fewer than
      attempts, and the loop gives up with no text. */
  lemma SolveRefreshesBetweenAttempts(outcomes: nat -> AttemptReport, i: nat)
    requires 1 <= i <= OcrAttemptLimit
    requires WellFormedAttempts(outcomes)
    requires forall j :: i <= j <= OcrAttemptLimit ==> outcomes(j).ocrRan && outcomes(j).text.None?
    ensures var r := SolveFrom(outcomes, i);
      r.text.None? && Occurrences(r.steps, ClickCaptcha) == OcrAttemptLimit - i
      && Occurrences(r.steps, RecognizeCaptcha) == OcrAttemptLimit - i + 1
  {
    SolveTally(outcomes, i, ClickCaptcha);
    SolveTally(outcomes, i, RecognizeCaptcha);
    AllRejectedTallies(outcomes, i);
  }

  /** The tallies when no attempt from `i` on runs OCR. */
  lemma {:induction false} NoOcrTallies(outcomes: nat -> AttemptReport, i: nat)
    requires 1 <= i <= OcrAttemptLimit + 1
    requires WellFormedAttempts(outcomes)
    requires forall j :: i <= j <= OcrAttemptLimit ==> !outcomes(j).ocrRan
    ensures SolveFrom(outcomes, i).text.None?
    ensures AttemptTally(outcomes, i, ClickCaptcha) == 0
    ensures AttemptTally(outcomes, i, DownloadCaptcha) == OcrAttemptLimit - i + 1
    decreases OcrAttemptLimit + 1 - i
  {
    if i <= OcrAttemptLimit {
      assert WellFormedAttempt(outcomes(i));
      RetryRefreshCounts(outcomes(i), i);
      NoOcrTallies(outcomes, i + 1);
      assert SolveFrom(outcomes, i).text == SolveFrom(outcomes, i + 1).text;
    }
  }

  /** When no image is ever fetched and saved, nothing is refreshed: every
      attempt is one download and the loop gives up after the last one. */
  lemma NoImageNoRefresh(outcomes: nat -> AttemptReport, i: nat)
    requires 1 <= i <= OcrAttemptLimit + 1
    requires WellFormedAttempts(outcomes)
    requires forall j :: i <= j <= OcrAttemptLimit ==> !outcomes(j).ocrRan
    ensures var r := SolveFrom(outcomes, i);
      r.text.None? && Occurrences(r.steps, ClickCaptcha) == 0
      && Occurrences(r.steps, DownloadCaptcha) == OcrAttemptLimit - i + 1
  {
    SolveTally(outcomes, i, ClickCaptcha);
    SolveTally(outcomes, i, DownloadCaptcha);
    NoOcrTallies(outcomes, i);
  }

  /** The captcha loop never submits. */
  lemma {:induction false} SolveNoSubmit(outcomes: nat -> AttemptReport, i: nat)
    requires i >= 1
    requires WellFormedAttempts(outcomes)
    ensures Submit !in SolveFrom(outcomes, i).steps
    decreases OcrAttemptLimit + 1 - i
  {
    if i <= OcrAttemptLimit {
      var o := outcomes(i);
      assert WellFormedAttempt(o);
      if o.text.None? {
        SolveNoSubmit(outcomes, i + 1);
        assert Submit !in RetryRefresh(o, i);
      }
    }
  }

  /** `solve_captcha` accepts the stripped first OCR text of the first attempt
      whose text has at least four characters, and gives up with `(False, "")`
      exactly when no attempt has one. */
  lemma SolveCaptchaText(attempts: nat -> MainOcrAttempt)
    ensures var r := SolveFrom(AttemptOutcomes(attempts), 1);
      (r.text.Some? ==>
         |r.text.value| >= 4
         && exists k :: 1 <= k <= OcrAttemptLimit && Recognised(attempts(k)) && r.text.value == Strip(attempts(k).ocr[0])
                        && forall j :: 1 <= j < k ==> !Recognised(attempts(j)))
      && (r.text.None? <==> forall j :: 1 <= j <= OcrAttemptLimit ==> !Recognised(attempts(j)))
  {
    var outcomes := AttemptOutcomes(attempts);
    SolveText(outcomes, 1);
    forall j ensures outcomes(j).text.None? <==> !Recognised(attempts(j)) {
      assert outcomes(j) == AttemptOnce(attempts(j));
    }
    var r := SolveFrom(outcomes, 1);
    if r.text.Some? {
      var k :| 1 <= k <= OcrAttemptLimit && outcomes(k).text == r.text
               && forall j :: 1 <= j < k ==> outcomes(j).text.None?;
      assert outcomes(k) == AttemptOnce(attempts(k));
    }
  }

  /** One pass of the attempt loop's body up to the refresh; the source's
      `continue` after a missing image or a failed save is a return here. */
  method TryAttempt(a: MainOcrAttempt) returns (o: AttemptReport)
    ensures o == AttemptOnce(a)
  {
    var steps := [DownloadCaptcha];
    if !a.fetched {
      return AttemptReport(None, false, a.clickRaises, steps);
    }
    steps := steps + [SaveCaptcha];
    if !a.saved {
      return AttemptReport(None, false, a.clickRaises, steps);
    }
    steps := steps + [RecognizeCaptcha];
    var text := None;
    if a.ocr != [] {
      var t := Strip(a.ocr[0]);
      if |t| >= 4 {
        text := Some(t);
      }
    }
    o := AttemptReport(text, true, a.clickRaises, steps);
  }

  /** The attempt loop from attempt `k` on with the calls made so far in
      `acc`: the same loop as `SolveFrom`, in the order the code runs it. */
  function SolveAfter(outcomes: nat -> AttemptReport, k: nat, acc: seq<Action>): MainSolveReport
    requires k >= 1
    decreases OcrAttemptLimit + 1 - k
  {
    if k > OcrAttemptLimit then MainSolveReport(None, acc)
    else
      var o := outcomes(k);
      if o.text.Some? then MainSolveReport(o.text, acc + o.steps)
      else
        SolveAfter(outcomes, k + 1, acc + (o.steps + RetryRefresh(o, k)))
  }

  lemma {:induction false} SolveAfterIsSolveFrom(outcomes: nat -> AttemptReport, k: nat, acc: seq<Action>)
    requires k >= 1
    ensures SolveAfter(outcomes, k, acc) == MainSolveReport(SolveFrom(outcomes, k).text, acc + SolveFrom(outcomes, k).steps)
    decreases OcrAttemptLimit + 1 - k
  {
    if k > OcrAttemptLimit {
      assert acc + [] == acc;
    } else if outcomes(k).text.None? {
      var o := outcomes(k);
      var refresh := RetryRefresh(o, k);
      SolveAfterIsSolveFrom(outcomes, k + 1, acc + (o.steps + refresh));
      var rest := SolveFrom(outcomes, k + 1).steps;
      AppendAssociative(acc, o.steps + refresh, rest);
    }
  }

  /** One pass of the attempt loop: the attempt, and the refresh that follows
      a rejected OCR text unless it was the last attempt. A text ends the
      loop; otherwise the loop goes on from the next attempt. */
  method SolveStep(attempts: nat -> MainOcrAttempt, k: nat, ghost acc: seq<Action>) returns (text: Option<string>, steps: seq<Action>)
    requires 1 <= k <= OcrAttemptLimit
    ensures text.Some? ==> SolveAfter(AttemptOutcomes(attempts), k, acc) == MainSolveReport(text, acc + steps)
    ensures text.None? ==> SolveAfter(AttemptOutcomes(attempts), k, acc) == SolveAfter(AttemptOutcomes(attempts), k + 1, acc + steps)
  {
    var o := TryAttempt(attempts(k));
    assert AttemptOutcomes(attempts)(k) == o;
    text := o.text;
    if o.text.Some? {
      return o.text, o.steps;
    }
    steps := o.steps + RetryRefresh(o, k);
  }

  /** `solve_captcha`: `Raises` when the captcha image does not appear within
      three seconds, otherwise the loop's text. */
  method SolveCaptcha(imageShown: bool, attempts: nat -> MainOcrAttempt) returns (r: Reply<Option<string>>, trace: seq<Action>)
    ensures !imageShown ==> r == Raises && trace == []
    ensures imageShown ==> r == Returns(SolveFrom(AttemptOutcomes(attempts), 1).text)
                           && trace == SolveFrom(AttemptOutcomes(attempts), 1).steps
  {
    trace := [];
    if !imageShown {
      return Raises, trace;
    }
    ghost var outcomes := AttemptOutcomes(attempts);
    SolveAfterIsSolveFrom(outcomes, 1, []);
    assert [] + SolveFrom(outcomes, 1).steps == SolveFrom(outcomes, 1).steps;
    ghost var spec := SolveAfter(outcomes, 1, []);
    var attempt: nat := 1;
    while attempt <= OcrAttemptLimit
      invariant 1 <= attempt <= OcrAttemptLimit + 1
      invariant spec == SolveAfter(outcomes, attempt, trace)
      decreases OcrAttemptLimit + 1 - attempt
    {
      var text, steps := SolveStep(attempts, attempt, trace);
      if text.Some? {
        return Returns(text), trace + steps;
      }
      trace := trace + steps;
      attempt := attempt + 1;
    }
    r := Returns(None);
  }

  // ---------------------------------------------------------------------------
  // select_area and select_tickets

  /** A trace with its sleeps taken out. */
  function WithoutPauses(t: seq<Action>): seq<Action>
    decreases |t|
  {
    if |t| == 0 then []
    else (if t[0].Pause? then [] else [t[0]]) + WithoutPauses(t[1..])
  }

  /** Taking the sleeps out of a trace with one more step in front. */
  lemma WithoutPausesFront(x: Action, t: seq<Action>)
    ensures WithoutPauses([x] + t) == (if x.Pause? then [] else [x]) + WithoutPauses(t)
  {
    assert ([x] + t)[0] == x;
    assert ([x] + t)[1..] == t;
  }

  lemma {:induction false} WithoutPausesAppend(t: seq<Action>, u: seq<Action>)
    ensures WithoutPauses(t + u) == WithoutPauses(t) + WithoutPauses(u)
    decreases |t|
  {
    if |t| == 0 {
      assert t + u == u;
    } else {
      var x, w := t[0], t[1..];
      var head: seq<Action> := if x.Pause? then [] else [x];
      assert t == [x] + w;
      AppendAssociative([x], w, u);
      WithoutPausesFront(x, w);
      WithoutPausesFront(x, w + u);
      WithoutPausesAppend(w, u);
      AppendAssociative(head, WithoutPauses(w), WithoutPauses(u));
    }
  }

  /** A step that is not a sleep survives at the front. */
  lemma WithoutPausesCons(x: Action, t: seq<Action>)
    requires !x.Pause?
    ensures WithoutPauses([x] + t) == [x] + WithoutPauses(t)
  {
    assert ([x] + t)[0] == x;
    assert ([x] + t)[1..] == t;
  }

  /** Going back is the same in both versions but for the sleep. */
  lemma BackWithoutPauses(a: AreaScript)
    ensures WithoutPauses(BackSteps(a, true)) == BackSteps(a, false)
  {
    var tail: seq<Action> := if !a.backRaises then [Pause(1000)] else [];
    WithoutPausesCons(Back, tail);
    assert WithoutPauses(tail) == [];
  }

  /** Once an area is opened, both versions do the same but for the sleeps. */
  lemma OpenAreaWithoutPauses(a: AreaScript, open: Action)
    requires !open.Pause?
    ensures OpenArea(a, open, true).outcome == OpenArea(a, open, false).outcome
    ensures WithoutPauses(OpenArea(a, open, true).steps) == OpenArea(a, open, false).steps
  {
    var back := BackSteps(a, true);
    BackWithoutPauses(a);
    WithoutPausesCons(open, back);
    WithoutPausesCons(open, []);
    WithoutPausesCons(Back, back);
    WithoutPausesCons(open, [Back] + back);
    assert [open] + [Back] + back == [open] + ([Back] + back);
    assert [open] + [] + back == [open] + back;
  }

  /** One area is handled alike by both versions, up to purchase.py's
      one-second sleeps after `back()`. */
  lemma AreaWithoutPauses(a: AreaScript, attempt: bool)
    ensures TryArea(a, attempt, true).outcome == TryArea(a, attempt, false).outcome
    ensures WithoutPauses(TryArea(a, attempt, true).steps) == TryArea(a, attempt, false).steps
  {
    BackWithoutPauses(a);
    if a.link.Returns? && attempt && a.urlLookup.Returns? {
      var url := a.urlLookup.value;
      OpenAreaWithoutPauses(a, if url == "" then ClickArea(a.link.value.id) else Navigate(url));
    }
  }

  /** The whole area loop picks the same area in both versions, and main.py's
      calls are purchase.py's without the sleeps. */
  lemma {:induction false} SelectFromWithoutPauses(areas: seq<AreaScript>, go: seq<bool>, i: nat)
    requires |go| == |areas| && i <= |areas|
    ensures SelectFrom(areas, go, i, true).winner == SelectFrom(areas, go, i, false).winner
    ensures WithoutPauses(SelectFrom(areas, go, i, true).steps) == SelectFrom(areas, go, i, false).steps
    decreases |areas| - i
  {
    if i < |areas| {
      AreaWithoutPauses(areas[i], go[i]);
      SelectFromWithoutPauses(areas, go, i + 1);
      WithoutPausesAppend(TryArea(areas[i], go[i], true).steps, SelectFrom(areas, go, i + 1, true).steps);
    }
  }

  /** main.py's `select_area` follows purchase.py's rules: it succeeds on
      exactly the same pages, by entering the same area, and its calls are
      purchase.py's without the sleeps; only the failures differ, as `False`
      instead of an exception. */
  lemma SameAreaAsPurchase(page: AreaPage)
    ensures SelectAreaSpec(page, TicketValue, false).result == SelectAreaSpec(page, TicketValue, true).result
    ensures SelectAreaSpec(page, TicketValue, false).steps == WithoutPauses(SelectAreaSpec(page, TicketValue, true).steps)
  {
    ParseIntOfIntString(2);
    assert IntString(2) == TicketValue;
    if page.loaded && page.areas != [] {
      SelectFromWithoutPauses(page.areas, Attempts(page.areas, 2), 0);
    }
  }

  /** `select_area` of main.py: `True` when an area's probe found the captcha
      image, `False` for every failure. */
  method SelectArea(page: AreaPage) returns (ok: bool, trace: seq<Action>)
    ensures ok == SelectAreaSpec(page, TicketValue, false).result.Ok?
    ensures trace == SelectAreaSpec(page, TicketValue, false).steps
    ensures ok ==> exists k :: 0 <= k < |page.areas| && TryArea(page.areas[k], Attempt(page.areas[k], 2), false).outcome == Entered
  {
    ParseIntOfIntString(2);
    assert IntString(2) == TicketValue;
    trace := [];
    if !page.loaded || page.areas == [] {
      return false, trace;
    }
    var winner;
    winner, trace := TryAreasInOrder(page.areas, 2, false);
    ok := winner.Some?;
    if ok {
      SelectFromWinner(page.areas, Attempts(page.areas, 2), 0, false);
      assert Attempts(page.areas, 2)[winner.value] == Attempt(page.areas[winner.value], 2);
    }
  }

  /** `select_tickets` of main.py: `True` when the price list loads, a ticket
      select exists and the chosen quantity is one of its options; ticking the
      agree box does not matter, as its failure is only logged. */
  function SelectTicketsOk(form: TicketForm): (ok: bool)
    ensures ok <==> form.loaded && form.selects != [] && ChooseQuantity(form.selects[0], TicketValue) in form.selects[0]
  {
    TicketOutcome(form, TicketValue, false).Ok?
  }

  /** Where purchase.py's `select_tickets` succeeds, main.py's does too, and
      main.py's also succeeds when only the agree box fails. */
  lemma SelectTicketsMoreLenient(form: TicketForm)
    ensures SelectTickets(form, TicketValue).Ok? ==> SelectTicketsOk(form)
    ensures SelectTicketsOk(form) <==> SelectTickets(form.(agreeRaises := false), TicketValue).Ok?
  {
  }

  /** `start_buy`: find the "li.buy a" link (`Raises` when it does not
      appear), prefix a site-relative href with the domain and navigate. */
  function StartBuy(href: Reply<string>, navigateRaises: bool): (r: (bool, seq<Action>))
    ensures r.0 <==> href.Returns? && !navigateRaises
    ensures href.Raises? ==> r.1 == []
    ensures href.Returns? ==> r.1 == [Navigate(BuyUrl(href.value))]
  {
    match href
    case Raises => (false, [])
    case Returns(h) => (!navigateRaises, [Navigate(BuyUrl(h))])
  }

  // ---------------------------------------------------------------------------
  // run

  /** One pass of the submission loop as the page plays it: the ticket form,
      whether the captcha image appears, the recognition attempts, whether
      typing the answer or clicking submit fails, and the alert that follows. */
  datatype MainCycle = MainCycle(
    form: TicketForm,
    imageShown: bool,
    attempts: nat -> MainOcrAttempt,
    fillRaises: bool,
    submitRaises: bool,
    alert: AlertScript)

  /** How one pass ends: an alert was accepted (the captcha was wrong), no
      alert came, a step returned `False`, or `solve_captcha` raised. */
  datatype CycleEnd = AlertAccepted | NoAlert | StepFailed | SolveRaised

  datatype MainCycleReport = MainCycleReport(end: CycleEnd, steps: seq<Action>)

  /** One pass: choose the tickets, solve the captcha, type it in, submit and
      look for the error alert; the first step that fails ends the pass. */
  function MainCycleSpec(c: MainCycle): MainCycleReport {
    if !SelectTicketsOk(c.form) then MainCycleReport(StepFailed, [])
    else if !c.imageShown then MainCycleReport(SolveRaised, [])
    else AfterSolve(c, SolveFrom(AttemptOutcomes(c.attempts), 1))
  }

  /** The rest of a pass once `solve_captcha` has returned `s`. */
  function AfterSolve(c: MainCycle, s: MainSolveReport): MainCycleReport {
    match s.text
    case None => MainCycleReport(StepFailed, s.steps)
    case Some(text) =>
      var filled := s.steps + [FillCaptcha(text)];
      if c.fillRaises then MainCycleReport(StepFailed, filled)
      else if c.submitRaises then MainCycleReport(StepFailed, filled + [Submit])
      else
        var (accepted, alertSteps) := HandleCaptchaErrorAlert(c.alert, false);
        MainCycleReport(if accepted then AlertAccepted else NoAlert, filled + [Submit] + alertSteps)
  }

  /** After a solve that did not submit, the pass submits at most once, and
      exactly once when it reaches the alert check. */
  lemma AfterSolveSubmitsOnce(c: MainCycle, s: MainSolveReport)
    requires Submit !in s.steps
    ensures Occurrences(AfterSolve(c, s).steps, Submit) <= 1
    ensures AfterSolve(c, s).end in {AlertAccepted, NoAlert} ==> Occurrences(AfterSolve(c, s).steps, Submit) == 1
  {
    OccurrencesAbsent(s.steps, Submit);
    if s.text.Some? {
      var filled := s.steps + [FillCaptcha(s.text.value)];
      OccurrencesAppend(s.steps, [FillCaptcha(s.text.value)], Submit);
      OccurrencesOne(FillCaptcha(s.text.value), Submit);
      OccurrencesOne(Submit, Submit);
      OccurrencesAppend(filled, [Submit], Submit);
      if !c.fillRaises && !c.submitRaises {
        var alertSteps := HandleCaptchaErrorAlert(c.alert, false).1;
        OccurrencesAbsent(alertSteps, Submit);
        OccurrencesAppend(filled + [Submit], alertSteps, Submit);
      }
    }
  }

  /** A pass submits at most once, and exactly once when it reaches the alert
      check. */
  lemma CycleSubmitsOnce(c: MainCycle)
    ensures Occurrences(MainCycleSpec(c).steps, Submit) <= 1
    ensures MainCycleSpec(c).end in {AlertAccepted, NoAlert} ==> Occurrences(MainCycleSpec(c).steps, Submit) == 1
  {
    if SelectTicketsOk(c.form) && c.imageShown {
      AttemptOutcomesWellFormed(c.attempts);
      SolveNoSubmit(AttemptOutcomes(c.attempts), 1);
      AfterSolveSubmitsOnce(c, SolveFrom(AttemptOutcomes(c.attempts), 1));
    } else {
      assert MainCycleSpec(c).steps == [];
    }
  }

  /** How `run` ends: the completion message, a plain `return` after a step
      returned `False`, or an exception caught by `run`'s handler. */
  datatype RunEnd = Completed | Stopped | Crashed

  datatype RunReport = RunReport(end: RunEnd, steps: seq<Action>)

  /** The submission loop from pass `k` (counted from 0) on: a wrong captcha
      goes round again, up to `SubmitAttemptLimit` passes; after the last one
      the limit is only logged and the run still completes. */
  function SubmitLoop(outcomes: nat -> MainCycleReport, k: nat): RunReport
    decreases SubmitAttemptLimit - k
  {
    if k >= SubmitAttemptLimit then RunReport(Completed, [])
    else
      var c := outcomes(k);
      match c.end
      case NoAlert => RunReport(Completed, c.steps)
      case StepFailed => RunReport(Stopped, c.steps)
      case SolveRaised => RunReport(Crashed, c.steps)
      case AlertAccepted =>
        var rest := SubmitLoop(outcomes, k + 1);
        RunReport(rest.end, c.steps + rest.steps)
  }

  /** What each pass of the loop yields, pass by pass. */
  function CycleOutcomes(cycles: nat -> MainCycle): nat -> MainCycleReport {
    (k: nat) => MainCycleSpec(cycles(k))
  }

  /** The calls of passes `i .. j-1`, one after the other. */
  function PassSteps(outcomes: nat -> MainCycleReport, i: nat, j: nat): seq<Action>
    requires i <= j
    decreases j - i
  {
    if i == j then [] else outcomes(i).steps + PassSteps(outcomes, i + 1, j)
  }

  /** The loop stops at the first pass without an accepted alert: no later
      pass runs, and the run completes, stops or crashes as that pass says. */
  lemma {:induction false} SubmitLoopStopsAtFirst(outcomes: nat -> MainCycleReport, i: nat, k: nat)
    requires i <= k < SubmitAttemptLimit
    requires forall j :: i <= j < k ==> outcomes(j).end == AlertAccepted
    requires outcomes(k).end != AlertAccepted
    ensures var r := SubmitLoop(outcomes, i);
      r.steps == PassSteps(outcomes, i, k + 1)
      && r.end == match outcomes(k).end
                  case NoAlert => Completed
                  case StepFailed => Stopped
                  case _ => Crashed
    decreases k - i
  {
    if i < k {
      SubmitLoopStopsAtFirst(outcomes, i + 1, k);
    } else {
      assert PassSteps(outcomes, k + 1, k + 1) == [];
      assert outcomes(k).steps + [] == outcomes(k).steps;
    }
  }

  /** An alert on every pass still completes: all passes run and the run
      reaches its completion message. */
  lemma {:induction false} AlertEveryPassStillCompletes(outcomes: nat -> MainCycleReport, i: nat)
    requires i <= SubmitAttemptLimit
    requires forall j :: i <= j < SubmitAttemptLimit ==> outcomes(j).end == AlertAccepted
    ensures SubmitLoop(outcomes, i) == RunReport(Completed, PassSteps(outcomes, i, SubmitAttemptLimit))
    decreases SubmitAttemptLimit - i
  {
    if i < SubmitAttemptLimit {
      AlertEveryPassStillCompletes(outcomes, i + 1);
    }
  }

  /** The loop submits at most once per pass, so at most
      `SubmitAttemptLimit - i` times. */
  lemma {:induction false} SubmitLoopBounded(outcomes: nat -> MainCycleReport, i: nat)
    requires i <= SubmitAttemptLimit
    requires forall k :: Occurrences(outcomes(k).steps, Submit) <= 1
    ensures Occurrences(SubmitLoop(outcomes, i).steps, Submit) <= SubmitAttemptLimit - i
    decreases SubmitAttemptLimit - i
  {
    var r := SubmitLoop(outcomes, i);
    if i < SubmitAttemptLimit {
      var c := outcomes(i);
      if c.end == AlertAccepted {
        var rest := SubmitLoop(outcomes, i + 1);
        SubmitLoopBounded(outcomes, i + 1);
        OccurrencesAppend(c.steps, rest.steps, Submit);
      }
    } else {
      assert r.steps == [];
    }
  }

  /** The passes of `run` submit at most once each. */
  lemma CycleOutcomesSubmitOnce(cycles: nat -> MainCycle)
    ensures forall k :: Occurrences(CycleOutcomes(cycles)(k).steps, Submit) <= 1
  {
    forall k ensures Occurrences(CycleOutcomes(cycles)(k).steps, Submit) <= 1 {
      assert CycleOutcomes(cycles)(k) == MainCycleSpec(cycles(k));
      CycleSubmitsOnce(cycles(k));
    }
  }

  /** One pass of the submission loop. */
  method RunCycle(c: MainCycle) returns (end: CycleEnd, steps: seq<Action>)
    ensures MainCycleReport(end, steps) == MainCycleSpec(c)
  {
    steps := [];
    if !SelectTicketsOk(c.form) {
      return StepFailed, steps;
    }
    var solved;
    solved, steps := SolveCaptcha(c.imageShown, c.attempts);
    if solved.Raises? {
      return SolveRaised, steps;
    }
    if solved.value.None? {
      return StepFailed, steps;
    }
    var text := solved.value.value;
    steps := steps + [FillCaptcha(text)];
    if c.fillRaises {
      return StepFailed, steps;
    }
    steps := steps + [Submit];
    if c.submitRaises {
      return StepFailed, steps;
    }
    var (accepted, alertSteps) := HandleCaptchaErrorAlert(c.alert, false);
    steps := steps + alertSteps;
    end := if accepted then AlertAccepted else NoAlert;
  }

  /** The submission loop from pass `k` on with the calls made so far in
      `acc`: the same loop as `SubmitLoop`, in the order the code runs it. */
  function SubmitAfter(outcomes: nat -> MainCycleReport, k: nat, acc: seq<Action>): RunReport
    decreases SubmitAttemptLimit - k
  {
    if k >= SubmitAttemptLimit then RunReport(Completed, acc)
    else
      var c := outcomes(k);
      match c.end
      case NoAlert => RunReport(Completed, acc + c.steps)
      case StepFailed => RunReport(Stopped, acc + c.steps)
      case SolveRaised => RunReport(Crashed, acc + c.steps)
      case AlertAccepted => SubmitAfter(outcomes, k + 1, acc + c.steps)
  }

  lemma {:induction false} SubmitAfterIsSubmitLoop(outcomes: nat -> MainCycleReport, k: nat, acc: seq<Action>)
    ensures SubmitAfter(outcomes, k, acc) == RunReport(SubmitLoop(outcomes, k).end, acc + SubmitLoop(outcomes, k).steps)
    decreases SubmitAttemptLimit - k
  {
    if k >= SubmitAttemptLimit {
      assert acc + [] == acc;
    } else if outcomes(k).end == AlertAccepted {
      SubmitAfterIsSubmitLoop(outcomes, k + 1, acc + outcomes(k).steps);
      AppendAssociative(acc, outcomes(k).steps, SubmitLoop(outcomes, k + 1).steps);
    }
  }

  /** The submission loop of `run`. */
  method SubmitCycles(cycles: nat -> MainCycle) returns (end: RunEnd, trace: seq<Action>)
    ensures RunReport(end, trace) == SubmitLoop(CycleOutcomes(cycles), 0)
  {
    ghost var outcomes := CycleOutcomes(cycles);
    trace := [];
    SubmitAfterIsSubmitLoop(outcomes, 0, []);
    assert [] + SubmitLoop(outcomes, 0).steps == SubmitLoop(outcomes, 0).steps;
    ghost var spec := SubmitAfter(outcomes, 0, []);
    var attempt: nat := 0;
    while attempt < SubmitAttemptLimit
      invariant attempt <= SubmitAttemptLimit
      invariant spec == SubmitAfter(outcomes, attempt, trace)
      decreases SubmitAttemptLimit - attempt
    {
      var cycleEnd, steps := RunCycle(cycles(attempt));
      assert outcomes(attempt) == MainCycleReport(cycleEnd, steps);
      match cycleEnd {
        case StepFailed => return Stopped, trace + steps;
        case SolveRaised => return Crashed, trace + steps;
        case NoAlert => return Completed, trace + steps;
        case AlertAccepted =>
      }
      trace := trace + steps;
      attempt := attempt + 1;
    }
    end := Completed;
  }

  /** What `run` meets: the cookie file, the sale time (`--start-time`, absent
      when not given) and `--prepare-minutes`, the "buy" link and whether
      following it raises, the show list, the area page, and the passes of the
      submission loop. */
  datatype RunScript = RunScript(
    cookies: CookieFile,
    saleStart: Option<int>,
    prepareMinutes: int,
    buyHref: Reply<string>,
    buyNavigateRaises: bool,
    game: GamePage,
    area: AreaPage,
    cycles: nat -> MainCycle)

  /** The `add_cookie` calls of `load_cookies_json`. */
  function CookieSteps(file: CookieFile, now: int): seq<Action> {
    match file
    case Parsed(cs) => AddSteps(cs, now, |cs|)
    case _ => []
  }

  /** `run` after the wait: "buy", show, area, then the submission loop; a
      step that returns `False` ends the run. */
  function PurchaseStages(r: RunScript, steps: seq<Action>): RunReport {
    var (bought, buySteps) := StartBuy(r.buyHref, r.buyNavigateRaises);
    if !bought then RunReport(Stopped, steps + buySteps)
    else
      var (shown, showSteps) := ShowStep(r.game);
      var t := steps + buySteps + showSteps;
      if !shown then RunReport(Stopped, t)
      else
        var area := SelectAreaSpec(r.area, TicketValue, false);
        if area.result.Err? then RunReport(Stopped, t + area.steps)
        else
          var loop := SubmitLoop(CycleOutcomes(r.cycles), 0);
          RunReport(loop.end, t + area.steps + loop.steps)
  }

  /** `run` from clock reading `now`: open the show page, load the cookies and
      refresh (after a manual login when they fail), wait for the sale with the
      0.5 s fine step, then buy. */
  function RunSpec(r: RunScript, now: int): RunReport {
    var login := [Navigate(GameUrl)] + CookieSteps(r.cookies, now) + [Refresh];
    var wait := WaitPlan(r.saleStart, r.prepareMinutes * MinuteMs, now, ScriptFineMs);
    PurchaseStages(r, login + wait.steps)
  }

  /** The wait of `run`: when the preparation time is still ahead of the sale,
      it ends with exactly one refresh, within half a second after the sale
      opens. */
  lemma RunWaitLandsOnTime(r: RunScript, now: int)
    requires r.saleStart.Some? && r.prepareMinutes > 0 && now < r.saleStart.value
    ensures var w := WaitPlan(r.saleStart, r.prepareMinutes * MinuteMs, now, ScriptFineMs);
      r.saleStart.value <= w.refreshAt < r.saleStart.value + 500
      && Occurrences(w.steps, Refresh) == 1 && w.steps[|w.steps| - 1] == Refresh
  {
    WaitLandsOnTime(r.saleStart.value, r.prepareMinutes * MinuteMs, now, ScriptFineMs);
    WaitShape(r.saleStart.value, r.prepareMinutes * MinuteMs, now, ScriptFineMs);
  }

  /** `run` submits at most five times, once per pass of the submission loop,
      and only when "buy", the show and the area all succeeded. */
  lemma RunSubmitsBounded(r: RunScript, now: int)
    ensures Occurrences(RunSpec(r, now).steps, Submit) <= SubmitAttemptLimit
    ensures Submit in RunSpec(r, now).steps ==>
              StartBuy(r.buyHref, r.buyNavigateRaises).0 && ShowStep(r.game).0
              && SelectAreaSpec(r.area, TicketValue, false).result.Ok?
  {
    var cookies := CookieSteps(r.cookies, now);
    var wait := WaitPlan(r.saleStart, r.prepareMinutes * MinuteMs, now, ScriptFineMs);
    var buySteps := StartBuy(r.buyHref, r.buyNavigateRaises).1;
    var showSteps := ShowStep(r.game).1;
    var area := SelectAreaSpec(r.area, TicketValue, false);
    if r.cookies.Parsed? {
      AddStepsOnlyAdd(r.cookies.cookies, now, |r.cookies.cookies|);
    }
    WaitOnlySleepsAndRefresh(r.saleStart, r.prepareMinutes * MinuteMs, now, ScriptFineMs);
    SelectAreaMoves(r.area, TicketValue, false);
    var t := [Navigate(GameUrl)] + cookies + [Refresh] + wait.steps + buySteps + showSteps + area.steps;
    assert Submit !in t;
    OccurrencesAbsent(t, Submit);
    var outcome := RunSpec(r, now);
    if StartBuy(r.buyHref, r.buyNavigateRaises).0 && ShowStep(r.game).0 && area.result.Ok? {
      var loop := SubmitLoop(CycleOutcomes(r.cycles), 0);
      assert outcome.steps == t + loop.steps;
      CycleOutcomesSubmitOnce(r.cycles);
      SubmitLoopBounded(CycleOutcomes(r.cycles), 0);
      OccurrencesAppend(t, loop.steps, Submit);
    } else {
      assert Submit !in outcome.steps;
      OccurrencesAbsent(outcome.steps, Submit);
    }
  }

  /** `run` once the wait is over; the sleeps of a step are over when it
      returns. */
  method RunPurchase(clock: Clock, r: RunScript, trace0: seq<Action>) returns (end: RunEnd, trace: seq<Action>)
    modifies clock
    ensures RunReport(end, trace) == PurchaseStages(r, trace0)
    ensures clock.now == old(clock.now) + SleptMs(trace) - SleptMs(trace0) >= old(clock.now)
  {
    var (bought, buySteps) := StartBuy(r.buyHref, r.buyNavigateRaises);
    SleptMsNoPause(buySteps);
    SleptMsAppend(trace0, buySteps);
    trace := trace0 + buySteps;
    if !bought {
      return Stopped, trace;
    }
    var show, showSteps := SelectMatchAndBuy(r.game);
    SleptMsNoPause(showSteps);
    SleptMsAppend(trace, showSteps);
    trace := trace + showSteps;
    if show.Err? {
      return Stopped, trace;
    }
    var ok, areaSteps := SelectArea(r.area);
    clock.Sleep(SleptMs(areaSteps));
    SleptMsAppend(trace, areaSteps);
    trace := trace + areaSteps;
    if !ok {
      return Stopped, trace;
    }
    var loopSteps;
    end, loopSteps := SubmitCycles(r.cycles);
    clock.Sleep(SleptMs(loopSteps));
    SleptMsAppend(trace, loopSteps);
    trace := trace + loopSteps;
  }

  /** `run` as a whole, on the clock: the cookies are checked against the
      clock at the start, and the clock then moves by exactly what the run
      sleeps. */
  method Run(clock: Clock, r: RunScript) returns (end: RunEnd, trace: seq<Action>)
    modifies clock
    ensures RunReport(end, trace) == RunSpec(r, old(clock.now))
    ensures clock.now == old(clock.now) + SleptMs(trace)
    ensures clock.now >= WaitPlan(r.saleStart, r.prepareMinutes * MinuteMs, old(clock.now), ScriptFineMs).refreshAt
  {
    var now := clock.now;
    var loaded, cookieSteps := LoadCookiesJson(r.cookies, now, false);
    trace := [Navigate(GameUrl)] + cookieSteps + [Refresh];
    assert SleptMs(trace) == 0 by {
      if r.cookies.Parsed? {
        AddStepsOnlyAdd(r.cookies.cookies, now, |r.cookies.cookies|);
      }
      SleptMsNoPause(trace);
    }
    var waitSteps := WaitForSale(clock, r.saleStart, r.prepareMinutes * MinuteMs, ScriptFineMs);
    WaitClock(r.saleStart, r.prepareMinutes * MinuteMs, now, ScriptFineMs);
    SleptMsAppend(trace, waitSteps);
    end, trace := RunPurchase(clock, r, trace + waitSteps);
  }
}
