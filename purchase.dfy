/** purchase.py: choosing the show, the seating area and the ticket quantity,
    and reading the captcha-error alert. The browser's answers are scripted:
    each page is a value saying what every Selenium call would return or
    whether it raises, and each operation returns the browser calls it made. */
module Purchase {
  import opened Wrappers
  import opened PyText
  import opened Browser
  import opened AreaLabel

  /** `config.TICKET_VALUE`, the number of tickets wanted, as a string. */
  const DefaultTicketValue: string := "2"

  // ---------------------------------------------------------------------------
  // select_match_and_buy

  /** The show list: whether `#gameList table` appeared within 10 s, the
      `data-href` of every buy button in page order ("" when it has none), and
      whether `driver.get` raises. */
  datatype GamePage = GamePage(loaded: bool, buttonUrls: seq<string>, navigateRaises: bool)

  datatype MatchFailure = GameListMissing | NoBuyButton | NavigationFailed

  /** The index of the first non-empty URL at or after `i`. */
  function FirstUrl(urls: seq<string>, i: nat): (k: Option<nat>)
    requires i <= |urls|
    ensures k.Some? ==> i <= k.value < |urls| && urls[k.value] != ""
                        && forall j :: i <= j < k.value ==> urls[j] == ""
    ensures k.None? ==> forall j :: i <= j < |urls| ==> urls[j] == ""
    decreases |urls| - i
  {
    if i == |urls| then None
    else if urls[i] != "" then Some(i)
    else FirstUrl(urls, i + 1)
  }

  /** `select_match_and_buy`: navigates to the first buy button that carries a
      URL. The configured target date is only logged, never compared. */
  method SelectMatchAndBuy(page: GamePage) returns (r: Result<nat, MatchFailure>, trace: seq<Action>)
    ensures !page.loaded ==> r == Err(GameListMissing) && trace == []
    ensures page.loaded && FirstUrl(page.buttonUrls, 0).None? ==> r == Err(NoBuyButton) && trace == []
    ensures page.loaded && FirstUrl(page.buttonUrls, 0).Some? ==>
              var k := FirstUrl(page.buttonUrls, 0).value;
              trace == [Navigate(page.buttonUrls[k])]
              && r == (if page.navigateRaises then Err(NavigationFailed) else Ok(k))
  {
    trace := [];
    if !page.loaded {
      return Err(GameListMissing), trace;
    }
    var buttons := page.buttonUrls;
    var i := 0;
    while i < |buttons|
      invariant 0 <= i <= |buttons|
      invariant FirstUrl(buttons, 0) == FirstUrl(buttons, i)
    {
      var url := buttons[i];
      if url != "" {
        trace := [Navigate(url)];
        if page.navigateRaises {
          return Err(NavigationFailed), trace;
        }
        return Ok(i), trace;
      }
      i := i + 1;
    }
    r := Err(NoBuyButton);
  }

  /** `select_match_and_buy` as its callers see it: whether it succeeded, and
      its navigation. */
  function ShowStep(page: GamePage): (bool, seq<Action>) {
    if !page.loaded then (false, [])
    else match FirstUrl(page.buttonUrls, 0)
      case None => (false, [])
      case Some(k) => (!page.navigateRaises, [Navigate(page.buttonUrls[k])])
  }

  /** The "立即購票" link's target as the bots follow it: a site-relative link
      gets the domain in front. */
  function BuyUrl(href: string): string {
    if "/" <= href then "https://tixcraft.com" + href else href
  }

  // ---------------------------------------------------------------------------
  // select_area

  /** The id and displayed text of one area link. */
  datatype AreaLink = AreaLink(id: string, text: string)

  /** What the browser does while one area is handled. */
  datatype AreaScript = AreaScript(
    link: Reply<AreaLink>,     // reading the link's id and text
    urlLookup: Reply<string>,  // areaUrlList[id] through execute_script; "" when the page has none
    openRaises: bool,          // driver.get(url), or the JavaScript click, raises
    captchaShown: bool,        // the captcha image appeared within 10 s
    listShown: Reply<bool>,    // the area list is still on the page
    errorShown: Reply<bool>,   // an error banner is on the page; Raises when finding or reading it fails
    backRaises: bool)          // driver.back() raises

  /** The area page: whether `.zone.area-list` appeared within 10 s, and the
      area links in page order. */
  datatype AreaPage = AreaPage(loaded: bool, areas: seq<AreaScript>)

  datatype AreaOutcome = Entered | Skipped | Abandoned

  /** What became of one area, and the browser calls made for it. */
  datatype Visit = Visit(outcome: AreaOutcome, steps: seq<Action>)

  /** The index of the area entered, if any, and the browser calls made. */
  datatype Selection = Selection(winner: Option<nat>, steps: seq<Action>)

  datatype AreaFailure = AreaListMissing | NoAreas | BadTicketValue | AllAreasFailed

  /** What `select_area` returns or raises, and the browser calls it made. */
  datatype AreaReport = AreaReport(result: Result<nat, AreaFailure>, steps: seq<Action>)

  /** Whether the loop body goes on to open the area: its link can be read and
      its stripped name passes the classifier. */
  predicate Attempt(a: AreaScript, minTicket: int) {
    a.link.Returns? && ShouldAttempt(Strip(a.link.value.text), minTicket)
  }

  /** The attempt decision for every area of the page. */
  function Attempts(areas: seq<AreaScript>, minTicket: int): seq<bool> {
    seq(|areas|, k requires 0 <= k < |areas| => Attempt(areas[k], minTicket))
  }

  /** `driver.back()` followed, in purchase.py only, by a one-second sleep that
      a raising `back()` skips. */
  function BackSteps(a: AreaScript, pauses: bool): seq<Action> {
    [Back] + (if pauses && !a.backRaises then [Pause(1000)] else [])
  }

  /** One pass of the loop body for one area, given the attempt decision on its
      name. Every fault ends in the per-area handler, which goes back and
      swallows any error of its own. */
  function TryArea(a: AreaScript, attempt: bool, pauses: bool): Visit {
    match a.link
    case Raises => Visit(Abandoned, BackSteps(a, pauses))
    case Returns(link) =>
      if !attempt then Visit(Skipped, [])
      else
        match a.urlLookup
        case Raises => Visit(Abandoned, BackSteps(a, pauses))
        case Returns(url) =>
          OpenArea(a, if url == "" then ClickArea(link.id) else Navigate(url), pauses)
  }

  /** The rest of the loop body once the area is opened by `open`: the probe
      for the captcha image and what follows a failed probe. */
  function OpenArea(a: AreaScript, open: Action, pauses: bool): Visit {
    if a.openRaises then Visit(Abandoned, [open] + BackSteps(a, pauses))
    else if a.captchaShown then Visit(Entered, [open])
    else
      match a.listShown
      case Raises => Visit(Abandoned, [open] + BackSteps(a, pauses))
      case Returns(shown) =>
        if shown then Visit(Abandoned, [open])
        else
          match a.errorShown
          case Raises => Visit(Abandoned, [open] + BackSteps(a, pauses))
          case Returns(_) =>
            // with or without an error banner: back(), sleep(1), next area;
            // a raising back() lands in the handler, which goes back again
            Visit(Abandoned, [open] + (if a.backRaises then [Back] else []) + BackSteps(a, pauses))
  }

  /** The loop from area `i` on, with `go` the attempt decisions. */
  function SelectFrom(areas: seq<AreaScript>, go: seq<bool>, i: nat, pauses: bool): Selection
    requires |go| == |areas| && i <= |areas|
    decreases |areas| - i
  {
    if i == |areas| then Selection(None, [])
    else
      var v := TryArea(areas[i], go[i], pauses);
      if v.outcome == Entered then Selection(Some(i), v.steps)
      else
        var rest := SelectFrom(areas, go, i + 1, pauses);
        Selection(rest.winner, v.steps + rest.steps)
  }

  /** The whole of `select_area`, with `pauses` telling the purchase.py version
      (which sleeps one second after going back) from the main.py one. */
  function SelectAreaSpec(page: AreaPage, ticketValue: string, pauses: bool): AreaReport {
    if !page.loaded then AreaReport(Err(AreaListMissing), [])
    else if page.areas == [] then AreaReport(Err(NoAreas), [])
    else
      match ParseInt(ticketValue)
      case None => AreaReport(Err(BadTicketValue), [])
      case Some(minTicket) =>
        var s := SelectFrom(page.areas, Attempts(page.areas, minTicket), 0, pauses);
        AreaReport(if s.winner.Some? then Ok(s.winner.value) else Err(AllAreasFailed), s.steps)
  }

  /** Steps of the per-area exception handler: `try: back(); sleep(1) except: pass`. */
  method GoBackAfterError(a: AreaScript, pauses: bool) returns (steps: seq<Action>)
    ensures steps == BackSteps(a, pauses)
  {
    steps := [Back];
    if a.backRaises {
      return;
    }
    if pauses {
      steps := steps + [Pause(1000)];
    }
  }

  /** The body of the `select_area` loop for one area; the source's `continue`
      is a return here, and `entered` is the `return True` after a successful
      probe. */
  method HandleArea(a: AreaScript, minTicket: int, pauses: bool) returns (entered: bool, steps: seq<Action>)
    ensures entered <==> TryArea(a, Attempt(a, minTicket), pauses).outcome == Entered
    ensures steps == TryArea(a, Attempt(a, minTicket), pauses).steps
  {
    entered := false;
    if a.link.Raises? {
      steps := GoBackAfterError(a, pauses);
      return;
    }
    var link := a.link.value;
    var name := Strip(link.text);
    if !ShouldAttempt(name, minTicket) {
      return false, [];
    }
    if a.urlLookup.Raises? {
      steps := GoBackAfterError(a, pauses);
      return;
    }
    var url := a.urlLookup.value;
    var open := if url == "" then ClickArea(link.id) else Navigate(url);
    steps := [open];
    if a.openRaises {
      var back := GoBackAfterError(a, pauses);
      return false, steps + back;
    }
    if a.captchaShown {
      return true, steps;
    }
    if a.listShown.Raises? {
      var back := GoBackAfterError(a, pauses);
      return false, steps + back;
    }
    if a.listShown.value {
      return;
    }
    if a.errorShown.Raises? {
      var back := GoBackAfterError(a, pauses);
      return false, steps + back;
    }
    steps := steps + [Back];
    if a.backRaises {
      var back := GoBackAfterError(a, pauses);
      return false, steps + back;
    }
    if pauses {
      steps := steps + [Pause(1000)];
    }
  }

  /** The loop from area `i` on, after the calls `acc` made for the areas before it. */
  function SelectAfter(areas: seq<AreaScript>, go: seq<bool>, i: nat, pauses: bool, acc: seq<Action>): Selection
    requires |go| == |areas| && i <= |areas|
    decreases |areas| - i
  {
    if i == |areas| then Selection(None, acc)
    else
      var v := TryArea(areas[i], go[i], pauses);
      if v.outcome == Entered then Selection(Some(i), acc + v.steps)
      else SelectAfter(areas, go, i + 1, pauses, acc + v.steps)
  }

  lemma {:induction false} SelectAfterIsSelectFrom(areas: seq<AreaScript>, go: seq<bool>, i: nat, pauses: bool, acc: seq<Action>)
    requires |go| == |areas| && i <= |areas|
    ensures SelectAfter(areas, go, i, pauses, acc)
         == Selection(SelectFrom(areas, go, i, pauses).winner, acc + SelectFrom(areas, go, i, pauses).steps)
    decreases |areas| - i
  {
    if i == |areas| {
      assert acc + [] == acc;
    } else {
      var v := TryArea(areas[i], go[i], pauses);
      if v.outcome != Entered {
        SelectAfterIsSelectFrom(areas, go, i + 1, pauses, acc + v.steps);
        AppendAssociative(acc, v.steps, SelectFrom(areas, go, i + 1, pauses).steps);
      }
    }
  }

  /** The loop of `select_area` (both versions): areas in page order, the first
      whose probe finds the captcha image wins. */
  method TryAreasInOrder(areas: seq<AreaScript>, minTicket: int, pauses: bool)
    returns (winner: Option<nat>, trace: seq<Action>)
    ensures Selection(winner, trace) == SelectFrom(areas, Attempts(areas, minTicket), 0, pauses)
  {
    ghost var go := Attempts(areas, minTicket);
    SelectAfterIsSelectFrom(areas, go, 0, pauses, []);
    assert [] + SelectFrom(areas, go, 0, pauses).steps == SelectFrom(areas, go, 0, pauses).steps;
    ghost var spec := SelectAfter(areas, go, 0, pauses, []);
    trace := [];
    var i := 0;
    while i < |areas|
      invariant 0 <= i <= |areas|
      invariant spec == SelectAfter(areas, go, i, pauses, trace)
    {
      assert go[i] == Attempt(areas[i], minTicket);
      var entered, steps := HandleArea(areas[i], minTicket, pauses);
      if entered {
        return Some(i), trace + steps;
      }
      trace := trace + steps;
      i := i + 1;
    }
    winner := None;
  }

  /** `select_area` of purchase.py: raises (here `Err`) when the list never
      loads, is empty, the wanted count is not a number, or no area opens;
      otherwise the area entered is one whose probe found the captcha. */
  method SelectArea(page: AreaPage, ticketValue: string) returns (r: Result<nat, AreaFailure>, trace: seq<Action>)
    ensures AreaReport(r, trace) == SelectAreaSpec(page, ticketValue, true)
    ensures r.Ok? ==> r.value < |page.areas|
                      && TryArea(page.areas[r.value], Attempt(page.areas[r.value], ParseInt(ticketValue).value), true).outcome == Entered
  {
    trace := [];
    if !page.loaded {
      return Err(AreaListMissing), trace;
    }
    if page.areas == [] {
      return Err(NoAreas), trace;
    }
    var minTicket := ParseInt(ticketValue);
    if minTicket.None? {
      return Err(BadTicketValue), trace;
    }
    var winner;
    winner, trace := TryAreasInOrder(page.areas, minTicket.value, true);
    if winner.None? {
      return Err(AllAreasFailed), trace;
    }
    SelectFromWinner(page.areas, Attempts(page.areas, minTicket.value), 0, true);
    r := Ok(winner.value);
  }

  /** A call the area loop may make: open an area, go back, or sleep. */
  predicate AreaMove(x: Action) {
    x.ClickArea? || x.Navigate? || x == Back || x.Pause?
  }

  lemma TryAreaMoves(a: AreaScript, attempt: bool, pauses: bool)
    ensures forall x :: x in TryArea(a, attempt, pauses).steps ==> AreaMove(x)
  {
  }

  /** The area loop only opens areas, goes back and sleeps: it never touches
      the captcha or the ticket form. */
  lemma {:induction false} SelectFromMoves(areas: seq<AreaScript>, go: seq<bool>, i: nat, pauses: bool)
    requires |go| == |areas| && i <= |areas|
    ensures forall x :: x in SelectFrom(areas, go, i, pauses).steps ==> AreaMove(x)
    decreases |areas| - i
  {
    if i < |areas| {
      TryAreaMoves(areas[i], go[i], pauses);
      if TryArea(areas[i], go[i], pauses).outcome != Entered {
        SelectFromMoves(areas, go, i + 1, pauses);
      }
    }
  }

  /** `select_area` only opens areas, goes back and sleeps. */
  lemma SelectAreaMoves(page: AreaPage, ticketValue: string, pauses: bool)
    ensures forall x :: x in SelectAreaSpec(page, ticketValue, pauses).steps ==> AreaMove(x)
  {
    if page.loaded && page.areas != [] && ParseInt(ticketValue).Some? {
      SelectFromMoves(page.areas, Attempts(page.areas, ParseInt(ticketValue).value), 0, pauses);
    }
  }

  /** The area entered is the first one, in page order, that the loop body
      enters; no winner means no area is entered at all. */
  lemma {:induction false} SelectFromWinner(areas: seq<AreaScript>, go: seq<bool>, i: nat, pauses: bool)
    requires |go| == |areas| && i <= |areas|
    ensures match SelectFrom(areas, go, i, pauses).winner
            case Some(k) =>
              i <= k < |areas| && TryArea(areas[k], go[k], pauses).outcome == Entered
              && forall j :: i <= j < k ==> TryArea(areas[j], go[j], pauses).outcome != Entered
            case None =>
              forall j :: i <= j < |areas| ==> TryArea(areas[j], go[j], pauses).outcome != Entered
    decreases |areas| - i
  {
    if i < |areas| {
      SelectFromWinner(areas, go, i + 1, pauses);
    }
  }

  /** The browser calls of areas `i` up to (not including) `j`, one after the other. */
  function AreaSteps(areas: seq<AreaScript>, go: seq<bool>, i: nat, j: nat, pauses: bool): seq<Action>
    requires |go| == |areas| && i <= j <= |areas|
    decreases j - i
  {
    if i == j then [] else TryArea(areas[i], go[i], pauses).steps + AreaSteps(areas, go, i + 1, j, pauses)
  }

  /** The trace is the areas' own steps in page order, ending with the winner's:
      nothing after the winning area is touched. */
  lemma {:induction false} SelectFromTrace(areas: seq<AreaScript>, go: seq<bool>, i: nat, pauses: bool)
    requires |go| == |areas| && i <= |areas|
    ensures var s := SelectFrom(areas, go, i, pauses);
            (s.winner.Some? ==> i <= s.winner.value < |areas|)
            && s.steps == AreaSteps(areas, go, i, if s.winner.Some? then s.winner.value + 1 else |areas|, pauses)
    decreases |areas| - i
  {
    if i < |areas| {
      SelectFromTrace(areas, go, i + 1, pauses);
    }
  }

  /** When no area is attempted and every link can be read, the loop touches
      nothing and enters nothing. */
  lemma {:induction false} NothingAttemptedNothingTouched(areas: seq<AreaScript>, go: seq<bool>, i: nat, pauses: bool)
    requires |go| == |areas| && i <= |areas|
    requires forall k :: i <= k < |areas| ==> areas[k].link.Returns? && !go[k]
    ensures SelectFrom(areas, go, i, pauses) == Selection(None, [])
    decreases |areas| - i
  {
    if i < |areas| {
      NothingAttemptedNothingTouched(areas, go, i + 1, pauses);
    }
  }

  /** A page whose every area is sold out makes `select_area` fail without a
      single browser call. */
  lemma AllSoldOutFails(page: AreaPage, ticketValue: string, pauses: bool)
    requires page.loaded && page.areas != [] && ParseInt(ticketValue).Some?
    requires forall k :: 0 <= k < |page.areas| ==>
               page.areas[k].link.Returns? && Contains(Strip(page.areas[k].link.value.text), SoldOutMark)
    ensures SelectAreaSpec(page, ticketValue, pauses) == AreaReport(Err(AllAreasFailed), [])
  {
    var m := ParseInt(ticketValue).value;
    var go := Attempts(page.areas, m);
    forall k | 0 <= k < |page.areas| ensures !go[k] {
      SoldOutNeverAttempted(Strip(page.areas[k].link.value.text), m);
    }
    NothingAttemptedNothingTouched(page.areas, go, 0, pauses);
  }

  /** A sold-out area is skipped without any browser call, even if its name
      also carries the remaining or hot-selling marker. */
  lemma SoldOutAreaUntouched(a: AreaScript, minTicket: int, pauses: bool)
    requires a.link.Returns? && Contains(Strip(a.link.value.text), SoldOutMark)
    ensures TryArea(a, Attempt(a, minTicket), pauses) == Visit(Skipped, [])
  {
    SoldOutNeverAttempted(Strip(a.link.value.text), minTicket);
  }

  /** After a failed probe of an attempted area: if the area list is still
      shown the loop moves on without going back; otherwise it goes back
      exactly once (when back() itself does not raise). Either way the area is
      abandoned. */
  lemma FailedProbeBackRule(a: AreaScript, pauses: bool)
    requires a.link.Returns? && a.urlLookup.Returns? && !a.openRaises && !a.captchaShown
    ensures a.listShown == Returns(true) ==>
              TryArea(a, true, pauses).outcome == Abandoned && Occurrences(TryArea(a, true, pauses).steps, Back) == 0
    ensures a.listShown == Returns(false) && a.errorShown.Returns? && !a.backRaises ==>
              TryArea(a, true, pauses).outcome == Abandoned && Occurrences(TryArea(a, true, pauses).steps, Back) == 1
  {
    var url := a.urlLookup.value;
    var open := if url == "" then ClickArea(a.link.value.id) else Navigate(url);
    assert open != Back;
    if a.listShown == Returns(false) && a.errorShown.Returns? && !a.backRaises {
      var t := TryArea(a, true, pauses).steps;
      var tail: seq<Action> := if pauses then [Pause(1000)] else [];
      assert t == [open] + [Back] + tail;
      OccurrencesSplit(t, [open], [Back], tail, Back);
      assert Occurrences([open], Back) == 0 by { assert [open][..0] == []; }
    }
  }

  /** Fault isolation: replacing one area that is not entered by any other such
      area leaves the winner unchanged. */
  lemma {:induction false} AbandonedAreaIsolated(areas: seq<AreaScript>, go: seq<bool>, j: nat, b: AreaScript, g: bool, i: nat, pauses: bool)
    requires |go| == |areas| && i <= |areas| && j < |areas|
    requires TryArea(areas[j], go[j], pauses).outcome != Entered && TryArea(b, g, pauses).outcome != Entered
    ensures SelectFrom(areas[j := b], go[j := g], i, pauses).winner == SelectFrom(areas, go, i, pauses).winner
    decreases |areas| - i
  {
    if i < |areas| {
      AbandonedAreaIsolated(areas, go, j, b, g, i + 1, pauses);
    }
  }

  // ---------------------------------------------------------------------------
  // select_tickets

  /** `max([int(o) for o in options if o.isdigit()])`, or 0 when no option is
      all digits. */
  function MaxDigitOption(options: seq<string>): (m: nat)
    ensures forall o :: o in options && IsDigitString(o) ==> DigitsValue(o) <= m
    ensures m > 0 ==> exists o :: o in options && IsDigitString(o) && DigitsValue(o) == m
  {
    if |options| == 0 then 0
    else
      var rest := MaxDigitOption(options[1..]);
      assert forall o :: o in options[1..] ==> o in options;
      assert forall o :: o in options ==> o == options[0] || o in options[1..];
      if IsDigitString(options[0]) && DigitsValue(options[0]) > rest then DigitsValue(options[0]) else rest
  }

  /** The quantity picked from the first ticket select's option values. */
  function ChooseQuantity(options: seq<string>, wanted: string): string {
    if wanted in options then wanted
    else
      var m := MaxDigitOption(options);
      if m > 0 then IntString(m) else "0"
  }

  /** The quantity rule: the wanted count when offered; otherwise the largest
      offered all-digit value when it is positive (written as `str` of it);
      otherwise "0". */
  lemma QuantityRule(options: seq<string>, wanted: string)
    ensures wanted in options ==> ChooseQuantity(options, wanted) == wanted
    ensures wanted !in options && (exists o :: o in options && IsDigitString(o) && DigitsValue(o) > 0) ==>
              var v := ChooseQuantity(options, wanted);
              IsDigitString(v)
              && (forall o :: o in options && IsDigitString(o) ==> DigitsValue(o) <= DigitsValue(v))
              && (exists o :: o in options && IsDigitString(o) && DigitsValue(o) == DigitsValue(v))
    ensures wanted !in options && (forall o :: o in options && IsDigitString(o) ==> DigitsValue(o) == 0) ==>
              ChooseQuantity(options, wanted) == "0"
  {
    var m := MaxDigitOption(options);
    if wanted !in options && m > 0 {
      IntStringRoundTrip(m);
    }
  }

  /** The ticket form: whether `#ticketPriceList` appeared within 10 s, the
      option values of every `TicketForm_ticketPrice_*` select, and whether
      ticking the agree box raises. */
  datatype TicketForm = TicketForm(loaded: bool, selects: seq<seq<string>>, agreeRaises: bool)

  datatype TicketFailure = PriceListMissing | NoTicketSelect | QuantityNotOffered(value: string) | AgreeFailed

  /** Both versions of `select_tickets`; `strictAgree` says whether a failure to
      tick the agree box fails the call (purchase.py) or is only logged (main.py).
      `select_by_value` raises when no option carries the chosen value. */
  function TicketOutcome(form: TicketForm, wanted: string, strictAgree: bool): (r: Result<string, TicketFailure>)
    ensures r.Ok? ==> form.loaded && form.selects != [] && r.value in form.selects[0]
                      && r.value == ChooseQuantity(form.selects[0], wanted)
    ensures r.Ok? <==> form.loaded && form.selects != [] && ChooseQuantity(form.selects[0], wanted) in form.selects[0]
                       && !(strictAgree && form.agreeRaises)
  {
    if !form.loaded then Err(PriceListMissing)
    else if form.selects == [] then Err(NoTicketSelect)
    else
      var v := ChooseQuantity(form.selects[0], wanted);
      if v !in form.selects[0] then Err(QuantityNotOffered(v))
      else if strictAgree && form.agreeRaises then Err(AgreeFailed)
      else Ok(v)
  }

  /** `select_tickets` of purchase.py: the chosen quantity, or the failure it raises. */
  function SelectTickets(form: TicketForm, wanted: string): (r: Result<string, TicketFailure>)
    ensures r.Ok? ==> form.selects != [] && r.value in form.selects[0] && !form.agreeRaises
    ensures form.loaded && form.selects != [] && wanted in form.selects[0] && !form.agreeRaises ==> r == Ok(wanted)
  {
    TicketOutcome(form, wanted, true)
  }

  // ---------------------------------------------------------------------------
  // handle_captcha_error_alert

  /** What happens in the three seconds after submitting: an alert appears
      (and accepting it may raise), the wait times out, Selenium reports no
      alert, or something else raises. */
  datatype AlertScript = AlertShown(text: string, acceptRaises: bool) | AlertTimeout | NoAlertPresent | AlertFault

  /** `handle_captcha_error_alert`: `True` exactly when an alert appeared and
      was accepted; every error reads as "no alert". The purchase.py version
      (`pauses`) sleeps a second after accepting. */
  function HandleCaptchaErrorAlert(alert: AlertScript, pauses: bool): (r: (bool, seq<Action>))
    ensures r.0 <==> alert.AlertShown? && !alert.acceptRaises
    ensures !alert.AlertShown? ==> |r.1| == 0
  {
    match alert
    case AlertShown(_, acceptRaises) =>
      if acceptRaises then (false, [AcceptAlert])
      else (true, [AcceptAlert] + (if pauses then [Pause(1000)] else []))
    case _ => (false, [])
  }

  /** The alert check accepts at most once, exactly when an alert is shown,
      and otherwise only sleeps. */
  lemma AlertCalls(alert: AlertScript, pauses: bool)
    ensures var t := HandleCaptchaErrorAlert(alert, pauses).1;
      Occurrences(t, AcceptAlert) == (if alert.AlertShown? then 1 else 0)
      && forall x :: x in t ==> x == AcceptAlert || x == Pause(1000)
  {
    var t := HandleCaptchaErrorAlert(alert, pauses).1;
    if alert.AlertShown? {
      var tail: seq<Action> := if pauses && !alert.acceptRaises then [Pause(1000)] else [];
      assert t == [AcceptAlert] + tail;
      OccurrencesAppend([AcceptAlert], tail, AcceptAlert);
      OccurrencesOne(AcceptAlert, AcceptAlert);
      assert AcceptAlert !in tail;
      OccurrencesAbsent(tail, AcceptAlert);
    }
  }

  /** The alert check never submits. */
  lemma AlertNeverSubmits(alert: AlertScript, pauses: bool)
    ensures Occurrences(HandleCaptchaErrorAlert(alert, pauses).1, Submit) == 0
  {
    AlertCalls(alert, pauses);
    OccurrencesAbsent(HandleCaptchaErrorAlert(alert, pauses).1, Submit);
  }
}
