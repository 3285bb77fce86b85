/** The bot's view of the outside world: the browser calls it issues, recorded
    in order as a trace, and the wall clock, which only sleeping advances. */
module Browser {

  /** Where a Ctrl+C from the user lands: in the wait for the sale, or at the
      start of one of the booking steps. */
  datatype Stage = AtWait | AtBuyPage | AtShow | AtArea | AtCaptcha

  /** One side effect the bot asks of the browser, the OCR engine or `time`. */
  datatype Action =
    | Navigate(url: string)        // driver.get(url)
    | ClickArea(id: string)        // JavaScript click on an area link
    | Back                         // driver.back()
    | Pause(ms: nat)               // time.sleep
    | Refresh                      // page refresh
    | DownloadCaptcha              // fetch the captcha image
    | SaveCaptcha                  // write the fetched image to a file
    | RecognizeCaptcha             // run OCR on the image
    | ClickCaptcha                 // find the captcha image and click it
    | ScriptClickCaptcha           // find the captcha image again, click it by script
    | FillCaptcha(text: string)    // type the answer into the form
    | Submit                       // click the submit button
    | AcceptAlert                  // press OK on a native alert
    | AddCookie(index: nat)        // driver.add_cookie(cookies[index])

  /** How many times `a` occurs in the trace `t`. */
  function Occurrences(t: seq<Action>, a: Action): nat
    decreases |t|
  {
    if |t| == 0 then 0
    else Occurrences(t[..|t| - 1], a) + (if t[|t| - 1] == a then 1 else 0)
  }

  /** The last call of the trace `t` is `a`. */
  predicate EndsWith(t: seq<Action>, a: Action) {
    |t| > 0 && t[|t| - 1] == a
  }

  /** Concatenation of traces is associative. */
  lemma AppendAssociative(t: seq<Action>, u: seq<Action>, v: seq<Action>)
    ensures t + u + v == t + (u + v)
  {
  }

  /** Counting distributes over concatenation. */
  lemma {:induction false} OccurrencesAppend(t: seq<Action>, u: seq<Action>, a: Action)
    ensures Occurrences(t + u, a) == Occurrences(t, a) + Occurrences(u, a)
    decreases |u|
  {
    if u == [] {
      assert t + u == t;
    } else {
      var w := u[..|u| - 1];
      OccurrencesAppend(t, w, a);
      assert (t + u)[..|t + u| - 1] == t + w;
    }
  }

  /** Counting over a trace made of three consecutive parts. */
  lemma OccurrencesSplit(whole: seq<Action>, t: seq<Action>, u: seq<Action>, v: seq<Action>, a: Action)
    requires whole == t + u + v
    ensures Occurrences(whole, a) == Occurrences(t, a) + Occurrences(u, a) + Occurrences(v, a)
  {
    OccurrencesAppend(t, u, a);
    OccurrencesAppend(t + u, v, a);
  }

  /** A one-element trace counts its element once. */
  lemma OccurrencesOne(x: Action, a: Action)
    ensures Occurrences([x], a) == if x == a then 1 else 0
  {
    assert [x][..0] == [];
  }

  /** An action absent from a trace is counted zero times. */
  lemma {:induction false} OccurrencesAbsent(t: seq<Action>, a: Action)
    requires a !in t
    ensures Occurrences(t, a) == 0
    decreases |t|
  {
    if t != [] {
      assert forall b :: b in t[..|t| - 1] ==> b in t;
      OccurrencesAbsent(t[..|t| - 1], a);
    }
  }

  /** The wall clock in integer milliseconds. */
  class Clock {
    var now: int

    constructor (start: int)
      ensures now == start
    {
      now := start;
    }

    /** `time.sleep(ms / 1000)`: the clock moves forward by exactly `ms`. */
    method Sleep(ms: nat)
      modifies this
      ensures now == old(now) + ms
    {
      now := now + ms;
    }
  }
}
