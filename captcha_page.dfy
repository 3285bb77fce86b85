/** captcha.py: the page-level captcha helper that both the solver class and
    the test1.py script call to ask the page for a new image. */
module CaptchaPage {
  import opened Browser

  /** Whether finding and clicking the captcha image raises (one
      `ClickCaptcha` entry stands for both), and whether the JavaScript click
      tried after it raises too. */
  datatype RefreshScript = RefreshScript(clickRaises: bool, scriptClickRaises: bool)

  /** `refresh_captcha`: a click, or a JavaScript click when it fails, each
      followed by half a second's sleep; when both fail it raises. */
  function RefreshCaptcha(s: RefreshScript): (r: (bool, seq<Action>))
  {
    if !s.clickRaises then (true, [ClickCaptcha, Pause(500)])
    else if !s.scriptClickRaises then (true, [ClickCaptcha, ScriptClickCaptcha, Pause(500)])
    else (false, [ClickCaptcha, ScriptClickCaptcha])
  }

  /** The refresh works unless both clicks raise; it always starts with the
      plain click, tries the script click exactly when that one raises, only
      clicks and sleeps, and ends with the half-second sleep exactly when it
      works. */
  lemma RefreshCaptchaOutcome(s: RefreshScript)
    ensures var r := RefreshCaptcha(s);
      (r.0 <==> !(s.clickRaises && s.scriptClickRaises))
      && |r.1| >= 1 && r.1[0] == ClickCaptcha
      && (ScriptClickCaptcha in r.1 <==> s.clickRaises)
      && (r.0 <==> r.1[|r.1| - 1] == Pause(500))
      && (forall x :: x in r.1 ==> x == ClickCaptcha || x == ScriptClickCaptcha || x == Pause(500))
  {
  }

  /** A refresh records one find-and-click of the image, whichever way it
      goes, and never downloads. */
  lemma RefreshClicksOnce(s: RefreshScript)
    ensures Occurrences(RefreshCaptcha(s).1, ClickCaptcha) == 1
    ensures Occurrences(RefreshCaptcha(s).1, DownloadCaptcha) == 0
  {
    var t := RefreshCaptcha(s).1;
    var rest := t[1..];
    assert t == [ClickCaptcha] + rest;
    assert ClickCaptcha !in rest && DownloadCaptcha !in t;
    OccurrencesAbsent(rest, ClickCaptcha);
    OccurrencesAbsent(t, DownloadCaptcha);
    OccurrencesAppend([ClickCaptcha], rest, ClickCaptcha);
    OccurrencesOne(ClickCaptcha, ClickCaptcha);
  }

  /** An action a refresh never performs does not occur in its trace. */
  lemma RefreshAvoids(s: RefreshScript, x: Action)
    requires x != ClickCaptcha && x != ScriptClickCaptcha && x != Pause(500)
    ensures Occurrences(RefreshCaptcha(s).1, x) == 0
  {
    RefreshCaptchaOutcome(s);
    OccurrencesAbsent(RefreshCaptcha(s).1, x);
  }
}
