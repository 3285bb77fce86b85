/** Loading a saved login session: `load_cookies_json` in cookies.py and its
    copy in main.py. The JSON file is given already read (missing, malformed
    or a list of cookies); the browser's `add_cookie` is an oracle that may
    raise for a given cookie; the current time is a parameter, in milliseconds. */
module Cookies {
  import opened Wrappers
  import opened Browser

  /** One saved cookie: its optional "expiry" field, and whether the browser
      refuses it when it is added. */
  datatype Cookie = Cookie(expiry: Option<int>, addRaises: bool)

  /** The cookie file as the loader finds it. */
  datatype CookieFile =
    | Missing
    | Malformed(reason: string)
    | Parsed(cookies: seq<Cookie>)

  /** The message cookies.py raises for a file that is not valid JSON. */
  const ParseFailedPrefix: string := "Cookie 檔案解析失敗: "

  /** A cookie is expired when it has an expiry strictly before `now`; a
      cookie without one never is. The expiry is in seconds since the epoch,
      as browsers store it, while `now` is the clock in milliseconds, so the
      comparison with `time.time()` is made on the expiry scaled to
      milliseconds. */
  predicate Expired(c: Cookie, now: int) {
    c.expiry.Some? && c.expiry.value * 1000 < now
  }

  /** The `add_cookie` calls made for the first `n` cookies, in order: one
      per cookie that is not expired. */
  function AddSteps(cs: seq<Cookie>, now: int, n: nat): seq<Action>
    requires n <= |cs|
  {
    if n == 0 then []
    else AddSteps(cs, now, n - 1) + (if Expired(cs[n - 1], now) then [] else [AddCookie(n - 1)])
  }

  /** The value of the `valid_cookies` counter after the first `n` cookies:
      the cookies that are not expired and that the browser accepted. */
  function Added(cs: seq<Cookie>, now: int, n: nat): nat
    requires n <= |cs|
  {
    if n == 0 then 0
    else Added(cs, now, n - 1) + (if !Expired(cs[n - 1], now) && !cs[n - 1].addRaises then 1 else 0)
  }

  /** A cookie is offered to the browser exactly when it is not expired. */
  lemma {:induction false} AddStepsExactlyUnexpired(cs: seq<Cookie>, now: int, n: nat, j: nat)
    requires n <= |cs|
    ensures AddCookie(j) in AddSteps(cs, now, n) <==> j < n && !Expired(cs[j], now)
  {
    if n > 0 {
      AddStepsExactlyUnexpired(cs, now, n - 1, j);
    }
  }

  /** Loading cookies only adds cookies. */
  lemma {:induction false} AddStepsOnlyAdd(cs: seq<Cookie>, now: int, n: nat)
    requires n <= |cs|
    ensures forall x :: x in AddSteps(cs, now, n) ==> x.AddCookie? && x.index < n
  {
    if n > 0 {
      AddStepsOnlyAdd(cs, now, n - 1);
    }
  }

  /** Every call in the trace adds a cookie, so the counter never exceeds the
      number of calls, and it falls short of it by the refused ones only. */
  lemma {:induction false} AddedAtMostCalls(cs: seq<Cookie>, now: int, n: nat)
    requires n <= |cs|
    ensures Added(cs, now, n) <= |AddSteps(cs, now, n)|
    ensures (forall j :: 0 <= j < n ==> !cs[j].addRaises) ==> Added(cs, now, n) == |AddSteps(cs, now, n)|
  {
    if n > 0 {
      AddedAtMostCalls(cs, now, n - 1);
    }
  }

  /** The counter is positive exactly when some cookie is unexpired and
      accepted by the browser. */
  lemma {:induction false} AddedPositive(cs: seq<Cookie>, now: int, n: nat)
    requires n <= |cs|
    ensures Added(cs, now, n) > 0 <==> exists j :: 0 <= j < n && !Expired(cs[j], now) && !cs[j].addRaises
  {
    if n > 0 {
      AddedPositive(cs, now, n - 1);
      if !Expired(cs[n - 1], now) && !cs[n - 1].addRaises {
        assert Added(cs, now, n) > 0;
      }
    }
  }

  /** The loop over the parsed cookies: skip expired ones, add the rest, and
      count the adds that did not raise. */
  method AddValidCookies(cs: seq<Cookie>, now: int) returns (valid: nat, trace: seq<Action>)
    ensures trace == AddSteps(cs, now, |cs|)
    ensures valid == Added(cs, now, |cs|)
  {
    valid := 0;
    trace := [];
    var i := 0;
    while i < |cs|
      invariant 0 <= i <= |cs|
      invariant trace == AddSteps(cs, now, i)
      invariant valid == Added(cs, now, i)
    {
      var c := cs[i];
      if !Expired(c, now) {
        trace := trace + [AddCookie(i)];
        if !c.addRaises {
          valid := valid + 1;
        }
      }
      i := i + 1;
    }
  }

  /** `load_cookies_json`. A missing file gives False with no browser call.
      A malformed file raises in cookies.py (`strict`) and gives False in
      main.py. Otherwise the result is whether at least one cookie was added. */
  method LoadCookiesJson(file: CookieFile, now: int, strict: bool) returns (r: Result<bool, string>, trace: seq<Action>)
    ensures file.Missing? ==> r == Ok(false) && trace == []
    ensures file.Malformed? ==>
              trace == [] && r == (if strict then Err(ParseFailedPrefix + file.reason) else Ok(false))
    ensures file.Parsed? ==>
              trace == AddSteps(file.cookies, now, |file.cookies|)
              && r == Ok(Added(file.cookies, now, |file.cookies|) > 0)
  {
    match file {
      case Missing =>
        return Ok(false), [];
      case Malformed(reason) =>
        if strict {
          return Err(ParseFailedPrefix + reason), [];
        }
        return Ok(false), [];
      case Parsed(cs) =>
        var valid;
        valid, trace := AddValidCookies(cs, now);
        r := Ok(valid > 0);
    }
  }
}
