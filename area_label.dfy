/** Classification of one seating-area link by its displayed name, shared by
    `select_area` in purchase.py and in main.py. */
module AreaLabel {
  import opened Wrappers
  import opened PyText

  const SoldOutMark: string := "已售完"
  const RemainingMark: string := "剩餘"
  const HotMark: string := "熱賣中"

  datatype AreaStatus =
    | SoldOut                 // "已售完" somewhere in the name
    | Remaining(count: nat)   // "剩餘" followed by optional whitespace and digits
    | RemainingUnreadable     // "剩餘" present but never followed by a number
    | HotSelling              // "熱賣中", count unknown
    | Unrecognised            // none of the three markers

  /** End of the run of whitespace starting at `k`. */
  function SpaceRunEnd(s: string, k: nat): (e: nat)
    requires k <= |s|
    ensures k <= e <= |s| && AllSpace(s[k..e])
    ensures e == |s| || !IsSpace(s[e])
    decreases |s| - k
  {
    if k < |s| && IsSpace(s[k]) then SpaceRunEnd(s, k + 1) else k
  }

  /** End of the run of ASCII digits starting at `k`. */
  function DigitRunEnd(s: string, k: nat): (e: nat)
    requires k <= |s|
    ensures k <= e <= |s| && forall i :: k <= i < e ==> IsDigit(s[i])
    ensures e == |s| || !IsDigit(s[e])
    decreases |s| - k
  {
    if k < |s| && IsDigit(s[k]) then DigitRunEnd(s, k + 1) else k
  }

  /** The regular expression `剩餘\s*(\d+)` anchored at position `i`: the
      captured number, if the pattern matches there. Whitespace and digits are
      disjoint, so the greedy `\s*` never needs to give characters back. */
  function RemainingAt(s: string, i: nat): Option<nat>
    requires i <= |s|
  {
    if RemainingMark <= s[i..] then
      var k := SpaceRunEnd(s, i + |RemainingMark|);
      var e := DigitRunEnd(s, k);
      if k < e then Some(DigitsValue(s[k..e])) else None
    else None
  }

  /** `re.search(r"剩餘\s*(\d+)", s)` from position `i` on: the leftmost match wins. */
  function SearchRemaining(s: string, i: nat): Option<nat>
    requires i <= |s|
    decreases |s| - i
  {
    match RemainingAt(s, i)
    case Some(n) => Some(n)
    case None => if i == |s| then None else SearchRemaining(s, i + 1)
  }

  /** The name tests of `select_area`, in the source's order: sold-out first,
      then the remaining count, then hot-selling, otherwise unrecognised. */
  function Classify(name: string): AreaStatus {
    if Contains(name, SoldOutMark) then SoldOut
    else if Contains(name, RemainingMark) then
      match SearchRemaining(name, 0)
      case Some(n) => Remaining(n)
      case None => RemainingUnreadable
    else if Contains(name, HotMark) then HotSelling
    else Unrecognised
  }

  /** Whether the loop goes on to open the area (`True`) or `continue`s past it. */
  predicate ShouldAttempt(name: string, minTicket: int) {
    match Classify(name)
    case SoldOut => false
    case Remaining(n) => n >= minTicket
    case RemainingUnreadable => true
    case HotSelling => true
    case Unrecognised => false
  }

  /** A sold-out name is never attempted, whatever else it says. */
  lemma SoldOutNeverAttempted(name: string, minTicket: int)
    requires Contains(name, SoldOutMark)
    ensures Classify(name) == SoldOut && !ShouldAttempt(name, minTicket)
  {
  }

  /** A name with none of the three markers is skipped. */
  lemma UnmarkedSkipped(name: string, minTicket: int)
    requires !Contains(name, SoldOutMark) && !Contains(name, RemainingMark) && !Contains(name, HotMark)
    ensures !ShouldAttempt(name, minTicket)
  {
  }

  /** Hot-selling labels are always attempted (when not also sold out or counted). */
  lemma HotSellingAttempted(name: string, minTicket: int)
    requires !Contains(name, SoldOutMark) && !Contains(name, RemainingMark) && Contains(name, HotMark)
    ensures ShouldAttempt(name, minTicket)
  {
  }

  /** A "剩餘" name whose marker is never followed by digits falls through
      and is attempted. */
  lemma UnreadableRemainingAttempted(name: string, minTicket: int)
    requires !Contains(name, SoldOutMark) && Contains(name, RemainingMark)
    requires SearchRemaining(name, 0).None?
    ensures ShouldAttempt(name, minTicket)
  {
  }

  lemma NoSoldOutMark(s: string)
    requires forall i :: 0 <= i < |s| ==> s[i] != '已'
    ensures !Contains(s, SoldOutMark)
  {
    forall i | 0 <= i <= |s| ensures !(SoldOutMark <= s[i..]) {
      if i < |s| { assert s[i..][0] != SoldOutMark[0]; }
    }
  }

  /** The name "剩餘 N" (the site's format) reads as N remaining seats. */
  lemma {:induction false} RemainingLabelReadsCount(n: nat)
    ensures Classify(RemainingMark + " " + IntString(n)) == Remaining(n)
  {
    var digits := IntString(n);
    IntStringRoundTrip(n);
    var s := RemainingMark + " " + digits;
    assert |s| == 3 + |digits|;
    forall i | 0 <= i < |s| ensures s[i] != '已' {
      if i >= 3 { assert s[i] == digits[i - 3]; }
    }
    NoSoldOutMark(s);
    assert RemainingMark <= s[0..];
    assert Contains(s, RemainingMark);
    assert SpaceRunEnd(s, 3) == 3 by {
      assert !IsSpace(s[3]) by { assert s[3] == digits[0]; }
      assert SpaceRunEnd(s, 2) == SpaceRunEnd(s, 3);
    }
    var e := DigitRunEnd(s, 3);
    assert forall i :: 3 <= i < |s| ==> s[i] == digits[i - 3];
    assert e == |s|;
    assert s[3..e] == digits;
    assert RemainingAt(s, 0) == Some(n);
  }

  /** The boundary of the remaining-count rule: exactly the required count is
      attempted, one fewer is skipped. */
  lemma RemainingBoundary(n: nat, minTicket: int)
    ensures ShouldAttempt(RemainingMark + " " + IntString(n), minTicket) <==> n >= minTicket
  {
    RemainingLabelReadsCount(n);
  }
}
