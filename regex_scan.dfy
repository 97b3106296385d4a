/** The fixed regular expressions of the memory extractors, written out as
    scanners. JavaScript's `match` without the `g` flag returns the leftmost
    match; each pattern below has exactly one way to match at a given start
    (a greedy digit or space run can only be shortened onto a digit or a space,
    which the next token never accepts), so a scanner per start position and a
    leftmost search describe the engine's result. The `i` flag is modelled for
    ASCII letters. */
module RegexScan {
  import opened Wrappers
  import opened Strings

  /** The end of the run of decimal digits starting at `i`. */
  function DigitRunEnd(s: string, i: nat): (j: nat)
    requires i <= |s|
    ensures i <= j <= |s|
    ensures forall k :: i <= k < j ==> IsDigit(s[k])
    ensures j == |s| || !IsDigit(s[j])
    decreases |s| - i
  {
    if i < |s| && IsDigit(s[i]) then DigitRunEnd(s, i + 1) else i
  }

  /** The end of the run of `\s` characters starting at `i`. */
  function SpaceRunEnd(s: string, i: nat): (j: nat)
    requires i <= |s|
    ensures i <= j <= |s|
    ensures forall k :: i <= k < j ==> IsJsSpace(s[k])
    ensures j == |s| || !IsJsSpace(s[j])
    decreases |s| - i
  {
    if i < |s| && IsJsSpace(s[i]) then SpaceRunEnd(s, i + 1) else i
  }

  /** `p` (lower case) occurs at `i`, ignoring the case of ASCII letters. */
  predicate OccursAtCI(s: string, p: string, i: nat)
  {
    i + |p| <= |s| && ToLower(s[i..i + |p|]) == p
  }

  /** A match of `(\d+) (weeks?|months?) ago` starting at `i`: its end. */
  function TimeAgoAt(s: string, i: nat): (r: Option<nat>)
    ensures r.Some? ==> i < r.value <= |s|
  {
    if i < |s| && IsDigit(s[i]) then
      var j := DigitRunEnd(s, i);
      if OccursAt(s, " ", j) then
        var w := j + 1;
        var unit := if OccursAtCI(s, "week", w) then Some(w + 4)
                    else if OccursAtCI(s, "month", w) then Some(w + 5)
                    else None;
        match unit
        case None => None
        case Some(k) =>
          var k' := if k < |s| && LowerChar(s[k]) == 's' then k + 1 else k;
          if OccursAtCI(s, " ago", k') then Some(k' + 4) else None
      else None
    else None
  }

  /** A match of `(\d+) days?` starting at `i`: the end of the digit group. */
  function DaysAt(s: string, i: nat): (r: Option<nat>)
    ensures r.Some? ==> i < r.value <= |s| && forall k :: i <= k < r.value ==> IsDigit(s[k])
    ensures r.Some? ==> r.value == |s| || !IsDigit(s[r.value])
  {
    if i < |s| && IsDigit(s[i]) then
      var j := DigitRunEnd(s, i);
      if OccursAt(s, " ", j) && OccursAtCI(s, "day", j + 1) then Some(j) else None
    else None
  }

  /** A match of `(\d+)\s*days?\s*streak` starting at `i`: the end of the digit group. */
  function StreakAt(s: string, i: nat): (r: Option<nat>)
    ensures r.Some? ==> i < r.value <= |s| && forall k :: i <= k < r.value ==> IsDigit(s[k])
    ensures r.Some? ==> r.value == |s| || !IsDigit(s[r.value])
  {
    if i < |s| && IsDigit(s[i]) then
      var j := DigitRunEnd(s, i);
      var d := SpaceRunEnd(s, j);
      if OccursAtCI(s, "day", d) then
        var m := d + 3;
        var withS := m < |s| && LowerChar(s[m]) == 's' && OccursAtCI(s, "streak", SpaceRunEnd(s, m + 1));
        var withoutS := OccursAtCI(s, "streak", SpaceRunEnd(s, m));
        if withS || withoutS then Some(j) else None
      else None
    else None
  }

  /** The leftmost start at or after `from` where `at` finds a match, with the
      position `at` reports for it. */
  function Leftmost(s: string, at: (string, nat) -> Option<nat>, from: nat): (r: Option<(nat, nat)>)
    ensures r.Some? ==> from <= r.value.0 <= |s| && at(s, r.value.0) == Some(r.value.1)
    ensures r.Some? ==> forall k :: from <= k < r.value.0 ==> at(s, k).None?
    ensures r.None? ==> forall k :: from <= k <= |s| ==> at(s, k).None?
    decreases |s| + 1 - from
  {
    if from > |s| then None
    else match at(s, from)
      case Some(e) => Some((from, e))
      case None => Leftmost(s, at, from + 1)
  }

  /** `at` matches at `i`, reporting `e`, and at no earlier start. */
  predicate FirstMatchAt(s: string, at: (string, nat) -> Option<nat>, i: nat, e: nat)
  {
    at(s, i) == Some(e) && forall k :: 0 <= k < i ==> at(s, k).None?
  }

  /** `s.match(/(\d+) (weeks?|months?) ago/i)[0]`, or None when there is no match. */
  function MatchTimeAgo(s: string): (r: Option<string>)
    ensures r.Some? ==> exists i, e :: 0 <= i < e <= |s| && FirstMatchAt(s, TimeAgoAt, i, e) && r.value == s[i..e]
    ensures r.None? <==> forall k :: 0 <= k <= |s| ==> TimeAgoAt(s, k).None?
  {
    match Leftmost(s, TimeAgoAt, 0)
    case Some((i, e)) => Some(s[i..e])
    case None => None
  }

  /** `s.match(/(\d+) days?/i)[1]`, or None when there is no match. */
  function MatchDays(s: string): (r: Option<string>)
    ensures r.Some? ==> |r.value| > 0 && forall k :: 0 <= k < |r.value| ==> IsDigit(r.value[k])
    ensures r.Some? ==> exists i, e :: 0 <= i < e <= |s| && FirstMatchAt(s, DaysAt, i, e) && r.value == s[i..e]
    ensures r.None? <==> forall k :: 0 <= k <= |s| ==> DaysAt(s, k).None?
  {
    match Leftmost(s, DaysAt, 0)
    case Some((i, e)) => Some(s[i..e])
    case None => None
  }

  /** `s.match(/(\d+)\s*days?\s*streak/i)[1]`, or None when there is no match. */
  function MatchStreak(s: string): (r: Option<string>)
    ensures r.Some? ==> |r.value| > 0 && forall k :: 0 <= k < |r.value| ==> IsDigit(r.value[k])
    ensures r.Some? ==> exists i, e :: 0 <= i < e <= |s| && FirstMatchAt(s, StreakAt, i, e) && r.value == s[i..e]
    ensures r.None? <==> forall k :: 0 <= k <= |s| ==> StreakAt(s, k).None?
  {
    match Leftmost(s, StreakAt, 0)
    case Some((i, e)) => Some(s[i..e])
    case None => None
  }
}
