/** The two aggregates of the progress-stats endpoint of server/index.js over
    the days (as day numbers) on which a user completed at least one of the four
    daily items. The streak query is the gaps-and-islands idiom: number the
    days in ascending order, subtract the row number from each day, group by
    the difference, and report the size of the group holding the latest day. */
module ProgressStats {
  import opened Wrappers
  import opened JsObject

  /** `col = true` in SQL: only a stored boolean true matches. */
  predicate IsTrue(row: Entries, column: string)
  {
    Get(row, column) == Some(JBool(true))
  }

  /** The WHERE clause shared by both aggregates. */
  predicate Completed(row: Entries)
  {
    IsTrue(row, "devotional_completed") || IsTrue(row, "study_completed")
    || IsTrue(row, "journal_completed") || IsTrue(row, "challenge_completed")
  }

  /** The distinct days of a user with a completed item. */
  function ActiveDays(workflows: map<(string, int), Entries>, userId: string): (r: set<int>)
    ensures forall d :: d in r <==> (userId, d) in workflows && Completed(workflows[(userId, d)])
  {
    set key | key in workflows && key.0 == userId && Completed(workflows[key]) :: key.1
  }

  /** `COUNT(DISTINCT date)`. */
  function TotalDays(workflows: map<(string, int), Entries>, userId: string): nat
  {
    |ActiveDays(workflows, userId)|
  }

  // ------------------------------------------------------------ sorted days

  predicate Increasing(s: seq<int>)
  {
    forall i, j :: 0 <= i < j < |s| ==> s[i] < s[j]
  }

  lemma HasElement(days: set<int>)
    requires days != {}
    ensures exists x :: x in days
  {
    if forall x :: x !in days {
      assert false;
    }
  }

  /** The latest of a non-empty set of days. */
  ghost function MaxOf(days: set<int>): (m: int)
    requires days != {}
    ensures m in days && forall d :: d in days ==> d <= m
    decreases |days|
  {
    HasElement(days);
    var x :| x in days;
    var rest := days - {x};
    if rest == {} then
      assert days == {x};
      x
    else
      var m := MaxOf(rest);
      assert forall d :: d in days ==> d == x || d in rest;
      if x > m then x else m
  }

  /** `ORDER BY date`: the days in ascending order. */
  ghost function SortedDays(days: set<int>): (s: seq<int>)
    ensures |s| == |days| && Increasing(s)
    ensures forall d :: d in s <==> d in days
    ensures days != {} ==> s[|s| - 1] == MaxOf(days)
    decreases |days|
  {
    if days == {} then []
    else
      var m := MaxOf(days);
      var rest := SortedDays(days - {m});
      assert |days - {m}| == |days| - 1;
      SnocIncreasing(rest, m);
      rest + [m]
  }

  /** A day later than every day of an increasing sequence extends it. */
  lemma SnocIncreasing(s: seq<int>, m: int)
    requires Increasing(s) && forall d :: d in s ==> d < m
    ensures Increasing(s + [m])
  {
    var t := s + [m];
    forall i, j | 0 <= i < j < |t| ensures t[i] < t[j] {
      assert t[i] == s[i] && s[i] in s;
      if j < |s| {
        assert t[j] == s[j];
      }
    }
  }

  /** Days of an increasing sequence are at least as far apart as their positions. */
  lemma {:induction false} Spread(s: seq<int>, i: nat, j: nat)
    requires Increasing(s) && i <= j < |s|
    ensures s[j] - s[i] >= j - i
    decreases j - i
  {
    if i < j {
      Spread(s, i, j - 1);
    }
  }

  // --------------------------------------------------------- the SQL query

  /** `date - INTERVAL '1 day' * ROW_NUMBER() OVER (ORDER BY date)`. */
  function GroupDate(s: seq<int>, i: nat): int
    requires i < |s|
  {
    s[i] - (i + 1)
  }

  /** `COUNT(*) ... GROUP BY group_date` for one group. */
  function GroupSize(s: seq<int>, g: int): (n: nat)
    ensures n <= |s|
  {
    if s == [] then 0
    else GroupSize(s[..|s| - 1], g) + (if GroupDate(s, |s| - 1) == g then 1 else 0)
  }

  /** `ORDER BY MAX(date) DESC LIMIT 1`, `rows[0]?.current_streak || 0`: the size
      of the group of the latest day, or 0 when there is no day at all. */
  ghost function CurrentStreak(days: set<int>): (n: nat)
    ensures n <= |days|
  {
    var s := SortedDays(days);
    if s == [] then 0 else GroupSize(s, GroupDate(s, |s| - 1))
  }

  // ----------------------------------------------------- what it amounts to

  /** The length of the run of consecutive days ending at the last day. */
  function TrailingRun(s: seq<int>): (n: nat)
    requires |s| > 0
    ensures 1 <= n <= |s|
  {
    if |s| == 1 || s[|s| - 2] != s[|s| - 1] - 1 then 1
    else TrailingRun(s[..|s| - 1]) + 1
  }

  lemma {:induction false} GroupSizeBelow(s: seq<int>, g: int)
    requires forall i :: 0 <= i < |s| ==> GroupDate(s, i) < g
    ensures GroupSize(s, g) == 0
    decreases |s|
  {
    if s != [] {
      var p := s[..|s| - 1];
      forall i | 0 <= i < |p| ensures GroupDate(p, i) < g {
        assert GroupDate(p, i) == GroupDate(s, i);
      }
      GroupSizeBelow(p, g);
    }
  }

  /** The group of the last day is exactly the trailing run of consecutive days. */
  lemma {:induction false} GroupIsTrailingRun(s: seq<int>)
    requires |s| > 0 && Increasing(s)
    ensures GroupSize(s, GroupDate(s, |s| - 1)) == TrailingRun(s)
    decreases |s|
  {
    var n := |s|;
    var g := GroupDate(s, n - 1);
    if n > 1 {
      var p := s[..n - 1];
      assert Increasing(p);
      if s[n - 2] == s[n - 1] - 1 {
        assert GroupDate(p, n - 2) == g;
        GroupIsTrailingRun(p);
      } else {
        forall i | 0 <= i < |p| ensures GroupDate(p, i) < g {
          Spread(s, i, n - 2);
          assert s[n - 2] < s[n - 1] - 1;
        }
        GroupSizeBelow(p, g);
      }
    }
  }

  /** The trailing run is maximal: its days are all present and the day before it is not. */
  lemma {:induction false} TrailingRunMaximal(s: seq<int>)
    requires |s| > 0 && Increasing(s)
    ensures var k := TrailingRun(s); var last := s[|s| - 1];
            (forall d :: last - k < d <= last ==> d in s) && last - k !in s
    decreases |s|
  {
    var n := |s|;
    var last := s[n - 1];
    var k := TrailingRun(s);
    if n > 1 {
      var p := s[..n - 1];
      assert Increasing(p);
      if s[n - 2] == last - 1 {
        TrailingRunMaximal(p);
        assert forall d :: d in p ==> d in s;
      }
    }
  }

  /** The run `(last - k, last]` is in `days` and `last - k` is not. */
  predicate MaximalRunEndingAt(days: set<int>, last: int, k: nat)
  {
    (forall d :: last - k < d <= last ==> d in days) && last - k !in days
  }

  /** The trailing run of an increasing sequence is a maximal run of its days. */
  lemma RunOfSorted(s: seq<int>, days: set<int>)
    requires |s| > 0 && Increasing(s)
    requires forall d :: d in s <==> d in days
    ensures MaximalRunEndingAt(days, s[|s| - 1], TrailingRun(s))
  {
    TrailingRunMaximal(s);
  }

  /** The streak is the length of the latest maximal run of consecutive active
      days (0 when there is none), and never exceeds the total. */
  lemma CurrentStreakMeaning(days: set<int>)
    ensures CurrentStreak(days) <= |days|
    ensures days == {} <==> CurrentStreak(days) == 0
    ensures days != {} ==> MaximalRunEndingAt(days, MaxOf(days), CurrentStreak(days))
  {
    if days != {} {
      var s := SortedDays(days);
      GroupIsTrailingRun(s);
      RunOfSorted(s, days);
    }
  }

  /** The two statistics of the endpoint agree: the streak never exceeds the
      number of active days, and it is zero exactly when there are none. */
  lemma StreakWithinTotal(workflows: map<(string, int), Entries>, userId: string)
    ensures CurrentStreak(ActiveDays(workflows, userId)) <= TotalDays(workflows, userId)
    ensures TotalDays(workflows, userId) == 0 <==> CurrentStreak(ActiveDays(workflows, userId)) == 0
  {
    CurrentStreakMeaning(ActiveDays(workflows, userId));
  }
}
