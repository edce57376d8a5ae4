/** The current streak: how many consecutive days, ending today, have at least
    one submission (graded or not; quizzes do not count). */
module Streak {
  import opened Records

  /** The set of UTC days on which the student submitted something. */
  function SubmissionDays(subs: seq<Submission>): (r: set<int>)
    ensures forall i :: 0 <= i < |subs| ==> subs[i].day in r
    ensures forall d :: d in r ==> exists i :: 0 <= i < |subs| && subs[i].day == d
    ensures r == {} <==> subs == []
  {
    var r := set i | 0 <= i < |subs| :: subs[i].day;
    assert subs != [] ==> subs[0].day in r;
    r
  }

  /** `k` is the streak ending at `today`: the k days today, today - 1, ...,
      today - (k - 1) all have activity and the day before them has none. */
  ghost predicate IsStreak(days: set<int>, today: int, k: nat) {
    && (forall d :: today - k < d <= today ==> d in days)
    && today - k !in days
  }

  /** The days of `days` on or before `d`; the backward scan shrinks it. */
  function DaysUpTo(days: set<int>, d: int): set<int> {
    set x | x in days && x <= d
  }

  /** The backward scan from today. */
  method CurrentStreak(subs: seq<Submission>, today: int) returns (streak: nat)
    ensures IsStreak(SubmissionDays(subs), today, streak)
    ensures streak == 0 <==> today !in SubmissionDays(subs)
  {
    streak := 0;
    if |subs| > 0 {
      var days := SubmissionDays(subs);
      var check := today;
      while check in days
        invariant check == today - streak
        invariant forall d :: check < d <= today ==> d in days
        decreases |DaysUpTo(days, check)|
      {
        assert DaysUpTo(days, check - 1) == DaysUpTo(days, check) - {check};
        streak := streak + 1;
        check := check - 1;
      }
    }
  }

  /** The consecutive days today - k + 1 .. today. */
  function DayRange(today: int, k: nat): (r: set<int>)
    ensures |r| == k
    ensures forall d :: d in r <==> today - k < d <= today
  {
    if k == 0 then {}
    else
      var rest := DayRange(today, k - 1);
      assert today - k + 1 !in rest;
      rest + {today - k + 1}
  }

  /** A streak never exceeds the number of distinct active days. */
  lemma StreakAtMostActiveDays(days: set<int>, today: int, k: nat)
    requires IsStreak(days, today, k)
    ensures k <= |days|
  {
    var r := DayRange(today, k);
    assert r <= days;
    assert |days| == |r| + |days - r| by {
      assert days == r + (days - r);
    }
  }

  /** The characterisation pins the streak down: at most one k satisfies it. */
  lemma StreakUnique(days: set<int>, today: int, k1: nat, k2: nat)
    requires IsStreak(days, today, k1) && IsStreak(days, today, k2)
    ensures k1 == k2
  {
  }
}
