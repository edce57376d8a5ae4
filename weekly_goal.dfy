/** Weekly goal progress: submissions since Monday of the current week
    against a fixed target of five. */
module WeeklyGoal {
  import opened Records

  /** The default weekly goal. */
  const WeeklyTarget: int := 5

  /** `date.weekday()` for a day ordinal: Monday is 0, Sunday is 6. */
  function Weekday(day: int): (w: int)
    ensures 0 <= w < 7
  {
    (day + 6) % 7
  }

  /** Monday of the week that contains `today`. */
  function WeekStart(today: int): (start: int)
    ensures today - 6 <= start <= today
    ensures Weekday(start) == 0
    ensures today - start == Weekday(today)
  {
    today - Weekday(today)
  }

  /** The number of submissions dated on or after `start`. */
  function CountFrom(subs: seq<Submission>, start: int): (n: nat)
    ensures n <= |subs|
  {
    if subs == [] then 0
    else (if subs[0].day >= start then 1 else 0) + CountFrom(subs[1..], start)
  }

  /** Submissions from earlier weeks do not count, wherever they sit. */
  lemma {:induction false} EarlierSubmissionsIgnored(earlier: seq<Submission>, recent: seq<Submission>, start: int)
    requires forall i :: 0 <= i < |earlier| ==> earlier[i].day < start
    ensures CountFrom(earlier + recent, start) == CountFrom(recent, start)
  {
    if earlier == [] {
      assert earlier + recent == recent;
    } else {
      EarlierSubmissionsIgnored(earlier[1..], recent, start);
      assert (earlier + recent)[1..] == earlier[1..] + recent;
    }
  }

  /** Every submission of the current week counts. */
  lemma {:induction false} ThisWeekAllCount(subs: seq<Submission>, start: int)
    requires forall i :: 0 <= i < |subs| ==> subs[i].day >= start
    ensures CountFrom(subs, start) == |subs|
  {
    if subs != [] {
      ThisWeekAllCount(subs[1..], start);
    }
  }

  datatype Goal = Goal(current: nat, target: int, percentage: int, remaining: int)

  /** `min(100, int(current / target * 100)) if target > 0 else 0` and
      `max(0, target - current)`. */
  function Progress(current: nat, target: int): (g: Goal)
    ensures g.current == current && g.target == target
    ensures 0 <= g.percentage <= 100
    ensures target <= 0 ==> g.percentage == 0
    ensures target > 0 ==> (g.percentage == 100 <==> current >= target)
    ensures target > 0 && g.percentage < 100 ==>
      g.percentage * target <= current * 100 < (g.percentage + 1) * target
    ensures g.remaining >= 0 && g.remaining >= target - current
    ensures g.remaining == 0 <==> current >= target
    ensures g.remaining > 0 ==> g.remaining + current == target
  {
    var pct := if target > 0 then Percent(current, target) else 0;
    Goal(current, target, pct, if target - current > 0 then target - current else 0)
  }

  /** The clamped whole percentage of `current` out of `target`. */
  function Percent(current: nat, target: int): (p: int)
    requires target > 0
    ensures 0 <= p <= 100
    ensures p == 100 <==> current >= target
    ensures p < 100 ==> p * target <= current * 100 < (p + 1) * target
  {
    var q := (current * 100) / target;
    assert q * target <= current * 100 < (q + 1) * target;
    if current >= target then
      assert q >= 100 by {
        assert 100 * target <= current * 100;
        ScaleOrder(100, q + 1, target);
      }
      100
    else
      assert q < 100 by {
        assert current * 100 < target * 100;
        ScaleOrder(q, 100, target);
      }
      q
  }

  /** Scaling by a positive factor keeps strict order in both directions. */
  lemma ScaleOrder(a: int, b: int, t: int)
    requires t > 0
    ensures a < b <==> a * t < b * t
  {
    if a < b {
      assert b * t - a * t == (b - a) * t;
    } else {
      assert a * t - b * t == (a - b) * t;
    }
  }

  /** The dashboard's weekly goal for the given day. */
  function WeeklyProgress(subs: seq<Submission>, today: int): (g: Goal)
    ensures g.target == WeeklyTarget
    ensures g.current == CountFrom(subs, WeekStart(today))
    ensures g.percentage == if g.current >= 5 then 100 else 20 * g.current
    ensures g.remaining == if g.current >= 5 then 0 else 5 - g.current
  {
    Progress(CountFrom(subs, WeekStart(today)), WeeklyTarget)
  }
}
