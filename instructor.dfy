/** The instructor dashboard: class-wide summary over every submission and a
    7-day sparkline (oldest day first) of four per-day figures. */
module Instructor {
  import opened Scores
  import opened Records
  import opened AreaAverages

  /** The distinct student ids among the submissions. */
  function Students(subs: seq<Submission>): (r: set<int>)
    ensures |r| <= |subs|
    ensures subs != [] ==> |r| > 0
  {
    if subs == [] then {}
    else
      var rest := Students(subs[..|subs| - 1]);
      var r := rest + {subs[|subs| - 1].student};
      assert |r| >= 1 by {
        assert subs[|subs| - 1].student in r;
      }
      r
  }

  datatype Summary = Summary(classAverage: real, activeCount: nat, pendingCount: int)

  /** `class_avg`, `active_count` and `pending_count`. */
  function ClassSummary(subs: seq<Submission>): (r: Summary)
    ensures r.classAverage == GradedAverage(subs)
    ensures ValidSubmissions(subs) ==> InRange(r.classAverage)
    ensures r.activeCount == |Students(subs)| <= |subs|
    ensures subs != [] <==> r.activeCount > 0
    ensures r.pendingCount == UngradedCount(subs)
    ensures 0 <= r.pendingCount <= |subs|
  {
    Summary(GradedAverage(subs), |Students(subs)|, |subs| - |GradeScores(subs)|)
  }

  // ---- Per-day figures, as a specification of the sparkline loop ----

  /** Submissions dated `d`. */
  function CountOn(subs: seq<Submission>, d: int): (n: nat)
    ensures n <= |subs|
  {
    if subs == [] then 0
    else CountOn(subs[..|subs| - 1], d) + (if subs[|subs| - 1].day == d then 1 else 0)
  }

  /** Ungraded submissions dated `d`; never more than all submissions that day. */
  function PendingOn(subs: seq<Submission>, d: int): (n: nat)
    ensures n <= CountOn(subs, d)
  {
    if subs == [] then 0
    else
      var last := subs[|subs| - 1];
      PendingOn(subs[..|subs| - 1], d) + (if last.day == d && last.grade.None? then 1 else 0)
  }

  /** Grade scores of the submissions dated `d`, in order; graded plus pending
      is the day's total. */
  function ScoresOn(subs: seq<Submission>, d: int): (r: seq<real>)
    ensures |r| + PendingOn(subs, d) == CountOn(subs, d)
    ensures ValidSubmissions(subs) ==> AllInRange(r)
  {
    if subs == [] then []
    else
      var init := subs[..|subs| - 1];
      assert ValidSubmissions(subs) ==> ValidSubmissions(init);
      var last := subs[|subs| - 1];
      ScoresOn(init, d) + (if last.day == d && last.grade.Some? then [last.grade.value.score] else [])
  }

  /** Distinct students who submitted on `d`; never more than that day's submissions. */
  function StudentsOn(subs: seq<Submission>, d: int): (r: set<int>)
    ensures |r| <= CountOn(subs, d)
  {
    if subs == [] then {}
    else
      var last := subs[|subs| - 1];
      StudentsOn(subs[..|subs| - 1], d) + (if last.day == d then {last.student} else {})
  }

  // ---- The sparkline loop ----

  /** `last_7_days` is today - 6 .. today, oldest first. */
  predicate InWindow(today: int, d: int) {
    today - 6 <= d <= today
  }

  /** `dict.get(key, default)`. */
  function Get<V>(m: map<int, V>, k: int, default: V): V {
    if k in m then m[k] else default
  }

  /** Each defaultdict agrees with its per-day figure of `subs` on every day
      of the window. */
  ghost predicate CountTally(counts: map<int, nat>, subs: seq<Submission>, today: int) {
    forall d :: InWindow(today, d) ==> Get(counts, d, 0) == CountOn(subs, d)
  }

  ghost predicate PendingTally(pending: map<int, nat>, subs: seq<Submission>, today: int) {
    forall d :: InWindow(today, d) ==> Get(pending, d, 0) == PendingOn(subs, d)
  }

  ghost predicate ScoreTally(scores: map<int, seq<real>>, subs: seq<Submission>, today: int) {
    forall d :: InWindow(today, d) ==> Get(scores, d, []) == ScoresOn(subs, d)
  }

  ghost predicate StudentTally(students: map<int, set<int>>, subs: seq<Submission>, today: int) {
    forall d :: InWindow(today, d) ==> Get(students, d, {}) == StudentsOn(subs, d)
  }

  /** One more submission bumps its own day's count, when that day is in the window. */
  lemma CountTallySnoc(counts: map<int, nat>, subs: seq<Submission>, s: Submission, today: int)
    requires CountTally(counts, subs, today)
    ensures CountTally(if InWindow(today, s.day) then counts[s.day := Get(counts, s.day, 0) + 1] else counts, subs + [s], today)
  {
    forall d | InWindow(today, d) {
      DayFiguresSnoc(subs, s, d);
    }
  }

  /** One more ungraded submission bumps its own day's pending count. */
  lemma PendingTallySnoc(pending: map<int, nat>, subs: seq<Submission>, s: Submission, today: int)
    requires PendingTally(pending, subs, today)
    ensures PendingTally(if InWindow(today, s.day) && s.grade.None? then pending[s.day := Get(pending, s.day, 0) + 1] else pending, subs + [s], today)
  {
    forall d | InWindow(today, d) {
      DayFiguresSnoc(subs, s, d);
    }
  }

  /** One more graded submission appends its score to its own day's list. */
  lemma ScoreTallySnoc(scores: map<int, seq<real>>, subs: seq<Submission>, s: Submission, today: int)
    requires ScoreTally(scores, subs, today)
    ensures ScoreTally(if InWindow(today, s.day) && s.grade.Some? then scores[s.day := Get(scores, s.day, []) + [s.grade.value.score]] else scores, subs + [s], today)
  {
    forall d | InWindow(today, d) {
      DayFiguresSnoc(subs, s, d);
    }
  }

  /** One more submission adds its student to its own day's set. */
  lemma StudentTallySnoc(students: map<int, set<int>>, subs: seq<Submission>, s: Submission, today: int)
    requires StudentTally(students, subs, today)
    ensures StudentTally(if InWindow(today, s.day) then students[s.day := Get(students, s.day, {}) + {s.student}] else students, subs + [s], today)
  {
    forall d | InWindow(today, d) {
      DayFiguresSnoc(subs, s, d);
    }
  }

  /** The per-day figures of `subs + [s]` on day `d`, in terms of those of `subs`. */
  lemma DayFiguresSnoc(subs: seq<Submission>, s: Submission, d: int)
    ensures CountOn(subs + [s], d) == CountOn(subs, d) + (if s.day == d then 1 else 0)
    ensures PendingOn(subs + [s], d) == PendingOn(subs, d) + (if s.day == d && s.grade.None? then 1 else 0)
    ensures ScoresOn(subs + [s], d) == ScoresOn(subs, d) + (if s.day == d && s.grade.Some? then [s.grade.value.score] else [])
    ensures StudentsOn(subs + [s], d) == StudentsOn(subs, d) + (if s.day == d then {s.student} else {})
  {
    assert (subs + [s])[..|subs + [s]| - 1] == subs;
  }

  datatype Sparkline = Sparkline(submissions: seq<nat>, pending: seq<nat>, classAvg: seq<real>, activeStudents: seq<nat>)

  /** The loop over all submissions: the four defaultdicts, filled in place
      for the days of the window. */
  method TallyWindow(subs: seq<Submission>, today: int)
    returns (counts: map<int, nat>, pending: map<int, nat>, scores: map<int, seq<real>>, students: map<int, set<int>>)
    ensures CountTally(counts, subs, today) && PendingTally(pending, subs, today)
    ensures ScoreTally(scores, subs, today) && StudentTally(students, subs, today)
  {
    counts, pending, scores, students := map[], map[], map[], map[];
    var i := 0;
    while i < |subs|
      invariant 0 <= i <= |subs|
      invariant CountTally(counts, subs[..i], today)
      invariant PendingTally(pending, subs[..i], today)
      invariant ScoreTally(scores, subs[..i], today)
      invariant StudentTally(students, subs[..i], today)
    {
      var s := subs[i];
      CountTallySnoc(counts, subs[..i], s, today);
      PendingTallySnoc(pending, subs[..i], s, today);
      ScoreTallySnoc(scores, subs[..i], s, today);
      StudentTallySnoc(students, subs[..i], s, today);
      if InWindow(today, s.day) {
        counts := counts[s.day := Get(counts, s.day, 0) + 1];
        if s.grade.None? {
          pending := pending[s.day := Get(pending, s.day, 0) + 1];
        }
        if s.grade.Some? {
          scores := scores[s.day := Get(scores, s.day, []) + [s.grade.value.score]];
        }
        students := students[s.day := Get(students, s.day, {}) + {s.student}];
      }
      assert subs[..i] + [s] == subs[..i + 1];
      i := i + 1;
    }
    assert subs[..|subs|] == subs;
  }

  /** The sparkline: the four tallies read off for today - 6 .. today. */
  method BuildSparkline(subs: seq<Submission>, today: int) returns (sp: Sparkline)
    ensures |sp.submissions| == 7 && |sp.pending| == 7 && |sp.classAvg| == 7 && |sp.activeStudents| == 7
    ensures forall i :: 0 <= i < 7 ==>
      && sp.submissions[i] == CountOn(subs, today - 6 + i)
      && sp.pending[i] == PendingOn(subs, today - 6 + i)
      && sp.classAvg[i] == AverageOrZero(ScoresOn(subs, today - 6 + i))
      && sp.activeStudents[i] == |StudentsOn(subs, today - 6 + i)|
    ensures forall i :: 0 <= i < 7 ==> sp.pending[i] <= sp.submissions[i] && sp.activeStudents[i] <= sp.submissions[i]
    ensures forall i :: 0 <= i < 7 && sp.pending[i] == sp.submissions[i] ==> sp.classAvg[i] == 0.0
    ensures ValidSubmissions(subs) ==> forall i :: 0 <= i < 7 ==> InRange(sp.classAvg[i])
  {
    var counts, pending, scores, students := TallyWindow(subs, today);
    sp := Sparkline(
      seq(7, k requires 0 <= k < 7 => Get(counts, today - 6 + k, 0)),
      seq(7, k requires 0 <= k < 7 => Get(pending, today - 6 + k, 0)),
      seq(7, k requires 0 <= k < 7 => AverageOrZero(Get(scores, today - 6 + k, []))),
      seq(7, k requires 0 <= k < 7 => |Get(students, today - 6 + k, {})|));
    forall k | 0 <= k < 7
      ensures sp.submissions[k] == CountOn(subs, today - 6 + k)
      ensures sp.pending[k] == PendingOn(subs, today - 6 + k)
      ensures sp.classAvg[k] == AverageOrZero(ScoresOn(subs, today - 6 + k))
      ensures sp.activeStudents[k] == |StudentsOn(subs, today - 6 + k)|
      ensures sp.pending[k] == sp.submissions[k] ==> sp.classAvg[k] == 0.0
      ensures ValidSubmissions(subs) ==> InRange(sp.classAvg[k])
    {
      var d := today - 6 + k;
      assert InWindow(today, d);
      var xs := ScoresOn(subs, d);
      assert |xs| + PendingOn(subs, d) == CountOn(subs, d);
      assert sp.classAvg[k] == AverageOrZero(xs);
    }
  }
}
