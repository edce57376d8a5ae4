/** The multi-series chart of the student dashboard: one shared, sorted axis
    of days and four index-aligned series (speaking, writing, quiz,
    handwritten) holding each day's rounded mean, or 0 on a day without data. */
module Chart {
  import opened Scores
  import opened Records
  import opened AreaAverages

  /** A scored event: its UTC day and its value. */
  datatype Event = Event(day: int, value: real)

  predicate ValidEvents(es: seq<Event>) {
    forall i :: 0 <= i < |es| ==> InRange(es[i].value)
  }

  /** The days that carry at least one event. */
  function EventDays(es: seq<Event>): set<int> {
    if es == [] then {} else EventDays(es[..|es| - 1]) + {es[|es| - 1].day}
  }

  /** The days of two streams joined are the union of their days. */
  lemma {:induction false} EventDaysAppend(a: seq<Event>, b: seq<Event>)
    ensures EventDays(a + b) == EventDays(a) + EventDays(b)
    decreases |b|
  {
    if b == [] {
      assert a + b == a;
    } else {
      EventDaysAppend(a, b[..|b| - 1]);
      assert (a + b)[..|a + b| - 1] == a + b[..|b| - 1];
    }
  }

  /** The values of the events on day `d`, in arrival order. */
  function ValuesOn(es: seq<Event>, d: int): (r: seq<real>)
    ensures |r| <= |es|
    ensures r == [] <==> d !in EventDays(es)
    ensures ValidEvents(es) ==> AllInRange(r)
  {
    if es == [] then []
    else
      var init := es[..|es| - 1];
      assert ValidEvents(es) ==> ValidEvents(init);
      var e := es[|es| - 1];
      ValuesOn(init, d) + (if e.day == d then [e.value] else [])
  }

  /** A chart slot: the day's mean rounded to one decimal, or 0 without events. */
  function DaySlot(es: seq<Event>, d: int): (v: real)
    ensures d !in EventDays(es) ==> v == 0.0
    ensures d in EventDays(es) ==> Mean(ValuesOn(es, d)) - 0.05 < v <= Mean(ValuesOn(es, d)) + 0.05
    ensures ValidEvents(es) ==> InRange(v)
  {
    AverageOrZero(ValuesOn(es, d))
  }

  // ---- The four event streams (the `*_by_date` filters) ----

  /** A speaking recording is CHARTED when both sub-scores are present
      (`is not None`): a zero sub-score still counts here, unlike in the average. */
  predicate ChartedSpeaking(s: Submission) {
    s.kind == Speaking && s.grade.Some? && s.grade.value.pronunciation.Some? && s.grade.value.fluency.Some?
  }

  function SpeakingEvents(subs: seq<Submission>): (r: seq<Event>)
    ensures |r| <= |subs|
    ensures ValidSubmissions(subs) ==> ValidEvents(r)
  {
    if subs == [] then []
    else
      var init := subs[..|subs| - 1];
      assert ValidSubmissions(subs) ==> ValidSubmissions(init);
      var s := subs[|subs| - 1];
      SpeakingEvents(init) +
        (if ChartedSpeaking(s)
         then [Event(s.day, SpeakingValue(s.grade.value.pronunciation.value, s.grade.value.fluency.value))]
         else [])
  }

  /** Writing or handwritten: every graded submission of that type. */
  function ScoreEvents(subs: seq<Submission>, t: SubmissionType): (r: seq<Event>)
    ensures |r| <= |subs|
    ensures ValidSubmissions(subs) ==> ValidEvents(r)
  {
    if subs == [] then []
    else
      var init := subs[..|subs| - 1];
      assert ValidSubmissions(subs) ==> ValidSubmissions(init);
      var s := subs[|subs| - 1];
      ScoreEvents(init, t) + (if s.kind == t && s.grade.Some? then [Event(s.day, s.grade.value.score)] else [])
  }

  /** Quizzes with both a date and a score. */
  function QuizEvents(quizzes: seq<QuizAttempt>): (r: seq<Event>)
    ensures |r| <= |quizzes|
    ensures ValidQuizzes(quizzes) ==> ValidEvents(r)
  {
    if quizzes == [] then []
    else
      var init := quizzes[..|quizzes| - 1];
      assert ValidQuizzes(quizzes) ==> ValidQuizzes(init);
      var q := quizzes[|quizzes| - 1];
      QuizEvents(init) + (if q.taken.Some? && q.score.Some? then [Event(q.taken.value, q.score.value)] else [])
  }

  /** Every charted speaking recording puts its day on the chart. */
  lemma {:induction false} ChartedSpeakingDay(subs: seq<Submission>, i: nat)
    requires i < |subs| && ChartedSpeaking(subs[i])
    ensures subs[i].day in EventDays(SpeakingEvents(subs))
  {
    var init := subs[..|subs| - 1];
    var s := subs[|subs| - 1];
    var last := if ChartedSpeaking(s)
      then [Event(s.day, SpeakingValue(s.grade.value.pronunciation.value, s.grade.value.fluency.value))]
      else [];
    EventDaysAppend(SpeakingEvents(init), last);
    if i == |subs| - 1 {
      assert EventDays(last) == {s.day} by {
        assert last[..0] == [];
      }
    } else {
      assert init[i] == subs[i];
      ChartedSpeakingDay(init, i);
    }
  }

  /** A speaking recording with a zero sub-score is left out of the speaking
      average yet still plotted on its day. */
  lemma ZeroSubScoreCharted(before: seq<Submission>, s: Submission, after: seq<Submission>)
    requires s.kind == Speaking && s.grade.Some?
    requires || (s.grade.value.pronunciation == Some(0.0) && s.grade.value.fluency.Some?)
             || (s.grade.value.pronunciation.Some? && s.grade.value.fluency == Some(0.0))
    ensures SpeakingAverage(before + [s] + after) == SpeakingAverage(before + after)
    ensures s.day in EventDays(SpeakingEvents(before + [s] + after))
  {
    ZeroSubScoreIgnored(before, s, after);
    var all := before + [s] + after;
    assert all[|before|] == s;
    ChartedSpeakingDay(all, |before|);
  }

  // ---- TimeBucketer: the `*_by_date` dictionaries ----

  /** `b` maps exactly the days of `es` to that day's values. */
  ghost predicate IsBuckets(b: map<int, seq<real>>, es: seq<Event>) {
    && b.Keys == EventDays(es)
    && forall d :: d in b ==> b[d] == ValuesOn(es, d)
  }

  /** Fills the per-day lists in place, one event at a time. */
  method BucketByDay(es: seq<Event>) returns (b: map<int, seq<real>>)
    ensures IsBuckets(b, es)
  {
    b := map[];
    var i := 0;
    while i < |es|
      invariant 0 <= i <= |es|
      invariant IsBuckets(b, es[..i])
    {
      var e := es[i];
      ghost var before := b;
      if e.day !in b {
        b := b[e.day := []];
      }
      b := b[e.day := b[e.day] + [e.value]];
      assert b == before[e.day := (if e.day in before then before[e.day] else []) + [e.value]];
      BucketsSnoc(before, es[..i], e);
      assert es[..i] + [e] == es[..i + 1];
      i := i + 1;
    }
    assert es[..|es|] == es;
  }

  /** One more event extends its day's list (creating it when missing). */
  lemma BucketsSnoc(b: map<int, seq<real>>, es: seq<Event>, e: Event)
    requires IsBuckets(b, es)
    ensures IsBuckets(b[e.day := (if e.day in b then b[e.day] else []) + [e.value]], es + [e])
  {
    assert (es + [e])[..|es + [e]| - 1] == es;
  }

  // ---- all_dates, kept sorted and free of duplicates ----

  predicate StrictlyAscending(s: seq<int>) {
    forall i, j :: 0 <= i < j < |s| ==> s[i] < s[j]
  }

  /** Adds one day to a sorted, duplicate-free sequence of days. */
  function InsertDay(r: seq<int>, x: int): (r': seq<int>)
    requires StrictlyAscending(r)
    ensures StrictlyAscending(r')
    ensures forall d :: d in r' <==> d in r || d == x
  {
    if r == [] then [x]
    else if x < r[0] then [x] + r
    else if x == r[0] then r
    else
      var rest := InsertDay(r[1..], x);
      assert forall d :: d in r <==> d == r[0] || d in r[1..];
      assert forall k :: 0 <= k < |rest| ==> r[0] < rest[k] by {
        forall k | 0 <= k < |rest|
          ensures r[0] < rest[k]
        {
          var d := rest[k];
          assert d in rest;
          if d != x {
            var j :| 0 <= j < |r[1..]| && r[1..][j] == d;
            assert r[j + 1] == d;
          }
        }
      }
      [r[0]] + rest
  }

  /** `all_dates.add(date_key)` for every event of one stream. */
  method AddDays(dates: seq<int>, es: seq<Event>) returns (r: seq<int>)
    requires StrictlyAscending(dates)
    ensures StrictlyAscending(r)
    ensures forall d :: d in r <==> d in dates || d in EventDays(es)
  {
    r := dates;
    var i := 0;
    while i < |es|
      invariant 0 <= i <= |es|
      invariant StrictlyAscending(r)
      invariant forall d :: d in r <==> d in dates || d in EventDays(es[..i])
    {
      assert es[..i + 1][..i] == es[..i];
      r := InsertDay(r, es[i].day);
      i := i + 1;
    }
    assert es[..|es|] == es;
  }

  /** A strictly ascending sequence is determined by its elements, so the
      chart's axis is fully specified by "sorted" and "these days". */
  lemma {:induction false} AscendingUnique(a: seq<int>, b: seq<int>)
    requires StrictlyAscending(a) && StrictlyAscending(b)
    requires forall d :: d in a <==> d in b
    ensures a == b
    decreases |a|
  {
    if a != [] {
      var x := a[0];
      assert x in a;
      assert x in b;
    }
    if b != [] {
      var y := b[0];
      assert y in b;
      assert y in a;
    }
    if a != [] && b != [] {
      var x, y := a[0], b[0];
      assert x in b && y in a;
      assert x == y;
      forall d
        ensures d in a[1..] <==> d in b[1..]
      {
        assert d in a[1..] <==> d in a && d != x;
        assert d in b[1..] <==> d in b && d != y;
      }
      AscendingUnique(a[1..], b[1..]);
      assert a == [x] + a[1..] && b == [y] + b[1..];
    }
  }

  // ---- TimeSeriesBuilder ----

  datatype ChartData = ChartData(
    dates: seq<int>,
    speaking: seq<real>,
    writing: seq<real>,
    quiz: seq<real>,
    handwritten: seq<real>)

  /** The chart slot read from a bucket map (`round(sum / len, 1)` or 0). */
  function BucketSlot(b: map<int, seq<real>>, d: int): real
    requires forall k :: k in b ==> b[k] != []
  {
    if d in b then RoundTenth(Mean(b[d])) else 0.0
  }

  lemma BucketSlotIsDaySlot(b: map<int, seq<real>>, es: seq<Event>, d: int)
    requires IsBuckets(b, es)
    ensures forall k :: k in b ==> b[k] != []
    ensures BucketSlot(b, d) == DaySlot(es, d)
  {
  }

  /** `xs` holds one slot of stream `es` per day of `dates`, index-aligned. */
  ghost predicate SeriesOf(xs: seq<real>, es: seq<Event>, dates: seq<int>) {
    |xs| == |dates| && forall i :: 0 <= i < |dates| ==> xs[i] == DaySlot(es, dates[i])
  }

  lemma SeriesSnoc(xs: seq<real>, es: seq<Event>, dates: seq<int>, d: int)
    requires SeriesOf(xs, es, dates)
    ensures SeriesOf(xs + [DaySlot(es, d)], es, dates + [d])
  {
  }

  /** One step of the chart loop for one stream: appending the slot read
      from the stream's bucket map keeps the series aligned. */
  lemma BucketSeriesSnoc(xs: seq<real>, b: map<int, seq<real>>, es: seq<Event>, dates: seq<int>, d: int)
    requires IsBuckets(b, es) && SeriesOf(xs, es, dates)
    ensures forall k :: k in b ==> b[k] != []
    ensures SeriesOf(xs + [BucketSlot(b, d)], es, dates + [d])
  {
    BucketSlotIsDaySlot(b, es, d);
    SeriesSnoc(xs, es, dates, d);
  }

  /** Every slot of a series over valid scores is itself a valid score. */
  lemma SeriesInRange(xs: seq<real>, es: seq<Event>, dates: seq<int>)
    requires SeriesOf(xs, es, dates) && ValidEvents(es)
    ensures forall i :: 0 <= i < |xs| ==> InRange(xs[i])
  {
    forall i | 0 <= i < |xs|
      ensures InRange(xs[i])
    {
      assert xs[i] == DaySlot(es, dates[i]);
    }
  }

  /** All four series, index-aligned to `dates`. */
  ghost predicate AlignedTo(c: ChartData, sp: seq<Event>, wr: seq<Event>, qz: seq<Event>, hw: seq<Event>) {
    && SeriesOf(c.speaking, sp, c.dates)
    && SeriesOf(c.writing, wr, c.dates)
    && SeriesOf(c.quiz, qz, c.dates)
    && SeriesOf(c.handwritten, hw, c.dates)
  }

  /** The loop over `sorted_dates`: for each day, one slot per stream read
      from that stream's bucket map, appended to the four lists. */
  method FillSeries(sorted: seq<int>, spB: map<int, seq<real>>, wrB: map<int, seq<real>>,
                    qzB: map<int, seq<real>>, hwB: map<int, seq<real>>,
                    ghost sp: seq<Event>, ghost wr: seq<Event>, ghost qz: seq<Event>, ghost hw: seq<Event>)
    returns (c: ChartData)
    requires IsBuckets(spB, sp) && IsBuckets(wrB, wr) && IsBuckets(qzB, qz) && IsBuckets(hwB, hw)
    ensures c.dates == sorted
    ensures AlignedTo(c, sp, wr, qz, hw)
  {
    var dates, spS, wrS, qzS, hwS := [], [], [], [], [];
    var i := 0;
    while i < |sorted|
      invariant 0 <= i <= |sorted|
      invariant dates == sorted[..i]
      invariant SeriesOf(spS, sp, dates) && SeriesOf(wrS, wr, dates)
      invariant SeriesOf(qzS, qz, dates) && SeriesOf(hwS, hw, dates)
    {
      var d := sorted[i];
      BucketSeriesSnoc(spS, spB, sp, dates, d);
      BucketSeriesSnoc(wrS, wrB, wr, dates, d);
      BucketSeriesSnoc(hwS, hwB, hw, dates, d);
      BucketSeriesSnoc(qzS, qzB, qz, dates, d);
      spS := spS + [BucketSlot(spB, d)];
      wrS := wrS + [BucketSlot(wrB, d)];
      hwS := hwS + [BucketSlot(hwB, d)];
      qzS := qzS + [BucketSlot(qzB, d)];
      dates := dates + [d];
      assert sorted[..i + 1] == sorted[..i] + [d];
      i := i + 1;
    }
    assert sorted[..|sorted|] == sorted;
    c := ChartData(dates, spS, wrS, qzS, hwS);
  }

  /** Builds the chart: the union of the four streams' days, sorted, and one
      slot per day and stream. */
  method BuildChart(sp: seq<Event>, wr: seq<Event>, qz: seq<Event>, hw: seq<Event>) returns (c: ChartData)
    ensures StrictlyAscending(c.dates)
    ensures forall d :: d in c.dates <==>
      d in EventDays(sp) || d in EventDays(wr) || d in EventDays(qz) || d in EventDays(hw)
    ensures AlignedTo(c, sp, wr, qz, hw)
  {
    var sorted := AddDays([], sp);
    sorted := AddDays(sorted, wr);
    sorted := AddDays(sorted, hw);
    sorted := AddDays(sorted, qz);
    var spB := BucketByDay(sp);
    var wrB := BucketByDay(wr);
    var hwB := BucketByDay(hw);
    var qzB := BucketByDay(qz);
    c := FillSeries(sorted, spB, wrB, qzB, hwB, sp, wr, qz, hw);
  }

  /** The dashboard chart for one student's submissions and quizzes. */
  method StudentChart(subs: seq<Submission>, quizzes: seq<QuizAttempt>) returns (c: ChartData)
    ensures StrictlyAscending(c.dates)
    ensures forall d :: d in c.dates <==>
      || d in EventDays(SpeakingEvents(subs))
      || d in EventDays(ScoreEvents(subs, Writing))
      || d in EventDays(QuizEvents(quizzes))
      || d in EventDays(ScoreEvents(subs, Handwritten))
    ensures AlignedTo(c, SpeakingEvents(subs), ScoreEvents(subs, Writing), QuizEvents(quizzes), ScoreEvents(subs, Handwritten))
    ensures ValidSubmissions(subs) && ValidQuizzes(quizzes) ==>
      forall i :: 0 <= i < |c.dates| ==>
        InRange(c.speaking[i]) && InRange(c.writing[i]) && InRange(c.quiz[i]) && InRange(c.handwritten[i])
  {
    var sp, wr, qz, hw := SpeakingEvents(subs), ScoreEvents(subs, Writing), QuizEvents(quizzes), ScoreEvents(subs, Handwritten);
    c := BuildChart(sp, wr, qz, hw);
    if ValidSubmissions(subs) && ValidQuizzes(quizzes) {
      SeriesInRange(c.speaking, sp, c.dates);
      SeriesInRange(c.writing, wr, c.dates);
      SeriesInRange(c.quiz, qz, c.dates);
      SeriesInRange(c.handwritten, hw, c.dates);
    }
  }
}
