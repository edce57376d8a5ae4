/** The per-area averages of the student dashboard (speaking, writing,
    handwritten, quiz), the overall graded average, and the figures of the
    speaking page. */
module AreaAverages {
  import opened Scores
  import opened Records

  /** A speaking grade counts toward the AVERAGE only when both sub-scores
      are truthy: a sub-score of 0 excludes it. */
  predicate CountsForSpeakingAverage(g: Grade) {
    Truthy(g.pronunciation) && Truthy(g.fluency)
  }

  /** The per-recording speaking score, the mean of its two sub-scores. */
  function SpeakingValue(p: real, f: real): (v: real)
    ensures InRange(p) && InRange(f) ==> InRange(v)
    ensures p <= f ==> p <= v <= f
    ensures f <= p ==> f <= v <= p
  {
    (p + f) / 2.0
  }

  /** The value one submission adds to the speaking average: none unless it
      is a graded speaking recording with both sub-scores truthy. */
  function SpeakingHead(s: Submission): (r: seq<real>)
    ensures |r| <= 1
    ensures r != [] <==> s.kind == Speaking && s.grade.Some? && CountsForSpeakingAverage(s.grade.value)
    ensures ValidSubmission(s) ==> AllInRange(r)
  {
    if s.kind == Speaking && s.grade.Some? && CountsForSpeakingAverage(s.grade.value) then
      [SpeakingValue(s.grade.value.pronunciation.value, s.grade.value.fluency.value)]
    else []
  }

  /** The values the speaking average is taken over, in submission order. */
  function SpeakingAverageValues(subs: seq<Submission>): (r: seq<real>)
    ensures |r| <= |subs|
    ensures ValidSubmissions(subs) ==> AllInRange(r)
  {
    if subs == [] then []
    else
      var init := subs[..|subs| - 1];
      assert ValidSubmissions(subs) ==> ValidSubmissions(init) && ValidSubmission(subs[|subs| - 1]);
      SpeakingAverageValues(init) + SpeakingHead(subs[|subs| - 1])
  }

  /** `speaking_score`: 0.0 without a qualifying recording, else the rounded mean. */
  function SpeakingAverage(subs: seq<Submission>): (r: real)
    ensures SpeakingAverageValues(subs) == [] ==> r == 0.0
    ensures SpeakingAverageValues(subs) != [] ==>
      Mean(SpeakingAverageValues(subs)) - 0.05 < r <= Mean(SpeakingAverageValues(subs)) + 0.05
    ensures ValidSubmissions(subs) ==> InRange(r)
  {
    AverageOrZero(SpeakingAverageValues(subs))
  }

  /** The speaking values of two lists joined are the two lists' values joined. */
  lemma {:induction false} SpeakingValuesAppend(a: seq<Submission>, b: seq<Submission>)
    ensures SpeakingAverageValues(a + b) == SpeakingAverageValues(a) + SpeakingAverageValues(b)
    decreases |b|
  {
    if b == [] {
      assert a + b == a;
    } else {
      var init := b[..|b| - 1];
      SpeakingValuesAppend(a, init);
      assert (a + b)[..|a + b| - 1] == a + init;
      assert (a + b)[|a + b| - 1] == b[|b| - 1];
    }
  }

  /** A speaking recording with a zero sub-score changes neither the values
      nor the average, wherever it sits in the list. */
  lemma ZeroSubScoreIgnored(before: seq<Submission>, s: Submission, after: seq<Submission>)
    requires s.kind == Speaking && s.grade.Some?
    requires s.grade.value.pronunciation == Some(0.0) || s.grade.value.fluency == Some(0.0)
    ensures SpeakingAverageValues(before + [s] + after) == SpeakingAverageValues(before + after)
    ensures SpeakingAverage(before + [s] + after) == SpeakingAverage(before + after)
  {
    var none := SpeakingAverageValues([s]);
    assert none == [] by {
      assert [s][..0] == [];
    }
    SpeakingValuesAppend(before + [s], after);
    SpeakingValuesAppend(before, [s]);
    SpeakingValuesAppend(before, after);
    assert SpeakingAverageValues(before + [s]) == SpeakingAverageValues(before);
  }

  /** Writing or handwritten: the plain mean of the grade scores of that type. */
  function TypeAverage(subs: seq<Submission>, t: SubmissionType): (r: real)
    ensures GradedOfType(subs, t) == [] ==> r == 0.0
    ensures GradedOfType(subs, t) != [] ==>
      Mean(GradeScores(GradedOfType(subs, t))) - 0.05 < r <= Mean(GradeScores(GradedOfType(subs, t))) + 0.05
    ensures ValidSubmissions(subs) ==> InRange(r)
  {
    var graded := GradedOfType(subs, t);
    GradedScoresAll(graded);
    assert ValidSubmissions(subs) ==> ValidSubmissions(graded);
    AverageOrZero(GradeScores(graded))
  }

  /** Every submission in a graded list contributes its score. */
  lemma {:induction false} GradedScoresAll(graded: seq<Submission>)
    requires forall i :: 0 <= i < |graded| ==> graded[i].grade.Some?
    ensures |GradeScores(graded)| == |graded|
    ensures forall i :: 0 <= i < |graded| ==> GradeScores(graded)[i] == graded[i].grade.value.score
  {
    if graded != [] {
      GradedScoresAll(graded[1..]);
    }
  }

  /** The scores of the quizzes whose score is set. */
  function QuizScores(quizzes: seq<QuizAttempt>): (r: seq<real>)
    ensures |r| <= |quizzes|
    ensures ValidQuizzes(quizzes) ==> AllInRange(r)
  {
    if quizzes == [] then []
    else if quizzes[0].score.Some? then [quizzes[0].score.value] + QuizScores(quizzes[1..])
    else QuizScores(quizzes[1..])
  }

  /** When every quiz is scored, the scores are exactly the quizzes' own, in order. */
  lemma {:induction false} QuizScoresAll(quizzes: seq<QuizAttempt>)
    requires forall i :: 0 <= i < |quizzes| ==> quizzes[i].score.Some?
    ensures |QuizScores(quizzes)| == |quizzes|
    ensures forall i :: 0 <= i < |quizzes| ==> QuizScores(quizzes)[i] == quizzes[i].score.value
  {
    if quizzes != [] {
      QuizScoresAll(quizzes[1..]);
    }
  }

  /** `quiz_score`: 0.0 with no quiz or no scored quiz, else the rounded
      plain mean of the scored quizzes. */
  function QuizAverage(quizzes: seq<QuizAttempt>): (r: real)
    ensures QuizScores(quizzes) == [] ==> r == 0.0
    ensures quizzes == [] ==> r == 0.0
    ensures QuizScores(quizzes) != [] ==>
      Mean(QuizScores(quizzes)) - 0.05 < r <= Mean(QuizScores(quizzes)) + 0.05
    ensures ValidQuizzes(quizzes) ==> InRange(r)
  {
    AverageOrZero(QuizScores(quizzes))
  }

  /** `average_score` of the student dashboard and `class_avg` of the
      instructor dashboard: the mean over every graded submission, any type. */
  function GradedAverage(subs: seq<Submission>): (r: real)
    ensures GradeScores(subs) == [] ==> r == 0.0
    ensures GradeScores(subs) != [] ==>
      Mean(GradeScores(subs)) - 0.05 < r <= Mean(GradeScores(subs)) + 0.05
    ensures ValidSubmissions(subs) ==> InRange(r)
  {
    AverageOrZero(GradeScores(subs))
  }

  /** The figures of the speaking page. */
  datatype SpeakingStats = SpeakingStats(average: real, lastPractice: Option<int>, recordings: nat)

  /** The latest day among graded recordings (`max(..., key=created_at)`). */
  function LastDay(subs: seq<Submission>): (r: Option<int>)
    ensures subs == [] <==> r.None?
    ensures r.Some? ==> exists i :: 0 <= i < |subs| && subs[i].day == r.value
    ensures r.Some? ==> forall i :: 0 <= i < |subs| ==> subs[i].day <= r.value
  {
    if subs == [] then None
    else
      var rest := LastDay(subs[1..]);
      if rest.Some? && rest.value > subs[0].day then
        assert subs[1..][0] == subs[1];
        rest
      else Some(subs[0].day)
  }

  /** The speaking page: average as on the dashboard, latest practice day and
      the number of graded recordings. */
  function SpeakingPage(subs: seq<Submission>): (r: SpeakingStats)
    ensures r.recordings == |GradedOfType(subs, Speaking)|
    ensures r.average == SpeakingAverage(subs)
    ensures r.lastPractice == LastDay(GradedOfType(subs, Speaking))
    ensures r.recordings == 0 <==> r.lastPractice.None?
    ensures r.lastPractice.Some? ==>
      forall s :: s in subs && s.kind == Speaking && s.grade.Some? ==> s.day <= r.lastPractice.value
  {
    var graded := GradedOfType(subs, Speaking);
    var last := LastDay(graded);
    assert forall s :: s in graded ==> exists i :: 0 <= i < |graded| && graded[i] == s;
    SpeakingStats(SpeakingAverage(subs), last, |graded|)
  }
}
