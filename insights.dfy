/** Performance insights of the student dashboard: the strongest and weakest
    areas among those with a positive score, and the recommended next step. */
module Insights {
  import opened Scores
  import R = Records
  import AreaAverages

  /** The keys of the `area_scores` dict, in insertion order. */
  datatype Area = Speaking | Writing | Quiz | Handwritten {
    /** The position of the area in the dict, which decides ties. */
    function Rank(): nat {
      match this
      case Speaking => 0
      case Writing => 1
      case Quiz => 2
      case Handwritten => 3
    }
  }

  datatype AreaScores = AreaScores(speaking: real, writing: real, quiz: real, handwritten: real)

  function ScoreOf(a: AreaScores, x: Area): real {
    match x
    case Speaking => a.speaking
    case Writing => a.writing
    case Quiz => a.quiz
    case Handwritten => a.handwritten
  }

  /** The dict's keys in iteration order. */
  const AreaOrder: seq<Area> := [Speaking, Writing, Quiz, Handwritten]

  /** The four area scores of one student. */
  function AreaScoresOf(subs: seq<R.Submission>, quizzes: seq<R.QuizAttempt>): (a: AreaScores)
    ensures R.ValidSubmissions(subs) && R.ValidQuizzes(quizzes) ==>
      forall x: Area :: InRange(ScoreOf(a, x))
  {
    AreaScores(
      AreaAverages.SpeakingAverage(subs),
      AreaAverages.TypeAverage(subs, R.Writing),
      AreaAverages.QuizAverage(quizzes),
      AreaAverages.TypeAverage(subs, R.Handwritten))
  }

  /** The keys of `{k: v for k, v in area_scores.items() if v > 0}`, in dict order. */
  function PositiveAreas(a: AreaScores): (r: seq<Area>)
    ensures |r| <= 4
    ensures forall x: Area :: x in r <==> ScoreOf(a, x) > 0.0
  {
    (if a.speaking > 0.0 then [Speaking] else []) +
    (if a.writing > 0.0 then [Writing] else []) +
    (if a.quiz > 0.0 then [Quiz] else []) +
    (if a.handwritten > 0.0 then [Handwritten] else [])
  }

  /** Python's `max(d, key=d.get)`: the index of the first greatest score. */
  function FirstMaxIndex(a: AreaScores, xs: seq<Area>): (k: nat)
    requires |xs| > 0
    ensures k < |xs|
    ensures forall i :: 0 <= i < |xs| ==> ScoreOf(a, xs[i]) <= ScoreOf(a, xs[k])
    ensures forall i :: 0 <= i < k ==> ScoreOf(a, xs[i]) < ScoreOf(a, xs[k])
  {
    if |xs| == 1 then 0
    else
      var best := FirstMaxIndex(a, xs[..|xs| - 1]);
      assert xs[..|xs| - 1][best] == xs[best];
      if ScoreOf(a, xs[|xs| - 1]) > ScoreOf(a, xs[best]) then |xs| - 1 else best
  }

  /** Python's `min(d, key=d.get)`: the index of the first least score. */
  function FirstMinIndex(a: AreaScores, xs: seq<Area>): (k: nat)
    requires |xs| > 0
    ensures k < |xs|
    ensures forall i :: 0 <= i < |xs| ==> ScoreOf(a, xs[k]) <= ScoreOf(a, xs[i])
    ensures forall i :: 0 <= i < k ==> ScoreOf(a, xs[k]) < ScoreOf(a, xs[i])
  {
    if |xs| == 1 then 0
    else
      var best := FirstMinIndex(a, xs[..|xs| - 1]);
      assert xs[..|xs| - 1][best] == xs[best];
      if ScoreOf(a, xs[|xs| - 1]) < ScoreOf(a, xs[best]) then |xs| - 1 else best
  }

  datatype Insight = Insight(strongest: Area, strongestScore: real, weakest: Area, weakestScore: real)

  /** Strongest and weakest area: zero (or negative) areas are left out, and
      with no positive area the fixed placeholder Speaking / Handwritten with
      0.0 is returned. */
  function AreaInsight(a: AreaScores): (r: Insight)
    ensures PositiveAreas(a) == [] <==> forall x: Area :: ScoreOf(a, x) <= 0.0
    ensures PositiveAreas(a) == [] ==> r == Insight(Speaking, 0.0, Handwritten, 0.0)
    ensures PositiveAreas(a) != [] ==>
      && r.strongestScore == ScoreOf(a, r.strongest) > 0.0
      && r.weakestScore == ScoreOf(a, r.weakest) > 0.0
  {
    var nz := PositiveAreas(a);
    PositiveAreasFacts(a);
    if nz == [] then
      Insight(Speaking, 0.0, Handwritten, 0.0)
    else
      var s := nz[FirstMaxIndex(a, nz)];
      var w := nz[FirstMinIndex(a, nz)];
      Insight(s, ScoreOf(a, s), w, ScoreOf(a, w))
  }

  /** With some positive area: every positive area lies between the weakest
      and the strongest, and ties go to the area earliest in dict order. */
  lemma AreaInsightOrder(a: AreaScores)
    requires PositiveAreas(a) != []
    ensures var r := AreaInsight(a);
      && r.weakestScore <= r.strongestScore
      && (forall x: Area :: ScoreOf(a, x) > 0.0 ==> r.weakestScore <= ScoreOf(a, x) <= r.strongestScore)
      && (forall x: Area :: ScoreOf(a, x) > 0.0 && x.Rank() < r.strongest.Rank() ==> ScoreOf(a, x) < r.strongestScore)
      && (forall x: Area :: ScoreOf(a, x) > 0.0 && x.Rank() < r.weakest.Rank() ==> r.weakestScore < ScoreOf(a, x))
  {
    var nz := PositiveAreas(a);
    PositiveAreasFacts(a);
    var ks := FirstMaxIndex(a, nz);
    var kw := FirstMinIndex(a, nz);
    var r := AreaInsight(a);
    assert r.strongest == nz[ks] && r.weakest == nz[kw];
    forall x: Area | ScoreOf(a, x) > 0.0
      ensures r.weakestScore <= ScoreOf(a, x) <= r.strongestScore
      ensures x.Rank() < r.strongest.Rank() ==> ScoreOf(a, x) < r.strongestScore
      ensures x.Rank() < r.weakest.Rank() ==> r.weakestScore < ScoreOf(a, x)
    {
      var k :| 0 <= k < |nz| && nz[k] == x;
      PositiveIndexOrder(a, k, ks);
      PositiveIndexOrder(a, k, kw);
    }
  }

  /** An area ranked earlier sits at an earlier index of the filtered list. */
  lemma PositiveIndexOrder(a: AreaScores, i: nat, j: nat)
    requires i < |PositiveAreas(a)| && j < |PositiveAreas(a)|
    ensures PositiveAreas(a)[i].Rank() < PositiveAreas(a)[j].Rank() ==> i < j
  {
    PositiveAreasFacts(a);
  }

  /** The positive areas are exactly the areas scoring above zero, in dict order. */
  lemma PositiveAreasFacts(a: AreaScores)
    ensures forall k :: 0 <= k < |PositiveAreas(a)| ==> ScoreOf(a, PositiveAreas(a)[k]) > 0.0
    ensures forall k, l :: 0 <= k < l < |PositiveAreas(a)| ==> PositiveAreas(a)[k].Rank() < PositiveAreas(a)[l].Rank()
    ensures forall x: Area :: ScoreOf(a, x) > 0.0 ==> exists k :: 0 <= k < |PositiveAreas(a)| && PositiveAreas(a)[k] == x
  {
    var nz := PositiveAreas(a);
    forall x: Area | ScoreOf(a, x) > 0.0
      ensures exists k :: 0 <= k < |nz| && nz[k] == x
    {
      var k := (if x.Rank() > 0 && a.speaking > 0.0 then 1 else 0)
             + (if x.Rank() > 1 && a.writing > 0.0 then 1 else 0)
             + (if x.Rank() > 2 && a.quiz > 0.0 then 1 else 0);
      assert nz[k] == x;
    }
  }

  /** The recommended next step, with its title and link. */
  datatype NextStep = ImproveSpeaking | ImproveWriting | TakeQuiz | StartFirstActivity {
    function Title(): string {
      match this
      case ImproveSpeaking => "Improve Your Speaking"
      case ImproveWriting => "Improve Your Writing"
      case TakeQuiz => "Take a Quiz"
      case StartFirstActivity => "Start Your First Activity"
    }

    function Link(): string {
      match this
      case ImproveSpeaking => "/speaking"
      case ImproveWriting => "/submit/writing"
      case TakeQuiz => "/quizzes"
      case StartFirstActivity => "/assignments"
    }
  }

  /** The first-match-wins chain: no graded speaking, no graded writing,
      speaking below 70, writing below 70, no quiz, otherwise the default. */
  function NextStepFor(hasSpeaking: bool, hasWriting: bool, speakingScore: real, writingScore: real, completedQuizzes: nat): (r: NextStep)
    ensures r == ImproveSpeaking <==> !hasSpeaking || (hasWriting && speakingScore < 70.0)
    ensures r == ImproveWriting <==> hasSpeaking && (!hasWriting || (speakingScore >= 70.0 && writingScore < 70.0))
    ensures r == TakeQuiz <==> hasSpeaking && hasWriting && speakingScore >= 70.0 && writingScore >= 70.0 && completedQuizzes == 0
    ensures r == StartFirstActivity <==> hasSpeaking && hasWriting && speakingScore >= 70.0 && writingScore >= 70.0 && completedQuizzes > 0
  {
    if !hasSpeaking then ImproveSpeaking
    else if !hasWriting then ImproveWriting
    else if speakingScore < 70.0 then ImproveSpeaking
    else if writingScore < 70.0 then ImproveWriting
    else if completedQuizzes == 0 then TakeQuiz
    else StartFirstActivity
  }

  /** The insights block of the student dashboard. */
  datatype DashboardInsights = DashboardInsights(scores: AreaScores, insight: Insight, next: NextStep)

  function StudentInsights(subs: seq<R.Submission>, quizzes: seq<R.QuizAttempt>): (r: DashboardInsights)
    ensures r.scores == AreaScoresOf(subs, quizzes)
    ensures r.insight == AreaInsight(r.scores)
    ensures r.next == NextStepFor(
      R.GradedOfType(subs, R.Speaking) != [], R.GradedOfType(subs, R.Writing) != [],
      r.scores.speaking, r.scores.writing, |quizzes|)
    ensures r.next == StartFirstActivity ==>
      |R.GradedOfType(subs, R.Speaking)| > 0 && |R.GradedOfType(subs, R.Writing)| > 0 && |quizzes| > 0
    ensures r.next == ImproveSpeaking <==>
      R.GradedOfType(subs, R.Speaking) == [] ||
      (R.GradedOfType(subs, R.Writing) != [] && r.scores.speaking < 70.0)
  {
    var scores := AreaScoresOf(subs, quizzes);
    var next := NextStepFor(
      R.GradedOfType(subs, R.Speaking) != [],
      R.GradedOfType(subs, R.Writing) != [],
      scores.speaking, scores.writing, |quizzes|);
    DashboardInsights(scores, AreaInsight(scores), next)
  }

  /** A speaking recording graded 80 / 60 and a writing submission graded 90. */
  const ExampleSpeaking := R.Submission(1, R.Speaking, 10, R.Some(R.Grade(70.0, R.Some(80.0), R.Some(60.0))))
  const ExampleWriting := R.Submission(1, R.Writing, 10, R.Some(R.Grade(90.0, R.None, R.None)))

  /** That learner's speaking score is 70.0. */
  lemma ExampleSpeakingScore()
    ensures AreaAverages.SpeakingAverage([ExampleSpeaking, ExampleWriting]) == 70.0
  {
    var sp, wr := ExampleSpeaking, ExampleWriting;
    assert [sp, wr][..1] == [sp] && [sp][..0] == [];
    assert AreaAverages.SpeakingHead(wr) == [];
    assert AreaAverages.SpeakingAverageValues([sp]) == [70.0];
    assert AreaAverages.SpeakingAverageValues([sp, wr]) == [70.0];
    assert Mean([70.0]) == 70.0 by {
      assert [70.0][..0] == [];
    }
    RoundTenthOfTenths(700);
  }

  /** That learner's writing score is 90.0 and handwritten score 0.0. */
  lemma ExampleWritingScore()
    ensures AreaAverages.TypeAverage([ExampleSpeaking, ExampleWriting], R.Writing) == 90.0
    ensures AreaAverages.TypeAverage([ExampleSpeaking, ExampleWriting], R.Handwritten) == 0.0
  {
    var sp, wr := ExampleSpeaking, ExampleWriting;
    assert [sp, wr][1..] == [wr] && [wr][1..] == [];
    assert R.GradedOfType([sp, wr], R.Writing) == [wr];
    assert R.GradedOfType([sp, wr], R.Handwritten) == [];
    assert R.GradeScores([wr]) == [90.0];
    assert Mean([90.0]) == 90.0 by {
      assert [90.0][..0] == [];
    }
    RoundTenthOfTenths(900);
  }

  /** One speaking recording graded 80 / 60 and one writing submission graded
      90, no quiz: speaking 70.0, writing 90.0, Writing strongest, Speaking
      weakest, and the learner is sent to take a quiz. */
  lemma TwoSubmissionExample()
    ensures
      var r := StudentInsights([ExampleSpeaking, ExampleWriting], []);
      && r.scores == AreaScores(70.0, 90.0, 0.0, 0.0)
      && r.insight == Insight(Writing, 90.0, Speaking, 70.0)
      && r.next == TakeQuiz
  {
    var subs := [ExampleSpeaking, ExampleWriting];
    ExampleSpeakingScore();
    ExampleWritingScore();
    assert R.GradedOfType(subs, R.Writing) != [] by {
      assert ExampleWriting in subs;
    }
    assert R.GradedOfType(subs, R.Speaking) != [] by {
      assert ExampleSpeaking in subs;
    }
    var a := AreaScores(70.0, 90.0, 0.0, 0.0);
    assert PositiveAreas(a) == [Speaking, Writing];
  }
}
