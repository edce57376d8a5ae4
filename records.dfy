/** The already-loaded records the dashboards read: submissions with their
    optional grade, and quiz attempts. A timestamp is reduced to its UTC day,
    an integer day ordinal (day 1 is Monday 1 January of year 1). */
module Records {
  import opened Scores

  datatype Option<T> = None | Some(value: T)

  /** The `submission_type` column. */
  datatype SubmissionType = Speaking | Writing | Handwritten | OtherType

  /** A grade row: the overall score is always set once a grade exists (the
      averages sum it unguarded); the speaking sub-scores may be missing. */
  datatype Grade = Grade(score: real, pronunciation: Option<real>, fluency: Option<real>)

  datatype Submission = Submission(student: int, kind: SubmissionType, day: int, grade: Option<Grade>)

  /** A quiz row: `date_taken` and `score` are nullable columns. */
  datatype QuizAttempt = QuizAttempt(taken: Option<int>, score: Option<real>)

  /** Python truthiness of an optional number: present and not zero. */
  predicate Truthy(x: Option<real>) {
    x.Some? && x.value != 0.0
  }

  predicate ValidOptScore(x: Option<real>) {
    x.Some? ==> InRange(x.value)
  }

  /** Every score that is present lies in [0, 100]. */
  predicate ValidSubmission(s: Submission) {
    s.grade.Some? ==>
      InRange(s.grade.value.score) && ValidOptScore(s.grade.value.pronunciation) && ValidOptScore(s.grade.value.fluency)
  }

  predicate ValidSubmissions(subs: seq<Submission>) {
    forall i :: 0 <= i < |subs| ==> ValidSubmission(subs[i])
  }

  predicate ValidQuizzes(quizzes: seq<QuizAttempt>) {
    forall i :: 0 <= i < |quizzes| ==> ValidOptScore(quizzes[i].score)
  }

  /** `[s for s in subs if s.submission_type == t and s.grade]` */
  function GradedOfType(subs: seq<Submission>, t: SubmissionType): (r: seq<Submission>)
    ensures |r| <= |subs|
    ensures forall i :: 0 <= i < |r| ==> r[i].kind == t && r[i].grade.Some? && r[i] in subs
    ensures forall s :: s in subs && s.kind == t && s.grade.Some? ==> s in r
  {
    if subs == [] then []
    else if subs[0].kind == t && subs[0].grade.Some? then [subs[0]] + GradedOfType(subs[1..], t)
    else GradedOfType(subs[1..], t)
  }

  /** `[s.grade.score for s in subs if s.grade]`, in order. */
  function GradeScores(subs: seq<Submission>): (r: seq<real>)
    ensures |r| <= |subs|
    ensures ValidSubmissions(subs) ==> AllInRange(r)
  {
    if subs == [] then []
    else if subs[0].grade.Some? then [subs[0].grade.value.score] + GradeScores(subs[1..])
    else GradeScores(subs[1..])
  }

  /** The number of submissions that have no grade yet. */
  function UngradedCount(subs: seq<Submission>): (n: nat)
    ensures n + |GradeScores(subs)| == |subs|
  {
    if subs == [] then 0
    else (if subs[0].grade.None? then 1 else 0) + UngradedCount(subs[1..])
  }
}
