/** Quiz scoring: a single answer is checked case-insensitively against the
    question's correct answer, and a finished quiz is scored as the share of
    questions answered correctly, in percent to one decimal place. */
module QuizScoring {
  import opened Scores

  // ---- ASCII case folding, as `str.upper()` on the answer letters ----

  function UpperChar(c: char): char {
    if 'a' <= c <= 'z' then (c as int - 32) as char else c
  }

  function LowerChar(c: char): char {
    if 'A' <= c <= 'Z' then (c as int + 32) as char else c
  }

  function Upper(s: string): (r: string)
    ensures |r| == |s|
    ensures forall i :: 0 <= i < |s| ==> r[i] == UpperChar(s[i])
  {
    if s == [] then [] else Upper(s[..|s| - 1]) + [UpperChar(s[|s| - 1])]
  }

  function Lower(s: string): (r: string)
    ensures |r| == |s|
    ensures forall i :: 0 <= i < |s| ==> r[i] == LowerChar(s[i])
  {
    if s == [] then [] else Lower(s[..|s| - 1]) + [LowerChar(s[|s| - 1])]
  }

  /** Upper-casing twice is upper-casing once. */
  lemma UpperIdempotent(s: string)
    ensures Upper(Upper(s)) == Upper(s)
  {
    assert forall i :: 0 <= i < |s| ==> Upper(Upper(s))[i] == Upper(s)[i];
  }

  /** Lower-casing first does not change the upper-cased form. */
  lemma UpperOfLower(s: string)
    ensures Upper(Lower(s)) == Upper(s)
  {
    assert forall i :: 0 <= i < |s| ==> Upper(Lower(s))[i] == Upper(s)[i];
  }

  // ---- `str(q_id)`: the keys of the submitted answers ----

  function Digit(d: nat): (c: char)
    requires d < 10
    ensures '0' <= c <= '9'
  {
    ('0' as int + d) as char
  }

  predicate AllDigits(s: string) {
    forall i :: 0 <= i < |s| ==> '0' <= s[i] <= '9'
  }

  /** The decimal numeral of a natural number, without leading zeros. */
  function NatString(n: nat): (r: string)
    ensures |r| > 0 && AllDigits(r)
    decreases n
  {
    if n < 10 then [Digit(n)] else NatString(n / 10) + [Digit(n % 10)]
  }

  /** `str(n)` for an integer. */
  function DecimalString(n: int): (r: string)
    ensures |r| > 0
    ensures n >= 0 ==> AllDigits(r)
    ensures n < 0 ==> r[0] == '-' && AllDigits(r[1..])
  {
    if n < 0 then "-" + NatString(-n) else NatString(n)
  }

  /** Reads a string of digits back as a number; the partner of `NatString`. */
  function ParseNat(s: string): nat
    requires AllDigits(s)
  {
    if s == [] then 0 else ParseNat(s[..|s| - 1]) * 10 + (s[|s| - 1] as int - '0' as int)
  }

  function ParseDecimal(s: string): int
    requires |s| > 0
    requires s[0] == '-' ==> AllDigits(s[1..])
    requires s[0] != '-' ==> AllDigits(s)
  {
    if s[0] == '-' then -(ParseNat(s[1..]) as int) else ParseNat(s)
  }

  lemma {:induction false} ParseNatString(n: nat)
    ensures ParseNat(NatString(n)) == n
    decreases n
  {
    if n >= 10 {
      ParseNatString(n / 10);
      var s := NatString(n);
      assert s[..|s| - 1] == NatString(n / 10);
    }
  }

  /** `str` round-trips, so distinct question ids give distinct answer keys. */
  lemma DecimalRoundTrip(n: int)
    ensures ParseDecimal(DecimalString(n)) == n
  {
    if n < 0 {
      assert DecimalString(n)[1..] == NatString(-n);
      ParseNatString(-n);
    } else {
      ParseNatString(n);
    }
  }

  lemma DecimalStringInjective(a: int, b: int)
    requires DecimalString(a) == DecimalString(b)
    ensures a == b
  {
    DecimalRoundTrip(a);
    DecimalRoundTrip(b);
  }

  // ---- Checking answers ----

  /** The question bank: the correct answer of each known question id. */
  type AnswerKey = map<int, string>

  /** The learner's answers, keyed by `str(question id)`. */
  type Answers = map<string, string>

  /** `check_answer`: an unknown question is never answered correctly;
      otherwise the answer must equal the correct one up to upper-casing. */
  function CheckAnswer(qid: int, answer: string, key: AnswerKey): (ok: bool)
    ensures qid !in key ==> !ok
  {
    qid in key && Upper(answer) == Upper(key[qid])
  }

  /** The correct answer itself, in any letter case, is accepted. */
  lemma CorrectAnswerAccepted(qid: int, key: AnswerKey)
    requires qid in key
    ensures CheckAnswer(qid, key[qid], key)
    ensures CheckAnswer(qid, Upper(key[qid]), key)
    ensures CheckAnswer(qid, Lower(key[qid]), key)
  {
    UpperIdempotent(key[qid]);
    UpperOfLower(key[qid]);
  }

  /** A known question answered with something other than its correct
      answer, after upper-casing both, is rejected. */
  lemma WrongAnswerRejected(qid: int, a: string, key: AnswerKey)
    requires qid in key && Upper(a) != Upper(key[qid])
    ensures !CheckAnswer(qid, a, key)
  {
  }

  /** Answers that agree after upper-casing get the same verdict. */
  lemma CheckIgnoresCase(qid: int, a: string, b: string, key: AnswerKey)
    requires Upper(a) == Upper(b)
    ensures CheckAnswer(qid, a, key) == CheckAnswer(qid, b, key)
  {
  }

  /** Whether question `q` counts as correct in the final tally. */
  predicate Scored(q: int, answers: Answers, key: AnswerKey)
    ensures Scored(q, answers, key) ==> DecimalString(q) in answers && q in key
    ensures Scored(q, answers, key) ==> Upper(answers[DecimalString(q)]) == Upper(key[q])
  {
    DecimalString(q) in answers && CheckAnswer(q, answers[DecimalString(q)], key)
  }

  /** Questions the learner answered. */
  function AnsweredCount(ids: seq<int>, answers: Answers): (n: nat)
    ensures n <= |ids|
  {
    if ids == [] then 0
    else AnsweredCount(ids[..|ids| - 1], answers) + (if DecimalString(ids[|ids| - 1]) in answers then 1 else 0)
  }

  /** Questions the bank knows. */
  function KnownCount(ids: seq<int>, key: AnswerKey): (n: nat)
    ensures n <= |ids|
  {
    if ids == [] then 0
    else KnownCount(ids[..|ids| - 1], key) + (if ids[|ids| - 1] in key then 1 else 0)
  }

  /** The number of correctly answered questions: never more than were
      answered, nor more than the bank knows. */
  function CountCorrect(ids: seq<int>, answers: Answers, key: AnswerKey): (n: nat)
    ensures n <= AnsweredCount(ids, answers) <= |ids|
    ensures n <= KnownCount(ids, key)
  {
    if ids == [] then 0
    else CountCorrect(ids[..|ids| - 1], answers, key) + (if Scored(ids[|ids| - 1], answers, key) then 1 else 0)
  }

  lemma {:induction false} CountCorrectAppend(xs: seq<int>, ys: seq<int>, answers: Answers, key: AnswerKey)
    ensures CountCorrect(xs + ys, answers, key) == CountCorrect(xs, answers, key) + CountCorrect(ys, answers, key)
    decreases |ys|
  {
    if ys == [] {
      assert xs + ys == xs;
    } else {
      CountCorrectAppend(xs, ys[..|ys| - 1], answers, key);
      assert (xs + ys)[..|xs + ys| - 1] == xs + ys[..|ys| - 1];
    }
  }

  /** A question left unanswered, unknown to the bank, or answered wrongly
      adds nothing wherever it sits in the quiz. */
  lemma IgnoredQuestion(before: seq<int>, q: int, after: seq<int>, answers: Answers, key: AnswerKey)
    requires || DecimalString(q) !in answers
             || q !in key
             || Upper(answers[DecimalString(q)]) != Upper(key[q])
    ensures CountCorrect(before + [q] + after, answers, key) == CountCorrect(before + after, answers, key)
  {
    CountCorrectAppend(before + [q], after, answers, key);
    CountCorrectAppend(before, [q], answers, key);
    CountCorrectAppend(before, after, answers, key);
    assert CountCorrect([q], answers, key) == 0 by {
      assert [q][..0] == [];
    }
  }

  /** When every question is answered correctly, every question counts. */
  lemma {:induction false} AllCorrect(ids: seq<int>, answers: Answers, key: AnswerKey)
    requires forall i :: 0 <= i < |ids| ==> Scored(ids[i], answers, key)
    ensures CountCorrect(ids, answers, key) == |ids|
  {
    if ids != [] {
      AllCorrect(ids[..|ids| - 1], answers, key);
    }
  }

  // ---- The final score ----

  /** `round(correct / total * 100, 1) if total > 0 else 0`. */
  function FinalPercentage(correct: nat, total: nat): (p: real)
    requires correct <= total
    ensures total == 0 ==> p == 0.0
    ensures InRange(p)
    ensures total > 0 ==>
      var exact := (correct as real / total as real) * 100.0;
      exact - 0.05 < p <= exact + 0.05
    ensures correct == 0 ==> p == 0.0
    ensures 0 < correct == total ==> p == 100.0
  {
    if total > 0 then
      var exact := (correct as real / total as real) * 100.0;
      assert InRange(exact) by {
        assert correct as real / total as real <= 1.0;
      }
      RoundTenthInRange(exact);
      assert correct == 0 ==> RoundTenth(exact) == 0.0 by {
        RoundTenthOfTenths(0);
      }
      assert correct == total ==> RoundTenth(exact) == 100.0 by {
        if correct == total {
          assert correct as real / total as real == 1.0;
          assert exact == 1000 as real / 10.0;
          RoundTenthOfTenths(1000);
        }
      }
      RoundTenth(exact)
    else 0.0
  }

  datatype QuizResult = QuizResult(correct: nat, total: nat, score: real)

  /** `calculate_final_score`: one pass over the question ids counting the
      answered, known and matching ones. */
  method CalculateFinalScore(ids: seq<int>, answers: Answers, key: AnswerKey) returns (res: QuizResult)
    ensures res.total == |ids|
    ensures res.correct == CountCorrect(ids, answers, key)
    ensures res.correct <= res.total
    ensures res.score == FinalPercentage(res.correct, res.total)
    ensures InRange(res.score)
  {
    var correct := 0;
    var total := |ids|;
    var i := 0;
    while i < |ids|
      invariant 0 <= i <= |ids|
      invariant correct == CountCorrect(ids[..i], answers, key)
    {
      var q := ids[i];
      var k := DecimalString(q);
      assert Scored(q, answers, key) <==> k in answers && q in key && Upper(answers[k]) == Upper(key[q]);
      if k in answers {
        if q in key && Upper(answers[k]) == Upper(key[q]) {
          correct := correct + 1;
        }
      }
      assert ids[..i + 1][..i] == ids[..i];
      i := i + 1;
    }
    assert ids[..|ids|] == ids;
    res := QuizResult(correct, total, FinalPercentage(correct, total));
  }
}
