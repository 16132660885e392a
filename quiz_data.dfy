/** The quiz question bank and the random question query. */
module QuizData {
  import opened Lists

  /** A question as far as the quiz logic goes: its id, the ids of its
      options in display order, the id of the correct option and its
      category. */
  datatype QuizQuestion = QuizQuestion(id: string, optionIds: seq<string>, correctOptionId: string, category: string)

  const Questions: seq<QuizQuestion> := [
      QuizQuestion("q1", ["a", "b", "c", "d"], "c", "confidence"),
      QuizQuestion("q2", ["a", "b", "c", "d"], "b", "confidence"),
      QuizQuestion("q3", ["a", "b", "c", "d"], "c", "mindset"),
      QuizQuestion("q4", ["a", "b", "c", "d"], "b", "wellbeing"),
      QuizQuestion("q5", ["a", "b", "c", "d"], "c", "mindset"),
      QuizQuestion("q6", ["a", "b", "c", "d"], "a", "wellbeing")
    ]

  /** Every question's correct answer is one of its own options, so a quiz
      card built from it can be answered correctly. */
  lemma CorrectOptionIsAnOption()
    ensures forall i :: 0 <= i < |Questions| ==> Questions[i].correctOptionId in Questions[i].optionIds
  {
  }

  function QuestionId(q: QuizQuestion): string { q.id }
  function QuestionCategory(q: QuizQuestion): string { q.category }

  /** The list `getRandomQuiz` draws from: the whole bank, unless a
      non-empty category is given. */
  function Candidates(category: Option<string>): (r: seq<QuizQuestion>)
    ensures category.None? || category.value == "" ==> r == Questions
    ensures category.Some? && category.value != "" ==>
              forall q :: q in r <==> q in Questions && q.category == category.value
  {
    if category.Some? && category.value != "" then
      KeepKeyMembers(Questions, QuestionCategory, category.value);
      KeepKey(Questions, QuestionCategory, category.value)
    else Questions
  }

  /** `Math.floor(num / den * n)` for a random fraction `num / den` in
      [0, 1): always a valid index into a list of `n` elements. */
  function PickIndex(num: nat, den: nat, n: nat): (i: nat)
    requires num < den && 0 < n
    ensures i < n
  {
    MulBelow(num, den, n);
    DivBelow(num * n, den, n);
    num * n / den
  }

  /** `a * n < b * n` when `a < b` and `n` is positive. */
  lemma MulBelow(a: nat, b: nat, n: nat)
    requires a < b && 0 < n
    ensures a * n < b * n
  {
  }

  /** `a / b < n` when `a < b * n`. */
  lemma DivBelow(a: nat, b: nat, n: nat)
    requires 0 < b && a < b * n
    ensures a / b < n
  {
  }

  /** Multiplying by a positive number keeps the sign and does not shrink
      the magnitude of a non-zero integer. */
  lemma MulSign(n: int, d: int)
    requires n > 0
    ensures d >= 1 ==> n * d >= n
    ensures d <= -1 ==> n * d <= -n
  {
  }

  /** The fraction `i / n` picks index `i`. */
  lemma PickIndexExact(i: nat, n: nat)
    requires i < n
    ensures PickIndex(i, n, n) == i
  {
    var m := i * n;
    var q, r := m / n, m % n;
    assert m == n * q + r && 0 <= r < n;
    assert n * (i - q) == r by { assert n * i - n * q == n * (i - q); }
    MulSign(n, i - q);
  }

  /** `getRandomQuiz(category)`, with the random number in [0, 1) given as
      the fraction `num / den`: the candidate at `floor(num / den * length)`.
      An empty candidate list yields no question (`undefined` in the
      source). */
  function GetRandomQuiz(category: Option<string>, num: nat, den: nat): (r: Option<QuizQuestion>)
    requires num < den
    ensures r.Some? <==> |Candidates(category)| > 0
    ensures r.Some? ==> r.value in Candidates(category) && r.value in Questions
    ensures r.Some? && category.Some? && category.value != "" ==> r.value.category == category.value
    ensures category.None? ==> r.Some?
  {
    var c := Candidates(category);
    if |c| == 0 then None else Some(c[PickIndex(num, den, |c|)])
  }

  /** Every candidate can come up: the random fraction `i / |candidates|`
      picks candidate `i`. */
  lemma EveryCandidateReachable(category: Option<string>, i: nat)
    requires i < |Candidates(category)|
    ensures GetRandomQuiz(category, i, |Candidates(category)|) == Some(Candidates(category)[i])
  {
    PickIndexExact(i, |Candidates(category)|);
  }

  // The steps below unroll the category filter one question at a time, from
  // the end of the bank. Each takes the category as a parameter fixed by
  // `requires`, so the solver compares it as one value instead of expanding
  // the literal at every step.

  lemma ConfidenceFromTwo(c: string)
    requires c == "confidence"
    ensures KeepKey(Questions[2..], QuestionCategory, c) == []
  {
    var q := Questions;
    assert q[6..] == [];
    KeepKeyStep(q, QuestionCategory, c, 5);
    KeepKeyStep(q, QuestionCategory, c, 4);
    KeepKeyStep(q, QuestionCategory, c, 3);
    KeepKeyStep(q, QuestionCategory, c, 2);
  }

  lemma MindsetFromThree(c: string)
    requires c == "mindset"
    ensures KeepKey(Questions[3..], QuestionCategory, c) == [Questions[4]]
  {
    var q := Questions;
    assert q[6..] == [];
    KeepKeyStep(q, QuestionCategory, c, 5);
    KeepKeyStep(q, QuestionCategory, c, 4);
    KeepKeyStep(q, QuestionCategory, c, 3);
  }

  lemma ConfidenceFromZero(c: string)
    requires c == "confidence"
    ensures KeepKey(Questions[0..], QuestionCategory, c) == [Questions[0], Questions[1]]
  {
    ConfidenceFromTwo(c);
    KeepKeyStep(Questions, QuestionCategory, c, 1);
    KeepKeyStep(Questions, QuestionCategory, c, 0);
  }

  lemma MindsetFromOne(c: string)
    requires c == "mindset"
    ensures KeepKey(Questions[1..], QuestionCategory, c) == [Questions[2], Questions[4]]
  {
    MindsetFromThree(c);
    KeepKeyStep(Questions, QuestionCategory, c, 2);
    KeepKeyStep(Questions, QuestionCategory, c, 1);
  }

  lemma MindsetFromZero(c: string)
    requires c == "mindset"
    ensures KeepKey(Questions[0..], QuestionCategory, c) == [Questions[2], Questions[4]]
  {
    MindsetFromOne(c);
    KeepKeyStep(Questions, QuestionCategory, c, 0);
  }

  /** The confidence quiz of the activities page draws from exactly two
      questions. */
  lemma ConfidenceHasTwoQuestions()
    ensures Keys(Candidates(Some("confidence")), QuestionId) == ["q1", "q2"]
  {
    ConfidenceFromZero("confidence");
    assert Questions[0..] == Questions;
  }

  /** So does the mindset quiz. */
  lemma MindsetHasTwoQuestions()
    ensures Keys(Candidates(Some("mindset")), QuestionId) == ["q3", "q5"]
  {
    MindsetFromZero("mindset");
    assert Questions[0..] == Questions;
  }
}
