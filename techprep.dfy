/**
 * The aptitude test endpoints: the question list without its answer key,
 * and the scoring of a submitted answer sheet.
 *
 * The question bank, read from a JSON file by `load_questions`, is a
 * parameter: either the questions or the text of the exception raised
 * while reading them.
 */
module TechPrep {
  import opened Wrappers
  import Decimal

  /** A question of the bank; `correctAnswer` is the index of the right option. */
  datatype Question = Question(id: int, section: string, question: string, options: seq<string>, correctAnswer: int)

  /** A question as `GET /techprep/questions` returns it. */
  datatype PublicQuestion = PublicQuestion(id: int, section: string, question: string, options: seq<string>)

  /** One entry of the `results` of `POST /techprep/submit`. */
  datatype ResultRow = ResultRow(
    id: int,
    question: string,
    section: string,
    selectedAnswer: Option<int>,
    correctAnswer: int,
    isCorrect: bool)

  /** The body of a scored submission. */
  datatype Report = Report(totalQuestions: nat, attempted: nat, score: nat, results: seq<ResultRow>)

  /** An `HTTPException`. */
  datatype HttpError = HttpError(status: nat, detail: string)

  const InternalServerError: nat := 500

  // ---------------------------------------------------------------------------
  // GET /questions

  function Public(q: Question): PublicQuestion {
    PublicQuestion(q.id, q.section, q.question, q.options)
  }

  /**
   * `get_questions`: every question, in order, with only its id, section,
   * text and options; a failure to load the bank is an HTTP 500 with the
   * exception's text.
   */
  function GetQuestions(load: Result<seq<Question>, string>): (r: Result<seq<PublicQuestion>, HttpError>)
    ensures load.Failure? ==> r == Failure(HttpError(InternalServerError, load.error))
    ensures load.Success? ==> r.Success? && |r.value| == |load.value|
    ensures load.Success? ==> forall i :: 0 <= i < |load.value| ==>
      var q, p := load.value[i], r.value[i];
      p.id == q.id && p.section == q.section && p.question == q.question && p.options == q.options
  {
    match load
    case Failure(e) => Failure(HttpError(InternalServerError, e))
    case Success(qs) => Success(seq(|qs|, i requires 0 <= i < |qs| => Public(qs[i])))
  }

  // ---------------------------------------------------------------------------
  // POST /submit

  /** `user_answers.get(str(q["id"]))`. */
  function Selected(q: Question, answers: map<string, int>): (s: Option<int>)
    ensures s.Some? <==> Decimal.IntToString(q.id) in answers
    ensures s.Some? ==> s.value == answers[Decimal.IntToString(q.id)]
  {
    var key := Decimal.IntToString(q.id);
    if key in answers then Some(answers[key]) else None
  }

  /** The sheet answers `q` with its right option. */
  predicate Matches(q: Question, answers: map<string, int>) {
    Selected(q, answers) == Some(q.correctAnswer)
  }

  /** The entry of `results` for `q`. */
  function Row(q: Question, answers: map<string, int>): (row: ResultRow)
    ensures row.id == q.id && row.question == q.question && row.section == q.section
    ensures row.correctAnswer == q.correctAnswer && row.selectedAnswer == Selected(q, answers)
    ensures row.isCorrect <==> Matches(q, answers)
    ensures row.selectedAnswer.None? ==> !row.isCorrect
  {
    var selected := Selected(q, answers);
    var isCorrect := if selected.Some? then selected.value == q.correctAnswer else false;
    ResultRow(q.id, q.question, q.section, selected, q.correctAnswer, isCorrect)
  }

  function Rows(qs: seq<Question>, answers: map<string, int>): (rows: seq<ResultRow>)
    ensures |rows| == |qs| && forall i :: 0 <= i < |qs| ==> rows[i] == Row(qs[i], answers)
  {
    seq(|qs|, i requires 0 <= i < |qs| => Row(qs[i], answers))
  }

  /** Number of entries marked correct. */
  function CorrectCount(rows: seq<ResultRow>): (n: nat)
    ensures n <= |rows|
  {
    if rows == [] then 0
    else CorrectCount(rows[..|rows| - 1]) + (if rows[|rows| - 1].isCorrect then 1 else 0)
  }

  lemma CorrectCountAppend(rows: seq<ResultRow>, row: ResultRow)
    ensures CorrectCount(rows + [row]) == CorrectCount(rows) + (if row.isCorrect then 1 else 0)
  {
    assert (rows + [row])[..|rows|] == rows;
  }

  lemma RowsAppend(qs: seq<Question>, i: nat, answers: map<string, int>)
    requires i < |qs|
    ensures Rows(qs[..i + 1], answers) == Rows(qs[..i], answers) + [Row(qs[i], answers)]
  {
    assert qs[..i + 1][..i] == qs[..i];
    RowsStep(qs[..i + 1], answers);
  }

  /** Indices of the questions the sheet answers rightly. */
  function MatchedIndices(qs: seq<Question>, answers: map<string, int>): set<nat>
  {
    set i: nat | i < |qs| && Matches(qs[i], answers)
  }

  lemma MatchedIndicesStep(qs: seq<Question>, answers: map<string, int>)
    requires qs != []
    ensures var n := |qs| - 1;
      && n !in MatchedIndices(qs[..n], answers)
      && MatchedIndices(qs, answers) ==
         MatchedIndices(qs[..n], answers) + (if Matches(qs[n], answers) then {n} else {})
  {
    var n := |qs| - 1;
    var front := qs[..n];
    forall i: nat | i < n
      ensures front[i] == qs[i]
    {
    }
  }

  lemma RowsStep(qs: seq<Question>, answers: map<string, int>)
    requires qs != []
    ensures var n := |qs| - 1;
      Rows(qs, answers)[..n] == Rows(qs[..n], answers) && Rows(qs, answers)[n] == Row(qs[n], answers)
  {
  }

  /** The score counts exactly the questions whose id maps on the sheet to the right option. */
  lemma {:induction false} CorrectCountIsMatches(qs: seq<Question>, answers: map<string, int>)
    ensures CorrectCount(Rows(qs, answers)) == |MatchedIndices(qs, answers)|
    decreases |qs|
  {
    if qs == [] {
      assert MatchedIndices(qs, answers) == {};
    } else {
      var n := |qs| - 1;
      CorrectCountIsMatches(qs[..n], answers);
      RowsStep(qs, answers);
      MatchedIndicesStep(qs, answers);
    }
  }

  /**
   * `submit_test`: one result per question, in order, the score counting
   * the correct ones, and `attempted` the number of keys on the sheet, which
   * need not name any question. A failure to load the bank is an HTTP 500.
   */
  method SubmitTest(load: Result<seq<Question>, string>, answers: map<string, int>) returns (r: Result<Report, HttpError>)
    ensures load.Failure? ==> r == Failure(HttpError(InternalServerError, load.error))
    ensures load.Success? ==> r.Success?
    ensures load.Success? ==> r.value.results == Rows(load.value, answers)
    ensures load.Success? ==> r.value.totalQuestions == |load.value| && r.value.attempted == |answers|
    ensures load.Success? ==> r.value.score == CorrectCount(r.value.results) <= r.value.totalQuestions
    ensures load.Success? ==> r.value.score == |MatchedIndices(load.value, answers)|
  {
    if load.Failure? {
      return Failure(HttpError(InternalServerError, load.error));
    }
    var questions := load.value;
    var score := 0;
    var results: seq<ResultRow> := [];
    for i := 0 to |questions|
      invariant results == Rows(questions[..i], answers)
      invariant score == CorrectCount(results)
    {
      var q := questions[i];
      var selected := Selected(q, answers);
      var isCorrect := if selected.Some? then selected.value == q.correctAnswer else false;
      if isCorrect {
        score := score + 1;
      }
      var row := ResultRow(q.id, q.question, q.section, selected, q.correctAnswer, isCorrect);
      assert row == Row(q, answers);
      RowsAppend(questions, i, answers);
      CorrectCountAppend(results, row);
      results := results + [row];
    }
    assert questions[..|questions|] == questions;
    CorrectCountIsMatches(questions, answers);
    return Success(Report(|questions|, |answers|, score, results));
  }

  /**
   * `attempted` counts the keys of the sheet, not the questions answered: a
   * sheet with a key that names no question reports more attempts than the
   * bank has questions.
   */
  method AttemptedMayExceedTotal() returns (r: Result<Report, HttpError>)
    ensures r.Success? && r.value.totalQuestions == 1 && r.value.attempted == 2
    ensures r.value.attempted > r.value.totalQuestions
  {
    var q := Question(1, "Arithmetic", "What is 2 + 2?", ["3", "4"], 1);
    var answers := map["1" := 1, "7" := 0];
    assert "1" != "7";
    assert answers.Keys == {"1", "7"};
    r := SubmitTest(Success([q]), answers);
  }
}
