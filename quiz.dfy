/** The quiz session of `Quiz.tsx`: a question list fixed at mount time and six pieces
    of view state changed by `checkAnswer`, `nextQuestion` and `resetQuiz` and by the
    option buttons and the short-answer field. */
module QuizSession {
  import opened Wrappers
  import opened Text

  datatype Kind = Mcq | Short

  /** A question; `options` is absent when the question object has none. */
  datatype Question = Question(kind: Kind, options: Option<seq<string>>, correctAnswer: string)

  /** One entry of the answer history. */
  datatype AnswerRecord = AnswerRecord(correct: bool, answer: string)

  /** The answer `checkAnswer` grades: the selected option of a multiple-choice
      question (possibly none), the text buffer otherwise. */
  function GivenAnswer(q: Question, selected: Option<string>, typed: string): (r: Option<string>)
    ensures q.kind == Mcq ==> r == selected
    ensures q.kind == Short ==> r == Some(typed)
  {
    if q.kind == Mcq then selected else Some(typed)
  }

  /** Grading: the given answer and the correct answer are each lower-cased and then
      trimmed, and must then be equal; a missing selection never matches. Lower-casing
      and trimming commute, so the contract states it trim-first. */
  function IsCorrect(given: Option<string>, correctAnswer: string): (ok: bool)
    ensures ok <==> given.Some? && ToLower(Trim(given.value)) == ToLower(Trim(correctAnswer))
    ensures given == Some(correctAnswer) ==> ok
  {
    LowerCommutesWithTrim(correctAnswer);
    if given.Some? then
      LowerCommutesWithTrim(given.value);
      Normalize(given.value) == Normalize(correctAnswer)
    else false
  }

  /** Grading is symmetric, and does not change when the given answer is first
      lower-cased and trimmed. */
  lemma GradingIsNormalized(answer: string, correctAnswer: string)
    ensures IsCorrect(Some(answer), correctAnswer) == IsCorrect(Some(correctAnswer), answer)
    ensures IsCorrect(Some(Normalize(answer)), correctAnswer) == IsCorrect(Some(answer), correctAnswer)
  {
    NormalizeIdempotent(answer);
  }

  /** The history entry `checkAnswer` records: the grade, and the given answer or "" when
      there is none. */
  function Graded(q: Question, selected: Option<string>, typed: string): (r: AnswerRecord)
    ensures q.kind == Short ==> r.answer == typed
    ensures q.kind == Mcq ==> r.answer == selected.GetOr("")
    ensures q.kind == Mcq && selected.None? ==> !r.correct
    ensures q.kind == Mcq ==> (r.correct <==> selected.Some? && ToLower(Trim(selected.value)) == ToLower(Trim(q.correctAnswer)))
    ensures q.kind == Short ==> (r.correct <==> ToLower(Trim(typed)) == ToLower(Trim(q.correctAnswer)))
  {
    var given := GivenAnswer(q, selected, typed);
    AnswerRecord(IsCorrect(given, q.correctAnswer), given.GetOr(""))
  }

  /** The number of records marked correct. */
  function CountCorrect(records: seq<AnswerRecord>): (n: nat)
    ensures n <= |records|
  {
    if records == [] then 0
    else (if records[0].correct then 1 else 0) + CountCorrect(records[1..])
  }

  /** Appending one record raises the count by one exactly when that record is correct. */
  lemma {:induction false} CountCorrectSnoc(records: seq<AnswerRecord>, r: AnswerRecord)
    ensures CountCorrect(records + [r]) == CountCorrect(records) + (if r.correct then 1 else 0)
  {
    if records != [] {
      assert (records + [r])[1..] == records[1..] + [r];
      CountCorrectSnoc(records[1..], r);
    }
  }

  /** The "Check Answer" button is enabled: a selection that is a non-empty string for a
      multiple-choice question, a short answer that is not blank otherwise. */
  function CheckEnabled(q: Question, selected: Option<string>, typed: string): (enabled: bool)
    ensures enabled && q.kind == Mcq ==> selected.Some? && selected.value != ""
    ensures enabled && q.kind == Short ==> !IsBlank(typed)
    ensures q.kind == Short && !IsBlank(typed) ==> enabled
    ensures q.kind == Mcq && selected.Some? && selected.value != "" ==> enabled
  {
    TrimEmptyIffBlank(typed);
    if q.kind == Mcq then selected.Some? && selected.value != "" else Trim(typed) != ""
  }

  /** The question is shown as option buttons: a multiple-choice question whose `options`
      field is present. Every other question is shown with the short-answer field. */
  predicate ShowsOptions(q: Question) {
    q.kind == Mcq && q.options.Some?
  }

  class Session {
    const questions: seq<Question>
    var currentIndex: nat
    var selectedAnswer: Option<string>
    var shortAnswer: string
    var showResult: bool
    var score: nat
    var answers: seq<AnswerRecord>

    /** The score always counts the correct records of the history. */
    ghost predicate Valid()
      reads this
    {
      score == CountCorrect(answers)
    }

    /** What the rendered buttons keep true on top of `Valid`: the history holds one record
        per question answered so far, and a result is only shown for a question in range. */
    ghost predicate InFlow()
      reads this
    {
      && Valid()
      && currentIndex <= |questions|
      && |answers| == currentIndex + (if showResult then 1 else 0)
      && (showResult ==> currentIndex < |questions|)
      && (selectedAnswer.Some? ==> SelectedIsOption())
    }

    /** The selection is one of the option buttons of the current question. */
    ghost predicate SelectedIsOption()
      reads this
    {
      && selectedAnswer.Some?
      && currentIndex < |questions|
      && ShowsOptions(questions[currentIndex])
      && selectedAnswer.value in questions[currentIndex].options.value
    }

    /** An enabled option button labelled `option` is on screen. */
    predicate OptionClickable(option: string)
      reads this
    {
      && !Completed() && !showResult
      && ShowsOptions(questions[currentIndex])
      && option in questions[currentIndex].options.value
    }

    /** The short-answer field is on screen and enabled. */
    predicate FieldEditable()
      reads this
    {
      !Completed() && !showResult && !ShowsOptions(questions[currentIndex])
    }

    /** The "Quiz Complete!" view is shown. */
    predicate Completed()
      reads this
    {
      currentIndex >= |questions|
    }

    constructor (questions: seq<Question>)
      ensures this.questions == questions
      ensures currentIndex == 0 && selectedAnswer == None && shortAnswer == ""
      ensures !showResult && score == 0 && answers == []
      ensures InFlow()
      ensures Completed() <==> |questions| == 0
    {
      this.questions := questions;
      currentIndex := 0;
      selectedAnswer := None;
      shortAnswer := "";
      showResult := false;
      score := 0;
      answers := [];
    }

    /** `checkAnswer`: grade the current question, count it, record it, reveal the result. */
    method CheckAnswer() returns (record: AnswerRecord)
      requires Valid() && currentIndex < |questions|
      modifies this
      ensures Valid()
      ensures currentIndex == old(currentIndex) && selectedAnswer == old(selectedAnswer)
      ensures shortAnswer == old(shortAnswer)
      ensures record == Graded(questions[currentIndex], selectedAnswer, shortAnswer)
      ensures answers == old(answers) + [record]
      ensures score == old(score) + (if record.correct then 1 else 0)
      ensures showResult
    {
      record := Graded(questions[currentIndex], selectedAnswer, shortAnswer);
      CountCorrectSnoc(answers, record);
      if record.correct {
        score := score + 1;
      }
      answers := answers + [record];
      showResult := true;
    }

    /** `nextQuestion`: move on and clear the per-question state. */
    method NextQuestion()
      requires Valid()
      modifies this
      ensures Valid()
      ensures currentIndex == old(currentIndex) + 1
      ensures selectedAnswer == None && shortAnswer == "" && !showResult
      ensures score == old(score) && answers == old(answers)
    {
      showResult := false;
      selectedAnswer := None;
      shortAnswer := "";
      currentIndex := currentIndex + 1;
    }

    /** `resetQuiz`: back to the first question with nothing answered, from any state. */
    method ResetQuiz()
      modifies this
      ensures InFlow()
      ensures currentIndex == 0 && selectedAnswer == None && shortAnswer == ""
      ensures !showResult && score == 0 && answers == []
    {
      currentIndex := 0;
      selectedAnswer := None;
      shortAnswer := "";
      showResult := false;
      score := 0;
      answers := [];
    }

    /** A click on the option button labelled `option`. Option buttons exist only for a
        multiple-choice question that has options, and are disabled once the result is
        shown; a click anywhere else does nothing. */
    method ChooseOption(option: string)
      requires InFlow()
      modifies this
      ensures InFlow()
      ensures selectedAnswer == if old(OptionClickable(option)) then Some(option) else old(selectedAnswer)
      ensures currentIndex == old(currentIndex) && shortAnswer == old(shortAnswer)
      ensures showResult == old(showResult) && score == old(score) && answers == old(answers)
    {
      if OptionClickable(option) {
        selectedAnswer := Some(option);
      }
    }

    /** Typing in the short-answer field, which exists only for a question without option
        buttons and is disabled once the result is shown. */
    method TypeShortAnswer(text: string)
      requires InFlow()
      modifies this
      ensures InFlow()
      ensures shortAnswer == if old(FieldEditable()) then text else old(shortAnswer)
      ensures currentIndex == old(currentIndex) && selectedAnswer == old(selectedAnswer)
      ensures showResult == old(showResult) && score == old(score) && answers == old(answers)
    {
      if FieldEditable() {
        shortAnswer := text;
      }
    }

    /** A click on "Check Answer": the button exists only on an unrevealed question and is
        disabled unless an answer has been given. */
    method ClickCheck() returns (fired: bool)
      requires InFlow()
      modifies this
      ensures InFlow()
      ensures fired <==> !old(Completed()) && !old(showResult)
                         && CheckEnabled(questions[old(currentIndex)], old(selectedAnswer), old(shortAnswer))
      ensures fired ==> && showResult
                        && answers == old(answers) + [Graded(questions[old(currentIndex)], old(selectedAnswer), old(shortAnswer))]
                        && score == CountCorrect(answers)
      ensures !fired ==> showResult == old(showResult) && score == old(score) && answers == old(answers)
      ensures currentIndex == old(currentIndex)
      ensures selectedAnswer == old(selectedAnswer) && shortAnswer == old(shortAnswer)
    {
      fired := !Completed() && !showResult
               && CheckEnabled(questions[currentIndex], selectedAnswer, shortAnswer);
      if fired {
        var _ := CheckAnswer();
      }
    }

    /** A click on "Next Question" / "See Results": the button exists only while a result is shown. */
    method ClickNext() returns (fired: bool)
      requires InFlow()
      modifies this
      ensures InFlow()
      ensures fired <==> !old(Completed()) && old(showResult)
      ensures fired ==> && currentIndex == old(currentIndex) + 1 && !showResult
                        && selectedAnswer == None && shortAnswer == ""
      ensures !fired ==> && currentIndex == old(currentIndex) && showResult == old(showResult)
                         && selectedAnswer == old(selectedAnswer) && shortAnswer == old(shortAnswer)
      ensures score == old(score) && answers == old(answers)
    {
      fired := !Completed() && showResult;
      if fired {
        NextQuestion();
      }
    }
  }

  /** A multiple-choice question without an `options` field gets the short-answer field
      but is graded on the selection, which nothing can set: its "Check Answer" button
      stays disabled, so the quiz cannot move past it. */
  lemma MissingOptionsBlocksCheck(s: Session)
    requires s.InFlow() && !s.Completed() && !s.showResult
    requires s.questions[s.currentIndex].kind == Mcq && s.questions[s.currentIndex].options.None?
    ensures s.selectedAnswer == None
    ensures !CheckEnabled(s.questions[s.currentIndex], s.selectedAnswer, s.shortAnswer)
  {
  }

  /** Once every question has been checked and passed, the history holds exactly one
      record per question and the score is the number of correct ones, at most the
      number of questions. */
  lemma CompletedSummary(s: Session)
    requires s.InFlow() && s.Completed()
    ensures !s.showResult && |s.answers| == |s.questions|
    ensures s.score == CountCorrect(s.answers) <= |s.questions|
  {
  }

  /** Grading ignores case: "paris" is accepted for "Paris". */
  lemma GradingIgnoresCase()
    ensures IsCorrect(Some("paris"), "Paris")
  {
    TrimOfTrimmed("paris");
    TrimOfTrimmed("Paris");
    assert ToLower("Paris") == "paris";
    assert ToLower("paris") == "paris";
  }

  /** Grading ignores surrounding white space: " 42 " is accepted for "42". */
  lemma GradingIgnoresOuterSpace()
    ensures IsCorrect(Some(" 42 "), "42")
  {
    TrimOfTrimmed("42");
    assert LeadingSpaces(" 42 ") == 1 by {
      assert " 42 "[1..] == "42 ";
      assert LeadingSpaces("42 ") == 0;
    }
    assert TrailingSpaces("42 ") == 1 by {
      assert "42 "[..2] == "42";
      assert TrailingSpaces("42") == 0;
    }
    assert Trim(" 42 ") == "42";
  }

  /** With no option selected the answer is wrong, whatever the correct answer is. */
  lemma NoSelectionIsWrong(q: Question, typed: string)
    requires q.kind == Mcq
    ensures !Graded(q, None, typed).correct
    ensures Graded(q, None, typed).answer == ""
  {
  }
}
