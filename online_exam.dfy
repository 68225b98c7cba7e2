/** Model of the exam grading evaluator (onlineexam.cpp).

    The C++ program has an abstract base `Exam` (ID, subject, duration) with two
    concrete variants, `MultipleChoiceExam` and `EssayExam`. Each variant holds a
    question count that never changes and one result field (the number of correct
    answers, or the essay score) that is written only through a bounds-checked
    setter. Exceptions become values of `Result` / `Outcome`; console reads
    become parameters. */
module OnlineExam {

  /** The three exception types the program throws and reports. */
  datatype ExamError =
    | InvalidExamDuration   // InvalidExamDurationException
    | GradingError          // GradingErrorException
    | InvalidArgument       // std::invalid_argument for an unknown category

  datatype Result<+T> = Success(value: T) | Failure(error: ExamError)

  datatype Outcome = Pass | Fail(error: ExamError)

  /** The fields of the `Exam` base class. They are read through getters only and
      never written after construction, so they form a value. */
  datatype Exam = Exam(examID: string, subject: string, duration: int)

  /** The `Exam` base constructor: it stores its arguments and refuses a
      non-positive duration, so every exam it yields has `duration > 0`. The
      classes below accept only such a base part. */
  function NewExam(examID: string, subject: string, duration: int): (r: Result<Exam>)
    ensures r.Success? <==> duration > 0
    ensures r.Failure? ==> r.error == InvalidExamDuration
    ensures r.Success? ==> r.value.examID == examID && r.value.subject == subject && r.value.duration == duration
  {
    if duration <= 0 then Failure(InvalidExamDuration) else Success(Exam(examID, subject, duration))
  }

  /** The multiple-choice score out of 100, in exact arithmetic:
      `correct / total * 100`. The score and the question count give back the
      number of correct answers. */
  function Percentage(correct: int, total: int): (r: real)
    requires total > 0
    ensures r * total as real == correct as real * 100.0
  {
    var t := total as real;
    assert correct as real / t * t == correct as real;
    correct as real / t * 100.0
  }

  /** What grading prints after its check passes. */
  datatype Grade =
    | McqGrade(numCorrectAnswers: int, percentage: real)             // correct answers, "score/100"
    | EssayGrade(topic: string, numQuestions: int, score: int)  // topic, questions, "score/numQuestions"

  class MultipleChoiceExam {
    const exam: Exam
    const numQuestions: int
    var numCorrectAnswers: int

    /** Every multiple-choice exam has a positive duration and a correct-answer
        count that is either the initial 0 or one the setter accepted. */
    ghost predicate Valid()
      reads this
    {
      exam.duration > 0 &&
      0 <= numCorrectAnswers && (numCorrectAnswers == 0 || numCorrectAnswers <= numQuestions)
    }

    constructor (exam: Exam, numQuestions: int)
      requires exam.duration > 0
      ensures this.exam == exam && this.numQuestions == numQuestions
      ensures numCorrectAnswers == 0
      ensures Valid()
    {
      this.exam := exam;
      this.numQuestions := numQuestions;
      numCorrectAnswers := 0;
    }

    /** `new MultipleChoiceExam(examID, subject, duration, numQuestions)`: the base
        constructor's check, then a question count taken as given and no correct
        answers yet. */
    static method New(examID: string, subject: string, duration: int, numQuestions: int)
      returns (r: Result<MultipleChoiceExam>)
      ensures r.Failure? <==> duration <= 0
      ensures r.Failure? ==> r.error == InvalidExamDuration
      ensures r.Success? ==> fresh(r.value) && r.value.Valid()
      ensures r.Success? ==> r.value.exam == Exam(examID, subject, duration)
      ensures r.Success? ==> r.value.numQuestions == numQuestions && r.value.numCorrectAnswers == 0
    {
      var base := NewExam(examID, subject, duration);
      if base.Failure? {
        return Failure(base.error);
      }
      var m := new MultipleChoiceExam(base.value, numQuestions);
      return Success(m);
    }

    /** `setNumCorrectAnswers`: refuses a count outside `[0, numQuestions]` and
        leaves the exam as it was; otherwise stores the count. */
    method SetNumCorrectAnswers(correct: int) returns (r: Outcome)
      requires Valid()
      modifies this`numCorrectAnswers
      ensures Valid()
      ensures r.Fail? <==> correct < 0 || correct > numQuestions
      ensures r.Fail? ==> r.error == GradingError && numCorrectAnswers == old(numCorrectAnswers)
      ensures r.Pass? ==> numCorrectAnswers == correct
    {
      if correct < 0 || correct > numQuestions {
        return Fail(GradingError);
      }
      numCorrectAnswers := correct;
      return Pass;
    }

    /** `gradeExam`: fails exactly when there are no questions; otherwise reports
        the correct-answer count and a score between 0 and 100. */
    function GradeExam(): (r: Result<Grade>)
      reads this
      ensures r.Failure? <==> numQuestions <= 0
      ensures r.Failure? ==> r.error == GradingError
      ensures r.Success? ==> r.value.McqGrade? && r.value.numCorrectAnswers == numCorrectAnswers
      ensures r.Success? ==> r.value.percentage * numQuestions as real == numCorrectAnswers as real * 100.0
      ensures r.Success? && Valid() ==> 0.0 <= r.value.percentage <= 100.0
    {
      if numQuestions <= 0 then Failure(GradingError)
      else Success(McqGrade(numCorrectAnswers, Percentage(numCorrectAnswers, numQuestions)))
    }
  }

  class EssayExam {
    const exam: Exam
    const topic: string
    const numQuestions: int
    var score: int

    /** Every essay exam has a positive duration and a score that is either the
        initial 0 or one the setter accepted. */
    ghost predicate Valid()
      reads this
    {
      exam.duration > 0 &&
      0 <= score && (score == 0 || score <= numQuestions)
    }

    constructor (exam: Exam, topic: string, numQuestions: int)
      requires exam.duration > 0
      ensures this.exam == exam && this.topic == topic && this.numQuestions == numQuestions
      ensures score == 0
      ensures Valid()
    {
      this.exam := exam;
      this.topic := topic;
      this.numQuestions := numQuestions;
      score := 0;
    }

    /** `new EssayExam(examID, subject, duration, topic, numQuestions)`. */
    static method New(examID: string, subject: string, duration: int, topic: string, numQuestions: int)
      returns (r: Result<EssayExam>)
      ensures r.Failure? <==> duration <= 0
      ensures r.Failure? ==> r.error == InvalidExamDuration
      ensures r.Success? ==> fresh(r.value) && r.value.Valid()
      ensures r.Success? ==> r.value.exam == Exam(examID, subject, duration)
      ensures r.Success? ==> r.value.topic == topic && r.value.numQuestions == numQuestions
      ensures r.Success? ==> r.value.score == 0
    {
      var base := NewExam(examID, subject, duration);
      if base.Failure? {
        return Failure(base.error);
      }
      var e := new EssayExam(base.value, topic, numQuestions);
      return Success(e);
    }

    /** `setScore`: refuses a score outside `[0, numQuestions]` and leaves the exam
        as it was; otherwise stores the score. */
    method SetScore(newScore: int) returns (r: Outcome)
      requires Valid()
      modifies this`score
      ensures Valid()
      ensures r.Fail? <==> newScore < 0 || newScore > numQuestions
      ensures r.Fail? ==> r.error == GradingError && score == old(score)
      ensures r.Pass? ==> score == newScore
    {
      if newScore < 0 || newScore > numQuestions {
        return Fail(GradingError);
      }
      score := newScore;
      return Pass;
    }

    /** `gradeExam`: fails exactly when there are no questions; otherwise reports
        the topic and the raw score out of the question count. */
    function GradeExam(): (r: Result<Grade>)
      reads this
      ensures r.Failure? <==> numQuestions <= 0
      ensures r.Failure? ==> r.error == GradingError
      ensures r.Success? ==> r.value == EssayGrade(topic, numQuestions, score)
      ensures r.Success? && Valid() ==> 0 <= r.value.score <= r.value.numQuestions
    {
      if numQuestions <= 0 then Failure(GradingError) else Success(EssayGrade(topic, numQuestions, score))
    }
  }

  /** The exam `createExam` hands back: one of the two variants. */
  datatype AnyExam = MultipleChoice(mcq: MultipleChoiceExam) | Essay(essay: EssayExam) {
    function Footprint(): set<object> {
      match this
      case MultipleChoice(m) => {m}
      case Essay(e) => {e}
    }

    ghost predicate Valid()
      reads Footprint()
    {
      match this
      case MultipleChoice(m) => m.Valid()
      case Essay(e) => e.Valid()
    }

    function Info(): Exam
      reads Footprint()
    {
      match this
      case MultipleChoice(m) => m.exam
      case Essay(e) => e.exam
    }
  }

  /** Which outcome `createExam` reaches for the given inputs, in its order of
      checks: the duration, then the category, then the counts of that category. */
  function CheckExamInput(category: string, duration: int, numQuestions: int, marks: int): (r: Outcome)
    ensures r.Pass? <==>
      duration > 0 && (category == "MCQ" || category == "Essay") && 0 < numQuestions && 0 <= marks <= numQuestions
  {
    if duration <= 0 then Fail(InvalidExamDuration)
    else if category == "MCQ" then
      if numQuestions <= 0 || marks < 0 || marks > numQuestions then Fail(GradingError) else Pass
    else if category == "Essay" then
      if numQuestions <= 0 || marks < 0 || marks > numQuestions then Fail(GradingError) else Pass
    else Fail(InvalidArgument)
  }

  /** A non-positive duration is reported before the category is looked at. */
  lemma DurationCheckedFirst(category: string, duration: int, numQuestions: int, marks: int)
    requires duration <= 0
    ensures CheckExamInput(category, duration, numQuestions, marks) == Fail(InvalidExamDuration)
  {
  }

  /** With a valid duration, any category other than exactly "MCQ" or "Essay" is an
      invalid argument, whatever the counts. */
  lemma UnknownCategoryRejected(category: string, duration: int, numQuestions: int, marks: int)
    requires duration > 0 && category != "MCQ" && category != "Essay"
    ensures CheckExamInput(category, duration, numQuestions, marks) == Fail(InvalidArgument)
  {
  }

  /** GradingError is reported exactly when the duration and the category pass and
      the counts do not. */
  lemma GradingErrorExactly(category: string, duration: int, numQuestions: int, marks: int)
    ensures CheckExamInput(category, duration, numQuestions, marks) == Fail(GradingError) <==>
      duration > 0 && (category == "MCQ" || category == "Essay") &&
      (numQuestions <= 0 || marks < 0 || marks > numQuestions)
  {
  }

  /** `createExam(category)` with the console reads replaced by parameters
      (`topic` is read only for an essay exam). It validates the inputs, builds the
      variant and passes the count to its setter. */
  method CreateExam(category: string, examID: string, subject: string, duration: int,
                    topic: string, numQuestions: int, marks: int)
    returns (r: Result<AnyExam>)
    ensures r.Failure? <==> CheckExamInput(category, duration, numQuestions, marks).Fail?
    ensures r.Failure? ==> r.error == CheckExamInput(category, duration, numQuestions, marks).error
    ensures r.Success? ==> fresh(r.value.Footprint()) && r.value.Valid()
    ensures r.Success? ==> r.value.Info() == Exam(examID, subject, duration)
    ensures r.Success? ==> (r.value.MultipleChoice? <==> category == "MCQ")
    ensures r.Success? && r.value.MultipleChoice? ==>
      r.value.mcq.numQuestions == numQuestions && r.value.mcq.numCorrectAnswers == marks
    ensures r.Success? && r.value.Essay? ==>
      r.value.essay.topic == topic && r.value.essay.numQuestions == numQuestions && r.value.essay.score == marks
  {
    if duration <= 0 {
      return Failure(InvalidExamDuration);
    }
    if category == "MCQ" {
      if numQuestions <= 0 || marks < 0 || marks > numQuestions {
        return Failure(GradingError);
      }
      var made := MultipleChoiceExam.New(examID, subject, duration, numQuestions);
      assert made.Success?;  // the duration was checked above
      var m := made.value;
      var stored := m.SetNumCorrectAnswers(marks);
      assert stored.Pass?;      // the count was checked above
      return Success(MultipleChoice(m));
    } else if category == "Essay" {
      if numQuestions <= 0 || marks < 0 || marks > numQuestions {
        return Failure(GradingError);
      }
      var made := EssayExam.New(examID, subject, duration, topic, numQuestions);
      assert made.Success?;
      var e := made.value;
      var stored := e.SetScore(marks);
      assert stored.Pass?;
      return Success(Essay(e));
    } else {
      return Failure(InvalidArgument);
    }
  }

  /** What `takeExam` prints: the exam's ID, subject and duration, then its grade. */
  datatype Transcript = Transcript(examID: string, subject: string, duration: int, grade: Grade)

  /** `takeExam`: reports the exam's base fields and grades it; a grading failure
      propagates. */
  function TakeExam(exam: AnyExam): (r: Result<Transcript>)
    reads exam.Footprint()
    ensures r.Failure? ==> r.error == GradingError
    ensures r.Success? ==> r.value.examID == exam.Info().examID && r.value.subject == exam.Info().subject
    ensures r.Success? ==> r.value.duration == exam.Info().duration
    ensures exam.MultipleChoice? ==> (r.Failure? <==> exam.mcq.GradeExam().Failure?)
    ensures exam.Essay? ==> (r.Failure? <==> exam.essay.GradeExam().Failure?)
    ensures r.Success? && exam.MultipleChoice? ==> r.value.grade == exam.mcq.GradeExam().value
    ensures r.Success? && exam.Essay? ==> r.value.grade == exam.essay.GradeExam().value
  {
    var info := exam.Info();
    var graded := match exam
      case MultipleChoice(m) => m.GradeExam()
      case Essay(e) => e.GradeExam();
    if graded.Failure? then Failure(graded.error)
    else Success(Transcript(info.examID, info.subject, info.duration, graded.value))
  }

  /** The body of `main`: create the exam for the category and take it. Any error
      ends the run (the program then exits with status 1). Grading never fails on
      an exam that `createExam` built, so the run fails exactly when the inputs
      fail `createExam`'s checks. */
  method RunExam(category: string, examID: string, subject: string, duration: int,
                 topic: string, numQuestions: int, marks: int)
    returns (r: Result<Transcript>)
    ensures r.Failure? <==> CheckExamInput(category, duration, numQuestions, marks).Fail?
    ensures r.Failure? ==> r.error == CheckExamInput(category, duration, numQuestions, marks).error
    ensures r.Success? ==> r.value.examID == examID && r.value.subject == subject && r.value.duration == duration
    ensures r.Success? && category == "MCQ" ==>
      r.value.grade.McqGrade? && r.value.grade.numCorrectAnswers == marks &&
      r.value.grade.percentage == Percentage(marks, numQuestions)
    ensures r.Success? && category == "MCQ" ==> 0.0 <= r.value.grade.percentage <= 100.0
    ensures r.Success? && category == "Essay" ==> r.value.grade == EssayGrade(topic, numQuestions, marks)
  {
    var created := CreateExam(category, examID, subject, duration, topic, numQuestions, marks);
    if created.Failure? {
      return Failure(created.error);
    }
    r := TakeExam(created.value);
  }

  /** Example: 15 correct answers out of 20 questions score 75 out of 100. */
  lemma PercentageExample()
    ensures Percentage(15, 20) == 75.0
  {
  }

  /** A count in `[0, total]` scores between 0 and 100. */
  lemma PercentageBounds(correct: int, total: int)
    requires 0 < total && 0 <= correct <= total
    ensures 0.0 <= Percentage(correct, total) <= 100.0
  {
  }

  /** More correct answers give a strictly higher score, and conversely; full marks
      are exactly all answers correct, and 0 exactly none. */
  lemma PercentageMonotone(c1: int, c2: int, total: int)
    requires 0 < total
    ensures c1 < c2 <==> Percentage(c1, total) < Percentage(c2, total)
    ensures Percentage(c1, total) == 100.0 <==> c1 == total
    ensures Percentage(c1, total) == 0.0 <==> c1 == 0
  {
    var t := total as real;
    var p1, p2 := Percentage(c1, total), Percentage(c2, total);
    assert p1 * t == c1 as real * 100.0 && p2 * t == c2 as real * 100.0;
    ScalingKeepsOrder(p1, p2, t);
    ScalingKeepsOrder(p1, 100.0, t);
    ScalingKeepsOrder(p1, 0.0, t);
    assert c1 < c2 <==> c1 as real * 100.0 < c2 as real * 100.0;
  }

  /** Multiplying by a positive factor keeps order and equality. */
  lemma ScalingKeepsOrder(x: real, y: real, t: real)
    requires t > 0.0
    ensures x < y <==> x * t < y * t
    ensures x == y <==> x * t == y * t
  {
    assert x * t - y * t == (x - y) * t;
    if x < y {
      assert (y - x) * t > 0.0;
    } else if y < x {
      assert (x - y) * t > 0.0;
    }
  }
}
