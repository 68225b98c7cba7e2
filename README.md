# Exam grading and rental pricing, modelled in Dafny

Two small command-line programs, each a closed family of variants over a common
base.

- **Exam grading** (`onlineexam.cpp`, module `OnlineExam` in `online_exam.dfy`).
  An exam has an ID, a subject and a duration. The base constructor refuses a
  non-positive duration. A multiple-choice exam adds a question count and a
  correct-answer count. An essay exam adds a topic, a question count and a
  score. The result field starts at 0 and changes only through a setter that
  refuses values outside `[0, numQuestions]`. `gradeExam` fails when the question
  count is not positive; otherwise it reports the count, or the score, over its
  maximum. `createExam` checks the duration first and then the category, which
  must be exactly `"MCQ"` or `"Essay"`. It then checks the counts, builds the
  exam and calls its setter. `main` runs `createExam` and `takeExam`; any error
  ends the run.
- **Rental pricing** (`carrental.cpp`, module `CarRental` in `car_rental.dfy`).
  A vehicle has a make, a model and a year, and is a `Car` (door count), an `SUV`
  (all-wheel-drive flag) or a `Truck` (cargo capacity in tons). A car costs 50 and
  an SUV 70. A truck costs `100 + 15 * cargoCapacity`. `main` builds a vehicle
  only for the exact category `"Car"`, `"SUV"` or `"Truck"`. It then prints three
  slots, Car, SUV and Truck. The slot of the vehicle's own variant shows its
  details and cost; every other slot prints `null`.

How the C++ maps to Dafny:

- Exceptions become the values `Result` and `Outcome`, carrying an `ExamError`:
  `InvalidExamDuration`, `GradingError`, or `InvalidArgument` for
  `std::invalid_argument`.
- The `Exam` base fields are only ever read, so they are a datatype, `Exam`.
  `NewExam` is the base constructor's check.
- `MultipleChoiceExam` and `EssayExam` are classes. Fields the C++ never writes
  after construction are `const`. The result field is a `var`, and only the
  setter's `modifies` frame names it.
- Each throwing C++ constructor becomes a static method `New` that returns a
  `Result`.
- `gradeExam` is a function that reads the object. It cannot change the exam.
- `createExam` is the method `CreateExam`. It is proved against the function
  `CheckExamInput`, which gives the verdict `createExam` reaches for its inputs.
  `RunExam` is the body of `main`.
- The invariant `Valid()` of each exam class says two things: the duration is
  positive, and the result field is 0 or a value the setter accepted. It does not
  say `0 <= result <= numQuestions`. The constructors take any question count,
  so a fresh exam with a negative question count still holds 0. `CreateExam`
  checks that the count is positive, so every exam it returns has
  `0 <= result <= numQuestions`.
- Vehicles are never changed after construction, so `Vehicle` is a datatype with
  a `Kind` for the variant. The display is a sequence of three `Slot`s.

Console reads become parameters. `CreateExam` and `RunExam` take every value the
program could read. `topic` is used only for an essay exam. `SelectVehicle` takes
all three variant fields and uses the one its category selects.

## Model

| member | source | states |
|---|---|---|
| `OnlineExam.NewExam` | onlineexam.cpp:36-43 | the base exam exists exactly when the duration is positive and then holds the given ID, subject and duration; otherwise InvalidExamDuration |
| `OnlineExam.MultipleChoiceExam.constructor` | onlineexam.cpp:70-71 | a new multiple-choice exam keeps its base fields and question count and has 0 correct answers |
| `OnlineExam.MultipleChoiceExam.New` | onlineexam.cpp:36-71 | construction fails with InvalidExamDuration exactly when duration <= 0; otherwise a fresh valid exam with the given fields and 0 correct answers |
| `OnlineExam.MultipleChoiceExam.SetNumCorrectAnswers` | onlineexam.cpp:88-95 | fails with GradingError exactly when the count is outside [0, numQuestions], leaving the count unchanged; otherwise stores it; only this field can change; validity is kept |
| `OnlineExam.MultipleChoiceExam.GradeExam` | onlineexam.cpp:73-86 | fails with GradingError exactly when numQuestions <= 0; otherwise reports the correct-answer count and a score with score * numQuestions == correct * 100, in [0, 100] for a valid exam |
| `OnlineExam.EssayExam.constructor` | onlineexam.cpp:108-109 | a new essay exam keeps its base fields, topic and question count and has score 0 |
| `OnlineExam.EssayExam.New` | onlineexam.cpp:36-109 | construction fails with InvalidExamDuration exactly when duration <= 0; otherwise a fresh valid exam with the given fields and score 0 |
| `OnlineExam.EssayExam.SetScore` | onlineexam.cpp:126-133 | fails with GradingError exactly when the score is outside [0, numQuestions], leaving the score unchanged; otherwise stores it; only this field can change; validity is kept |
| `OnlineExam.EssayExam.GradeExam` | onlineexam.cpp:111-124 | fails with GradingError exactly when numQuestions <= 0; otherwise reports topic, question count and score, the score in [0, numQuestions] for a valid exam |
| `OnlineExam.CheckExamInput` | onlineexam.cpp:152-204 | createExam's inputs pass exactly when duration > 0, the category is exactly "MCQ" or "Essay", numQuestions > 0 and the value is in [0, numQuestions] |
| `OnlineExam.DurationCheckedFirst` | onlineexam.cpp:152-157 | a non-positive duration fails with InvalidExamDuration whatever the category and counts |
| `OnlineExam.UnknownCategoryRejected` | onlineexam.cpp:201-204 | with a positive duration, any category other than exactly "MCQ" or "Essay" fails with InvalidArgument whatever the counts |
| `OnlineExam.GradingErrorExactly` | onlineexam.cpp:157-200 | GradingError is the verdict exactly when duration and category pass and the counts do not |
| `OnlineExam.CreateExam` | onlineexam.cpp:138-205 | fails exactly when CheckExamInput fails, with the same error; on success a fresh valid exam of the named variant with the given ID, subject, duration, question count, topic and result value |
| `OnlineExam.TakeExam` | onlineexam.cpp:207-216 | reports the exam's ID, subject and duration and exactly the grade its variant's GradeExam gives; fails (GradingError) exactly when that grading fails |
| `OnlineExam.RunExam` | onlineexam.cpp:224-248 | the run fails exactly when createExam's checks fail, with that error (grading never fails afterwards); on success the transcript carries the inputs, the MCQ score equals correct / numQuestions * 100 and lies in [0, 100], the essay grade is the given score over numQuestions |
| `OnlineExam.PercentageExample` | onlineexam.cpp:84 | 15 correct answers out of 20 score 75 |
| `OnlineExam.PercentageBounds` | onlineexam.cpp:84 | a correct-answer count in [0, total] scores between 0 and 100 |
| `OnlineExam.Percentage` | onlineexam.cpp:84 | the score s out of 100 satisfies s * total == correct * 100, so it is correct / total * 100 and gives back the count |
| `OnlineExam.PercentageMonotone` | onlineexam.cpp:84 | more correct answers give a strictly higher score and conversely; 100 exactly for all correct, 0 exactly for none |
| `CarRental.Vehicle.RentalCost` | carrental.cpp:84-87 | for a truck, the cargo capacity is recovered from the cost, and the cost is at least 100 exactly when the capacity is not negative |
| `CarRental.CategoryName` | carrental.cpp:121-175 | the category string "Car", "SUV" or "Truck" (also the slot title) names exactly its own variant |
| `CarRental.FlatRates` | carrental.cpp:44-67 | every car costs 50 and every SUV 70, whatever the make, model, year, doors or drive |
| `CarRental.TruckRate` | carrental.cpp:84-87 | a truck costs 100 + 15 * cargoCapacity (137.5 for 2.5 tons) |
| `CarRental.CostDependsOnlyOnKind` | carrental.cpp:17-87 | vehicles with the same variant and variant field cost the same |
| `CarRental.TruckCostMonotone` | carrental.cpp:84-87 | a truck with more cargo capacity costs strictly more, and conversely |
| `CarRental.SelectVehicle` | carrental.cpp:119-144 | a vehicle is built exactly for "Car", "SUV" or "Truck"; it is of the named variant and carries the given make, model, year and variant field |
| `CarRental.Display` | carrental.cpp:146-182 | three slots titled Car, SUV, Truck in that order; a slot is non-null exactly when a vehicle exists and its category is the slot's title, and then shows that vehicle and its cost |
| `CarRental.ExactlyOneSlot` | carrental.cpp:146-182 | one slot is non-null when a vehicle exists, none otherwise |
| `CarRental.RentalReport` | carrental.cpp:119-182 | for any input, a slot is non-null exactly when its title is the category string, so an unknown category prints three nulls |

## Left out

- Console I/O: prompts, `getline`, `cin >>`, `cin.ignore`, `ws` and all `cout`/`cerr` text. Inputs are parameters, and outputs are the `Grade`, `Transcript` and `Slot` values.
- Stream-extraction failure on non-numeric input, which leaves the C++ variable unset or clamped. This is library behaviour, not program logic.
- C++ `int` width: the model uses unbounded integers. The programs only compare these values and never do integer arithmetic on them, so no overflow can occur.
- IEEE `double` rounding and the default stream formatting of the score and the cost. The model uses exact `real` arithmetic.
- The exit status of `main`: the program exits with 1 for every error kind and 0 otherwise. `RunExam` returns the `Result` from which the status follows. The `what()` message texts are not modelled.
- `dynamic_cast`, `new`/`delete`, `unique_ptr` and virtual destructors. Variants are datatype constructors, and the display matches on them.
- The getters (`getExamID`, `getMake`, …). They are field reads in the model.
- `srand(time(0))`. Its value is never used.
