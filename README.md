# Prelim grade calculator, modelled in Dafny

This project models the engine of the Java prelim grade calculator
(`PrelimLabWork3/JAVA/PrelimGradeCalculator.java`). A student enters an
attendance count and three lab work grades and presses "Calculate". Each
input then goes through four steps:

- **Parsing.** Every field is parsed. A field that does not parse gives the
  "valid numeric values" error.
- **Validation.** The attendance must not be negative. After that, lab 1,
  lab 2 and lab 3 must each lie in [0, 100], checked in that order. The first
  failing check ends the action with its own error.
- **Computation.** The calculator works out the lab work average and the class
  standing. It then inverts `Prelim Grade = 0.30 * Exam + 0.70 * Class Standing`
  to find the exam score needed to reach 75 (passing) and 100 (excellent).
- **Evaluation.** Each of the two required scores is classified on its own:
  above 100 is impossible, below 0 is already achieved, and anything else is
  achievable.

All quantities are exact `real`s, so the inversion and the classification
boundaries hold as equalities, with no tolerance.

Modules:

- `JavaValues` (`java_values.dfy`): what the parsers can return.
  - A field is `NonNumeric` (the parser threw `NumberFormatException`) or
    `Parsed(v)`.
  - Attendance is a 32-bit `int`.
  - A lab grade is a Java `double`: a finite value, NaN or one of the
    infinities, compared the way Java compares them.
- `GradeFormulas` (`grade_formulas.dfy`): the three formulas and the inversion.
- `Evaluation` (`evaluation.dfy`): the classifier and what each of its
  outcomes means in terms of the exam scores a student can obtain.
- `PrelimGradeCalculator` (`calculator.dfy`): the error kinds, the fail-fast
  validation, the computed values, and `Calculate`, one press of the button.

Three points of the code's behaviour:

- Only the three lab grades are range-checked. No exam score is entered, so no
  exam score is checked.
- Attendance is parsed as an integer, so a fractional attendance such as
  `12.5` gives the invalid-input error.
- Every field is parsed before any range check runs. A non-numeric field is
  therefore reported even when the attendance is negative.

`Calculate` uses the corrected validation described under "## Findings". A lab
field holding NaN is reported there as invalid input. The Java code as written
lets it through to the calculation instead.

## Model

| member | source | states |
|---|---|---|
| `GradeFormulas.LabWorkAverage` | PrelimLabWork3/JAVA/PrelimGradeCalculator.java:226 | the result is the mean of the three lab grades: the deviations from it sum to zero |
| `GradeFormulas.ClassStanding` | PrelimLabWork3/JAVA/PrelimGradeCalculator.java:229 | class standing is a weighted average of attendance and lab average, so it lies between them |
| `GradeFormulas.PrelimGrade` | PrelimLabWork3/JAVA/PrelimGradeCalculator.java:13 | the prelim grade is a weighted average of the exam score and class standing, so it lies between them |
| `GradeFormulas.RequiredExam` | PrelimLabWork3/JAVA/PrelimGradeCalculator.java:233-236 | inversion round trip: putting the required score back into the prelim grade formula gives exactly the target |
| `GradeFormulas.RequiredExamIsUnique` | PrelimLabWork3/JAVA/PrelimGradeCalculator.java:233-236 | an exam score reaches the target exactly if and only if it equals the required score |
| `GradeFormulas.PrelimGradeIncreasing` | PrelimLabWork3/JAVA/PrelimGradeCalculator.java:13 | a higher exam score always gives a strictly higher prelim grade |
| `GradeFormulas.LabWorkAverageBounds` | PrelimLabWork3/JAVA/PrelimGradeCalculator.java:226 | if every lab grade lies in a range (such as [0, 100]), so does the average |
| `GradeFormulas.ClassStandingNonNegative` | PrelimLabWork3/JAVA/PrelimGradeCalculator.java:229 | a non-negative attendance and lab average give a non-negative class standing |
| `GradeFormulas.ClassStandingCanExceedHundred` | PrelimLabWork3/JAVA/PrelimGradeCalculator.java:187-229 | attendance has no upper bound, so attendance 300 with no lab work gives class standing 120 |
| `GradeFormulas.PerfectClassStanding` | PrelimLabWork3/JAVA/PrelimGradeCalculator.java:226-229 | attendance 100 and all labs 100 give lab average 100 and class standing exactly 100 |
| `GradeFormulas.ClassStandingMonotone` | PrelimLabWork3/JAVA/PrelimGradeCalculator.java:229 | more attendance or a better lab average never lowers class standing |
| `GradeFormulas.RequiredGap` | PrelimLabWork3/JAVA/PrelimGradeCalculator.java:235-236 | the excellent requirement exceeds the passing one by exactly 25/0.30 = 250/3, whatever the class standing |
| `GradeFormulas.RequiredExamDecreasing` | PrelimLabWork3/JAVA/PrelimGradeCalculator.java:235-236 | the required exam score strictly decreases as class standing increases |
| `GradeFormulas.RequiredExamIncreasingInTarget` | PrelimLabWork3/JAVA/PrelimGradeCalculator.java:235-236 | a higher target strictly raises the required exam score |
| `Evaluation.Classify` | PrelimLabWork3/JAVA/PrelimGradeCalculator.java:266-280 | an achievable outcome carries the required score, and that score lies in [0, 100]. So for every required score that is a number, the `<= 100` sub-check on that branch holds (a NaN score, reachable only as written, fails it; see Findings) |
| `Evaluation.ClassifyCases` | PrelimLabWork3/JAVA/PrelimGradeCalculator.java:266-280 | each outcome in both directions: impossible exactly above 100, already achieved exactly below 0, achievable with that score exactly on [0, 100] |
| `Evaluation.ClassifyBoundaries` | PrelimLabWork3/JAVA/PrelimGradeCalculator.java:266-280 | 0 and 100 are achievable; 100.0000001 is impossible and -0.0000001 is already achieved |
| `Evaluation.ClassifyMonotone` | PrelimLabWork3/JAVA/PrelimGradeCalculator.java:266-295 | a larger required score is never an easier outcome (already achieved, then achievable, then impossible) |
| `Evaluation.EvaluateTarget` | PrelimLabWork3/JAVA/PrelimGradeCalculator.java:266-295 | an achievable evaluation carries an exam score whose prelim grade is exactly the target |
| `Evaluation.ImpossibleMeansUnreachable` | PrelimLabWork3/JAVA/PrelimGradeCalculator.java:266-270 | impossible if and only if every exam score in [0, 100] leaves the prelim grade below the target |
| `Evaluation.AlreadyAchievedMeansGuaranteed` | PrelimLabWork3/JAVA/PrelimGradeCalculator.java:271-274 | already achieved if and only if every exam score in [0, 100], even 0, puts the prelim grade above the target |
| `Evaluation.AchievableMeansReachable` | PrelimLabWork3/JAVA/PrelimGradeCalculator.java:275-279 | achievable if and only if some exam score in [0, 100] gives exactly the target |
| `Evaluation.PassingNoHarderThanExcellent` | PrelimLabWork3/JAVA/PrelimGradeCalculator.java:266-295 | the passing outcome is never harder than the excellent one: excellent already achieved implies passing already achieved, and passing impossible implies excellent impossible |
| `JavaValues.NaNIsUnordered` | PrelimLabWork3/JAVA/PrelimGradeCalculator.java:192 | with Java's comparisons NaN is neither below nor above any bound |
| `JavaValues.OrderedOutsideRange` | PrelimLabWork3/JAVA/PrelimGradeCalculator.java:192-205 | for any value other than NaN, passing the `< lo \|\| > hi` guard means being a finite number in [lo, hi] |
| `PrelimGradeCalculator.ValidateAsWritten` | PrelimLabWork3/JAVA/PrelimGradeCalculator.java:181-205 | the guards as written: acceptance implies every field parsed, attendance is at least 0, and every finite lab grade is in [0, 100] (nothing about NaN) |
| `PrelimGradeCalculator.NaNReachesCalculationAsWritten` | PrelimLabWork3/JAVA/PrelimGradeCalculator.java:192-195 | a NaN lab 1 grade passes every guard as written, although it is not a valid input |
| `PrelimGradeCalculator.Validate` | PrelimLabWork3/JAVA/PrelimGradeCalculator.java:181-211 | succeeds exactly when attendance parsed and is at least 0 and every lab grade is finite and in [0, 100], endpoints included; on success it passes the values on unchanged |
| `PrelimGradeCalculator.ValidateErrorOrder` | PrelimLabWork3/JAVA/PrelimGradeCalculator.java:181-211 | each error in both directions: invalid input exactly when a field is not numeric; negative attendance exactly when all fields are numeric and attendance is below 0; the range error of lab k exactly when the earlier checks pass, the labs before k are valid and lab k is not |
| `PrelimGradeCalculator.ValidatorsAgreeWithoutNaN` | PrelimLabWork3/JAVA/PrelimGradeCalculator.java:181-205 | when no lab field holds NaN, the corrected validation gives the same verdict and the same error as the code as written |
| `PrelimGradeCalculator.Compute` | PrelimLabWork3/JAVA/PrelimGradeCalculator.java:224-236 | the lab average and class standing follow the formulas, and both required scores give their target exactly when put back into the prelim grade formula |
| `PrelimGradeCalculator.Calculate` | PrelimLabWork3/JAVA/PrelimGradeCalculator.java:178-213 | a report is produced exactly on valid input; otherwise the validation error is returned and nothing is computed; the report's lab average and class standing are the formulas applied to the parsed inputs; each target is classified from its own required score, and both round trips hold |
| `PrelimGradeCalculator.CalculatedReportFacts` | PrelimLabWork3/JAVA/PrelimGradeCalculator.java:226-236 | on valid input: 3 times the lab average equals the lab sum, the average is in [0, 100], class standing is at least 0, the gap between the requirements is 250/3, and passing is never harder than excellent |
| `PrelimGradeCalculator.AllHundredScenario` | PrelimLabWork3/JAVA/PrelimGradeCalculator.java:226-295 | all inputs 100: average 100, standing 100, required 50/3 and 100, both achievable |
| `PrelimGradeCalculator.AllZeroScenario` | PrelimLabWork3/JAVA/PrelimGradeCalculator.java:226-295 | all inputs 0: required 250 and 1000/3, both impossible |
| `PrelimGradeCalculator.HighAttendanceScenario` | PrelimLabWork3/JAVA/PrelimGradeCalculator.java:226-295 | attendance 300, labs 0: standing 120, passing already achieved (requires -30), excellent achievable at 160/3 |
| `PrelimGradeCalculator.NonNumericReportedFirst` | PrelimLabWork3/JAVA/PrelimGradeCalculator.java:181-211 | a non-numeric field is reported instead of a negative attendance or an out-of-range lab |

## Left out

- Swing GUI construction, event wiring, `clearFields`, `showError` and `main`: these are user interface code with no behaviour to state. Each error dialog is modelled as a value of `InputError`.
- Text parsing (`Integer.parseInt`, `Double.parseDouble`): these are library calls. Each field is given as its parse outcome (`NonNumeric` or `Parsed`). Rounding of decimal text to the nearest double is not modelled.
- IEEE-754 arithmetic: finite doubles are exact reals. Rounding in the formulas, and doubles that cannot represent 0.30 or 1/3 exactly, are not modelled. So where the Java program is off by a rounding error near a boundary (for example, a required score computed as 100.00000000000001), the model classifies the exact value instead.
- Building the output text with `StringBuilder` and `%.2f` formatting: this is presentation. Only the evaluation outcomes are modelled, not the message strings.
- `Prelim Exam/java/StudentRecordSystem.java` and `Prelim Exam/java script/Script.js` (the student record system and its final-grade and pass/fail computation) are not part of this model.
- `PrelimLabWork3/JS and HTML/CalculatorGrade.js` is not part of this model. It is used only to decide how a NaN lab grade should be handled (see Findings).
- `PrelimLabWork2/beep.js` is not part of this model. It is browser audio code with no logic to state.

## Findings

| source | as written | input that shows it | evidently intended | confidence | as-written member | corrected member |
|---|---|---|---|---|---|---|
| PrelimLabWork3/JAVA/PrelimGradeCalculator.java:192-205 | each lab guard is `lab < 0 \|\| lab > 100`. Both comparisons are false for NaN, so a NaN lab grade passes validation and reaches the calculation. | the text `NaN` in a lab field, which `Double.parseDouble` accepts (attendance 0, other labs 0) | a NaN grade is rejected as not a valid number. The JavaScript version of the same calculator (`PrelimLabWork3/JS and HTML/CalculatorGrade.js:32`) does this with `isNaN`. As written, a NaN lab also makes both required scores NaN. Both evaluations then reach their else branch, where the `<= 100` sub-checks (lines 277 and 292) are false. | high; not executed | `PrelimGradeCalculator.NaNReachesCalculationAsWritten` (about `PrelimGradeCalculator.ValidateAsWritten`) | `PrelimGradeCalculator.Validate`, proved in `PrelimGradeCalculator.ValidateErrorOrder` and `PrelimGradeCalculator.ValidatorsAgreeWithoutNaN`; used by `Calculate` |
