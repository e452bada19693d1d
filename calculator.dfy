/**
 * The calculate action of the prelim grade calculator: parse-outcome checks,
 * the fail-fast validation chain, the computed values and the two evaluations.
 */
module PrelimGradeCalculator {
  import opened JavaValues
  import opened GradeFormulas
  import opened Evaluation

  datatype Result<T, E> = Ok(value: T) | Err(error: E)

  /** Which lab work field a range error is about. */
  type LabNumber = n: int | 1 <= n <= 3 witness 1

  /** The error dialogs, by kind. */
  datatype InputError = InvalidInput | NegativeAttendance | OutOfRangeGrade(lab: LabNumber)

  /** Inputs that passed every check: an attendance count and three finite lab grades. */
  datatype ValidInput = ValidInput(attendance: Int32, lab1: real, lab2: real, lab3: real)

  /** The computed values shown under COMPUTED VALUES and REQUIRED PRELIM EXAM SCORES. */
  datatype GradeResult = GradeResult(
    labWorkAverage: real,
    classStanding: real,
    requiredForPassing: real,
    requiredForExcellent: real)

  /** Everything one successful calculation produces, with an evaluation per target. */
  datatype Report = Report(grades: GradeResult, passing: Evaluation, excellent: Evaluation)

  /** The guard on one lab grade as written: `lab < 0 || lab > 100` with Java's comparisons. */
  predicate LabOutOfRange(d: JavaDouble)
  {
    LessThan(d, 0.0) || GreaterThan(d, 100.0)
  }

  /** A lab field holds a number: it parsed, and not to NaN. */
  predicate IsNumber(f: Field<JavaDouble>)
  {
    f.Parsed? && !f.value.NaN?
  }

  /** All four fields hold numbers. */
  predicate AllNumeric(attendance: Field<Int32>, lab1: Field<JavaDouble>, lab2: Field<JavaDouble>, lab3: Field<JavaDouble>)
  {
    attendance.Parsed? && IsNumber(lab1) && IsNumber(lab2) && IsNumber(lab3)
  }

  /** A lab field that holds a finite grade between 0 and 100, both included. */
  predicate LabValid(f: Field<JavaDouble>)
  {
    f.Parsed? && f.value.Finite? && 0.0 <= f.value.value <= 100.0
  }

  /** The inputs on which a calculation is carried out. */
  predicate InputValid(attendance: Field<Int32>, lab1: Field<JavaDouble>, lab2: Field<JavaDouble>, lab3: Field<JavaDouble>)
  {
    attendance.Parsed? && attendance.value >= 0 && LabValid(lab1) && LabValid(lab2) && LabValid(lab3)
  }

  /**
   * The validation exactly as written: a parse failure of any field, then the
   * attendance guard, then the three lab guards in order. A NaN lab grade is
   * neither below 0 nor above 100, so this check lets it through.
   */
  function ValidateAsWritten(attendance: Field<Int32>, lab1: Field<JavaDouble>, lab2: Field<JavaDouble>, lab3: Field<JavaDouble>): (v: Result<(), InputError>)
    ensures v.Ok? ==> attendance.Parsed? && attendance.value >= 0
    ensures v.Ok? ==> lab1.Parsed? && lab2.Parsed? && lab3.Parsed?
    ensures v.Ok? ==> forall lab :: lab in [lab1, lab2, lab3] && lab.value.Finite? ==> 0.0 <= lab.value.value <= 100.0
  {
    if attendance.NonNumeric? || lab1.NonNumeric? || lab2.NonNumeric? || lab3.NonNumeric? then Err(InvalidInput)
    else if attendance.value < 0 then Err(NegativeAttendance)
    else if LabOutOfRange(lab1.value) then Err(OutOfRangeGrade(1))
    else if LabOutOfRange(lab2.value) then Err(OutOfRangeGrade(2))
    else if LabOutOfRange(lab3.value) then Err(OutOfRangeGrade(3))
    else Ok(())
  }

  /** The text "NaN" in a lab field passes every guard as written and reaches the calculation. */
  lemma NaNReachesCalculationAsWritten()
    ensures ValidateAsWritten(Parsed(0), Parsed(NaN), Parsed(Finite(0.0)), Parsed(Finite(0.0))) == Ok(())
    ensures !InputValid(Parsed(0), Parsed(NaN), Parsed(Finite(0.0)), Parsed(Finite(0.0)))
  {
  }

  /**
   * The validation the calculation relies on: the same fail-fast chain, with a
   * NaN lab grade treated as non-numeric. On success it hands over the parsed
   * values unchanged.
   */
  function Validate(attendance: Field<Int32>, lab1: Field<JavaDouble>, lab2: Field<JavaDouble>, lab3: Field<JavaDouble>): (r: Result<ValidInput, InputError>)
    ensures r.Ok? <==> InputValid(attendance, lab1, lab2, lab3)
    ensures r.Ok? ==> r.value == ValidInput(attendance.value, lab1.value.value, lab2.value.value, lab3.value.value)
  {
    if !AllNumeric(attendance, lab1, lab2, lab3) then Err(InvalidInput)
    else if attendance.value < 0 then Err(NegativeAttendance)
    else if LabOutOfRange(lab1.value) then Err(OutOfRangeGrade(1))
    else if LabOutOfRange(lab2.value) then Err(OutOfRangeGrade(2))
    else if LabOutOfRange(lab3.value) then Err(OutOfRangeGrade(3))
    else Ok(ValidInput(attendance.value, lab1.value.value, lab2.value.value, lab3.value.value))
  }

  /**
   * Which error is reported, as an exact characterisation of each: a
   * non-numeric field beats everything, a negative attendance beats every lab
   * error, and lab 1's range error beats lab 2's, which beats lab 3's.
   */
  lemma ValidateErrorOrder(attendance: Field<Int32>, lab1: Field<JavaDouble>, lab2: Field<JavaDouble>, lab3: Field<JavaDouble>)
    ensures Validate(attendance, lab1, lab2, lab3) == Err(InvalidInput)
            <==> !AllNumeric(attendance, lab1, lab2, lab3)
    ensures Validate(attendance, lab1, lab2, lab3) == Err(NegativeAttendance)
            <==> AllNumeric(attendance, lab1, lab2, lab3) && attendance.value < 0
    ensures Validate(attendance, lab1, lab2, lab3) == Err(OutOfRangeGrade(1))
            <==> AllNumeric(attendance, lab1, lab2, lab3) && attendance.value >= 0 && !LabValid(lab1)
    ensures Validate(attendance, lab1, lab2, lab3) == Err(OutOfRangeGrade(2))
            <==> AllNumeric(attendance, lab1, lab2, lab3) && attendance.value >= 0 && LabValid(lab1) && !LabValid(lab2)
    ensures Validate(attendance, lab1, lab2, lab3) == Err(OutOfRangeGrade(3))
            <==> AllNumeric(attendance, lab1, lab2, lab3) && attendance.value >= 0 && LabValid(lab1) && LabValid(lab2) && !LabValid(lab3)
  {
    if AllNumeric(attendance, lab1, lab2, lab3) {
      OrderedOutsideRange(lab1.value, 0.0, 100.0);
      OrderedOutsideRange(lab2.value, 0.0, 100.0);
      OrderedOutsideRange(lab3.value, 0.0, 100.0);
    }
  }

  /** The correction changes nothing unless some lab field holds NaN. */
  lemma ValidatorsAgreeWithoutNaN(attendance: Field<Int32>, lab1: Field<JavaDouble>, lab2: Field<JavaDouble>, lab3: Field<JavaDouble>)
    requires lab1 != Parsed(NaN) && lab2 != Parsed(NaN) && lab3 != Parsed(NaN)
    ensures ValidateAsWritten(attendance, lab1, lab2, lab3).Ok? <==> Validate(attendance, lab1, lab2, lab3).Ok?
    ensures ValidateAsWritten(attendance, lab1, lab2, lab3).Err?
            ==> ValidateAsWritten(attendance, lab1, lab2, lab3).error == Validate(attendance, lab1, lab2, lab3).error
  {
  }

  /** The computed values: the three formulas, then the inversion for both targets. */
  function Compute(input: ValidInput): (g: GradeResult)
    ensures g.labWorkAverage == LabWorkAverage(input.lab1, input.lab2, input.lab3)
    ensures g.classStanding == ClassStanding(input.attendance, g.labWorkAverage)
    ensures PrelimGrade(g.requiredForPassing, g.classStanding) == PassingGrade
    ensures PrelimGrade(g.requiredForExcellent, g.classStanding) == ExcellentGrade
  {
    var labWorkAverage := LabWorkAverage(input.lab1, input.lab2, input.lab3);
    var classStanding := ClassStanding(input.attendance, labWorkAverage);
    GradeResult(
      labWorkAverage,
      classStanding,
      RequiredExam(PassingGrade, classStanding),
      RequiredExam(ExcellentGrade, classStanding))
  }

  /**
   * One press of the calculate button: validation first, and only on success the
   * computed values with each target classified on its own.
   */
  function Calculate(attendance: Field<Int32>, lab1: Field<JavaDouble>, lab2: Field<JavaDouble>, lab3: Field<JavaDouble>): (r: Result<Report, InputError>)
    ensures r.Ok? <==> InputValid(attendance, lab1, lab2, lab3)
    ensures r.Err? ==> Validate(attendance, lab1, lab2, lab3) == Err(r.error)
    ensures r.Ok? ==> r.value.grades.labWorkAverage == LabWorkAverage(lab1.value.value, lab2.value.value, lab3.value.value)
    ensures r.Ok? ==> r.value.grades.classStanding == ClassStanding(attendance.value, r.value.grades.labWorkAverage)
    ensures r.Ok? ==> r.value.passing == Classify(r.value.grades.requiredForPassing)
    ensures r.Ok? ==> r.value.excellent == Classify(r.value.grades.requiredForExcellent)
    ensures r.Ok? ==> PrelimGrade(r.value.grades.requiredForPassing, r.value.grades.classStanding) == PassingGrade
    ensures r.Ok? ==> PrelimGrade(r.value.grades.requiredForExcellent, r.value.grades.classStanding) == ExcellentGrade
  {
    match Validate(attendance, lab1, lab2, lab3)
    case Err(e) => Err(e)
    case Ok(input) =>
      var grades := Compute(input);
      Ok(Report(grades, Classify(grades.requiredForPassing), Classify(grades.requiredForExcellent)))
  }

  /**
   * What a successful calculation guarantees: the lab average is the mean and
   * lies in [0, 100], class standing is non-negative, the excellent requirement
   * is 250/3 above the passing one, and passing is never harder than excellent.
   */
  lemma CalculatedReportFacts(attendance: Field<Int32>, lab1: Field<JavaDouble>, lab2: Field<JavaDouble>, lab3: Field<JavaDouble>)
    requires InputValid(attendance, lab1, lab2, lab3)
    ensures Calculate(attendance, lab1, lab2, lab3).Ok?
    ensures var g := Calculate(attendance, lab1, lab2, lab3).value.grades;
            g.labWorkAverage * 3.0 == lab1.value.value + lab2.value.value + lab3.value.value
            && 0.0 <= g.labWorkAverage <= 100.0
            && g.classStanding >= 0.0
            && g.requiredForExcellent - g.requiredForPassing == 250.0 / 3.0
    ensures var report := Calculate(attendance, lab1, lab2, lab3).value;
            report.passing == EvaluateTarget(PassingGrade, report.grades.classStanding)
            && report.excellent == EvaluateTarget(ExcellentGrade, report.grades.classStanding)
            && Difficulty(report.passing) <= Difficulty(report.excellent)
  {
    var input := Validate(attendance, lab1, lab2, lab3).value;
    var g := Compute(input);
    LabWorkAverageBounds(input.lab1, input.lab2, input.lab3, 0.0, 100.0);
    ClassStandingNonNegative(input.attendance, g.labWorkAverage);
    RequiredGap(g.classStanding);
    PassingNoHarderThanExcellent(g.classStanding);
  }

  /** Attendance 100 and every lab 100: class standing 100, needs 50/3 to pass and 100 for excellent. */
  lemma AllHundredScenario()
    ensures Calculate(Parsed(100), Parsed(Finite(100.0)), Parsed(Finite(100.0)), Parsed(Finite(100.0)))
            == Ok(Report(GradeResult(100.0, 100.0, 50.0 / 3.0, 100.0), Achievable(50.0 / 3.0), Achievable(100.0)))
  {
  }

  /** Everything 0: needs 250 to pass and 1000/3 for excellent, both impossible. */
  lemma AllZeroScenario()
    ensures Calculate(Parsed(0), Parsed(Finite(0.0)), Parsed(Finite(0.0)), Parsed(Finite(0.0)))
            == Ok(Report(GradeResult(0.0, 0.0, 250.0, 1000.0 / 3.0), Impossible, Impossible))
  {
  }

  /** Attendance 300 and no lab work: class standing 120, passing already achieved, excellent needs 160/3. */
  lemma HighAttendanceScenario()
    ensures Calculate(Parsed(300), Parsed(Finite(0.0)), Parsed(Finite(0.0)), Parsed(Finite(0.0)))
            == Ok(Report(GradeResult(0.0, 120.0, -30.0, 160.0 / 3.0), AlreadyAchieved, Achievable(160.0 / 3.0)))
  {
  }

  /** A non-numeric field is reported even when attendance is negative and a lab is out of range. */
  lemma NonNumericReportedFirst()
    ensures Calculate(Parsed(-5), Parsed(Finite(150.0)), NonNumeric, Parsed(Finite(50.0))) == Err(InvalidInput)
  {
  }
}
