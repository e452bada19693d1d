/**
 * The weighted-grade formulas of the prelim grade calculator, over exact reals:
 *   Lab Work Average = (LW1 + LW2 + LW3) / 3
 *   Class Standing   = 0.40 * Attendance + 0.60 * Lab Work Average
 *   Prelim Grade     = 0.30 * Prelim Exam + 0.70 * Class Standing
 * and the inversion of the last one that gives the exam score a target needs.
 */
module GradeFormulas {

  const AttendanceWeight: real := 0.40
  const LabWorkWeight: real := 0.60
  const ExamWeight: real := 0.30
  const ClassStandingWeight: real := 0.70

  /** The two targets the calculator solves for. */
  const PassingGrade: real := 75.0
  const ExcellentGrade: real := 100.0

  /** The arithmetic mean of the three lab work grades: the deviations from it cancel out. */
  function LabWorkAverage(lab1: real, lab2: real, lab3: real): (avg: real)
    ensures (lab1 - avg) + (lab2 - avg) + (lab3 - avg) == 0.0
  {
    (lab1 + lab2 + lab3) / 3.0
  }

  /** Class standing: a weighted average of attendance and lab work, so it lies between the two. */
  function ClassStanding(attendance: int, labWorkAverage: real): (standing: real)
    ensures attendance as real <= labWorkAverage ==> attendance as real <= standing <= labWorkAverage
    ensures labWorkAverage <= attendance as real ==> labWorkAverage <= standing <= attendance as real
  {
    AttendanceWeight * attendance as real + LabWorkWeight * labWorkAverage
  }

  /** The prelim grade an exam score yields: a weighted average of exam and class standing. */
  function PrelimGrade(exam: real, classStanding: real): (grade: real)
    ensures exam <= classStanding ==> exam <= grade <= classStanding
    ensures classStanding <= exam ==> classStanding <= grade <= exam
  {
    ExamWeight * exam + ClassStandingWeight * classStanding
  }

  /** The exam score that makes the prelim grade come out exactly at `target`. */
  function RequiredExam(target: real, classStanding: real): (exam: real)
    ensures PrelimGrade(exam, classStanding) == target
  {
    (target - ClassStandingWeight * classStanding) / ExamWeight
  }

  /** The inversion is the only solution: an exam score meets the target exactly when it is the required one. */
  lemma RequiredExamIsUnique(target: real, classStanding: real, exam: real)
    ensures PrelimGrade(exam, classStanding) == target <==> exam == RequiredExam(target, classStanding)
  {
  }

  /** A higher exam score always gives a higher prelim grade. */
  lemma PrelimGradeIncreasing(exam1: real, exam2: real, classStanding: real)
    requires exam1 < exam2
    ensures PrelimGrade(exam1, classStanding) < PrelimGrade(exam2, classStanding)
  {
  }

  /** With every lab grade in [lo, hi], so is their average; in particular [0, 100]. */
  lemma LabWorkAverageBounds(lab1: real, lab2: real, lab3: real, lo: real, hi: real)
    requires lo <= lab1 <= hi && lo <= lab2 <= hi && lo <= lab3 <= hi
    ensures lo <= LabWorkAverage(lab1, lab2, lab3) <= hi
  {
  }

  /** Class standing is non-negative when attendance and the lab average are. */
  lemma ClassStandingNonNegative(attendance: int, labWorkAverage: real)
    requires attendance >= 0 && labWorkAverage >= 0.0
    ensures ClassStanding(attendance, labWorkAverage) >= 0.0
  {
  }

  /** Attendance has no upper bound, so class standing is not capped at 100. */
  lemma ClassStandingCanExceedHundred()
    ensures ClassStanding(300, LabWorkAverage(0.0, 0.0, 0.0)) == 120.0
  {
  }

  /** Perfect attendance and perfect lab work give a class standing of exactly 100. */
  lemma PerfectClassStanding()
    ensures LabWorkAverage(100.0, 100.0, 100.0) == 100.0
    ensures ClassStanding(100, LabWorkAverage(100.0, 100.0, 100.0)) == 100.0
  {
  }

  /** More attendance or a better lab average never lowers class standing. */
  lemma ClassStandingMonotone(attendance1: int, attendance2: int, average1: real, average2: real)
    requires attendance1 <= attendance2 && average1 <= average2
    ensures ClassStanding(attendance1, average1) <= ClassStanding(attendance2, average2)
  {
  }

  /**
   * The excellent requirement exceeds the passing one by exactly 25 / 0.30,
   * whatever the class standing.
   */
  lemma RequiredGap(classStanding: real)
    ensures RequiredExam(ExcellentGrade, classStanding) - RequiredExam(PassingGrade, classStanding)
            == (ExcellentGrade - PassingGrade) / ExamWeight
    ensures RequiredExam(ExcellentGrade, classStanding) - RequiredExam(PassingGrade, classStanding) == 250.0 / 3.0
    ensures RequiredExam(PassingGrade, classStanding) < RequiredExam(ExcellentGrade, classStanding)
  {
  }

  /** The required exam score strictly decreases as class standing increases. */
  lemma RequiredExamDecreasing(target: real, classStanding1: real, classStanding2: real)
    requires classStanding1 < classStanding2
    ensures RequiredExam(target, classStanding2) < RequiredExam(target, classStanding1)
  {
  }

  /** The required exam score strictly increases with the target. */
  lemma RequiredExamIncreasingInTarget(target1: real, target2: real, classStanding: real)
    requires target1 < target2
    ensures RequiredExam(target1, classStanding) < RequiredExam(target2, classStanding)
  {
  }
}
