/**
 * The evaluation remarks of the calculator: each required exam score is
 * classified on its own as impossible (above 100), already achieved (below 0)
 * or achievable (anything in between, both ends included).
 */
module Evaluation {
  import opened GradeFormulas

  /** The exam scores a student can actually obtain. */
  const MinExamScore: real := 0.0
  const MaxExamScore: real := 100.0

  datatype Evaluation = Impossible | AlreadyAchieved | Achievable(score: real)

  /** Classification of one required score, in the order of the source's if / else-if chain. */
  function Classify(required: real): (e: Evaluation)
    ensures e.Achievable? ==> e.score == required && MinExamScore <= e.score <= MaxExamScore
  {
    if required > MaxExamScore then Impossible
    else if required < MinExamScore then AlreadyAchieved
    else Achievable(required)
  }

  /** How hard an outcome is: already achieved, then achievable, then impossible. */
  function Difficulty(e: Evaluation): nat
  {
    match e
    case AlreadyAchieved => 0
    case Achievable(_) => 1
    case Impossible => 2
  }

  /** The three outcomes partition the reals; the achievable range includes 0 and 100. */
  lemma ClassifyCases(required: real)
    ensures Classify(required) == Impossible <==> required > MaxExamScore
    ensures Classify(required) == AlreadyAchieved <==> required < MinExamScore
    ensures Classify(required) == Achievable(required) <==> MinExamScore <= required <= MaxExamScore
  {
  }

  /** The boundaries themselves are achievable; anything just beyond them is not. */
  lemma ClassifyBoundaries()
    ensures Classify(100.0) == Achievable(100.0)
    ensures Classify(0.0) == Achievable(0.0)
    ensures Classify(100.0000001) == Impossible
    ensures Classify(-0.0000001) == AlreadyAchieved
  {
  }

  /** A larger required score is never easier. */
  lemma ClassifyMonotone(required1: real, required2: real)
    requires required1 <= required2
    ensures Difficulty(Classify(required1)) <= Difficulty(Classify(required2))
  {
  }

  /** The evaluation of one target for a given class standing. */
  function EvaluateTarget(target: real, classStanding: real): (e: Evaluation)
    ensures e.Achievable? ==> PrelimGrade(e.score, classStanding) == target
  {
    Classify(RequiredExam(target, classStanding))
  }

  /** IMPOSSIBLE means no obtainable exam score reaches the target. */
  lemma ImpossibleMeansUnreachable(target: real, classStanding: real)
    ensures EvaluateTarget(target, classStanding) == Impossible
            <==> forall exam :: MinExamScore <= exam <= MaxExamScore ==> PrelimGrade(exam, classStanding) < target
  {
    if forall exam :: MinExamScore <= exam <= MaxExamScore ==> PrelimGrade(exam, classStanding) < target {
      assert PrelimGrade(MaxExamScore, classStanding) < target;
    }
  }

  /** ALREADY_ACHIEVED means every obtainable exam score, even 0, exceeds the target. */
  lemma AlreadyAchievedMeansGuaranteed(target: real, classStanding: real)
    ensures EvaluateTarget(target, classStanding) == AlreadyAchieved
            <==> forall exam :: MinExamScore <= exam <= MaxExamScore ==> PrelimGrade(exam, classStanding) > target
  {
    if forall exam :: MinExamScore <= exam <= MaxExamScore ==> PrelimGrade(exam, classStanding) > target {
      assert PrelimGrade(MinExamScore, classStanding) > target;
    }
  }

  /** ACHIEVABLE means some obtainable exam score hits the target exactly, and it is the one carried. */
  lemma AchievableMeansReachable(target: real, classStanding: real)
    ensures EvaluateTarget(target, classStanding).Achievable?
            <==> exists exam :: MinExamScore <= exam <= MaxExamScore && PrelimGrade(exam, classStanding) == target
  {
    var required := RequiredExam(target, classStanding);
    if EvaluateTarget(target, classStanding).Achievable? {
      assert MinExamScore <= required <= MaxExamScore && PrelimGrade(required, classStanding) == target;
    }
    if exists exam :: MinExamScore <= exam <= MaxExamScore && PrelimGrade(exam, classStanding) == target {
      var exam :| MinExamScore <= exam <= MaxExamScore && PrelimGrade(exam, classStanding) == target;
      RequiredExamIsUnique(target, classStanding, exam);
    }
  }

  /**
   * Passing is never harder than excellent: if excellent is already achieved
   * so is passing, and if passing is impossible so is excellent.
   */
  lemma PassingNoHarderThanExcellent(classStanding: real)
    ensures Difficulty(EvaluateTarget(PassingGrade, classStanding))
            <= Difficulty(EvaluateTarget(ExcellentGrade, classStanding))
    ensures EvaluateTarget(ExcellentGrade, classStanding) == AlreadyAchieved
            ==> EvaluateTarget(PassingGrade, classStanding) == AlreadyAchieved
    ensures EvaluateTarget(PassingGrade, classStanding) == Impossible
            ==> EvaluateTarget(ExcellentGrade, classStanding) == Impossible
  {
    RequiredGap(classStanding);
    ClassifyMonotone(RequiredExam(PassingGrade, classStanding), RequiredExam(ExcellentGrade, classStanding));
  }
}
