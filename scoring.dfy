/**
 * The scoring engine: a fixed weighted sum of the five metrics and the letter
 * grade it falls in (`calculateGrade` in the performance controller).
 * Arithmetic is exact; the metrics are percentages.
 */
module Scoring {

  datatype Grade = A | B | C | D | F

  /** The five metrics submitted for a student. */
  datatype Metrics = Metrics(
    attendance: real,
    assignmentScore: real,
    internalMarks: real,
    projectMarks: real,
    finalExamMarks: real)

  predicate IsPercentage(x: real) {
    0.0 <= x <= 100.0
  }

  /** The bounds the performance schema puts on every metric. */
  predicate ValidMetrics(m: Metrics) {
    && IsPercentage(m.attendance)
    && IsPercentage(m.assignmentScore)
    && IsPercentage(m.internalMarks)
    && IsPercentage(m.projectMarks)
    && IsPercentage(m.finalExamMarks)
  }

  /** Every metric of `lo` is at most the same metric of `hi`. */
  predicate Dominates(hi: Metrics, lo: Metrics) {
    && lo.attendance <= hi.attendance
    && lo.assignmentScore <= hi.assignmentScore
    && lo.internalMarks <= hi.internalMarks
    && lo.projectMarks <= hi.projectMarks
    && lo.finalExamMarks <= hi.finalExamMarks
  }

  /** 0.15 attendance + 0.20 assignment + 0.25 internal + 0.15 project + 0.25 final exam. */
  function WeightedScore(m: Metrics): (s: real)
    ensures ValidMetrics(m) ==> IsPercentage(s)
  {
    m.attendance * 0.15 + m.assignmentScore * 0.20 + m.internalMarks * 0.25
      + m.projectMarks * 0.15 + m.finalExamMarks * 0.25
  }

  /** The score band of each grade, independent of the order the thresholds are tested in. */
  predicate InBand(g: Grade, s: real) {
    match g
    case A => 85.0 <= s
    case B => 70.0 <= s < 85.0
    case C => 55.0 <= s < 70.0
    case D => 40.0 <= s < 55.0
    case F => s < 40.0
  }

  /** A grade's position, F lowest. */
  function Rank(g: Grade): nat {
    match g
    case F => 0
    case D => 1
    case C => 2
    case B => 3
    case A => 4
  }

  /** The letter the controllers store and send back. */
  function Letter(g: Grade): string {
    match g
    case A => "A"
    case B => "B"
    case C => "C"
    case D => "D"
    case F => "F"
  }

  /** `calculateGrade`: the thresholds 85, 70, 55, 40 tested from high to low. */
  function CalculateGrade(m: Metrics): (g: Grade)
    ensures forall h :: InBand(h, WeightedScore(m)) <==> h == g
  {
    var s := WeightedScore(m);
    if s >= 85.0 then A
    else if s >= 70.0 then B
    else if s >= 55.0 then C
    else if s >= 40.0 then D
    else F
  }

  /** Raising any metric never lowers the grade. */
  lemma GradeMonotone(lo: Metrics, hi: Metrics)
    requires Dominates(hi, lo)
    ensures Rank(CalculateGrade(lo)) <= Rank(CalculateGrade(hi))
  {
  }

  /** The exact boundaries: a score on a threshold takes the higher grade, one just below it the lower. */
  lemma GradeBoundaries()
    ensures CalculateGrade(Metrics(85.0, 85.0, 85.0, 85.0, 85.0)) == A
    ensures CalculateGrade(Metrics(84.999, 84.999, 84.999, 84.999, 84.999)) == B
    ensures CalculateGrade(Metrics(70.0, 70.0, 70.0, 70.0, 70.0)) == B
    ensures CalculateGrade(Metrics(69.999, 69.999, 69.999, 69.999, 69.999)) == C
    ensures CalculateGrade(Metrics(55.0, 55.0, 55.0, 55.0, 55.0)) == C
    ensures CalculateGrade(Metrics(54.999, 54.999, 54.999, 54.999, 54.999)) == D
    ensures CalculateGrade(Metrics(40.0, 40.0, 40.0, 40.0, 40.0)) == D
    ensures CalculateGrade(Metrics(39.999, 39.999, 39.999, 39.999, 39.999)) == F
  {
  }
}
