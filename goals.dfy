/** Study goals, their store, and the deadline-ordered listing of `getGoals`. */
module Goals {
  import opened Seqs

  datatype Priority = Low | Medium | High

  datatype Status = Pending | InProgress | Completed

  /** A study goal; `deadline` is in milliseconds. */
  datatype StudyGoal = StudyGoal(
    studentId: string,
    subject: string,
    topic: string,
    deadline: int,
    priority: Priority,
    status: Status)

  /** The study-goal collection: goals in the order they were saved. */
  class GoalStore {
    var goals: seq<StudyGoal>

    constructor ()
      ensures goals == []
    {
      goals := [];
    }

    /** `new StudyGoal(goal).save()`. */
    method Save(g: StudyGoal)
      modifies this
      ensures goals == old(goals) + [g]
    {
      goals := goals + [g];
    }

    /** Saves `gs` one after the other and returns them in the same order. */
    method SaveAll(gs: seq<StudyGoal>) returns (saved: seq<StudyGoal>)
      modifies this
      ensures saved == gs
      ensures goals == old(goals) + gs
    {
      saved := [];
      for i := 0 to |gs|
        invariant saved == gs[..i]
        invariant goals == old(goals) + gs[..i]
      {
        Save(gs[i]);
        saved := saved + [gs[i]];
      }
    }

    /** `StudyGoal.find({ studentId })`, in the order the goals were saved. */
    function GoalsOf(studentId: string): (gs: seq<StudyGoal>)
      reads this
      ensures forall i :: 0 <= i < |gs| ==> gs[i] in goals && gs[i].studentId == studentId
      ensures forall i :: 0 <= i < |goals| && goals[i].studentId == studentId ==> goals[i] in gs
      ensures forall g :: multiset(gs)[g] == if g.studentId == studentId then multiset(goals)[g] else 0
    {
      var mine := (g: StudyGoal) => g.studentId == studentId;
      FilterCounts(goals, mine);
      Filter(goals, mine)
    }

    /** `getGoals`: the student's goals sorted by deadline, earliest first. */
    function GoalsByDeadline(studentId: string): (gs: seq<StudyGoal>)
      reads this
      ensures multiset(gs) == multiset(GoalsOf(studentId))
      ensures forall i, j :: 0 <= i < j < |gs| ==> gs[i].deadline <= gs[j].deadline
    {
      var key := (g: StudyGoal) => g.deadline as real;
      var sorted := SortBy(GoalsOf(studentId), key);
      assert forall i, j :: 0 <= i < j < |sorted| ==> key(sorted[i]) <= key(sorted[j]);
      sorted
    }
  }
}
