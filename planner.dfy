/**
 * The study planner board: three status columns, each with a badge counting
 * its goals, the goals themselves or a "No items" placeholder, and on each
 * goal the buttons that move it to another status.
 */
module Planner {
  import opened Seqs
  import opened Goals

  /** The columns, left to right. */
  const Columns: seq<Status> := [Pending, InProgress, Completed]

  /** The status value as the goals carry it. */
  function StatusKey(s: Status): string {
    match s
    case Pending => "pending"
    case InProgress => "in-progress"
    case Completed => "completed"
  }

  /** The column heading: the status value with its dash turned into a space. */
  function ColumnTitle(s: Status): (title: string)
    ensures |title| == |StatusKey(s)|
    ensures forall i :: 0 <= i < |title| ==> title[i] != '-'
    ensures forall i :: 0 <= i < |title| ==>
      title[i] == if StatusKey(s)[i] == '-' then ' ' else StatusKey(s)[i]
  {
    match s
    case Pending => "pending"
    case InProgress => "in progress"
    case Completed => "completed"
  }

  /** `goals.filter(g => g.status === status)`: the goals shown in a column. */
  function ColumnGoals(goals: seq<StudyGoal>, s: Status): seq<StudyGoal> {
    Filter(goals, (g: StudyGoal) => g.status == s)
  }

  /** The badge of a column. */
  function BadgeCount(goals: seq<StudyGoal>, s: Status): nat {
    |ColumnGoals(goals, s)|
  }

  /** Whether a column shows "No items". */
  predicate ShowsPlaceholder(goals: seq<StudyGoal>, s: Status) {
    |ColumnGoals(goals, s)| == 0
  }

  /** How many goals have status `s`, counted one by one. */
  function CountWithStatus(goals: seq<StudyGoal>, s: Status): nat {
    if goals == [] then 0
    else (if goals[0].status == s then 1 else 0) + CountWithStatus(goals[1..], s)
  }

  /** Each goal is in the column of its own status, and a column holds nothing else. */
  lemma ColumnOfStatus(goals: seq<StudyGoal>, s: Status)
    ensures forall i :: 0 <= i < |goals| ==> (goals[i] in ColumnGoals(goals, s) <==> goals[i].status == s)
    ensures forall g :: g in ColumnGoals(goals, s) ==> g in goals && g.status == s
  {
    var col := ColumnGoals(goals, s);
    forall g | g in col
      ensures g in goals && g.status == s
    {
      var k :| 0 <= k < |col| && col[k] == g;
    }
  }

  /** A column is the first goal when it has the column's status, then the column of the rest. */
  lemma ColumnUnfold(goals: seq<StudyGoal>, s: Status)
    requires goals != []
    ensures multiset(ColumnGoals(goals, s))
      == (if goals[0].status == s then multiset{goals[0]} else multiset{}) + multiset(ColumnGoals(goals[1..], s))
  {
  }

  /** Adding a goal to exactly the column of its status adds it once to the whole board. */
  lemma AddToOneColumn(
    g: StudyGoal, rest: multiset<StudyGoal>,
    p: multiset<StudyGoal>, q: multiset<StudyGoal>, c: multiset<StudyGoal>,
    p': multiset<StudyGoal>, q': multiset<StudyGoal>, c': multiset<StudyGoal>)
    requires p + q + c == rest
    requires p' == (if g.status == Pending then multiset{g} else multiset{}) + p
    requires q' == (if g.status == InProgress then multiset{g} else multiset{}) + q
    requires c' == (if g.status == Completed then multiset{g} else multiset{}) + c
    ensures p' + q' + c' == multiset{g} + rest
  {
  }

  /** The three columns together show every goal exactly once. */
  lemma {:induction false} ColumnsPartition(goals: seq<StudyGoal>)
    ensures multiset(ColumnGoals(goals, Pending)) + multiset(ColumnGoals(goals, InProgress))
      + multiset(ColumnGoals(goals, Completed)) == multiset(goals)
  {
    if goals != [] {
      var g, rest := goals[0], goals[1..];
      ColumnsPartition(rest);
      ColumnUnfold(goals, Pending);
      ColumnUnfold(goals, InProgress);
      ColumnUnfold(goals, Completed);
      AddToOneColumn(g, multiset(rest),
        multiset(ColumnGoals(rest, Pending)), multiset(ColumnGoals(rest, InProgress)),
        multiset(ColumnGoals(rest, Completed)),
        multiset(ColumnGoals(goals, Pending)), multiset(ColumnGoals(goals, InProgress)),
        multiset(ColumnGoals(goals, Completed)));
      MultisetCons(goals);
    }
  }

  /** A badge counts the goals with the column's status. */
  lemma {:induction false} BadgeCountsStatus(goals: seq<StudyGoal>, s: Status)
    ensures BadgeCount(goals, s) == CountWithStatus(goals, s)
  {
    if goals != [] {
      BadgeCountsStatus(goals[1..], s);
    }
  }

  /** The badges add up to the number of goals. */
  lemma BadgesAddUp(goals: seq<StudyGoal>)
    ensures BadgeCount(goals, Pending) + BadgeCount(goals, InProgress) + BadgeCount(goals, Completed) == |goals|
  {
    ColumnsPartition(goals);
    var p, q, c := ColumnGoals(goals, Pending), ColumnGoals(goals, InProgress), ColumnGoals(goals, Completed);
    assert |multiset(p) + multiset(q) + multiset(c)| == |multiset(goals)|;
  }

  /** A column shows the placeholder exactly when no goal has its status. */
  lemma PlaceholderWhenEmpty(goals: seq<StudyGoal>, s: Status)
    ensures ShowsPlaceholder(goals, s) <==> forall i :: 0 <= i < |goals| ==> goals[i].status != s
  {
    ColumnOfStatus(goals, s);
    var col := ColumnGoals(goals, s);
    if col != [] {
      assert col[0] in goals;
      var i :| 0 <= i < |goals| && goals[i] == col[0];
      assert goals[i].status == s;
    }
  }

  /** The buttons on a goal card. */
  datatype Action = BackToPending | Start | Complete

  /** The status a button asks for. */
  function Target(a: Action): Status {
    match a
    case BackToPending => Pending
    case Start => InProgress
    case Complete => Completed
  }

  /** The buttons shown on a card in column `s`, left to right. */
  function OfferedActions(s: Status): (actions: seq<Action>)
    ensures BackToPending in actions <==> s != Pending
    ensures Start in actions <==> s == Pending
    ensures Complete in actions <==> s == InProgress
    ensures Distinct(actions)
  {
    (if s != Pending then [BackToPending] else [])
    + (if s != InProgress && s != Completed then [Start] else [])
    + (if s == InProgress then [Complete] else [])
  }

  /** A button moves a goal from `s` to `t`. */
  predicate Moves(s: Status, t: Status) {
    exists a :: a in OfferedActions(s) && Target(a) == t
  }

  /**
   * The board's moves are exactly pending to in progress, in progress back to
   * pending or on to completed, and completed back to pending: nothing
   * completes a pending goal directly and no button keeps a goal where it is.
   */
  lemma MovesExactly(s: Status, t: Status)
    ensures Moves(s, t) <==>
      || (s == Pending && t == InProgress)
      || (s == InProgress && t == Pending)
      || (s == InProgress && t == Completed)
      || (s == Completed && t == Pending)
  {
    if s == Pending && t == InProgress {
      assert Start in OfferedActions(s);
    } else if s != Pending && t == Pending {
      assert BackToPending in OfferedActions(s);
    } else if s == InProgress && t == Completed {
      assert Complete in OfferedActions(s);
    }
  }

  /** Every status can be reached from every other in at most two moves. */
  lemma ConnectedBoard(s: Status, t: Status)
    requires s != t
    ensures Moves(s, t) || exists u :: Moves(s, u) && Moves(u, t)
  {
    MovesExactly(s, t);
    if s == Pending && t == Completed {
      MovesExactly(Pending, InProgress);
      MovesExactly(InProgress, Completed);
    } else if s == Completed && t == InProgress {
      MovesExactly(Completed, Pending);
      MovesExactly(Pending, InProgress);
    }
  }
}
