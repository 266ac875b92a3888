/**
 * `generateStudyPlan`: averages the student's final-exam marks per subject,
 * picks the three weakest subjects, asks the text-generation service for goals
 * and, when the service is rate limited or unavailable, saves a templated plan
 * instead.
 */
module StudyPlan {
  import opened Wrappers
  import opened Service
  import opened Seqs
  import opened Text
  import opened Performance
  import opened Goals

  const MaxWeakSubjects: nat := 3
  /** One day in milliseconds. */
  const Day: int := 24 * 60 * 60 * 1000
  const NotEnoughDataMessage := "Not enough performance data to generate a plan."
  const PlanFailureMessage := "Failed to generate study plan. Server logs have more details."
  const ParseFailureMessage := "Failed to parse AI response. Try again."
  /** The error raised when the generated text is not JSON: it has no status. */
  const ParseFailure := AiError(None, ParseFailureMessage)

  // ---------------------------------------------------------------------------
  // Aggregation by subject

  /** A subject's running sum of final-exam marks and its number of records. */
  datatype Tally = Tally(total: real, count: nat)

  /** How many of `ps` are about `subject`. */
  function CountFor(ps: seq<PerformanceRecord>, subject: string): nat {
    if ps == [] then 0
    else CountFor(ps[..|ps| - 1], subject) + (if ps[|ps| - 1].subject == subject then 1 else 0)
  }

  /** The sum of the final-exam marks of the records of `ps` about `subject`. */
  function TotalFor(ps: seq<PerformanceRecord>, subject: string): real {
    if ps == [] then 0.0
    else
      TotalFor(ps[..|ps| - 1], subject)
      + (if ps[|ps| - 1].subject == subject then ps[|ps| - 1].metrics.finalExamMarks else 0.0)
  }

  /**
   * The keys of the accumulator object: every subject of `ps` once, in the
   * order of its first record.
   */
  function SubjectsInOrder(ps: seq<PerformanceRecord>): (keys: seq<string>)
    ensures Distinct(keys)
    ensures forall i :: 0 <= i < |ps| ==> ps[i].subject in keys
    ensures forall j :: 0 <= j < |keys| ==> CountFor(ps, keys[j]) > 0
    ensures |keys| <= |ps|
    ensures keys == [] <==> ps == []
  {
    if ps == [] then []
    else
      var keys := SubjectsInOrder(ps[..|ps| - 1]);
      var s := ps[|ps| - 1].subject;
      assert forall i :: 0 <= i < |ps| - 1 ==> ps[i] == ps[..|ps| - 1][i];
      if s in keys then keys else keys + [s]
  }

  /** The index of the first record of `ps` about `subject`, or `|ps|` when there is none. */
  function FirstSeen(ps: seq<PerformanceRecord>, subject: string): (k: nat)
    ensures k <= |ps|
    ensures k < |ps| ==> ps[k].subject == subject
    ensures forall l :: 0 <= l < k ==> ps[l].subject != subject
  {
    if ps == [] then 0
    else
      var n := |ps| - 1;
      var k := FirstSeen(ps[..n], subject);
      assert forall l :: 0 <= l < n ==> ps[..n][l] == ps[l];
      if k < n then k
      else if ps[n].subject == subject then n
      else |ps|
  }

  /** The subjects come in the order of their first records. */
  lemma {:induction false} SubjectsFirstSeen(ps: seq<PerformanceRecord>)
    ensures forall j :: 0 <= j < |SubjectsInOrder(ps)| ==> FirstSeen(ps, SubjectsInOrder(ps)[j]) < |ps|
    ensures forall i, j :: 0 <= i < j < |SubjectsInOrder(ps)| ==>
      FirstSeen(ps, SubjectsInOrder(ps)[i]) < FirstSeen(ps, SubjectsInOrder(ps)[j])
  {
    if ps != [] {
      var n := |ps| - 1;
      var init, s := ps[..n], ps[n].subject;
      var keys0 := SubjectsInOrder(init);
      SubjectsFirstSeen(init);
      assert forall l :: 0 <= l < n ==> init[l].subject in keys0;
      assert s !in keys0 ==> FirstSeen(init, s) == n;
    }
  }

  /** What the accumulator holds after the records `ps`: each subject's sum and count. */
  ghost predicate Tallies(tally: map<string, Tally>, ps: seq<PerformanceRecord>) {
    && (forall s :: s in tally <==> s in SubjectsInOrder(ps))
    && (forall s :: s in tally ==> tally[s] == Tally(TotalFor(ps, s), CountFor(ps, s)))
  }

  /** The accumulator after one more record: its subject's entry, created if new, is bumped. */
  function Bump(tally: map<string, Tally>, p: PerformanceRecord): map<string, Tally> {
    var t := if p.subject in tally then tally[p.subject] else Tally(0.0, 0);
    tally[p.subject := Tally(t.total + p.metrics.finalExamMarks, t.count + 1)]
  }

  /** One step of the aggregation keeps the keys in step with the records. */
  lemma KeysStep(keys: seq<string>, tally: map<string, Tally>, ps: seq<PerformanceRecord>, p: PerformanceRecord)
    requires keys == SubjectsInOrder(ps) && Tallies(tally, ps)
    ensures (if p.subject in tally then keys else keys + [p.subject]) == SubjectsInOrder(ps + [p])
  {
    assert (ps + [p])[..|ps|] == ps;
  }

  /** One step of the aggregation keeps the accumulator in step with the records. */
  lemma TallyStep(tally: map<string, Tally>, ps: seq<PerformanceRecord>, p: PerformanceRecord)
    requires Tallies(tally, ps)
    ensures Tallies(Bump(tally, p), ps + [p])
  {
    var qs := ps + [p];
    assert qs[..|ps|] == ps && qs[|ps|] == p;
    var t := Bump(tally, p);
    forall s
      ensures s in t <==> s in SubjectsInOrder(qs)
    {
    }
    forall s | s in t
      ensures t[s] == Tally(TotalFor(qs, s), CountFor(qs, s))
    {
      TallyEntryStep(tally, ps, p, s);
    }
  }

  lemma TallyEntryStep(tally: map<string, Tally>, ps: seq<PerformanceRecord>, p: PerformanceRecord, s: string)
    requires Tallies(tally, ps) && s in Bump(tally, p)
    ensures Bump(tally, p)[s] == Tally(TotalFor(ps + [p], s), CountFor(ps + [p], s))
  {
    ForAppend(ps, p, s);
    if s == p.subject && p.subject !in tally {
      assert forall i :: 0 <= i < |ps| ==> ps[i].subject in SubjectsInOrder(ps);
      CountOfAbsent(ps, s);
      TotalOfAbsent(ps, s);
    }
  }

  /** The sum and the count after one more record. */
  lemma ForAppend(ps: seq<PerformanceRecord>, p: PerformanceRecord, s: string)
    ensures TotalFor(ps + [p], s) == TotalFor(ps, s) + (if p.subject == s then p.metrics.finalExamMarks else 0.0)
    ensures CountFor(ps + [p], s) == CountFor(ps, s) + (if p.subject == s then 1 else 0)
  {
    assert (ps + [p])[..|ps|] == ps;
  }

  /** The invariant of the aggregation loop is kept by one more record. */
  lemma AggregatePrefix(keys: seq<string>, tally: map<string, Tally>, ps: seq<PerformanceRecord>, i: nat)
    requires i < |ps| && keys == SubjectsInOrder(ps[..i]) && Tallies(tally, ps[..i])
    ensures (if ps[i].subject in tally then keys else keys + [ps[i].subject]) == SubjectsInOrder(ps[..i + 1])
    ensures Tallies(Bump(tally, ps[i]), ps[..i + 1])
  {
    assert ps[..i + 1] == ps[..i] + [ps[i]];
    KeysStep(keys, tally, ps[..i], ps[i]);
    TallyStep(tally, ps[..i], ps[i]);
  }

  /**
   * The `forEach` over the records: creates `{ total: 0, count: 0 }` the first
   * time a subject is seen, then adds the record's final-exam marks and one.
   */
  method AggregateBySubject(ps: seq<PerformanceRecord>) returns (keys: seq<string>, tally: map<string, Tally>)
    ensures keys == SubjectsInOrder(ps)
    ensures Tallies(tally, ps)
  {
    keys, tally := [], map[];
    var i := 0;
    while i < |ps|
      invariant 0 <= i <= |ps|
      invariant keys == SubjectsInOrder(ps[..i])
      invariant Tallies(tally, ps[..i])
    {
      AggregatePrefix(keys, tally, ps, i);
      keys, tally := Accumulate(keys, tally, ps[i]);
      i := i + 1;
    }
    assert ps[..i] == ps;
  }

  /** The body of the `forEach` for one record. */
  method Accumulate(keys: seq<string>, tally: map<string, Tally>, p: PerformanceRecord)
    returns (keys': seq<string>, tally': map<string, Tally>)
    ensures keys' == (if p.subject in tally then keys else keys + [p.subject])
    ensures tally' == Bump(tally, p)
  {
    keys', tally' := keys, tally;
    if p.subject !in tally' {
      keys' := keys' + [p.subject];
      tally' := tally'[p.subject := Tally(0.0, 0)];
    }
    tally' := tally'[p.subject := Tally(tally'[p.subject].total + p.metrics.finalExamMarks,
                                        tally'[p.subject].count + 1)];
  }

  /** The counts of the subjects in `keys`, added up. */
  function CountSum(ps: seq<PerformanceRecord>, keys: seq<string>): nat {
    if keys == [] then 0
    else CountSum(ps, keys[..|keys| - 1]) + CountFor(ps, keys[|keys| - 1])
  }

  /** A subject no record is about has count zero. */
  lemma {:induction false} CountOfAbsent(ps: seq<PerformanceRecord>, subject: string)
    requires forall i :: 0 <= i < |ps| ==> ps[i].subject != subject
    ensures CountFor(ps, subject) == 0
  {
    if ps != [] {
      CountOfAbsent(ps[..|ps| - 1], subject);
    }
  }

  /** A subject no record is about has total zero. */
  lemma {:induction false} TotalOfAbsent(ps: seq<PerformanceRecord>, subject: string)
    requires forall i :: 0 <= i < |ps| ==> ps[i].subject != subject
    ensures TotalFor(ps, subject) == 0.0
  {
    if ps != [] {
      TotalOfAbsent(ps[..|ps| - 1], subject);
    }
  }

  /** One more record adds one to the count sum exactly when its subject is among `keys`. */
  lemma {:induction false} CountSumAppend(ps: seq<PerformanceRecord>, x: PerformanceRecord, keys: seq<string>)
    requires Distinct(keys)
    ensures CountSum(ps + [x], keys) == CountSum(ps, keys) + (if x.subject in keys then 1 else 0)
  {
    assert (ps + [x])[..|ps|] == ps;
    if keys != [] {
      var init := keys[..|keys| - 1];
      assert Distinct(init);
      CountSumAppend(ps, x, init);
      assert x.subject in keys <==> x.subject in init || x.subject == keys[|keys| - 1];
    }
  }

  /**
   * Every record contributes to exactly one subject: the counts of all the
   * subjects add up to the number of records.
   */
  lemma {:induction false} CountsCoverRecords(ps: seq<PerformanceRecord>)
    ensures CountSum(ps, SubjectsInOrder(ps)) == |ps|
  {
    if ps != [] {
      var init, x := ps[..|ps| - 1], ps[|ps| - 1];
      assert ps == init + [x];
      var keys := SubjectsInOrder(init);
      CountsCoverRecords(init);
      CountSumAppend(init, x, keys);
      if x.subject !in keys {
        CountOfAbsent(init, x.subject);
        assert (keys + [x.subject])[..|keys|] == keys;
      }
    }
  }

  // ---------------------------------------------------------------------------
  // Ranking the weakest subjects

  datatype SubjectAverage = SubjectAverage(subject: string, avg: real)

  /** A subject's average final-exam mark. */
  function Average(ps: seq<PerformanceRecord>, subject: string): real
    requires CountFor(ps, subject) > 0
  {
    TotalFor(ps, subject) / CountFor(ps, subject) as real
  }

  /** `Object.keys(...).map(subject => ({ subject, avg }))`. */
  function Averages(ps: seq<PerformanceRecord>): (avgs: seq<SubjectAverage>)
    ensures |avgs| == |SubjectsInOrder(ps)|
    ensures forall i :: 0 <= i < |avgs| ==> avgs[i].subject == SubjectsInOrder(ps)[i]
    ensures forall i :: 0 <= i < |avgs| ==> avgs[i].avg == Average(ps, avgs[i].subject)
  {
    var keys := SubjectsInOrder(ps);
    seq(|keys|, i requires 0 <= i < |keys| => SubjectAverage(keys[i], Average(ps, keys[i])))
  }

  /** The comparator `(a, b) => a.avg - b.avg`. */
  function ByAverage(a: SubjectAverage): real {
    a.avg
  }

  function Subjects(avgs: seq<SubjectAverage>): (r: seq<string>)
    ensures |r| == |avgs|
    ensures forall i :: 0 <= i < |r| ==> r[i] == avgs[i].subject
  {
    seq(|avgs|, i requires 0 <= i < |avgs| => avgs[i].subject)
  }

  /** `.sort(by average).slice(0, 3).map(s => s.subject)`. */
  function RankWeakest(avgs: seq<SubjectAverage>): seq<string> {
    Subjects(Take(SortBy(avgs, ByAverage), MaxWeakSubjects))
  }

  /** The weak subjects of a student with records `ps`. */
  function WeakSubjects(ps: seq<PerformanceRecord>): seq<string> {
    RankWeakest(Averages(ps))
  }

  /** No subject has two entries. */
  ghost predicate UniqueSubjects(avgs: seq<SubjectAverage>) {
    forall k, l :: 0 <= k < l < |avgs| ==> avgs[k].subject != avgs[l].subject
  }

  /** Sorting keeps the entries, so it keeps them unique and keeps their averages. */
  lemma SortKeepsEntries(avgs: seq<SubjectAverage>, avg: map<string, real>)
    requires UniqueSubjects(avgs)
    requires forall j :: 0 <= j < |avgs| ==> avgs[j].subject in avg && avg[avgs[j].subject] == avgs[j].avg
    ensures var sorted := SortBy(avgs, ByAverage);
      && |sorted| == |avgs|
      && UniqueSubjects(sorted)
      && (forall k :: 0 <= k < |sorted| ==> sorted[k].subject in avg && avg[sorted[k].subject] == sorted[k].avg)
      && (forall j :: 0 <= j < |avgs| ==> avgs[j] in sorted)
  {
    var sorted := SortBy(avgs, ByAverage);
    assert |sorted| == |avgs| by {
      assert |multiset(sorted)| == |multiset(avgs)|;
    }
    forall k | 0 <= k < |sorted|
      ensures sorted[k].subject in avg && avg[sorted[k].subject] == sorted[k].avg
    {
      assert sorted[k] in multiset(avgs);
    }
    assert Distinct(avgs);
    PermutationKeepsDistinct(avgs, sorted);
    forall k, l | 0 <= k < l < |sorted|
      ensures sorted[k].subject != sorted[l].subject
    {
      assert sorted[k] != sorted[l];
    }
    forall j | 0 <= j < |avgs|
      ensures avgs[j] in sorted
    {
      assert avgs[j] in multiset(sorted);
    }
  }

  /** Every ranked subject is the subject of one of the entries. */
  lemma RankedFromEntries(avgs: seq<SubjectAverage>)
    ensures forall i :: 0 <= i < |RankWeakest(avgs)| ==>
      exists j :: 0 <= j < |avgs| && avgs[j].subject == RankWeakest(avgs)[i]
  {
    var sorted := SortBy(avgs, ByAverage);
    var weak := RankWeakest(avgs);
    forall i | 0 <= i < |weak|
      ensures exists j :: 0 <= j < |avgs| && avgs[j].subject == weak[i]
    {
      assert weak[i] == sorted[i].subject;
      assert sorted[i] in multiset(avgs);
      var j :| 0 <= j < |avgs| && avgs[j] == sorted[i];
    }
  }

  /** The ranking takes up to three entries of distinct subjects, with the averages `avg` gives. */
  lemma RankedEntries(avgs: seq<SubjectAverage>, avg: map<string, real>)
    requires UniqueSubjects(avgs)
    requires forall j :: 0 <= j < |avgs| ==> avgs[j].subject in avg && avg[avgs[j].subject] == avgs[j].avg
    ensures var sorted, weak := SortBy(avgs, ByAverage), RankWeakest(avgs);
      && |weak| == Min(|avgs|, MaxWeakSubjects)
      && Distinct(weak)
      && (forall i :: 0 <= i < |weak| ==> weak[i] in avg && avg[weak[i]] == sorted[i].avg)
  {
    var sorted := SortBy(avgs, ByAverage);
    SortKeepsEntries(avgs, avg);
    var weak := RankWeakest(avgs);
    assert forall i :: 0 <= i < |weak| ==> weak[i] == sorted[i].subject;
  }

  /** The ranked entries come in ascending order of average. */
  lemma RankedAscending(avgs: seq<SubjectAverage>)
    ensures var sorted, weak := SortBy(avgs, ByAverage), RankWeakest(avgs);
      forall i, j :: 0 <= i < j < |weak| ==> sorted[i].avg <= sorted[j].avg
  {
    var sorted, weak := SortBy(avgs, ByAverage), RankWeakest(avgs);
    forall i, j | 0 <= i < j < |weak|
      ensures sorted[i].avg <= sorted[j].avg
    {
      assert ByAverage(sorted[i]) <= ByAverage(sorted[j]);
    }
  }

  /** An entry whose subject is not ranked has an average at least that of every ranked entry. */
  lemma RankedBelowRest(avgs: seq<SubjectAverage>)
    ensures var sorted, weak := SortBy(avgs, ByAverage), RankWeakest(avgs);
      forall i, j :: 0 <= i < |weak| && 0 <= j < |avgs| && avgs[j].subject !in weak ==>
        sorted[i].avg <= avgs[j].avg
  {
    var sorted, weak := SortBy(avgs, ByAverage), RankWeakest(avgs);
    forall i, j | 0 <= i < |weak| && 0 <= j < |avgs| && avgs[j].subject !in weak
      ensures sorted[i].avg <= avgs[j].avg
    {
      assert avgs[j] in multiset(sorted);
      var k :| 0 <= k < |sorted| && sorted[k] == avgs[j];
      assert i < k;
      assert ByAverage(sorted[i]) <= ByAverage(sorted[k]);
    }
  }

  /**
   * `RankWeakest` keeps the three lowest averages: distinct subjects, in
   * ascending order, none lower among those left out. `avg` gives each
   * subject's average.
   */
  lemma RankWeakestKeepsLowest(avgs: seq<SubjectAverage>, avg: map<string, real>)
    requires UniqueSubjects(avgs)
    requires forall j :: 0 <= j < |avgs| ==> avgs[j].subject in avg && avg[avgs[j].subject] == avgs[j].avg
    ensures var weak := RankWeakest(avgs);
      && |weak| == Min(|avgs|, MaxWeakSubjects)
      && Distinct(weak)
      && (forall i :: 0 <= i < |weak| ==> weak[i] in avg)
      && (forall i :: 0 <= i < |weak| ==> exists j :: 0 <= j < |avgs| && avgs[j].subject == weak[i])
      && (forall i, j :: 0 <= i < j < |weak| ==> avg[weak[i]] <= avg[weak[j]])
      && (forall i, j :: 0 <= i < |weak| && 0 <= j < |avgs| && avgs[j].subject !in weak ==>
            avg[weak[i]] <= avgs[j].avg)
  {
    RankedEntries(avgs, avg);
    RankedFromEntries(avgs);
    RankedAscending(avgs);
    RankedBelowRest(avgs);
    var sorted, weak := SortBy(avgs, ByAverage), RankWeakest(avgs);
    forall i, j | 0 <= i < j < |weak|
      ensures avg[weak[i]] <= avg[weak[j]]
    {
      assert sorted[i].avg <= sorted[j].avg;
    }
    forall i, j | 0 <= i < |weak| && 0 <= j < |avgs| && avgs[j].subject !in weak
      ensures avg[weak[i]] <= avgs[j].avg
    {
      assert sorted[i].avg <= avgs[j].avg;
    }
  }

  /** Each subject of the student and its average. */
  function AverageMap(ps: seq<PerformanceRecord>): (avg: map<string, real>)
    ensures forall s :: s in avg <==> s in SubjectsInOrder(ps)
    ensures forall j :: 0 <= j < |SubjectsInOrder(ps)| ==>
      avg[SubjectsInOrder(ps)[j]] == Average(ps, SubjectsInOrder(ps)[j])
  {
    var keys := SubjectsInOrder(ps);
    map s | s in keys :: Average(ps, s)
  }

  /** The entries `RankWeakest` ranks: one per subject, each with its average. */
  lemma AveragesEntries(ps: seq<PerformanceRecord>)
    ensures UniqueSubjects(Averages(ps))
    ensures forall j :: 0 <= j < |Averages(ps)| ==>
      Averages(ps)[j].subject in AverageMap(ps) && AverageMap(ps)[Averages(ps)[j].subject] == Averages(ps)[j].avg
  {
    assert Distinct(SubjectsInOrder(ps));
  }

  /**
   * There are at most three weak subjects, all distinct subjects of the
   * student, and none exactly when the student has no records.
   */
  lemma WeakSubjectsCount(ps: seq<PerformanceRecord>)
    ensures var weak, keys := WeakSubjects(ps), SubjectsInOrder(ps);
      && |weak| == Min(|keys|, MaxWeakSubjects)
      && (weak == [] <==> ps == [])
      && Distinct(weak)
      && (forall i :: 0 <= i < |weak| ==> weak[i] in keys)
  {
    AveragesEntries(ps);
    RankWeakestKeepsLowest(Averages(ps), AverageMap(ps));
  }

  /**
   * The weak subjects come in ascending order of average, and no subject left
   * out has a lower average than one chosen.
   */
  lemma WeakestChosen(ps: seq<PerformanceRecord>)
    ensures var weak, keys, avg := WeakSubjects(ps), SubjectsInOrder(ps), AverageMap(ps);
      && (forall i :: 0 <= i < |weak| ==> weak[i] in avg)
      && (forall i, j :: 0 <= i < j < |weak| ==> avg[weak[i]] <= avg[weak[j]])
      && (forall i, s :: 0 <= i < |weak| && s in keys && s !in weak ==> avg[weak[i]] <= avg[s])
  {
    var keys, avgs, avg := SubjectsInOrder(ps), Averages(ps), AverageMap(ps);
    AveragesEntries(ps);
    RankWeakestKeepsLowest(avgs, avg);
    var weak := WeakSubjects(ps);
    forall i, s | 0 <= i < |weak| && s in keys && s !in weak
      ensures avg[weak[i]] <= avg[s]
    {
      var j :| 0 <= j < |keys| && keys[j] == s;
      assert avgs[j].subject == s;
    }
  }

  /**
   * The controller's computation of the weak subjects: the aggregation, then
   * each subject's `total / count`, ranked.
   */
  method FindWeakSubjects(ps: seq<PerformanceRecord>) returns (weakSubjects: seq<string>)
    ensures weakSubjects == WeakSubjects(ps)
  {
    var keys, tally := AggregateBySubject(ps);
    var avgs := seq(|keys|, i requires 0 <= i < |keys| =>
      SubjectAverage(keys[i], tally[keys[i]].total / tally[keys[i]].count as real));
    assert avgs == Averages(ps);
    weakSubjects := RankWeakest(avgs);
  }

  // ---------------------------------------------------------------------------
  // The templated plan

  /** The weekly review goal for one weak subject. */
  function ReviewGoal(studentId: string, subject: string, now: int): StudyGoal {
    StudyGoal(studentId, subject, "Review core concepts of " + subject, now + 7 * Day, Medium, Pending)
  }

  /** The extra, urgent goal for the weakest subject. */
  function PracticeGoal(studentId: string, subject: string, now: int): StudyGoal {
    StudyGoal(studentId, subject, "Practice past papers for " + subject, now + 3 * Day, High, Pending)
  }

  /**
   * The fallback plan the controller builds: a review goal per weak subject,
   * in ranking order, then a practice goal for the weakest one.
   */
  method FallbackGoals(studentId: string, weakSubjects: seq<string>, now: int) returns (plan: seq<StudyGoal>)
    ensures |plan| == |weakSubjects| + (if weakSubjects == [] then 0 else 1)
    ensures forall i :: 0 <= i < |weakSubjects| ==> plan[i] == ReviewGoal(studentId, weakSubjects[i], now)
    ensures weakSubjects != [] ==> plan[|weakSubjects|] == PracticeGoal(studentId, weakSubjects[0], now)
  {
    plan := seq(|weakSubjects|, i requires 0 <= i < |weakSubjects| => ReviewGoal(studentId, weakSubjects[i], now));
    if |weakSubjects| > 0 {
      plan := plan + [PracticeGoal(studentId, weakSubjects[0], now)];
    }
  }

  /** The shape of the fallback plan. */
  predicate IsFallbackPlan(plan: seq<StudyGoal>, studentId: string, weakSubjects: seq<string>, now: int) {
    && |plan| == |weakSubjects| + (if weakSubjects == [] then 0 else 1)
    && (forall i :: 0 <= i < |weakSubjects| ==> plan[i] == ReviewGoal(studentId, weakSubjects[i], now))
    && (weakSubjects != [] ==> plan[|weakSubjects|] == PracticeGoal(studentId, weakSubjects[0], now))
  }

  /**
   * For a non-empty list of weak subjects, the fallback plan has one goal more
   * than there are weak subjects, every goal is pending and the student's, the
   * only high-priority goal is the last one, about the weakest subject, and
   * every deadline lies three to seven days ahead.
   */
  lemma FallbackPlanShape(plan: seq<StudyGoal>, studentId: string, weakSubjects: seq<string>, now: int)
    requires weakSubjects != [] && IsFallbackPlan(plan, studentId, weakSubjects, now)
    ensures |plan| == |weakSubjects| + 1
    ensures forall g :: g in plan ==> g.status == Pending && g.studentId == studentId
    ensures forall i :: 0 <= i < |plan| ==> (plan[i].priority == High <==> i == |weakSubjects|)
    ensures plan[|weakSubjects|].subject == weakSubjects[0]
    ensures forall g :: g in plan ==> now + 3 * Day <= g.deadline <= now + 7 * Day
    ensures forall i :: 0 <= i < |weakSubjects| ==> plan[i].subject == weakSubjects[i] && plan[i].priority == Medium
  {
    forall g | g in plan
      ensures g.status == Pending && g.studentId == studentId
      ensures now + 3 * Day <= g.deadline <= now + 7 * Day
    {
      var i :| 0 <= i < |plan| && plan[i] == g;
    }
  }

  /** Three weak subjects give four goals, the last for the weakest subject. */
  lemma FallbackPlanExample(plan: seq<StudyGoal>, now: int)
    requires IsFallbackPlan(plan, "s1", ["Physics", "Chemistry", "Maths"], now)
    ensures |plan| == 4
    ensures plan[3].topic == "Practice past papers for Physics"
    ensures plan[3].deadline == now + 259200000
  {
  }

  // ---------------------------------------------------------------------------
  // The service path and its failures

  /** A goal as the parsed answer lists it; its `deadline` already turned into milliseconds. */
  datatype AiGoal = AiGoal(subject: string, topic: string, deadline: int, priority: Priority)

  /** The goal the controller saves for a generated one: the student's, and pending. */
  function FromAiGoal(studentId: string, g: AiGoal): (r: StudyGoal)
    ensures r.studentId == studentId && r.status == Pending
    ensures r.subject == g.subject && r.topic == g.topic && r.deadline == g.deadline && r.priority == g.priority
  {
    StudyGoal(studentId, g.subject, g.topic, g.deadline, g.priority, Pending)
  }

  function AiPlan(studentId: string, gs: seq<AiGoal>): (plan: seq<StudyGoal>)
    ensures |plan| == |gs|
    ensures forall i :: 0 <= i < |gs| ==> plan[i] == FromAiGoal(studentId, gs[i])
  {
    seq(|gs|, i requires 0 <= i < |gs| => FromAiGoal(studentId, gs[i]))
  }

  /**
   * What the `try` block ends with once the weak subjects are known: the
   * parsed goals, the service's error, or the parse failure.
   */
  function AiOutcome(ai: Result<string, AiError>, parseGoals: string -> Option<seq<AiGoal>>)
    : (r: Result<seq<AiGoal>, AiError>)
    ensures ai.Err? ==> r == Err(ai.error)
    ensures ai.Ok? ==>
      match parseGoals(StripCodeFences(ai.value))
      case Some(gs) => r == Ok(gs)
      case None => r == Err(ParseFailure)
  {
    match ai
    case Err(e) => Err(e)
    case Ok(text) =>
      match parseGoals(StripCodeFences(text))
      case Some(gs) => Ok(gs)
      case None => Err(ParseFailure)
  }

  /** The fallback condition: status 429 or 503, or "429" in the message. */
  predicate IsRateLimited(e: AiError) {
    e.status == Some(429) || e.status == Some(503) || Contains(e.message, "429")
  }

  /** A text without the digit 4 does not contain "429". */
  lemma {:induction false} NoFourNoCode(s: string)
    requires '4' !in s
    ensures !Contains(s, "429")
  {
    if 3 <= |s| {
      assert s[..3][0] == s[0];
      NoFourNoCode(s[1..]);
    }
  }

  /**
   * The fallback applies to a 429 or a 503 whatever the message, and to any
   * error whose message contains "429"; it does not apply to any other status
   * with a message that has no digit 4.
   */
  lemma RateLimitTrigger(status: Option<int>, message: string, before: string, after: string)
    ensures IsRateLimited(AiError(Some(429), message)) && IsRateLimited(AiError(Some(503), message))
    ensures IsRateLimited(AiError(status, before + "429" + after))
    ensures status != Some(429) && status != Some(503) && '4' !in message ==> !IsRateLimited(AiError(status, message))
  {
    var text := before + "429" + after;
    assert text[|before|..][..3] == "429";
    ContainsInSuffix(text, |before|, "429");
    if '4' !in message {
      NoFourNoCode(message);
    }
  }

  /** The parse-failure message has no digit 4. */
  lemma ParseFailureHasNoFour()
    ensures '4' !in ParseFailureMessage
  {
  }

  /** A text that does not parse ends in a 500, never in the fallback plan. */
  lemma ParseFailureIsNotRateLimited()
    ensures !IsRateLimited(ParseFailure)
  {
    ParseFailureHasNoFour();
    NoFourNoCode(ParseFailure.message);
  }

  /** The answer once the weak subjects are known: `Ok` is the 201 answer with the saved goals. */
  ghost predicate PlanAnswered(
    res: Result<seq<StudyGoal>, HttpError>,
    studentId: string,
    weakSubjects: seq<string>,
    ai: Result<string, AiError>,
    parseGoals: string -> Option<seq<AiGoal>>,
    now: int)
  {
    match AiOutcome(ai, parseGoals)
    case Ok(gs) =>
      res == Ok(AiPlan(studentId, gs))
    case Err(e) =>
      if IsRateLimited(e) then
        res.Ok? && IsFallbackPlan(res.value, studentId, weakSubjects, now)
      else
        res == Err(HttpError(500, PlanFailureMessage))
  }

  /** The goals a 201 answer reports, which are the ones saved; none for an error. */
  function Saved(res: Result<seq<StudyGoal>, HttpError>): seq<StudyGoal> {
    if res.Ok? then res.value else []
  }

  /**
   * The service call and the `catch` block: the generated goals are saved,
   * pending, in the order given; a rate-limited or unavailable service gives
   * the templated plan instead; any other failure (the parse failure among
   * them) is a 500 and nothing is saved.
   */
  method PlanFor(
    studentId: string,
    weakSubjects: seq<string>,
    ai: Result<string, AiError>,
    parseGoals: string -> Option<seq<AiGoal>>,
    now: int,
    store: GoalStore)
    returns (res: Result<seq<StudyGoal>, HttpError>)
    modifies store
    ensures PlanAnswered(res, studentId, weakSubjects, ai, parseGoals, now)
    ensures store.goals == old(store.goals) + Saved(res)
  {
    var failure: AiError;
    if ai.Ok? {
      var parsed := parseGoals(StripCodeFences(ai.value));
      if parsed.Some? {
        var goals := store.SaveAll(AiPlan(studentId, parsed.value));
        return Ok(goals);
      }
      failure := ParseFailure;
    } else {
      failure := ai.error;
    }

    if IsRateLimited(failure) {
      var fallbackGoals := FallbackGoals(studentId, weakSubjects, now);
      var goals := store.SaveAll(fallbackGoals);
      return Ok(goals);
    }
    res := Err(HttpError(500, PlanFailureMessage));
  }

  /**
   * `generateStudyPlan`. No records: 400 and nothing saved. Otherwise the
   * answer and the saved goals are those of `PlanFor` for the weak subjects.
   */
  method GenerateStudyPlan(
    studentId: string,
    ai: Result<string, AiError>,
    parseGoals: string -> Option<seq<AiGoal>>,
    now: int,
    performances: PerformanceStore,
    store: GoalStore)
    returns (res: Result<seq<StudyGoal>, HttpError>)
    modifies store
    ensures var weak := WeakSubjects(performances.RecordsOf(studentId));
      if weak == [] then
        res == Err(HttpError(400, NotEnoughDataMessage)) && store.goals == old(store.goals)
      else
        PlanAnswered(res, studentId, weak, ai, parseGoals, now)
        && store.goals == old(store.goals) + Saved(res)
  {
    var weakSubjects := FindWeakSubjects(performances.RecordsOf(studentId));
    if |weakSubjects| == 0 {
      return Err(HttpError(400, NotEnoughDataMessage));
    }
    res := PlanFor(studentId, weakSubjects, ai, parseGoals, now, store);
  }
}
