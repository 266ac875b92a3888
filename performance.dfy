/**
 * Performance records, their store, and the performance controller:
 * `addPerformance` and the newest-first listing of `getStudentPerformance`.
 */
module Performance {
  import opened Wrappers
  import opened Service
  import opened Seqs
  import opened Scoring

  /** A stored performance record; `createdAt` is in milliseconds. */
  datatype PerformanceRecord = PerformanceRecord(
    studentId: string,
    subject: string,
    metrics: Metrics,
    predictedGrade: string,
    createdAt: int)

  /**
   * What the schema validators accept: the student and the subject are present
   * (a required string may not be empty) and every metric lies in [0, 100].
   */
  predicate SchemaValid(r: PerformanceRecord) {
    r.studentId != "" && r.subject != "" && ValidMetrics(r.metrics)
  }

  /** The performance collection: records in insertion order. */
  class PerformanceStore {
    var records: seq<PerformanceRecord>

    constructor ()
      ensures records == []
    {
      records := [];
    }

    /** `Performance.create`: validates, then appends; a rejected record leaves the store as it was. */
    method Create(r: PerformanceRecord) returns (ok: bool)
      modifies this
      ensures ok == SchemaValid(r)
      ensures records == if ok then old(records) + [r] else old(records)
    {
      ok := SchemaValid(r);
      if ok {
        records := records + [r];
      }
    }

    /** `Performance.find({ studentId })`: the student's records in insertion order. */
    function RecordsOf(studentId: string): (rs: seq<PerformanceRecord>)
      reads this
      ensures forall i :: 0 <= i < |rs| ==> rs[i] in records && rs[i].studentId == studentId
      ensures forall i :: 0 <= i < |records| && records[i].studentId == studentId ==> records[i] in rs
      ensures forall r :: multiset(rs)[r] == if r.studentId == studentId then multiset(records)[r] else 0
    {
      var theirs := (r: PerformanceRecord) => r.studentId == studentId;
      FilterCounts(records, theirs);
      Filter(records, theirs)
    }

    /** `getStudentPerformance`: the student's records sorted by `createdAt`, newest first. */
    function NewestFirst(studentId: string): (rs: seq<PerformanceRecord>)
      reads this
      ensures multiset(rs) == multiset(RecordsOf(studentId))
      ensures forall i, j :: 0 <= i < j < |rs| ==> rs[i].createdAt >= rs[j].createdAt
    {
      var key := (r: PerformanceRecord) => -(r.createdAt as real);
      var sorted := SortBy(RecordsOf(studentId), key);
      assert forall i, j :: 0 <= i < j < |sorted| ==> key(sorted[i]) <= key(sorted[j]);
      sorted
    }
  }

  /** The body of an add request; `predictedGrade` may be sent but is never read. */
  datatype AddRequest = AddRequest(
    studentId: Option<string>,
    subject: Option<string>,
    attendance: Option<real>,
    assignmentScore: Option<real>,
    internalMarks: Option<real>,
    projectMarks: Option<real>,
    finalExamMarks: Option<real>,
    predictedGrade: Option<string>)

  const AddFailureMessage := "Error adding performance data"

  /** The record `addPerformance` asks the store to create, when all five metrics are present. */
  function RecordToAdd(req: AddRequest, now: int): (r: Option<PerformanceRecord>)
    ensures r.Some? <==>
      req.attendance.Some? && req.assignmentScore.Some? && req.internalMarks.Some?
      && req.projectMarks.Some? && req.finalExamMarks.Some?
    ensures r.Some? ==> r.value.predictedGrade == Letter(CalculateGrade(r.value.metrics))
    ensures r.Some? ==>
      && r.value.metrics == Metrics(req.attendance.value, req.assignmentScore.value, req.internalMarks.value,
                                    req.projectMarks.value, req.finalExamMarks.value)
      && r.value.studentId == req.studentId.GetOr("") && r.value.subject == req.subject.GetOr("")
      && r.value.createdAt == now
  {
    if req.attendance.Some? && req.assignmentScore.Some? && req.internalMarks.Some?
       && req.projectMarks.Some? && req.finalExamMarks.Some?
    then
      var m := Metrics(req.attendance.value, req.assignmentScore.value, req.internalMarks.value,
                       req.projectMarks.value, req.finalExamMarks.value);
      Some(PerformanceRecord(req.studentId.GetOr(""), req.subject.GetOr(""), m,
                             Letter(CalculateGrade(m)), now))
    else None
  }

  /** The stored grade depends on the metrics only: a grade in the request body is ignored. */
  lemma StoredGradeIgnoresRequestGrade(req: AddRequest, g: Option<string>, now: int)
    ensures RecordToAdd(req, now) == RecordToAdd(req.(predictedGrade := g), now)
  {
  }

  /**
   * `addPerformance`: computes the grade from the submitted metrics and creates
   * the record; a record the schema rejects (a missing field, a metric out of
   * range) ends in a 500 and nothing is stored.
   */
  method AddPerformance(req: AddRequest, now: int, store: PerformanceStore)
    returns (res: Result<PerformanceRecord, HttpError>)
    modifies store
    ensures var r := RecordToAdd(req, now);
      if r.Some? && SchemaValid(r.value) then
        res == Ok(r.value) && store.records == old(store.records) + [r.value]
      else
        res == Err(HttpError(500, AddFailureMessage)) && store.records == old(store.records)
  {
    var r := RecordToAdd(req, now);
    if r.None? {
      // the missing field fails the schema's `required` check
      return Err(HttpError(500, AddFailureMessage));
    }
    var ok := store.Create(r.value);
    if !ok {
      return Err(HttpError(500, AddFailureMessage));
    }
    res := Ok(r.value);
  }
}
