/** The in-memory review queue behind the web endpoints (src/web/api.py, records from src/web/models.py):
    flagged submissions keyed `sub_n` (modelled as the number n) and the log of grade adjustments. */
module ReviewApi {
  import opened Results
  import opened Consensus
  import opened Grader
  import opened SchemaLoader

  /** The value of datetime.now() at the moment of a review, supplied by the caller. */
  datatype Timestamp = Timestamp(ticks: int)

  /** A submission waiting for (or having had) human review. */
  datatype ReviewSubmission = ReviewSubmission(
    submissionId: nat,
    submissionText: string,
    originalGrade: real,
    confidenceScore: real,
    reviewNotes: Option<string>,
    reviewedAt: Option<Timestamp>,
    reviewedBy: Option<string>)

  /** A reviewer's change to one criterion's points. */
  datatype GradeAdjustment = GradeAdjustment(
    submissionId: nat,
    criterionName: string,
    originalPoints: real,
    adjustedPoints: real,
    adjustmentReason: string,
    reviewer: string)

  /** An HTTPException's status code. */
  datatype HttpError = HttpError(statusCode: nat)

  const NotFound: HttpError := HttpError(404)
  const InternalError: HttpError := HttpError(500)

  /** The body returned by the grading endpoint. */
  datatype GradeResponse = GradeResponse(
    grade: real,
    confidence: real,
    needsReview: bool,
    criterionGrades: map<string, GradingResult>)

  /** The body returned by the statistics endpoint. */
  datatype ReviewStatistics = ReviewStatistics(
    totalFlagged: nat,
    totalReviewed: nat,
    totalAdjustments: nat,
    reviewCompletionRate: real)

  /** The module-level AssignmentGrader, with the default thresholds. */
  const ApiGrader: AssignmentGrader := DefaultGrader

  /** The ids `sub_1` .. `sub_n` of a store of n entries. */
  ghost predicate KeysContiguous(flagged: map<nat, ReviewSubmission>)
  {
    forall n :: n in flagged <==> 1 <= n <= |flagged|
  }

  /** Ids of the entries whose reviewed_at is set (a datetime is always truthy). */
  function ReviewedIds(flagged: map<nat, ReviewSubmission>): set<nat>
  {
    set n | n in flagged && flagged[n].reviewedAt.Some?
  }

  /** Ids named by the logged adjustments; there are no more of them than adjustments. */
  function AdjustedIds(adjustments: seq<GradeAdjustment>): (ids: set<nat>)
    ensures |ids| <= |adjustments|
    ensures forall i :: 0 <= i < |adjustments| ==> adjustments[i].submissionId in ids
  {
    if adjustments == [] then {}
    else AdjustedIds(adjustments[..|adjustments| - 1]) + {adjustments[|adjustments| - 1].submissionId}
  }

  /** The record stored for a newly flagged submission. */
  function FlaggedEntry(id: nat, submissionText: string, grade: AssignmentGrade): ReviewSubmission
  {
    ReviewSubmission(id, submissionText, grade.totalPoints, grade.overallConfidence, None, None, None)
  }

  /** The entry after a review: reviewed at `now` by the adjustment's reviewer, with its reason as the notes. */
  function Reviewed(s: ReviewSubmission, adjustment: GradeAdjustment, now: Timestamp): ReviewSubmission
  {
    s.(reviewedAt := Some(now), reviewedBy := Some(adjustment.reviewer), reviewNotes := Some(adjustment.adjustmentReason))
  }

  /** The stored values listed from `sub_1` to `sub_n`, the order the dictionary was filled in. */
  function ValuesInOrder(flagged: map<nat, ReviewSubmission>, n: nat): (vs: seq<ReviewSubmission>)
    requires forall k :: 1 <= k <= n ==> k in flagged
    ensures |vs| == n
    ensures forall i :: 0 <= i < n ==> vs[i] == flagged[i + 1]
  {
    if n == 0 then [] else ValuesInOrder(flagged, n - 1) + [flagged[n]]
  }

  /** The statistics as computed from the two stores. */
  function Statistics(flagged: map<nat, ReviewSubmission>, adjustments: seq<GradeAdjustment>): ReviewStatistics
  {
    var totalFlagged := |flagged|;
    var totalReviewed := |ReviewedIds(flagged)|;
    ReviewStatistics(totalFlagged, totalReviewed, |adjustments|,
                     if totalFlagged > 0 then totalReviewed as real / totalFlagged as real else 0.0)
  }

  /** At most every flagged submission is reviewed, so the completion rate lies in [0, 1], and it is 0
      while nothing is flagged. */
  lemma StatisticsBounds(flagged: map<nat, ReviewSubmission>, adjustments: seq<GradeAdjustment>)
    ensures var s := Statistics(flagged, adjustments);
      s.totalReviewed <= s.totalFlagged &&
      0.0 <= s.reviewCompletionRate <= 1.0 &&
      (s.totalFlagged == 0 ==> s.reviewCompletionRate == 0.0) &&
      (s.totalFlagged > 0 && s.totalReviewed == s.totalFlagged ==> s.reviewCompletionRate == 1.0) &&
      (ReviewedIds(flagged) <= AdjustedIds(adjustments) ==> s.totalReviewed <= s.totalAdjustments)
  {
    if ReviewedIds(flagged) <= AdjustedIds(adjustments) {
      SubsetCardinality(ReviewedIds(flagged), AdjustedIds(adjustments));
    }
    ReviewedAtMostFlagged(flagged);
    var s := Statistics(flagged, adjustments);
    if s.totalFlagged > 0 {
      DivAtMostOne(s.totalReviewed as real, s.totalFlagged as real);
    }
  }

  lemma DivAtMostOne(a: real, b: real)
    requires 0.0 <= a <= b && b > 0.0
    ensures 0.0 <= a / b <= 1.0
    ensures a == b ==> a / b == 1.0
  {
    assert a / b * b == a;
  }

  lemma ReviewedAtMostFlagged(flagged: map<nat, ReviewSubmission>)
    ensures |ReviewedIds(flagged)| <= |flagged|
  {
    assert ReviewedIds(flagged) <= flagged.Keys;
    SubsetCardinality(ReviewedIds(flagged), flagged.Keys);
  }

  lemma {:induction false} SubsetCardinality(a: set<nat>, b: set<nat>)
    requires a <= b
    ensures |a| <= |b|
    decreases b
  {
    if a != {} {
      var x :| x in a;
      SubsetCardinality(a - {x}, b - {x});
    }
  }

  /** Flagging under the next id keeps the ids contiguous, and that id was free: nothing is overwritten. */
  lemma FlaggingKeepsKeysContiguous(flagged: map<nat, ReviewSubmission>, entry: ReviewSubmission)
    requires KeysContiguous(flagged)
    ensures |flagged| + 1 !in flagged
    ensures KeysContiguous(flagged[|flagged| + 1 := entry])
    ensures |flagged[|flagged| + 1 := entry]| == |flagged| + 1
  {
  }

  /** Reviewing an entry marks it reviewed and leaves the others' review state alone: the reviewed count
      grows by one on a first review and stays the same on a repeated one. */
  lemma ReviewCount(flagged: map<nat, ReviewSubmission>, id: nat, adjustment: GradeAdjustment, now: Timestamp)
    requires id in flagged
    ensures ReviewedIds(flagged[id := Reviewed(flagged[id], adjustment, now)]) == ReviewedIds(flagged) + {id}
    ensures flagged[id].reviewedAt.None? ==>
      |ReviewedIds(flagged[id := Reviewed(flagged[id], adjustment, now)])| == |ReviewedIds(flagged)| + 1
    ensures flagged[id].reviewedAt.Some? ==>
      |ReviewedIds(flagged[id := Reviewed(flagged[id], adjustment, now)])| == |ReviewedIds(flagged)|
  {
    var after := flagged[id := Reviewed(flagged[id], adjustment, now)];
    assert ReviewedIds(after) == ReviewedIds(flagged) + {id};
    if flagged[id].reviewedAt.Some? {
      assert id in ReviewedIds(flagged);
      assert ReviewedIds(flagged) + {id} == ReviewedIds(flagged);
    }
  }

  /** The two module-level stores. */
  class ReviewQueue {
    var flaggedSubmissions: map<nat, ReviewSubmission>
    var gradeAdjustments: seq<GradeAdjustment>

    /** Entries are keyed `sub_1` .. `sub_n` and carry their own id; every adjustment names a flagged
        submission, and a submission is marked reviewed only once an adjustment for it was recorded. */
    ghost predicate Valid()
      reads this
    {
      KeysContiguous(flaggedSubmissions) &&
      (forall n :: n in flaggedSubmissions ==> flaggedSubmissions[n].submissionId == n) &&
      AdjustedIds(gradeAdjustments) <= flaggedSubmissions.Keys &&
      ReviewedIds(flaggedSubmissions) <= AdjustedIds(gradeAdjustments)
    }

    /** Both stores start empty. */
    constructor ()
      ensures flaggedSubmissions == map[] && gradeAdjustments == []
      ensures Valid()
    {
      flaggedSubmissions := map[];
      gradeAdjustments := [];
    }

    /** The flagging branch of the grading endpoint: a grade that needs review is stored under the next
        id with its total points and overall confidence; any other grade leaves the store alone. */
    method FlagIfNeeded(submissionText: string, grade: AssignmentGrade)
      requires Valid()
      modifies this
      ensures Valid()
      ensures gradeAdjustments == old(gradeAdjustments)
      ensures !grade.needsReview ==> flaggedSubmissions == old(flaggedSubmissions)
      ensures grade.needsReview ==>
        |old(flaggedSubmissions)| + 1 !in old(flaggedSubmissions) &&
        flaggedSubmissions == old(flaggedSubmissions)[|old(flaggedSubmissions)| + 1 :=
          FlaggedEntry(|old(flaggedSubmissions)| + 1, submissionText, grade)]
    {
      if grade.needsReview {
        var id := |flaggedSubmissions| + 1;
        FlaggingKeepsKeysContiguous(flaggedSubmissions, FlaggedEntry(id, submissionText, grade));
        assert ReviewedIds(flaggedSubmissions[id := FlaggedEntry(id, submissionText, grade)])
            == ReviewedIds(flaggedSubmissions);
        flaggedSubmissions := flaggedSubmissions[id := FlaggedEntry(id, submissionText, grade)];
      }
    }

    /** The grading endpoint: loads the schema, grades with the module-level grader (`panel[i]` holds the
        agents' opinions on the schema's i-th criterion), flags the submission when needed and answers
        with the grade. The division error surfaces as a 500 with the stores untouched. */
    method GradeSubmission(submissionText: string, assignmentId: string, panel: seq<seq<Opinion>>)
      returns (r: Result<GradeResponse, HttpError>)
      requires Valid()
      requires |panel| == |MockCriteria()|
      modifies this
      ensures Valid()
      ensures gradeAdjustments == old(gradeAdjustments)
      ensures r.Failure? <==> !NoDivisionError(panel, ApiGrader.confidenceThreshold)
      ensures r.Failure? ==> r.error == InternalError && flaggedSubmissions == old(flaggedSubmissions)
      ensures r.Success? ==>
        var g := ExpectedGrade(MockCriteria(), Verdicts(panel, ApiGrader.confidenceThreshold),
                               ApiGrader.confidenceThreshold);
        r.value == GradeResponse(g.totalPoints, g.overallConfidence, g.needsReview, g.criterionGrades) &&
        flaggedSubmissions ==
          if g.needsReview
          then old(flaggedSubmissions)[|old(flaggedSubmissions)| + 1 :=
                 FlaggedEntry(|old(flaggedSubmissions)| + 1, submissionText, g)]
          else old(flaggedSubmissions)
    {
      var schema := LoadGradingSchema(assignmentId);
      var graded := GradeAssignment(ApiGrader, panel, schema);
      if graded.Failure? {
        return Failure(InternalError);
      }
      var grade := graded.value;
      FlagIfNeeded(submissionText, grade);
      r := Success(GradeResponse(grade.totalPoints, grade.overallConfidence, grade.needsReview, grade.criterionGrades));
    }

    /** The flagged-submissions endpoint: every stored entry once, in the order they were flagged. */
    function GetFlaggedSubmissions(): (vs: seq<ReviewSubmission>)
      reads this
      requires Valid()
      ensures |vs| == |flaggedSubmissions|
      ensures forall n :: n in flaggedSubmissions ==> vs[n - 1] == flaggedSubmissions[n]
      ensures forall i :: 0 <= i < |vs| ==> vs[i].submissionId == i + 1 && vs[i] == flaggedSubmissions[i + 1]
    {
      ValuesInOrder(flaggedSubmissions, |flaggedSubmissions|)
    }

    /** The review endpoint: an unknown id is a 404 that changes nothing; otherwise the adjustment is
        logged and that entry alone is marked reviewed at `now`. */
    method SubmitReview(adjustment: GradeAdjustment, now: Timestamp) returns (r: Outcome<HttpError>)
      requires Valid()
      modifies this
      ensures Valid()
      ensures r.Fail? <==> adjustment.submissionId !in old(flaggedSubmissions)
      ensures r.Fail? ==>
        r.error == NotFound &&
        flaggedSubmissions == old(flaggedSubmissions) && gradeAdjustments == old(gradeAdjustments)
      ensures r.Pass? ==>
        gradeAdjustments == old(gradeAdjustments) + [adjustment] &&
        flaggedSubmissions == old(flaggedSubmissions)[adjustment.submissionId :=
          Reviewed(old(flaggedSubmissions)[adjustment.submissionId], adjustment, now)]
    {
      var id := adjustment.submissionId;
      if id !in flaggedSubmissions {
        return Fail(NotFound);
      }
      ghost var before := gradeAdjustments;
      gradeAdjustments := gradeAdjustments + [adjustment];
      assert gradeAdjustments[..|gradeAdjustments| - 1] == before;
      assert AdjustedIds(gradeAdjustments) == AdjustedIds(before) + {id};
      ReviewCount(flaggedSubmissions, id, adjustment, now);
      flaggedSubmissions := flaggedSubmissions[id := Reviewed(flaggedSubmissions[id], adjustment, now)];
      r := Pass;
    }

    /** The statistics endpoint. */
    function GetReviewStatistics(): (s: ReviewStatistics)
      reads this
      requires Valid()
      ensures s == Statistics(flaggedSubmissions, gradeAdjustments)
      ensures s.totalReviewed <= s.totalFlagged && s.totalReviewed <= s.totalAdjustments
      ensures 0.0 <= s.reviewCompletionRate <= 1.0
      ensures s.totalFlagged == 0 ==> s.reviewCompletionRate == 0.0
    {
      StatisticsBounds(flaggedSubmissions, gradeAdjustments);
      Statistics(flaggedSubmissions, gradeAdjustments)
    }
  }

  /** With the module-level threshold (0.7) the grading endpoint never answers 500 for a
      division error. */
  lemma ApiGradingNeverFails(panel: seq<seq<Opinion>>)
    ensures NoDivisionError(panel, ApiGrader.confidenceThreshold)
  {
    PositiveThresholdGradingNeverFails(panel, ApiGrader.confidenceThreshold);
  }
}
