/** Grading a whole submission criterion by criterion (AssignmentGrader.grade_assignment in
    src/grading/grader.py). */
module Grader {
  import opened Results
  import opened Criteria
  import opened Consensus

  /** The grade of one submission. */
  datatype AssignmentGrade = AssignmentGrade(
    totalPoints: real,
    criterionGrades: map<string, GradingResult>,
    overallConfidence: real,
    needsReview: bool)

  /** The thresholds of an AssignmentGrader. The agents of its ConsensusGrader are given as opinions per criterion;
      consistencyThreshold is stored but never read. */
  datatype AssignmentGrader = AssignmentGrader(confidenceThreshold: real, consistencyThreshold: real)

  const DefaultGrader: AssignmentGrader := AssignmentGrader(0.7, 0.2)

  /** No criterion's consensus raises the division error. */
  predicate NoDivisionError(panel: seq<seq<Opinion>>, threshold: real)
  {
    panel == [] ||
    (NoDivisionError(panel[..|panel| - 1], threshold) && ConsensusOf(panel[|panel| - 1], threshold).Success?)
  }

  lemma {:induction false} NoDivisionErrorIff(panel: seq<seq<Opinion>>, threshold: real)
    ensures NoDivisionError(panel, threshold) <==> forall i :: 0 <= i < |panel| ==> ConsensusOf(panel[i], threshold).Success?
  {
    if panel != [] {
      var init := panel[..|panel| - 1];
      NoDivisionErrorIff(init, threshold);
      assert forall i :: 0 <= i < |init| ==> init[i] == panel[i];
    }
  }

  /** The consensus outcome of each criterion, in schema order. */
  function Verdicts(panel: seq<seq<Opinion>>, threshold: real): (vs: seq<Option<GradingResult>>)
    requires NoDivisionError(panel, threshold)
    ensures |vs| == |panel|
  {
    if panel == [] then []
    else Verdicts(panel[..|panel| - 1], threshold) + [ConsensusOf(panel[|panel| - 1], threshold).value]
  }

  /** Points summed over the criteria that reached consensus. */
  function ReachedPoints(vs: seq<Option<GradingResult>>): real
  {
    if vs == [] then 0.0
    else ReachedPoints(vs[..|vs| - 1]) + (match vs[|vs| - 1] case None => 0.0 case Some(r) => r.points)
  }

  /** Confidences of the criteria that reached consensus, in schema order. */
  function ReachedConfidences(vs: seq<Option<GradingResult>>): seq<real>
  {
    if vs == [] then []
    else ReachedConfidences(vs[..|vs| - 1]) + (match vs[|vs| - 1] case None => [] case Some(r) => [r.confidence])
  }

  /** The criterion_grades dictionary: each reached criterion's result stored under its name,
      a later criterion of the same name overwriting an earlier one. */
  function GradesByName(cs: seq<GradingCriterion>, vs: seq<Option<GradingResult>>): map<string, GradingResult>
    requires |cs| == |vs|
  {
    if vs == [] then map[]
    else
      var earlier := GradesByName(cs[..|cs| - 1], vs[..|vs| - 1]);
      match vs[|vs| - 1]
      case None => earlier
      case Some(r) => earlier[cs[|cs| - 1].name := r]
  }

  /** The needs_review flag as the loop raises it: on a missing consensus or a confidence below the threshold. */
  predicate FlagsReview(vs: seq<Option<GradingResult>>, threshold: real)
  {
    vs != [] &&
    (FlagsReview(vs[..|vs| - 1], threshold) || vs[|vs| - 1].None? || vs[|vs| - 1].value.confidence < threshold)
  }

  function SumReals(xs: seq<real>): real
  {
    if xs == [] then 0.0 else SumReals(xs[..|xs| - 1]) + xs[|xs| - 1]
  }

  /** Mean of the recorded confidences, 0 when none were recorded. */
  function MeanOrZero(xs: seq<real>): real
  {
    if |xs| > 0 then SumReals(xs) / |xs| as real else 0.0
  }

  /** The grade that grade_assignment returns when no consensus raises. */
  function ExpectedGrade(cs: seq<GradingCriterion>, vs: seq<Option<GradingResult>>, threshold: real): AssignmentGrade
    requires |cs| == |vs|
  {
    AssignmentGrade(ReachedPoints(vs), GradesByName(cs, vs), MeanOrZero(ReachedConfidences(vs)), FlagsReview(vs, threshold))
  }

  /** grade_assignment. `panel[i]` holds the agents' opinions on `schema.criteria[i]`; the
      confidence threshold is passed to the consensus as its minimum confidence. */
  method GradeAssignment(grader: AssignmentGrader, panel: seq<seq<Opinion>>, schema: GradingSchema)
    returns (r: Result<AssignmentGrade, ConsensusError>)
    requires |panel| == |schema.criteria|
    ensures r.Failure? <==> !NoDivisionError(panel, grader.confidenceThreshold)
    ensures r.Success? ==>
      r.value == ExpectedGrade(schema.criteria, Verdicts(panel, grader.confidenceThreshold), grader.confidenceThreshold)
  {
    var threshold := grader.confidenceThreshold;
    var criteria := schema.criteria;
    var criterionGrades: map<string, GradingResult> := map[];
    var totalPoints := 0.0;
    var confidences: seq<real> := [];
    var needsReview := false;
    var i := 0;
    ghost var verdicts: seq<Option<GradingResult>> := [];
    assert panel[..0] == [] && criteria[..0] == [];
    while i < |criteria|
      invariant 0 <= i <= |criteria|
      invariant NoDivisionError(panel[..i], threshold)
      invariant verdicts == Verdicts(panel[..i], threshold)
      invariant criterionGrades == GradesByName(criteria[..i], verdicts)
      invariant totalPoints == ReachedPoints(verdicts)
      invariant confidences == ReachedConfidences(verdicts)
      invariant needsReview == FlagsReview(verdicts, threshold)
    {
      var criterion := criteria[i];
      var result := GradeWithConsensus(panel[i], threshold);
      if result.Failure? {
        NoDivisionErrorPrefix(panel, threshold, i);
        return Failure(result.error);
      }
      VerdictsStep(panel, threshold, i);
      ExtendVerdicts(criteria[..i], verdicts, criterion, result.value, threshold);
      PrefixStep(criteria, i);
      verdicts := verdicts + [result.value];
      match result.value {
        case None =>
          needsReview := true;
        case Some(res) =>
          criterionGrades := criterionGrades[criterion.name := res];
          totalPoints := totalPoints + res.points;
          confidences := confidences + [res.confidence];
          if res.confidence < threshold {
            needsReview := true;
          }
      }
      i := i + 1;
    }
    assert panel[..i] == panel;
    assert criteria[..i] == criteria;
    var overallConfidence := if |confidences| > 0 then SumReals(confidences) / |confidences| as real else 0.0;
    r := Success(AssignmentGrade(totalPoints, criterionGrades, overallConfidence, needsReview));
  }

  lemma PrefixStep<T>(s: seq<T>, i: nat)
    requires i < |s|
    ensures s[..i + 1] == s[..i] + [s[i]]
  {
  }

  /** The verdicts of one more criterion extend the verdicts of the ones before it. */
  lemma VerdictsStep(panel: seq<seq<Opinion>>, threshold: real, i: nat)
    requires i < |panel|
    requires NoDivisionError(panel[..i], threshold) && ConsensusOf(panel[i], threshold).Success?
    ensures NoDivisionError(panel[..i + 1], threshold)
    ensures Verdicts(panel[..i + 1], threshold) == Verdicts(panel[..i], threshold) + [ConsensusOf(panel[i], threshold).value]
  {
    assert panel[..i + 1][..i] == panel[..i];
  }

  /** A division error in one criterion is a division error of the whole panel. */
  lemma {:induction false} NoDivisionErrorPrefix(panel: seq<seq<Opinion>>, threshold: real, i: nat)
    requires i < |panel|
    requires !ConsensusOf(panel[i], threshold).Success?
    ensures !NoDivisionError(panel, threshold)
  {
    NoDivisionErrorIff(panel, threshold);
  }

  /** What one more criterion adds to each accumulator. */
  lemma ExtendVerdicts(cs: seq<GradingCriterion>, vs: seq<Option<GradingResult>>, c: GradingCriterion,
                       v: Option<GradingResult>, threshold: real)
    requires |cs| == |vs|
    ensures ReachedPoints(vs + [v]) == ReachedPoints(vs) + (if v.Some? then v.value.points else 0.0)
    ensures ReachedConfidences(vs + [v]) == ReachedConfidences(vs) + (if v.Some? then [v.value.confidence] else [])
    ensures GradesByName(cs + [c], vs + [v]) == if v.Some? then GradesByName(cs, vs)[c.name := v.value] else GradesByName(cs, vs)
    ensures FlagsReview(vs + [v], threshold) == (FlagsReview(vs, threshold) || v.None? || v.value.confidence < threshold)
  {
    assert (vs + [v])[..|vs|] == vs;
    assert (cs + [c])[..|cs|] == cs;
  }

  // ---------------------------------------------------------------------------
  // Properties of the grade

  /** Each verdict is the consensus outcome of the criterion at the same position. */
  lemma {:induction false} VerdictsAt(panel: seq<seq<Opinion>>, threshold: real, i: nat)
    requires NoDivisionError(panel, threshold) && i < |panel|
    ensures ConsensusOf(panel[i], threshold).Success?
    ensures Verdicts(panel, threshold)[i] == ConsensusOf(panel[i], threshold).value
  {
    if i < |panel| - 1 {
      VerdictsAt(panel[..|panel| - 1], threshold, i);
    }
  }

  /** The review flag is raised exactly when some criterion has no consensus or a confidence below the threshold. */
  lemma {:induction false} FlagsReviewIff(vs: seq<Option<GradingResult>>, threshold: real)
    ensures FlagsReview(vs, threshold)
        <==> exists i :: 0 <= i < |vs| && (vs[i].None? || vs[i].value.confidence < threshold)
  {
    if vs != [] {
      var init := vs[..|vs| - 1];
      FlagsReviewIff(init, threshold);
      assert forall i :: 0 <= i < |init| ==> init[i] == vs[i];
    }
  }

  /** Because the confidence threshold is also the consensus minimum, every recorded confidence reaches it. */
  lemma ReachedAboveThreshold(panel: seq<seq<Opinion>>, threshold: real, i: nat)
    requires NoDivisionError(panel, threshold) && i < |panel|
    requires Verdicts(panel, threshold)[i].Some?
    ensures Verdicts(panel, threshold)[i].value.confidence >= threshold
  {
    VerdictsAt(panel, threshold, i);
    ConsensusConfidenceBounds(panel[i], threshold, Verdicts(panel, threshold)[i].value);
  }

  /** The low-confidence check never fires: a review is needed exactly when some criterion had no consensus.
      (This holds for exact arithmetic; floating-point rounding of the mean could break it.) */
  lemma NeedsReviewIffMissingConsensus(panel: seq<seq<Opinion>>, threshold: real)
    requires NoDivisionError(panel, threshold)
    ensures var vs := Verdicts(panel, threshold);
      FlagsReview(vs, threshold) <==> exists i :: 0 <= i < |vs| && vs[i].None?
  {
    var vs := Verdicts(panel, threshold);
    FlagsReviewIff(vs, threshold);
    forall i | 0 <= i < |vs| && vs[i].Some?
      ensures vs[i].value.confidence >= threshold
    {
      ReachedAboveThreshold(panel, threshold, i);
    }
  }

  /** The total distributes over a split of the criteria into two runs. */
  lemma {:induction false} ReachedPointsConcat(va: seq<Option<GradingResult>>, vb: seq<Option<GradingResult>>)
    ensures ReachedPoints(va + vb) == ReachedPoints(va) + ReachedPoints(vb)
  {
    if vb == [] {
      assert va + vb == va;
    } else {
      var vInit := vb[..|vb| - 1];
      ReachedPointsConcat(va, vInit);
      assert (va + vb)[..|va + vb| - 1] == va + vInit;
    }
  }

  /** The recorded confidences distribute over a split of the criteria into two runs. */
  lemma {:induction false} ReachedConfidencesConcat(va: seq<Option<GradingResult>>, vb: seq<Option<GradingResult>>)
    ensures ReachedConfidences(va + vb) == ReachedConfidences(va) + ReachedConfidences(vb)
  {
    if vb == [] {
      assert va + vb == va;
    } else {
      var vInit := vb[..|vb| - 1];
      ReachedConfidencesConcat(va, vInit);
      assert (va + vb)[..|va + vb| - 1] == va + vInit;
    }
  }

  /** The grades of a split run are the earlier run's grades overwritten by the later run's. */
  lemma {:induction false} GradesByNameConcat(ca: seq<GradingCriterion>, va: seq<Option<GradingResult>>,
                                              cb: seq<GradingCriterion>, vb: seq<Option<GradingResult>>)
    requires |ca| == |va| && |cb| == |vb|
    ensures GradesByName(ca + cb, va + vb) == GradesByName(ca, va) + GradesByName(cb, vb)
  {
    if vb == [] {
      assert va + vb == va && ca + cb == ca;
    } else {
      var cInit, vInit := cb[..|cb| - 1], vb[..|vb| - 1];
      GradesByNameConcat(ca, va, cInit, vInit);
      assert (va + vb)[..|va + vb| - 1] == va + vInit;
      assert (ca + cb)[..|ca + cb| - 1] == ca + cInit;
    }
  }

  /** A criterion without consensus is skipped, not scored zero: dropping it changes neither the total,
      nor the recorded confidences (so not the mean either), nor the criterion grades. */
  lemma NoConsensusIsSkipped(cs: seq<GradingCriterion>, vs: seq<Option<GradingResult>>, k: nat)
    requires |cs| == |vs| && k < |vs| && vs[k].None?
    ensures var cs', vs' := cs[..k] + cs[k + 1..], vs[..k] + vs[k + 1..];
      ReachedPoints(vs) == ReachedPoints(vs') &&
      ReachedConfidences(vs) == ReachedConfidences(vs') &&
      GradesByName(cs, vs) == GradesByName(cs', vs')
  {
    var ca, cb := cs[..k], cs[k + 1..];
    var va, vb := vs[..k], vs[k + 1..];
    assert cs == ca + [cs[k]] + cb && vs == va + [vs[k]] + vb;
    ReachedPointsConcat(va + [vs[k]], vb);
    ReachedConfidencesConcat(va + [vs[k]], vb);
    GradesByNameConcat(ca + [cs[k]], va + [vs[k]], cb, vb);
    ExtendVerdicts(ca, va, cs[k], vs[k], 0.0);
    ReachedPointsConcat(va, vb);
    ReachedConfidencesConcat(va, vb);
    GradesByNameConcat(ca, va, cb, vb);
  }

  /** The grades are keyed by exactly the names of the criteria that reached consensus. */
  lemma {:induction false} GradesKeys(cs: seq<GradingCriterion>, vs: seq<Option<GradingResult>>, name: string)
    requires |cs| == |vs|
    ensures name in GradesByName(cs, vs) <==> exists i :: 0 <= i < |vs| && vs[i].Some? && cs[i].name == name
  {
    if vs != [] {
      var cInit, vInit := cs[..|cs| - 1], vs[..|vs| - 1];
      GradesKeys(cInit, vInit, name);
      assert forall i :: 0 <= i < |vInit| ==> vInit[i] == vs[i] && cInit[i] == cs[i];
    }
  }

  /** Every graded name is the name of some criterion of the schema. */
  lemma GradesKeysAreCriterionNames(cs: seq<GradingCriterion>, vs: seq<Option<GradingResult>>)
    requires |cs| == |vs|
    ensures forall name :: name in GradesByName(cs, vs) ==> exists i :: 0 <= i < |cs| && cs[i].name == name
  {
    forall name | name in GradesByName(cs, vs)
      ensures exists i :: 0 <= i < |cs| && cs[i].name == name
    {
      GradesKeys(cs, vs, name);
    }
  }

  /** With distinct criterion names, each reached criterion's result is stored under its own name. */
  lemma {:induction false} GradesOfDistinctNames(cs: seq<GradingCriterion>, vs: seq<Option<GradingResult>>, i: nat)
    requires |cs| == |vs| && i < |vs| && vs[i].Some?
    requires forall j, k :: 0 <= j < k < |cs| ==> cs[j].name != cs[k].name
    ensures cs[i].name in GradesByName(cs, vs) && GradesByName(cs, vs)[cs[i].name] == vs[i].value
  {
    var cInit, vInit := cs[..|cs| - 1], vs[..|vs| - 1];
    if i < |vs| - 1 {
      GradesOfDistinctNames(cInit, vInit, i);
    }
  }

  lemma {:induction false} SumRealsAtLeast(xs: seq<real>, lo: real)
    requires forall i :: 0 <= i < |xs| ==> xs[i] >= lo
    ensures SumReals(xs) >= lo * |xs| as real
  {
    if xs != [] {
      SumRealsAtLeast(xs[..|xs| - 1], lo);
      assert lo * |xs| as real == lo * (|xs| - 1) as real + lo;
    }
  }

  /** A mean of values that all reach `lo` reaches `lo`; with nothing recorded the mean is 0. */
  lemma MeanOrZeroAtLeast(xs: seq<real>, lo: real)
    requires forall i :: 0 <= i < |xs| ==> xs[i] >= lo
    ensures xs == [] ==> MeanOrZero(xs) == 0.0
    ensures xs != [] ==> MeanOrZero(xs) >= lo
  {
    if xs != [] {
      SumRealsAtLeast(xs, lo);
      DivLower(SumReals(xs), |xs| as real, lo);
    }
  }

  /** Every recorded confidence is the confidence of a reached criterion. */
  lemma {:induction false} ReachedConfidencesFrom(vs: seq<Option<GradingResult>>, j: nat)
    requires j < |ReachedConfidences(vs)|
    ensures exists i :: 0 <= i < |vs| && vs[i].Some? && vs[i].value.confidence == ReachedConfidences(vs)[j]
  {
    var init := vs[..|vs| - 1];
    if j < |ReachedConfidences(init)| {
      ReachedConfidencesFrom(init, j);
      var i :| 0 <= i < |init| && init[i].Some? && init[i].value.confidence == ReachedConfidences(init)[j];
      assert vs[i] == init[i];
    } else {
      assert vs[|vs| - 1].Some?;
    }
  }

  /** The overall confidence is 0 when no criterion reached consensus, and otherwise at least the threshold. */
  lemma OverallConfidenceBounds(panel: seq<seq<Opinion>>, threshold: real)
    requires NoDivisionError(panel, threshold)
    ensures var xs := ReachedConfidences(Verdicts(panel, threshold));
      (xs == [] ==> MeanOrZero(xs) == 0.0) && (xs != [] ==> MeanOrZero(xs) >= threshold)
  {
    var vs := Verdicts(panel, threshold);
    var xs := ReachedConfidences(vs);
    forall j | 0 <= j < |xs|
      ensures xs[j] >= threshold
    {
      ReachedConfidencesFrom(vs, j);
      var i :| 0 <= i < |vs| && vs[i].Some? && vs[i].value.confidence == xs[j];
      ReachedAboveThreshold(panel, threshold, i);
    }
    MeanOrZeroAtLeast(xs, threshold);
  }

  /** Two criteria where the first reaches (30, 0.9) and the second has no consensus:
      review needed, 30 points, overall confidence 0.9. */
  lemma PartialConsensusExample(a: GradingCriterion, b: GradingCriterion, res: GradingResult)
    requires res.points == 30.0 && res.confidence == 0.9
    ensures ExpectedGrade([a, b], [Some(res), None], DefaultGrader.confidenceThreshold)
         == AssignmentGrade(30.0, map[a.name := res], 0.9, true)
  {
    var vs: seq<Option<GradingResult>> := [Some(res), None];
    var cs := [a, b];
    var v1, c1 := vs[..1], cs[..1];
    assert v1 == [Some(res)] && v1[..0] == [] && vs[..|vs| - 1] == v1;
    assert c1 == [a] && c1[..0] == [] && cs[..|cs| - 1] == c1;
    assert ReachedPoints(v1) == 30.0;
    assert ReachedConfidences(v1) == [0.9];
    assert ReachedConfidences(vs) == [0.9];
    assert SumReals([0.9]) == 0.9 by {
      assert [0.9][..0] == [];
    }
    assert GradesByName(c1, v1) == map[a.name := res];
  }

  /** With a positive confidence threshold (the default is 0.7) grading never raises the division error. */
  lemma {:induction false} PositiveThresholdGradingNeverFails(panel: seq<seq<Opinion>>, threshold: real)
    requires threshold > 0.0
    ensures NoDivisionError(panel, threshold)
  {
    if panel != [] {
      PositiveThresholdGradingNeverFails(panel[..|panel| - 1], threshold);
      Consensus.PositiveThresholdNeverFails(panel[|panel| - 1], threshold);
    }
  }
}
