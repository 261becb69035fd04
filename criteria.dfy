/** Rubric criteria and the schema that collects them (grading_app/grading/criteria.py). */
module Criteria {
  import opened Results

  /** One rubric dimension. The rubric maps a point label to its description; it is informational only. */
  datatype GradingCriterion = GradingCriterion(
    name: string,
    description: string,
    maxPoints: real,
    rubric: map<string, string>)

  /** The two ValueErrors the schema raises. */
  datatype SchemaError =
    | PointsOverflow                            // "Total points would exceed maximum"
    | PointsMismatch(total: real, expected: real) // "Total points (...) don't match expected total (...)"

  /** Sum of max points over a list of criteria, accumulated left to right as Python's sum does. */
  ghost function SumMaxPoints(cs: seq<GradingCriterion>): real
  {
    if cs == [] then 0.0 else SumMaxPoints(cs[..|cs| - 1]) + cs[|cs| - 1].maxPoints
  }

  lemma SumMaxPointsAppend(cs: seq<GradingCriterion>, c: GradingCriterion)
    ensures SumMaxPoints(cs + [c]) == SumMaxPoints(cs) + c.maxPoints
  {
    assert (cs + [c])[..|cs|] == cs;
  }

  class GradingSchema {
    const name: string
    const totalPoints: real
    var criteria: seq<GradingCriterion>

    /** Building-phase invariant: every successful insertion left the running sum at most the total,
        so every non-empty prefix of the criteria fits under totalPoints. */
    ghost predicate WithinTotal()
      reads this
    {
      forall k :: 0 < k <= |criteria| ==> SumMaxPoints(criteria[..k]) <= totalPoints
    }

    /** A schema starts with no criteria. */
    constructor (name: string, totalPoints: real)
      ensures this.name == name && this.totalPoints == totalPoints
      ensures criteria == []
      ensures WithinTotal()
    {
      this.name := name;
      this.totalPoints := totalPoints;
      criteria := [];
    }

    /** The running sum of max points (the generator expression summed by add_criterion and validate). */
    method MaxPointsTotal() returns (total: real)
      ensures total == SumMaxPoints(criteria)
    {
      total := 0.0;
      var i := 0;
      while i < |criteria|
        invariant 0 <= i <= |criteria|
        invariant total == SumMaxPoints(criteria[..i])
      {
        assert criteria[..i + 1][..i] == criteria[..i];
        total := total + criteria[i].maxPoints;
        i := i + 1;
      }
      assert criteria[..i] == criteria;
    }

    /** Appends the criterion unless the sum of max points would exceed the total, in which case
        it fails and the criteria are left as they were. */
    method AddCriterion(criterion: GradingCriterion) returns (r: Outcome<SchemaError>)
      modifies this
      ensures r.Pass? <==> SumMaxPoints(old(criteria)) + criterion.maxPoints <= totalPoints
      ensures r.Fail? ==> r.error == PointsOverflow && criteria == old(criteria)
      ensures r.Pass? ==> criteria == old(criteria) + [criterion]
      ensures r.Pass? ==> SumMaxPoints(criteria) <= totalPoints
      ensures old(WithinTotal()) ==> WithinTotal()
    {
      var currentTotal := MaxPointsTotal();
      if currentTotal + criterion.maxPoints > totalPoints {
        return Fail(PointsOverflow);
      }
      ghost var before := criteria;
      criteria := criteria + [criterion];
      SumMaxPointsAppend(before, criterion);
      assert criteria[..|criteria|] == criteria;
      forall k | 0 < k <= |before|
        ensures criteria[..k] == before[..k]
      {
      }
      r := Pass;
    }

    /** Accepts exactly when the max points add up to the total; otherwise reports both sums.
        Reads the schema only. */
    method Validate() returns (r: Outcome<SchemaError>)
      ensures r.Pass? <==> SumMaxPoints(criteria) == totalPoints
      ensures r.Fail? ==> r.error == PointsMismatch(SumMaxPoints(criteria), totalPoints)
    {
      var total := MaxPointsTotal();
      if total != totalPoints {
        return Fail(PointsMismatch(total, totalPoints));
      }
      r := Pass;
    }
  }

  /** A freshly constructed schema validates exactly when its total is zero. */
  method FreshSchemaValidates(name: string, totalPoints: real) returns (valid: bool)
    ensures valid <==> totalPoints == 0.0
  {
    var schema := new GradingSchema(name, totalPoints);
    var r := schema.Validate();
    valid := r.Pass?;
  }
}
