/** The stand-in schema source used until schemas come from a database
    (load_grading_schema in src/grading/schema_loader.py). */
module SchemaLoader {
  import opened Criteria

  /** The two sample criteria, in the order they are added: 40 points for understanding,
      60 for implementation, each rubric labelled from full marks down to zero. */
  function MockCriteria(): (cs: seq<GradingCriterion>)
    ensures |cs| == 2
  {
    [ GradingCriterion(
        "Understanding",
        "Demonstrates understanding of core concepts",
        40.0,
        map["40" := "Excellent understanding",
            "30" := "Good understanding",
            "20" := "Fair understanding",
            "10" := "Limited understanding",
            "0" := "No understanding shown"]),
      GradingCriterion(
        "Implementation",
        "Quality of implementation",
        60.0,
        map["60" := "Excellent implementation",
            "45" := "Good implementation",
            "30" := "Fair implementation",
            "15" := "Poor implementation",
            "0" := "No implementation"]) ]
  }

  const MockTotalPoints: real := 100.0

  /** The running sums of the sample criteria: 0 before the first, 40 after it, 100 after both. */
  lemma MockPrefixSums()
    ensures SumMaxPoints(MockCriteria()[..0]) == 0.0
    ensures SumMaxPoints(MockCriteria()[..1]) == 40.0
    ensures SumMaxPoints(MockCriteria()) == MockTotalPoints
  {
    var cs := MockCriteria();
    assert cs[..0] == [];
    assert cs[..1][..0] == [];
    assert cs[..|cs| - 1] == cs[..1];
  }

  /** Each sample criterion fits under the total on top of the ones added before it. */
  lemma MockStepFits(i: nat)
    requires i < |MockCriteria()|
    ensures SumMaxPoints(MockCriteria()[..i]) + MockCriteria()[i].maxPoints <= MockTotalPoints
  {
    MockPrefixSums();
  }

  /** load_grading_schema: a new schema named after the assignment, worth 100 points, holding the
      two sample criteria; neither insertion overflows, and the points add up exactly. */
  method LoadGradingSchema(assignmentId: string) returns (schema: GradingSchema)
    ensures fresh(schema)
    ensures schema.name == "Assignment " + assignmentId
    ensures schema.totalPoints == MockTotalPoints
    ensures schema.criteria == MockCriteria()
    ensures schema.WithinTotal()
    ensures SumMaxPoints(schema.criteria) == schema.totalPoints
  {
    schema := new GradingSchema("Assignment " + assignmentId, MockTotalPoints);
    var criteria := MockCriteria();
    var i := 0;
    while i < |criteria|
      invariant 0 <= i <= |criteria|
      invariant fresh(schema)
      invariant schema.name == "Assignment " + assignmentId && schema.totalPoints == MockTotalPoints
      invariant schema.criteria == criteria[..i]
      invariant schema.WithinTotal()
    {
      MockStepFits(i);
      var r := schema.AddCriterion(criteria[i]);
      assert r.Pass?;
      assert criteria[..i + 1] == criteria[..i] + [criteria[i]];
      i := i + 1;
    }
    assert criteria[..i] == criteria;
    MockPrefixSums();
  }

  /** The loaded schema passes validation, whatever the assignment. */
  method LoadedSchemaValidates(assignmentId: string) returns (valid: bool)
    ensures valid
  {
    var schema := LoadGradingSchema(assignmentId);
    var r := schema.Validate();
    valid := r.Pass?;
  }

  /** Each sample rubric has a label for full marks and one for zero, and the two criteria have
      different names (so neither overwrites the other in an assignment grade). */
  lemma MockRubricsSpanRange()
    ensures forall c :: c in MockCriteria() ==> "0" in c.rubric
    ensures MockCriteria()[0].maxPoints == 40.0 && "40" in MockCriteria()[0].rubric
    ensures MockCriteria()[1].maxPoints == 60.0 && "60" in MockCriteria()[1].rubric
    ensures MockCriteria()[0].name != MockCriteria()[1].name
  {
    assert MockCriteria()[0].name[0] != MockCriteria()[1].name[0];
  }
}
