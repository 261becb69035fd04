/** Consensus reconciliation of several scoring agents' opinions on one criterion
    (ConsensusGrader.grade_with_consensus in src/models/ai_models.py). */
module Consensus {
  import opened Results

  /** One agent's answer for one criterion (a GradingResult as parsed from the agent's output). */
  datatype Opinion = Opinion(points: real, explanation: string, confidence: real)

  /** One line of the combined explanation: "Model <modelNumber> (<confidence> confidence): <text>". */
  datatype ExplanationEntry = ExplanationEntry(modelNumber: nat, confidence: real, text: string)

  /** The reconciled GradingResult of one criterion. */
  datatype GradingResult = GradingResult(points: real, explanation: seq<ExplanationEntry>, confidence: real)

  /** The ZeroDivisionError raised when the surviving confidences sum to zero. */
  datatype ConsensusError = ZeroTotalWeight

  const DefaultMinConfidence: real := 0.7

  // ---------------------------------------------------------------------------
  // Rounding to two decimal places

  /** Nearest integer, ties to the even neighbour (Python's round). */
  function RoundHalfEven(y: real): (n: int)
    ensures n as real - 0.5 <= y <= n as real + 0.5
  {
    var f := y.Floor;
    var d := y - f as real;
    if d < 0.5 then f
    else if d > 0.5 then f + 1
    else if f % 2 == 0 then f
    else f + 1
  }

  /** round(x, 2) on exact reals. */
  function Round2(x: real): (r: real)
    ensures x - 0.005 <= r <= x + 0.005
  {
    RoundHalfEven(x * 100.0) as real / 100.0
  }

  /** A value that already has at most two decimals is left alone by rounding. */
  lemma Round2Cents(k: int)
    ensures Round2(k as real / 100.0) == k as real / 100.0
  {
    assert (k as real / 100.0) * 100.0 == k as real;
  }

  // ---------------------------------------------------------------------------
  // Filtering

  /** The opinions whose confidence reaches the threshold, in input order
      (the loop that appends to `results`). */
  function Survivors(ops: seq<Opinion>, minConfidence: real): (s: seq<Opinion>)
    ensures |s| <= |ops|
    ensures forall i :: 0 <= i < |s| ==> s[i].confidence >= minConfidence
  {
    if ops == [] then []
    else
      var last := ops[|ops| - 1];
      Survivors(ops[..|ops| - 1], minConfidence) + (if last.confidence >= minConfidence then [last] else [])
  }

  /** The threshold is inclusive, and an opinion survives exactly when it reaches it. */
  lemma {:induction false} SurvivorsMembership(ops: seq<Opinion>, minConfidence: real, o: Opinion)
    ensures o in Survivors(ops, minConfidence) <==> o in ops && o.confidence >= minConfidence
  {
    if ops != [] {
      var init := ops[..|ops| - 1];
      SurvivorsMembership(init, minConfidence, o);
      assert ops == init + [ops[|ops| - 1]];
    }
  }

  /** Filtering distributes over concatenation: survivors keep their relative input order. */
  lemma {:induction false} SurvivorsConcat(a: seq<Opinion>, b: seq<Opinion>, minConfidence: real)
    ensures Survivors(a + b, minConfidence) == Survivors(a, minConfidence) + Survivors(b, minConfidence)
  {
    if b == [] {
      assert a + b == a;
    } else {
      var init := b[..|b| - 1];
      SurvivorsConcat(a, init, minConfidence);
      assert (a + b)[..|a + b| - 1] == a + init;
    }
  }

  /** Nobody survives exactly when every opinion is below the threshold. */
  lemma {:induction false} SurvivorsEmpty(ops: seq<Opinion>, minConfidence: real)
    ensures Survivors(ops, minConfidence) == [] <==> forall i :: 0 <= i < |ops| ==> ops[i].confidence < minConfidence
  {
    if ops != [] {
      var init := ops[..|ops| - 1];
      SurvivorsEmpty(init, minConfidence);
      assert forall i :: 0 <= i < |init| ==> init[i] == ops[i];
    }
  }

  // ---------------------------------------------------------------------------
  // Sums and averages over the survivors

  /** Sum of confidences (total_weight). */
  function TotalWeight(s: seq<Opinion>): real
  {
    if s == [] then 0.0 else TotalWeight(s[..|s| - 1]) + s[|s| - 1].confidence
  }

  /** Sum of points times confidence. */
  function WeightedSum(s: seq<Opinion>): real
  {
    if s == [] then 0.0 else WeightedSum(s[..|s| - 1]) + s[|s| - 1].points * s[|s| - 1].confidence
  }

  /** Confidence-weighted average of points, before rounding. */
  function WeightedPoints(s: seq<Opinion>): real
    requires TotalWeight(s) != 0.0
  {
    WeightedSum(s) / TotalWeight(s)
  }

  /** Unweighted mean of the confidences. */
  function AverageConfidence(s: seq<Opinion>): real
    requires s != []
  {
    TotalWeight(s) / |s| as real
  }

  /** The labelled explanations, built by enumerate in survivor order. */
  function CombinedExplanation(s: seq<Opinion>): seq<ExplanationEntry>
  {
    if s == [] then []
    else
      var last := s[|s| - 1];
      CombinedExplanation(s[..|s| - 1]) + [ExplanationEntry(|s|, last.confidence, last.explanation)]
  }

  /** One entry per survivor, labelled 1..n in order, carrying that survivor's confidence and text. */
  lemma {:induction false} CombinedExplanationEntries(s: seq<Opinion>)
    ensures |CombinedExplanation(s)| == |s|
    ensures forall i :: 0 <= i < |s| ==>
      CombinedExplanation(s)[i] == ExplanationEntry(i + 1, s[i].confidence, s[i].explanation)
  {
    if s != [] {
      CombinedExplanationEntries(s[..|s| - 1]);
    }
  }

  function MinPoints(s: seq<Opinion>): (lo: real)
    requires s != []
    ensures forall i :: 0 <= i < |s| ==> lo <= s[i].points
    ensures exists i :: 0 <= i < |s| && s[i].points == lo
  {
    if |s| == 1 then s[0].points
    else
      var m := MinPoints(s[..|s| - 1]);
      if s[|s| - 1].points < m then s[|s| - 1].points else m
  }

  function MaxPoints(s: seq<Opinion>): (hi: real)
    requires s != []
    ensures forall i :: 0 <= i < |s| ==> s[i].points <= hi
    ensures exists i :: 0 <= i < |s| && s[i].points == hi
  {
    if |s| == 1 then s[0].points
    else
      var m := MaxPoints(s[..|s| - 1]);
      if s[|s| - 1].points > m then s[|s| - 1].points else m
  }

  function MaxConfidence(s: seq<Opinion>): (hi: real)
    requires s != []
    ensures forall i :: 0 <= i < |s| ==> s[i].confidence <= hi
    ensures exists i :: 0 <= i < |s| && s[i].confidence == hi
  {
    if |s| == 1 then s[0].confidence
    else
      var m := MaxConfidence(s[..|s| - 1]);
      if s[|s| - 1].confidence > m then s[|s| - 1].confidence else m
  }

  // ---------------------------------------------------------------------------
  // The reconciliation

  /** None when nothing survives, the division error when the surviving weights sum to zero,
      and otherwise the rounded weighted points, the labelled explanations and the mean confidence. */
  function ConsensusOf(ops: seq<Opinion>, minConfidence: real): Result<Option<GradingResult>, ConsensusError>
  {
    var s := Survivors(ops, minConfidence);
    if s == [] then Success(None)
    else if TotalWeight(s) == 0.0 then Failure(ZeroTotalWeight)
    else Success(Some(GradingResult(Round2(WeightedPoints(s)), CombinedExplanation(s), AverageConfidence(s))))
  }

  /** grade_with_consensus, with the agents' answers given as `opinions` in agent order. */
  method GradeWithConsensus(opinions: seq<Opinion>, minConfidence: real)
    returns (r: Result<Option<GradingResult>, ConsensusError>)
    ensures r == ConsensusOf(opinions, minConfidence)
  {
    var results: seq<Opinion> := [];
    var i := 0;
    while i < |opinions|
      invariant 0 <= i <= |opinions|
      invariant results == Survivors(opinions[..i], minConfidence)
    {
      assert opinions[..i + 1][..i] == opinions[..i];
      if opinions[i].confidence >= minConfidence {
        results := results + [opinions[i]];
      }
      i := i + 1;
    }
    assert opinions[..i] == opinions;
    if results == [] {
      return Success(None);
    }
    var totalWeight := TotalWeight(results);
    if totalWeight == 0.0 {
      return Failure(ZeroTotalWeight);
    }
    var weightedPoints := WeightedSum(results) / totalWeight;
    var combined := CombinedExplanation(results);
    var avgConfidence := TotalWeight(results) / |results| as real;
    r := Success(Some(GradingResult(Round2(weightedPoints), combined, avgConfidence)));
  }

  // ---------------------------------------------------------------------------
  // Properties of the reconciliation

  /** No consensus exactly when every opinion is below the (inclusive) threshold. */
  lemma NoConsensusIff(ops: seq<Opinion>, minConfidence: real)
    ensures ConsensusOf(ops, minConfidence) == Success(None)
        <==> forall i :: 0 <= i < |ops| ==> ops[i].confidence < minConfidence
  {
    SurvivorsEmpty(ops, minConfidence);
  }

  /** Every opinion at least `w` confident gives a total weight of at least w per opinion. */
  lemma {:induction false} TotalWeightAtLeast(s: seq<Opinion>, w: real)
    requires forall i :: 0 <= i < |s| ==> s[i].confidence >= w
    ensures TotalWeight(s) >= w * |s| as real
  {
    if s != [] {
      TotalWeightAtLeast(s[..|s| - 1], w);
      assert w * |s| as real == w * (|s| - 1) as real + w;
    }
  }

  lemma {:induction false} TotalWeightAtMost(s: seq<Opinion>, w: real)
    requires forall i :: 0 <= i < |s| ==> s[i].confidence <= w
    ensures TotalWeight(s) <= w * |s| as real
  {
    if s != [] {
      TotalWeightAtMost(s[..|s| - 1], w);
      assert w * |s| as real == w * (|s| - 1) as real + w;
    }
  }

  /** With a positive threshold the surviving weights sum to a positive number,
      so the division never fails. */
  lemma PositiveThresholdNeverFails(ops: seq<Opinion>, minConfidence: real)
    requires minConfidence > 0.0
    ensures Survivors(ops, minConfidence) != [] ==> TotalWeight(Survivors(ops, minConfidence)) > 0.0
    ensures ConsensusOf(ops, minConfidence).Success?
  {
    var s := Survivors(ops, minConfidence);
    TotalWeightAtLeast(s, minConfidence);
    if s != [] {
      assert minConfidence * |s| as real > 0.0 by {
        MulPositive(minConfidence, |s| as real);
      }
    }
  }

  lemma MulPositive(a: real, b: real)
    requires a > 0.0 && b > 0.0
    ensures a * b > 0.0
  {
  }

  lemma MulMonotone(a: real, b: real, c: real)
    requires a <= b && c >= 0.0
    ensures a * c <= b * c
  {
    assert b * c - a * c == (b - a) * c;
  }

  lemma Distribute(a: real, b: real, c: real)
    ensures a * (b + c) == a * b + a * c
  {
  }

  /** One step of the weighted-sum induction, on plain numbers: adding an opinion (p, c) with
      c >= 0 and a bound on p keeps the bound on the running sums. */
  lemma WeightedStepAtLeast(lo: real, w: real, x: real, p: real, c: real)
    requires lo * w <= x && lo <= p && c >= 0.0
    ensures lo * (w + c) <= x + p * c
  {
    MulMonotone(lo, p, c);
    Distribute(lo, w, c);
  }

  lemma WeightedStepAtMost(hi: real, w: real, x: real, p: real, c: real)
    requires x <= hi * w && p <= hi && c >= 0.0
    ensures x + p * c <= hi * (w + c)
  {
    MulMonotone(p, hi, c);
    Distribute(hi, w, c);
  }

  /** With non-negative weights, the weighted sum is at least lo times the total weight. */
  lemma {:induction false} WeightedSumAtLeast(s: seq<Opinion>, lo: real)
    requires forall i :: 0 <= i < |s| ==> s[i].confidence >= 0.0 && lo <= s[i].points
    ensures lo * TotalWeight(s) <= WeightedSum(s)
  {
    if s == [] {
      assert lo * 0.0 == 0.0;
    } else {
      var init := s[..|s| - 1];
      WeightedSumAtLeast(init, lo);
      WeightedStepAtLeast(lo, TotalWeight(init), WeightedSum(init), s[|s| - 1].points, s[|s| - 1].confidence);
    }
  }

  /** With non-negative weights, the weighted sum is at most hi times the total weight. */
  lemma {:induction false} WeightedSumAtMost(s: seq<Opinion>, hi: real)
    requires forall i :: 0 <= i < |s| ==> s[i].confidence >= 0.0 && s[i].points <= hi
    ensures WeightedSum(s) <= hi * TotalWeight(s)
  {
    if s == [] {
      assert hi * 0.0 == 0.0;
    } else {
      var init := s[..|s| - 1];
      WeightedSumAtMost(init, hi);
      WeightedStepAtMost(hi, TotalWeight(init), WeightedSum(init), s[|s| - 1].points, s[|s| - 1].confidence);
    }
  }

  /** Positive weights have a positive sum. */
  lemma {:induction false} TotalWeightPositive(s: seq<Opinion>)
    requires s != []
    requires forall i :: 0 <= i < |s| ==> s[i].confidence > 0.0
    ensures TotalWeight(s) > 0.0
  {
    if |s| > 1 {
      TotalWeightPositive(s[..|s| - 1]);
    }
  }

  /** With positive weights, the weighted average is at least any lower bound on the points. */
  lemma WeightedPointsAtLeast(s: seq<Opinion>, lo: real)
    requires s != []
    requires forall i :: 0 <= i < |s| ==> s[i].confidence > 0.0 && lo <= s[i].points
    ensures TotalWeight(s) > 0.0 && lo <= WeightedPoints(s)
  {
    TotalWeightPositive(s);
    WeightedSumAtLeast(s, lo);
    DivLower(WeightedSum(s), TotalWeight(s), lo);
  }

  /** With positive weights, the weighted average is at most any upper bound on the points. */
  lemma WeightedPointsAtMost(s: seq<Opinion>, hi: real)
    requires s != []
    requires forall i :: 0 <= i < |s| ==> s[i].confidence > 0.0 && s[i].points <= hi
    ensures TotalWeight(s) > 0.0 && WeightedPoints(s) <= hi
  {
    TotalWeightPositive(s);
    WeightedSumAtMost(s, hi);
    DivUpper(WeightedSum(s), TotalWeight(s), hi);
  }

  /** Before rounding, the consensus points lie between the smallest and the largest surviving points;
      after rounding they are within half a hundredth of that value. */
  lemma ConsensusPointsBetweenSurvivors(ops: seq<Opinion>, minConfidence: real, r: GradingResult)
    requires minConfidence > 0.0
    requires ConsensusOf(ops, minConfidence) == Success(Some(r))
    ensures var s := Survivors(ops, minConfidence);
      s != [] && TotalWeight(s) > 0.0 &&
      MinPoints(s) <= WeightedPoints(s) <= MaxPoints(s) &&
      r.points == Round2(WeightedPoints(s)) &&
      WeightedPoints(s) - 0.005 <= r.points <= WeightedPoints(s) + 0.005
  {
    var s := Survivors(ops, minConfidence);
    WeightedPointsAtLeast(s, MinPoints(s));
    WeightedPointsAtMost(s, MaxPoints(s));
  }

  /** If every surviving opinion respects [0, maxPoints], so does the unrounded consensus. */
  lemma ConsensusPointsInRange(ops: seq<Opinion>, minConfidence: real, maxPoints: real)
    requires minConfidence > 0.0
    requires forall i :: 0 <= i < |ops| && ops[i].confidence >= minConfidence ==> 0.0 <= ops[i].points <= maxPoints
    requires Survivors(ops, minConfidence) != []
    ensures var s := Survivors(ops, minConfidence); TotalWeight(s) > 0.0 && 0.0 <= WeightedPoints(s) <= maxPoints
  {
    var s := Survivors(ops, minConfidence);
    forall i | 0 <= i < |s|
      ensures 0.0 <= s[i].points <= maxPoints
    {
      SurvivorsMembership(ops, minConfidence, s[i]);
    }
    WeightedPointsAtLeast(s, 0.0);
    WeightedPointsAtMost(s, maxPoints);
  }

  /** The consensus confidence is the plain mean of the surviving confidences: at least the threshold
      and at most the largest of them. */
  lemma ConsensusConfidenceBounds(ops: seq<Opinion>, minConfidence: real, r: GradingResult)
    requires ConsensusOf(ops, minConfidence) == Success(Some(r))
    ensures var s := Survivors(ops, minConfidence);
      s != [] && r.confidence == AverageConfidence(s) &&
      minConfidence <= r.confidence <= MaxConfidence(s)
  {
    AverageConfidenceBounds(Survivors(ops, minConfidence), minConfidence);
  }

  /** A mean of confidences that all reach `lo` reaches `lo`, and never exceeds the largest of them. */
  lemma AverageConfidenceBounds(s: seq<Opinion>, lo: real)
    requires s != []
    requires forall i :: 0 <= i < |s| ==> s[i].confidence >= lo
    ensures lo <= AverageConfidence(s) <= MaxConfidence(s)
  {
    AverageConfidenceAtLeast(s, lo);
    AverageConfidenceAtMost(s, MaxConfidence(s));
  }

  lemma AverageConfidenceAtLeast(s: seq<Opinion>, lo: real)
    requires s != []
    requires forall i :: 0 <= i < |s| ==> s[i].confidence >= lo
    ensures lo <= AverageConfidence(s)
  {
    TotalWeightAtLeast(s, lo);
    DivLower(TotalWeight(s), |s| as real, lo);
  }

  lemma AverageConfidenceAtMost(s: seq<Opinion>, hi: real)
    requires s != []
    requires forall i :: 0 <= i < |s| ==> s[i].confidence <= hi
    ensures AverageConfidence(s) <= hi
  {
    TotalWeightAtMost(s, hi);
    DivUpper(TotalWeight(s), |s| as real, hi);
  }

  lemma DivLower(x: real, w: real, lo: real)
    requires w > 0.0 && lo * w <= x
    ensures lo <= x / w
  {
    assert (x / w - lo) * w == x - lo * w;
  }

  lemma DivUpper(x: real, w: real, hi: real)
    requires w > 0.0 && x <= hi * w
    ensures x / w <= hi
  {
    assert (hi - x / w) * w == hi * w - x;
  }

  /** The combined explanation has one entry per survivor, numbered from 1 in survivor order. */
  lemma ConsensusExplanation(ops: seq<Opinion>, minConfidence: real, r: GradingResult)
    requires ConsensusOf(ops, minConfidence) == Success(Some(r))
    ensures var s := Survivors(ops, minConfidence);
      |r.explanation| == |s| &&
      forall i :: 0 <= i < |s| ==>
        r.explanation[i] == ExplanationEntry(i + 1, s[i].confidence, s[i].explanation)
  {
    CombinedExplanationEntries(Survivors(ops, minConfidence));
  }

  /** A single surviving opinion passes through: its own points (then rounded) and its own confidence. */
  lemma SingleSurvivor(ops: seq<Opinion>, minConfidence: real, o: Opinion)
    requires Survivors(ops, minConfidence) == [o]
    requires o.confidence != 0.0
    ensures WeightedPoints([o]) == o.points
    ensures ConsensusOf(ops, minConfidence)
         == Success(Some(GradingResult(Round2(o.points), [ExplanationEntry(1, o.confidence, o.explanation)], o.confidence)))
  {
    assert [o][..0] == [];
    assert TotalWeight([o]) == o.confidence;
    assert WeightedSum([o]) == o.points * o.confidence;
    CancelWeight(o.points, o.confidence);
    assert CombinedExplanation([o]) == [ExplanationEntry(1, o.confidence, o.explanation)];
    assert AverageConfidence([o]) == o.confidence;
  }

  lemma CancelWeight(p: real, c: real)
    requires c != 0.0
    ensures p * c / c == p
  {
  }

  /** The two-opinion example: (80, 0.9) and (60, 0.5) reconcile to 72.86 points with confidence 0.70. */
  lemma TwoOpinionExample()
    ensures ConsensusOf([Opinion(80.0, "a", 0.9), Opinion(60.0, "b", 0.5)], 0.5)
         == Success(Some(GradingResult(72.86, [ExplanationEntry(1, 0.9, "a"), ExplanationEntry(2, 0.5, "b")], 0.7)))
  {
    var ops := [Opinion(80.0, "a", 0.9), Opinion(60.0, "b", 0.5)];
    ExampleSums(ops);
    ExampleRounding();
    CombinedExplanationEntries(ops);
    assert CombinedExplanation(ops) == [ExplanationEntry(1, 0.9, "a"), ExplanationEntry(2, 0.5, "b")];
    assert AverageConfidence(ops) == 1.4 / 2.0;
    assert WeightedPoints(ops) == 102.0 / 1.4;
  }

  lemma ExampleSums(ops: seq<Opinion>)
    requires ops == [Opinion(80.0, "a", 0.9), Opinion(60.0, "b", 0.5)]
    ensures Survivors(ops, 0.5) == ops && TotalWeight(ops) == 1.4 && WeightedSum(ops) == 102.0
  {
    var first := ops[..1];
    assert first == [ops[0]] && first[..0] == [];
    assert Survivors(first, 0.5) == first && TotalWeight(first) == 0.9 && WeightedSum(first) == 72.0;
    assert ops[..|ops| - 1] == first;
  }

  /** 102 / 1.4 = 72.857... rounds to 72.86. */
  lemma ExampleRounding()
    ensures Round2(102.0 / 1.4) == 72.86
  {
    assert 102.0 / 1.4 * 100.0 == 51000.0 / 7.0;
    RoundsUp(51000.0 / 7.0, 7285);
  }

  lemma RoundsUp(y: real, f: int)
    requires f as real <= y < f as real + 1.0 && y - f as real > 0.5
    ensures RoundHalfEven(y) == f + 1
  {
    assert y.Floor == f;
  }

  /** A lone opinion of (50, 0.8) passes through as (50, 0.8). */
  lemma SingleOpinionExample()
    ensures ConsensusOf([Opinion(50.0, "a", 0.8)], DefaultMinConfidence)
         == Success(Some(GradingResult(50.0, [ExplanationEntry(1, 0.8, "a")], 0.8)))
  {
    var o := Opinion(50.0, "a", 0.8);
    assert [o][..0] == [];
    SingleSurvivor([o], DefaultMinConfidence, o);
    Round2Cents(5000);
  }

  /** The same two opinions at the default minimum 0.7: the 0.5-confident one is dropped, and the
      consensus is the first opinion's (80, 0.9). */
  lemma TwoOpinionDefaultExample()
    ensures ConsensusOf([Opinion(80.0, "a", 0.9), Opinion(60.0, "b", 0.5)], DefaultMinConfidence)
         == Success(Some(GradingResult(80.0, [ExplanationEntry(1, 0.9, "a")], 0.9)))
  {
    var o := Opinion(80.0, "a", 0.9);
    var ops := [o, Opinion(60.0, "b", 0.5)];
    assert ops[..1] == [o] && [o][..0] == [];
    assert ops[..|ops| - 1] == [o];
    assert Survivors(ops, DefaultMinConfidence) == [o];
    SingleSurvivor(ops, DefaultMinConfidence, o);
    Round2Cents(8000);
  }
}
