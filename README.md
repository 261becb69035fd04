# Consensus grading pipeline — a Dafny model

This project models the scoring core of an assignment grading service. Several automated scoring
agents each give an opinion on every rubric criterion of a submission. The service reconciles those
opinions into one grade per criterion, adds the criteria up into an assignment grade, and places
doubtful grades in a queue for human review.

The model covers five pieces:

- **Rubric schema** (`criteria.dfy`, module `Criteria`). `GradingSchema` is a class whose criteria
  list grows in place.
  - `AddCriterion` refuses a criterion that would push the sum of max points over the total.
  - `Validate` accepts exactly when the sum equals the total.
  - The class keeps the building-phase invariant that every prefix of the criteria fits under the
    total.
- **Consensus** (`consensus.dfy`, module `Consensus`). `GradeWithConsensus` filters the agents'
  opinions with a loop, keeping those whose confidence is at least the minimum (the bound is
  inclusive). It is proved equal to the reference function `ConsensusOf`:
  - no survivors gives no consensus (`None`);
  - surviving confidences that sum to zero give the division error;
  - otherwise the result is the confidence-weighted mean of the points rounded to two decimals, one
    labelled explanation per survivor, and the plain mean of the survivors' confidences.

  Lemmas prove the following:
  - no consensus holds exactly when every confidence is below the minimum;
  - a positive minimum never raises the division error;
  - the weighted mean lies between the smallest and largest surviving points;
  - the consensus confidence lies between the minimum and the largest surviving confidence;
  - a single survivor passes through, its points rounded to two decimals;
  - the worked example (80, 0.9) and (60, 0.5) gives 72.86 and 0.7 at minimum confidence 0.5;
  - at the default minimum 0.7, which every call site uses, the same two opinions give 80 and 0.9,
    because the second one is dropped.
- **Assignment grading** (`grader.dfy`, module `Grader`). `GradeAssignment` walks the schema's
  criteria with the four accumulators of the source: the grades by name, the total, the recorded
  confidences and the review flag. It is proved equal to `ExpectedGrade`, a fold over the
  per-criterion verdicts. Lemmas prove the following:
  - a criterion without consensus is skipped, not scored zero;
  - the grades are keyed by exactly the names of the reached criteria;
  - the overall confidence is 0 or at least the threshold.

  AssignmentGrader passes its own confidence threshold to the consensus as the minimum, so on exact
  reals every recorded consensus confidence already reaches the threshold. On exact reals the
  low-confidence check (src/grading/grader.py:63-64) therefore never fires, and a review is needed
  exactly when some criterion had no consensus (`NeedsReviewIffMissingConsensus`). In floating
  point the mean of several confidences equal to the threshold can land just below it: three
  agents at 0.7 give 0.6999999999999998. Then the check fires.
- **Schema loading** (`schema_loader.dfy`, module `SchemaLoader`). The stand-in loader builds a
  100-point schema from two sample criteria worth 40 and 60 points. It is proved to do the following:
  - neither insertion overflows;
  - the loaded schema validates, for every assignment id.
- **Review queue** (`review_api.dfy`, module `ReviewApi`). The two in-memory stores of the web layer
  are the fields of the `ReviewQueue` class: the flagged submissions and the grade adjustment log.
  - Grading a submission that needs review stores it under the next id `sub_{n+1}`.
  - A review of a known id logs the adjustment and marks that entry alone as reviewed.
  - A review of an unknown id is a 404 that changes nothing.
  - The statistics are derived from the two stores.

  The class invariant `Valid` has four parts:
  - the ids are exactly `sub_1` .. `sub_n`, so a new entry never overwrites one;
  - each stored entry's `submission_id` equals the id it is stored under;
  - every adjustment names a flagged submission;
  - every reviewed submission has a logged adjustment.

  From it follows `total_reviewed <= total_flagged`, `total_reviewed <= total_adjustments` and a
  completion rate in [0, 1].

`results.dfy` holds the `Option`, `Result` and `Outcome` wrappers used for the source's `None`,
exceptions and HTTP errors.

Points and confidences are exact reals. Python's `round(x, 2)` is modelled as round-half-even to
hundredths on the exact value. It is stated through the bound `|Round2(x) - x| <= 0.005`, and through
`Round2Cents`: a value already in whole hundredths is left unchanged.

`round(weighted_points, 2)` (src/models/ai_models.py:123) applies even to a single survivor, so
`SingleSurvivor` gives `Round2(p)` as the points, not `p`.

## Model

| member | source | states |
|---|---|---|
| Criteria.GradingSchema.constructor | grading_app/grading/criteria.py:15-18 | a new schema has the given name and total, no criteria, and satisfies the building-phase invariant |
| Criteria.GradingSchema.MaxPointsTotal | grading_app/grading/criteria.py:22 | the loop's running total equals the sum of the criteria's max points |
| Criteria.GradingSchema.AddCriterion | grading_app/grading/criteria.py:20-25 | succeeds iff the current sum plus the new max points is at most the total; on success the criterion is appended and the sum stays within the total; on failure the error is "would exceed maximum" and the criteria are unchanged; every prefix keeps fitting under the total |
| Criteria.GradingSchema.Validate | grading_app/grading/criteria.py:27-37 | passes iff the sum of max points equals the total; otherwise reports both the sum and the expected total |
| Criteria.FreshSchemaValidates | grading_app/grading/criteria.py:15-37 | a schema with no criteria validates iff its total is zero |
| Consensus.RoundHalfEven | src/models/ai_models.py:123 | the chosen integer is within one half of the input |
| Consensus.Round2 | src/models/ai_models.py:123 | rounding to two decimals moves the value by at most 0.005 |
| Consensus.Round2Cents | src/models/ai_models.py:123 | a value already in whole hundredths is left unchanged by rounding |
| Consensus.Survivors | src/models/ai_models.py:100-104 | the kept opinions are no more than the given ones and each reaches the minimum confidence |
| Consensus.SurvivorsMembership | src/models/ai_models.py:100-104 | an opinion is kept iff it was given and its confidence is at least the minimum (inclusive bound) |
| Consensus.SurvivorsConcat | src/models/ai_models.py:100-104 | filtering keeps the agents' order: filtering two runs of opinions is filtering each in turn |
| Consensus.SurvivorsEmpty | src/models/ai_models.py:100-106 | nothing survives iff every confidence is below the minimum |
| Consensus.CombinedExplanationEntries | src/models/ai_models.py:114-117 | one explanation entry per survivor, numbered from 1 in survivor order, with that survivor's confidence and text |
| Consensus.GradeWithConsensus | src/models/ai_models.py:83-126 | the filter loop and the arithmetic compute exactly the reference consensus: None, the division error, or the rounded weighted points, labelled explanations and mean confidence |
| Consensus.NoConsensusIff | src/models/ai_models.py:100-107 | the result is None iff every opinion's confidence is below the minimum |
| Consensus.TotalWeightAtLeast | src/models/ai_models.py:110 | confidences that all reach w weigh at least w per opinion in total |
| Consensus.PositiveThresholdNeverFails | src/models/ai_models.py:106-111 | with a positive minimum the surviving weights sum to a positive value, so the division never fails |
| Consensus.WeightedPointsAtLeast | src/models/ai_models.py:110-111 | with positive weights the weighted mean is at least any lower bound of the points |
| Consensus.WeightedPointsAtMost | src/models/ai_models.py:110-111 | with positive weights the weighted mean is at most any upper bound of the points |
| Consensus.ConsensusPointsBetweenSurvivors | src/models/ai_models.py:110-123 | the unrounded consensus points lie between the smallest and largest surviving points, and the reported points are their two-decimal rounding, within 0.005 |
| Consensus.ConsensusPointsInRange | src/models/ai_models.py:100-111 | if the surviving opinions respect [0, max points], so does the weighted mean |
| Consensus.ConsensusConfidenceBounds | src/models/ai_models.py:100-120 | the consensus confidence is the plain mean of the surviving confidences, at least the minimum and at most the largest of them |
| Consensus.AverageConfidenceBounds | src/models/ai_models.py:120 | a mean of confidences that all reach a bound reaches it and never exceeds the largest confidence |
| Consensus.ConsensusExplanation | src/models/ai_models.py:114-117 | the consensus explanation lists every survivor once, numbered from 1, in order |
| Consensus.SingleSurvivor | src/models/ai_models.py:106-126 | a single survivor's points (rounded to two decimals) and its confidence pass through |
| Consensus.TwoOpinionExample | src/models/ai_models.py:83-126 | opinions (80, 0.9) and (60, 0.5) at minimum 0.5 give 72.86 points and confidence 0.7 |
| Consensus.TwoOpinionDefaultExample | src/models/ai_models.py:83-126 | opinions (80, 0.9) and (60, 0.5) at the default minimum 0.7 give 80 points and confidence 0.9, the second opinion being dropped |
| Consensus.SingleOpinionExample | src/models/ai_models.py:83-126 | one opinion (50, 0.8) at the default minimum 0.7 gives 50 points and confidence 0.8 |
| Grader.NoDivisionErrorIff | src/grading/grader.py:47-52 | grading raises no division error iff no criterion's consensus raises it |
| Grader.GradeAssignment | src/grading/grader.py:27-74 | fails iff some criterion's consensus raises; otherwise returns the total of reached points, the grades keyed by criterion name, the mean recorded confidence (0 when none) and the review flag, as folded over the verdicts in schema order |
| Grader.VerdictsAt | src/grading/grader.py:47-52 | the i-th verdict is the consensus on the i-th criterion with the confidence threshold as minimum |
| Grader.FlagsReviewIff | src/grading/grader.py:54-64 | the review flag is raised iff some criterion has no consensus or a confidence below the threshold |
| Grader.ReachedAboveThreshold | src/grading/grader.py:48-64 | every recorded consensus confidence reaches the confidence threshold |
| Grader.NeedsReviewIffMissingConsensus | src/grading/grader.py:45-64 | review is needed iff some criterion had no consensus: no review iff every criterion reached consensus with confidence at least the threshold |
| Grader.ReachedPointsConcat | src/grading/grader.py:59 | the total over two runs of criteria is the sum of their totals |
| Grader.ReachedConfidencesConcat | src/grading/grader.py:60 | the recorded confidences of two runs are the first run's followed by the second's |
| Grader.GradesByNameConcat | src/grading/grader.py:58 | the grades of two runs are the first run's grades overwritten by the second's |
| Grader.NoConsensusIsSkipped | src/grading/grader.py:54-60 | a criterion without consensus is skipped, not scored zero: removing it changes neither the total, nor the recorded confidences, nor the grades |
| Grader.GradesKeys | src/grading/grader.py:54-58 | a name is graded iff some criterion of that name reached consensus |
| Grader.GradesKeysAreCriterionNames | src/grading/grader.py:58 | every graded name is the name of a criterion of the schema |
| Grader.GradesOfDistinctNames | src/grading/grader.py:58 | with distinct criterion names, each reached criterion's result is stored under its own name |
| Grader.MeanOrZeroAtLeast | src/grading/grader.py:67 | the mean is 0 with nothing recorded and otherwise at least any lower bound of the values |
| Grader.OverallConfidenceBounds | src/grading/grader.py:60-67 | the overall confidence is 0 when no criterion reached consensus and otherwise at least the threshold |
| Grader.PartialConsensusExample | src/grading/grader.py:42-74 | criteria reaching (30, 0.9) and no consensus give 30 points, confidence 0.9, the one grade, and a review |
| Grader.PositiveThresholdGradingNeverFails | src/grading/grader.py:47-52 | with a positive threshold no criterion's consensus raises the division error |
| SchemaLoader.MockCriteria | src/grading/schema_loader.py:13-38 | the two sample criteria (Understanding 40, Implementation 60) in source order |
| SchemaLoader.MockPrefixSums | src/grading/schema_loader.py:13-41 | the running sums of max points are 0, 40 and then 100, the schema's total |
| SchemaLoader.MockStepFits | src/grading/schema_loader.py:40-41 | each sample criterion fits under the total on top of those added before it |
| SchemaLoader.LoadGradingSchema | src/grading/schema_loader.py:4-43 | returns a new schema named "Assignment " plus the id, worth 100 points, holding exactly the two sample criteria, with no insertion refused and the points adding up to the total |
| SchemaLoader.LoadedSchemaValidates | src/grading/schema_loader.py:4-43 | the loaded schema passes validation for every assignment id |
| SchemaLoader.MockRubricsSpanRange | src/grading/schema_loader.py:13-38 | each sample rubric labels zero and full marks, and the criteria have different names |
| ReviewApi.ValuesInOrder | src/web/api.py:66 | the values of ids 1..n listed in id order, one per id |
| ReviewApi.StatisticsBounds | src/web/api.py:93-101 | reviewed is at most flagged, at most the adjustments whenever each reviewed entry has an adjustment, and the rate is in [0, 1], 0 when nothing is flagged and 1 when all are reviewed |
| ReviewApi.ReviewedAtMostFlagged | src/web/api.py:93-94 | no more submissions are reviewed than flagged |
| ReviewApi.FlaggingKeepsKeysContiguous | src/web/api.py:43-44 | the next id is unused, and storing under it keeps the ids exactly 1..n+1 |
| ReviewApi.ReviewCount | src/web/api.py:81-84 | a review marks exactly its entry reviewed; the reviewed count grows by one on a first review and not on a repeated one |
| ReviewApi.ReviewQueue.constructor | src/web/api.py:24-25 | both stores start empty and the queue invariant holds |
| ReviewApi.ReviewQueue.FlagIfNeeded | src/web/api.py:42-49 | a grade that needs no review leaves the store alone; otherwise exactly one entry is added under the unused id n+1, recording the total points and overall confidence; the adjustments are untouched and the invariant is kept |
| ReviewApi.ReviewQueue.GradeSubmission | src/web/api.py:27-59 | answers 500 iff grading raises, with the stores unchanged; otherwise answers with the grade, confidence, review flag and grades, and flags the submission exactly when it needs review |
| ReviewApi.ReviewQueue.GetFlaggedSubmissions | src/web/api.py:61-66 | one item per stored entry, in flagging order |
| ReviewApi.ReviewQueue.SubmitReview | src/web/api.py:68-86 | an unknown id is a 404 changing neither store; a known id appends the adjustment and sets reviewed at, reviewed by and notes on that entry only; the invariant is kept |
| ReviewApi.ReviewQueue.GetReviewStatistics | src/web/api.py:88-102 | the statistics of the two stores: reviewed at most flagged and at most adjustments, rate in [0, 1] and 0 when nothing is flagged |
| ReviewApi.ApiGradingNeverFails | src/web/api.py:21 | with the default threshold 0.7 of the module-level AssignmentGrader, the grading endpoint never answers 500 for a division error |

## Left out

- The scoring agents (`AIGrader`, src/models/ai_models.py:14-75) call a language model. Their answers are inputs: one sequence of opinions per criterion, in agent order. Malformed agent output, and the exception it raises, are not modelled.
- Floating point. Points and confidences are exact reals, so binary rounding of sums and means is not captured. `round(x, 2)` is round-half-even on the exact value.
- The explanation text. It is a sequence of (model number, confidence, text) entries. The `"\n".join` and the `:.2f` formatting of the confidence are not modelled.
- Python's integer `0`. The initial `total_points`, the overall confidence with nothing recorded, and the completion rate with nothing flagged are all this `0`. They are modelled as the real 0.
- Grader.GradeAssignment and ReviewApi.ReviewQueue.GradeSubmission take the agents' opinions as `panel`, one entry per criterion. They require that it has as many entries as the schema has criteria; this is a shape condition of the model, not a check in the source.
- `consistency_threshold` is stored (src/grading/grader.py:25) but never read, so it has no effect in the model.
- HTTP transport. The FastAPI routes, OAuth2 bearer tokens, `async`, Pydantic validation and the reply messages are left out. Errors are the status codes 404 and 500.
- ReviewApi.ReviewQueue.GradeSubmission: the `except Exception` branch is modelled for the division error only. Other exceptions come from the agents or the framework, which are not modelled.
- `datetime.now()` is a `Timestamp` parameter of `SubmitReview`.
- Submission ids `sub_n` are modelled as the number n. An adjustment naming a string that is not of that form is any number that is not stored.
- ReviewApi.ReviewQueue.GetFlaggedSubmissions returns the entries as values. In the source, the list holds the live objects, so a later review is visible through a previously returned list. Aliasing is not modelled.
- Building the module-level agents and grader (src/web/api.py:16-21) is reduced to the constant `ApiGrader`, the default thresholds 0.7 and 0.2.
- File extraction (src/input/file_processor.py), the command-line entry point (src/main.py) and the Streamlit front end (grading_app/streamlit_app.py) are not part of this model.
