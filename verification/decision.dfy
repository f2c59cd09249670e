/**
 * The decision engine and report assembly of the orchestrator
 * (backend/services/ml_pipeline.py): the confidence is classified against the
 * approve threshold (inclusive) and the review threshold (exclusive), and the
 * report stores the confidence rounded to four places while the decision is
 * taken on the unrounded value.
 */
module DecisionEngine {
  import opened Wrappers
  import opened Config
  import opened Models
  import Numeric
  import Aggregator

  datatype Decision = AutoApprove | ManualReview | AutoReject
  {
    /** The `decision` string stored in the report. */
    function Label(): string
    {
      match this
      case AutoApprove => "Auto-approve"
      case ManualReview => "manual_review"
      case AutoReject => "Auto-reject"
    }

    /** The application status written with the report. */
    function Status(): string
    {
      match this
      case AutoApprove => "approved"
      case ManualReview => "manual_review"
      case AutoReject => "rejected"
    }

    function Reasoning(): string
    {
      match this
      case AutoApprove => ApproveReasoning
      case ManualReview => ReviewReasoning
      case AutoReject => RejectReasoning
    }

    /** Reject < review < approve. */
    function Rank(): nat
    {
      match this
      case AutoReject => 0
      case ManualReview => 1
      case AutoApprove => 2
    }
  }

  const ApproveReasoning: string := "High confidence score, all major checks passed verification."
  const ReviewReasoning: string := "Flagged for manual review."
  const RejectReasoning: string :=
    "Low confidence score due to major failures in multiple checks (e.g., GPS mismatch, no panels detected)."

  /** The statuses a finished pipeline run leaves behind. */
  predicate IsTerminal(status: string)
  {
    status == "approved" || status == "rejected" || status == "manual_review"
  }

  /** Manual review unless the approve test or, failing it, the reject test fires. */
  function Decide(confidence: real, cfg: Settings): (d: Decision)
    ensures d == AutoApprove <==> confidence >= cfg.thresholdAutoApprove
    ensures d == AutoReject <==>
      confidence < cfg.thresholdAutoApprove && confidence < cfg.thresholdManualReview
    ensures d == ManualReview <==>
      cfg.thresholdManualReview <= confidence < cfg.thresholdAutoApprove
    ensures IsTerminal(d.Status())
  {
    if confidence >= cfg.thresholdAutoApprove then AutoApprove
    else if confidence < cfg.thresholdManualReview then AutoReject
    else ManualReview
  }

  /** A higher confidence never yields a worse decision. */
  lemma DecideMonotone(c1: real, c2: real, cfg: Settings)
    requires cfg.ThresholdsOrdered() && c1 <= c2
    ensures Decide(c1, cfg).Rank() <= Decide(c2, cfg).Rank()
  {
  }

  /** The approve threshold itself approves; the review threshold itself is not rejected. */
  lemma ThresholdBoundaries(cfg: Settings)
    requires cfg.ThresholdsOrdered()
    ensures Decide(cfg.thresholdAutoApprove, cfg) == AutoApprove
    ensures Decide(cfg.thresholdManualReview, cfg) == ManualReview
  {
  }

  /** The report of a run: the four check results, `round(confidence, 4)`, and the
      decision and reasoning of the unrounded confidence. Building it fails when a
      field constraint fails. */
  function AssembleReport(
    gps: MetricScore,
    shadow: ShadowAnalysisResult,
    satellite: SatelliteAnalysisResult,
    equipment: EquipmentCheckResult,
    confidence: real,
    cfg: Settings): (r: Result<VerificationReport, ValidationError>)
    ensures r.Success? <==>
      gps.Valid() && shadow.Valid() && satellite.Valid() && equipment.Valid()
      && InUnit(Numeric.Round(confidence, 4))
    ensures InUnit(confidence) && gps.Valid() && shadow.Valid() && satellite.Valid() && equipment.Valid()
      ==> r.Success?
    ensures r.Success? ==>
      && r.value.Valid()
      && Numeric.Within4(r.value.confidenceScore, confidence)
      && r.value.decision == Decide(confidence, cfg).Label()
      && r.value.reasoning == Decide(confidence, cfg).Reasoning()
      && r.value.gpsCheck == gps && r.value.satelliteAnalysis == satellite
      && r.value.shadowAnalysis == shadow && r.value.equipmentCheck == equipment
  {
    Numeric.Round4Close(confidence);
    assert InUnit(confidence) ==> InUnit(Numeric.Round(confidence, 4)) by {
      if InUnit(confidence) {
        Numeric.RoundStaysInUnit(confidence, 4);
      }
    }
    var d := Decide(confidence, cfg);
    NewReport(Some(gps), Some(shadow), Some(satellite), Some(equipment),
              Numeric.Round(confidence, 4), d.Label(), d.Reasoning())
  }

  /** The stored score can sit on the approve threshold while the decision, taken
      on the unrounded value, is manual review. */
  lemma RoundedScoreCanDisagreeWithDecision()
    ensures Numeric.Round(0.84996, 4) == 0.85
    ensures Numeric.Round(0.84996, 4) >= Defaults().thresholdAutoApprove
    ensures Decide(0.84996, Defaults()) == ManualReview
  {
    assert Numeric.Pow10(4) == 10000;
    assert 0.84996 * 10000.0 == 8499.6;
    assert (8499.6).Floor == 8499;
    assert Numeric.RoundScaled(0.84996, 4) == 8500;
  }

  /** Under the shipped weights every check holds at least 0.2 of the weight, so a
      single check scoring 0.0 keeps the confidence at or below 0.8: never approved. */
  lemma AnyFailedCheckBlocksApproval(s: Aggregator.CheckScores, c: Aggregator.Check)
    requires s.InUnit() && s.Get(c) == 0.0
    ensures Aggregator.Confidence(s, Defaults()) <= 0.8
    ensures Decide(Aggregator.Confidence(s, Defaults()), Defaults()) != AutoApprove
  {
    Aggregator.ZeroCheckCapsConfidence(s, Defaults(), c);
  }

  /** All checks passing: confidence 1.0, approved. */
  lemma ScenarioAllPass()
    ensures Aggregator.Confidence(Aggregator.CheckScores(1.0, 1.0, 1.0, 1.0), Defaults()) == 1.0
    ensures Decide(1.0, Defaults()) == AutoApprove
  {
    Aggregator.ConfidenceIsFourTermMean(Aggregator.CheckScores(1.0, 1.0, 1.0, 1.0), Defaults());
  }

  /** GPS 0.0, shadow 0.2, satellite 0.5, equipment 0.0: confidence 0.19, rejected. */
  lemma ScenarioMostlyFailing()
    ensures Aggregator.Confidence(Aggregator.CheckScores(0.0, 0.2, 0.5, 0.0), Defaults()) == 0.19
    ensures Decide(0.19, Defaults()) == AutoReject
  {
    Aggregator.ConfidenceIsFourTermMean(Aggregator.CheckScores(0.0, 0.2, 0.5, 0.0), Defaults());
  }

  /** Only the satellite check failing: confidence 0.7, manual review. */
  lemma ScenarioSatelliteFailing()
    ensures Aggregator.Confidence(Aggregator.CheckScores(1.0, 1.0, 0.0, 1.0), Defaults()) == 0.7
    ensures Decide(0.7, Defaults()) == ManualReview
  {
    Aggregator.ConfidenceIsFourTermMean(Aggregator.CheckScores(1.0, 1.0, 0.0, 1.0), Defaults());
  }
}
