/**
 * The verification weights and decision thresholds of the `Settings` object
 * (deliverables/pipeline_code/core/config.py). Credentials and the storage
 * directory are not part of this model.
 */
module Config {

  datatype Settings = Settings(
    weightGpsMatch: real,
    weightSatelliteAnalysis: real,
    weightEquipmentCheck: real,
    weightShadowAnalysis: real,
    thresholdAutoApprove: real,
    thresholdManualReview: real)
  {
    function TotalWeight(): real
    {
      weightGpsMatch + weightShadowAnalysis + weightSatelliteAnalysis + weightEquipmentCheck
    }

    /** Every weight is non-negative. */
    predicate WeightsNonNegative()
    {
      && weightGpsMatch >= 0.0
      && weightSatelliteAnalysis >= 0.0
      && weightEquipmentCheck >= 0.0
      && weightShadowAnalysis >= 0.0
    }

    /** Both thresholds lie in [0, 1] and approval needs strictly more than review. */
    predicate ThresholdsOrdered()
    {
      0.0 <= thresholdManualReview < thresholdAutoApprove <= 1.0
    }
  }

  /** The batch pipeline's shipped configuration: GPS 0.30, satellite 0.30,
      equipment 0.20, shadow 0.20; approve at 0.85, review at 0.60. The
      backend's own configuration module is not part of this model, and these
      values stand in for it. */
  function Defaults(): (s: Settings)
    ensures s.WeightsNonNegative()
    ensures s.TotalWeight() == 1.0
    ensures s.ThresholdsOrdered()
  {
    Settings(
      weightGpsMatch := 0.30,
      weightSatelliteAnalysis := 0.30,
      weightEquipmentCheck := 0.20,
      weightShadowAnalysis := 0.20,
      thresholdAutoApprove := 0.85,
      thresholdManualReview := 0.60)
  }
}
