/**
 * The batch pipeline's result records (deliverables/pipeline_code/models/application.py).
 */
module PipelineModels {
  import opened Wrappers
  import Models

  /** The two QC verdicts of the batch output. */
  datatype QCStatus = Verifiable | NotVerifiable
  {
    function Name(): string
    {
      match this
      case Verifiable => "VERIFIABLE"
      case NotVerifiable => "NOT_VERIFIABLE"
    }
  }

  /** The two names are different strings, so a `qc_status` determines its verdict. */
  lemma QCNamesDistinct(a: QCStatus, b: QCStatus)
    ensures a.Name() == b.Name() <==> a == b
  {
    assert |Verifiable.Name()| != |NotVerifiable.Name()|;
  }

  datatype MetricScore = MetricScore(score: real, details: Option<string>)
  {
    predicate Valid()
    {
      Models.InUnit(score)
    }
  }

  /** `qc_status` is declared as a plain string; only its producers keep it to
      the two `QCStatus` names. */
  datatype SatelliteAnalysisResult = SatelliteAnalysisResult(
    score: real,
    details: string,
    preInstallPanelCount: int,
    postInstallPanelCount: int,
    pvAreaSqmEst: real,
    yoloConfidence: real,
    qcStatus: string,
    imageMetadata: map<string, string>)
  {
    predicate Valid()
    {
      Models.InUnit(score) && Models.InUnit(yoloConfidence)
    }
  }

  function NewMetricScore(score: real, details: Option<string> := None): (r: Result<MetricScore, Models.ValidationError>)
    ensures r.Success? <==> Models.InUnit(score)
    ensures r.Success? ==> r.value.Valid() && r.value.score == score
  {
    if Models.InUnit(score) then Success(MetricScore(score, details)) else Failure(Models.ValidationError("score"))
  }

  function NewSatelliteResult(
    score: real,
    details: string,
    preInstallPanelCount: int,
    postInstallPanelCount: int,
    pvAreaSqmEst: real,
    yoloConfidence: real,
    qcStatus: string,
    imageMetadata: map<string, string> := map[]): (r: Result<SatelliteAnalysisResult, Models.ValidationError>)
    ensures r.Success? <==> Models.InUnit(score) && Models.InUnit(yoloConfidence)
    ensures r.Success? ==> r.value.Valid() && r.value.score == score && r.value.qcStatus == qcStatus
    ensures r.Success? ==> r.value.imageMetadata == imageMetadata
  {
    if !Models.InUnit(score) then Failure(Models.ValidationError("score"))
    else if !Models.InUnit(yoloConfidence) then Failure(Models.ValidationError("yolo_confidence"))
    else Success(SatelliteAnalysisResult(
      score, details, preInstallPanelCount, postInstallPanelCount, pvAreaSqmEst,
      yoloConfidence, qcStatus, imageMetadata))
  }

  /** Without explicit metadata the result carries an empty metadata map. */
  lemma MetadataDefaultsEmpty(score: real, details: string, pre: int, post: int, area: real, conf: real, qc: string)
    requires Models.InUnit(score) && Models.InUnit(conf)
    ensures
      var r := NewSatelliteResult(score, details, pre, post, area, conf, qc);
      r.Success? && r.value.imageMetadata == map[]
  {
  }
}
