/**
 * The batch driver (deliverables/pipeline_code/main_pipeline.py): the column
 * check and defaults applied to the input table, one satellite verification
 * per row, and the output record each row yields — the mapped result, or the
 * fallback record when anything raised. Reading and writing the CSV and JSON
 * files is not modelled; the table arrives as a value and the output is
 * returned.
 */
module BatchPipeline {
  import opened Wrappers
  import opened Config
  import Numeric
  import Models
  import opened PipelineModels
  import PipelineSatellite
  import Yolo

  const RequiredColumns: set<string> := {"sample_id", "latitude", "longitude"}
  const DeclaredColumn := "declared_panel_count"
  const DateColumn := "submission_date"
  const DefaultDeclaredPanels := 10

  /** One input row. A value in a column the table lacks is replaced by that
      column's default before processing. */
  datatype Sample = Sample(sampleId: string, lat: real, lon: real, declaredPanelCount: int, submissionDate: string)

  datatype Table = Table(columns: set<string>, samples: seq<Sample>)

  /** What a satellite verification reads from outside: the day, the date
      parser, the Sentinel Hub credentials, the imagery service at a location,
      the detector and the settings. */
  datatype BatchWorld = BatchWorld(
    today: int,
    parseDate: string -> Option<int>,
    credentials: PipelineSatellite.ShCredentials,
    imagery: (real, real) -> (PipelineSatellite.ShRequest -> PipelineSatellite.ShResponse),
    yolo: Models.Bytes -> Yolo.YoloRun,
    cfg: Settings)

  /** A row's defaults: 10 declared panels and today's date for the columns
      the table lacks; every other value as read. */
  function FillDefaults(s: Sample, columns: set<string>, nowIso: string): (f: Sample)
    ensures f.sampleId == s.sampleId && f.lat == s.lat && f.lon == s.lon
    ensures f.declaredPanelCount == if DeclaredColumn in columns then s.declaredPanelCount else DefaultDeclaredPanels
    ensures f.submissionDate == if DateColumn in columns then s.submissionDate else nowIso
  {
    s.(declaredPanelCount := if DeclaredColumn in columns then s.declaredPanelCount else DefaultDeclaredPanels,
       submissionDate := if DateColumn in columns then s.submissionDate else nowIso)
  }

  /** One output record: the mapped result, or the fallback written when
      anything raised. Each answers the record's keys uniformly. */
  datatype Record =
    | Mapped(
        sampleId: string,
        lat: real,
        lon: real,
        declaredPanelCount: int,
        hasSolar: bool,
        confidence: real,
        pvAreaSqmEst: real,
        bufferRadiusSqft: int,
        qcStatus: string,
        bboxOrMask: string,
        imageMetadata: map<string, string>,
        details: string,
        preInstallPanelCount: int,
        postInstallPanelCount: int,
        yoloConfidenceAvg: real)
    | Fallback(sampleId: string, lat: real, lon: real, details: string)
  {
    function HasSolar(): bool
    {
      if Mapped? then hasSolar else false
    }

    function Confidence(): real
    {
      if Mapped? then confidence else 0.0
    }

    function QcStatus(): string
    {
      if Mapped? then qcStatus else NotVerifiable.Name()
    }

    function PvAreaSqmEst(): real
    {
      if Mapped? then pvAreaSqmEst else 0.0
    }

    function BufferRadiusSqft(): int
    {
      if Mapped? then bufferRadiusSqft else 0
    }
  }

  const FailurePrefix := "CRITICAL PIPELINE FAILURE: "

  /** The fallback record for a row whose processing raised `error`. */
  function FallbackRecord(s: Sample, error: string): (r: Record)
    ensures r.Fallback? && r.sampleId == s.sampleId && r.lat == s.lat && r.lon == s.lon
    ensures !r.HasSolar() && r.Confidence() == 0.0 && r.QcStatus() == "NOT_VERIFIABLE"
    ensures r.PvAreaSqmEst() == 0.0 && r.BufferRadiusSqft() == 0
    ensures r.details == FailurePrefix + error
  {
    Fallback(s.sampleId, s.lat, s.lon, FailurePrefix + error)
  }

  /** The satellite verification of one (defaulted) row, as shipped. */
  function Verify(s: Sample, w: BatchWorld): (run: PipelineSatellite.SatelliteRun)
    ensures w.parseDate(s.submissionDate).None? ==> run.result.Failure? && run.requests == []
    ensures w.parseDate(s.submissionDate).Some? ==>
      && run.result.Success?
      && run.result.value.qcStatus == NotVerifiable.Name()
      && run.requests == [PipelineSatellite.PreRequest(w.parseDate(s.submissionDate).value)]
  {
    var day := w.parseDate(s.submissionDate);
    var run := PipelineSatellite.SatelliteVerificationAsWritten(
      day, w.today, s.declaredPanelCount, w.cfg, w.credentials, w.imagery(s.lat, s.lon), w.yolo);
    if day.Some? then
      PipelineSatellite.MisspeltSecretNeverVerifies(
        day.value, w.today, s.declaredPanelCount, w.cfg, w.credentials, w.imagery(s.lat, s.lon), w.yolo);
      run
    else
      run
  }

  /** The satellite verification of one (defaulted) row with the secret read
      under its declared name. */
  function VerifyFixed(s: Sample, w: BatchWorld): (run: PipelineSatellite.SatelliteRun)
    ensures run.result.Success? ==> |run.requests| > 0
    ensures w.parseDate(s.submissionDate).None? ==> run.result.Failure? && run.requests == []
    ensures w.credentials.clientId != "" && w.credentials.clientSecret != "" ==>
      run == PipelineSatellite.SatelliteVerification(
        w.parseDate(s.submissionDate), w.today, s.declaredPanelCount, w.cfg, w.imagery(s.lat, s.lon), w.yolo)
  {
    PipelineSatellite.SatelliteVerificationFixed(
      w.parseDate(s.submissionDate), w.today, s.declaredPanelCount, w.cfg,
      w.credentials, w.imagery(s.lat, s.lon), w.yolo)
  }

  // ------------------------------------------------------- the record mapping

  /** The attributes the result model declares. */
  const ResultFields: set<string> := {
    "score", "details", "pre_install_panel_count", "post_install_panel_count",
    "pv_area_sqm_est", "yolo_confidence", "qc_status", "image_metadata"}

  /** The attributes the success mapping reads, in the order it reads them. */
  const MappingReads: seq<string> := [
    "post_install_panel_count", "score", "pv_area_sqm_est", "final_buffer_sqft", "qc_status",
    "artifact_filename", "image_metadata", "details", "pre_install_panel_count",
    "post_install_panel_count", "yolo_confidence"]

  /** The first attribute read that the model does not declare: reading it
      raises `AttributeError`. */
  function FirstMissing(attrs: seq<string>, declared: set<string>): (r: Option<nat>)
    ensures r.None? <==> forall i :: 0 <= i < |attrs| ==> attrs[i] in declared
    ensures r.Some? ==>
      r.value < |attrs| && attrs[r.value] !in declared && forall i :: 0 <= i < r.value ==> attrs[i] in declared
  {
    if |attrs| == 0 then None
    else if attrs[0] !in declared then Some(0)
    else
      match FirstMissing(attrs[1..], declared)
      case None => None
      case Some(k) => Some(k + 1)
  }

  function AttributeError(name: string): string
  {
    "'SatelliteAnalysisResult' object has no attribute '" + name + "'"
  }

  /** The mapping as written: it raises at the first attribute the result
      lacks; only a result carrying every read attribute would be mapped. */
  function MapResultAsWritten(s: Sample, result: SatelliteAnalysisResult): (r: Result<Record, string>)
    ensures r.Failure? <==> FirstMissing(MappingReads, ResultFields).Some?
    ensures r.Failure? ==> r.error == AttributeError(MappingReads[FirstMissing(MappingReads, ResultFields).value])
  {
    MappingReadsUndeclaredFields();
    var k := FirstMissing(MappingReads, ResultFields).value;
    Failure(AttributeError(MappingReads[k]))
  }

  /** The record a run yields under the mapping as written: map the result,
      and turn anything raised into the fallback record. */
  function RecordAsWritten(s: Sample, run: PipelineSatellite.SatelliteRun): (r: Record)
    ensures r.sampleId == s.sampleId && r.lat == s.lat && r.lon == s.lon
    ensures r.Confidence() == 0.0 || r.Mapped?
    ensures run.result.Failure? ==> r == FallbackRecord(s, run.result.error)
  {
    match run.result
    case Failure(e) => FallbackRecord(s, e)
    case Success(result) =>
      match MapResultAsWritten(s, result)
      case Failure(e) => FallbackRecord(s, e)
      case Success(record) => record
  }

  /** `process_sample` as written: the shipped verification, then the
      mapping as written. */
  function ProcessSample(s: Sample, w: BatchWorld): (r: Record)
    ensures r.sampleId == s.sampleId && r.lat == s.lat && r.lon == s.lon
    ensures r.Confidence() == 0.0 || r.Mapped?
    ensures Verify(s, w).result.Failure? ==> r == FallbackRecord(s, Verify(s, w).result.error)
  {
    RecordAsWritten(s, Verify(s, w))
  }

  /** The mapping reads `final_buffer_sqft` fourth, an attribute the result
      model does not declare, and `artifact_filename` after it. */
  lemma MappingReadsUndeclaredFields()
    ensures FirstMissing(MappingReads, ResultFields) == Some(3)
    ensures MappingReads[3] == "final_buffer_sqft" && MappingReads[5] == "artifact_filename"
    ensures "artifact_filename" !in ResultFields
  {
    assert MappingReads[0] in ResultFields && MappingReads[1] in ResultFields && MappingReads[2] in ResultFields;
    assert |MappingReads[3]| == 17 && |MappingReads[5]| == 17;
    assert forall f :: f in ResultFields ==> |f| != 17;
  }

  /** Every run, however it went, comes out as the fallback under the
      mapping as written: no result is ever mapped. */
  lemma RecordAsWrittenFallsBack(s: Sample, run: PipelineSatellite.SatelliteRun)
    ensures RecordAsWritten(s, run).Fallback?
    ensures run.result.Success? ==>
      RecordAsWritten(s, run).details == FailurePrefix + AttributeError("final_buffer_sqft")
  {
    if run.result.Success? {
      MappingReadsUndeclaredFields();
      assert MapResultAsWritten(s, run.result.value) == Failure(AttributeError("final_buffer_sqft"));
    }
  }

  /** Every row comes out as the fallback, so the batch never reports panels;
      a row whose date parses gets the NOT_VERIFIABLE pre-fetch result from
      the shipped session and then falls back at `final_buffer_sqft`. */
  lemma ProcessSampleAlwaysFallsBack(s: Sample, w: BatchWorld)
    ensures ProcessSample(s, w).Fallback?
    ensures !ProcessSample(s, w).HasSolar() && ProcessSample(s, w).Confidence() == 0.0
    ensures w.parseDate(s.submissionDate).Some? ==>
      ProcessSample(s, w).details == FailurePrefix + AttributeError("final_buffer_sqft")
  {
    RecordAsWrittenFallsBack(s, Verify(s, w));
  }

  /** The mapping with the two undeclared attributes replaced by what the run
      knows: the buffer of the last image request, and no artifact name. */
  function MapResult(s: Sample, result: SatelliteAnalysisResult, finalBufferSqft: int): (r: Record)
    ensures r.Mapped? && r.sampleId == s.sampleId && r.lat == s.lat && r.lon == s.lon
    ensures r.declaredPanelCount == s.declaredPanelCount
    ensures r.HasSolar() <==> result.postInstallPanelCount > 0
    ensures r.Confidence() == result.score && r.QcStatus() == result.qcStatus
    ensures r.BufferRadiusSqft() == finalBufferSqft
    ensures -0.005 <= r.PvAreaSqmEst() - result.pvAreaSqmEst <= 0.005
    ensures Numeric.Within4(r.yoloConfidenceAvg, result.yoloConfidence)
    ensures r.preInstallPanelCount == result.preInstallPanelCount
    ensures r.postInstallPanelCount == result.postInstallPanelCount
    ensures r.imageMetadata == result.imageMetadata && r.details == result.details
  {
    Numeric.Round2Close(result.pvAreaSqmEst);
    Numeric.Round4Close(result.yoloConfidence);
    Mapped(
      s.sampleId, s.lat, s.lon, s.declaredPanelCount,
      result.postInstallPanelCount > 0,
      result.score,
      Numeric.Round(result.pvAreaSqmEst, 2),
      finalBufferSqft,
      result.qcStatus,
      "",
      result.imageMetadata,
      result.details,
      result.preInstallPanelCount,
      result.postInstallPanelCount,
      Numeric.Round(result.yoloConfidence, 4))
  }

  /** The record a run yields under the fixed mapping, with the buffer of
      the last fetch attempted. */
  function RecordFixed(s: Sample, run: PipelineSatellite.SatelliteRun): (r: Record)
    requires run.result.Success? ==> |run.requests| > 0
    ensures r.sampleId == s.sampleId && r.lat == s.lat && r.lon == s.lon
    ensures r.Mapped? <==> run.result.Success?
    ensures run.result.Failure? ==> r == FallbackRecord(s, run.result.error)
    ensures run.result.Success? ==>
      var result := run.result.value;
      && (r.HasSolar() <==> result.postInstallPanelCount > 0)
      && r.Confidence() == result.score
      && r.QcStatus() == result.qcStatus
      && r.BufferRadiusSqft() == run.requests[|run.requests| - 1].bufferSqft
  {
    match run.result
    case Failure(e) => FallbackRecord(s, e)
    case Success(result) => MapResult(s, result, run.requests[|run.requests| - 1].bufferSqft)
  }

  /** `process_sample` with both the session and the mapping fixed. */
  function ProcessSampleFixed(s: Sample, w: BatchWorld): (r: Record)
    ensures r.sampleId == s.sampleId && r.lat == s.lat && r.lon == s.lon
    ensures r.Mapped? <==> VerifyFixed(s, w).result.Success?
    ensures VerifyFixed(s, w).result.Failure? ==> r == FallbackRecord(s, VerifyFixed(s, w).result.error)
    ensures VerifyFixed(s, w).result.Success? ==>
      var result := VerifyFixed(s, w).result.value;
      && (r.HasSolar() <==> result.postInstallPanelCount > 0)
      && r.Confidence() == result.score
      && r.QcStatus() == result.qcStatus
  {
    RecordFixed(s, VerifyFixed(s, w))
  }

  /** Every fixed record has a confidence in [0, 1] and one of the two QC
      names; a verifiable record used the 1200 sq ft post-install buffer. */
  lemma FixedRecordsWellFormed(s: Sample, w: BatchWorld)
    ensures var r := ProcessSampleFixed(s, w);
      && Models.InUnit(r.Confidence())
      && (r.QcStatus() == Verifiable.Name() || r.QcStatus() == NotVerifiable.Name())
      && (r.Mapped? ==>
            (r.BufferRadiusSqft() == PipelineSatellite.PreBufferSqft || r.BufferRadiusSqft() == PipelineSatellite.PostBufferSqft))
      && (r.QcStatus() == Verifiable.Name() ==> r.BufferRadiusSqft() == PipelineSatellite.PostBufferSqft)
  {
    var run := VerifyFixed(s, w);
    QCNamesDistinct(Verifiable, NotVerifiable);
  }

  /** On the same run, the fixed and the as-written mappings give the same
      record exactly when the verification raised. */
  lemma FixAgreesOnFailures(s: Sample, run: PipelineSatellite.SatelliteRun)
    requires run.result.Success? ==> |run.requests| > 0
    ensures RecordFixed(s, run) == RecordAsWritten(s, run) <==> run.result.Failure?
  {
    RecordAsWrittenFallsBack(s, run);
  }

  // ---------------------------------------------------------------- the batch

  datatype BatchOutput = BatchOutput(runTime: string, totalSamples: nat, results: seq<Record>)

  /** `main_pipeline`: nothing is written when a required column is missing;
      otherwise every (defaulted) row is processed and the records are kept
      in input order. The clock is read twice: `nowIso` before processing,
      as the default submission date, and `runTime` after it, as the run's
      time stamp. */
  method MainPipeline(t: Table, nowIso: string, runTime: string, process: Sample -> Record) returns (out: Option<BatchOutput>)
    ensures out.None? <==> !(RequiredColumns <= t.columns)
    ensures out.Some? ==>
      && out.value.runTime == runTime
      && out.value.totalSamples == |out.value.results| == |t.samples|
      && forall i :: 0 <= i < |t.samples| ==>
           out.value.results[i] == process(FillDefaults(t.samples[i], t.columns, nowIso))
  {
    if !(RequiredColumns <= t.columns) {
      return None;
    }
    var results: seq<Record> := [];
    var n := 0;
    while n < |t.samples|
      invariant 0 <= n <= |t.samples| && |results| == n
      invariant forall i :: 0 <= i < n ==> results[i] == process(FillDefaults(t.samples[i], t.columns, nowIso))
    {
      results := results + [process(FillDefaults(t.samples[n], t.columns, nowIso))];
      n := n + 1;
    }
    return Some(BatchOutput(runTime, |results|, results));
  }

  /** A table missing only the two optional columns is processed with 10
      declared panels and today's date on every row. */
  lemma OptionalColumnsDefault(s: Sample, nowIso: string)
    ensures var f := FillDefaults(s, RequiredColumns, nowIso);
      f.declaredPanelCount == 10 && f.submissionDate == nowIso
  {
    assert DeclaredColumn !in RequiredColumns by {
      assert |DeclaredColumn| == 20;
      assert forall c :: c in RequiredColumns ==> |c| < 20;
    }
    assert DateColumn !in RequiredColumns by {
      assert |DateColumn| == 15;
      assert forall c :: c in RequiredColumns ==> |c| < 15;
    }
  }
}
