/**
 * The backend's stored records (backend/models/application.py): the per-check
 * results, the verification report and the application document, each with the
 * field constraints its Pydantic declaration enforces. A `New...` function is
 * the model's constructor: it fails with a `ValidationError` exactly when a
 * declared constraint does not hold, and otherwise fills in the declared
 * defaults.
 */
module Models {
  import opened Wrappers

  /** The `confloat(ge=0.0, le=1.0)` constraint. */
  predicate InUnit(x: real)
  {
    0.0 <= x <= 1.0
  }

  /** Raw file or image contents. */
  type Bytes = seq<bv8>

  datatype ValidationError = ValidationError(field: string)

  datatype MetricScore = MetricScore(score: real, details: string)
  {
    predicate Valid()
    {
      InUnit(score)
    }
  }

  datatype PhotoMetadata = PhotoMetadata(
    s3Key: string,
    gpsLat: Option<real>,
    gpsLon: Option<real>,
    captureTime: Option<string>)

  /** A `MetricScore` subclass: the score constraint is inherited. */
  datatype ShadowAnalysisResult = ShadowAnalysisResult(
    score: real,
    details: string,
    expectedSunAzimuth: Option<real>,
    expectedSunElevation: Option<real>,
    detectedShadowAngle: Option<real>)
  {
    predicate Valid()
    {
      InUnit(score)
    }
  }

  /** A `MetricScore` subclass with non-negative panel counts. */
  datatype SatelliteAnalysisResult = SatelliteAnalysisResult(
    score: real,
    details: string,
    preInstallPanelCount: int,
    postInstallPanelCount: int,
    yoloConfidence: Option<real>)
  {
    predicate Valid()
    {
      InUnit(score) && preInstallPanelCount >= 0 && postInstallPanelCount >= 0
    }
  }

  /** A `MetricScore` subclass carrying the OCR'd and the registry-matched serials. */
  datatype EquipmentCheckResult = EquipmentCheckResult(
    score: real,
    details: string,
    detectedSerials: seq<string>,
    verifiedSerials: seq<string>)
  {
    predicate Valid()
    {
      InUnit(score)
    }
  }

  datatype EnergyPrediction = EnergyPrediction(
    expectedAnnualKwh: Option<real>,
    actualMonthlyKwh: Option<map<string, real>>)

  datatype VerificationReport = VerificationReport(
    gpsCheck: MetricScore,
    shadowAnalysis: ShadowAnalysisResult,
    satelliteAnalysis: SatelliteAnalysisResult,
    equipmentCheck: EquipmentCheckResult,
    confidenceScore: real,
    decision: string,
    reasoning: string)
  {
    predicate Valid()
    {
      && gpsCheck.Valid()
      && shadowAnalysis.Valid()
      && satelliteAnalysis.Valid()
      && equipmentCheck.Valid()
      && InUnit(confidenceScore)
    }
  }

  /** The application document. `expectedEnergy` is the extra field the
      pipeline stores next to the report (the model allows extra fields). */
  datatype ApplicationModel = ApplicationModel(
    id: Option<string>,
    userId: string,
    address: string,
    registeredLat: real,
    registeredLon: real,
    systemCapacityKw: real,
    declaredPanelCount: int,
    wideRooftopPhoto: PhotoMetadata,
    serialNumberPhoto: PhotoMetadata,
    inverterPhoto: PhotoMetadata,
    status: string,
    submissionDate: int,
    verificationReport: Option<VerificationReport>,
    expectedEnergy: Option<EnergyPrediction>)
  {
    predicate Valid()
    {
      declaredPanelCount >= 1 && (verificationReport.Some? ==> verificationReport.value.Valid())
    }
  }

  /** The form fields of a new application. */
  datatype ApplicationCreate = ApplicationCreate(
    address: string,
    registeredLat: real,
    registeredLon: real,
    systemCapacityKw: real,
    declaredPanelCount: int)

  function NewMetricScore(score: real, details: string): (r: Result<MetricScore, ValidationError>)
    ensures r.Success? <==> InUnit(score)
    ensures r.Success? ==> r.value.Valid() && r.value.score == score && r.value.details == details
  {
    if InUnit(score) then Success(MetricScore(score, details)) else Failure(ValidationError("score"))
  }

  function NewShadowResult(
    score: real,
    details: string,
    expectedSunAzimuth: Option<real> := None,
    expectedSunElevation: Option<real> := None,
    detectedShadowAngle: Option<real> := None): (r: Result<ShadowAnalysisResult, ValidationError>)
    ensures r.Success? <==> InUnit(score)
    ensures r.Success? ==> r.value.Valid() && r.value.score == score
  {
    if InUnit(score) then
      Success(ShadowAnalysisResult(score, details, expectedSunAzimuth, expectedSunElevation, detectedShadowAngle))
    else Failure(ValidationError("score"))
  }

  function NewSatelliteResult(
    score: real,
    details: string,
    preInstallPanelCount: int := 0,
    postInstallPanelCount: int := 0,
    yoloConfidence: Option<real> := None): (r: Result<SatelliteAnalysisResult, ValidationError>)
    ensures r.Success? <==> InUnit(score) && preInstallPanelCount >= 0 && postInstallPanelCount >= 0
    ensures r.Success? ==> r.value.Valid() && r.value.score == score
    ensures r.Success? ==> r.value.preInstallPanelCount == preInstallPanelCount
    ensures r.Success? ==> r.value.postInstallPanelCount == postInstallPanelCount
  {
    if !InUnit(score) then Failure(ValidationError("score"))
    else if preInstallPanelCount < 0 then Failure(ValidationError("pre_install_panel_count"))
    else if postInstallPanelCount < 0 then Failure(ValidationError("post_install_panel_count"))
    else Success(SatelliteAnalysisResult(score, details, preInstallPanelCount, postInstallPanelCount, yoloConfidence))
  }

  function NewEquipmentResult(
    score: real,
    details: string,
    detectedSerials: seq<string> := [],
    verifiedSerials: seq<string> := []): (r: Result<EquipmentCheckResult, ValidationError>)
    ensures r.Success? <==> InUnit(score)
    ensures r.Success? ==> r.value.Valid() && r.value.score == score
  {
    if InUnit(score) then Success(EquipmentCheckResult(score, details, detectedSerials, verifiedSerials))
    else Failure(ValidationError("score"))
  }

  /** A report needs all four check results and a confidence in [0, 1]. */
  function NewReport(
    gpsCheck: Option<MetricScore>,
    shadowAnalysis: Option<ShadowAnalysisResult>,
    satelliteAnalysis: Option<SatelliteAnalysisResult>,
    equipmentCheck: Option<EquipmentCheckResult>,
    confidenceScore: real,
    decision: string,
    reasoning: string): (r: Result<VerificationReport, ValidationError>)
    ensures r.Success? <==>
      && gpsCheck.Some? && shadowAnalysis.Some? && satelliteAnalysis.Some? && equipmentCheck.Some?
      && gpsCheck.value.Valid() && shadowAnalysis.value.Valid()
      && satelliteAnalysis.value.Valid() && equipmentCheck.value.Valid()
      && InUnit(confidenceScore)
    ensures r.Success? ==> r.value.Valid() && r.value.confidenceScore == confidenceScore
  {
    if gpsCheck.None? then Failure(ValidationError("gps_check"))
    else if shadowAnalysis.None? then Failure(ValidationError("shadow_analysis"))
    else if satelliteAnalysis.None? then Failure(ValidationError("satellite_analysis"))
    else if equipmentCheck.None? then Failure(ValidationError("equipment_check"))
    else
      var report := VerificationReport(
        gpsCheck.value, shadowAnalysis.value, satelliteAnalysis.value, equipmentCheck.value,
        confidenceScore, decision, reasoning);
      if report.Valid() then Success(report) else Failure(ValidationError("verification_report"))
  }

  /** The application document with its declared defaults: status "submitted", no report. */
  function NewApplication(
    userId: string,
    address: string,
    registeredLat: real,
    registeredLon: real,
    systemCapacityKw: real,
    declaredPanelCount: int,
    wideRooftopPhoto: PhotoMetadata,
    serialNumberPhoto: PhotoMetadata,
    inverterPhoto: PhotoMetadata,
    submissionDate: int,
    id: Option<string> := None,
    status: string := "submitted",
    verificationReport: Option<VerificationReport> := None): (r: Result<ApplicationModel, ValidationError>)
    ensures r.Success? <==>
      declaredPanelCount >= 1 && (verificationReport.Some? ==> verificationReport.value.Valid())
    ensures r.Success? ==> r.value.Valid() && r.value.status == status
    ensures r.Success? ==> r.value.verificationReport == verificationReport
  {
    var app := ApplicationModel(
      id, userId, address, registeredLat, registeredLon, systemCapacityKw, declaredPanelCount,
      wideRooftopPhoto, serialNumberPhoto, inverterPhoto, status, submissionDate,
      verificationReport, None);
    if app.Valid() then Success(app) else Failure(ValidationError("declared_panel_count"))
  }

  function NewApplicationCreate(
    address: string,
    registeredLat: real,
    registeredLon: real,
    systemCapacityKw: real,
    declaredPanelCount: int): (r: Result<ApplicationCreate, ValidationError>)
    ensures r.Success? <==> declaredPanelCount >= 1
    ensures r.Success? ==> r.value.declaredPanelCount == declaredPanelCount
    ensures r.Failure? ==> r.error == ValidationError("declared_panel_count")
  {
    if declaredPanelCount >= 1 then
      Success(ApplicationCreate(address, registeredLat, registeredLon, systemCapacityKw, declaredPanelCount))
    else Failure(ValidationError("declared_panel_count"))
  }

  /** Omitting status and report yields a "submitted" application without a report. */
  lemma ApplicationDefaults(
    userId: string, address: string, lat: real, lon: real, capacity: real, declared: int,
    wide: PhotoMetadata, serial: PhotoMetadata, inverter: PhotoMetadata, date: int)
    requires declared >= 1
    ensures
      var r := NewApplication(userId, address, lat, lon, capacity, declared, wide, serial, inverter, date);
      r.Success? && r.value.status == "submitted" && r.value.verificationReport == None
  {
  }
}
