/**
 * `run_verification_pipeline` (backend/services/ml_pipeline.py): the status
 * write that opens a run, the four checks, the weighted confidence, the
 * decision, the final write of status and report, and the notification. The
 * run is a list of effects on the application store; everything the checks
 * read from the outside world comes in a `World`. Concurrency is modelled as
 * the sequential order the code awaits in.
 */
module Orchestrator {
  import opened Wrappers
  import opened Config
  import opened Models
  import opened Text
  import Aggregator
  import Numeric
  import opened DecisionEngine
  import PhotoForensics
  import BackendSatellite
  import EquipmentCheck
  import Yolo

  const Verifying := "verifying"
  const Submitted := "submitted"
  const PushToken := "ExponentPushToken[xxxxxxxxxxxxxxxxxxxxxx]"
  const PushTitle := "Surya Saathi Verification Update"

  /** What the checks read: stored files by key, the EXIF parser, the clock, the
      ISO-date parser and solar ephemeris, the simulated shadow error, the
      imagery service, the detector, the OCR reader and the energy estimate
      (whose computation is not part of this model). */
  datatype World = World(
    files: string -> Option<Bytes>,
    exifOf: Bytes -> PhotoForensics.ExifParse,
    nowIso: string,
    today: int,
    parseTime: string -> Result<int, string>,
    solar: (int, real, real) -> Result<PhotoForensics.SolarPosition, string>,
    shadowNoise: real,
    imagery: int -> Option<Bytes>,
    yolo: Bytes -> Yolo.YoloRun,
    ocrOf: Bytes -> EquipmentCheck.OcrReading,
    energy: Result<EnergyPrediction, string>)

  datatype Notification = Notification(token: string, title: string, body: string, data: map<string, string>)

  /** A write to the application store, or the push message. */
  datatype Effect =
    | SetStatus(status: string)
    | SetFinal(status: string, report: VerificationReport, energy: EnergyPrediction)
    | Notify(note: Notification)

  /** `raised` when an exception escaped the run: nothing handles it. */
  datatype PipelineRun = PipelineRun(effects: seq<Effect>, raised: bool)

  datatype CheckResults = CheckResults(
    gps: MetricScore,
    shadow: ShadowAnalysisResult,
    satellite: SatelliteAnalysisResult,
    equipment: EquipmentCheckResult,
    energy: EnergyPrediction)
  {
    function Scores(): Aggregator.CheckScores
    {
      Aggregator.CheckScores(gps.score, shadow.score, satellite.score, equipment.score)
    }

    predicate Valid()
    {
      gps.Valid() && shadow.Valid() && satellite.Valid() && equipment.Valid()
    }
  }

  /** The shadow check on the wide rooftop photo at the position and capture
      time the GPS step returned. */
  function ShadowOf(doc: ApplicationModel, w: World, captureTime: string, lat: real, lon: real)
    : Result<ShadowAnalysisResult, string>
  {
    PhotoForensics.ShadowAnalysisCheck(
      captureTime, lat, lon, w.parseTime, w.solar, w.files(doc.wideRooftopPhoto.s3Key), w.shadowNoise)
  }

  /** The backend satellite check of the application. */
  function SatelliteOf(doc: ApplicationModel, w: World): Result<SatelliteAnalysisResult, string>
  {
    BackendSatellite.SatelliteVerification(w.today, doc.submissionDate, doc.declaredPanelCount, w.imagery, w.yolo)
  }

  /** The checks after GPS, in the order the code awaits them. A three-value GPS
      return fails the four-name unpacking. */
  function RunChecks(doc: ApplicationModel, w: World, gps: PhotoForensics.GpsReturn): (r: Result<CheckResults, string>)
    ensures gps.Triple? ==> r.Failure?
    ensures r.Success? <==>
      && gps.Quad?
      && ShadowOf(doc, w, gps.captureTime, gps.lat, gps.lon).Success?
      && SatelliteOf(doc, w).Success?
      && w.energy.Success?
    ensures r.Success? ==>
      && r.value.shadow == ShadowOf(doc, w, gps.captureTime, gps.lat, gps.lon).value
      && r.value.equipment == Equipment(doc, w)
      && r.value.energy == w.energy.value
    ensures gps.Quad? && ShadowOf(doc, w, gps.captureTime, gps.lat, gps.lon).Failure? ==>
      r == Failure(ShadowOf(doc, w, gps.captureTime, gps.lat, gps.lon).error)
    ensures r.Success? ==> r.value.gps == gps.metric
    ensures r.Success? && gps.metric.Valid() ==> r.value.Valid()
    ensures r.Success? ==>
      var satellite :=
        BackendSatellite.SatelliteVerification(w.today, doc.submissionDate, doc.declaredPanelCount, w.imagery, w.yolo);
      satellite.Success? && r.value.satellite == satellite.value
  {
    match gps
    case Triple(_, _, _) => Failure("ValueError: not enough values to unpack (expected 4, got 3)")
    case Quad(gpsMetric, detectedLat, detectedLon, captureTime) =>
      match ShadowOf(doc, w, captureTime, detectedLat, detectedLon)
      case Failure(e) => Failure(e)
      case Success(shadow) =>
        match SatelliteOf(doc, w)
        case Failure(e) => Failure(e)
        case Success(satellite) =>
          var equipment := Equipment(doc, w);
          match w.energy
          case Failure(e) => Failure(e)
          case Success(energy) => Success(CheckResults(gpsMetric, shadow, satellite, equipment, energy))
  }

  /** The equipment check on the stored serial-number photo. */
  function Equipment(doc: ApplicationModel, w: World): (r: EquipmentCheckResult)
    ensures r.Valid()
    ensures w.files(doc.serialNumberPhoto.s3Key).None? ==>
      r.score == 0.0 && r.detectedSerials == [] && r.verifiedSerials == []
    ensures w.files(doc.serialNumberPhoto.s3Key).Some? ==>
      var photo := w.files(doc.serialNumberPhoto.s3Key);
      r == EquipmentCheck.EquipmentVerification(photo, w.ocrOf(photo.value))
    ensures forall x :: x in r.verifiedSerials ==> x in EquipmentCheck.AlmmApprovedList
  {
    var serialPhoto := w.files(doc.serialNumberPhoto.s3Key);
    // The reading is only consulted when the photo exists.
    var reading := if serialPhoto.Some? then w.ocrOf(serialPhoto.value) else EquipmentCheck.Texts([]);
    EquipmentCheck.EquipmentVerification(serialPhoto, reading)
  }

  /** The push message: the last four characters of the id and the status in
      capitals, with the status itself in the data. */
  function NotificationFor(appId: string, finalStatus: string): (n: Notification)
    ensures n.data.Keys == {"app_id", "status"} && n.data["status"] == finalStatus && n.data["app_id"] == appId
  {
    Notification(
      PushToken,
      PushTitle,
      "Your application (ID: " + LastChars(appId, 4) + ") status is now: " + Upper(finalStatus) + ".",
      map["app_id" := appId, "status" := finalStatus])
  }

  /** Aggregation, decision, report and the closing writes. */
  function Finish(appId: string, results: CheckResults, cfg: Settings): (r: Result<seq<Effect>, string>)
    ensures cfg.WeightsNonNegative() && results.Valid() ==> r.Success?
    ensures r.Success? ==>
      var confidence := Aggregator.Confidence(results.Scores(), cfg);
      var d := Decide(confidence, cfg);
      && |r.value| == 2
      && r.value[0].SetFinal?
      && r.value[0].status == d.Status()
      && r.value[0].report.Valid()
      && r.value[0].report.decision == d.Label()
      && Numeric.Within4(r.value[0].report.confidenceScore, confidence)
      && r.value[0].energy == results.energy
      && r.value[1] == Notify(NotificationFor(appId, d.Status()))
  {
    var confidence := Aggregator.Confidence(results.Scores(), cfg);
    assert cfg.WeightsNonNegative() && results.Valid() ==> InUnit(confidence) by {
      if cfg.WeightsNonNegative() && results.Valid() {
        assert results.Scores().InUnit();
        Aggregator.ConfidenceInUnit(results.Scores(), cfg);
      }
    }
    var d := Decide(confidence, cfg);
    match AssembleReport(results.gps, results.shadow, results.satellite, results.equipment, confidence, cfg)
    case Failure(e) => Failure("ValidationError: " + e.field)
    case Success(report) =>
      Success([SetFinal(d.Status(), report, results.energy), Notify(NotificationFor(appId, d.Status()))])
  }

  /** A run once the checks have an outcome: "verifying" has been written
      first; an exception in the checks or in building the report ends the run
      right there. */
  function Run(appId: string, checks: Result<CheckResults, string>, cfg: Settings): (run: PipelineRun)
    ensures |run.effects| >= 1 && run.effects[0] == SetStatus(Verifying)
    ensures run.raised <==> |run.effects| == 1
    ensures checks.Failure? ==> run.raised
    ensures checks.Success? && checks.value.Valid() && cfg.WeightsNonNegative() ==> !run.raised
    ensures !run.raised ==> checks.Success? && |run.effects| == 3
    ensures !run.raised ==>
      var confidence := Aggregator.Confidence(checks.value.Scores(), cfg);
      && run.effects[1].SetFinal?
      && run.effects[1].status == Decide(confidence, cfg).Status()
      && IsTerminal(run.effects[1].status)
      && run.effects[1].report.Valid()
      && Numeric.Within4(run.effects[1].report.confidenceScore, confidence)
      && run.effects[2] == Notify(NotificationFor(appId, run.effects[1].status))
  {
    var opening := [SetStatus(Verifying)];
    match checks
    case Failure(_) => PipelineRun(opening, true)
    case Success(results) =>
      match Finish(appId, results, cfg)
      case Failure(_) => PipelineRun(opening, true)
      case Success(closing) => PipelineRun([SetStatus(Verifying), closing[0], closing[1]], false)
  }

  /** The GPS step as written. */
  function GpsStep(doc: ApplicationModel, w: World): (gps: PhotoForensics.GpsReturn)
    ensures gps.metric.Valid()
    ensures gps.Triple? <==> w.files(doc.wideRooftopPhoto.s3Key).None?
  {
    PhotoForensics.GpsCheck(
      w.files(doc.wideRooftopPhoto.s3Key), ExifFor(w, doc), doc.registeredLat, doc.registeredLon, w.nowIso)
  }

  /** The GPS step with the four-value return on a missing photo. */
  function GpsStepFixed(doc: ApplicationModel, w: World): (gps: PhotoForensics.GpsReturn)
    ensures gps.Quad? && gps.metric.Valid()
    ensures w.files(doc.wideRooftopPhoto.s3Key).None? ==> gps.metric.score == 0.0 && gps.captureTime == ""
    ensures w.files(doc.wideRooftopPhoto.s3Key).Some? ==> gps == GpsStep(doc, w)
  {
    PhotoForensics.GpsCheckFixed(
      w.files(doc.wideRooftopPhoto.s3Key), ExifFor(w, doc), doc.registeredLat, doc.registeredLon, w.nowIso)
  }

  /** The EXIF parse of the wide rooftop photo; consulted only when it exists. */
  function ExifFor(w: World, doc: ApplicationModel): PhotoForensics.ExifParse
  {
    var photo := w.files(doc.wideRooftopPhoto.s3Key);
    if photo.Some? then w.exifOf(photo.value) else PhotoForensics.ExifParse([], None)
  }

  /** The wide rooftop photo exists and the shadow, satellite and energy
      steps all return. */
  predicate ChecksSucceed(doc: ApplicationModel, w: World)
  {
    var gps := GpsStep(doc, w);
    && gps.Quad?
    && ShadowOf(doc, w, gps.captureTime, gps.lat, gps.lon).Success?
    && SatelliteOf(doc, w).Success?
    && w.energy.Success?
  }

  /** `run_verification_pipeline` as written. */
  function RunPipeline(appId: string, doc: ApplicationModel, w: World, cfg: Settings): (run: PipelineRun)
    ensures |run.effects| >= 1 && run.effects[0] == SetStatus(Verifying)
    ensures w.files(doc.wideRooftopPhoto.s3Key).None? ==> run.raised
    ensures !ChecksSucceed(doc, w) ==> run.raised
    ensures !run.raised ==> |run.effects| == 3
    ensures ChecksSucceed(doc, w) && cfg.WeightsNonNegative() ==>
      var checks := RunChecks(doc, w, GpsStep(doc, w)).value;
      && !run.raised
      && run.effects[1].SetFinal?
      && IsTerminal(run.effects[1].status)
      && run.effects[1].status == Decide(Aggregator.Confidence(checks.Scores(), cfg), cfg).Status()
      && run.effects[1].energy == w.energy.value
  {
    Run(appId, RunChecks(doc, w, GpsStep(doc, w)), cfg)
  }

  /** The run with the four-value GPS return on a missing photo. */
  function RunPipelineFixed(appId: string, doc: ApplicationModel, w: World, cfg: Settings): (run: PipelineRun)
    ensures |run.effects| >= 1 && run.effects[0] == SetStatus(Verifying)
    ensures w.files(doc.wideRooftopPhoto.s3Key).Some? ==> run == RunPipeline(appId, doc, w, cfg)
  {
    Run(appId, RunChecks(doc, w, GpsStepFixed(doc, w)), cfg)
  }

  // ---------------------------------------------------------------- store

  type Store = map<string, ApplicationModel>

  /** An `update_one` with `$set`: a missing document is left missing. */
  function Apply(db: Store, id: string, e: Effect): (db': Store)
    ensures db'.Keys == db.Keys
    ensures forall k :: k in db && k != id ==> db'[k] == db[k]
    ensures id in db && e.SetStatus? ==> db'[id] == db[id].(status := e.status)
    ensures id in db && e.SetFinal? ==>
      db'[id] == db[id].(status := e.status, verificationReport := Some(e.report), expectedEnergy := Some(e.energy))
    ensures e.Notify? ==> db' == db
  {
    if id !in db then db
    else match e
      case SetStatus(s) => db[id := db[id].(status := s)]
      case SetFinal(s, report, energy) =>
        db[id := db[id].(status := s, verificationReport := Some(report), expectedEnergy := Some(energy))]
      case Notify(_) => db
  }

  function ApplyAll(db: Store, id: string, effects: seq<Effect>): (db': Store)
    ensures db'.Keys == db.Keys
  {
    if |effects| == 0 then db else ApplyAll(Apply(db, id, effects[0]), id, effects[1..])
  }

  /** A document has a report exactly when its status is a final one. */
  predicate Consistent(doc: ApplicationModel)
  {
    doc.verificationReport.Some? <==> IsTerminal(doc.status)
  }

  /** The effect lists a run produces: the "verifying" write alone, or followed
      by one final write with a terminal status and one notification. */
  predicate RunShaped(effects: seq<Effect>)
  {
    && |effects| >= 1
    && effects[0] == SetStatus(Verifying)
    && (|effects| == 1 || (|effects| == 3 && effects[1].SetFinal? && IsTerminal(effects[1].status) && effects[2].Notify?))
  }

  lemma RunIsShaped(appId: string, checks: Result<CheckResults, string>, cfg: Settings)
    ensures RunShaped(Run(appId, checks, cfg).effects)
  {
  }

  lemma ApplyAllSteps(db: Store, id: string, effects: seq<Effect>)
    requires |effects| > 0
    ensures ApplyAll(db, id, effects) == ApplyAll(Apply(db, id, effects[0]), id, effects[1..])
  {
  }

  /** Runs touch only status, report and energy: the applicant and the
      declared panel count stay as submitted. */
  lemma {:induction false} ApplyAllKeepsApplicant(db: Store, id: string, effects: seq<Effect>)
    requires id in db
    ensures ApplyAll(db, id, effects)[id].userId == db[id].userId
    ensures ApplyAll(db, id, effects)[id].declaredPanelCount == db[id].declaredPanelCount
    decreases |effects|
  {
    if |effects| > 0 {
      ApplyAllKeepsApplicant(Apply(db, id, effects[0]), id, effects[1..]);
    }
  }

  /** Consistency after every prefix of a run-shaped effect list. */
  lemma {:induction false} ShapedPrefixConsistent(db: Store, id: string, effects: seq<Effect>, n: nat)
    requires id in db && db[id].status == Submitted && db[id].verificationReport.None?
    requires RunShaped(effects) && n <= |effects|
    ensures Consistent(ApplyAll(db, id, effects[..n])[id])
  {
    var d1 := Apply(db, id, effects[0]);
    assert !IsTerminal(Verifying);
    if n == 0 {
      assert effects[..0] == [];
    } else {
      var p := effects[..n];
      ApplyAllSteps(db, id, p);
      if n == 1 {
        assert p[1..] == [];
      } else {
        var d2 := Apply(d1, id, effects[1]);
        ApplyAllSteps(d1, id, p[1..]);
        if n == 2 {
          assert p[1..][1..] == [];
        } else {
          ApplyAllSteps(d2, id, p[1..][1..]);
          assert p[1..][1..][1..] == [];
        }
      }
    }
  }

  /** A freshly submitted document stays consistent after every prefix of a run:
      the report never appears without a final status, nor the reverse. */
  lemma RunKeepsReportWithFinalStatus(
    appId: string, checks: Result<CheckResults, string>, cfg: Settings, db: Store, n: nat)
    requires appId in db && db[appId].status == Submitted && db[appId].verificationReport.None?
    requires n <= |Run(appId, checks, cfg).effects|
    ensures Consistent(ApplyAll(db, appId, Run(appId, checks, cfg).effects[..n])[appId])
  {
    RunIsShaped(appId, checks, cfg);
    ShapedPrefixConsistent(db, appId, Run(appId, checks, cfg).effects, n);
  }

  /** A raised run leaves a submitted document "verifying" with no report, for good. */
  lemma RaisedRunStrandsDocument(
    appId: string, checks: Result<CheckResults, string>, cfg: Settings, db: Store)
    requires appId in db && db[appId].verificationReport.None?
    requires Run(appId, checks, cfg).raised
    ensures ApplyAll(db, appId, Run(appId, checks, cfg).effects)[appId].status == Verifying
    ensures ApplyAll(db, appId, Run(appId, checks, cfg).effects)[appId].verificationReport.None?
  {
    var e := Run(appId, checks, cfg).effects;
    assert e == [SetStatus(Verifying)];
    assert ApplyAll(db, appId, e) == ApplyAll(Apply(db, appId, e[0]), appId, []);
  }

  /** A completed run leaves the decided status and report, and announces that
      same status. */
  lemma CompletedRunStoresDecision(
    appId: string, checks: Result<CheckResults, string>, cfg: Settings, db: Store)
    requires appId in db
    requires !Run(appId, checks, cfg).raised
    ensures
      var run := Run(appId, checks, cfg);
      var stored := ApplyAll(db, appId, run.effects)[appId];
      && IsTerminal(stored.status)
      && stored.verificationReport == Some(run.effects[1].report)
      && run.effects[2].note.data["status"] == stored.status
  {
    var e := Run(appId, checks, cfg).effects;
    var d1 := Apply(db, appId, e[0]);
    var d2 := Apply(d1, appId, e[1]);
    ApplyAllSteps(db, appId, e);
    ApplyAllSteps(d1, appId, e[1..]);
    ApplyAllSteps(d2, appId, e[1..][1..]);
    assert e[1..][1..][1..] == [];
  }

  /** There is no guard against a second run: re-running a finished document
      puts it back to "verifying" while the old report stays. */
  lemma RerunReopensFinishedDocument(
    appId: string, checks: Result<CheckResults, string>, cfg: Settings, db: Store)
    requires appId in db && IsTerminal(db[appId].status) && db[appId].verificationReport.Some?
    ensures
      var after := Apply(db, appId, Run(appId, checks, cfg).effects[0])[appId];
      after.status == Verifying && after.verificationReport == db[appId].verificationReport && !Consistent(after)
  {
  }

  /** There is no compare-and-set: of two final writes the later one wins,
      whatever the first wrote. */
  lemma LastFinalWriteWins(db: Store, id: string, first: Effect, second: Effect)
    requires first.SetFinal? && second.SetFinal?
    ensures Apply(Apply(db, id, first), id, second) == Apply(db, id, second)
  {
  }

  // ---------------------------------------------------------------- GPS finding

  /** As written, a wide-rooftop photo missing from storage makes the run raise
      after the "verifying" write: the document never reaches a final status. */
  lemma MissingPhotoStrandsRun(appId: string, doc: ApplicationModel, w: World, cfg: Settings, db: Store)
    requires w.files(doc.wideRooftopPhoto.s3Key).None?
    requires appId in db && db[appId].verificationReport.None?
    ensures RunPipeline(appId, doc, w, cfg).raised
    ensures ApplyAll(db, appId, RunPipeline(appId, doc, w, cfg).effects)[appId].status == Verifying
  {
    RaisedRunStrandsDocument(appId, RunChecks(doc, w, GpsStep(doc, w)), cfg, db);
  }

  /** With the four-value return, the same missing photo scores 0.0 for GPS and
      for shadows (an empty capture time never parses) and the run completes, as
      long as the other checks do. */
  lemma MissingPhotoCompletesWhenFixed(appId: string, doc: ApplicationModel, w: World, cfg: Settings)
    requires w.files(doc.wideRooftopPhoto.s3Key).None?
    requires w.parseTime("").Failure?
    requires cfg.WeightsNonNegative()
    requires BackendSatellite.SatelliteVerification(
      w.today, doc.submissionDate, doc.declaredPanelCount, w.imagery, w.yolo).Success?
    requires w.energy.Success?
    ensures !RunPipelineFixed(appId, doc, w, cfg).raised
  {
    var gps := GpsStepFixed(doc, w);
    var sun := PhotoForensics.ExpectedSun(gps.captureTime, gps.lat, gps.lon, w.parseTime, w.solar);
    assert sun.Failure?;
    var checks := RunChecks(doc, w, gps);
    assert checks.Success?;
  }
}
