/**
 * The application endpoints (backend/api/endpoints/applications.py and
 * backend/api/endpoints/verifications.py) as functions from a request and the
 * stored state to a response and the new state. The application collection is
 * the orchestrator's store, keyed by the canonical (lower-case hexadecimal)
 * form of each document's id. Authentication is not part of this model: the
 * caller's user id and e-mail come in as arguments.
 */
module Endpoints {
  import opened Wrappers
  import opened Config
  import opened Models
  import Storage
  import opened DecisionEngine
  import Orchestrator

  /** An HTTP answer: the body, or a status code and detail. An exception the
      handler does not catch surfaces as a 500. */
  datatype Response<T> = Ok(value: T) | HttpError(code: int, detail: string)

  const InvalidIdDetail := "Invalid Application ID format."
  const NotFoundDetail := "Application not found."
  const ReportMissingDetail := "Final status reached, but report content is missing."
  const InProgressPrefix := "Verification for this application is still in progress. Current status: "
  const InvalidFormPrefix := "Invalid form data: "
  const SaveFailedDetail := "Could not save uploaded files."
  const InternalErrorDetail := "Internal Server Error"
  const SubmittedMessage := "Application submitted successfully. Verification is running in the background."

  predicate IsHexDigit(c: char)
  {
    '0' <= c <= '9' || 'a' <= c <= 'f' || 'A' <= c <= 'F'
  }

  /** The strings `ObjectId(...)` accepts: 24 hexadecimal digits. */
  predicate IsObjectIdText(s: string)
  {
    |s| == 24 && forall i :: 0 <= i < |s| ==> IsHexDigit(s[i])
  }

  function LowerHex(c: char): (d: char)
    requires IsHexDigit(c)
    ensures IsHexDigit(d) && !('A' <= d <= 'F')
    ensures 'A' <= c <= 'F' ==> d as int == c as int + 32
    ensures !('A' <= c <= 'F') ==> d == c
  {
    if 'A' <= c <= 'F' then (c as int + 32) as char else c
  }

  /** A canonical id: what `str(ObjectId(...))` prints. */
  predicate IsCanonicalId(s: string)
  {
    IsObjectIdText(s) && forall i :: 0 <= i < |s| ==> !('A' <= s[i] <= 'F')
  }

  /** `ObjectId(application_id)`: the id the text denotes, in canonical form,
      or nothing when the text is not 24 hexadecimal digits. */
  function ParseObjectId(text: string): (r: Option<string>)
    ensures r.Some? <==> IsObjectIdText(text)
    ensures r.Some? ==> IsCanonicalId(r.value) && |r.value| == |text|
    ensures r.Some? ==> forall i :: 0 <= i < |text| ==> r.value[i] == LowerHex(text[i])
  {
    if IsObjectIdText(text) then Some(seq(|text|, i requires 0 <= i < |text| => LowerHex(text[i]))) else None
  }

  /** Parsing a canonical id gives it back. */
  lemma CanonicalIdParsesToItself(id: string)
    requires IsCanonicalId(id)
    ensures ParseObjectId(id) == Some(id)
  {
    assert ParseObjectId(id).value == id;
  }

  /** `find_one({"_id": id, "user_id": user})`. */
  function FindOwned(db: Orchestrator.Store, id: string, userId: string): (r: Option<ApplicationModel>)
    ensures r.Some? <==> id in db && db[id].userId == userId
    ensures r.Some? ==> r.value == db[id]
  {
    if id in db && db[id].userId == userId then Some(db[id]) else None
  }

  /** The id check and the owner's lookup shared by both read endpoints. */
  function LookupOwned(db: Orchestrator.Store, applicationId: string, userId: string): (r: Response<ApplicationModel>)
    ensures !IsObjectIdText(applicationId) ==> r == HttpError(400, InvalidIdDetail)
    ensures IsObjectIdText(applicationId) && FindOwned(db, ParseObjectId(applicationId).value, userId).None? ==>
      r == HttpError(404, NotFoundDetail)
    ensures r.Ok? <==> IsObjectIdText(applicationId) && FindOwned(db, ParseObjectId(applicationId).value, userId).Some?
    ensures r.Ok? ==> r.value == db[ParseObjectId(applicationId).value] && r.value.userId == userId
  {
    match ParseObjectId(applicationId)
    case None => HttpError(400, InvalidIdDetail)
    case Some(id) =>
      match FindOwned(db, id, userId)
      case None => HttpError(404, NotFoundDetail)
      case Some(doc) => Ok(doc)
  }

  /** `ApplicationModel(**app_doc)`: a stored document that breaks a field
      constraint raises, which the handler does not catch. */
  function Revalidate(doc: ApplicationModel): (r: Response<ApplicationModel>)
    ensures r.Ok? <==> doc.Valid()
    ensures r.Ok? ==> r.value == doc
    ensures r.HttpError? ==> r.code == 500
  {
    if doc.Valid() then Ok(doc) else HttpError(500, InternalErrorDetail)
  }

  /** The statuses during which the report is not served. "submitted" is not one. */
  predicate InProgress(status: string)
  {
    status == "initial_application" || status == Orchestrator.Verifying
  }

  /** `get_application_details`. */
  function GetApplicationDetails(db: Orchestrator.Store, applicationId: string, userId: string)
    : (r: Response<ApplicationModel>)
    ensures !IsObjectIdText(applicationId) ==> r == HttpError(400, InvalidIdDetail)
    ensures r.HttpError? ==> r.code in {400, 404, 500}
    ensures r.Ok? <==>
      && IsObjectIdText(applicationId)
      && FindOwned(db, ParseObjectId(applicationId).value, userId).Some?
      && db[ParseObjectId(applicationId).value].Valid()
    ensures r.Ok? ==> r.value == db[ParseObjectId(applicationId).value] && r.value.userId == userId
  {
    match LookupOwned(db, applicationId, userId)
    case HttpError(code, detail) => HttpError(code, detail)
    case Ok(doc) => Revalidate(doc)
  }

  /** `get_verification_report`: 400 for a malformed id, 404 for a document the
      caller does not own, 409 while the status is in progress, 404 when no
      report is stored, and otherwise the stored report. */
  function GetVerificationReport(db: Orchestrator.Store, applicationId: string, userId: string)
    : (r: Response<VerificationReport>)
    ensures !IsObjectIdText(applicationId) ==> r == HttpError(400, InvalidIdDetail)
    ensures IsObjectIdText(applicationId) && FindOwned(db, ParseObjectId(applicationId).value, userId).None? ==>
      r == HttpError(404, NotFoundDetail)
    ensures r.Ok? <==>
      && GetApplicationDetails(db, applicationId, userId).Ok?
      && !InProgress(db[ParseObjectId(applicationId).value].status)
      && db[ParseObjectId(applicationId).value].verificationReport.Some?
    ensures r.Ok? ==> Some(r.value) == db[ParseObjectId(applicationId).value].verificationReport
    ensures GetApplicationDetails(db, applicationId, userId).Ok? ==>
      var doc := db[ParseObjectId(applicationId).value];
      && (InProgress(doc.status) <==> r == HttpError(409, InProgressPrefix + doc.status))
      && (!InProgress(doc.status) && doc.verificationReport.None? <==> r == HttpError(404, ReportMissingDetail))
  {
    match GetApplicationDetails(db, applicationId, userId)
    case HttpError(code, detail) => HttpError(code, detail)
    case Ok(application) =>
      if InProgress(application.status) then HttpError(409, InProgressPrefix + application.status)
      else if application.verificationReport.None? then HttpError(404, ReportMissingDetail)
      else Ok(application.verificationReport.value)
  }

  /** A served report is the one the details endpoint shows for the same
      request, on a document whose run is not in progress. */
  lemma ServedReportMatchesDetails(db: Orchestrator.Store, applicationId: string, userId: string)
    requires GetVerificationReport(db, applicationId, userId).Ok?
    ensures
      var details := GetApplicationDetails(db, applicationId, userId);
      && details.Ok?
      && details.value.verificationReport == Some(GetVerificationReport(db, applicationId, userId).value)
      && !InProgress(details.value.status)
  {
  }

  /** A valid document that is consistent and final is always served its report. */
  lemma FinishedDocumentIsServed(db: Orchestrator.Store, id: string, userId: string)
    requires IsCanonicalId(id) && id in db && db[id].userId == userId && db[id].Valid()
    requires Orchestrator.Consistent(db[id]) && IsTerminal(db[id].status)
    ensures GetVerificationReport(db, id, userId) == Ok(db[id].verificationReport.value)
  {
    CanonicalIdParsesToItself(id);
  }

  /** Only the owner sees anything: any other user gets 404 for a well-formed id. */
  lemma OtherUsersGetNotFound(db: Orchestrator.Store, id: string, owner: string, other: string)
    requires IsCanonicalId(id) && id in db && db[id].userId == owner && other != owner
    ensures GetVerificationReport(db, id, other) == HttpError(404, NotFoundDetail)
    ensures GetApplicationDetails(db, id, other) == HttpError(404, NotFoundDetail)
  {
    CanonicalIdParsesToItself(id);
  }

  // ------------------------------------------------------------ submission

  /** The background call scheduled with the application's id and document. */
  datatype Task = Task(appId: string, doc: ApplicationModel, email: string)

  datatype Receipt = Receipt(applicationId: string, message: string)

  /** Everything a submission leaves behind: the answer, the disk, the store
      and the scheduled pipeline run, if any. */
  datatype Submission = Submission(
    response: Response<Receipt>,
    disk: Storage.Disk,
    db: Orchestrator.Store,
    scheduled: Option<Task>)

  function PhotoAt(keys: map<string, string>, fileType: string): PhotoMetadata
  {
    PhotoMetadata(if fileType in keys then keys[fileType] else "", None, None, None)
  }

  /** The document a submission inserts: the form fields, the three stored
      photo keys, status "submitted" and no report. `insert_one` writes the
      generated id into the same dictionary that is then handed to the pipeline. */
  function SubmittedDocument(
    newId: string, userId: string, form: ApplicationCreate, keys: map<string, string>, now: int): (doc: ApplicationModel)
    ensures doc.status == Orchestrator.Submitted && doc.verificationReport.None?
    ensures doc.userId == userId && doc.id == Some(newId) && doc.submissionDate == now
    ensures doc.declaredPanelCount == form.declaredPanelCount
    ensures form.declaredPanelCount >= 1 ==> doc.Valid() && Orchestrator.Consistent(doc)
    ensures "wide_rooftop" in keys ==> doc.wideRooftopPhoto.s3Key == keys["wide_rooftop"]
    ensures "serial_number" in keys ==> doc.serialNumberPhoto.s3Key == keys["serial_number"]
    ensures "inverter" in keys ==> doc.inverterPhoto.s3Key == keys["inverter"]
  {
    ApplicationModel(
      Some(newId), userId, form.address, form.registeredLat, form.registeredLon,
      form.systemCapacityKw, form.declaredPanelCount,
      PhotoAt(keys, "wide_rooftop"), PhotoAt(keys, "serial_number"), PhotoAt(keys, "inverter"),
      Orchestrator.Submitted, now, None, None)
  }

  /** The part of `submit_application` after the files were saved: insert
      the document and schedule the pipeline, or fail with a 500. */
  function InsertAndSchedule(
    saved: Storage.Saved, userId: string, email: string, form: ApplicationCreate,
    db: Orchestrator.Store, newId: string, now: int): (s: Submission)
    requires form.declaredPanelCount >= 1
    ensures s.disk == saved.disk
    ensures saved.keys.Failure? ==> s.response == HttpError(500, SaveFailedDetail) && s.db == db && s.scheduled.None?
    ensures s.response.Ok? <==> saved.keys.Success? && newId !in db
    ensures s.response.Ok? ==>
      && s.response.value == Receipt(newId, SubmittedMessage)
      && s.db == db[newId := SubmittedDocument(newId, userId, form, saved.keys.value, now)]
      && s.db[newId].Valid()
      && s.scheduled == Some(Task(newId, s.db[newId], email))
  {
    match saved.keys
    case Failure(_) => Submission(HttpError(500, SaveFailedDetail), saved.disk, db, None)
    case Success(keys) =>
      if newId in db then Submission(HttpError(500, InternalErrorDetail), saved.disk, db, None)
      else
        var doc := SubmittedDocument(newId, userId, form, keys, now);
        Submission(Ok(Receipt(newId, SubmittedMessage)), saved.disk, db[newId := doc], Some(Task(newId, doc, email)))
  }

  /** `submit_application`: form validation, then the photo files, then the
      insert and the scheduling. `newId` is the id the database assigns on
      insert (an insert under an id already present fails, which is a 500);
      `now` is the submission day. */
  function SubmitApplication(
    userId: string,
    email: string,
    form: ApplicationCreate,
    wide: Storage.Upload,
    serial: Storage.Upload,
    inverter: Storage.Upload,
    base: string,
    disk: Storage.Disk,
    canWrite: string -> bool,
    db: Orchestrator.Store,
    newId: string,
    now: int): (s: Submission)
    ensures form.declaredPanelCount < 1 ==>
      s == Submission(HttpError(400, InvalidFormPrefix + "declared_panel_count"), disk, db, None)
    ensures form.declaredPanelCount >= 1
      && Storage.SavePhotos(base, userId, wide, serial, inverter, disk, canWrite).keys.Failure?
      ==> s.response == HttpError(500, SaveFailedDetail) && s.db == db && s.scheduled.None?
    ensures s.response.Ok? <==>
      && form.declaredPanelCount >= 1
      && (forall i :: 0 <= i < 3 ==> canWrite(Storage.PathOf(base, userId, Storage.PhotoParts(wide, serial, inverter)[i])))
      && newId !in db
    ensures s.response.Ok? ==>
      && s.response.value == Receipt(newId, SubmittedMessage)
      && newId in s.db
      && s.db[newId].status == Orchestrator.Submitted
      && s.db[newId].verificationReport.None?
      && s.db[newId].userId == userId
      && s.db[newId].Valid()
      && s.db[newId].declaredPanelCount == form.declaredPanelCount
      && s.scheduled == Some(Task(newId, s.db[newId], email))
  {
    match NewApplicationCreate(form.address, form.registeredLat, form.registeredLon,
                               form.systemCapacityKw, form.declaredPanelCount)
    case Failure(e) => Submission(HttpError(400, InvalidFormPrefix + e.field), disk, db, None)
    case Success(_) =>
      InsertAndSchedule(Storage.SavePhotos(base, userId, wide, serial, inverter, disk, canWrite), userId, email, form, db, newId, now)
  }

  /** Whatever the file save returned, the insert step adds at most the one
      new document and leaves every other one as it was. */
  lemma SubmissionAddsOneDocument(
    saved: Storage.Saved, userId: string, email: string, form: ApplicationCreate,
    db: Orchestrator.Store, newId: string, now: int)
    requires form.declaredPanelCount >= 1
    ensures
      var s := InsertAndSchedule(saved, userId, email, form, db, newId, now);
      && (s.response.Ok? ==> s.db.Keys == db.Keys + {newId} && newId !in db)
      && (!s.response.Ok? ==> s.db == db && s.scheduled.None?)
      && (forall k :: k in db ==> k in s.db && s.db[k] == db[k])
  {
  }

  /** The photo keys a successful submission stores read back the uploaded photos. */
  lemma SubmittedPhotosReadBack(
    userId: string, email: string, form: ApplicationCreate,
    wide: Storage.Upload, serial: Storage.Upload, inverter: Storage.Upload,
    base: string, disk: Storage.Disk, canWrite: string -> bool, db: Orchestrator.Store, newId: string, now: int)
    requires SubmitApplication(userId, email, form, wide, serial, inverter, base, disk, canWrite, db, newId, now).response.Ok?
    ensures
      var s := SubmitApplication(userId, email, form, wide, serial, inverter, base, disk, canWrite, db, newId, now);
      && Storage.GetFileContent(s.disk, s.db[newId].wideRooftopPhoto.s3Key) == Success(wide.content)
      && Storage.GetFileContent(s.disk, s.db[newId].serialNumberPhoto.s3Key) == Success(serial.content)
      && Storage.GetFileContent(s.disk, s.db[newId].inverterPhoto.s3Key) == Success(inverter.content)
  {
    var saved := Storage.SavePhotos(base, userId, wide, serial, inverter, disk, canWrite);
    var parts := Storage.PhotoParts(wide, serial, inverter);
    assert Storage.PhotoTypes[0] == "wide_rooftop" && parts[0].upload == wide;
    assert Storage.PhotoTypes[1] == "serial_number" && parts[1].upload == serial;
    assert Storage.PhotoTypes[2] == "inverter" && parts[2].upload == inverter;
  }

  /** A freshly submitted application is "submitted" with no report, which the
      report endpoint does not count as in progress: it answers 404, not 409. */
  lemma FreshSubmissionReportIsMissing(
    saved: Storage.Saved, userId: string, email: string, form: ApplicationCreate,
    db: Orchestrator.Store, newId: string, now: int)
    requires form.declaredPanelCount >= 1 && IsCanonicalId(newId)
    requires InsertAndSchedule(saved, userId, email, form, db, newId, now).response.Ok?
    ensures
      var s := InsertAndSchedule(saved, userId, email, form, db, newId, now);
      && GetVerificationReport(s.db, newId, userId) == HttpError(404, ReportMissingDetail)
      && GetApplicationDetails(s.db, newId, userId) == Ok(s.db[newId])
  {
    CanonicalIdParsesToItself(newId);
  }

  /** A run that raised leaves its document "verifying", so its owner's report
      request answers 409 from then on. */
  lemma StrandedRunAnswersConflict(
    id: string, userId: string, checks: Result<Orchestrator.CheckResults, string>, cfg: Settings, db: Orchestrator.Store)
    requires IsCanonicalId(id) && id in db && db[id].userId == userId && db[id].Valid()
    requires db[id].verificationReport.None?
    requires Orchestrator.Run(id, checks, cfg).raised
    ensures
      var after := Orchestrator.ApplyAll(db, id, Orchestrator.Run(id, checks, cfg).effects);
      GetVerificationReport(after, id, userId) == HttpError(409, InProgressPrefix + Orchestrator.Verifying)
  {
    CanonicalIdParsesToItself(id);
    var e := Orchestrator.Run(id, checks, cfg).effects;
    Orchestrator.RaisedRunStrandsDocument(id, checks, cfg, db);
    assert e == [Orchestrator.SetStatus(Orchestrator.Verifying)];
    Orchestrator.ApplyAllSteps(db, id, e);
    assert e[1..] == [];
  }

  /** A completed run on a valid document makes the report endpoint serve the
      report that run wrote. */
  lemma CompletedRunIsServed(
    id: string, userId: string, checks: Result<Orchestrator.CheckResults, string>, cfg: Settings, db: Orchestrator.Store)
    requires IsCanonicalId(id) && id in db && db[id].userId == userId && db[id].Valid()
    requires !Orchestrator.Run(id, checks, cfg).raised
    ensures
      var run := Orchestrator.Run(id, checks, cfg);
      GetVerificationReport(Orchestrator.ApplyAll(db, id, run.effects), id, userId) == Ok(run.effects[1].report)
  {
    var run := Orchestrator.Run(id, checks, cfg);
    Orchestrator.CompletedRunStoresDecision(id, checks, cfg, db);
    Orchestrator.ApplyAllKeepsApplicant(db, id, run.effects);
    var after := Orchestrator.ApplyAll(db, id, run.effects);
    assert after[id].Valid();
    FinishedDocumentIsServed(after, id, userId);
  }
}
