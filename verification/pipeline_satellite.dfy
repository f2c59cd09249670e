/**
 * The batch pipeline's satellite check
 * (deliverables/pipeline_code/services/satellite_analysis.py): the request
 * windows and buffer sizes, the image-size floor, the metadata kept from a
 * fetch, the QC verdict and the weighted panel-count ladder. Sentinel Hub and
 * the detector are parameters; dates are day numbers.
 */
module PipelineSatellite {
  import opened Wrappers
  import opened Text
  import opened Numeric
  import opened Config
  import Models
  import opened PipelineModels
  import opened Yolo
  import opened PanelLadder
  import Aggregator

  /** A `(start, end)` time interval, both ends inclusive day numbers. */
  datatype Window = Window(start: int, end: int)

  datatype ShRequest = ShRequest(window: Window, bufferSqft: int)

  /** What `request.get_data()` did: raised, or returned `parts` responses, the
      first being the image and the second the metadata with its `tileDate`. */
  datatype ShResponse = ShRaised | ShReturned(parts: nat, image: Models.Bytes, tileDate: Option<string>)

  const CollectionName := "SENTINEL2_L2A"
  const ImageResolutionM: real := 10.0
  const MinImageSide: int := 100
  const PreBufferSqft: int := 2400
  const PostBufferSqft: int := 1200

  /** The buffer area whose radius `get_bbox_from_point` uses: the requested one
      when a radius is tabulated for it, otherwise the 2400 sq ft one. */
  function RadiusKey(bufferSqft: int): (k: int)
    ensures k == 1200 || k == 2400
    ensures bufferSqft == 1200 || bufferSqft == 2400 ==> k == bufferSqft
  {
    if bufferSqft == 1200 || bufferSqft == 2400 then bufferSqft else 2400
  }

  function Max(a: int, b: int): (m: int)
    ensures m >= a && m >= b && (m == a || m == b)
  {
    if a >= b then a else b
  }

  /** The requested image size in pixels for a box of the given extent. */
  function ImageSize(width: real, height: real): (size: (int, int))
    ensures size.0 >= MinImageSide && size.1 >= MinImageSide
    ensures Trunc(width / ImageResolutionM) >= MinImageSide ==> size.0 == Trunc(width / ImageResolutionM)
    ensures Trunc(height / ImageResolutionM) >= MinImageSide ==> size.1 == Trunc(height / ImageResolutionM)
  {
    (Max(Trunc(width / ImageResolutionM), MinImageSide), Max(Trunc(height / ImageResolutionM), MinImageSide))
  }

  /** `fetch_sh_image` after the request: the image with its source and capture
      date, or nothing and no metadata. */
  function FetchShImage(response: ShResponse): (r: (Option<Models.Bytes>, map<string, string>))
    ensures r.0.None? <==> response.ShRaised? || response.parts != 2
    ensures r.0.None? ==> r.1 == map[]
    ensures r.0.Some? ==>
      && r.0.value == response.image
      && r.1.Keys == {"source", "capture_date"}
      && r.1["source"] == CollectionName
      && r.1["capture_date"] == response.tileDate.GetOr("N/A")
  {
    match response
    case ShRaised => (None, map[])
    case ShReturned(parts, image, tileDate) =>
      if parts == 2 then
        (Some(image), map["source" := CollectionName, "capture_date" := tileDate.GetOr("N/A")])
      else (None, map[])
  }

  // ------------------------------------------------------ the session

  /** The two Sentinel Hub credentials the settings declare, with the values
      the environment gave them. */
  datatype ShCredentials = ShCredentials(clientId: string, clientSecret: string)

  const ClientIdSetting := "SENTINEL_HUB_CLIENT_ID"
  const ClientSecretSetting := "SENTINEL_HUB_CLIENT_SECRET"
  /** The secret's name as `get_sh_session` spells it; no setting has it. */
  const ClientSecretSettingAsWritten := "SENTEL_HUB_CLIENT_SECRET"

  const DefaultClientId := "3909a0cb-b588-48c6-955d-43ca7cbea633"
  const DefaultClientSecret := "m2aDgwzNcigBAJ4oVHU7iRvfy0YfKXtt"

  /** The shipped defaults of both credentials. */
  function DefaultCredentials(): ShCredentials
  {
    ShCredentials(DefaultClientId, DefaultClientSecret)
  }

  /** The `AttributeError` text for a setting the settings do not declare. */
  function NoSuchSetting(name: string): string
  {
    "'Settings' object has no attribute '" + name + "'"
  }

  /** `settings.<name>` for a credential: a declared setting's value; reading
      any other name raises `AttributeError`. */
  function ReadCredential(c: ShCredentials, name: string): (r: Result<string, string>)
    ensures r.Success? <==> name == ClientIdSetting || name == ClientSecretSetting
    ensures r.Success? ==> r.value == if name == ClientIdSetting then c.clientId else c.clientSecret
  {
    if name == ClientIdSetting then Success(c.clientId)
    else if name == ClientSecretSetting then Success(c.clientSecret)
    else Failure(NoSuchSetting(name))
  }

  /** The rest of `get_sh_session` once both credentials are read: a failed
      read raises, an empty credential raises `ValueError`, otherwise the
      session carries the pair. */
  function SessionFrom(id: Result<string, string>, secret: Result<string, string>): (r: Result<(string, string), string>)
    ensures r.Success? <==> id.Success? && secret.Success? && id.value != "" && secret.value != ""
    ensures r.Success? ==> r.value == (id.value, secret.value)
  {
    if id.Failure? then Failure(id.error)
    else if secret.Failure? then Failure(secret.error)
    else if id.value == "" || secret.value == "" then Failure("Sentinel Hub credentials are not configured.")
    else Success((id.value, secret.value))
  }

  /** `get_sh_session` as written: it reads the secret under a name the
      settings do not declare, so it raises whatever the credentials are. */
  function ShSessionAsWritten(c: ShCredentials): (r: Result<(string, string), string>)
    ensures r.Failure? && r.error == NoSuchSetting(ClientSecretSettingAsWritten)
  {
    assert ClientSecretSettingAsWritten != ClientIdSetting && ClientSecretSettingAsWritten != ClientSecretSetting by {
      assert ClientSecretSettingAsWritten[4] != ClientIdSetting[4];
      assert ClientSecretSettingAsWritten[4] != ClientSecretSetting[4];
    }
    SessionFrom(ReadCredential(c, ClientIdSetting), ReadCredential(c, ClientSecretSettingAsWritten))
  }

  /** `get_sh_session` reading the declared secret: a session exactly when
      both credentials are non-empty, carrying them. */
  function ShSessionFixed(c: ShCredentials): (r: Result<(string, string), string>)
    ensures r.Success? <==> c.clientId != "" && c.clientSecret != ""
    ensures r.Success? ==> r.value == (c.clientId, c.clientSecret)
  {
    SessionFrom(ReadCredential(c, ClientIdSetting), ReadCredential(c, ClientSecretSetting))
  }

  /** The imagery service as `fetch_sh_image` reaches it: every fetch first
      asks for the session (a failure is not cached, so each fetch repeats
      it), and a failure there is caught like a raised request. */
  function ThroughSession(session: Result<(string, string), string>, sh: ShRequest -> ShResponse): (f: ShRequest -> ShResponse)
    ensures session.Failure? ==> forall q :: f(q) == ShRaised
    ensures session.Success? ==> forall q :: f(q) == sh(q)
  {
    q => if session.Failure? then ShRaised else sh(q)
  }

  /** Six months up to the submission date. */
  function PreWindow(submissionDay: int): (w: Window)
    ensures w.end == submissionDay && w.end - w.start == 180
  {
    Window(submissionDay - 180, submissionDay)
  }

  /** From the submission date up to today. */
  function PostWindow(submissionDay: int, today: int): (w: Window)
    ensures w.start == submissionDay && w.end == today
  {
    Window(submissionDay, today)
  }

  function PreRequest(submissionDay: int): ShRequest
  {
    ShRequest(PreWindow(submissionDay), PreBufferSqft)
  }

  function PostRequest(submissionDay: int, today: int): ShRequest
  {
    ShRequest(PostWindow(submissionDay, today), PostBufferSqft)
  }

  function Details(b: Bucket, preCount: nat, postCount: nat, declared: int, area: real): string
  {
    var tail := "Detected: " + IntStr(postCount) + ", Declared: " + IntStr(declared)
      + ". Area: " + Fixed2(area) + " sqm.";
    match b
    case NoPanels => "YOLO detected NO panels in the post-installation image."
    case Decreased =>
      "Suspicious activity: Panel count DECREASED from " + IntStr(preCount) + " to " + IntStr(postCount) + "."
    case Verified => "Panel count verified. " + tail
    case Close => "Panel count is close. " + tail
    case Mismatch => "Significant panel count mismatch. " + tail
  }

  const PreFetchFailed := "Pre-installation image fetch failed. Likely heavy cloud cover or no data."
  const PostFetchFailed := "Post-installation image fetch failed. Cannot confirm installation."

  /** The outcome and the Sentinel Hub fetches attempted, in order. */
  datatype SatelliteRun = SatelliteRun(result: Result<SatelliteAnalysisResult, string>, requests: seq<ShRequest>)

  /** Pydantic's rejection surfaces as a raised error. */
  function Validated(r: Result<SatelliteAnalysisResult, Models.ValidationError>): (v: Result<SatelliteAnalysisResult, string>)
    ensures v.Success? <==> r.Success?
    ensures v.Success? ==> v.value == r.value
  {
    match r
    case Success(x) => Success(x)
    case Failure(e) => Failure("validation error: " + e.field)
  }

  /** `score * settings.WEIGHT_SATELLITE_ANALYSIS`. */
  function WeightedScore(b: Bucket, cfg: Settings): real
  {
    b.Score() * cfg.weightSatelliteAnalysis
  }

  /** The result of a failed fetch: score 0.0, no post-install panels, not verifiable. */
  function FetchFailure(details: string, preCount: nat, metadata: map<string, string>): (r: SatelliteAnalysisResult)
    ensures r.Valid() && r.score == 0.0 && r.qcStatus == NotVerifiable.Name()
    ensures r.preInstallPanelCount == preCount && r.postInstallPanelCount == 0
    ensures r.imageMetadata == metadata
  {
    var v := NewSatelliteResult(0.0, details, preCount, 0, 0.0, 0.0, NotVerifiable.Name(), metadata);
    v.value
  }

  /** The scoring step once both images were detected: the bucket's score times
      the satellite weight, rejected by the validators when it or the average
      confidence leaves [0, 1]. */
  function ScoreDetections(pre: Detection, post: Detection, declared: int, cfg: Settings, metadata: map<string, string>)
    : (r: Result<SatelliteAnalysisResult, string>)
    ensures r.Success? <==>
      Models.InUnit(WeightedScore(PipelineBucket(pre.panelCount, post.panelCount, declared), cfg))
      && Models.InUnit(post.avgConfidence)
    ensures r.Success? ==>
      && r.value.Valid()
      && r.value.qcStatus == Verifiable.Name()
      && r.value.preInstallPanelCount == pre.panelCount
      && r.value.postInstallPanelCount == post.panelCount
      && r.value.yoloConfidence == post.avgConfidence
      && r.value.score == WeightedScore(PipelineBucket(pre.panelCount, post.panelCount, declared), cfg)
      && r.value.imageMetadata == metadata
  {
    var b := PipelineBucket(pre.panelCount, post.panelCount, declared);
    Validated(NewSatelliteResult(
      WeightedScore(b, cfg),
      Details(b, pre.panelCount, post.panelCount, declared, post.pvAreaSqm),
      pre.panelCount,
      post.panelCount,
      post.pvAreaSqm,
      post.avgConfidence,
      Verifiable.Name(),
      metadata))
  }

  /** Both results the failure and success paths produce are valid, carry one
      of the two QC names, and score 0.0 exactly when not verifiable or bucketed so. */
  predicate WellScored(r: SatelliteAnalysisResult, declared: int, cfg: Settings)
  {
    && r.Valid()
    && (r.qcStatus == Verifiable.Name() || r.qcStatus == NotVerifiable.Name())
    && (r.qcStatus == NotVerifiable.Name() ==> r.score == 0.0 && r.postInstallPanelCount == 0)
    && (r.qcStatus == Verifiable.Name() ==>
          r.score == WeightedScore(PipelineBucket(r.preInstallPanelCount, r.postInstallPanelCount, declared), cfg))
  }

  /** The detector's reading of a fetched image, at the batch pipeline's
      square-metre factor. */
  function DetectOn(yolo: Models.Bytes -> YoloRun, image: Models.Bytes): Result<Detection, string>
  {
    Detect(yolo(image), PipelinePixelToSqm)
  }

  /** Everything after a successful pre-install fetch: detection on it, the
      post-install request, detection and scoring. */
  function AfterPreFetch(
    day: int, today: int, declared: int, cfg: Settings,
    sh: ShRequest -> ShResponse, yolo: Models.Bytes -> YoloRun,
    preContent: Models.Bytes, preMetadata: map<string, string>): (run: SatelliteRun)
    ensures 0 <= |run.requests| <= 1
    ensures |run.requests| == 1 ==> run.requests[0] == PostRequest(day, today)
    ensures run.result.Success? ==> WellScored(run.result.value, declared, cfg)
    ensures run.result.Success? && run.result.value.qcStatus == Verifiable.Name() ==> |run.requests| == 1
    ensures DetectOn(yolo, preContent).Failure? ==>
      run == SatelliteRun(Failure(DetectOn(yolo, preContent).error), [])
    ensures DetectOn(yolo, preContent).Success? ==>
      var pre := DetectOn(yolo, preContent).value;
      var post := FetchShImage(sh(PostRequest(day, today)));
      && run.requests == [PostRequest(day, today)]
      && (post.0.None? ==> run.result == Success(FetchFailure(PostFetchFailed, pre.panelCount, preMetadata)))
      && (post.0.Some? && DetectOn(yolo, post.0.value).Failure? ==>
            run.result == Failure(DetectOn(yolo, post.0.value).error))
      && (post.0.Some? && DetectOn(yolo, post.0.value).Success? ==>
            run.result == ScoreDetections(pre, DetectOn(yolo, post.0.value).value, declared, cfg, post.1))
  {
    QCNamesDistinct(Verifiable, NotVerifiable);
    match DetectOn(yolo, preContent)
    case Failure(e) => SatelliteRun(Failure(e), [])
    case Success(pre) =>
      var postReq := PostRequest(day, today);
      var (postContent, postMetadata) := FetchShImage(sh(postReq));
      if postContent.None? then
        SatelliteRun(Success(FetchFailure(PostFetchFailed, pre.panelCount, preMetadata)), [postReq])
      else
        match DetectOn(yolo, postContent.value)
        case Failure(e) => SatelliteRun(Failure(e), [postReq])
        case Success(post) =>
          SatelliteRun(ScoreDetections(pre, post, declared, cfg, postMetadata), [postReq])
  }

  /** `satellite_verification`. `submissionDay` is `None` when the submission
      date does not parse, which raises before any request. */
  function SatelliteVerification(
    submissionDay: Option<int>,
    today: int,
    declared: int,
    cfg: Settings,
    sh: ShRequest -> ShResponse,
    yolo: Models.Bytes -> YoloRun): (run: SatelliteRun)
    ensures submissionDay.None? ==> run.result.Failure? && run.requests == []
    ensures submissionDay.Some? ==> 1 <= |run.requests| <= 2 && run.requests[0] == PreRequest(submissionDay.value)
    ensures |run.requests| == 2 ==>
      FetchShImage(sh(run.requests[0])).0.Some? && run.requests[1] == PostRequest(submissionDay.value, today)
    ensures submissionDay.Some? && FetchShImage(sh(PreRequest(submissionDay.value))).0.None? ==>
      && run.requests == [PreRequest(submissionDay.value)]
      && run.result.Success?
      && run.result.value.score == 0.0
      && run.result.value.preInstallPanelCount == 0 && run.result.value.postInstallPanelCount == 0
      && run.result.value.qcStatus == NotVerifiable.Name()
      && run.result.value.imageMetadata == map[]
    ensures run.result.Success? ==> WellScored(run.result.value, declared, cfg)
    ensures run.result.Success? && run.result.value.qcStatus == Verifiable.Name() ==> |run.requests| == 2
    ensures submissionDay.Some? ==>
      var day := submissionDay.value;
      var pre := FetchShImage(sh(PreRequest(day)));
      pre.0.Some? && DetectOn(yolo, pre.0.value).Failure? ==>
        run == SatelliteRun(Failure(DetectOn(yolo, pre.0.value).error), [PreRequest(day)])
    ensures submissionDay.Some? ==>
      var day := submissionDay.value;
      var pre := FetchShImage(sh(PreRequest(day)));
      var post := FetchShImage(sh(PostRequest(day, today)));
      pre.0.Some? && DetectOn(yolo, pre.0.value).Success? ==>
        var preDetection := DetectOn(yolo, pre.0.value).value;
        && run.requests == [PreRequest(day), PostRequest(day, today)]
        && (post.0.None? ==>
              run.result == Success(FetchFailure(PostFetchFailed, preDetection.panelCount, pre.1)))
        && (post.0.Some? && DetectOn(yolo, post.0.value).Failure? ==>
              run.result == Failure(DetectOn(yolo, post.0.value).error))
        && (post.0.Some? && DetectOn(yolo, post.0.value).Success? ==>
              run.result == ScoreDetections(preDetection, DetectOn(yolo, post.0.value).value, declared, cfg, post.1))
  {
    match submissionDay
    case None => SatelliteRun(Failure("invalid isoformat string"), [])
    case Some(day) =>
      var preReq := PreRequest(day);
      var (preContent, preMetadata) := FetchShImage(sh(preReq));
      if preContent.None? then
        SatelliteRun(Success(FetchFailure(PreFetchFailed, 0, map[])), [preReq])
      else
        var rest := AfterPreFetch(day, today, declared, cfg, sh, yolo, preContent.value, preMetadata);
        SatelliteRun(rest.result, [preReq] + rest.requests)
  }

  /** The weighted score never exceeds the satellite weight. */
  lemma WeightedScoreBounded(bucket: Bucket, cfg: Settings)
    requires 0.0 <= cfg.weightSatelliteAnalysis
    ensures 0.0 <= WeightedScore(bucket, cfg) <= cfg.weightSatelliteAnalysis
  {
    ScoresAreLadderValues(bucket);
  }

  /** With a well-formed detector and a satellite weight in [0, 1], a parsed
      submission date always yields a result: the validators never reject. */
  lemma VerificationSucceeds(
    day: int, today: int, declared: int, cfg: Settings,
    sh: ShRequest -> ShResponse, yolo: Models.Bytes -> YoloRun)
    requires Models.InUnit(cfg.weightSatelliteAnalysis)
    requires forall b :: WellFormed(yolo(b)) && (yolo(b).Frames? ==> |yolo(b).frames| > 0)
    ensures SatelliteVerification(Some(day), today, declared, cfg, sh, yolo).result.Success?
  {
    var (preContent, _) := FetchShImage(sh(PreRequest(day)));
    if preContent.Some? {
      var (postContent, _) := FetchShImage(sh(PostRequest(day, today)));
      if postContent.Some? {
        DetectionInRange(yolo(postContent.value), PipelinePixelToSqm);
        var pre := Detect(yolo(preContent.value), PipelinePixelToSqm).value;
        var post := Detect(yolo(postContent.value), PipelinePixelToSqm).value;
        WeightedScoreBounded(PipelineBucket(pre.panelCount, post.panelCount, declared), cfg);
      }
    }
  }

  /** A hypothetical composition: no code path passes the batch score to the
      backend aggregator. The batch score is already multiplied by the
      satellite weight, so a caller that fed it to the weighted mean as the
      satellite score would count it twice: even with every other check perfect
      and the best bucket, the default configuration could not approve. */
  lemma DoubleWeightingBlocksApproval(satelliteScore: real)
    requires 0.0 <= satelliteScore <= Defaults().weightSatelliteAnalysis
    ensures Aggregator.Confidence(Aggregator.CheckScores(1.0, 1.0, satelliteScore, 1.0), Defaults())
      < Defaults().thresholdAutoApprove
  {
    var cfg := Defaults();
    var s := Aggregator.CheckScores(1.0, 1.0, satelliteScore, 1.0);
    Aggregator.ConfidenceIsFourTermMean(s, cfg);
  }

  // ------------------------------------- the credential read, as written and fixed

  /** `satellite_verification` as shipped: every fetch goes through the
      session that reads the misspelt secret name. */
  function SatelliteVerificationAsWritten(
    submissionDay: Option<int>, today: int, declared: int, cfg: Settings,
    credentials: ShCredentials, sh: ShRequest -> ShResponse, yolo: Models.Bytes -> YoloRun): (run: SatelliteRun)
    ensures submissionDay.None? ==> run.result.Failure? && run.requests == []
    ensures submissionDay.Some? ==> run.result.Success? && run.result.value.qcStatus == NotVerifiable.Name()
  {
    SatelliteVerification(submissionDay, today, declared, cfg, ThroughSession(ShSessionAsWritten(credentials), sh), yolo)
  }

  /** Whatever the credentials and the imagery service, the shipped
      verification of a parsed date stops after the pre-install fetch with the
      0.0 NOT_VERIFIABLE result: no detector runs and no post-install fetch is
      attempted. */
  lemma MisspeltSecretNeverVerifies(
    day: int, today: int, declared: int, cfg: Settings,
    credentials: ShCredentials, sh: ShRequest -> ShResponse, yolo: Models.Bytes -> YoloRun)
    ensures SatelliteVerificationAsWritten(Some(day), today, declared, cfg, credentials, sh, yolo)
      == SatelliteRun(Success(FetchFailure(PreFetchFailed, 0, map[])), [PreRequest(day)])
  {
    var f := ThroughSession(ShSessionAsWritten(credentials), sh);
    assert f(PreRequest(day)) == ShRaised;
  }

  /** `satellite_verification` with the secret read under its declared name. */
  function SatelliteVerificationFixed(
    submissionDay: Option<int>, today: int, declared: int, cfg: Settings,
    credentials: ShCredentials, sh: ShRequest -> ShResponse, yolo: Models.Bytes -> YoloRun): (run: SatelliteRun)
    ensures run.result.Success? ==> |run.requests| > 0
    ensures credentials.clientId != "" && credentials.clientSecret != "" ==>
      run == SatelliteVerification(submissionDay, today, declared, cfg, sh, yolo)
    ensures credentials.clientId == "" || credentials.clientSecret == "" ==>
      run == SatelliteVerificationAsWritten(submissionDay, today, declared, cfg, credentials, sh, yolo)
  {
    var session := ShSessionFixed(credentials);
    var f := ThroughSession(session, sh);
    if session.Success? then
      SameImagerySameRun(submissionDay, today, declared, cfg, f, sh, yolo);
      SatelliteVerification(submissionDay, today, declared, cfg, f, yolo)
    else
      SameImagerySameRun(submissionDay, today, declared, cfg, f,
                         ThroughSession(ShSessionAsWritten(credentials), sh), yolo);
      SatelliteVerification(submissionDay, today, declared, cfg, f, yolo)
  }

  /** The verification depends on the imagery service only through its answers. */
  lemma SameImagerySameRun(
    submissionDay: Option<int>, today: int, declared: int, cfg: Settings,
    sh1: ShRequest -> ShResponse, sh2: ShRequest -> ShResponse, yolo: Models.Bytes -> YoloRun)
    requires forall q :: sh1(q) == sh2(q)
    ensures SatelliteVerification(submissionDay, today, declared, cfg, sh1, yolo)
      == SatelliteVerification(submissionDay, today, declared, cfg, sh2, yolo)
  {
    if submissionDay.Some? {
      var day := submissionDay.value;
      assert sh1(PreRequest(day)) == sh2(PreRequest(day));
      assert sh1(PostRequest(day, today)) == sh2(PostRequest(day, today));
    }
  }

  /** With the shipped default credentials the corrected session opens, so
      the corrected verification is the one the imagery service answers. */
  lemma DefaultCredentialsReachImagery(
    submissionDay: Option<int>, today: int, declared: int, cfg: Settings,
    sh: ShRequest -> ShResponse, yolo: Models.Bytes -> YoloRun)
    ensures ShSessionFixed(DefaultCredentials()).Success?
    ensures SatelliteVerificationFixed(submissionDay, today, declared, cfg, DefaultCredentials(), sh, yolo)
      == SatelliteVerification(submissionDay, today, declared, cfg, sh, yolo)
  {
    assert |DefaultClientId| > 0 && |DefaultClientSecret| > 0;
  }
}
