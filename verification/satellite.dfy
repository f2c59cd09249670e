/**
 * The backend's `satellite_verification` (backend/services/satellite_analysis.py):
 * two image fetches, panel detection on each, and the panel-count ladder. The
 * imagery service and the detector are parameters: `imagery` answers a request
 * for a date (a day number) with the image bytes, or nothing when the fetch
 * failed; `yolo` is what the model produced on an image.
 */
module BackendSatellite {
  import opened Wrappers
  import opened Models
  import opened Text
  import opened Yolo
  import opened PanelLadder

  /** `not content`: no image, or an empty one. */
  predicate FetchFailed(content: Option<Bytes>)
  {
    content.None? || |content.value| == 0
  }

  const PreFetchFailed := "Failed to fetch pre-installation satellite image."
  const PostFetchFailed := "Failed to fetch post-installation satellite image."

  function Details(b: Bucket, preCount: nat, postCount: nat, declared: int, area: real): string
  {
    var tail := "Detected: " + IntStr(postCount) + ", Declared: " + IntStr(declared)
      + ". Estimated Area: " + Fixed2(area) + " sqm.";
    match b
    case NoPanels => "YOLO did not detect any panels in the post-installation image."
    case Decreased =>
      "Suspicious activity: Panel count decreased from " + IntStr(preCount) + " to " + IntStr(postCount) + "."
    case Verified => "Panel count verified. " + tail
    case Close => "Panel count is close. " + tail
    case Mismatch => "Significant panel count mismatch. " + tail
  }

  /** `satellite_verification`. The pre-install image is requested for six months
      before `today`, the post-install image for the submission date. */
  function SatelliteVerification(
    today: int,
    submissionDay: int,
    declared: int,
    imagery: int -> Option<Bytes>,
    yolo: Bytes -> YoloRun): (r: Result<SatelliteAnalysisResult, string>)
    ensures FetchFailed(imagery(today - 180)) ==>
      r == Success(SatelliteAnalysisResult(0.0, PreFetchFailed, 0, 0, Some(0.0)))
    ensures !FetchFailed(imagery(today - 180)) ==>
      var pre := Detect(yolo(imagery(today - 180).value), BackendPixelToSqm);
      && (pre.Failure? ==> r.Failure?)
      && (pre.Success? && FetchFailed(imagery(submissionDay)) ==>
            r == Success(SatelliteAnalysisResult(0.0, PostFetchFailed, pre.value.panelCount, 0, Some(0.0))))
      && (pre.Success? && !FetchFailed(imagery(submissionDay)) ==>
            var post := Detect(yolo(imagery(submissionDay).value), BackendPixelToSqm);
            && (post.Failure? ==> r.Failure?)
            && (post.Success? ==>
                  && r.Success?
                  && r.value.score == BackendBucket(pre.value.panelCount, post.value.panelCount, declared).Score()
                  && r.value.preInstallPanelCount == pre.value.panelCount
                  && r.value.postInstallPanelCount == post.value.panelCount
                  && r.value.yoloConfidence == Some(post.value.avgConfidence)))
    ensures r.Success? ==> r.value.Valid() && IsLadderScore(r.value.score)
  {
    var preImage := imagery(today - 180);
    if FetchFailed(preImage) then
      Success(SatelliteAnalysisResult(0.0, PreFetchFailed, 0, 0, Some(0.0)))
    else
      match Detect(yolo(preImage.value), BackendPixelToSqm)
      case Failure(e) => Failure(e)
      case Success(pre) =>
        var postImage := imagery(submissionDay);
        if FetchFailed(postImage) then
          Success(SatelliteAnalysisResult(0.0, PostFetchFailed, pre.panelCount, 0, Some(0.0)))
        else
          match Detect(yolo(postImage.value), BackendPixelToSqm)
          case Failure(e) => Failure(e)
          case Success(post) =>
            var b := BackendBucket(pre.panelCount, post.panelCount, declared);
            ScoresAreLadderValues(b);
            Success(SatelliteAnalysisResult(
              b.Score(),
              Details(b, pre.panelCount, post.panelCount, declared, post.pvAreaSqm),
              pre.panelCount,
              post.panelCount,
              Some(post.avgConfidence)))
  }

  /** A post-install image with no detected panel scores 0.0 whatever the
      pre-install image and the declared count. */
  lemma NoPostPanelsScoresZero(
    today: int, submissionDay: int, declared: int,
    imagery: int -> Option<Bytes>, yolo: Bytes -> YoloRun)
    requires SatelliteVerification(today, submissionDay, declared, imagery, yolo).Success?
    requires SatelliteVerification(today, submissionDay, declared, imagery, yolo).value.postInstallPanelCount == 0
    ensures SatelliteVerification(today, submissionDay, declared, imagery, yolo).value.score == 0.0
  {
  }
}
