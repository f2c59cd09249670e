/**
 * The photo checks (deliverables/pipeline_code/services/photo_forensics.py):
 * EXIF collection, the GPS distance threshold and the shadow-angle buckets.
 * Image decoding, the EXIF parser, the solar ephemeris and the random
 * shadow-angle error are parameters; the GPS distance and the detected
 * coordinates are the fixed simulated values the code uses.
 */
module PhotoForensics {
  import opened Wrappers
  import opened Models
  import opened Text
  import opened Numeric

  // ---------------------------------------------------------------- EXIF

  /** The tag/value pairs the parser yields, in order, and how far it got:
      `failAt == Some(k)` means it raised while handling item `k` (or while
      opening the image, for `k == 0`). */
  datatype ExifParse = ExifParse(items: seq<(string, string)>, failAt: Option<nat>)

  /** `(k, v)` is the last item for tag `k`: no later item has that tag. */
  ghost predicate LastFor(items: seq<(string, string)>, k: string, v: string)
  {
    exists i :: 0 <= i < |items| && items[i] == (k, v) && forall j :: i < j < |items| ==> items[j].0 != k
  }

  /** The dictionary built from `items`, later tags overwriting earlier ones. */
  function TagMap(items: seq<(string, string)>): (m: map<string, string>)
    ensures forall k :: k in m <==> exists i :: 0 <= i < |items| && items[i].0 == k
    ensures forall k :: k in m ==> LastFor(items, k, m[k])
  {
    if |items| == 0 then map[]
    else
      var init := items[..|items| - 1];
      var last := items[|items| - 1];
      assert init + [last] == items;
      TagMapStep(init, last, TagMap(init));
      TagMap(init)[last.0 := last.1]
  }

  /** One step of the dictionary build: storing the next item keeps the keys
      exactly the tags seen and each value the last one for its tag. */
  lemma TagMapStep(init: seq<(string, string)>, last: (string, string), m0: map<string, string>)
    requires forall k :: k in m0 <==> exists i :: 0 <= i < |init| && init[i].0 == k
    requires forall k :: k in m0 ==> LastFor(init, k, m0[k])
    ensures var m, items := m0[last.0 := last.1], init + [last];
      && (forall k :: k in m <==> exists i :: 0 <= i < |items| && items[i].0 == k)
      && (forall k :: k in m ==> LastFor(items, k, m[k]))
  {
    var m, items := m0[last.0 := last.1], init + [last];
    forall k | k in m
      ensures exists i :: 0 <= i < |items| && items[i].0 == k
    {
      if k == last.0 {
        assert items[|init|].0 == k;
      } else {
        var i :| 0 <= i < |init| && init[i].0 == k;
        assert items[i] == init[i];
      }
    }
    forall k | exists i :: 0 <= i < |items| && items[i].0 == k
      ensures k in m
    {
      var i :| 0 <= i < |items| && items[i].0 == k;
      if i < |init| {
        assert init[i] == items[i];
      }
    }
    forall k | k in m
      ensures LastFor(items, k, m[k])
    {
      if k == last.0 {
        assert items[|items| - 1] == (k, m[k]);
      } else {
        LastForExtends(init, last, k, m0[k]);
      }
    }
  }

  /** Appending an item for another tag keeps the last item for `k`. */
  lemma LastForExtends(init: seq<(string, string)>, last: (string, string), k: string, v: string)
    requires LastFor(init, k, v) && last.0 != k
    ensures LastFor(init + [last], k, v)
  {
    var items := init + [last];
    var i :| 0 <= i < |init| && init[i] == (k, v) && forall j :: i < j < |init| ==> init[j].0 != k;
    assert items[i] == (k, v);
    forall j | i < j < |items|
      ensures items[j].0 != k
    {
      if j < |init| {
        assert items[j] == init[j];
      }
    }
  }

  /** `extract_exif_data`: never raises; an error leaves the tags read so far. */
  function ExtractExif(parse: ExifParse): (exif: map<string, string>)
    ensures parse.failAt.None? ==> exif == TagMap(parse.items)
    ensures parse.failAt.Some? && parse.failAt.value <= |parse.items| ==>
      exif == TagMap(parse.items[..parse.failAt.value])
    ensures parse.failAt == Some(0) ==> exif == map[]
    ensures forall k :: k in exif ==> exists i :: 0 <= i < |parse.items| && parse.items[i].0 == k
  {
    match parse.failAt
    case None => TagMap(parse.items)
    case Some(k) =>
      var n := if k <= |parse.items| then k else |parse.items|;
      var prefix := parse.items[..n];
      assert forall i :: 0 <= i < |prefix| ==> prefix[i] == parse.items[i];
      TagMap(prefix)
  }

  const DateTimeOriginal := "DateTimeOriginal"

  /** The capture time: the EXIF `DateTimeOriginal` tag, else the current time. */
  function CaptureTime(exif: map<string, string>, nowIso: string): (t: string)
    ensures DateTimeOriginal in exif ==> t == exif[DateTimeOriginal]
    ensures DateTimeOriginal !in exif ==> t == nowIso
  {
    if DateTimeOriginal in exif then exif[DateTimeOriginal] else nowIso
  }

  // ---------------------------------------------------------------- GPS

  const DefaultThresholdM: real := 100.0
  /** The simulated deviation of the photo's position, in metres. */
  const SimulatedDistanceM: real := 15.0
  /** The simulated offset of the detected coordinates, in degrees. */
  const SimulatedOffsetDeg: real := 0.0001

  /** Full marks within the threshold, inclusive; nothing beyond it. */
  function GpsScore(distance: real, thresholdM: real): (score: real)
    ensures score == 1.0 <==> distance <= thresholdM
    ensures score == 0.0 <==> distance > thresholdM
  {
    if distance <= thresholdM then 1.0 else 0.0
  }

  /** Python's `str` of a float, for the values whose `str` ends in `.0`; other
      values are shown with two decimals. */
  function FloatText(x: real): string
  {
    if x.Floor as real == x then IntStr(x.Floor) + ".0" else Fixed2(x)
  }

  /** `gps_check`'s two return shapes: the missing-photo path returns three
      values, the normal path four. */
  datatype GpsReturn =
    | Triple(metric: MetricScore, lat: real, lon: real)
    | Quad(metric: MetricScore, lat: real, lon: real, captureTime: string)

  /** `gps_check`. `photo` is the stored file (absent when it is not found). */
  function GpsCheck(
    photo: Option<Bytes>,
    exif: ExifParse,
    registeredLat: real,
    registeredLon: real,
    nowIso: string,
    thresholdM: real := DefaultThresholdM): (r: GpsReturn)
    ensures r.metric.Valid()
    ensures r.Triple? <==> photo.None?
    ensures r.Triple? ==> r.metric.score == 0.0 && r.lat == 0.0 && r.lon == 0.0
    ensures r.Quad? ==>
      && r.metric.score == GpsScore(SimulatedDistanceM, thresholdM)
      && r.lat == registeredLat + SimulatedOffsetDeg
      && r.lon == registeredLon + SimulatedOffsetDeg
      && r.captureTime == CaptureTime(ExtractExif(exif), nowIso)
  {
    match photo
    case None => Triple(MetricScore(0.0, "Photo file not found in storage."), 0.0, 0.0)
    case Some(_) =>
      var tags := ExtractExif(exif);
      var distance := SimulatedDistanceM;
      var score := GpsScore(distance, thresholdM);
      var deviation := Fixed2(distance);
      var details :=
        if score == 1.0 then "GPS location verified. Deviation: " + deviation + "m."
        else "GPS mismatch detected. Deviation: " + deviation + "m. Exceeds " + FloatText(thresholdM) + "m threshold.";
      Quad(MetricScore(score, details), registeredLat + SimulatedOffsetDeg,
        registeredLon + SimulatedOffsetDeg, CaptureTime(tags, nowIso))
  }

  /** At the default threshold the simulated deviation always passes. */
  lemma DefaultThresholdPasses(photo: Bytes, exif: ExifParse, lat: real, lon: real, nowIso: string)
    ensures GpsCheck(Some(photo), exif, lat, lon, nowIso).metric.score == 1.0
  {
  }

  /** The missing-photo path as the code intends it to be read by its caller:
      the same zero score and coordinates, with an empty capture time as the
      fourth value. */
  function GpsCheckFixed(
    photo: Option<Bytes>,
    exif: ExifParse,
    registeredLat: real,
    registeredLon: real,
    nowIso: string,
    thresholdM: real := DefaultThresholdM): (r: GpsReturn)
    ensures r.Quad?
    ensures r.metric.Valid()
    ensures photo.None? ==> r.metric.score == 0.0 && r.captureTime == ""
    ensures photo.Some? ==> r == GpsCheck(photo, exif, registeredLat, registeredLon, nowIso, thresholdM)
  {
    match GpsCheck(photo, exif, registeredLat, registeredLon, nowIso, thresholdM)
    case Triple(metric, lat, lon) => Quad(metric, lat, lon, "")
    case Quad(metric, lat, lon, t) => Quad(metric, lat, lon, t)
  }

  // ---------------------------------------------------------------- shadow

  datatype SolarPosition = SolarPosition(azimuth: real, elevation: real)

  /** Within 10 degrees scores 1.0, within 30 scores 0.7, otherwise 0.2; both
      bounds exclusive. */
  function ShadowScore(angleDifference: real): (score: real)
    ensures score == 1.0 <==> angleDifference < 10.0
    ensures score == 0.7 <==> 10.0 <= angleDifference < 30.0
    ensures score == 0.2 <==> 30.0 <= angleDifference
  {
    if angleDifference < 10.0 then 1.0 else if angleDifference < 30.0 then 0.7 else 0.2
  }

  /** A larger angle difference never scores higher. */
  lemma ShadowScoreAntitone(d1: real, d2: real)
    requires d1 <= d2
    ensures ShadowScore(d2) <= ShadowScore(d1)
  {
  }

  function ShadowDetails(score: real, difference: real): string
  {
    var d := Fixed2(difference);
    if score == 1.0 then "Shadow angle matches solar position within " + d + " degrees."
    else if score == 0.7 then
      "Shadow angle deviated significantly (" + d + " degrees). Possible tampering or measurement error."
    else
      "Major shadow angle mismatch (" + d
      + " degrees). High probability of tampered photo (e.g., wrong time/date)."
  }

  /** The solar position at the capture time: `parseTime` is
      `datetime.fromisoformat` and `solar` the ephemeris, each failing with the
      message of the exception it raised. */
  function ExpectedSun(
    captureTime: string, lat: real, lon: real,
    parseTime: string -> Result<int, string>,
    solar: (int, real, real) -> Result<SolarPosition, string>): (r: Result<SolarPosition, string>)
    ensures r.Success? <==> parseTime(captureTime).Success? && solar(parseTime(captureTime).value, lat, lon).Success?
    ensures r.Success? ==> r.value == solar(parseTime(captureTime).value, lat, lon).value
  {
    match parseTime(captureTime)
    case Failure(e) => Failure(e)
    case Success(t) => solar(t, lat, lon)
  }

  /** `shadow_analysis_check`. `photo` is the stored file and `noise` the
      simulated detection error. A solar failure scores 0.0 without touching the
      photo; a missing photo after that raises. */
  function ShadowAnalysisCheck(
    captureTime: string,
    lat: real,
    lon: real,
    parseTime: string -> Result<int, string>,
    solar: (int, real, real) -> Result<SolarPosition, string>,
    photo: Option<Bytes>,
    noise: real): (r: Result<ShadowAnalysisResult, string>)
    ensures r.Success? ==> r.value.Valid()
    ensures ExpectedSun(captureTime, lat, lon, parseTime, solar).Failure? ==>
      r.Success? && r.value.score == 0.0 && r.value.expectedSunAzimuth.None?
    ensures r.Failure? <==> ExpectedSun(captureTime, lat, lon, parseTime, solar).Success? && photo.None?
    ensures ExpectedSun(captureTime, lat, lon, parseTime, solar).Success? && photo.Some? ==>
      var sun := ExpectedSun(captureTime, lat, lon, parseTime, solar).value;
      && r.Success?
      && r.value.expectedSunAzimuth == Some(sun.azimuth)
      && r.value.expectedSunElevation == Some(sun.elevation)
    ensures r.Success? && r.value.expectedSunAzimuth.Some? ==>
      && r.value.detectedShadowAngle == Some(r.value.expectedSunAzimuth.value + noise)
      && r.value.score == ShadowScore(AbsReal(noise))
  {
    match ExpectedSun(captureTime, lat, lon, parseTime, solar)
    case Failure(e) =>
      Success(ShadowAnalysisResult(0.0, "Failed to calculate expected solar position: " + e, None, None, None))
    case Success(sun) =>
      if photo.None? then Failure("FileNotFoundError")
      else
        var detected := sun.azimuth + noise;
        var difference := AbsReal(sun.azimuth - detected);
        assert difference == AbsReal(noise);
        var score := ShadowScore(difference);
        Success(ShadowAnalysisResult(score, ShadowDetails(score, difference),
          Some(sun.azimuth), Some(sun.elevation), Some(detected)))
  }

  /** The simulated error is drawn from [-5, 5], so a computed shadow check
      always lands in the top bucket. */
  lemma SimulatedNoiseAlwaysPasses(
    captureTime: string, lat: real, lon: real,
    parseTime: string -> Result<int, string>, solar: (int, real, real) -> Result<SolarPosition, string>,
    photo: Bytes, noise: real)
    requires -5.0 <= noise <= 5.0
    requires ExpectedSun(captureTime, lat, lon, parseTime, solar).Success?
    ensures ShadowAnalysisCheck(captureTime, lat, lon, parseTime, solar, Some(photo), noise).Success?
    ensures ShadowAnalysisCheck(captureTime, lat, lon, parseTime, solar, Some(photo), noise).value.score == 1.0
  {
  }
}
