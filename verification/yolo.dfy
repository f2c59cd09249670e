/**
 * The post-processing both `run_yolo_detection` functions apply to the YOLO
 * output (backend/services/satellite_analysis.py and
 * deliverables/pipeline_code/services/satellite_analysis.py). Loading the
 * model, decoding the image and the inference are not modelled: `YoloRun` is
 * what they produced. The two versions differ only in the pixel-to-area factor
 * and in whether the overlay image is kept.
 */
module Yolo {
  import opened Wrappers
  import opened Models

  /** One result object: the summed mask pixels (absent without masks), the
      box confidences, and the overlay JPEG when encoding it succeeded. */
  datatype Frame = Frame(maskPixelArea: Option<real>, confidences: seq<real>, overlayJpeg: Option<Bytes>)

  datatype YoloRun = ModelUnavailable | Undecodable | Frames(frames: seq<Frame>)

  /** The values the loop leaves behind; `average` is unbound until a frame is seen. */
  datatype Scan = Scan(panelCount: nat, average: Option<real>, pixelArea: real, overlay: Option<Bytes>)

  /** `(panel_count, avg_confidence, total_pv_area_sqm, overlay_image_bytes)`. */
  datatype Detection = Detection(panelCount: nat, avgConfidence: real, pvAreaSqm: real, overlay: Option<Bytes>)

  /** The pixel-to-square-metre factors: 0.5 m ground sampling in the backend,
      Sentinel-2's 10 m in the batch pipeline. */
  const BackendPixelToSqm: real := 0.25
  const PipelinePixelToSqm: real := 100.0

  function Sum(xs: seq<real>): real
  {
    if |xs| == 0 then 0.0 else Sum(xs[..|xs| - 1]) + xs[|xs| - 1]
  }

  predicate AllInUnit(xs: seq<real>)
  {
    forall i :: 0 <= i < |xs| ==> InUnit(xs[i])
  }

  lemma {:induction false} SumBounds(xs: seq<real>)
    requires AllInUnit(xs)
    ensures 0.0 <= Sum(xs) <= |xs| as real
  {
    if |xs| > 0 {
      var init := xs[..|xs| - 1];
      assert AllInUnit(init) by {
        forall i | 0 <= i < |init|
          ensures InUnit(init[i])
        {
          assert init[i] == xs[i];
        }
      }
      SumBounds(init);
      assert InUnit(xs[|xs| - 1]);
    }
  }

  /** `sum(conf) / len(boxes)`, or 0.0 for a frame with no boxes. */
  function FrameAverage(confidences: seq<real>): (a: real)
    ensures |confidences| == 0 ==> a == 0.0
    ensures |confidences| > 0 ==> a * |confidences| as real == Sum(confidences)
  {
    if |confidences| == 0 then 0.0 else Sum(confidences) / |confidences| as real
  }

  /** Box confidences in [0, 1] average to a value in [0, 1]. */
  lemma FrameAverageInUnit(confidences: seq<real>)
    requires AllInUnit(confidences)
    ensures InUnit(FrameAverage(confidences))
  {
    if |confidences| > 0 {
      SumBounds(confidences);
      var n := |confidences| as real;
      var a := FrameAverage(confidences);
      assert a * n == Sum(confidences);
    }
  }

  /** `area` is the mask area of the last frame that has masks. */
  ghost predicate LastMaskArea(frames: seq<Frame>, area: real)
  {
    exists k :: 0 <= k < |frames| && frames[k].maskPixelArea == Some(area)
      && forall j :: k < j < |frames| ==> frames[j].maskPixelArea.None?
  }

  /** `jpeg` is the overlay of the last frame whose overlay was encoded. */
  ghost predicate LastOverlay(frames: seq<Frame>, jpeg: Bytes)
  {
    exists k :: 0 <= k < |frames| && frames[k].overlayJpeg == Some(jpeg)
      && forall j :: k < j < |frames| ==> frames[j].overlayJpeg.None?
  }

  /** The `for r in results` loop. Count and average come from the last frame;
      the mask area and the overlay from the last frame that had one. */
  function ScanFrames(frames: seq<Frame>): (s: Scan)
    ensures s.average.None? <==> |frames| == 0
    ensures |frames| > 0 ==>
      var last := frames[|frames| - 1];
      s.panelCount == |last.confidences| && s.average == Some(FrameAverage(last.confidences))
    ensures (forall i :: 0 <= i < |frames| ==> frames[i].maskPixelArea.None?) ==> s.pixelArea == 0.0
    ensures (exists i :: 0 <= i < |frames| && frames[i].maskPixelArea.Some?) ==> LastMaskArea(frames, s.pixelArea)
    ensures s.overlay.None? <==> forall i :: 0 <= i < |frames| ==> frames[i].overlayJpeg.None?
    ensures s.overlay.Some? ==> LastOverlay(frames, s.overlay.value)
  {
    if |frames| == 0 then Scan(0, None, 0.0, None)
    else
      var init := frames[..|frames| - 1];
      var f := frames[|frames| - 1];
      var prev := ScanFrames(init);
      assert forall i :: 0 <= i < |init| ==> init[i] == frames[i];
      assert frames == init + [f];
      var area := if f.maskPixelArea.Some? then f.maskPixelArea.value else prev.pixelArea;
      var overlay := if f.overlayJpeg.Some? then f.overlayJpeg else prev.overlay;
      assert (exists i :: 0 <= i < |frames| && frames[i].maskPixelArea.Some?) ==> LastMaskArea(frames, area) by {
        if f.maskPixelArea.Some? {
          assert frames[|frames| - 1].maskPixelArea == Some(area);
        } else if exists i :: 0 <= i < |frames| && frames[i].maskPixelArea.Some? {
          var i :| 0 <= i < |frames| && frames[i].maskPixelArea.Some?;
          assert init[i].maskPixelArea.Some?;
          LastMaskExtends(init, f, prev.pixelArea);
        }
      }
      assert overlay.Some? ==> LastOverlay(frames, overlay.value) by {
        if f.overlayJpeg.Some? {
          assert frames[|frames| - 1].overlayJpeg == Some(overlay.value);
        } else if overlay.Some? {
          LastOverlayExtends(init, f, overlay.value);
        }
      }
      Scan(|f.confidences|, Some(FrameAverage(f.confidences)), area, overlay)
  }

  /** A frame without masks keeps the last mask area. */
  lemma LastMaskExtends(init: seq<Frame>, f: Frame, area: real)
    requires LastMaskArea(init, area) && f.maskPixelArea.None?
    ensures LastMaskArea(init + [f], area)
  {
    var frames := init + [f];
    var k :| 0 <= k < |init| && init[k].maskPixelArea == Some(area)
      && forall j :: k < j < |init| ==> init[j].maskPixelArea.None?;
    assert frames[k] == init[k];
    forall j | k < j < |frames|
      ensures frames[j].maskPixelArea.None?
    {
      if j < |init| {
        assert frames[j] == init[j];
      }
    }
  }

  /** A frame whose overlay was not encoded keeps the last overlay. */
  lemma LastOverlayExtends(init: seq<Frame>, f: Frame, jpeg: Bytes)
    requires LastOverlay(init, jpeg) && f.overlayJpeg.None?
    ensures LastOverlay(init + [f], jpeg)
  {
    var frames := init + [f];
    var k :| 0 <= k < |init| && init[k].overlayJpeg == Some(jpeg)
      && forall j :: k < j < |init| ==> init[j].overlayJpeg.None?;
    assert frames[k] == init[k];
    forall j | k < j < |frames|
      ensures frames[j].overlayJpeg.None?
    {
      if j < |init| {
        assert frames[j] == init[j];
      }
    }
  }

  /** `run_yolo_detection` with the given area factor. No model or an undecodable
      image gives `(0, 0.0, 0.0, None)`; an inference that yields no result object
      leaves the average unbound and the function raises. */
  function Detect(run: YoloRun, pixelToSqm: real): (r: Result<Detection, string>)
    ensures !run.Frames? ==> r == Success(Detection(0, 0.0, 0.0, None))
    ensures r.Failure? <==> run.Frames? && |run.frames| == 0
    ensures run.Frames? && r.Success? ==>
      var last := run.frames[|run.frames| - 1];
      && r.value.panelCount == |last.confidences|
      && r.value.avgConfidence == FrameAverage(last.confidences)
      && r.value.pvAreaSqm == ScanFrames(run.frames).pixelArea * pixelToSqm
      && r.value.overlay == ScanFrames(run.frames).overlay
  {
    match run
    case ModelUnavailable => Success(Detection(0, 0.0, 0.0, None))
    case Undecodable => Success(Detection(0, 0.0, 0.0, None))
    case Frames(frames) =>
      var s := ScanFrames(frames);
      match s.average
      case None => Failure("avg_confidence referenced before assignment")
      case Some(a) => Success(Detection(s.panelCount, a, s.pixelArea * pixelToSqm, s.overlay))
  }

  /** Every box confidence a run reports lies in [0, 1], and mask areas are non-negative. */
  predicate WellFormed(run: YoloRun)
  {
    run.Frames? ==> forall i :: 0 <= i < |run.frames| ==>
      AllInUnit(run.frames[i].confidences)
      && (run.frames[i].maskPixelArea.Some? ==> run.frames[i].maskPixelArea.value >= 0.0)
  }

  /** On a well-formed run the reported average confidence is in [0, 1] and the
      area is non-negative. */
  lemma DetectionInRange(run: YoloRun, pixelToSqm: real)
    requires WellFormed(run)
    requires pixelToSqm >= 0.0
    ensures Detect(run, pixelToSqm).Success? ==>
      InUnit(Detect(run, pixelToSqm).value.avgConfidence) && Detect(run, pixelToSqm).value.pvAreaSqm >= 0.0
  {
    if run.Frames? && |run.frames| > 0 {
      var s := ScanFrames(run.frames);
      FrameAverageInUnit(run.frames[|run.frames| - 1].confidences);
      assert s.pixelArea >= 0.0;
    }
  }
}
