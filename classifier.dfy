/**
 * The hide/no-hide decision that background.js takes on every `detection-result`
 * message: a face-count rule, then a face-area-ratio rule over the detected boxes.
 *
 * JavaScript numbers are modelled as exact rationals (`real`); floating-point
 * rounding is not modelled. An original dimension of 0 stands for an absent one:
 * the source only tests these values for truthiness, and `undefined` and `0` are
 * both falsy.
 */
module Classifier {
  import opened Wrappers

  /** `detection.boundingBox`: only its size is used. */
  datatype Box = Box(width: nat, height: nat)

  /** The image sizes a `detection-result` message carries. */
  datatype Sizes = Sizes(
    imageWidth: nat,   // size of the image the detector saw
    imageHeight: nat,
    origWidth: nat,    // natural size of the thumbnail; 0 when absent
    origHeight: nat)

  /** The fields of a `detection-result` message that the decision reads. */
  datatype DetectionResult = DetectionResult(detections: seq<Box>, sizes: Sizes)

  /** The detected image has a positive size. */
  predicate Positive(z: Sizes) {
    z.imageWidth > 0 && z.imageHeight > 0
  }

  /** The settings read from storage for the decision. */
  datatype ClassifyConfig = ClassifyConfig(
    threshold: real,           // area threshold, in percent
    faceCountThreshold: int,
    isAreaThresholdEnabled: bool,
    isFaceCountEnabled: bool)

  /** The storage defaults of the `detection-result` handler. */
  const DefaultConfig := ClassifyConfig(5.0, 2, true, true)

  /** Why a thumbnail is hidden: too many faces, or the detection at `index` is too large. */
  datatype Reason = FaceCount | LargeFace(index: nat)

  datatype Verdict = Keep | Hide(reason: Reason)

  /**
   * What the detector guarantees: it reports boxes only for an image it decoded,
   * and a decoded image has a positive size. Its failure path reports no
   * detections and a 0 x 0 image.
   */
  predicate Measurable(r: DetectionResult) {
    |r.detections| > 0 ==> Positive(r.sizes)
  }

  /** The detection result the detector sends when fetching or decoding the image failed. */
  function FailedDetection(origWidth: nat, origHeight: nat): (r: DetectionResult)
    ensures Measurable(r) && r.detections == [] && r.sizes == Sizes(0, 0, origWidth, origHeight)
    ensures forall cfg :: Classify(r, cfg) == Keep
  {
    DetectionResult([], Sizes(0, 0, origWidth, origHeight))
  }

  /** The face-count rule: enabled, at least one face, and strictly more faces than the threshold. */
  predicate CountRuleHides(faces: nat, cfg: ClassifyConfig) {
    cfg.isFaceCountEnabled && faces > 0 && faces > cfg.faceCountThreshold
  }

  /** The original image area when both original dimensions are known, else the detected one. */
  function ImageArea(z: Sizes): (a: nat)
    ensures Positive(z) ==> a > 0
  {
    if z.origWidth != 0 && z.origHeight != 0 then z.origWidth * z.origHeight
    else z.imageHeight * z.imageWidth
  }

  /** Horizontal scale from the detected image back to the original, 1 when the original width is absent. */
  function ScaleX(z: Sizes): (s: real)
    requires z.imageWidth > 0
    ensures s > 0.0
    ensures z.origWidth != 0 ==> s * z.imageWidth as real == z.origWidth as real
    ensures z.origWidth == 0 ==> s == 1.0
  {
    if z.origWidth != 0 then z.origWidth as real / z.imageWidth as real else 1.0
  }

  /** Vertical scale from the detected image back to the original, 1 when the original height is absent. */
  function ScaleY(z: Sizes): (s: real)
    requires z.imageHeight > 0
    ensures s > 0.0
    ensures z.origHeight != 0 ==> s * z.imageHeight as real == z.origHeight as real
    ensures z.origHeight == 0 ==> s == 1.0
  {
    if z.origHeight != 0 then z.origHeight as real / z.imageHeight as real else 1.0
  }

  /** The area of box `b` scaled back to the original image. */
  function FaceArea(z: Sizes, b: Box): real
    requires Positive(z)
  {
    (b.width as real * ScaleX(z)) * (b.height as real * ScaleY(z))
  }

  /** The share of the image that box `b`, scaled back to the original, covers. */
  function FaceRatio(z: Sizes, b: Box): (ratio: real)
    requires Positive(z)
    ensures ratio >= 0.0
    ensures ratio * ImageArea(z) as real == FaceArea(z, b)
  {
    FaceArea(z, b) / ImageArea(z) as real
  }

  /** The area rule for one box: its ratio reaches the threshold (given in percent). */
  predicate IsLargeFace(z: Sizes, cfg: ClassifyConfig, b: Box)
    requires Positive(z)
  {
    FaceRatio(z, b) >= cfg.threshold / 100.0
  }

  /** The index of the first detection at or after `from` that is a large face. */
  function FirstLargeFace(r: DetectionResult, cfg: ClassifyConfig, from: nat): (k: Option<nat>)
    requires Measurable(r) && from <= |r.detections|
    ensures k.Some? ==>
      && from <= k.value < |r.detections|
      && IsLargeFace(r.sizes, cfg, r.detections[k.value])
      && forall j :: from <= j < k.value ==> !IsLargeFace(r.sizes, cfg, r.detections[j])
    ensures k.None? ==>
      forall j :: from <= j < |r.detections| ==> !IsLargeFace(r.sizes, cfg, r.detections[j])
    decreases |r.detections| - from
  {
    if from == |r.detections| then None
    else if IsLargeFace(r.sizes, cfg, r.detections[from]) then Some(from)
    else FirstLargeFace(r, cfg, from + 1)
  }

  /** Some detection of `r` is a large face. */
  ghost predicate AnyLargeFace(r: DetectionResult, cfg: ClassifyConfig)
    requires Measurable(r)
  {
    exists i :: 0 <= i < |r.detections| && IsLargeFace(r.sizes, cfg, r.detections[i])
  }

  /**
   * The decision: the count rule first; the area rule only when the count rule
   * did not hide and area checking is enabled, reporting the first large face.
   */
  function Classify(r: DetectionResult, cfg: ClassifyConfig): (v: Verdict)
    requires Measurable(r)
    ensures r.detections == [] ==> v == Keep
    ensures v == Hide(FaceCount) <==> CountRuleHides(|r.detections|, cfg)
    ensures v.Hide? <==>
      CountRuleHides(|r.detections|, cfg) || (cfg.isAreaThresholdEnabled && AnyLargeFace(r, cfg))
    ensures v.Hide? && v.reason.LargeFace? ==>
      var k := v.reason.index;
      && cfg.isAreaThresholdEnabled
      && k < |r.detections|
      && IsLargeFace(r.sizes, cfg, r.detections[k])
      && forall j :: 0 <= j < k ==> !IsLargeFace(r.sizes, cfg, r.detections[j])
  {
    if CountRuleHides(|r.detections|, cfg) then Hide(FaceCount)
    else if cfg.isAreaThresholdEnabled then
      match FirstLargeFace(r, cfg, 0)
      case Some(k) => Hide(LargeFace(k))
      case None => Keep
    else Keep
  }

  /**
   * The decision as background.js computes it: locals `shouldHide` and `reason`,
   * and a loop over the detections that stops at the first large face.
   */
  method ClassifyDetections(r: DetectionResult, cfg: ClassifyConfig) returns (v: Verdict)
    requires Measurable(r)
    ensures v == Classify(r, cfg)
  {
    var detections := r.detections;
    var shouldHide := false;
    var reason := FaceCount;
    if cfg.isFaceCountEnabled && |detections| > 0 && |detections| > cfg.faceCountThreshold {
      shouldHide := true;
      reason := FaceCount;
    }
    if !shouldHide && cfg.isAreaThresholdEnabled {
      var imageArea := ImageArea(r.sizes);
      var i := 0;
      while i < |detections|
        invariant 0 <= i <= |detections|
        invariant !shouldHide
        invariant FirstLargeFace(r, cfg, i) == FirstLargeFace(r, cfg, 0)
      {
        // The scale factors are computed inside FaceArea, where a detection
        // guarantees a positive image size; the source computes them before the loop.
        var faceArea := FaceArea(r.sizes, detections[i]);
        var ratio := faceArea / imageArea as real;
        if ratio >= cfg.threshold / 100.0 {
          shouldHide := true;
          reason := LargeFace(i);
          break;
        }
        i := i + 1;
      }
    }
    v := if shouldHide then Hide(reason) else Keep;
  }

  /** The hide decision does not depend on the order in which the detector reports the boxes. */
  lemma HideIgnoresDetectionOrder(r: DetectionResult, detections: seq<Box>, cfg: ClassifyConfig)
    requires Measurable(r)
    requires multiset(detections) == multiset(r.detections)
    ensures Measurable(r.(detections := detections))
    ensures Classify(r, cfg).Hide? == Classify(r.(detections := detections), cfg).Hide?
  {
    var r' := r.(detections := detections);
    assert |detections| == |r.detections| by {
      assert |multiset(detections)| == |multiset(r.detections)|;
    }
    if AnyLargeFace(r, cfg) {
      var i :| 0 <= i < |r.detections| && IsLargeFace(r.sizes, cfg, r.detections[i]);
      assert r.detections[i] in multiset(detections);
      var j :| 0 <= j < |detections| && detections[j] == r.detections[i];
      assert IsLargeFace(r'.sizes, cfg, r'.detections[j]);
    }
    if AnyLargeFace(r', cfg) {
      var j :| 0 <= j < |detections| && IsLargeFace(r'.sizes, cfg, detections[j]);
      assert detections[j] in multiset(r.detections);
      var i :| 0 <= i < |r.detections| && r.detections[i] == detections[j];
      assert IsLargeFace(r.sizes, cfg, r.detections[i]);
    }
  }

  /** Lowering the area threshold never turns a hide into a keep. */
  lemma LowerThresholdStillHides(r: DetectionResult, cfg: ClassifyConfig, threshold: real)
    requires Measurable(r)
    requires threshold <= cfg.threshold
    requires Classify(r, cfg).Hide?
    ensures Classify(r, cfg.(threshold := threshold)).Hide?
  {
    var cfg' := cfg.(threshold := threshold);
    if !CountRuleHides(|r.detections|, cfg) {
      var i :| 0 <= i < |r.detections| && IsLargeFace(r.sizes, cfg, r.detections[i]);
      assert IsLargeFace(r.sizes, cfg', r.detections[i]);
    }
  }

  /** One more reported face never turns a hide into a keep. */
  lemma ExtraFaceStillHides(r: DetectionResult, cfg: ClassifyConfig, b: Box)
    requires Measurable(r)
    requires Classify(r, cfg).Hide?
    ensures Classify(r.(detections := r.detections + [b]), cfg).Hide?
  {
    var r' := r.(detections := r.detections + [b]);
    if !CountRuleHides(|r.detections|, cfg) {
      var i :| 0 <= i < |r.detections| && IsLargeFace(r.sizes, cfg, r.detections[i]);
      assert r'.detections[i] == r.detections[i];
      assert IsLargeFace(r'.sizes, cfg, r'.detections[i]);
    }
  }

  /** Three faces against the default threshold of two hide the thumbnail for the face count. */
  lemma ThreeFacesHideByCount(r: DetectionResult)
    requires Measurable(r) && |r.detections| == 3
    ensures Classify(r, DefaultConfig) == Hide(FaceCount)
  {
  }

  /**
   * A 200 x 200 box on the 480 x 270 image sent for detection, from a 1920 x 1080
   * thumbnail: scaled by 4 on each axis it covers 640000 / 2073600 of the image,
   * above 5 percent.
   */
  lemma LargeFaceHidesByArea()
    ensures Classify(DetectionResult([Box(200, 200)], Sizes(480, 270, 1920, 1080)), DefaultConfig)
         == Hide(LargeFace(0))
  {
    var z := Sizes(480, 270, 1920, 1080);
    assert ScaleX(z) == 4.0 && ScaleY(z) == 4.0;
    assert ImageArea(z) == 2073600;
    assert FaceRatio(z, Box(200, 200)) == 640000.0 / 2073600.0;
    assert IsLargeFace(z, DefaultConfig, Box(200, 200));
  }
}
