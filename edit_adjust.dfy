/**
 * The crop step of the photo wizard (`EditAdjustView`): the frame the
 * photo is cropped to, the base scale that makes the image cover it, and the
 * clamps applied to the user's pinch and drag.
 */
module EditAdjust {
  import opened Geometry

  /** What the crop step hands to the export step (`CropState`). */
  datatype CropState = CropState(scale: real, offset: Size, frameRect: Rect, imageSize: Size)

  const MinUserScale: real := 0.5
  const MaxUserScale: real := 3.0
  /** How far, in frame sizes, the image may be dragged past its covering position. */
  const ExtraDrag: real := 1.5
  /** A base scale change smaller than this is ignored by `updateCachedValues`. */
  const BaseScaleTolerance: real := 0.0001

  /** The user's pinch factor, kept within [0.5, 3]. */
  function ClampScale(scale: real): (r: real)
    ensures MinUserScale <= r <= MaxUserScale
    ensures MinUserScale <= scale <= MaxUserScale ==> r == scale
    ensures scale < MinUserScale ==> r == MinUserScale
    ensures scale > MaxUserScale ==> r == MaxUserScale
  {
    Min(Max(scale, MinUserScale), MaxUserScale)
  }

  /** How far the offset may go on one axis: half the overflow of the scaled image, plus 1.5 frames. */
  function DragLimit(imageDim: real, frameDim: real, actualScale: real): real {
    Max((imageDim * actualScale - frameDim) / 2.0, 0.0) + frameDim * ExtraDrag
  }

  /**
   * For a non-negative frame the limit lets the image's edge be dragged to the
   * frame's edge and 1.5 frames beyond: it is never less than half the
   * scaled image's overhang plus 1.5 frames, nor less than 1.5 frames, and it
   * is exactly 1.5 frames when the scaled image does not overhang.
   */
  lemma DragLimitAllowsOverhang(imageDim: real, frameDim: real, actualScale: real)
    requires frameDim >= 0.0
    ensures var limit := DragLimit(imageDim, frameDim, actualScale);
      && limit >= frameDim * ExtraDrag >= 0.0
      && limit >= (imageDim * actualScale - frameDim) / 2.0 + frameDim * ExtraDrag
      && (imageDim * actualScale <= frameDim ==> limit == frameDim * ExtraDrag)
  {
  }

  /** Clamps each axis of the drag offset to plus or minus its `DragLimit`. */
  function ClampOffset(offset: Size, frameSize: Size, imageSize: Size, actualScale: real): Size {
    var h := DragLimit(imageSize.width, frameSize.width, actualScale);
    var v := DragLimit(imageSize.height, frameSize.height, actualScale);
    Size(Clamp(offset.width, -h, h), Clamp(offset.height, -v, v))
  }

  /**
   * For a non-negative frame the clamped offset lies within the limits on both
   * axes, and an offset already within them is left as it is.
   */
  lemma ClampOffsetBounds(offset: Size, frameSize: Size, imageSize: Size, actualScale: real)
    ensures var r := ClampOffset(offset, frameSize, imageSize, actualScale);
      var h, v := DragLimit(imageSize.width, frameSize.width, actualScale),
                  DragLimit(imageSize.height, frameSize.height, actualScale);
      && (frameSize.width >= 0.0 ==> -h <= r.width <= h)
      && (frameSize.height >= 0.0 ==> -v <= r.height <= v)
      && (-h <= offset.width <= h ==> r.width == offset.width)
      && (-v <= offset.height <= v ==> r.height == offset.height)
  {
  }

  /** Clamping an already clamped offset changes nothing, even for a negative frame size. */
  lemma ClampOffsetIdempotent(offset: Size, frameSize: Size, imageSize: Size, actualScale: real)
    ensures var once := ClampOffset(offset, frameSize, imageSize, actualScale);
      ClampOffset(once, frameSize, imageSize, actualScale) == once
  {
    var h := DragLimit(imageSize.width, frameSize.width, actualScale);
    var v := DragLimit(imageSize.height, frameSize.height, actualScale);
    ClampIdempotent(offset.width, -h, h);
    ClampIdempotent(offset.height, -v, v);
  }

  /**
   * The widest frame of the preset's aspect ratio that fits in 90% of the
   * width and 80% of the height of the canvas, centred in it.
   */
  function FrameRect(bounds: Size, aspectRatio: real): (r: Rect)
    requires aspectRatio != 0.0
    ensures r.MidX() == bounds.width / 2.0 && r.MidY() == bounds.height / 2.0
    ensures aspectRatio > 0.0 && bounds.width >= 0.0 && bounds.height >= 0.0 ==>
      && r.size.width == r.size.height * aspectRatio
      && 0.0 <= r.size.width <= bounds.width * 0.9
      && 0.0 <= r.size.height <= bounds.height * 0.8
      && (r.size.width == bounds.width * 0.9 || r.size.height == bounds.height * 0.8)
  {
    var widthLimit := bounds.width * 0.9;
    var heightLimit := bounds.height * 0.8;
    var w0, h0 := widthLimit, widthLimit / aspectRatio;
    var w1, h1 := if h0 > heightLimit then heightLimit * aspectRatio else w0,
                  if h0 > heightLimit then heightLimit else h0;
    var w2, h2 := if w1 > widthLimit then widthLimit else w1,
                  if w1 > widthLimit then widthLimit / aspectRatio else h1;
    FrameRectFits(bounds, aspectRatio, w1, h1);
    Rect(Point((bounds.width - w2) / 2.0, (bounds.height - h2) / 2.0), Size(w2, h2))
  }

  /** Shrinking to the height limit never makes the frame wider than the width limit. */
  lemma FrameRectFits(bounds: Size, aspectRatio: real, w1: real, h1: real)
    requires aspectRatio != 0.0
    requires var widthLimit, heightLimit := bounds.width * 0.9, bounds.height * 0.8;
      var h0 := widthLimit / aspectRatio;
      && w1 == (if h0 > heightLimit then heightLimit * aspectRatio else widthLimit)
      && h1 == (if h0 > heightLimit then heightLimit else h0)
    ensures aspectRatio > 0.0 && bounds.width >= 0.0 && bounds.height >= 0.0 ==>
      && w1 <= bounds.width * 0.9
      && w1 == h1 * aspectRatio
      && 0.0 <= h1 <= bounds.height * 0.8
  {
    var widthLimit, heightLimit := bounds.width * 0.9, bounds.height * 0.8;
    var h0 := widthLimit / aspectRatio;
    if aspectRatio > 0.0 && bounds.width >= 0.0 && bounds.height >= 0.0 {
      assert h0 * aspectRatio == widthLimit;
      if h0 > heightLimit {
        assert heightLimit * aspectRatio <= h0 * aspectRatio;
      }
    }
  }

  /** The scale at which the image covers the frame: the larger of the two axis ratios. */
  function BaseScale(imageSize: Size, frame: Rect): (r: real)
    requires imageSize.width != 0.0 && imageSize.height != 0.0
    ensures r >= frame.size.width / imageSize.width && r >= frame.size.height / imageSize.height
    ensures r == frame.size.width / imageSize.width || r == frame.size.height / imageSize.height
  {
    Max(frame.size.width / imageSize.width, frame.size.height / imageSize.height)
  }

  /** At the base scale a positive-sized image is at least as large as the frame on both axes. */
  lemma BaseScaleCovers(imageSize: Size, frame: Rect)
    requires imageSize.width > 0.0 && imageSize.height > 0.0
    ensures imageSize.width * BaseScale(imageSize, frame) >= frame.size.width
    ensures imageSize.height * BaseScale(imageSize, frame) >= frame.size.height
  {
    var s := BaseScale(imageSize, frame);
    assert imageSize.width * (frame.size.width / imageSize.width) == frame.size.width;
    assert imageSize.height * (frame.size.height / imageSize.height) == frame.size.height;
    MulMonotone(imageSize.width, frame.size.width / imageSize.width, s);
    MulMonotone(imageSize.height, frame.size.height / imageSize.height, s);
  }

  lemma MulMonotone(k: real, a: real, b: real)
    requires k > 0.0 && a <= b
    ensures k * a <= k * b
  {
  }

  /** The scale the image is drawn at: the layout's base scale times the user's pinch factor. */
  function ActualScale(baseScale: real, userScale: real): real { baseScale * userScale }

  function Abs(x: real): real { if x < 0.0 then -x else x }

  /** The crop step's view state; `baseScale` and `frameRect` cache the last layout. */
  class EditAdjustState {
    const imageSize: Size
    var userScale: real
    var steadyScale: real
    var userOffset: Size
    var steadyOffset: Size
    var frameRect: Rect
    var baseScale: real

    /** The pinch factors stay within the clamp's range. */
    ghost predicate Valid()
      reads this
    {
      && MinUserScale <= userScale <= MaxUserScale
      && MinUserScale <= steadyScale <= MaxUserScale
    }

    constructor (imageSize: Size)
      ensures Valid()
      ensures this.imageSize == imageSize
      ensures userScale == 1.0 && steadyScale == 1.0 && baseScale == 1.0
      ensures userOffset == Zero && steadyOffset == Zero
      ensures frameRect == Rect(Point(0.0, 0.0), Zero)
    {
      this.imageSize := imageSize;
      userScale, steadyScale := 1.0, 1.0;
      userOffset, steadyOffset := Zero, Zero;
      frameRect := Rect(Point(0.0, 0.0), Zero);
      baseScale := 1.0;
    }

    /**
     * `updateCachedValues`: a base scale that moved by more than the tolerance
     * is adopted and both offsets are re-clamped to it; the frame is always
     * adopted.
     */
    method UpdateCachedValues(frame: Rect, newBaseScale: real)
      requires Valid()
      modifies this
      ensures Valid()
      ensures frameRect == frame
      ensures userScale == old(userScale) && steadyScale == old(steadyScale)
      ensures Abs(old(baseScale) - newBaseScale) > BaseScaleTolerance ==>
        && baseScale == newBaseScale
        && userOffset == ClampOffset(old(userOffset), frame.size, imageSize, ActualScale(newBaseScale, userScale))
        && steadyOffset == userOffset
      ensures Abs(old(baseScale) - newBaseScale) <= BaseScaleTolerance ==>
        baseScale == old(baseScale) && userOffset == old(userOffset) && steadyOffset == old(steadyOffset)
    {
      if Abs(baseScale - newBaseScale) > BaseScaleTolerance {
        baseScale := newBaseScale;
        var actualScale, offset := ActualScale(newBaseScale, userScale), userOffset;
        var clamped := ClampOffset(offset, frame.size, imageSize, actualScale);
        userOffset := clamped;
        steadyOffset := clamped;
      }
      if frameRect != frame {
        frameRect := frame;
      }
    }

    /** A drag moves the offset from where the last drag ended, clamped at the scale the layer was drawn with. */
    method DragChanged(translation: Size, frameSize: Size, actualScale: real)
      requires Valid()
      modifies this`userOffset
      ensures Valid()
      ensures userOffset == ClampOffset(
        Size(steadyOffset.width + translation.width, steadyOffset.height + translation.height),
        frameSize, imageSize, actualScale)
    {
      var raw := Size(steadyOffset.width + translation.width, steadyOffset.height + translation.height);
      userOffset := ClampOffset(raw, frameSize, imageSize, actualScale);
    }

    method DragEnded()
      requires Valid()
      modifies this`steadyOffset
      ensures Valid() && steadyOffset == userOffset
    {
      steadyOffset := userOffset;
    }

    /** A pinch scales the last settled factor, clamps it, and re-clamps the settled offset to the new scale. */
    method MagnificationChanged(value: real, frameSize: Size, layerBaseScale: real)
      requires Valid()
      modifies this`userScale, this`userOffset
      ensures Valid()
      ensures userScale == ClampScale(steadyScale * value)
      ensures userOffset == ClampOffset(steadyOffset, frameSize, imageSize, ActualScale(layerBaseScale, userScale))
    {
      var newScale := ClampScale(steadyScale * value);
      userScale := newScale;
      var newActualScale, offset := ActualScale(layerBaseScale, newScale), steadyOffset;
      userOffset := ClampOffset(offset, frameSize, imageSize, newActualScale);
    }

    method MagnificationEnded(frameSize: Size, layerBaseScale: real)
      requires Valid()
      modifies this`steadyScale, this`steadyOffset, this`userOffset
      ensures Valid()
      ensures steadyScale == userScale
      ensures steadyOffset == ClampOffset(old(steadyOffset), frameSize, imageSize, ActualScale(layerBaseScale, userScale))
      ensures userOffset == steadyOffset
    {
      steadyScale := userScale;
      var actualScale, offset := ActualScale(layerBaseScale, userScale), steadyOffset;
      steadyOffset := ClampOffset(offset, frameSize, imageSize, actualScale);
      userOffset := steadyOffset;
    }

    /**
     * The Next button: the crop the export step renders. Its scale is the
     * cached base scale times the pinch factor, so it lies between half and
     * three times the base scale.
     */
    method Next() returns (r: CropState)
      requires Valid()
      ensures r.offset == userOffset && r.frameRect == frameRect && r.imageSize == imageSize
      ensures r.scale == baseScale * userScale
      ensures baseScale >= 0.0 ==> baseScale * MinUserScale <= r.scale <= baseScale * MaxUserScale
    {
      r := CropState(baseScale * userScale, userOffset, frameRect, imageSize);
      if baseScale >= 0.0 {
        assert baseScale * MinUserScale <= baseScale * userScale <= baseScale * MaxUserScale;
      }
    }
  }
}
