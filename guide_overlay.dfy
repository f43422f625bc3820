/**
 * The camera preview's 3:4 frame (`PreviewLayout.frame`) and the placement of
 * the face silhouette drawn over a frame (`GuideSilhouetteOverlay`).
 */
module GuideOverlay {
  import opened Geometry

  /** Height over width of the preview frame. */
  const PreviewAspect: real := 4.0 / 3.0

  /**
   * The largest 3:4 (width:height) frame inside the safe area, centred
   * horizontally in the whole width and vertically in the safe area.
   */
  function PreviewFrame(size: Size, insets: EdgeInsets): (r: Rect)
    ensures r.size.height == r.size.width * PreviewAspect
    ensures r.MidX() == size.width / 2.0
    ensures r.MidY() == insets.top + (size.height - (insets.top + insets.bottom)) / 2.0
    ensures var availableWidth := size.width - (insets.leading + insets.trailing);
      var availableHeight := size.height - (insets.top + insets.bottom);
      availableWidth >= 0.0 && availableHeight >= 0.0 ==>
        && 0.0 <= r.size.width <= availableWidth
        && 0.0 <= r.size.height <= availableHeight
        && (r.size.width == availableWidth || r.size.height == availableHeight)
  {
    var availableWidth := size.width - (insets.leading + insets.trailing);
    var availableHeight := size.height - (insets.top + insets.bottom);
    var width0 := availableWidth;
    var height0 := width0 * PreviewAspect;
    var width := if height0 > availableHeight then availableHeight / PreviewAspect else width0;
    var height := if height0 > availableHeight then availableHeight else height0;
    Rect(Point((size.width - width) / 2.0, insets.top + (availableHeight - height) / 2.0), Size(width, height))
  }

  /** In edit mode the silhouette fills the frame less 5% of its size on every side (in the frame's own coordinates). */
  function EditSilhouette(frame: Rect): (r: Rect)
    ensures r.MinX() == frame.size.width * 0.05 && r.MaxX() == frame.size.width - frame.size.width * 0.05
    ensures r.MinY() == frame.size.height * 0.05 && r.MaxY() == frame.size.height - frame.size.height * 0.05
  {
    var insetY := frame.size.height * 0.05;
    var insetX := frame.size.width * 0.05;
    var width := frame.size.width - insetX * 2.0;
    var height := frame.size.height - insetY * 2.0;
    var center := Point(frame.size.width / 2.0, frame.size.height / 2.0);
    Rect(Point(center.x - width / 2.0, center.y - height / 2.0), Size(width, height))
  }

  /** Outside edit mode only the silhouette's height and centre are fixed; its width follows the artwork. */
  datatype Placement = Placement(center: Point, height: real)

  /**
   * The preview silhouette is 78% of the frame's height, centred 8% above the
   * middle, so it spans 3% to 81% of the frame and never leaves it.
   */
  function PreviewSilhouette(frame: Rect): (p: Placement)
    ensures p.center.x == frame.size.width / 2.0
    ensures p.center.y - p.height / 2.0 == frame.size.height * 0.03
    ensures p.center.y + p.height / 2.0 == frame.size.height * 0.81
    ensures frame.size.height >= 0.0 ==> 0.0 <= p.center.y - p.height / 2.0 <= p.center.y + p.height / 2.0 <= frame.size.height
  {
    Placement(Point(frame.size.width / 2.0, frame.size.height / 2.0 - frame.size.height * 0.08),
              frame.size.height * 0.78)
  }
}
