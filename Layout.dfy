/** Size negotiation and ring geometry of the chart view: the `onMeasure`
    decision table, the square side `onLayout` keeps, the two radii the tap
    handler tests against, and the rectangle the arcs are drawn on. Lengths
    given in dp are scaled by the display density, which is a parameter here. */
module Layout {
  import opened Optional

  /** MIN_SIZE, SECTOR_WIDTH and CONTENT_PADDING, in dp. */
  const MinSize: int := 240
  const SectorWidth: int := 48
  const ContentPadding: int := 8

  /** The mode of a MeasureSpec. */
  datatype MeasureMode = Unspecified | Exactly | AtMost

  function Max(a: int, b: int): int {
    if a < b then b else a
  }

  function Min(a: int, b: int): int {
    if a < b then a else b
  }

  /** `MIN_SIZE.dp.toInt()`: the minimum side in pixels, truncated. */
  function MinPx(density: real): int
    requires density > 0.0
  {
    (MinSize as real * density).Floor
  }

  /** The `when` table of `onMeasure`: the measured (width, height), or None
      when no branch calls `setMeasuredDimension`. */
  function OnMeasure(widthMode: MeasureMode, widthSize: int, heightMode: MeasureMode, heightSize: int,
                     minPx: int): Option<(int, int)>
  {
    if widthMode == AtMost && heightMode == AtMost then
      Some((minPx, minPx))
    else if widthMode == Exactly && heightMode == AtMost then
      Some((Max(widthSize, minPx), minPx))
    else if widthMode == AtMost && heightMode == Exactly then
      Some((minPx, Max(heightSize, minPx)))
    else if widthMode == Exactly && heightMode == Exactly then
      Some((Max(widthSize, minPx), Max(heightSize, minPx)))
    else
      None
  }

  /** What one dimension measures to on its own: an exact size raised to the
      minimum, and the minimum under an upper limit. */
  function MeasureDimension(mode: MeasureMode, size: int, minPx: int): int
    requires mode != Unspecified
  {
    if mode == Exactly then Max(size, minPx) else minPx
  }

  /** The table decides each dimension on its own: a size is set exactly when
      neither mode is UNSPECIFIED, and then each side is its own dimension's
      decision, never below the minimum. An exact size at or above the minimum
      is kept as it is. */
  lemma OnMeasurePerDimension(widthMode: MeasureMode, widthSize: int, heightMode: MeasureMode, heightSize: int,
                              minPx: int)
    ensures OnMeasure(widthMode, widthSize, heightMode, heightSize, minPx).Some?
            <==> widthMode != Unspecified && heightMode != Unspecified
    ensures OnMeasure(widthMode, widthSize, heightMode, heightSize, minPx).Some? ==>
              OnMeasure(widthMode, widthSize, heightMode, heightSize, minPx).value
              == (MeasureDimension(widthMode, widthSize, minPx), MeasureDimension(heightMode, heightSize, minPx))
    ensures OnMeasure(widthMode, widthSize, heightMode, heightSize, minPx).Some? ==>
              OnMeasure(widthMode, widthSize, heightMode, heightSize, minPx).value.0 >= minPx
              && OnMeasure(widthMode, widthSize, heightMode, heightSize, minPx).value.1 >= minPx
    ensures widthMode == Exactly && heightMode != Unspecified && widthSize >= minPx ==>
              OnMeasure(widthMode, widthSize, heightMode, heightSize, minPx).value.0 == widthSize
    ensures heightMode == Exactly && widthMode != Unspecified && heightSize >= minPx ==>
              OnMeasure(widthMode, widthSize, heightMode, heightSize, minPx).value.1 == heightSize
  {
  }

  /** Under AT_MOST the parent's limit is not consulted: the view asks for the
      minimum even when the limit is smaller. */
  lemma AtMostIgnoresTheLimit(widthSize: int, heightSize: int, otherWidth: int, otherHeight: int, minPx: int)
    ensures OnMeasure(AtMost, widthSize, AtMost, heightSize, minPx)
            == OnMeasure(AtMost, otherWidth, AtMost, otherHeight, minPx)
            == Some((minPx, minPx))
  {
  }

  /** The outer radius of the ring the tap handler tests: half the side less the padding. */
  function OuterRadius(chartSide: int, density: real): real {
    chartSide as real / 2.0 - ContentPadding as real * density
  }

  /** The inner radius: one sector width further in. */
  function InnerRadius(chartSide: int, density: real): real {
    chartSide as real / 2.0 - ContentPadding as real * density - SectorWidth as real * density
  }

  datatype Rect = Rect(left: real, top: real, right: real, bottom: real)

  /** The rectangle `CategoryVisualisationModel` hands to `addArc`: the chart's
      square about the integer centre, inset by the padding and half a sector. */
  function ArcRect(width: nat, height: nat, chartSide: int, density: real): Rect {
    var verticalCenter := (height / 2) as real;
    var horizontalCenter := (width / 2) as real;
    var inset := ContentPadding as real * density + SectorWidth as real * density / 2.0;
    Rect(horizontalCenter - chartSide as real / 2.0 + inset,
         verticalCenter - chartSide as real / 2.0 + inset,
         horizontalCenter + chartSide as real / 2.0 - inset,
         verticalCenter + chartSide as real / 2.0 - inset)
  }

  /** The drawn stroke covers exactly the band the tap handler accepts: the arc
      rectangle is a square about the same centre the tap offsets are taken
      from, and a stroke SECTOR_WIDTH wide along its circle reaches from the
      inner radius to the outer radius. */
  lemma StrokeCoversHitBand(width: nat, height: nat, chartSide: int, density: real)
    ensures var rect := ArcRect(width, height, chartSide, density);
            var radius := (rect.right - rect.left) / 2.0;
            var stroke := SectorWidth as real * density;
            (rect.left + rect.right) / 2.0 == (width / 2) as real
            && (rect.top + rect.bottom) / 2.0 == (height / 2) as real
            && rect.bottom - rect.top == rect.right - rect.left
            && radius - stroke / 2.0 == InnerRadius(chartSide, density)
            && radius + stroke / 2.0 == OuterRadius(chartSide, density)
  {
  }

  /** Once the view is at least its minimum size, both radii are positive
      (for any density from the lowest Android density bucket, 0.75, up). */
  lemma RadiiPositiveAtMinimumSize(chartSide: int, density: real)
    requires density >= 0.75
    requires chartSide >= MinPx(density)
    ensures 0.0 < InnerRadius(chartSide, density) < OuterRadius(chartSide, density)
  {
    assert MinPx(density) as real > MinSize as real * density - 1.0;
  }
}
