/**
 * The classic periodic-table view's pan/zoom state: a scale and an offset
 * that every transform gesture clamps, and the grid placement of element
 * cells. Pixel sizes come from a layout (screen density and the space the
 * view is given); arithmetic is exact over `real`.
 */
module ClassicTable {

  const AbsoluteMinScale: real := 0.5
  const MaxScale: real := 5.0

  /** Cell edge, table size in cells, and the paddings around the table, in dp. */
  const CellSizeDp: int := 80
  const TableColumns: int := 18
  const TableRows: int := 10
  const StartPaddingDp: real := 16.0
  const EndPaddingDp: real := 250.0
  const TopPaddingDp: real := 16.0
  const BottomPaddingDp: real := 250.0

  /** Screen density (px per dp) and the maximum width and height the view is given, in px. */
  datatype Layout = Layout(density: real, maxWidth: real, maxHeight: real)

  function TableWidthPx(layout: Layout): real
  {
    (CellSizeDp * TableColumns) as real * layout.density
  }

  function TableHeightPx(layout: Layout): real
  {
    (CellSizeDp * TableRows) as real * layout.density
  }

  /** Kotlin's `coerceIn`, which rejects an empty range. */
  function CoerceIn(v: real, lo: real, hi: real): (r: real)
    requires lo <= hi
    ensures lo <= r <= hi
    ensures lo <= v <= hi ==> r == v
    ensures v < lo ==> r == lo
    ensures hi < v ==> r == hi
  {
    if v < lo then lo else if hi < v then hi else v
  }

  /** Kotlin's `coerceAtLeast`. */
  function CoerceAtLeast(v: real, lo: real): (r: real)
    ensures lo <= r
    ensures r == v || r == lo
    ensures lo <= v ==> r == v
  {
    if v < lo then lo else v
  }

  /** The allowed offset range on one axis. */
  datatype Range = Range(lo: real, hi: real)

  /**
   * One axis: how far the scaled table sticks out of the padded viewport
   * (never negative), and the range centred on half the padding difference
   * that is as wide as that overhang.
   */
  function AxisRange(scaledSize: real, viewport: real, leadPadding: real, trailPadding: real): (r: Range)
    ensures r.lo <= r.hi
    ensures (r.lo + r.hi) / 2.0 == (leadPadding - trailPadding) / 2.0
    ensures r.hi - r.lo == CoerceAtLeast(scaledSize - (viewport - leadPadding - trailPadding), 0.0)
  {
    var overhang := CoerceAtLeast(scaledSize - (viewport - leadPadding - trailPadding), 0.0);
    var shift := (leadPadding - trailPadding) / 2.0;
    Range(-overhang / 2.0 + shift, overhang / 2.0 + shift)
  }

  function HorizontalRange(layout: Layout, scale: real): (r: Range)
    ensures r.lo <= r.hi
  {
    AxisRange(TableWidthPx(layout) * scale, layout.maxWidth,
              StartPaddingDp * layout.density, EndPaddingDp * layout.density)
  }

  function VerticalRange(layout: Layout, scale: real): (r: Range)
    ensures r.lo <= r.hi
  {
    AxisRange(TableHeightPx(layout) * scale, layout.maxHeight,
              TopPaddingDp * layout.density, BottomPaddingDp * layout.density)
  }

  /** Scale and offset of the table, as the graphics layer applies them. */
  datatype View = View(scale: real, offsetX: real, offsetY: real)

  predicate InRange(v: real, r: Range)
  {
    r.lo <= v <= r.hi
  }

  /** The scale is within its limits and each offset axis within the range that scale allows. */
  predicate InBounds(layout: Layout, v: View)
  {
    && AbsoluteMinScale <= v.scale <= MaxScale
    && InRange(v.offsetX, HorizontalRange(layout, v.scale))
    && InRange(v.offsetY, VerticalRange(layout, v.scale))
  }

  /**
   * One transform callback: the zoomed scale is clamped to its limits, and the
   * panned offset to the ranges computed from the NEW scale.
   */
  function Transformed(layout: Layout, v: View, zoomChange: real, panX: real, panY: real): (r: View)
    ensures InBounds(layout, r)
    ensures r.scale == CoerceIn(v.scale * zoomChange, AbsoluteMinScale, MaxScale)
    ensures r.offsetX == CoerceIn(v.offsetX + panX, HorizontalRange(layout, r.scale).lo, HorizontalRange(layout, r.scale).hi)
    ensures r.offsetY == CoerceIn(v.offsetY + panY, VerticalRange(layout, r.scale).lo, VerticalRange(layout, r.scale).hi)
    ensures AbsoluteMinScale <= v.scale * zoomChange <= MaxScale ==> r.scale == v.scale * zoomChange
    ensures InRange(v.offsetX + panX, HorizontalRange(layout, r.scale)) ==> r.offsetX == v.offsetX + panX
    ensures InRange(v.offsetY + panY, VerticalRange(layout, r.scale)) ==> r.offsetY == v.offsetY + panY
  {
    var newScale := CoerceIn(v.scale * zoomChange, AbsoluteMinScale, MaxScale);
    var h := HorizontalRange(layout, newScale);
    var w := VerticalRange(layout, newScale);
    View(newScale, CoerceIn(v.offsetX + panX, h.lo, h.hi), CoerceIn(v.offsetY + panY, w.lo, w.hi))
  }

  /** A gesture with no zoom and no pan leaves an in-bounds view where it is. */
  lemma TransformAtRestIsIdentity(layout: Layout, v: View)
    requires InBounds(layout, v)
    ensures Transformed(layout, v, 1.0, 0.0, 0.0) == v
  {
  }

  /**
   * When the scaled table fits inside the padded viewport on one axis, that
   * axis's range collapses to the padding shift, so the offset is pinned there.
   */
  lemma {:induction false} PinnedWithoutOverhang(scaledSize: real, viewport: real, leadPadding: real, trailPadding: real, v: real)
    requires scaledSize <= viewport - leadPadding - trailPadding
    ensures var r := AxisRange(scaledSize, viewport, leadPadding, trailPadding);
      CoerceIn(v, r.lo, r.hi) == (leadPadding - trailPadding) / 2.0
  {
    var r := AxisRange(scaledSize, viewport, leadPadding, trailPadding);
    assert r.hi - r.lo == 0.0;
  }

  /** The scale a reset lands on: wide enough to fill the width, and never below the minimum. */
  function InitialScale(layout: Layout): (r: real)
    requires layout.density > 0.0
    ensures AbsoluteMinScale <= r
    ensures layout.maxWidth / TableWidthPx(layout) <= r
    ensures r == AbsoluteMinScale || r == layout.maxWidth / TableWidthPx(layout)
  {
    var minScaleToFitWidth := layout.maxWidth / TableWidthPx(layout);
    if AbsoluteMinScale < minScaleToFitWidth then minScaleToFitWidth else AbsoluteMinScale
  }

  /** The reset scale is not capped: a wide enough view starts zoomed beyond the gesture limit. */
  lemma InitialScaleCanExceedMax()
    ensures InitialScale(Layout(1.0, 14400.0, 800.0)) > MaxScale
  {
  }

  /**
   * The reset does not clamp the offset: on a tall view the vertical range is
   * pinned at the padding shift, so the zero offset lies outside it.
   */
  lemma ResetCanLeaveBounds()
    ensures !InBounds(Layout(1.0, 1440.0, 2000.0), View(InitialScale(Layout(1.0, 1440.0, 2000.0)), 0.0, 0.0))
  {
    var layout := Layout(1.0, 1440.0, 2000.0);
    assert InitialScale(layout) == 1.0;
    assert VerticalRange(layout, 1.0) == Range(-117.0, -117.0);
  }

  /** The remembered scale and offset behind the table. */
  class TableViewport {
    const layout: Layout
    var scale: real
    var offsetX: real
    var offsetY: real

    function Current(): View
      reads this
    {
      View(scale, offsetX, offsetY)
    }

    /** Starts at scale 1 and offset zero, before any reset or gesture. */
    constructor(layout: Layout)
      ensures this.layout == layout
      ensures Current() == View(1.0, 0.0, 0.0)
    {
      this.layout := layout;
      scale := 1.0;
      offsetX := 0.0;
      offsetY := 0.0;
    }

    /** The transform callback: computes the clamped view, then stores scale and offset. */
    method OnTransform(zoomChange: real, panX: real, panY: real)
      modifies this
      ensures Current() == Transformed(layout, old(Current()), zoomChange, panX, panY)
      ensures InBounds(layout, Current())
    {
      var corrected := Transformed(layout, Current(), zoomChange, panX, panY);
      scale := corrected.scale;
      offsetX := corrected.offsetX;
      offsetY := corrected.offsetY;
    }

    /** The effect keyed on the initial scale: fit the width, recentre without clamping. */
    method Reset()
      requires layout.density > 0.0
      modifies this
      ensures Current() == View(InitialScale(layout), 0.0, 0.0)
    {
      scale := InitialScale(layout);
      offsetX := 0.0;
      offsetY := 0.0;
    }
  }

  /** Margin, in dp, that places a cell at 1-based grid position `pos`. */
  function CellMargin(pos: int): int
  {
    CellSizeDp * (pos - 1)
  }

  /** A cell lies inside the table exactly when its column is 1..18 and its row 1..10. */
  lemma CellInsideTable(xpos: int, ypos: int)
    ensures 0 <= CellMargin(xpos) && CellMargin(xpos) + CellSizeDp <= CellSizeDp * TableColumns <==> 1 <= xpos <= TableColumns
    ensures 0 <= CellMargin(ypos) && CellMargin(ypos) + CellSizeDp <= CellSizeDp * TableRows <==> 1 <= ypos <= TableRows
  {
  }
}
