/**
 * Conversion between the fixed 300 x 180 virtual menu screen (the "adjusted
 * screen") and the host's pixel viewport. The virtual screen is scaled by the
 * tile scale and centred inside the viewport, leaving equal margins on both
 * sides of each axis.
 *
 * The host's zoom level and window size are read on every call in the
 * source; here they are the explicit parameter `h`.
 */
module RenderingHelper {
  import opened Primitives

  /** Zoom levels the host can report (it never reports zero or less). */
  type Zoom = z: real | z > 0.0 witness 1.0

  /** What the helper reads from the host: the zoom option and the window size in pixels. */
  datatype Host = Host(zoomLevel: Zoom, viewportWidth: int, viewportHeight: int)

  /** Logical size of the virtual menu screen (`MenuScreen`). */
  const MenuScreenWidth: int := 300
  const MenuScreenHeight: int := 180

  /** Pixels of a tile at zoom level 1. */
  const BaseTileUnits: real := 4.0

  function PixelZoomAdjustment(h: Host): real {
    1.0 / h.zoomLevel
  }

  /** Multiplier from virtual units to pixels. */
  function TileScale(h: Host): real {
    BaseTileUnits * PixelZoomAdjustment(h)
  }

  // AdjustedScreen: the virtual screen's footprint in pixels.

  function AdjustedWidth(h: Host): real {
    MenuScreenWidth as real * TileScale(h)
  }

  function AdjustedHeight(h: Host): real {
    MenuScreenHeight as real * TileScale(h)
  }

  // AdjustedScreen.Difference: viewport size minus adjusted size.

  function DifferenceWidth(h: Host): real {
    h.viewportWidth as real - AdjustedWidth(h)
  }

  function DifferenceHeight(h: Host): real {
    h.viewportHeight as real - AdjustedHeight(h)
  }

  // AdjustedScreen.Margin: the letterbox on each side.

  function MarginWidth(h: Host): real {
    DifferenceWidth(h) / 2.0
  }

  function MarginHeight(h: Host): real {
    DifferenceHeight(h) / 2.0
  }

  // The four corners of the adjusted screen in viewport pixels.

  function NorthWest(h: Host): Vector2 {
    Vector2(MarginWidth(h), MarginHeight(h))
  }

  function NorthEast(h: Host): Vector2 {
    Vector2(h.viewportWidth as real - MarginWidth(h), MarginHeight(h))
  }

  function SouthEast(h: Host): Vector2 {
    Vector2(h.viewportWidth as real - MarginWidth(h), h.viewportHeight as real - MarginHeight(h))
  }

  function SouthWest(h: Host): Vector2 {
    Vector2(MarginWidth(h), h.viewportHeight as real - MarginHeight(h))
  }

  /** `AdjustedScreen.GetCenter`: half the adjusted size, with no margin added. */
  function AdjustedCenter(h: Host): Vector2 {
    Divide(Vector2(AdjustedWidth(h), AdjustedHeight(h)), 2.0)
  }

  /** `Viewport.GetCenter`. */
  function ViewportCenter(h: Host): Vector2 {
    Divide(Vector2(h.viewportWidth as real, h.viewportHeight as real), 2.0)
  }

  /** Virtual-screen point to viewport pixels. */
  function ConvertAdjustedScreenToRaw(h: Host, p: Vector2): Vector2 {
    Add(Multiply(p, TileScale(h)), NorthWest(h))
  }

  /** Viewport pixels to virtual-screen point. */
  function ConvertRawToAdjustedScreen(h: Host, p: Vector2): Vector2 {
    Divide(Subtract(p, NorthWest(h)), TileScale(h))
  }

  /** The tile scale is four pixels per unit divided by the zoom level, and so is positive. */
  lemma TileScaleLaw(h: Host)
    ensures TileScale(h) > 0.0
    ensures TileScale(h) * h.zoomLevel == BaseTileUnits
  {
  }

  /** Multiplying both sides of an inequality by a positive factor keeps it. */
  lemma MultiplyPreservesOrder(a: real, b: real, s: real)
    requires s > 0.0
    ensures a < b <==> a * s < b * s
    ensures a <= b <==> a * s <= b * s
  {
    if a < b {
      assert (b - a) * s > 0.0;
    } else {
      assert (a - b) * s >= 0.0;
    }
  }

  /** Adjusted size is the virtual size times the tile scale, and the margins centre it in the viewport. */
  lemma Letterbox(h: Host)
    ensures AdjustedWidth(h) == 300.0 * TileScale(h) && AdjustedHeight(h) == 180.0 * TileScale(h)
    ensures 2.0 * MarginWidth(h) + AdjustedWidth(h) == h.viewportWidth as real
    ensures 2.0 * MarginHeight(h) + AdjustedHeight(h) == h.viewportHeight as real
    ensures NorthEast(h).x - NorthWest(h).x == AdjustedWidth(h)
    ensures SouthWest(h).y - NorthWest(h).y == AdjustedHeight(h)
    ensures SouthEast(h) == Vector2(NorthEast(h).x, SouthWest(h).y)
  {
  }

  /** Converting to pixels and back gives the original virtual point. */
  lemma RoundTripAdjusted(h: Host, p: Vector2)
    ensures ConvertRawToAdjustedScreen(h, ConvertAdjustedScreenToRaw(h, p)) == p
  {
    TileScaleLaw(h);
    var s := TileScale(h);
    assert (p.x * s + MarginWidth(h) - MarginWidth(h)) / s == p.x;
    assert (p.y * s + MarginHeight(h) - MarginHeight(h)) / s == p.y;
  }

  /** Converting to virtual units and back gives the original pixel. */
  lemma RoundTripRaw(h: Host, p: Vector2)
    ensures ConvertAdjustedScreenToRaw(h, ConvertRawToAdjustedScreen(h, p)) == p
  {
    TileScaleLaw(h);
    var s := TileScale(h);
    assert (p.x - MarginWidth(h)) / s * s == p.x - MarginWidth(h);
    assert (p.y - MarginHeight(h)) / s * s == p.y - MarginHeight(h);
  }

  /** The virtual screen's corners land on the letterboxed corners, and its centre on the viewport's centre. */
  lemma CornersAndCentre(h: Host)
    ensures ConvertAdjustedScreenToRaw(h, Vector2(0.0, 0.0)) == NorthWest(h)
    ensures ConvertAdjustedScreenToRaw(h, Vector2(MenuScreenWidth as real, MenuScreenHeight as real)) == SouthEast(h)
    ensures ConvertAdjustedScreenToRaw(h, Vector2(150.0, 90.0)) == ViewportCenter(h)
    ensures ConvertAdjustedScreenToRaw(h, Vector2(150.0, 90.0)) == Add(AdjustedCenter(h), NorthWest(h))
  {
  }

  /** `ConvertAdjustedScreenToRaw` is strictly increasing on each axis. */
  lemma ConvertIsIncreasing(h: Host, p: Vector2, q: Vector2)
    ensures p.x < q.x <==> ConvertAdjustedScreenToRaw(h, p).x < ConvertAdjustedScreenToRaw(h, q).x
    ensures p.y < q.y <==> ConvertAdjustedScreenToRaw(h, p).y < ConvertAdjustedScreenToRaw(h, q).y
  {
    TileScaleLaw(h);
    MultiplyPreservesOrder(p.x, q.x, TileScale(h));
    MultiplyPreservesOrder(p.y, q.y, TileScale(h));
  }
}
