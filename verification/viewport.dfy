/**
 * Derivation of the 3D camera's render rectangle from the measured UI
 * layout, so that the scene fills exactly the screen area the panels leave
 * free. Physical pixel quantities are unsigned 32-bit integers; logical
 * layout values are reals scaled by the window's scale factor and cast down.
 */
module CameraViewport {
  import opened Components

  const U32_MAX: nat := 0xFFFF_FFFF

  type uint32 = n: nat | n <= U32_MAX

  /**
   * A float-to-u32 cast as Rust performs it: truncation toward zero,
   * negative values saturate to 0 and values past the range to U32_MAX.
   */
  function CastToU32(v: real): (p: uint32)
    ensures v < 1.0 ==> p == 0
    ensures 0.0 <= v < (U32_MAX + 1) as real ==> p as real <= v < p as real + 1.0
    ensures (U32_MAX + 1) as real <= v ==> p == U32_MAX
  {
    if v < 0.0 then 0
    else if v >= (U32_MAX + 1) as real then U32_MAX
    else v.Floor
  }

  /** `a.saturating_sub(b)` on u32: clamps at zero instead of wrapping. */
  function SaturatingSub(a: uint32, b: uint32): (r: uint32)
    ensures r <= a
    ensures b <= a ==> r + b == a
    ensures a < b ==> r == 0
  {
    if b <= a then a - b else 0
  }

  /** The window as the viewport derivation sees it. */
  datatype Window = Window(physicalWidth: uint32, physicalHeight: uint32, scaleFactor: real)

  /** The layout values the derivation reads, in logical pixels. */
  datatype PanelBounds = PanelBounds(
    leftPanelEndX: real,
    rightPanelStartX: real,
    topBarsHeight: real,
    bottomBarHeight: real,
    inspectorCollapsed: bool)

  /** A camera render rectangle: position and size in physical pixels. */
  datatype Viewport = Viewport(x: uint32, y: uint32, width: uint32, height: uint32)

  function Physical(logical: real, window: Window): uint32
  {
    CastToU32(logical * window.scaleFactor)
  }

  /** Where the 3D view stops on the right: the window edge, or the inspector. */
  function RightEdge(window: Window, bounds: PanelBounds): (edge: uint32)
    ensures bounds.inspectorCollapsed ==> edge == window.physicalWidth
    ensures !bounds.inspectorCollapsed ==> edge == Physical(bounds.rightPanelStartX, window)
  {
    if bounds.inspectorCollapsed then window.physicalWidth
    else Physical(bounds.rightPanelStartX, window)
  }

  /**
   * The render rectangle: it starts below the top bars and right of the left
   * panel, reaches the right edge, and stops above the bottom bar; a size that
   * would be negative is zero.
   */
  function DeriveViewport(window: Window, bounds: PanelBounds): (v: Viewport)
    // the origin does not depend on the inspector state
    ensures v.x == Physical(bounds.leftPanelEndX, window)
    ensures v.y == Physical(bounds.topBarsHeight, window)
    // horizontally the view spans exactly [x, right edge], or is empty
    ensures v.x <= RightEdge(window, bounds) ==> v.x + v.width == RightEdge(window, bounds)
    ensures RightEdge(window, bounds) < v.x ==> v.width == 0
    // vertically the two saturating steps act as one: max(0, H - (top + bottom))
    ensures var top, bottom := Physical(bounds.topBarsHeight, window), Physical(bounds.bottomBarHeight, window);
      v.height == if top + bottom <= window.physicalHeight then window.physicalHeight - (top + bottom) else 0
    ensures var bottom := Physical(bounds.bottomBarHeight, window);
      v.y + bottom <= window.physicalHeight ==> v.y + v.height + bottom == window.physicalHeight
  {
    var left := Physical(bounds.leftPanelEndX, window);
    var top := Physical(bounds.topBarsHeight, window);
    var bottom := Physical(bounds.bottomBarHeight, window);
    var width := SaturatingSub(RightEdge(window, bounds), left);
    var height := SaturatingSub(SaturatingSub(window.physicalHeight, top), bottom);
    Viewport(left, top, width, height)
  }

  /**
   * Collapsing the inspector never narrows the view, provided the inspector's
   * start lies inside the window.
   */
  lemma CollapseNeverShrinks(window: Window, bounds: PanelBounds)
    requires Physical(bounds.rightPanelStartX, window) <= window.physicalWidth
    ensures DeriveViewport(window, bounds.(inspectorCollapsed := false)).width
         <= DeriveViewport(window, bounds.(inspectorCollapsed := true)).width
    ensures DeriveViewport(window, bounds.(inspectorCollapsed := false)).height
         == DeriveViewport(window, bounds.(inspectorCollapsed := true)).height
  {
  }

  /**
   * Without that proviso collapsing can narrow the view: an inspector start
   * measured past a (shrunken) window edge.
   */
  lemma CollapseCanShrinkWhenInspectorOutsideWindow()
    ensures var window, bounds := Window(800, 600, 1.0), PanelBounds(100.0, 900.0, 42.0, 22.0, false);
      DeriveViewport(window, bounds.(inspectorCollapsed := true)).width
        < DeriveViewport(window, bounds).width
  {
    var window, bounds := Window(800, 600, 1.0), PanelBounds(100.0, 900.0, 42.0, 22.0, false);
    assert Physical(900.0, window) == 900;
    assert Physical(100.0, window) == 100;
  }

  /** A 1920x1080 window with the inspector shown. */
  lemma ExpandedInspectorExample()
    ensures DeriveViewport(Window(1920, 1080, 1.0), PanelBounds(238.0, 1682.0, 42.0, 22.0, false))
         == Viewport(238, 42, 1444, 1016)
  {
    var window := Window(1920, 1080, 1.0);
    assert Physical(238.0, window) == 238;
    assert Physical(1682.0, window) == 1682;
    assert Physical(42.0, window) == 42;
    assert Physical(22.0, window) == 22;
  }

  /** The same window with the inspector collapsed: the view reaches the window edge. */
  lemma CollapsedInspectorExample()
    ensures DeriveViewport(Window(1920, 1080, 1.0), PanelBounds(238.0, 1682.0, 42.0, 22.0, true))
         == Viewport(238, 42, 1682, 1016)
  {
    var window := Window(1920, 1080, 1.0);
    assert Physical(238.0, window) == 238;
    assert Physical(42.0, window) == 42;
    assert Physical(22.0, window) == 22;
  }

  /** The camera that renders the 3D world; its viewport is None until first set. */
  class Camera {
    var viewport: Option<Viewport>

    constructor ()
      ensures viewport == None
    {
      viewport := None;
    }
  }

  function BoundsOf(layout: EguiLayoutState): PanelBounds
    reads layout
  {
    PanelBounds(layout.leftPanelEndX, layout.rightPanelStartX, layout.topBarsHeight,
                layout.bottomBarHeight, layout.inspectorCollapsed)
  }

  /**
   * The per-frame viewport system. It acts only when there is exactly one
   * window and exactly one right-hand camera; otherwise every camera keeps
   * the viewport it had.
   */
  method UpdateCameraViewports(windows: seq<Window>, rightCameras: seq<Camera>, layout: EguiLayoutState)
    modifies rightCameras
    ensures |windows| == 1 && |rightCameras| == 1 ==>
      rightCameras[0].viewport == Some(DeriveViewport(windows[0], BoundsOf(layout)))
    ensures !(|windows| == 1 && |rightCameras| == 1) ==>
      forall c :: c in rightCameras ==> c.viewport == old(c.viewport)
  {
    if |windows| != 1 {
      return;
    }
    var window := windows[0];
    var v := DeriveViewport(window, BoundsOf(layout));
    if |rightCameras| == 1 {
      rightCameras[0].viewport := Some(v);
    }
  }
}
