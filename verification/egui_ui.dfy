/**
 * The per-frame UI pass, reduced to what it writes and the rectangles it
 * computes. Widgets are not modelled: what they measure (the area left after
 * the side panels, the screen rectangle) and what the user did (drag values,
 * clicks) arrive as a FrameInput.
 */
module EguiUi {
  import opened Components
  import opened CameraViewport

  const EGUI_TOP_BAR_HEIGHT: real := 20.0
  const EGUI_SECOND_TOP_BAR_HEIGHT: real := 22.0
  /** Where the inspector panel starts, measured from the top of the screen. */
  const INSPECTOR_TOP: real := 22.0
  /** The range the grid-size drag widgets keep their values in. */
  const GRID_SIZE_MIN: int := 1
  const GRID_SIZE_MAX: int := 100

  /** An egui rectangle, given by its minimum corner and its size. */
  datatype UiRect = UiRect(x: real, y: real, width: real, height: real)

  /** The screen rectangle the UI context reports. */
  datatype ScreenRect = ScreenRect(left: real, top: real, right: real, bottom: real) {
    function Height(): real { bottom - top }
  }

  /** Everything the widgets measure or report during one frame. */
  datatype FrameInput = FrameInput(
    leftPanelAvailableWidth: real,   // usable width inside the left panel
    draggedSizeX: Option<int>,       // new X extent, when the X drag widget changed
    draggedSizeZ: Option<int>,       // new Z extent, when the Z drag widget changed
    clicked16_9: bool,
    clickedSquare: bool,
    clickedNormal: bool,
    clickedStretch: bool,
    firstTopBarEndY: real,           // where the first top bar ends
    availableLeft: real,             // left edge of the area the side panels leave free
    screen: ScreenRect,
    clickedWorkspace: bool,
    clickedStreams: bool,
    clickedInspector: bool,
    inspectorAvailableWidth: real)   // usable width inside the inspector, when it is shown

  /** The rectangles the pass lays out; the inspector and the overlay only when shown. */
  datatype FrameOutput = FrameOutput(
    secondTopBar: UiRect,
    bottomBar: UiRect,
    inspector: Option<UiRect>,
    streamsPanel: Option<UiRect>)

  /** The value a range-limited drag widget can report. */
  function ClampToGridRange(v: int): (r: int)
    ensures GRID_SIZE_MIN <= r <= GRID_SIZE_MAX
    ensures GRID_SIZE_MIN <= v <= GRID_SIZE_MAX ==> r == v
    ensures v < GRID_SIZE_MIN ==> r == GRID_SIZE_MIN
    ensures GRID_SIZE_MAX < v ==> r == GRID_SIZE_MAX
  {
    if v < GRID_SIZE_MIN then GRID_SIZE_MIN else if v > GRID_SIZE_MAX then GRID_SIZE_MAX else v
  }

  /** `v.max(0.0)`. */
  function NonNegative(v: real): (r: real)
    ensures r >= 0.0 && r >= v
    ensures r == v || r == 0.0
  {
    if v < 0.0 then 0.0 else v
  }

  /** The inspector starts as far from the right screen edge as the left panel ends from the left. */
  function MirroredRightPanelStart(screenRight: real, leftPanelEndX: real): (start: real)
    ensures screenRight - start == leftPanelEndX
  {
    screenRight - leftPanelEndX
  }

  /**
   * The mirrored inspector starts no further left than the left panel ends
   * exactly when the left panel takes at most half the screen.
   */
  lemma PanelsOrderedIffLeftPanelAtMostHalf(screenRight: real, leftPanelEndX: real)
    ensures MirroredRightPanelStart(screenRight, leftPanelEndX) >= leftPanelEndX
        <==> 2.0 * leftPanelEndX <= screenRight
  {
  }

  /** Width of the second top bar and of the bottom bar: from the left panel to the screen edge. */
  function BarWidth(screenRight: real, leftPanelEndX: real): (width: real)
    ensures width >= 0.0
    ensures leftPanelEndX <= screenRight ==> leftPanelEndX + width == screenRight
    ensures screenRight < leftPanelEndX ==> width == 0.0
  {
    NonNegative(screenRight - leftPanelEndX)
  }

  /** The second top bar sits right under the first, from the left panel to the screen edge. */
  function SecondTopBarRect(leftPanelEndX: real, firstTopBarEndY: real, screen: ScreenRect): (r: UiRect)
    ensures r.x == leftPanelEndX && r.y == firstTopBarEndY && r.height == EGUI_SECOND_TOP_BAR_HEIGHT
    ensures r.width >= 0.0 && (leftPanelEndX <= screen.right ==> r.x + r.width == screen.right)
  {
    UiRect(leftPanelEndX, firstTopBarEndY, BarWidth(screen.right, leftPanelEndX), EGUI_SECOND_TOP_BAR_HEIGHT)
  }

  /** The bottom bar has the second bar's width and ends at the bottom of the screen. */
  function BottomBarRect(leftPanelEndX: real, screen: ScreenRect): (r: UiRect)
    ensures r.x == leftPanelEndX && r.height == EGUI_SECOND_TOP_BAR_HEIGHT && r.y + r.height == screen.bottom
    ensures r.width >= 0.0 && (leftPanelEndX <= screen.right ==> r.x + r.width == screen.right)
  {
    UiRect(leftPanelEndX, screen.bottom - EGUI_SECOND_TOP_BAR_HEIGHT, BarWidth(screen.right, leftPanelEndX),
           EGUI_SECOND_TOP_BAR_HEIGHT)
  }

  /**
   * The inspector has the left panel's total width, is flush with the right
   * screen edge, and runs from INSPECTOR_TOP down a screen height.
   */
  function InspectorRect(screen: ScreenRect, leftPanelTotalWidth: real): (r: UiRect)
    ensures r.width == leftPanelTotalWidth && r.x + r.width == screen.right
    ensures r.y == INSPECTOR_TOP && r.y + r.height == screen.Height()
  {
    UiRect(screen.right - leftPanelTotalWidth, INSPECTOR_TOP, leftPanelTotalWidth, screen.Height() - INSPECTOR_TOP)
  }

  /**
   * The streams overlay covers the area of the 3D view: from the left panel
   * and below the top bars to the inspector (or the screen edge when it is
   * collapsed) and down to the bottom of the screen; no size is negative.
   */
  function StreamsPanelRect(leftPanelEndX: real, rightPanelStartX: real, topBarsHeight: real,
                            inspectorCollapsed: bool, screen: ScreenRect): (r: UiRect)
    ensures r.x == leftPanelEndX && r.y == topBarsHeight
    ensures r.width >= 0.0 && r.height >= 0.0
    ensures var edge := if inspectorCollapsed then screen.right else rightPanelStartX;
      (leftPanelEndX <= edge ==> r.x + r.width == edge) && (edge < leftPanelEndX ==> r.width == 0.0)
    ensures topBarsHeight <= screen.Height() ==> r.y + r.height == screen.Height()
    ensures screen.Height() < topBarsHeight ==> r.height == 0.0
  {
    var edge := if inspectorCollapsed then screen.right else rightPanelStartX;
    var width := edge - leftPanelEndX;
    var height := screen.Height() - topBarsHeight;
    UiRect(leftPanelEndX, topBarsHeight, NonNegative(width), NonNegative(height))
  }

  /** A whole pixel count converts to itself at scale factor 1. */
  lemma WholePixelsAtUnitScale(n: uint32, window: Window)
    requires window.scaleFactor == 1.0
    ensures Physical(n as real, window) == n
  {
    assert n as real * window.scaleFactor == n as real;
  }

  /**
   * With whole-pixel measurements at scale factor 1 and a screen the size of
   * the window, the streams overlay starts where the camera viewport starts,
   * has its width, and is taller by exactly the bottom bar.
   */
  lemma {:induction false} StreamsPanelCoversCameraViewport(
    window: Window, left: uint32, right: uint32, top: uint32, bottom: uint32, collapsed: bool, screen: ScreenRect)
    requires window.scaleFactor == 1.0
    requires screen.right == window.physicalWidth as real && screen.Height() == window.physicalHeight as real
    ensures var v := DeriveViewport(window, PanelBounds(left as real, right as real, top as real, bottom as real, collapsed));
      var s := StreamsPanelRect(left as real, right as real, top as real, collapsed, screen);
      && s.x == v.x as real && s.y == v.y as real && s.width == v.width as real
      && (top + bottom <= window.physicalHeight ==> s.height == (v.height + bottom) as real)
  {
    WholePixelsAtUnitScale(left, window);
    WholePixelsAtUnitScale(right, window);
    WholePixelsAtUnitScale(top, window);
    WholePixelsAtUnitScale(bottom, window);
  }

  /**
   * After a layout commit at scale factor 1 with a whole-pixel left panel of
   * width l taking at most half of a window at least 64 pixels tall, the 3D
   * view is (l, 42, W - 2l, H - 64) with the inspector shown, and reaches the
   * window edge, (l, 42, W - l, H - 64), with it collapsed.
   */
  lemma {:induction false} CommittedLayoutViewport(window: Window, left: uint32, collapsed: bool)
    requires window.scaleFactor == 1.0
    requires 2 * left <= window.physicalWidth && 64 <= window.physicalHeight
    ensures DeriveViewport(window, PanelBounds(left as real,
                MirroredRightPanelStart(window.physicalWidth as real, left as real),
                EGUI_TOP_BAR_HEIGHT + EGUI_SECOND_TOP_BAR_HEIGHT, EGUI_SECOND_TOP_BAR_HEIGHT, collapsed))
         == Viewport(left, 42,
                     if collapsed then window.physicalWidth - left else window.physicalWidth - 2 * left,
                     window.physicalHeight - 64)
  {
    var rightStart: uint32 := window.physicalWidth - left;
    assert MirroredRightPanelStart(window.physicalWidth as real, left as real) == rightStart as real;
    WholePixelsAtUnitScale(left, window);
    WholePixelsAtUnitScale(rightStart, window);
    WholePixelsAtUnitScale(42, window);
    WholePixelsAtUnitScale(22, window);
  }

  /** A 1920x1080 window with a 238-pixel left panel gives the view (238, 42, 1444, 1016). */
  lemma CommittedLayoutExample()
    ensures DeriveViewport(Window(1920, 1080, 1.0), PanelBounds(238.0, MirroredRightPanelStart(1920.0, 238.0),
                EGUI_TOP_BAR_HEIGHT + EGUI_SECOND_TOP_BAR_HEIGHT, EGUI_SECOND_TOP_BAR_HEIGHT, false))
         == Viewport(238, 42, 1444, 1016)
  {
    CommittedLayoutViewport(Window(1920, 1080, 1.0), 238, false);
  }

  /** The grid-size widgets write an extent only when they report a change. */
  method EditGridSize(grid: GridState, draggedSizeX: Option<int>, draggedSizeZ: Option<int>)
    modifies grid
    ensures grid.sizeX == if draggedSizeX.Some? then ClampToGridRange(draggedSizeX.value) else old(grid.sizeX)
    ensures grid.sizeZ == if draggedSizeZ.Some? then ClampToGridRange(draggedSizeZ.value) else old(grid.sizeZ)
    ensures grid.previousSizeX == old(grid.previousSizeX) && grid.previousSizeZ == old(grid.previousSizeZ)
    ensures old(grid.InRange()) ==> grid.InRange()
  {
    if draggedSizeX.Some? {
      var sizeX := ClampToGridRange(draggedSizeX.value);
      grid.sizeX := sizeX;
    }
    if draggedSizeZ.Some? {
      var sizeZ := ClampToGridRange(draggedSizeZ.value);
      grid.sizeZ := sizeZ;
    }
  }

  /** The aspect buttons select the current mode and leave the shadow copy alone. */
  method SelectAspectRatio(aspect: AspectRatioState, clicked16_9: bool, clickedSquare: bool)
    modifies aspect
    ensures aspect.current == if clickedSquare then Square else if clicked16_9 then Ratio16_9 else old(aspect.current)
    ensures aspect.previous == old(aspect.previous)
  {
    if clicked16_9 {
      aspect.current := Ratio16_9;
    }
    if clickedSquare {
      aspect.current := Square;
    }
  }

  /** The texture-mode buttons select the current mode and leave the shadow copy alone. */
  method SelectTextureMode(mode: TextureModeState, clickedNormal: bool, clickedStretch: bool)
    modifies mode
    ensures mode.current == if clickedStretch then Stretch else if clickedNormal then Normal else old(mode.current)
    ensures mode.previous == old(mode.previous)
  {
    if clickedNormal {
      mode.current := Normal;
    }
    if clickedStretch {
      mode.current := Stretch;
    }
  }

  /**
   * Records where the side panels end: the left panel where the free area
   * begins, the inspector mirrored from the right screen edge, and the fixed
   * bar heights.
   */
  method CommitLayout(layout: EguiLayoutState, availableLeft: real, screen: ScreenRect)
    modifies layout
    ensures layout.leftPanelEndX == availableLeft
    ensures layout.rightPanelStartX == MirroredRightPanelStart(screen.right, availableLeft)
    ensures layout.topBarsHeight == 42.0 && layout.bottomBarHeight == 22.0
    ensures layout.inspectorCollapsed == old(layout.inspectorCollapsed)
    ensures layout.leftPanelContentWidth == old(layout.leftPanelContentWidth)
    ensures layout.rightPanelContentWidth == old(layout.rightPanelContentWidth)
  {
    var leftPanelEndX := availableLeft;
    var leftPanelTotalWidth := leftPanelEndX;
    var calculatedRightPanelStart := screen.right - leftPanelTotalWidth;
    layout.leftPanelEndX := leftPanelEndX;
    layout.rightPanelStartX := calculatedRightPanelStart;
    layout.topBarsHeight := EGUI_TOP_BAR_HEIGHT + EGUI_SECOND_TOP_BAR_HEIGHT;
    layout.bottomBarHeight := EGUI_SECOND_TOP_BAR_HEIGHT;
  }

  /** Workspace hides the streams overlay, Streams shows it. */
  method SelectView(streams: StreamsPanelState, clickedWorkspace: bool, clickedStreams: bool)
    modifies streams
    ensures streams.isVisible == if clickedStreams then true else if clickedWorkspace then false else old(streams.isVisible)
  {
    if clickedWorkspace {
      streams.isVisible := false;
    }
    if clickedStreams {
      streams.isVisible := true;
    }
  }

  /** The collapsed flag after the Inspector button was or was not clicked. */
  function Toggled(collapsed: bool, clicked: bool): (r: bool)
    ensures clicked ==> r == !collapsed
    ensures !clicked ==> r == collapsed
  {
    collapsed != clicked
  }

  /** Two clicks of the Inspector button restore the collapsed flag. */
  lemma ToggleTwiceRestores(collapsed: bool)
    ensures Toggled(Toggled(collapsed, true), true) == collapsed
  {
  }

  /** The Inspector button flips the collapsed flag. */
  method ToggleInspector(layout: EguiLayoutState, clicked: bool)
    modifies layout
    ensures layout.inspectorCollapsed == Toggled(old(layout.inspectorCollapsed), clicked)
    ensures layout.leftPanelEndX == old(layout.leftPanelEndX)
    ensures layout.rightPanelStartX == old(layout.rightPanelStartX)
    ensures layout.topBarsHeight == old(layout.topBarsHeight) && layout.bottomBarHeight == old(layout.bottomBarHeight)
    ensures layout.leftPanelContentWidth == old(layout.leftPanelContentWidth)
    ensures layout.rightPanelContentWidth == old(layout.rightPanelContentWidth)
  {
    if clicked {
      layout.inspectorCollapsed := !layout.inspectorCollapsed;
    }
  }

  /**
   * One UI frame. Without a UI context nothing happens. Otherwise the writes
   * happen in widget order, so the inspector and the streams overlay are laid
   * out from this frame's layout and this frame's toggles.
   */
  method EguiControlsUi(frame: Option<FrameInput>, layout: EguiLayoutState, grid: GridState,
                        streams: StreamsPanelState, aspect: AspectRatioState, mode: TextureModeState)
    returns (out: Option<FrameOutput>)
    modifies layout, grid, streams, aspect, mode
    ensures frame.None? ==> out.None? && unchanged(layout, grid, streams, aspect, mode)
    ensures frame.Some? ==> out.Some?
    ensures frame.Some? ==>
      var f := frame.value;
      // left panel: measured width, grid extents, mode selections
      && layout.leftPanelContentWidth == f.leftPanelAvailableWidth
      && grid.sizeX == (if f.draggedSizeX.Some? then ClampToGridRange(f.draggedSizeX.value) else old(grid.sizeX))
      && grid.sizeZ == (if f.draggedSizeZ.Some? then ClampToGridRange(f.draggedSizeZ.value) else old(grid.sizeZ))
      && grid.previousSizeX == old(grid.previousSizeX) && grid.previousSizeZ == old(grid.previousSizeZ)
      && aspect.current == (if f.clickedSquare then Square else if f.clicked16_9 then Ratio16_9 else old(aspect.current))
      && aspect.previous == old(aspect.previous)
      && mode.current == (if f.clickedStretch then Stretch else if f.clickedNormal then Normal else old(mode.current))
      && mode.previous == old(mode.previous)
      // the committed layout and the toggles
      && layout.leftPanelEndX == f.availableLeft
      && layout.rightPanelStartX == MirroredRightPanelStart(f.screen.right, f.availableLeft)
      && layout.topBarsHeight == 42.0 && layout.bottomBarHeight == 22.0
      && streams.isVisible == (if f.clickedStreams then true else if f.clickedWorkspace then false else old(streams.isVisible))
      && layout.inspectorCollapsed == Toggled(old(layout.inspectorCollapsed), f.clickedInspector)
      && layout.rightPanelContentWidth ==
           (if layout.inspectorCollapsed then old(layout.rightPanelContentWidth) else f.inspectorAvailableWidth)
      // the rectangles laid out
      && out.value.secondTopBar == SecondTopBarRect(f.availableLeft, f.firstTopBarEndY, f.screen)
      && out.value.bottomBar == BottomBarRect(f.availableLeft, f.screen)
      && out.value.inspector == (if layout.inspectorCollapsed then None else Some(InspectorRect(f.screen, f.availableLeft)))
      && out.value.streamsPanel ==
           (if streams.isVisible
            then Some(StreamsPanelRect(f.availableLeft, layout.rightPanelStartX, 42.0, layout.inspectorCollapsed, f.screen))
            else None)
    ensures old(grid.InRange()) ==> grid.InRange()
  {
    if frame.None? {
      return None;
    }
    var f := frame.value;
    layout.leftPanelContentWidth := f.leftPanelAvailableWidth;
    EditGridSize(grid, f.draggedSizeX, f.draggedSizeZ);
    SelectAspectRatio(aspect, f.clicked16_9, f.clickedSquare);
    SelectTextureMode(mode, f.clickedNormal, f.clickedStretch);

    CommitLayout(layout, f.availableLeft, f.screen);
    var secondTopBar := SecondTopBarRect(layout.leftPanelEndX, f.firstTopBarEndY, f.screen);
    SelectView(streams, f.clickedWorkspace, f.clickedStreams);

    var bottomBar := BottomBarRect(layout.leftPanelEndX, f.screen);
    ToggleInspector(layout, f.clickedInspector);

    var inspector: Option<UiRect> := None;
    if !layout.inspectorCollapsed {
      inspector := Some(InspectorRect(f.screen, f.availableLeft));
      layout.rightPanelContentWidth := f.inspectorAvailableWidth;
    }

    var streamsPanel: Option<UiRect> := None;
    if streams.isVisible {
      streamsPanel := Some(StreamsPanelRect(layout.leftPanelEndX, layout.rightPanelStartX, layout.topBarsHeight,
                                            layout.inspectorCollapsed, f.screen));
    }
    out := Some(FrameOutput(secondTopBar, bottomBar, inspector, streamsPanel));
  }
}
