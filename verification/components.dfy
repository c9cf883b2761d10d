/**
 * Shared state records of the scene viewer and their start-up defaults.
 *
 * Every record below is a process-wide resource that one system writes in
 * place and others read, so each is a class whose fields are updated by the
 * systems in the other modules. The two mode enumerations are plain values.
 */
module Components {

  datatype Option<T> = None | Some(value: T)

  /** Aspect ratio chosen for the textured reference plane. */
  datatype AspectRatio = Ratio16_9 | Square

  /** How the texture is mapped onto the plane: fitted and centred, or stretched. */
  datatype TextureMode = Normal | Stretch

  /** Last known perspective field of view, in radians. */
  class CameraProjectionState {
    var lastPerspectiveFov: real

    constructor Default()
      ensures lastPerspectiveFov == 1.047
    {
      lastPerspectiveFov := 1.047;
    }
  }

  /**
   * Measured boundaries of the UI regions, in logical pixels, and whether
   * the right-hand inspector is collapsed. Written once per frame by the UI
   * pass, read by the viewport derivation.
   */
  class EguiLayoutState {
    var leftPanelEndX: real
    var rightPanelStartX: real
    var topBarsHeight: real
    var bottomBarHeight: real
    var leftPanelContentWidth: real
    var rightPanelContentWidth: real
    var inspectorCollapsed: bool

    constructor Default()
      ensures leftPanelEndX == 0.0 && rightPanelStartX == 0.0
      ensures topBarsHeight == 0.0 && bottomBarHeight == 0.0
      ensures leftPanelContentWidth == 0.0 && rightPanelContentWidth == 0.0
      ensures !inspectorCollapsed
    {
      leftPanelEndX, rightPanelStartX := 0.0, 0.0;
      topBarsHeight, bottomBarHeight := 0.0, 0.0;
      leftPanelContentWidth, rightPanelContentWidth := 0.0, 0.0;
      inspectorCollapsed := false;
    }
  }

  /** Whether the streams overlay covers the 3D view. */
  class StreamsPanelState {
    var isVisible: bool

    constructor Default()
      ensures !isVisible
    {
      isVisible := false;
    }
  }

  /** Names of the textures loaded so far; filled in by the asset loader. */
  class LoadedTextures {
    var textures: seq<string>

    constructor Default()
      ensures textures == []
    {
      textures := [];
    }
  }

  /** The selected plane aspect ratio and its shadow copy for change detection. */
  class AspectRatioState {
    var current: AspectRatio
    var previous: AspectRatio

    predicate Changed()
      reads this
    {
      current != previous
    }

    constructor Default()
      ensures current == Square && !Changed()
    {
      current, previous := Square, Square;
    }
  }

  /** The selected texture mode and its shadow copy for change detection. */
  class TextureModeState {
    var current: TextureMode
    var previous: TextureMode

    predicate Changed()
      reads this
    {
      current != previous
    }

    constructor Default()
      ensures current == Stretch && !Changed()
    {
      current, previous := Stretch, Stretch;
    }
  }

  /** Grid extents in metres, with shadow copies for change detection. */
  class GridState {
    var sizeX: int
    var sizeZ: int
    var previousSizeX: int
    var previousSizeZ: int

    /** The range the size widgets allow. */
    predicate InRange()
      reads this
    {
      1 <= sizeX <= 100 && 1 <= sizeZ <= 100
    }

    constructor Default()
      ensures sizeX == 10 && sizeZ == 10
      ensures previousSizeX == sizeX && previousSizeZ == sizeZ
      ensures InRange()
    {
      sizeX, sizeZ := 10, 10;
      previousSizeX, previousSizeZ := 10, 10;
    }
  }
}
