# Layout–viewport synchronisation and texture fitting, modelled in Dafny

The scene viewer draws a 3D scene (a ground grid and a texturable reference
plane) under an immediate-mode UI: two top bars, a left control panel, a
collapsible right-hand inspector, a bottom bar and a full-screen "streams"
overlay. Each frame the UI pass measures where its panels ended up and writes
a layout record; the viewport system turns that record into the camera's
render rectangle in physical pixels so that the 3D view fills exactly the
free area. A second system re-fits the textured plane (mesh size and
texture-coordinate transform) whenever the aspect-ratio mode, the texture mode
or the grid's Z extent changes. At start-up the grid lines and the plane are
spawned from the grid extents.

The project has one module per source file:

- `components.dfy` (`Components`): the shared state records with their
  start-up defaults. They are resources that systems update in place, so each
  is a class with a `Default` constructor. The two mode enumerations are
  datatypes.
- `viewport.dfy` (`CameraViewport`): Rust's saturating `f32 as u32` cast, the
  saturating subtraction, the pure viewport derivation `DeriveViewport`, and
  the per-frame system `UpdateCameraViewports`, which writes a `Camera`
  object's viewport.
- `texture.dfy` (`Texture`): the plane size for each aspect mode, the
  fit-by-width / fit-by-height / stretch kernel `TextureFit`, and the change
  gate `UpdateTextureAspectRatio`. Its plane loop `RefitPlanes` is proved
  against the value functions `Remeshed` and `Refitted`.
- `setup.dfy` (`Setup`): `SpawnGrid`, written as two loops that append one
  line record per iteration and proved equal to `GridLines`, and
  `SpawnTexturedPlane`.
- `egui_ui.dfy` (`EguiUi`): the writes of the UI pass, one method per widget
  group in widget order, composed by `EguiControlsUi`, and the rectangle
  arithmetic for the bars, the inspector and the streams overlay. It also
  holds the lemmas that connect the committed layout to the derived viewport.

Float quantities are `real`. Physical pixel counts are `uint32`
(`0 <= n <= 0xFFFF_FFFF`). The logical-to-physical conversion follows Rust's
cast semantics: values are truncated toward zero, negative values become 0,
and values above the range become `U32_MAX`.

Grid extents are `i32` in the program and unbounded `int` here. The only
place width matters is `size + 1` when counting grid lines, which would wrap
at `i32::MAX`. That cannot happen inside the [1,100] range the size widgets
allow.

Facts about the code that the lemmas make explicit:

- Normal texture mode crops: it keeps one axis whole and samples a centred
  window of the other, always inside [0,1]² (`FitIsCentredInUnitSquare`).
  That window shows the texture at aspect texAspect²/planeAspect, so the
  image keeps its proportions only when the two aspects already agree
  (`NormalFitKeepsAspectOnlyWhenEqual`).
- Nothing enforces "inspector start ≥ left panel end". The inspector start
  mirrors the left panel's width, so the order holds exactly when the left
  panel takes at most half the screen (`PanelsOrderedIffLeftPanelAtMostHalf`).
- Collapsing the inspector widens the view only when the converted inspector
  start lies inside the window (`CollapseNeverShrinks`). Otherwise it can
  narrow it (`CollapseCanShrinkWhenInspectorOutsideWindow`).
- Once triggered, the texture system sizes the plane from the Z extent alone,
  `z × z` or `z·16/9 × z`. At start-up the plane is `sizeX × sizeZ`.

## Model

| member | source | states |
|---|---|---|
| Components.CameraProjectionState.Default | src/components.rs:14-20 | the stored field of view starts at 1.047 rad |
| Components.EguiLayoutState.Default | src/components.rs:33-45 | all layout measurements start at 0 and the inspector starts expanded |
| Components.StreamsPanelState.Default | src/components.rs:47-50 | the streams overlay starts hidden |
| Components.LoadedTextures.Default | src/components.rs:52-55 | the loaded-texture list starts empty |
| Components.AspectRatioState.Default | src/components.rs:75-82 | the aspect state starts Square/Square, so no re-fit is pending |
| Components.TextureModeState.Default | src/components.rs:96-102 | the texture mode starts Stretch/Stretch, so no re-fit is pending |
| Components.GridState.Default | src/components.rs:113-121 | the grid starts 10×10 with its shadows equal and within [1,100] |
| CameraViewport.CastToU32 | src/main.rs:113-121 | the float-to-u32 cast truncates (p ≤ v < p+1 in range), sends values below 1 to 0, and saturates at U32_MAX |
| CameraViewport.SaturatingSub | src/main.rs:126-127 | the subtraction is exact when b ≤ a and 0 otherwise; it never wraps |
| CameraViewport.RightEdge | src/main.rs:118-122 | the right edge is the physical window width when collapsed, else the converted inspector start |
| CameraViewport.DeriveViewport | src/main.rs:109-127 | with each logical value scaled and cast by `Physical` (main.rs:113-115, 121): origin is (left, top) whatever the collapse state; x + w is the right edge, or w is 0 when left is past it; h = max(0, H − (top + bottom)); y + h + bottom = H when they fit |
| CameraViewport.CollapseNeverShrinks | src/main.rs:118-127 | if the converted inspector start is within the window, collapsing never narrows the view and leaves its height alone |
| CameraViewport.CollapseCanShrinkWhenInspectorOutsideWindow | src/main.rs:118-126 | when the inspector start lies beyond the window edge, collapsing does narrow the view |
| CameraViewport.ExpandedInspectorExample | src/main.rs:113-133 | 1920×1080, left 238, top 42, bottom 22, inspector at 1682 gives (238, 42, 1444, 1016) |
| CameraViewport.CollapsedInspectorExample | src/main.rs:113-133 | the same layout with the inspector collapsed gives (238, 42, 1682, 1016) |
| CameraViewport.UpdateCameraViewports | src/main.rs:103-137 | with exactly one window and one right camera, the camera's viewport becomes the derived rectangle; otherwise every camera keeps its viewport |
| Texture.PlaneSize | src/systems/texture.rs:31-44 | the plane height is the grid's Z extent; the width equals it for Square and is 16/9 of it for 16:9 |
| Texture.PlaneAspectIsSelected | src/systems/texture.rs:34-44 | for a positive extent, width/height is exactly 1 or 16/9 |
| Texture.TextureFit | src/systems/texture.rs:59-97 | Stretch gives the identity transform; Normal always leaves one axis with scale 1 and offset 0 |
| Texture.WiderTextureFitsWidth | src/systems/texture.rs:67-74 | about `FitToWidth`: a texture wider than the plane gets scale_x = 1 and offset_x = 0; scale_z = planeAspect/texAspect, strictly between 0 and 1; offset_z = (1 − scale_z)/2 |
| Texture.TallerTextureFitsHeight | src/systems/texture.rs:75-83 | about `FitToHeight`: otherwise scale_z = 1 and offset_z = 0; scale_x = texAspect/planeAspect, in (0,1]; offset_x = (1 − scale_x)/2 |
| Texture.FitIsCentredInUnitSquare | src/systems/texture.rs:64-97 | in both modes 2·offset + scale = 1 on each axis, and the sampled window lies inside [0,1]² |
| Texture.EqualAspectsGiveIdentity | src/systems/texture.rs:67-83 | at equal aspects both fitting rules give the identity, so the tie-break is invisible |
| Texture.MatchingAspectExample | src/systems/texture.rs:59-83 | a 16×9 plane with a 1920×1080 texture in Normal mode gives the identity |
| Texture.SquarePlaneExample | src/systems/texture.rs:59-83 | a 10×10 plane with a 1920×1080 texture gives (1, 0.5625, 0, 0.21875) |
| Texture.NormalFitShownAspect | src/systems/texture.rs:64-83 | the Normal-mode window shows the texture at aspect texAspect²/planeAspect, whichever axis it keeps whole |
| Texture.NormalWindowAspect | src/systems/texture.rs:67-83 | either window the Normal fit can choose (scale 1 and planeAspect/texAspect, or texAspect/planeAspect and 1) shows aspect texAspect²/planeAspect |
| Texture.NormalFitKeepsAspectOnlyWhenEqual | src/systems/texture.rs:66-83 | the Normal-mode fit shows the texture at the plane's aspect if and only if the two aspects are equal |
| Texture.SquarePlaneDistortion | src/systems/texture.rs:66-83 | a 1920×1080 texture on a square plane is shown at aspect 256/81, not 1 |
| Texture.AspectPreservingFit | src/systems/texture.rs:66 | a reference fit for the stated intent: both scales are at least 1 and the window is centred on each axis |
| Texture.AspectPreservingFitKeepsAspect | src/systems/texture.rs:66 | the reference fit shows the texture at exactly the plane's aspect |
| Texture.Refit | src/systems/texture.rs:53-101 | a resolved material becomes unlit and keeps its texture; its transform is replaced by the fit only when its texture image is loaded |
| Texture.RefitIdempotent | src/systems/texture.rs:53-101 | re-fitting a material twice is the same as re-fitting it once, so planes that share a material agree |
| Texture.Remeshed | src/systems/texture.rs:47-50 | every plane keeps its material and gets a mesh of the new size |
| Texture.Refitted | src/systems/texture.rs:47-58 | the store keeps its keys; materials referenced by a plane are re-fitted and all others are untouched |
| Texture.RefittedStep | src/systems/texture.rs:47-58 | handling one more plane re-fits that plane's material, if it resolves, and nothing else |
| Texture.RefitPlanes | src/systems/texture.rs:46-102 | after the plane loop the planes are `Remeshed` and the materials `Refitted`; images are unchanged |
| Texture.UpdateTextureAspectRatio | src/systems/texture.rs:8-104 | with the gate `RefitPending` (texture.rs:18-22): nothing changes unless the aspect, the Z extent or the mode changed; after a run both mode shadows equal their current values and the planes and materials are re-fitted; the grid is never written; a valid scene stays valid |
| Setup.GridExtents | src/setup.rs:14-19 | with no grid state both extents default to 10 |
| Setup.FencePost | src/setup.rs:18-34 | about `LineCount`, `LinesAcrossX`, `LinesAcrossZ` and `GridLines`: sizeZ + 1 lines along X and sizeX + 1 lines along Z, sizeX + sizeZ + 2 in total |
| Setup.ResizeExample | src/setup.rs:18-19 | a 10×10 grid has 22 lines and a 5×5 grid has 12 |
| Setup.LinesAcrossXPlacement | src/setup.rs:22-31 | about `LinesAcrossX` and `LinePosition`: lines along X have length sizeX and the line radius; they run from z = −sizeZ/2 to +sizeZ/2 exactly one spacing apart |
| Setup.LinesAcrossZPlacement | src/setup.rs:34-43 | about `LinesAcrossZ` and `LinePosition`: lines along Z have length sizeZ and the line radius; they run from x = −sizeX/2 to +sizeX/2 exactly one spacing apart |
| Setup.LinesSymmetric | src/setup.rs:16-35 | about `LinePosition`: the i-th line and the i-th from last lie at opposite positions |
| Setup.SpawnGrid | src/setup.rs:7-44 | the two loops emit exactly `GridLines` of the grid extents (or of 10×10), lines along X first |
| Setup.PlaneSpansGrid | src/setup.rs:53-58 | the distance from first to last grid line equals the plane's extent in each direction |
| Setup.SpawnTexturedPlane | src/setup.rs:46-76 | adds one sizeX × sizeZ plane with a freshly allocated unlit, untextured, identity-transform material, raised above the grid lines; the handle counter advances by one and the scene stays valid |
| EguiUi.ClampToGridRange | src/systems/egui_ui.rs:97-114 | a reported extent lies in [1,100] and is unchanged when already there |
| EguiUi.NonNegative | src/systems/egui_ui.rs:185 | `max(0, v)`: the result is non-negative, at least v, and equals v or 0 |
| EguiUi.MirroredRightPanelStart | src/systems/egui_ui.rs:171-179 | the inspector's distance from the right screen edge equals the left panel's width |
| EguiUi.PanelsOrderedIffLeftPanelAtMostHalf | src/systems/egui_ui.rs:169-179 | right start ≥ left end holds exactly when the left panel takes at most half the screen |
| EguiUi.BarWidth | src/systems/egui_ui.rs:185 | the bar width is non-negative and reaches exactly the screen edge when the left panel ends before it |
| EguiUi.SecondTopBarRect | src/systems/egui_ui.rs:185-193 | the second bar starts under the first bar at the left panel's end, is 22 high and reaches the screen edge |
| EguiUi.BottomBarRect | src/systems/egui_ui.rs:242-249 | the bottom bar is 22 high, ends at the screen bottom and reaches the screen edge |
| EguiUi.InspectorRect | src/systems/egui_ui.rs:294-304 | the inspector has the left panel's width, is flush with the right edge, and runs from 22 down to the screen height |
| EguiUi.StreamsPanelRect | src/systems/egui_ui.rs:371-387 | the overlay's origin is (left end, top bars); its width is max(0, edge − left), with the screen edge as edge when collapsed and the inspector start otherwise; its height is max(0, screen height − top bars), without subtracting the bottom bar |
| EguiUi.StreamsPanelCoversCameraViewport | src/systems/egui_ui.rs:371-387 | at scale 1 with whole pixels the overlay has the camera viewport's origin and width, and is taller by exactly the bottom bar |
| EguiUi.CommittedLayoutViewport | src/systems/egui_ui.rs:169-181 | after a commit at scale 1 the 3D view is (l, 42, W − 2l, H − 64) when expanded and (l, 42, W − l, H − 64) when collapsed |
| EguiUi.CommittedLayoutExample | src/systems/egui_ui.rs:169-181 | a 238-pixel left panel in a 1920×1080 window yields (238, 42, 1444, 1016) |
| EguiUi.EditGridSize | src/systems/egui_ui.rs:96-114 | an extent is written only when its widget reports a change, and then within [1,100]; the shadows are untouched |
| EguiUi.SelectAspectRatio | src/systems/egui_ui.rs:118-135 | the buttons write only `current`, never `previous` |
| EguiUi.SelectTextureMode | src/systems/egui_ui.rs:139-156 | the buttons write only `current`, never `previous` |
| EguiUi.CommitLayout | src/systems/egui_ui.rs:165-181 | left end := measured free-area left; right start := mirror of it; top bars := 20 + 22; bottom bar := 22; nothing else changes |
| EguiUi.SelectView | src/systems/egui_ui.rs:228-236 | Workspace hides the streams overlay and Streams shows it |
| EguiUi.Toggled | src/systems/egui_ui.rs:284-286 | a click negates the collapsed flag and no click keeps it |
| EguiUi.ToggleTwiceRestores | src/systems/egui_ui.rs:284-286 | two clicks restore the collapsed flag |
| EguiUi.ToggleInspector | src/systems/egui_ui.rs:284-286 | `inspectorCollapsed` becomes `Toggled` of its old value and the click; nothing else changes |
| EguiUi.EguiControlsUi | src/systems/egui_ui.rs:9-417 | no UI context means no change; otherwise all writes happen in widget order, and the inspector and overlay rectangles come from this frame's layout and toggles; the grid stays within [1,100] |

## Left out

- Texture.TextureFit: the comments at src/systems/texture.rs:66, 69 and 77
  say Normal mode keeps the texture's aspect ratio. The code does not: it
  crops inside [0,1]², which distorts the image unless the aspects already
  match (`NormalFitKeepsAspectOnlyWhenEqual`, `SquarePlaneDistortion`). The
  model follows the code. `AspectPreservingFit` is a fit that would keep the
  promise (`AspectPreservingFitKeepsAspect`), but nothing in the model uses it.
- Application and plugin wiring in `main` and `setup_split_screen_cameras`
  (src/main.rs:18-101). The camera they spawn appears only as a `Camera`
  object with no viewport.
- The scheduling order between systems. The source does not fix it, so each
  system is modelled on its own. The cross-module lemmas relate a layout
  commit to the viewport derived from it.
- `update_grid_dimensions` and the file that holds it (src/systems/grid.rs)
  are not part of this model, so nothing here syncs `previousSizeX`/`previousSizeZ`.
  The texture system does not sync them either.
- Widget rendering, painting, margins, clip rects, scroll areas and the
  texture-name listing. Widget measurements and clicks are inputs.
- The field-of-view slider, the degree/radian conversion and the
  `last_perspective_fov` sync. These are float trigonometry through a library.
- `setup_camera_and_lights`, which only spawns lights.
- f32 rounding, NaN and infinities. All float arithmetic is exact `real`
  arithmetic, including the product `v * scale_factor` before the cast.
- Image dimensions are at least 1 (`Dimension`). A zero-sized image would
  give an infinite or NaN aspect in f32.
- Texture.UpdateTextureAspectRatio: requires a positive grid Z extent, which the
  [1,100] widget range guarantees. A zero extent would divide by zero in f32.
- Asset-handle allocation. Meshes are stored by value. Materials and images
  are maps from handles, and a new material handle comes from a counter.
- Plane and line orientation (the quaternion rotations) is reduced to which
  axis a line runs along and the plane's height above the ground.
- Camera viewport depth range and other `Viewport` defaults.
- Texture.RefitPlanes: the loop works on local copies of the plane list and
  the material store and writes both back when it finishes. Nothing else
  runs during the loop, so the final state is the same as with in-place
  updates per plane.
