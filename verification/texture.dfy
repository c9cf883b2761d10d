/**
 * Re-fitting of the textured reference plane: when the aspect-ratio mode,
 * the texture mode or the grid's Z extent changes, every textured plane gets
 * a mesh of the new size and its material a new texture-coordinate transform.
 */
module Texture {
  import opened Components

  type MaterialHandle = nat
  type ImageHandle = nat

  /** A decoded image dimension: images have at least one pixel each way. */
  type Dimension = n: nat | n > 0 witness 1

  datatype Image = Image(width: Dimension, height: Dimension)

  /**
   * A scale-and-translate transform of texture coordinates:
   * (u, v) is sampled at (scaleX * u + offsetX, scaleZ * v + offsetZ).
   */
  datatype UvTransform = UvTransform(scaleX: real, scaleZ: real, offsetX: real, offsetZ: real)

  const Identity := UvTransform(1.0, 1.0, 0.0, 0.0)

  datatype StandardMaterial = StandardMaterial(
    unlit: bool,
    baseColorTexture: Option<ImageHandle>,
    uvTransform: UvTransform)

  /** A flat rectangle mesh of the given extents. */
  datatype Rectangle = Rectangle(width: real, height: real)

  /** A textured plane entity: its mesh, its material, and its height above the ground. */
  datatype TexturedPlane = TexturedPlane(mesh: Rectangle, material: MaterialHandle, elevation: real)

  /** The plane extents for an aspect mode, with the grid's Z extent as height. */
  function PlaneSize(aspect: AspectRatio, gridZ: real): (size: Rectangle)
    ensures size.height == gridZ
    ensures aspect == Square ==> size.width == size.height
    ensures aspect == Ratio16_9 ==> 9.0 * size.width == 16.0 * size.height
  {
    match aspect
    case Ratio16_9 => Rectangle(gridZ * (16.0 / 9.0), gridZ)
    case Square => Rectangle(gridZ, gridZ)
  }

  /** For a positive extent, the plane's width-to-height ratio is the one selected. */
  lemma PlaneAspectIsSelected(aspect: AspectRatio, gridZ: real)
    requires gridZ > 0.0
    ensures var size := PlaneSize(aspect, gridZ);
      size.width / size.height == if aspect == Square then 1.0 else 16.0 / 9.0
  {
  }

  predicate ValidPlane(plane: Rectangle)
  {
    plane.width > 0.0 && plane.height > 0.0
  }

  function TextureAspect(image: Image): real
  {
    image.width as real / image.height as real
  }

  function PlaneAspect(plane: Rectangle): real
    requires ValidPlane(plane)
  {
    plane.width / plane.height
  }

  /** Fit the texture to the plane's width and centre it vertically. */
  function FitToWidth(plane: Rectangle, image: Image): UvTransform
    requires ValidPlane(plane)
  {
    var scale := plane.width / image.width as real;
    var scaledHeight := image.height as real * scale;
    var scaleZ := scaledHeight / plane.height;
    UvTransform(1.0, scaleZ, 0.0, (1.0 - scaleZ) * 0.5)
  }

  /** Fit the texture to the plane's height and centre it horizontally. */
  function FitToHeight(plane: Rectangle, image: Image): UvTransform
    requires ValidPlane(plane)
  {
    var scale := plane.height / image.height as real;
    var scaledWidth := image.width as real * scale;
    var scaleX := scaledWidth / plane.width;
    UvTransform(scaleX, 1.0, (1.0 - scaleX) * 0.5, 0.0)
  }

  /**
   * The texture-coordinate transform for a mode: Stretch samples the whole
   * image; Normal keeps one axis whole and centres a window on the other.
   */
  function TextureFit(mode: TextureMode, plane: Rectangle, image: Image): (t: UvTransform)
    requires ValidPlane(plane)
    ensures mode == Stretch ==> t == Identity
    ensures (t.scaleX == 1.0 && t.offsetX == 0.0) || (t.scaleZ == 1.0 && t.offsetZ == 0.0)
  {
    match mode
    case Stretch => Identity
    case Normal =>
      if TextureAspect(image) > PlaneAspect(plane) then FitToWidth(plane, image)
      else FitToHeight(plane, image)
  }

  /**
   * A texture relatively wider than the plane keeps its full width; its
   * vertical scale is the ratio of the aspects, strictly inside (0, 1), and
   * the sampled band is centred.
   */
  lemma {:induction false} WiderTextureFitsWidth(plane: Rectangle, image: Image)
    requires ValidPlane(plane)
    requires TextureAspect(image) > PlaneAspect(plane)
    ensures var t := TextureFit(Normal, plane, image);
      && t.scaleX == 1.0 && t.offsetX == 0.0
      && t.scaleZ == PlaneAspect(plane) / TextureAspect(image)
      && 0.0 < t.scaleZ < 1.0
      && t.offsetZ == (1.0 - t.scaleZ) / 2.0
  {
    var w, h := image.width as real, image.height as real;
    var t := FitToWidth(plane, image);
    calc {
      t.scaleZ;
      h * (plane.width / w) / plane.height;
      (plane.width / plane.height) / (w / h);
    }
    AspectRatioBelowOne(PlaneAspect(plane), TextureAspect(image));
  }

  /**
   * Otherwise the texture keeps its full height; its horizontal scale is the
   * ratio of the aspects, inside (0, 1], and the sampled band is centred.
   */
  lemma {:induction false} TallerTextureFitsHeight(plane: Rectangle, image: Image)
    requires ValidPlane(plane)
    requires TextureAspect(image) <= PlaneAspect(plane)
    ensures var t := TextureFit(Normal, plane, image);
      && t.scaleZ == 1.0 && t.offsetZ == 0.0
      && t.scaleX == TextureAspect(image) / PlaneAspect(plane)
      && 0.0 < t.scaleX <= 1.0
      && t.offsetX == (1.0 - t.scaleX) / 2.0
  {
    var w, h := image.width as real, image.height as real;
    var t := FitToHeight(plane, image);
    calc {
      t.scaleX;
      w * (plane.height / h) / plane.width;
      (w / h) / (plane.width / plane.height);
    }
    assert TextureAspect(image) > 0.0;
  }

  lemma AspectRatioBelowOne(a: real, b: real)
    requires 0.0 < a < b
    ensures 0.0 < a / b < 1.0
  {
    var q := a / b;
    assert q * b == a;
    assert (1.0 - q) * b == b - a;
    PositiveFactor(1.0 - q, b);
  }

  lemma PositiveFactor(x: real, b: real)
    requires b > 0.0 && x * b > 0.0
    ensures x > 0.0
  {
  }

  /**
   * In every mode the sampled window is centred on each axis and lies inside
   * the unit square: 0 <= offset and offset + scale <= 1, with
   * 2 * offset + scale == 1.
   */
  lemma {:induction false} FitIsCentredInUnitSquare(mode: TextureMode, plane: Rectangle, image: Image)
    requires ValidPlane(plane)
    ensures var t := TextureFit(mode, plane, image);
      && 2.0 * t.offsetX + t.scaleX == 1.0 && 2.0 * t.offsetZ + t.scaleZ == 1.0
      && 0.0 <= t.offsetX && t.offsetX + t.scaleX <= 1.0
      && 0.0 <= t.offsetZ && t.offsetZ + t.scaleZ <= 1.0
  {
    if mode == Normal {
      if TextureAspect(image) > PlaneAspect(plane) {
        WiderTextureFitsWidth(plane, image);
      } else {
        TallerTextureFitsHeight(plane, image);
      }
    }
  }

  /**
   * When texture and plane have the same aspect, both fitting rules give the
   * identity, so sending the tie to fit-by-height changes nothing.
   */
  lemma {:induction false} EqualAspectsGiveIdentity(plane: Rectangle, image: Image)
    requires ValidPlane(plane)
    requires TextureAspect(image) == PlaneAspect(plane)
    ensures FitToWidth(plane, image) == Identity
    ensures FitToHeight(plane, image) == Identity
    ensures TextureFit(Normal, plane, image) == Identity
  {
    var w, h := image.width as real, image.height as real;
    assert w * plane.height == h * plane.width by {
      assert w / h == plane.width / plane.height;
    }
    assert plane.width / w == plane.height / h;
    assert h * (plane.height / h) == plane.height;
    assert w * (plane.width / w) == plane.width;
    assert plane.height / plane.height == 1.0;
    assert plane.width / plane.width == 1.0;
  }

  /** A 16 by 9 plane shows a 1920x1080 texture untransformed. */
  lemma MatchingAspectExample()
    ensures TextureFit(Normal, Rectangle(16.0, 9.0), Image(1920, 1080)) == Identity
  {
    EqualAspectsGiveIdentity(Rectangle(16.0, 9.0), Image(1920, 1080));
  }

  /** A square plane samples the middle 9/16 of a 1920x1080 texture vertically. */
  lemma SquarePlaneExample()
    ensures TextureFit(Normal, Rectangle(10.0, 10.0), Image(1920, 1080))
         == UvTransform(1.0, 0.5625, 0.0, 0.21875)
  {
  }

  /**
   * The width-to-height ratio, in texture pixels, of the part of an image a
   * transform spreads over a plane: scaleX * width pixels across and
   * scaleZ * height pixels down. The image appears undistorted exactly when
   * this equals the plane's own aspect.
   */
  function ShownAspect(t: UvTransform, image: Image): real
    requires t.scaleZ > 0.0
  {
    (t.scaleX * image.width as real) / (t.scaleZ * image.height as real)
  }

  /**
   * The Normal-mode fit spreads a window of aspect texAspect^2 / planeAspect
   * over the plane, whichever axis it keeps whole.
   */
  lemma {:induction false} NormalFitShownAspect(plane: Rectangle, image: Image)
    requires ValidPlane(plane)
    ensures var t := TextureFit(Normal, plane, image);
      && t.scaleZ > 0.0
      && ShownAspect(t, image) == TextureAspect(image) * TextureAspect(image) / PlaneAspect(plane)
  {
    if TextureAspect(image) > PlaneAspect(plane) {
      WiderTextureFitsWidth(plane, image);
    } else {
      TallerTextureFitsHeight(plane, image);
    }
    NormalWindowAspect(TextureFit(Normal, plane, image), image, PlaneAspect(plane));
  }

  /** Either window the Normal fit can choose shows aspect texAspect^2 / planeAspect. */
  lemma NormalWindowAspect(t: UvTransform, image: Image, pa: real)
    requires pa > 0.0
    requires var ta := TextureAspect(image);
      (t.scaleX == 1.0 && t.scaleZ == pa / ta) || (t.scaleZ == 1.0 && t.scaleX == ta / pa)
    ensures t.scaleZ > 0.0
    ensures ShownAspect(t, image) == TextureAspect(image) * TextureAspect(image) / pa
  {
    var ta := TextureAspect(image);
    assert ta > 0.0;
    assert t.scaleZ > 0.0;
    WindowAspect(t, image);
    SquaredOverRatio(ta, pa);
  }

  lemma SquaredOverRatio(ta: real, pa: real)
    requires ta > 0.0 && pa > 0.0
    ensures 1.0 * ta / (pa / ta) == ta * ta / pa
    ensures (ta / pa) * ta / 1.0 == ta * ta / pa
  {
  }

  /** The aspect of a window of relative size scaleX by scaleZ of an image. */
  lemma WindowAspect(t: UvTransform, image: Image)
    requires t.scaleZ > 0.0
    ensures ShownAspect(t, image) == t.scaleX * TextureAspect(image) / t.scaleZ
  {
    var w, h := image.width as real, image.height as real;
    calc {
      (t.scaleX * w) / (t.scaleZ * h);
      (t.scaleX / t.scaleZ) * (w / h);
    }
  }

  /**
   * So the Normal-mode fit keeps the texture's proportions only when texture
   * and plane already have the same aspect; otherwise the shown window is
   * stretched further than the plane.
   */
  lemma {:induction false} NormalFitKeepsAspectOnlyWhenEqual(plane: Rectangle, image: Image)
    requires ValidPlane(plane)
    ensures var t := TextureFit(Normal, plane, image);
      t.scaleZ > 0.0 && (ShownAspect(t, image) == PlaneAspect(plane) <==> TextureAspect(image) == PlaneAspect(plane))
  {
    NormalFitShownAspect(plane, image);
    var ta, pa := TextureAspect(image), PlaneAspect(plane);
    assert ta > 0.0 && pa > 0.0;
    assert ta * ta / pa == pa <==> ta * ta == pa * pa;
    if ta < pa {
      assert ta * ta < ta * pa < pa * pa;
    } else if pa < ta {
      assert pa * pa < pa * ta < ta * ta;
    }
  }

  /** A 1920x1080 texture on a square plane is shown at aspect 256/81, not 1. */
  lemma SquarePlaneDistortion()
    ensures var t := TextureFit(Normal, Rectangle(10.0, 10.0), Image(1920, 1080));
      t.scaleZ > 0.0 && ShownAspect(t, Image(1920, 1080)) == 256.0 / 81.0
  {
    NormalFitShownAspect(Rectangle(10.0, 10.0), Image(1920, 1080));
    assert TextureAspect(Image(1920, 1080)) == 16.0 / 9.0;
  }

  /**
   * A reference fit that does keep the texture's proportions: the whole image
   * is shown, centred, and the axis with spare room samples past [0, 1], so
   * that margin shows the sampler's edge behaviour.
   */
  function AspectPreservingFit(plane: Rectangle, image: Image): (t: UvTransform)
    requires ValidPlane(plane)
    ensures t.scaleX >= 1.0 && t.scaleZ >= 1.0
    ensures 2.0 * t.offsetX + t.scaleX == 1.0 && 2.0 * t.offsetZ + t.scaleZ == 1.0
  {
    var ta, pa := TextureAspect(image), PlaneAspect(plane);
    if ta > pa then
      var scaleZ := ta / pa;
      assert scaleZ >= 1.0 by { assert scaleZ * pa == ta; }
      UvTransform(1.0, scaleZ, 0.0, (1.0 - scaleZ) / 2.0)
    else
      var scaleX := pa / ta;
      assert scaleX >= 1.0 by { assert scaleX * ta == pa; }
      UvTransform(scaleX, 1.0, (1.0 - scaleX) / 2.0, 0.0)
  }

  /** The reference fit shows the image at exactly the plane's aspect, i.e. undistorted. */
  lemma {:induction false} AspectPreservingFitKeepsAspect(plane: Rectangle, image: Image)
    requires ValidPlane(plane)
    ensures var t := AspectPreservingFit(plane, image);
      t.scaleZ > 0.0 && ShownAspect(t, image) == PlaneAspect(plane)
  {
    var t := AspectPreservingFit(plane, image);
    var ta, pa := TextureAspect(image), PlaneAspect(plane);
    var w, h := image.width as real, image.height as real;
    assert w == ta * h;
    if ta > pa {
      calc {
        ShownAspect(t, image);
        w / ((ta / pa) * h);
        (ta * h) / ((ta / pa) * h);
        ta / (ta / pa);
        pa;
      }
    } else {
      calc {
        ShownAspect(t, image);
        ((pa / ta) * w) / h;
        ((pa / ta) * (ta * h)) / h;
        pa;
      }
    }
  }

  /**
   * One plane material after a re-fit: always unlit; the transform is
   * replaced only when the material's texture is loaded.
   */
  function Refit(m: StandardMaterial, images: map<ImageHandle, Image>, mode: TextureMode, plane: Rectangle)
    : (r: StandardMaterial)
    requires ValidPlane(plane)
    ensures r.unlit && r.baseColorTexture == m.baseColorTexture
    ensures m.baseColorTexture.Some? && m.baseColorTexture.value in images ==>
      r.uvTransform == TextureFit(mode, plane, images[m.baseColorTexture.value])
    ensures !(m.baseColorTexture.Some? && m.baseColorTexture.value in images) ==>
      r.uvTransform == m.uvTransform
  {
    var m' := m.(unlit := true);
    match m.baseColorTexture
    case Some(handle) =>
      if handle in images then m'.(uvTransform := TextureFit(mode, plane, images[handle])) else m'
    case None => m'
  }

  /** Re-fitting twice is re-fitting once, so a material shared by planes ends the same. */
  lemma RefitIdempotent(m: StandardMaterial, images: map<ImageHandle, Image>, mode: TextureMode, plane: Rectangle)
    requires ValidPlane(plane)
    ensures Refit(Refit(m, images, mode, plane), images, mode, plane) == Refit(m, images, mode, plane)
  {
  }

  function MaterialsOf(planes: seq<TexturedPlane>): set<MaterialHandle>
  {
    set p | p in planes :: p.material
  }

  /** The planes with every mesh replaced by one of the given size. */
  function Remeshed(planes: seq<TexturedPlane>, size: Rectangle): (r: seq<TexturedPlane>)
    ensures |r| == |planes|
    ensures forall i :: 0 <= i < |r| ==> r[i] == planes[i].(mesh := size)
  {
    seq(|planes|, i requires 0 <= i < |planes| => planes[i].(mesh := size))
  }

  /** The material store after re-fitting the materials the planes refer to. */
  function Refitted(materials: map<MaterialHandle, StandardMaterial>, touched: set<MaterialHandle>,
                    images: map<ImageHandle, Image>, mode: TextureMode, plane: Rectangle)
    : (r: map<MaterialHandle, StandardMaterial>)
    requires ValidPlane(plane)
    ensures r.Keys == materials.Keys
    ensures forall h :: h in materials && h !in touched ==> r[h] == materials[h]
    ensures forall h :: h in materials && h in touched ==> r[h] == Refit(materials[h], images, mode, plane)
  {
    map h | h in materials :: if h in touched then Refit(materials[h], images, mode, plane) else materials[h]
  }

  /**
   * The asset stores and plane entities the texture system works on.
   * Handles below nextHandle are the ones allocated so far.
   */
  class TexturedScene {
    var planes: seq<TexturedPlane>
    var materials: map<MaterialHandle, StandardMaterial>
    var images: map<ImageHandle, Image>
    var nextHandle: MaterialHandle

    ghost predicate Valid()
      reads this
    {
      forall h :: h in materials ==> h < nextHandle
    }

    constructor Empty()
      ensures Valid()
      ensures planes == [] && materials == map[] && images == map[]
    {
      planes, materials, images, nextHandle := [], map[], map[], 0;
    }
  }

  /** Whether the texture system has anything to do this frame. */
  predicate RefitPending(aspectChanged: bool, gridZ: int, previousGridZ: int, modeChanged: bool)
  {
    aspectChanged || gridZ != previousGridZ || modeChanged
  }

  /**
   * The per-frame texture system. When the aspect mode, the texture mode or
   * the grid's Z extent changed, it syncs the mode shadows, gives every plane
   * a mesh of the selected size and re-fits every plane material it can
   * resolve; otherwise it changes nothing. The grid state is only read.
   */
  method UpdateTextureAspectRatio(aspect: AspectRatioState, mode: TextureModeState, grid: GridState,
                                  scene: TexturedScene)
    requires grid.sizeZ > 0
    modifies aspect, mode, scene
    ensures old(scene.Valid()) ==> scene.Valid()
    ensures !RefitPending(old(aspect.Changed()), grid.sizeZ, grid.previousSizeZ, old(mode.Changed())) ==>
      unchanged(aspect, mode, scene)
    ensures RefitPending(old(aspect.Changed()), grid.sizeZ, grid.previousSizeZ, old(mode.Changed())) ==>
      && aspect.current == old(aspect.current) && !aspect.Changed()
      && mode.current == old(mode.current) && !mode.Changed()
      && var size := PlaneSize(aspect.current, grid.sizeZ as real);
      && scene.planes == Remeshed(old(scene.planes), size)
      && scene.materials == Refitted(old(scene.materials), MaterialsOf(old(scene.planes)),
                                     scene.images, mode.current, size)
      && scene.images == old(scene.images)
      && scene.nextHandle == old(scene.nextHandle)
  {
    var aspectChanged := aspect.current != aspect.previous;
    var gridSizeChanged := grid.sizeZ != grid.previousSizeZ;
    var modeChanged := mode.current != mode.previous;
    if !(aspectChanged || gridSizeChanged || modeChanged) {
      return;
    }
    if aspectChanged {
      aspect.previous := aspect.current;
    }
    if modeChanged {
      mode.previous := mode.current;
    }
    var gridZ := grid.sizeZ as real;
    var size := PlaneSize(aspect.current, gridZ);
    RefitPlanes(scene, mode.current, size);
  }

  /**
   * The loop over the textured planes: each gets a mesh of the new size, and
   * each plane material that resolves is re-fitted.
   */
  method RefitPlanes(scene: TexturedScene, mode: TextureMode, size: Rectangle)
    requires ValidPlane(size)
    modifies scene
    ensures scene.planes == Remeshed(old(scene.planes), size)
    ensures scene.materials == Refitted(old(scene.materials), MaterialsOf(old(scene.planes)), scene.images, mode, size)
    ensures scene.images == old(scene.images) && scene.nextHandle == old(scene.nextHandle)
  {
    var planes, materials, images := scene.planes, scene.materials, scene.images;
    var i := 0;
    while i < |planes|
      modifies {}
      invariant 0 <= i <= |planes| == |old(scene.planes)|
      invariant forall k :: 0 <= k < i ==> planes[k] == old(scene.planes)[k].(mesh := size)
      invariant forall k :: i <= k < |planes| ==> planes[k] == old(scene.planes)[k]
      invariant materials == Refitted(old(scene.materials), MaterialsOf(old(scene.planes)[..i]), images, mode, size)
    {
      var plane := planes[i];
      planes := planes[i := plane.(mesh := size)];
      var handle := plane.material;
      if handle in materials {
        materials := materials[handle := Refit(materials[handle], images, mode, size)];
      }
      RefittedStep(old(scene.materials), old(scene.planes), i, images, mode, size);
      i := i + 1;
    }
    assert old(scene.planes)[..i] == old(scene.planes);
    scene.planes, scene.materials := planes, materials;
  }

  /** Re-fitting the materials of one more plane extends the re-fitted store by one entry. */
  lemma RefittedStep(materials0: map<MaterialHandle, StandardMaterial>, planes0: seq<TexturedPlane>, i: nat,
                     images: map<ImageHandle, Image>, mode: TextureMode, size: Rectangle)
    requires ValidPlane(size)
    requires i < |planes0|
    ensures var before := Refitted(materials0, MaterialsOf(planes0[..i]), images, mode, size);
      var after := Refitted(materials0, MaterialsOf(planes0[..i + 1]), images, mode, size);
      var h := planes0[i].material;
      after == if h in before then before[h := Refit(before[h], images, mode, size)] else before
  {
    var h := planes0[i].material;
    assert planes0[..i + 1] == planes0[..i] + [planes0[i]];
    assert MaterialsOf(planes0[..i + 1]) == MaterialsOf(planes0[..i]) + {h};
    var before := Refitted(materials0, MaterialsOf(planes0[..i]), images, mode, size);
    if h in before {
      RefitIdempotent(materials0[h], images, mode, size);
    }
  }
}
