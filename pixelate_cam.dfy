/** The zoomable pixel camera rig of `src/pixelate/pixel_cam.rs`: a 640x360
    internal resolution, a zoom level in [1, 10], a camera that follows a
    target, and placement that snaps the rendered camera to whole texels
    while the canvas quad carries the discarded remainder. */
module PixelateCam {

  import opened Geometry
  import opened Grid
  import opened Input

  /** In-game resolution. */
  const ResWidth: int := 640
  const ResHeight: int := 360

  /** `(RES_WIDTH as f32 * 0.8).round()` and the same for the height: the
      window size, per axis, that one texel of magnification needs. */
  const RefWidth: int := Round(ResWidth as real * 0.8)
  const RefHeight: int := Round(ResHeight as real * 0.8)

  const MinZoom: real := 1.0
  const MaxZoom: real := 10.0

  /** The `WindowSize` resource. `texel_size` is an `f32` in the program but
      only ever holds a rounded, non-negative value, so it is an `int` here. */
  class WindowSize {
    var width: real
    var height: real
    var texelSize: int
    var zoom: real

    ghost predicate Valid()
      reads this
    {
      width >= 0.0 && height >= 0.0 && texelSize >= 0 && MinZoom <= zoom <= MaxZoom
    }

    /** The value the plugin inserts: nothing sized yet, zoom 5. */
    constructor ()
      ensures Valid()
      ensures width == 0.0 && height == 0.0 && texelSize == 0 && zoom == 5.0
    {
      width, height, texelSize, zoom := 0.0, 0.0, 0, 5.0;
    }
  }

  /** The `PixelCamera` component: the continuous, unsnapped camera position
      in the camera's own right/up plane. */
  class PixelCamera {
    var subpixelPosition: Vec2

    constructor ()
      ensures subpixelPosition == Zero2
    {
      subpixelPosition := Zero2;
    }
  }

  /** A `WindowResized` event. Window dimensions are never negative. */
  datatype WindowResized = WindowResized(width: real, height: real)

  predicate ValidEvents(events: seq<WindowResized>)
  {
    forall i :: 0 <= i < |events| ==> events[i].width >= 0.0 && events[i].height >= 0.0
  }

  lemma RefSizes()
    ensures RefWidth == 512 && RefHeight == 288
  {
    RoundUnique(ResWidth as real * 0.8, 512);
    RoundUnique(ResHeight as real * 0.8, 288);
  }

  /** A 1280x720 window gives ratio 2.5 on both axes, which rounds away from
      zero to 3 (not to 2). */
  lemma FitScaleHalfway()
    ensures FitScale(1280.0, 720.0, RefWidth as real, RefHeight as real) == 3
  {
    RefSizes();
    RoundUnique(2.5, 3);
  }

  /** Nothing clamps the magnification to at least 1: a window narrower than
      256 pixels gets texel size 0 and an infinite outer projection scale. */
  lemma NarrowWindowHasNoScale(w: real, h: real)
    requires 0.0 <= w < 256.0 && h >= 0.0
    ensures FitScale(w, h, RefWidth as real, RefHeight as real) == 0
    ensures Reciprocal(FitScale(w, h, RefWidth as real, RefHeight as real)).Infinite?
  {
    RefSizes();
    assert w / 512.0 < 0.5;
  }

  /** A larger window never gets a smaller magnification. */
  lemma FitScaleMonotone(w1: real, h1: real, w2: real, h2: real)
    requires 0.0 <= w1 <= w2 && 0.0 <= h1 <= h2
    ensures FitScale(w1, h1, RefWidth as real, RefHeight as real)
         <= FitScale(w2, h2, RefWidth as real, RefHeight as real)
  {
    RefSizes();
    assert w1 / 512.0 <= w2 / 512.0;
    assert h1 / 288.0 <= h2 / 288.0;
    RoundMonotone(Min(w1 / 512.0, h1 / 288.0), Min(w2 / 512.0, h2 / 288.0));
  }

  /** `fit_canvas`: every resize event overwrites the window size, the texel
      size and the outer camera's projection, so the last event wins; with
      no events nothing changes. */
  method FitCanvas(window: WindowSize, outer: Projection, events: seq<WindowResized>)
    requires window.Valid() && ValidEvents(events)
    modifies window, outer
    ensures window.Valid() && window.zoom == old(window.zoom)
    ensures events == [] ==>
      window.width == old(window.width) && window.height == old(window.height) &&
      window.texelSize == old(window.texelSize) && outer.scale == old(outer.scale)
    ensures events != [] ==>
      var last := events[|events| - 1];
      window.width == last.width && window.height == last.height &&
      window.texelSize == FitScale(last.width, last.height, RefWidth as real, RefHeight as real) &&
      outer.scale == Reciprocal(window.texelSize)
  {
    var i := 0;
    while i < |events|
      invariant 0 <= i <= |events|
      invariant window.Valid() && window.zoom == old(window.zoom)
      invariant i == 0 ==>
        window.width == old(window.width) && window.height == old(window.height) &&
        window.texelSize == old(window.texelSize) && outer.scale == old(outer.scale)
      invariant i > 0 ==>
        window.width == events[i - 1].width && window.height == events[i - 1].height &&
        window.texelSize ==
          FitScale(events[i - 1].width, events[i - 1].height, RefWidth as real, RefHeight as real) &&
        outer.scale == Reciprocal(window.texelSize)
    {
      var event := events[i];
      var hScale := event.width / RefWidth as real;
      var vScale := event.height / RefHeight as real;
      outer.scale := Reciprocal(Round(Min(hScale, vScale)));
      window.width := event.width;
      window.height := event.height;
      window.texelSize := Round(Min(hScale, vScale));
      i := i + 1;
    }
  }

  /** `camera_follow`'s step for a target seen at `target` in the viewport:
      the target's offset from the viewport centre, as a fraction of the
      resolution, times 10. Viewport y grows downwards, so it is negated. */
  function FollowStep(target: Vec2): (d: Vec2)
    ensures d == Zero2 <==> target == Vec2(ResWidth as real / 2.0, ResHeight as real / 2.0)
    ensures d.x > 0.0 <==> target.x > ResWidth as real / 2.0
    ensures d.y > 0.0 <==> target.y < ResHeight as real / 2.0
  {
    Scale2(Vec2((target.x - ResWidth as real / 2.0) / ResWidth as real,
                -(target.y - ResHeight as real / 2.0) / ResHeight as real), 10.0)
  }

  /** `camera_follow`. `viewport` is the engine's projection of the follow
      target into the viewport, `None` when that projection fails. */
  method CameraFollow(window: WindowSize, cam: PixelCamera, viewport: Option<Vec2>)
    modifies cam
    ensures cam.subpixelPosition ==
      if viewport.Some? && window.texelSize != 0
      then Add2(old(cam.subpixelPosition), FollowStep(viewport.value))
      else old(cam.subpixelPosition)
  {
    if viewport.None? {
      return;
    }
    if window.texelSize != 0 {
      cam.subpixelPosition := Add2(cam.subpixelPosition, FollowStep(viewport.value));
    }
  }

  /** The zoom after one frame of `camera_movement`, `dt` seconds long:
      Q zooms out, E zooms in, both or neither leave it alone. */
  function NextZoom(zoom: real, q: bool, e: bool, dt: real): (z: real)
    requires MinZoom <= zoom <= MaxZoom && dt >= 0.0
    ensures MinZoom <= z <= MaxZoom
    ensures q == e ==> z == zoom
    ensures e && !q ==> z >= zoom
    ensures q && !e ==> z <= zoom
    ensures e && !q ==> z == Min(zoom + dt * 10.0, MaxZoom)
    ensures q && !e ==> z == (if zoom - dt * 10.0 < MinZoom then MinZoom else zoom - dt * 10.0)
  {
    var d := KeyAxis(q, e);
    if d != 0.0 then Clamp(zoom + d * dt * 10.0, MinZoom, MaxZoom) else zoom
  }

  /** The zoom part of `camera_movement`; the projection of the pixel camera
      is replaced only when a zoom key is held. */
  method CameraMovement(window: WindowSize, projection: Projection, q: bool, e: bool, dt: real)
    requires window.Valid() && dt >= 0.0
    modifies window, projection
    ensures window.Valid()
    ensures window.zoom == NextZoom(old(window.zoom), q, e, dt)
    ensures window.width == old(window.width) && window.height == old(window.height)
    ensures window.texelSize == old(window.texelSize)
    ensures projection.scale ==
      if q == e then old(projection.scale) else Finite(1.0 / window.zoom)
  {
    var zoom := KeyAxis(q, e);
    if zoom != 0.0 {
      window.zoom := window.zoom + zoom * dt * 10.0;
      window.zoom := Clamp(window.zoom, MinZoom, MaxZoom);
      projection.scale := Finite(1.0 / window.zoom);
    }
  }

  /** The snapping step `texel_size / zoom`, in world units: zero exactly
      while the texel size is. */
  function TexelStep(texel: int, zoom: real): (size: real)
    requires texel >= 0 && zoom >= MinZoom
    ensures size >= 0.0
    ensures size == 0.0 <==> texel == 0
    ensures size * zoom == texel as real
  {
    texel as real / zoom
  }

  /** Where the canvas quad goes: the snapping error `norm - pos`, scaled by
      the zoom into screen units. */
  function CanvasOffset(pos: Vec2, norm: Vec2, zoom: real): (off: Vec3)
    requires zoom > 0.0
    ensures pos.x + off.x / zoom == norm.x && pos.y + off.y / zoom == norm.y
    ensures off.z == 0.0
    ensures off == Zero3 <==> pos == norm
  {
    Vec3((norm.x - pos.x) * zoom, (norm.y - pos.y) * zoom, 0.0)
  }

  /** An error of at most half a step, times the zoom, is at most half a
      texel, and dividing by the zoom gives the error back. */
  lemma ZoomedError(err: real, size: real, zoom: real, texel: real, off: real)
    requires size > 0.0 && zoom > 0.0 && size * zoom == texel
    requires -size / 2.0 <= err <= size / 2.0
    requires off == err * zoom
    ensures -texel / 2.0 <= off <= texel / 2.0
    ensures off / zoom == err
  {
    ScaleMonotone(err, size / 2.0, zoom);
    ScaleMonotone(-size / 2.0, err, zoom);
  }

  /** The compensation law: the canvas offset, read back in world units,
      takes the unsnapped position exactly to the snapped one, and the
      canvas never moves by more than half a texel. */
  lemma CanvasCompensates(pos: Vec2, texel: int, zoom: real)
    requires texel > 0 && zoom >= MinZoom
    ensures var norm := SnapPosition(pos, TexelStep(texel, zoom));
            var off := CanvasOffset(pos, norm, zoom);
            pos.x + off.x / zoom == norm.x && pos.y + off.y / zoom == norm.y && off.z == 0.0 &&
            -texel as real / 2.0 <= off.x <= texel as real / 2.0 &&
            -texel as real / 2.0 <= off.y <= texel as real / 2.0
  {
    var size := TexelStep(texel, zoom);
    var norm := SnapPosition(pos, size);
    var off := CanvasOffset(pos, norm, zoom);
    ZoomedError(norm.x - pos.x, size, zoom, texel as real, off.x);
    ZoomedError(norm.y - pos.y, size, zoom, texel as real, off.y);
  }

  /** Placement is idempotent: a position already on the grid is rendered
      where it is and the canvas is not moved. */
  lemma PlacementOnGrid(pos: Vec2, texel: int, zoom: real)
    requires texel > 0 && zoom >= MinZoom
    requires IsMultiple(pos.x, TexelStep(texel, zoom)) && IsMultiple(pos.y, TexelStep(texel, zoom))
    ensures SnapPosition(pos, TexelStep(texel, zoom)) == pos
    ensures CanvasOffset(pos, SnapPosition(pos, TexelStep(texel, zoom)), zoom) == Zero3
  {
    SnapPositionOnGrid(pos, TexelStep(texel, zoom));
  }

  /** `place_camera`. `right` and `up` are the pixel camera's own axes (the
      engine derives them from its rotation). With a texel size of 0 the
      window has not been sized yet and nothing is written. Otherwise the
      rendered camera goes to the snapped point, the `CameraPosition` entity to the
      unsnapped one, and the canvas by the snapping error times the zoom;
      no rotation changes. */
  method PlaceCamera(window: WindowSize, cam: PixelCamera, camTransform: Transform,
                     canvasTransform: Transform, positionTransform: Transform,
                     right: Vec3, up: Vec3)
    requires window.Valid()
    requires camTransform != canvasTransform && camTransform != positionTransform
    requires canvasTransform != positionTransform
    modifies camTransform, canvasTransform, positionTransform
    ensures camTransform.rotation == old(camTransform.rotation)
    ensures canvasTransform.rotation == old(canvasTransform.rotation)
    ensures positionTransform.rotation == old(positionTransform.rotation)
    ensures window.texelSize == 0 ==>
      camTransform.translation == old(camTransform.translation) &&
      canvasTransform.translation == old(canvasTransform.translation) &&
      positionTransform.translation == old(positionTransform.translation)
    ensures window.texelSize != 0 ==>
      var pos := cam.subpixelPosition;
      var size := TexelStep(window.texelSize, window.zoom);
      camTransform.translation == InPlane(right, up, SnapPosition(pos, size)) &&
      positionTransform.translation == InPlane(right, up, pos) &&
      canvasTransform.translation == CanvasOffset(pos, SnapPosition(pos, size), window.zoom)
  {
    var pos := cam.subpixelPosition;
    var size := TexelStep(window.texelSize, window.zoom);
    if size == 0.0 {
      return;
    }
    var norm := SnapPosition(pos, size);
    var translate := InPlane(right, up, norm);
    camTransform.translation := translate;
    positionTransform.translation := InPlane(right, up, pos);
    canvasTransform.translation := CanvasOffset(pos, norm, window.zoom);
  }
}
