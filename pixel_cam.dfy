/** The earlier pixel camera rig of `src/pixel_cam.rs`: a 320x180 internal
    resolution, no zoom, a texel size taken from the window height alone,
    and camera placement with no guard for a texel size of zero. */
module PixelCam {

  import opened Geometry
  import opened Grid
  import opened Input

  /** In-game resolution. */
  const ResWidth: int := 320
  const ResHeight: int := 180

  /** `(RES_WIDTH as f32 * 0.8).round()` and the same for the height. */
  const RefWidth: int := Round(ResWidth as real * 0.8)
  const RefHeight: int := Round(ResHeight as real * 0.8)

  /** The camera is lifted by this much along the world's y axis. */
  const CameraLift := Vec3(0.0, 5.0, 0.0)

  /** The `WindowSize` resource; `texel_size` only ever holds a rounded,
      non-negative value, so it is an `int` here. */
  class WindowSize {
    var width: real
    var height: real
    var texelSize: int

    ghost predicate Valid()
      reads this
    {
      width >= 0.0 && height >= 0.0 && texelSize >= 0
    }

    /** The value the plugin inserts: nothing sized yet. */
    constructor ()
      ensures Valid()
      ensures width == 0.0 && height == 0.0 && texelSize == 0
    {
      width, height, texelSize := 0.0, 0.0, 0;
    }
  }

  /** The `PixelCamera` component. */
  class PixelCamera {
    var subpixelPosition: Vec2

    /** The spawned camera starts at (0, 5) in its own plane. */
    constructor ()
      ensures subpixelPosition == Vec2(0.0, 5.0)
    {
      subpixelPosition := Vec2(0.0, 5.0);
    }
  }

  datatype WindowResized = WindowResized(width: real, height: real)

  predicate ValidEvents(events: seq<WindowResized>)
  {
    forall i :: 0 <= i < |events| ==> events[i].width >= 0.0 && events[i].height >= 0.0
  }

  lemma RefSizes()
    ensures RefWidth == 256 && RefHeight == 144
  {
    RoundUnique(ResWidth as real * 0.8, 256);
    RoundUnique(ResHeight as real * 0.8, 144);
  }

  /** The texel size `round(h / 144)`: the window height alone decides it. */
  function TexelSize(h: real): (t: int)
    requires h >= 0.0
    ensures t >= 0
    ensures -0.5 <= t as real - h / RefHeight as real <= 0.5
  {
    Round(h / RefHeight as real)
  }

  /** A window shorter than 72 pixels gets texel size 0, whatever its
      width, even after it has been resized. */
  lemma ShortWindowHasNoTexel(h: real)
    requires 0.0 <= h < 72.0
    ensures TexelSize(h) == 0
  {
    RefSizes();
    assert h / 144.0 < 0.5;
  }

  /** The two disagree: a 640x720 window gets texel size 5 but is displayed
      at magnification 3. */
  lemma TallWindowDisagrees()
    ensures TexelSize(720.0) == 5
    ensures FitScale(640.0, 720.0, RefWidth as real, RefHeight as real) == 3
  {
    RefSizes();
    RoundUnique(5.0, 5);
    RoundUnique(2.5, 3);
  }

  /** The displayed magnification never exceeds the texel size, and the two
      agree whenever the window is at least 16:9 wide. */
  lemma ProjectionAtMostTexel(w: real, h: real)
    requires w >= 0.0 && h >= 0.0
    ensures FitScale(w, h, RefWidth as real, RefHeight as real) <= TexelSize(h)
    ensures w / RefWidth as real >= h / RefHeight as real ==> FitScale(w, h, RefWidth as real, RefHeight as real) == TexelSize(h)
  {
    RoundMonotone(Min(w / RefWidth as real, h / RefHeight as real), h / RefHeight as real);
  }

  /** `fit_canvas`: the last resize event decides the window size, the
      texel size and the outer projection; with no events nothing changes. */
  method FitCanvas(window: WindowSize, outer: Projection, events: seq<WindowResized>)
    requires window.Valid() && ValidEvents(events)
    modifies window, outer
    ensures window.Valid()
    ensures events == [] ==>
      window.width == old(window.width) && window.height == old(window.height) &&
      window.texelSize == old(window.texelSize) && outer.scale == old(outer.scale)
    ensures events != [] ==>
      var last := events[|events| - 1];
      window.width == last.width && window.height == last.height &&
      window.texelSize == TexelSize(last.height) &&
      outer.scale == Reciprocal(FitScale(last.width, last.height, RefWidth as real, RefHeight as real))
  {
    var i := 0;
    while i < |events|
      invariant 0 <= i <= |events|
      invariant window.Valid()
      invariant i == 0 ==>
        window.width == old(window.width) && window.height == old(window.height) &&
        window.texelSize == old(window.texelSize) && outer.scale == old(outer.scale)
      invariant i > 0 ==>
        window.width == events[i - 1].width && window.height == events[i - 1].height &&
        window.texelSize == TexelSize(events[i - 1].height) &&
        outer.scale ==
          Reciprocal(FitScale(events[i - 1].width, events[i - 1].height, RefWidth as real, RefHeight as real))
    {
      var event := events[i];
      var hScale := event.width / RefWidth as real;
      var vScale := event.height / RefHeight as real;
      outer.scale := Reciprocal(Round(Min(hScale, vScale)));
      window.width := event.width;
      window.height := event.height;
      window.texelSize := Round(vScale);
      i := i + 1;
    }
  }

  /** Where the canvas quad goes: the snapping error, unscaled. */
  function CanvasShift(pos: Vec2, norm: Vec2): (shift: Vec3)
    ensures pos.x + shift.x == norm.x && pos.y + shift.y == norm.y
    ensures shift.z == 0.0
    ensures shift == Zero3 <==> pos == norm
  {
    Vec3(norm.x - pos.x, norm.y - pos.y, 0.0)
  }

  /** The compensation law without zoom: the unsnapped position moved by the
      canvas shift is the snapped one, and the shift is at most half a
      texel on each axis. */
  lemma CanvasCompensates(pos: Vec2, texel: int)
    requires texel > 0
    ensures var norm := SnapPosition(pos, texel as real);
            var shift := CanvasShift(pos, norm);
            pos.x + shift.x == norm.x && pos.y + shift.y == norm.y && shift.z == 0.0 &&
            -texel as real / 2.0 <= shift.x <= texel as real / 2.0 &&
            -texel as real / 2.0 <= shift.y <= texel as real / 2.0
  {
  }

  /** Placement is idempotent: a position on the grid is rendered where it
      is and the canvas does not move. */
  lemma PlacementOnGrid(pos: Vec2, texel: int)
    requires texel > 0
    requires IsMultiple(pos.x, texel as real) && IsMultiple(pos.y, texel as real)
    ensures SnapPosition(pos, texel as real) == pos
    ensures CanvasShift(pos, SnapPosition(pos, texel as real)) == Zero3
  {
    SnapPositionOnGrid(pos, texel as real);
  }

  /** `place_camera`. It divides by the texel size without checking it, so
      it is only defined once the window has been sized. The camera goes to
      the snapped point lifted by 5 along y, the canvas by the snapping
      error; no rotation changes. */
  method PlaceCamera(window: WindowSize, cam: PixelCamera, camTransform: Transform,
                     canvasTransform: Transform, right: Vec3, up: Vec3)
    requires window.texelSize > 0
    requires camTransform != canvasTransform
    modifies camTransform, canvasTransform
    ensures camTransform.rotation == old(camTransform.rotation)
    ensures canvasTransform.rotation == old(canvasTransform.rotation)
    ensures var pos := cam.subpixelPosition;
            var norm := SnapPosition(pos, window.texelSize as real);
            camTransform.translation == Add3(InPlane(right, up, norm), CameraLift) &&
            canvasTransform.translation == CanvasShift(pos, norm)
  {
    var pos := cam.subpixelPosition;
    var size := window.texelSize as real;
    var norm := SnapPosition(pos, size);
    var translate := Add3(InPlane(right, up, norm), Scale3(Vec3(0.0, 1.0, 0.0), 5.0));
    camTransform.translation := translate;
    canvasTransform.translation := Vec3(norm.x - pos.x, norm.y - pos.y, 0.0);
  }

  /** `camera_movement` (defined but not scheduled by the plugin). */
  method CameraMovement(cam: PixelCamera, keys: MoveKeys, dt: real, diagonal: real)
    requires IsHalfRoot(diagonal)
    modifies cam
    ensures cam.subpixelPosition == Add2(old(cam.subpixelPosition), MoveStep(keys, dt, diagonal))
  {
    var dir := Direction(keys);
    cam.subpixelPosition := Add2(cam.subpixelPosition, Scale2(NormalizeOrZero(dir, diagonal), dt * 50.0));
  }
}
