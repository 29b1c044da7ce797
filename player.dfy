/** The player of `src/player.rs`: keys move a continuous position, the
    rendered capsule snaps to a grid of a third of a texel, and the pixel
    camera is re-centred on the player from the unsnapped position. */
module Player {

  import opened Geometry
  import opened Grid
  import opened Input
  import PixelCam

  /** The height at which the player is kept. */
  const PlayerHeight: real := 13.0

  /** The `Player` component: the continuous position on the ground plane
      (`x` along world x, `y` along world z). */
  class Player {
    var x: real
    var y: real

    /** The spawned player starts at the origin. */
    constructor ()
      ensures x == 0.0 && y == 0.0
    {
      x, y := 0.0, 0.0;
    }
  }

  /** The continuous position after one frame:
      `Vec3::new(p.x, 13., p.y) + dir.normalize_or_zero() * dt * 50.`,
      where W and S move along world z. */
  function NextPosition(x: real, y: real, keys: MoveKeys, dt: real, diagonal: real): (pos: Vec3)
    requires IsHalfRoot(diagonal)
    ensures pos.y == PlayerHeight
    ensures keys.a == keys.d ==> pos.x == x
    ensures keys.w == keys.s ==> pos.z == y
    ensures keys == NoKeys ==> pos == Vec3(x, PlayerHeight, y)
    ensures keys.w == keys.s ==> pos.x == x + KeyAxis(keys.a, keys.d) * (dt * 50.0)
    ensures keys.a == keys.d ==> pos.z == y + KeyAxis(keys.s, keys.w) * (dt * 50.0)
    ensures keys.a != keys.d && keys.w != keys.s ==>
      Vec2(pos.x - x, pos.z - y) == Scale2(Direction(keys), diagonal * (dt * 50.0))
    ensures !(keys.a == keys.d && keys.w == keys.s) ==>
      SquaredLength(Vec2(pos.x - x, pos.z - y)) == (dt * 50.0) * (dt * 50.0)
  {
    var step := MoveStep(keys, dt, diagonal);
    Add3(Vec3(x, PlayerHeight, y), Vec3(step.x, 0.0, step.y))
  }

  /** Where the capsule is drawn: the position measured along the camera's
      right and up axes (`(pos / right).x`, `(pos / up).z`), each snapped to
      a third of a texel, at the fixed height. */
  function RenderedAt(pos: Vec3, right: Vec3, up: Vec3, size: real): (t: Vec3)
    requires size > 0.0 && right.x != 0.0 && up.z != 0.0
    ensures t.y == PlayerHeight
    ensures IsMultiple(t.x, size / 3.0) && IsMultiple(t.z, size / 3.0)
    ensures -size / 6.0 <= t.x - pos.x / right.x <= size / 6.0
    ensures -size / 6.0 <= t.z - pos.z / up.z <= size / 6.0
  {
    Vec3(Snap(pos.x / right.x, size / 3.0), PlayerHeight, Snap(pos.z / up.z, size / 3.0))
  }

  /** The camera position written back: the position lowered by 5 along z,
      divided by the camera axes, the x part negated. It depends on the
      player alone, never on the camera's previous position. */
  function CameraTarget(pos: Vec3, right: Vec3, up: Vec3): (c: Vec2)
    requires right.x != 0.0 && up.z != 0.0
    ensures c.x * right.x == -pos.x
    ensures c.y * up.z == pos.z - 5.0
  {
    var lowered := Add3(pos, Vec3(0.0, 0.0, -5.0));
    Vec2(-lowered.x / right.x, lowered.z / up.z)
  }

  /** `player_movement`. `right` and `up` are the pixel camera's axes; the
      divisions by `right.x` and `up.z` are unchecked, so both must be
      non-zero once the window is sized. Before that (texel size 0) the
      system returns at once. */
  method PlayerMovement(window: PixelCam.WindowSize, player: Player, playerTransform: Transform,
                        cam: PixelCam.PixelCamera, right: Vec3, up: Vec3,
                        keys: MoveKeys, dt: real, diagonal: real)
    requires window.Valid() && IsHalfRoot(diagonal)
    requires window.texelSize != 0 ==> right.x != 0.0 && up.z != 0.0
    modifies player, playerTransform, cam
    ensures playerTransform.rotation == old(playerTransform.rotation)
    ensures window.texelSize == 0 ==>
      player.x == old(player.x) && player.y == old(player.y) &&
      playerTransform.translation == old(playerTransform.translation) &&
      cam.subpixelPosition == old(cam.subpixelPosition)
    ensures window.texelSize != 0 ==>
      var pos := NextPosition(old(player.x), old(player.y), keys, dt, diagonal);
      player.x == pos.x && player.y == pos.z &&
      playerTransform.translation == RenderedAt(pos, right, up, window.texelSize as real) &&
      cam.subpixelPosition == CameraTarget(pos, right, up)
  {
    var size := window.texelSize as real;
    if size == 0.0 {
      return;
    }
    var step := MoveStep(keys, dt, diagonal);
    var pos := Add3(Vec3(player.x, PlayerHeight, player.y), Vec3(step.x, 0.0, step.y));
    player.x := pos.x;
    player.y := pos.z;
    var norm := Vec2(Snap(pos.x / right.x, size / 3.0), Snap(pos.z / up.z, size / 3.0));
    pos := Add3(pos, Vec3(0.0, 0.0, -5.0));
    playerTransform.translation := Vec3(norm.x, PlayerHeight, norm.y);
    cam.subpixelPosition := Vec2(-pos.x / right.x, pos.z / up.z);
  }
}
