# Pixel-perfect camera rig: a verified model

This project models the grid-snapping core of `bevy_pixelated_3d`. That
renderer draws a 3D scene into a small offscreen canvas (640x360, or 320x180
in the earlier rig) and shows the canvas in the window at a whole-number
magnification. The camera keeps a continuous "subpixel" position. Each frame
the rendered camera is snapped to a whole texel along its right and up axes.
The canvas quad is then shifted by the remainder that the snap threw away, so
motion looks smooth while the rendered pixels stay on a fixed grid.

Modules, one per source file or shared concept:

- `Geometry`: vectors, transforms and orthographic projection scales. A
  reciprocal of zero is kept as an infinite scale, as in `f32`.
- `Grid`: `f32::round` (halfway cases round away from zero) and snapping to a
  multiple of a step. It proves the snapped value is a multiple of the step,
  is a nearest one, lies within half a step, and that snapping is idempotent.
- `Input`: held keys turned into an axis value and a movement step.
- `PixelateCam` (`src/pixelate/pixel_cam.rs`): the zoomable rig. Covers
  window fitting, camera follow, zoom, and camera placement with its zero
  guard and its zoom-scaled canvas offset.
- `PixelCam` (`src/pixel_cam.rs`): the earlier rig. Its texel size comes from
  the window height alone. Its placement has no zero guard and an unscaled
  canvas offset.
- `Settings`: the debug-view cycle of `update_settings`. The same code
  appears in `src/main.rs` and `src/pixelate/pixel_cam.rs`.
- `Rotation` (`src/main.rs`): the quarter-turn demo, with `rotate_rotatable`
  and `rotate`.
- `Player` (`src/player.rs`): player movement, snapping at a third of a
  texel, and the camera position written back from the player.

Numbers are reals, not `f32`. A texel size is an integer, because the
program only ever stores a rounded, non-negative value in it. Angles are
measured in quarter turns. Each class method is specified by the new state
it produces, written with the pure functions above. The lemmas state what
those functions guarantee.

Three consequences of the code are worth knowing:

- Nothing clamps the scale to at least 1. A window narrower than 256 px gets
  texel size 0 and an infinite outer projection scale
  (`PixelateCam.NarrowWindowHasNoScale`).
- 1280x720 gives magnification 3, because `f32::round` rounds 2.5 away from
  zero (`PixelateCam.FitScaleHalfway`).
- Of the two `place_camera` systems, only the zoomable one checks for texel
  size 0. The earlier one divides unchecked, so its model requires a sized
  window. `player_movement` checks too.

## Model

| member | source | states |
|---|---|---|
| `Grid.Round` | src/pixelate/pixel_cam.rs:278 | `f32::round`: result within 1/2 of the input; an exact half goes away from zero |
| `Grid.Snap` | src/pixelate/pixel_cam.rs:277-280 | `(p / size).round() * size` is a multiple of `size` within `size/2` of `p`; halfway ties go away from zero |
| `Grid.SnapIsNearest` | src/pixelate/pixel_cam.rs:277-280 | no multiple of the step is closer to `p` than the snapped value |
| `Grid.SnapIdempotent` | src/pixelate/pixel_cam.rs:277-280 | snapping a snapped value changes nothing |
| `Grid.SnapOnGrid` | src/pixel_cam.rs:193-196 | a value already on the grid is its own snap |
| `Grid.SnapPosition` | src/pixelate/pixel_cam.rs:277-280 | both coordinates of `norm` are multiples of the step and within half a step of `pos` |
| `Grid.SnapPositionOnGrid` | src/pixel_cam.rs:193-196 | a position on the grid snaps to itself |
| `Grid.FitScale` | src/pixelate/pixel_cam.rs:248-255 | the magnification (`fit_canvas` in both rigs, with 512x288 or 256x144) is a non-negative whole number within 1/2 of `min(w/refW, h/refH)` |
| `Grid.Clamp` | src/pixelate/pixel_cam.rs:126 | `f32::clamp`: result in `[lo, hi]`, equal to `x` inside the range and to the nearer bound outside it |
| `Geometry.InPlane` | src/pixelate/pixel_cam.rs:281-284 | `right * p.x + up * p.y`: the origin maps to the origin, movement along the first plane axis goes along `right`, along the second along `up` |
| `Geometry.Reciprocal` | src/pixelate/pixel_cam.rs:250 | `1. / n` is infinite exactly when `n == 0`, and otherwise a positive `s` with `s * n == 1` |
| `Input.KeyAxis` | src/pixel_cam.rs:65-70 | a key pair gives -1, 0 or 1; it is 0 exactly when both or neither key is held, and its sign is that of the key held alone |
| `Input.Direction` | src/player.rs:37-49 | the key direction (A/D on one axis, S/W on the other, as in src/pixel_cam.rs:64-76) has components in {-1, 0, 1}, and is zero exactly when both key pairs cancel or are absent |
| `Input.NormalizeOrZero` | src/pixel_cam.rs:78 | `normalize_or_zero` of a key direction: zero stays zero, any other has length one, an axis direction is unchanged, a diagonal is scaled by 1/sqrt(2) |
| `Input.MoveStep` | src/pixel_cam.rs:78 | opposing or absent keys give no movement on that axis; a single-axis step is `±dt * 50`; a diagonal step is the key direction times `dt * 50 / sqrt(2)`; any non-cancelling combination moves exactly `dt * 50` |
| `PixelateCam.WindowSize.constructor` | src/pixelate/pixel_cam.rs:56-61 | the resource starts unsized (width, height, texel size 0) with zoom 5 and satisfies its invariant (zoom in [1, 10]) |
| `PixelateCam.RefSizes` | src/pixelate/pixel_cam.rs:248-249 | `(640 * 0.8).round()` is 512 and `(360 * 0.8).round()` is 288 |
| `PixelateCam.PixelCamera.constructor` | src/pixelate/pixel_cam.rs:199 | the zoomable camera starts at subpixel position (0, 0) |
| `PixelateCam.FitScaleHalfway` | src/pixelate/pixel_cam.rs:247-255 | a 1280x720 window gets texel size 3, because 2.5 rounds away from zero |
| `PixelateCam.NarrowWindowHasNoScale` | src/pixelate/pixel_cam.rs:250-255 | a window narrower than 256 px gets texel size 0 and an infinite projection scale: nothing clamps to 1 |
| `PixelateCam.FitScaleMonotone` | src/pixelate/pixel_cam.rs:248-255 | a window at least as large on both axes never gets a smaller texel size |
| `PixelateCam.FitCanvas` | src/pixelate/pixel_cam.rs:242-257 | the last resize event sets width, height, texel size and the outer projection scale `1/texel`; with no events nothing changes; zoom is untouched |
| `PixelateCam.FollowStep` | src/pixelate/pixel_cam.rs:93 | the follow step is zero exactly when the target is at the viewport centre (320, 180); it moves right for a target right of centre and up for a target above centre |
| `PixelateCam.CameraFollow` | src/pixelate/pixel_cam.rs:83-95 | the subpixel position gains the follow step only when the viewport projection succeeds and the texel size is non-zero; otherwise it is unchanged |
| `PixelateCam.NextZoom` | src/pixelate/pixel_cam.rs:117-127 | zoom stays in [1, 10]; Q and E together or neither leave it unchanged; E alone gives `min(zoom + dt*10, 10)`, Q alone `max(zoom - dt*10, 1)` |
| `PixelateCam.CameraMovement` | src/pixelate/pixel_cam.rs:97-134 | the zoom becomes `NextZoom` of the old zoom; the projection scale becomes `1/zoom` only when a single zoom key is held; size fields unchanged |
| `PixelateCam.TexelStep` | src/pixelate/pixel_cam.rs:269-272 | the step `texel_size / zoom` is zero exactly when the texel size is, and otherwise positive |
| `PixelateCam.CanvasOffset` | src/pixelate/pixel_cam.rs:285 | the canvas offset divided by the zoom takes the unsnapped position to the snapped one; z is 0; it is zero exactly when nothing was snapped away |
| `PixelateCam.CanvasCompensates` | src/pixelate/pixel_cam.rs:285 | `pos + offset / zoom == norm` on both axes, the offset has z = 0, and each component is at most `texel_size / 2` in magnitude |
| `PixelateCam.PlacementOnGrid` | src/pixelate/pixel_cam.rs:277-285 | for a position on the grid, `norm == pos` and the canvas offset is zero |
| `PixelateCam.PlaceCamera` | src/pixelate/pixel_cam.rs:262-286 | texel size 0 writes nothing. Otherwise the camera goes to `right*norm.x + up*norm.y`, `CameraPosition` to the unsnapped point, and the canvas to the zoomed error; rotations are kept |
| `PixelCam.WindowSize.constructor` | src/pixel_cam.rs:47-51 | the resource starts unsized: width, height and texel size 0 |
| `PixelCam.RefSizes` | src/pixel_cam.rs:169-170 | `(320 * 0.8).round()` is 256 and `(180 * 0.8).round()` is 144 |
| `PixelCam.TexelSize` | src/pixel_cam.rs:176 | the texel size depends on the height alone: a non-negative whole number within 1/2 of `h/144` |
| `PixelCam.PixelCamera.constructor` | src/pixel_cam.rs:131 | the earlier camera starts at subpixel position (0, 5) |
| `PixelCam.ShortWindowHasNoTexel` | src/pixel_cam.rs:176 | a window shorter than 72 px gets texel size 0 whatever its width, so a resize can bring back texel size 0 |
| `PixelCam.TallWindowDisagrees` | src/pixel_cam.rs:169-176 | a 640x720 window gets texel size 5 but magnification 3 |
| `PixelCam.ProjectionAtMostTexel` | src/pixel_cam.rs:169-176 | the magnification never exceeds the texel size, and they are equal when `w/256 >= h/144` |
| `PixelCam.FitCanvas` | src/pixel_cam.rs:163-178 | the last resize event sets width, height, the texel size from the height, and the projection from the minimum; with no events nothing changes |
| `PixelCam.CanvasShift` | src/pixel_cam.rs:200 | the canvas shift takes the unsnapped position to the snapped one; z is 0; it is zero exactly when nothing was snapped away |
| `PixelCam.CanvasCompensates` | src/pixel_cam.rs:200 | `pos + shift == norm` on both axes, z is 0, and each component is at most half a texel |
| `PixelCam.PlacementOnGrid` | src/pixel_cam.rs:193-200 | a position on the grid snaps to itself and the canvas shift is zero |
| `PixelCam.PlaceCamera` | src/pixel_cam.rs:180-201 | with a sized window the camera goes to the snapped point plus (0, 5, 0) and the canvas to the unscaled error; rotations are kept |
| `PixelCam.CameraMovement` | src/pixel_cam.rs:58-79 | the subpixel position moves by exactly `MoveStep`: nothing without keys, opposing keys cancel per axis |
| `Settings.ShowSettings.constructor` | src/main.rs:20 | the view mode starts at 0 |
| `Settings.Advance` | src/main.rs:167 | one press gives Rust's `(value + 1) % 3`: always in (-3, 3), and from {0, 1, 2} the next mode of the cycle 0, 1, 2, 0 |
| `Settings.RustRem3` | src/main.rs:167 | Rust's `% 3`: the remainder lies in (-3, 3), has the dividend's sign and differs from it by a multiple of 3 |
| `Settings.Flags` | src/main.rs:168-169 | `show_depth` is 1 exactly in mode 1, `show_normals` exactly in mode 2; never both |
| `Settings.CycleInRange` | src/main.rs:165-170 | from a mode in {0,1,2}, n steps stay in {0,1,2} and equal `(mode + n) % 3` |
| `Settings.ThreePressesReturn` | src/main.rs:167 | with one settings record, three presses restore the mode |
| `Settings.CycleFromStart` | src/main.rs:165-170 | from 0, presses give flags (1,0), then (0,1), then (0,0) |
| `Settings.UpdateSettings` | src/main.rs:160-172 | without a press nothing changes; with a press the mode advances once per record and each record gets the flags of the mode reached at its turn |
| `Rotation.Entity.constructor` | src/main.rs:59-66 | the ground entity starts with `Rotatable` index 0, no `Rotate`, and yaw 0 |
| `Rotation.NextIndex` | src/main.rs:147 | `(y + 1.) % 4.` lies in [0, 4) for an index not below -1 and differs from `y + 1` by a multiple of 4 |
| `Rotation.FMod4` | src/main.rs:147 | `f32 % 4.`: the remainder is in [0, 4) for a non-negative dividend and in (-4, 0] otherwise, and differs from the dividend by a multiple of 4 |
| `Rotation.NextIndexCycles` | src/main.rs:147 | a whole index y in 0..3 becomes `(y + 1) % 4` |
| `Rotation.FourTurnsReturn` | src/main.rs:147-148 | four finished turns return the index to where it started |
| `Rotation.Quantise` | src/main.rs:143 | the progress is a whole number of 1/36 steps, lies in [0, 1], and is within 1/72 of the timer fraction |
| `Rotation.RotatingInSteps` | src/main.rs:143-144 | while the timer runs, yaw is the index plus whole 1/36 steps, between index and index + 1, and within 1/72 of index + timer fraction; components unchanged |
| `Rotation.FinishedTurn` | src/main.rs:145-153 | on finish the index becomes `(y+1)%4`, the yaw lands exactly on it, and the `Rotate` is removed exactly when its timer is `Once` |
| `Rotation.FinishedWithoutRotatable` | src/main.rs:138-150 | an entity without `Rotatable` turns about index 0 and ends at yaw 0 |
| `Rotation.RotateStep` | src/main.rs:137-155 | one entity's frame: a running timer sets the yaw to the index plus `Quantise(fraction)` and changes nothing else; a finished one removes the `Rotate` exactly when it is `Once` and puts the yaw on the new index (0 without `Rotatable`) |
| `Rotation.RotateSystem` | src/main.rs:131-156 | every entity with a `Rotate` takes one `RotateStep` with its own timer reading; the others are unchanged |
| `Rotation.InsertRotate` | src/main.rs:44-49 | an R press gives a `Rotatable` entity without a `Rotate` a one-second `Once` timer; an entity already turning keeps its timer; index and yaw never change |
| `Rotation.RotateRotatable` | src/main.rs:39-51 | every entity becomes `InsertRotate` of its old state |
| `Player.Player.constructor` | src/main.rs:98-101 | the player starts at (0, 0) |
| `Player.NextPosition` | src/player.rs:37-51 | height 13; an axis whose keys cancel or are absent does not move, a single-axis press moves `±dt*50` along it, a diagonal press moves `dt*50/sqrt(2)` on each axis, and any non-cancelling press moves exactly `dt*50` |
| `Player.RenderedAt` | src/player.rs:54-59 | the drawn x and z are multiples of `size/3`, within `size/6` of `pos.x/right.x` and `pos.z/up.z`; the height is 13 |
| `Player.CameraTarget` | src/player.rs:58-60 | the written-back camera position satisfies `c.x * right.x == -pos.x` and `c.y * up.z == pos.z - 5`; it depends only on the player |
| `Player.PlayerMovement` | src/player.rs:20-61 | texel size 0 changes nothing. Otherwise the player stores the unsnapped `pos.x`/`pos.z`, is drawn at `RenderedAt`, and the camera position is overwritten with `CameraTarget` |

## Left out

- `src/postprocessing.rs` is not part of this model. It holds the render-graph node, bind-group layout, sampler and pipeline, which all go through GPU APIs. Its logic is two early returns when the pipeline or uniform buffer is not ready, and an `.expect` (line 157) that panics when the camera lacks a normal prepass.
- `setup_camera` and `setup_mesh` spawn entities, textures, lights and materials. Only the initial values that later systems read are modelled, as constructors.
- Plugin registration, system scheduling and the WGSL shader are not modelled. Neither `src/pixel_cam.rs` nor `src/pixelate/pixel_cam.rs` (lines 63-65) schedules its `camera_movement`. So `PixelCam.CameraMovement`, `PixelateCam.CameraMovement` and `PixelateCam.NextZoom` model systems that never run, and in the running program the zoom stays 5.
- Engine services become inputs. These are the camera's right and up vectors, the `world_to_viewport` result (an `Option`), the timer's `fraction()` and `finished()` after `tick`, held keys (booleans) and the frame time `dt`.
- Quaternions are not computed. Yaw is kept in quarter turns, and a camera's rotation is only shown to be left unchanged.
- `Input.NormalizeOrZero`: the diagonal factor is a parameter whose square is 1/2, because square roots are outside the model. Only key directions with components -1, 0 or 1 are covered, which are all that the systems produce.
- The direction that `camera_movement` in `src/pixelate/pixel_cam.rs` computes from A/D/W/S is never used, since its position update is commented out. Only the zoom part is modelled.
- Orthographic projections keep only their scale. Near, far and the other defaults are constants that these systems never change.
- 32-bit floating point is not modelled: no rounding of intermediate results, no NaN, no infinity except the infinite projection scale.
- `PixelCam.PlaceCamera`: requires a non-zero texel size. The code divides by it unchecked. That gives NaN or infinite positions, which reals cannot represent. It happens before the first resize, and also after any resize to a window shorter than 72 px (`PixelCam.ShortWindowHasNoTexel`).
- `Player.PlayerMovement`: requires `right.x` and `up.z` to be non-zero once the window is sized. The code divides by them unchecked.
- `Settings.UpdateSettings`: does not model `i32` overflow of `value + 1`. It cannot happen from the initial 0, since the value stays in {0, 1, 2}.
