# chinchilib in Dafny

A model of the core of chinchilib, a small Rust library for pixel games.
It covers four parts:

- **Keyboard tracker and redraw flags** (`WinFbx`). A key release is only
  recorded as pending. At each tick the application sees every key held
  during the tick, and the pending releases are applied afterwards.
- **Fixed-tick scheduler** (`WinitHandler::about_to_wait`). When the host's
  event queue is drained, it decides whether to exit, run a tick and ask
  for a redraw, sleep until the next tick, or sleep until the next event.
- **Grid ray-caster** (`World`). A square map of wall cells, a player
  whose position is never a wall, collision-checked movement, panning,
  and a march in fixed steps that measures the distance to the first wall
  along each ray of the field of view.
- **The two moving-pixel applications.** One is the crate's binary, the
  other its example. Each moves a pixel with the arrow keys and
  classifies its position as done or not.

Modules and files:

| file | module | source |
|---|---|---|
| keys.dfy | `Keys` | `MyKeys` and its `TryFrom<&Key>` |
| fbx.dfy | `Fbx` | `WinFbx`, `DoneStatus` |
| handler.dfy | `Handler` | `WinitHandler`, `hz_to_nanosec_period` |
| framebuffer.dfy | `FrameBuffer` | `put_pixel` |
| raycast.dfy | `Raycast` | src/raycast.rs |
| pixelapp.dfy | `PixelApp` | what both applications share |
| mainapp.dfy | `MainApp` | src/main.rs |
| movingpixel.dfy | `MovingPixelExample` | examples/moving_pixel.rs |

How the model stands in for the environment:

- Time is an integer number of nanoseconds, passed in by the caller.
- The application behind `GfxApp` is passed in as what it answers: its
  `DoneStatus` and its `on_tick` as a function of the keys it is shown.
- Whether presenting a frame succeeds is a boolean input.
- Asking the event loop to exit is a returned flag.
- `MainApp.RunTick` is `WinFbx::on_tick` with the binary's own application
  bound to the interface. That is where the application's requirement
  "no `usize` underflow" is discharged by the NotDone gate.
- Floating-point coordinates and angles are `real`. Cosine and sine are
  function values (`Raycast.Trig`); nothing is assumed about them.

## Notes on the source

- The march in `distance_to_wall` has no range cap; on a ray that never
  meets a wall it does not end.
- With one ray `generate_ray_angles` divides by zero, and with zero rays
  the count underflows.
- A key pressed and released within one tick is in both the held and the
  pending-release sets until the tick.
- `is_wall` truncates coordinates with `as usize`, so a negative
  coordinate falls in cell 0. On a map whose row or column 0 is open the
  player can leave the map on the negative side
  (`Raycast.NegativeSideOpen`).
- The documentation of `DoneStatus::Remain` says `draw` is no longer
  called, but `on_redraw` calls it whenever a frame is due, whatever the
  status. A resize makes a frame due, and so does the tick that reaches
  Remain (`Fbx.ResizeThenRedrawDraws`).

## Model

| member | source | states |
|---|---|---|
| Keys.TryFromKey | src/lib.rs:26-44 | the arrows and the letters q, d, z, s, a, e map to their keys and back; Escape, Space and unidentified keys are refused |
| Keys.KeyForInjective | src/lib.rs:26-44 | distinct recognised keys come from distinct host keys |
| Fbx.Record | src/lib.rs:287-292 | refused keys change nothing; a press adds the key to the held set and leaves the pending set alone; a release adds it to the pending set and leaves the held set alone; nothing but that key is added, so a key already in its set leaves the state unchanged |
| Fbx.RecordIdempotent | src/lib.rs:287-292 | recording the same key event twice is the same as recording it once |
| Fbx.Tick | src/lib.rs:276-278 | after a tick the pending set is empty, and a held key stays held exactly when it was not released |
| Fbx.TickIdempotent | src/lib.rs:276-278 | a second tick with no events in between changes nothing |
| Fbx.ReleaseThenPressStillRemoved | src/lib.rs:276-292 | a key released and pressed again before the tick is still removed by the tick |
| Fbx.PressReleaseWithinTick | src/lib.rs:272-279 | a key pressed and released within one tick is held when the application looks, and gone after the tick |
| Fbx.Done | src/lib.rs:268-270 | the loop is left exactly on Exit; Remain and NotDone both keep it running |
| Fbx.WinFbx.constructor | src/lib.rs:243-253 | both sets empty, not paused, a frame due |
| Fbx.WinFbx.OnRedraw | src/lib.rs:256-266 | the application's `draw` is called exactly when a frame was due, whatever its status; afterwards no frame is due, unless one was due and presenting it failed |
| Fbx.WinFbx.DrainReleased | src/lib.rs:276-278 | the held set loses the released keys; the pending set is emptied |
| Fbx.WinFbx.OnTick | src/lib.rs:272-279 | the application is asked only when NotDone, and it is shown the held set before this tick's releases; `needsRender` takes its answer, or is kept when it is not asked; the sets are drained in every case |
| Fbx.WinFbx.ProcessKbdInput | src/lib.rs:281-303 | the sets change as `Record` says; a press of Space toggles `pause`; a press of Escape asks to exit |
| Fbx.WinFbx.ProcessResize | src/lib.rs:305-312 | the new size is stored and a frame is due |
| Fbx.ResizeThenRedrawDraws | src/lib.rs:256-266 | after a resize the next redraw calls `draw`, also under Remain, and the frame stays due only if presenting failed |
| Handler.HzToNanosecPeriod | src/lib.rs:63-66 | the period is the largest whole number of nanoseconds not exceeding one second divided by `hz`; 0 Hz saturates to the largest `u64` |
| Handler.HzToNanosecPeriodExamples | src/lib.rs:70-74 | 60 Hz gives 16 666 666 ns and 1 Hz gives 1 000 000 000 ns |
| Handler.DurationSince | src/lib.rs:134 | the elapsed time is `now` minus the earlier instant, or zero when `now` is not later |
| Handler.Decide | src/lib.rs:129-153 | Exit leaves the loop; otherwise a full period elapsed runs a tick; otherwise held keys or `always_tick` wake at a deadline strictly after now and at most one period away, which is exactly one period after the last tick; otherwise sleep until the next event |
| Handler.ExitLoopExactlyWhenDone | src/lib.rs:129-132 | the scheduler leaves the loop exactly when `WinFbx::done` holds |
| Handler.HeldKeyKeepsTicking | src/lib.rs:145-149 | with a key held and the period not yet over, the scheduler wakes at the next tick instead of sleeping |
| Handler.WinitHandler.constructor | src/lib.rs:80-92 | the tick period comes from `HzToNanosecPeriod`; `always_tick` is off; the last tick is the creation time |
| Handler.WinitHandler.SetAlwaysTick | src/lib.rs:107-109 | stores the flag |
| Handler.WinitHandler.AboutToWait | src/lib.rs:123-154 | the outcome is `Decide` on the state before the call; only a tick moves `lastFrame` (to now) and runs `WinFbx.OnTick`; every other outcome leaves the tracker and the redraw flag untouched |
| Handler.WinitHandler.HandleWindowEvent | src/lib.rs:156-198 | close and pressed Escape ask to exit; repeated key events are dropped before the tracker; other key events change the sets and `pause` as `ProcessKbdInput` does; resize and redraw act as their handlers do; nothing else changes |
| FrameBuffer.PixelIndexInverse | src/lib.rs:203 | on a row of `width` pixels the index `width*y + x` gives back row `y` and column `x` |
| FrameBuffer.PutPixel | src/lib.rs:201-205 | the pixel at index `width*y + x` becomes `color`, and every byte of every other pixel is unchanged |
| Raycast.ToUsize | src/raycast.rs:51 | a non-negative coordinate truncates to the whole number below it; anything below 1 gives cell 0 |
| Raycast.IsWall | src/raycast.rs:50-55 | a cell index past the map is a wall; inside the map the cell decides; both coordinates of a point that is not a wall lie below the map's size |
| Raycast.DefaultNonWallIsInterior | src/raycast.rs:14-32 | on the default map a point that is not a wall has both coordinates in [1, 4), the interior |
| Raycast.NegativeSideOpen | src/raycast.rs:50-55 | on a 2 by 2 open map the point (-3, -3) is not a wall, since a negative coordinate falls in cell 0 |
| Raycast.DefaultGrid | src/raycast.rs:14-32 | the default map is 5 by 5 with a wall border and an empty interior |
| Raycast.DegsToRads | src/raycast.rs:115-117 | 180 degrees is pi, 90 is pi/2, 0 is 0, and no angle is negative |
| Raycast.DegsToRadsAdditive | src/raycast.rs:115-117 | the conversion of a sum is the sum of the conversions |
| Raycast.MoveForward | src/raycast.rs:96-100 | distance 0 stays in place; where cosine is 1 and sine is 0 only x moves, by the distance |
| Raycast.MoveForwardFloored | src/raycast.rs:102-105 | distance 0 stays on the same cell; along direction 0 the x cell moves by the truncated distance |
| Raycast.MoveForwardFlooredExamples | src/raycast.rs:128-136 | the three values of the library's test, given a cosine and sine exact at 0 |
| Raycast.RayAngles | src/raycast.rs:107-113 | one angle per ray |
| Raycast.RayAnglesEndpoints | src/raycast.rs:107-113 | the first angle is `-fov/2` and the last is `+fov/2` |
| Raycast.RayAnglesSpacing | src/raycast.rs:107-113 | rays `i` and `j` are `(j - i) * fov/(n - 1)` apart |
| Raycast.RayAnglesIncreasing | src/raycast.rs:107-113 | with a positive field of view the angles strictly increase |
| Raycast.RayAnglesSymmetric | src/raycast.rs:160-198 | ray `n-1-i` is the mirror image of ray `i` |
| Raycast.RayAnglesMiddleZero | src/raycast.rs:160-185 | with an odd number of rays the middle one has angle 0 |
| Raycast.World.Default | src/raycast.rs:12-40 | the default world is valid: the player at (2, 2) is not in a wall; heading 0 and a 70 degree field of view |
| Raycast.World.MarchResultUnique | src/raycast.rs:57-65 | the march along one direction has only one possible result |
| Raycast.World.FirstHitExists | src/raycast.rs:57-65 | a ray that meets a wall at some step meets a first one |
| Raycast.World.MarchDistance | src/raycast.rs:57-65 | on a ray that meets a wall, the distance is a whole number of steps whose sample is the first wall |
| Raycast.World.DistanceToWall | src/raycast.rs:57-65 | the result is `k * 0.01` where sample `k` is a wall and every earlier sample is not; 0 when the player stands in a wall |
| Raycast.World.MarchRays | src/raycast.rs:67-70 | one distance per angle, in order, each the march along that angle plus the heading |
| Raycast.World.DistanceToWalls | src/raycast.rs:67-70 | exactly `n` distances; the `i`-th is the march along ray angle `i` plus the heading |
| Raycast.World.PanLeft | src/raycast.rs:72-75 | the heading decreases by pi/8; position and field of view stay; the player-not-in-wall invariant holds after exactly when before |
| Raycast.World.PanRight | src/raycast.rs:76-79 | the heading increases by pi/8; position and field of view stay; the player-not-in-wall invariant holds after exactly when before |
| Raycast.PanLeftThenRight | src/raycast.rs:72-79 | panning left then right restores the heading |
| Raycast.World.MovePlayer | src/raycast.rs:81-93 | the player takes the candidate position 0.2 along the heading plus the direction's offset only if it is not a wall, and otherwise stays; heading and field of view never change; the player-not-in-wall invariant is kept |
| PixelApp.Classify | examples/moving_pixel.rs:75-83 | Remain exactly when x < 50; Exit exactly when x >= 50 and y < 50; NotDone exactly when both are at least 50 |
| PixelApp.ShiftProperties | examples/moving_pixel.rs:44-61 | each coordinate moves by at most 1; letter keys move nothing; Left with Right, or Up with Down, cancel |
| PixelApp.NotDoneAllowsTick | src/main.rs:24-37 | at a NotDone position no held key can make a coordinate underflow, and after the tick both coordinates are at least 49 |
| MainApp.MovingPixel.constructor | src/main.rs:15-17 | the pixel starts where it is told |
| MainApp.MovingPixel.Done | src/main.rs:69-77 | NotDone exactly when both coordinates are at least 50; Remain exactly when x < 50 |
| MainApp.MovingPixel.OnTick | src/main.rs:20-49 | the position moves by Right minus Left and Down minus Up, whatever order the set is visited in; the result is true exactly when some arrow key is held |
| MainApp.StartNotDone | src/main.rs:85 | the start position (50, 100) is NotDone |
| MainApp.RunTick | src/lib.rs:272-279 | the application is ticked only when NotDone, so its decrements never underflow and both coordinates stay at least 49; `needsRender` is whether an arrow was held; the sets are drained in every case |
| MovingPixelExample.DrawGuardAsWrittenAdmitsBadPixels | examples/moving_pixel.rs:66-70 | the written guard admits (50, 500) in a 500 by 500 frame, a NotDone position past the frame's end; it also admits (600, 60), whose pixel lands on another row |
| MovingPixelExample.DrawGuardPlacesPixel | examples/moving_pixel.rs:66-70 | under the corrected guard the pixel lies inside the frame, on row `y` at column `x` |
| MovingPixelExample.MovingPixel.constructor | examples/moving_pixel.rs:28-32 | the pixel starts where it is told |
| MovingPixelExample.MovingPixel.Done | examples/moving_pixel.rs:75-83 | NotDone exactly when both coordinates are at least 50; Remain exactly when x < 50 |
| MovingPixelExample.MovingPixel.OnTick | examples/moving_pixel.rs:42-64 | the position moves by Right minus Left and Down minus Up, whatever the visiting order; a redraw is asked for exactly when every held key is an arrow, so the empty set asks for one |
| MovingPixelExample.MovingPixel.Draw | examples/moving_pixel.rs:66-70 | with the corrected guard, the pixel at the position turns red when it is inside the frame; no other byte changes |

## Findings

| source | as written | input that shows it | evidently intended | confidence | as-written member | corrected member |
|---|---|---|---|---|---|---|
| examples/moving_pixel.rs:67 | `put_pixel` is called when `pos.0 * pos.1 < frame().len()`, where the length is in bytes | 500 by 500 frame at position (50, 500): the guard holds, 25 000 < 1 000 000, but pixel index 250 050 is past the 250 000 pixels and the slice access panics; the position is NotDone and is reached from (50, 100) by holding Down; (600, 60) passes too and is drawn on row 61 | draw only when `x < width` and `width*y + x` is inside the frame | not executed | MovingPixelExample.DrawGuardAsWrittenAdmitsBadPixels | MovingPixelExample.MovingPixel.Draw |

## Left out

- Window, surface and event-loop plumbing is not modelled. This covers `run`, `resumed`, window and `Pixels` creation, `clear_color`, `pixels.render`, `resize_surface`/`resize_buffer`, `request_redraw`, `Instant::now` and logging. The window is created in the handler's constructor rather than on resume, so `winfbx` is never absent.
- Cursor and mouse events only store or log a position. They are accepted and have no effect.
- What `GfxApp::draw` draws inside `on_redraw` is not modelled, only whether it is called. The application draws into a buffer the model does not follow; only the example's draw is modelled.
- The binary's `draw` calls `put_pixel1`, which the library does not define. It is not part of this model.
- The example uses a key type `Key` and a `draw(&mut self)` signature that do not match the library's interface. Its keys are modelled as the library's `MyKeys`.
- Handler.HzToNanosecPeriod: computed as integer division instead of in `f64`. The two values the library's test asserts (src/lib.rs:72-73) agree; float rounding for other rates is not modelled.
- Floating-point arithmetic is modelled over reals. This leaves out the f32 rounding of coordinates and of the 0.01 accumulation in the march, NaN handling, and `as usize` saturation at the top of the range. Pi is a decimal constant.
- FrameBuffer.PutPixel: requires the pixel index to be inside the frame. The source's slice access panics outside it; the panic is not modelled as an outcome.
- Raycast.World.DistanceToWall: requires that the ray meets a wall. The source loop has no cap and does not end on an open ray.
- Raycast.RayAngles: requires at least two rays. One ray divides by zero in f32, and zero rays underflow the count.
- The map is square. The source compares the x index with `row_len` and the y index with `column_len`, which pair up only for square maps.
- The ray iterators are lazy in the source. They are modelled as sequences computed in full.
- `rads_to_deg` is only used in logging and is not modelled.
- The applications' `Default` (position (0, 0)) is never used and is not modelled.
- `usize` overflow is not modelled: `width*y + x` in `put_pixel`, and `+= 1` at the largest `usize` in the applications. `usize` underflow is modelled, as a requirement on the applications' `OnTick`.
