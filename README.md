# PANIS game simulation in Dafny

This project models the game simulation of PANIS (`bread.c`), a side-scroller for the Flipper Zero handheld. A 10×10 bread character walks along a map three screen tiles wide (384 px). A 128 px wide screen window follows it. The character jumps under gravity onto a ground line at y = 59.

The model has three modules:

- `PanisModel` (`panis_model.dfy`) holds the constants of `bread.c` and a value `State` with the simulated fields of `GameState`. It defines one pure function per C routine:
  - `UpdateGame` (with its two branches `MoveRight` and `MoveLeft`);
  - `UpdatePhysics` and `HandleJump`;
  - `Step`, one pass of the main loop;
  - `Run`, the main loop over a finite stream of input frames;
  - `VisibleTiles`, the visible-tile arithmetic of the draw callback.
- `PanisGame` (`panis_game.dfy`) holds the class `GameState`. Its fields are the C struct's fields. Its methods update them in place, in the same order as the C code. Each method is proved to leave exactly the state its `PanisModel` function describes.
- `PanisProps` (`panis_props.dfy`) holds the properties. The main ones:
  - the three horizontal coordinates stay coupled (`world_x == camera_x + screen_x`, all in range). This holds only because the camera always sits on a multiple of the 4 px step; `AlignmentIsNeeded` exhibits the failure without it;
  - the edge vibration fires only when an edge is newly reached;
  - the landing and jump rules, including the 32-bit wrap-around of the 300 ms double-click window;
  - every state the loop reaches keeps the character on the map and on the screen. Its height stays in [7, 49]: the peak of the current arc, `yPos - Lift(yVelocity)`, is constant under uncapped gravity and never above the peak of a big jump.

Interfaces to the platform are replaced by values:
- The system tick (`furi_get_tick`) is the parameter `now: u32`.
- The input queue delivers one `Option<InputEvent>` per loop pass. `None` means the 100 ms wait expired with no event.
- The vibration (`notification_message`) is a returned boolean.

The key and event-type enumerations (`InputKey`, `InputType`) come from the platform's input service. Only the values `bread.c` compares against matter.

Three points where the code differs from what a reader might expect (edge moves refused, physics every frame, the usual platformer features); the model follows the code:
- A step that would pass a map edge is clamped, not refused. From world 372, Right moves 2 px (`PartialStepAtRightEdge`).
- A Back press skips that pass's physics tick. Physics does not run every frame.
- `bread.c` has no block/pill grid, no collision queries, no score, no ceiling bump, no jump-height cap and no press-duration jump. The model has none of these.

## Model

| member | source | states |
|---|---|---|
| `PanisModel.Init` | bread.c:242-250 | the start state: world 32 = camera 0 + screen 32, resting on the ground line (y 49, velocity 0) |
| `PanisModel.Elapsed` | bread.c:144 | uint32 subtraction of tick readings: `now - last` without wrap, `now + 2^32 - last` when the counter wrapped |
| `PanisModel.MoveRight` | bread.c:161-189 | the right-key branch moves the world position forward by 0 to 4 px, never past 374, and keeps an in-range camera in range without moving it back; nothing but the three coordinates changes |
| `PanisModel.MoveLeft` | bread.c:195-222 | the left-key branch moves the world position back by 0 to 4 px, never below 0, and keeps a non-negative camera in [0, old camera]; nothing but the three coordinates changes |
| `PanisModel.UpdateGame` | bread.c:155-231 | facing follows Right/Left; other keys change nothing and do not vibrate; only the coordinates and facing change; from in-range world and camera positions both stay in range and the world position moves by at most 4 px |
| `PanisModel.UpdatePhysics` | bread.c:120-138 | afterwards the character is at or above the ground line; `on_ground` holds iff it is on the line, and then the velocity is 0; only y, velocity and `on_ground` change |
| `PanisModel.HandleJump` | bread.c:141-152 | in the air nothing changes, not even the last jump time; on the ground the velocity becomes the big jump iff fewer than 300 ms elapsed (mod 2^32), else the small jump; `now` is stored and `on_ground` cleared |
| `PanisModel.Step` | bread.c:264-291 | a Back press only clears `running`, with no physics and no vibration; an Up press is handle_jump then physics, with no vibration; a Left/Right press or repeat is update_game then physics, with update_game's vibration; an empty pass or any other event runs physics only, with no vibration; every pass but a Back press keeps `running` and ends at or above the ground line |
| `PanisModel.Run` | bread.c:264-292 | the loop takes at most one pass per frame and does nothing once `running` is false |
| `PanisModel.CDiv` | bread.c:58-59 | C's truncating division: the quotient times the divisor is within one divisor of the dividend, rounded toward zero |
| `PanisModel.VisibleTiles` | bread.c:58-63 | the clamped tile indices: the first is at least 0, the last below 3; for a non-negative camera the first tile starts at or before the camera and the last at or before the window's right end |
| `PanisProps.CoupledBoundsWorld` | bread.c:186-189 | under the coupling invariant the world position is within [0, 374] |
| `PanisProps.MoveRightKeepsCoupled` | bread.c:163-189 | the right-key branch keeps `world == camera + screen`, screen in [0, 118], camera in [0, 256] and camera a multiple of 4 |
| `PanisProps.MoveLeftKeepsCoupled` | bread.c:197-222 | the left-key branch keeps the same invariant |
| `PanisProps.MoveKeepsCoupled` | bread.c:155-231 | update_game keeps the coupling invariant for every key |
| `PanisProps.AlignmentIsNeeded` | bread.c:163-174 | without camera alignment, a coupled in-range state (camera 253) scrolls Right into screen 119 and breaks `world == camera + screen` |
| `PanisProps.ScrollRight` | bread.c:163-167 | Right at or past screen 64 with camera below 256 scrolls: camera +4, world +4, screen fixed |
| `PanisProps.ScrollLeft` | bread.c:197-200 | Left at or before screen 64 with camera above 0 scrolls back: camera -4, world -4, screen fixed |
| `PanisProps.OnScreenRight` | bread.c:163-184 | Right below screen 64, or with the camera at 256, and at least 4 px from the right end: the camera stays, screen and world both move +4 |
| `PanisProps.OnScreenLeft` | bread.c:197-217 | Left above screen 64, or with the camera at 0, and at least 4 px from the left end: the camera stays, screen and world both move -4 |
| `PanisProps.EdgeStopsMove` | bread.c:157-195 | Left at world 0 or Right at world 374 changes only the facing and does not vibrate |
| `PanisProps.PartialStepAtRightEdge` | bread.c:177-189 | a step past the right end is clamped: from 372 the character moves 2 px to 374, screen 118, and vibrates |
| `PanisProps.VibrationOnArrival` | bread.c:226-228 | from an in-range position the vibration fires iff the key is Left with world in (0, 4] or Right with world in [370, 374) |
| `PanisProps.RepeatedPushIsSilent` | bread.c:226-228 | after a vibrating push, the same key again never vibrates |
| `PanisProps.HoldRightFromStart` | bread.c:161-189 | holding Right from the start: the screen position goes from 32 up to 64, then the camera scrolls with screen fixed at 64 until camera 256 (72 presses), world advancing 4 px each time |
| `PanisProps.RestIsFixedPoint` | bread.c:120-138 | a character resting on the ground line is unchanged by a physics tick and by an idle loop pass |
| `PanisProps.AirborneTick` | bread.c:122-137 | an airborne tick moves by `min(v + 2, 10)`, falls at most 10 px, and lands exactly when that move reaches the ground line |
| `PanisProps.DoubleClickWindow` | bread.c:144 | a press is a double click iff `now` lies in `[last, last + 300)` counted modulo 2^32, including across a counter wrap |
| `PanisProps.FirstJump` | bread.c:141-151 | since the last jump time starts at 0, a first press before tick 300 gives the big jump and a later one the small jump |
| `PanisProps.BigJumpApex` | bread.c:141-151 | a big jump from the start reaches y = 7 five idle frames later and is never higher, however many idle frames follow |
| `PanisProps.SmallJumpApex` | bread.c:141-151 | a small jump from the start reaches y = 29 three idle frames later and is never higher, however many idle frames follow |
| `PanisProps.ReachableIsOnScreen` | bread.c:264-291 | every reachable state has world in [0, 374], screen in [0, 118], y in [7, 49] and velocity in [-14, 10] |
| `PanisProps.InitIsReachable` | bread.c:242-250 | the start state satisfies the coupling and the vertical invariants |
| `PanisProps.PhysicsKeepsVertical` | bread.c:120-138 | a physics tick keeps the vertical invariant (even bounded velocity, at or above the ground line, resting when `on_ground`, arc peak not above y = 7) |
| `PanisProps.PhysicsKeepsArc` | bread.c:120-138 | a physics tick keeps the vertical invariant for any ceiling at or above the ground line: the arc peak never rises |
| `PanisProps.TicksKeepArc` | bread.c:120-138 | any number of physics ticks keeps that invariant, so the character never rises above the ceiling |
| `PanisProps.JumpKeepsVertical` | bread.c:141-152 | handle_jump keeps the vertical invariant; a big jump from the ground line peaks exactly at y = 7, a small one lower |
| `PanisProps.MoveKeepsVertical` | bread.c:155-231 | update_game keeps the vertical invariant |
| `PanisProps.StepKeepsReachable` | bread.c:264-291 | each loop pass keeps the invariant of reachable states |
| `PanisProps.RunKeepsReachable` | bread.c:264-292 | any run of the loop from a reachable state ends in one |
| `PanisProps.RunStopsOnlyOnBack` | bread.c:268-270 | if a running game is stopped after a run, one of its frames was a Back press |
| `PanisProps.BackStopsRun` | bread.c:264-270 | a running game whose frames include a Back press is stopped at the end of the run |
| `PanisProps.TilesCoverScreen` | bread.c:58-63 | for every camera offset in [0, 256], one or two consecutive tiles are drawn and they cover the visible window |
| `PanisGame.GameState.constructor` | bread.c:242-250 | the fields start as the initial state |
| `PanisGame.GameState.UpdateGame` | bread.c:155-231 | the in-place update leaves the state and vibration of `PanisModel.UpdateGame` and keeps the coupling invariant |
| `PanisGame.GameState.MoveRight` | bread.c:161-189 | the in-place right-key branch leaves the state `PanisModel.MoveRight` describes |
| `PanisGame.GameState.MoveLeft` | bread.c:195-222 | the in-place left-key branch leaves the state `PanisModel.MoveLeft` describes |
| `PanisGame.GameState.UpdatePhysics` | bread.c:120-138 | the in-place update leaves `PanisModel.UpdatePhysics`'s state: at or above the ground line, `on_ground` iff on it, velocity 0 when grounded; it keeps the vertical invariant |
| `PanisGame.GameState.HandleJump` | bread.c:141-152 | the in-place update stores `now`, clears `on_ground` and picks the big jump iff fewer than 300 ms elapsed mod 2^32; in the air no field changes |
| `PanisGame.GameState.Step` | bread.c:264-291 | one loop pass leaves the state and vibration of `PanisModel.Step` and keeps the invariant of reachable states |
| `PanisGame.GameState.Run` | bread.c:264-292 | the `while (running)` loop over the frames leaves the final state and vibration list of `PanisModel.Run`, and keeps the invariant of reachable states |

## Left out

- Rendering in `draw_callback` (bread.c:53-110) is not modelled: canvas calls, icons and the `snprintf` debug text. Only the visible-tile arithmetic is modelled (`VisibleTiles`).
- The input callback and message queue (bread.c:113-117, 238, 266) are event plumbing. They are replaced by one `Option<InputEvent>` per loop pass. The 100 ms queue timeout is the `None` case.
- The vibration call `notification_message` and the record open/close calls are foreign. The vibration is a returned boolean.
- `furi_get_tick` is a foreign clock. The tick is the parameter `now`, an integer in [0, 2^32).
- Allocation, view-port and GUI registration, the per-pass redraw request and cleanup (bread.c:238-241, 251-261, 291, 295-301) have no effect on the simulated state.
- The `while (running)` loop runs for as long as the platform delivers input. `Run` takes a finite list of frames, so it also stops when the list ends.
- C's 32-bit `int` wrap-around on the coordinates, velocity and height is not modelled; integers are unbounded. `ReachableIsOnScreen` shows that every reachable value stays small (within [-14, 384]), so no overflow happens from the start state.
- `JUMP_HEIGHT_THRESHOLD` and `SCREEN_HEIGHT` (bread.c:11, 22) are never used by the simulation.
