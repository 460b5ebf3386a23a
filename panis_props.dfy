/**
 * Properties of the PANIS game simulation: the coupling of the three
 * horizontal coordinates, the edge vibration, the landing and jump rules,
 * and an invariant of every state the main loop can reach.
 */
module PanisProps {
  import opened PanisModel

  /**
   * The horizontal invariant: the world position is the camera offset plus
   * the screen position, both stay in their ranges, and the camera sits on a
   * multiple of the step, so a scroll never overshoots the camera bound.
   */
  predicate Coupled(s: State)
  {
    s.worldX == s.cameraX + s.screenX &&
    0 <= s.screenX <= MAX_SCREEN_X &&
    0 <= s.cameraX <= MAX_CAMERA_X &&
    s.cameraX % MOVEMENT_SPEED == 0
  }

  lemma CoupledBoundsWorld(s: State)
    requires Coupled(s)
    ensures 0 <= s.worldX <= MAX_WORLD_X
  {
  }

  /** The right-key branch keeps the coupling invariant. */
  lemma MoveRightKeepsCoupled(s: State)
    requires Coupled(s)
    ensures Coupled(MoveRight(s))
  {
    if s.worldX < MAX_WORLD_X && s.screenX >= START_SCROLL_X && s.cameraX < MAX_CAMERA_X {
      // an aligned camera below 256 is at most 252, so the scroll cannot overshoot
      assert s.cameraX <= MAX_CAMERA_X - MOVEMENT_SPEED;
    }
  }

  /** The left-key branch keeps the coupling invariant. */
  lemma MoveLeftKeepsCoupled(s: State)
    requires Coupled(s)
    ensures Coupled(MoveLeft(s))
  {
    if s.worldX > 0 && s.screenX <= START_SCROLL_X && s.cameraX > 0 {
      // an aligned camera above 0 is at least 4, so the scroll cannot undershoot
      assert s.cameraX >= MOVEMENT_SPEED;
    }
  }

  /** update_game keeps the coupling invariant for every key. */
  lemma MoveKeepsCoupled(s: State, key: InputKey)
    requires Coupled(s)
    ensures Coupled(UpdateGame(s, key).state)
  {
    if key == Right {
      MoveRightKeepsCoupled(s.(facingRight := true));
    } else if key == Left {
      MoveLeftKeepsCoupled(s.(facingRight := false));
    }
  }

  /**
   * Without the alignment conjunct the invariant is not preserved: from a
   * camera offset of 253 a right scroll overflows by one pixel, which the
   * overflow transfer pushes onto the screen position past its bound.
   */
  lemma AlignmentIsNeeded()
    ensures var s := State(371, 118, 253, true, true, GROUND_POS, 0, true, 0);
            var r := UpdateGame(s, Right).state;
            s.worldX == s.cameraX + s.screenX && 0 <= s.screenX <= MAX_SCREEN_X &&
            0 <= s.cameraX <= MAX_CAMERA_X &&
            r.screenX == MAX_SCREEN_X + 1 && r.worldX != r.cameraX + r.screenX
  {
  }

  /** Past the scroll threshold with room left, Right scrolls the camera and the character stays put on screen. */
  lemma ScrollRight(s: State)
    requires Coupled(s) && s.screenX >= START_SCROLL_X && s.cameraX < MAX_CAMERA_X
    ensures var r := UpdateGame(s, Right).state;
            r.cameraX == s.cameraX + MOVEMENT_SPEED && r.screenX == s.screenX &&
            r.worldX == s.worldX + MOVEMENT_SPEED
  {
    assert s.cameraX <= MAX_CAMERA_X - MOVEMENT_SPEED;
  }

  /** At or left of the scroll threshold with the camera not at 0, Left scrolls the camera back. */
  lemma ScrollLeft(s: State)
    requires Coupled(s) && s.screenX <= START_SCROLL_X && s.cameraX > 0
    ensures var r := UpdateGame(s, Left).state;
            r.cameraX == s.cameraX - MOVEMENT_SPEED && r.screenX == s.screenX &&
            r.worldX == s.worldX - MOVEMENT_SPEED
  {
    assert s.cameraX >= MOVEMENT_SPEED;
  }

  /** Below the scroll threshold, or with the camera at its end, Right a full step from the edge moves the character on screen; the camera stays. */
  lemma OnScreenRight(s: State)
    requires Coupled(s) && !(s.screenX >= START_SCROLL_X && s.cameraX < MAX_CAMERA_X)
    requires s.worldX + MOVEMENT_SPEED <= MAX_WORLD_X
    ensures var r := UpdateGame(s, Right).state;
            r.cameraX == s.cameraX && r.screenX == s.screenX + MOVEMENT_SPEED &&
            r.worldX == s.worldX + MOVEMENT_SPEED
  {
    assert s.screenX + MOVEMENT_SPEED <= MAX_SCREEN_X;
  }

  /** Above the scroll threshold, or with the camera at 0, Left a full step from the edge moves the character on screen; the camera stays. */
  lemma OnScreenLeft(s: State)
    requires Coupled(s) && !(s.screenX <= START_SCROLL_X && s.cameraX > 0)
    requires s.worldX >= MOVEMENT_SPEED
    ensures var r := UpdateGame(s, Left).state;
            r.cameraX == s.cameraX && r.screenX == s.screenX - MOVEMENT_SPEED &&
            r.worldX == s.worldX - MOVEMENT_SPEED
  {
    assert s.screenX >= MOVEMENT_SPEED;
  }

  /** Pushing against the end of the map in its direction moves nothing and does not vibrate; only the facing is set. */
  lemma EdgeStopsMove(s: State, key: InputKey)
    requires (key == Left && s.worldX == 0) || (key == Right && s.worldX == MAX_WORLD_X)
    ensures var r := UpdateGame(s, key);
            r.state == s.(facingRight := key == Right) && !r.vibrate
  {
  }

  /**
   * From any in-range position the vibration fires exactly on the step that
   * reaches an end of the map: Left from within one step of 0, Right from
   * within one step of the right end.
   */
  lemma VibrationOnArrival(s: State, key: InputKey)
    requires 0 <= s.worldX <= MAX_WORLD_X
    ensures UpdateGame(s, key).vibrate <==>
              (key == Left && 0 < s.worldX <= MOVEMENT_SPEED) ||
              (key == Right && MAX_WORLD_X - MOVEMENT_SPEED <= s.worldX < MAX_WORLD_X)
  {
  }

  /**
   * A step that would pass the end of the map is cut short, not refused:
   * from world 372 (screen 116, camera 256) Right moves the character two
   * pixels, to world 374 and screen 118, and vibrates.
   */
  lemma PartialStepAtRightEdge()
    ensures var s := State(372, 116, MAX_CAMERA_X, true, true, GROUND_POS, 0, true, 0);
            var r := UpdateGame(s, Right);
            Coupled(s) && r.state.worldX == MAX_WORLD_X && r.state.screenX == MAX_SCREEN_X &&
            r.state.cameraX == MAX_CAMERA_X && r.vibrate
  {
  }

  /** A second push of the same key after a vibration never vibrates again. */
  lemma RepeatedPushIsSilent(s: State, key: InputKey)
    requires UpdateGame(s, key).vibrate
    ensures !UpdateGame(UpdateGame(s, key).state, key).vibrate
  {
  }

  /** Pressing the same key n times in a row, keeping only the state. */
  function Repeat(s: State, key: InputKey, n: nat): State
  {
    if n == 0 then s else UpdateGame(Repeat(s, key, n - 1), key).state
  }

  /**
   * Holding Right from the start: the character walks on screen from 32 to
   * the threshold 64, then the camera scrolls with the character fixed at 64
   * until the camera reaches its bound 256.
   */
  lemma {:induction false} HoldRightFromStart(n: nat)
    requires n <= 72
    ensures var s := Repeat(Init(), Right, n);
            s.worldX == CHAR_START_X + MOVEMENT_SPEED * n &&
            s.screenX == (if n <= 8 then CHAR_START_X + MOVEMENT_SPEED * n else START_SCROLL_X) &&
            s.cameraX == (if n <= 8 then 0 else MOVEMENT_SPEED * (n - 8))
  {
    if n > 0 {
      HoldRightFromStart(n - 1);
    }
  }

  /** A character resting on the ground line is a fixed point of update_physics, so an idle frame changes nothing. */
  lemma RestIsFixedPoint(s: State)
    requires s.onGround && s.yPos == GROUND_POS && s.yVelocity == 0
    ensures UpdatePhysics(s) == s
    ensures Step(s, Frame(None, 0)) == Outcome(s, false)
  {
  }

  /**
   * An airborne tick moves by the capped velocity min(v + GRAVITY,
   * MAX_FALL_SPEED): it never falls more than MAX_FALL_SPEED pixels, and it
   * lands exactly when that move reaches the ground line.
   */
  lemma AirborneTick(s: State)
    requires !s.onGround && s.yPos <= GROUND_POS
    ensures var r := UpdatePhysics(s);
            var v := Min(s.yVelocity + GRAVITY, MAX_FALL_SPEED);
            r.yPos - s.yPos <= MAX_FALL_SPEED &&
            (r.onGround <==> s.yPos + v >= GROUND_POS) &&
            (!r.onGround ==> r.yVelocity == v && r.yPos == s.yPos + v)
  {
  }

  /** The 300 ms window measured with wrap-around: the press is a double click when now lies less than 300 ticks after last, counted modulo 2^32. */
  lemma DoubleClickWindow(now: u32, last: u32)
    ensures Elapsed(now, last) < DOUBLE_CLICK_MS <==>
              (last <= now < last + DOUBLE_CLICK_MS) ||
              (now < last && now + TICK_MODULUS < last + DOUBLE_CLICK_MS)
  {
  }

  /** Since the last jump time starts at 0, a first jump before tick 300 is a big jump, and a later one a small jump. */
  lemma FirstJump(now: u32)
    ensures HandleJump(Init(), now).yVelocity == (if now < DOUBLE_CLICK_MS then BIG_JUMP_VELOCITY else SMALL_JUMP_VELOCITY)
  {
  }

  /** For an even upward velocity v, how many pixels the character still rises under gravity: (v/2)(v/2 + 1). */
  function Lift(v: int): int
    requires v % 2 == 0
  {
    (v / 2) * (v / 2 + 1)
  }

  /** The highest point of any jump: a big jump from the ground line rises to y = 7 (JumpKeepsVertical). */
  const APEX_Y: int := 7

  /** n physics ticks, as n idle frames of the main loop run them. */
  function Ticks(s: State, n: nat): State
  {
    if n == 0 then s else UpdatePhysics(Ticks(s, n - 1))
  }

  /**
   * The apex is reached: an Up press before tick 300 (a double click, since
   * the last jump time starts at 0) lifts the character to y = APEX_Y = 7
   * five idle frames later.
   */
  lemma BigJumpApex()
    ensures Ticks(Step(Init(), Frame(Some(InputEvent(Up, Press)), 0)).state, 5).yPos == APEX_Y
    ensures forall n: nat :: Ticks(Step(Init(), Frame(Some(InputEvent(Up, Press)), 0)).state, n).yPos >= APEX_Y
  {
    var big := Step(Init(), Frame(Some(InputEvent(Up, Press)), 0)).state;
    assert big.yPos == 37 && big.yVelocity == -12 && !big.onGround;
    assert Lift(-12) == 30;
    assert ArcWithin(big, APEX_Y);
    forall n: nat
      ensures Ticks(big, n).yPos >= APEX_Y
    {
      TicksKeepArc(big, APEX_Y, n);
    }
    assert Ticks(big, 1).yPos == 27 && Ticks(big, 1).yVelocity == -10;
    assert Ticks(big, 2).yPos == 19 && Ticks(big, 2).yVelocity == -8;
    assert Ticks(big, 3).yPos == 13 && Ticks(big, 3).yVelocity == -6;
    assert Ticks(big, 4).yPos == 9 && Ticks(big, 4).yVelocity == -4;
  }

  /**
   * A single click (at tick 1000, long after the start) lifts the character
   * only to y = 29: it gets there three idle frames later and never higher.
   */
  lemma SmallJumpApex()
    ensures Ticks(Step(Init(), Frame(Some(InputEvent(Up, Press)), 1000)).state, 3).yPos == 29
    ensures forall n: nat :: Ticks(Step(Init(), Frame(Some(InputEvent(Up, Press)), 1000)).state, n).yPos >= 29
  {
    var small := Step(Init(), Frame(Some(InputEvent(Up, Press)), 1000)).state;
    assert small.yPos == 41 && small.yVelocity == -8 && !small.onGround;
    assert Lift(-8) == 12;
    assert ArcWithin(small, 29);
    forall n: nat
      ensures Ticks(small, n).yPos >= 29
    {
      TicksKeepArc(small, 29, n);
    }
    assert Ticks(small, 1).yPos == 35 && Ticks(small, 1).yVelocity == -6;
    assert Ticks(small, 2).yPos == 31 && Ticks(small, 2).yVelocity == -4;
  }

  lemma LiftNonNegative(v: int)
    requires v % 2 == 0
    ensures Lift(v) >= 0
  {
    var m := v / 2;
    if m < 0 {
      assert m + 1 <= 0;
      assert m * (m + 1) == (-m) * (-(m + 1));
    }
  }

  /**
   * The vertical invariant below a ceiling top: the velocity is even and
   * bounded, the character is at or above the ground line, resting on it
   * when on_ground, and the highest point of its current trajectory,
   * yPos - Lift(yVelocity), is not above top (uncapped gravity ticks keep
   * that point constant).
   */
  predicate ArcWithin(s: State, top: int)
  {
    BIG_JUMP_VELOCITY <= s.yVelocity <= MAX_FALL_SPEED &&
    s.yVelocity % 2 == 0 &&
    s.yPos <= GROUND_POS &&
    (s.onGround ==> s.yPos == GROUND_POS && s.yVelocity == 0) &&
    s.yPos - Lift(s.yVelocity) >= top
  }

  /** The vertical invariant of the main loop: no trajectory peaks above the apex of a big jump. */
  predicate Vertical(s: State)
  {
    ArcWithin(s, APEX_Y)
  }

  /** Invariant of every state the main loop reaches. */
  predicate Reachable(s: State)
  {
    Coupled(s) && Vertical(s)
  }

  /** Every reachable state is on the map and on the screen: x in [0, 374] and y in [7, 49]. */
  lemma ReachableIsOnScreen(s: State)
    requires Reachable(s)
    ensures 0 <= s.worldX <= MAX_WORLD_X && 0 <= s.screenX <= MAX_SCREEN_X
    ensures APEX_Y <= s.yPos <= GROUND_POS && 0 <= s.yPos
    ensures BIG_JUMP_VELOCITY <= s.yVelocity <= MAX_FALL_SPEED
  {
    LiftNonNegative(s.yVelocity);
  }

  lemma InitIsReachable()
    ensures Reachable(Init())
  {
    var s := Init();
    assert s == State(32, 32, 0, true, true, 49, 0, true, 0);
    assert Lift(0) == 0;
  }

  /** One uncapped gravity tick leaves height plus lift unchanged. */
  lemma LiftStep(v: int)
    requires v % 2 == 0
    ensures (v + GRAVITY) % 2 == 0 && Lift(v + GRAVITY) == Lift(v) + v + GRAVITY
  {
    var m := v / 2;
    assert v == 2 * m;
    assert (v + 2) / 2 == m + 1;
    assert (m + 1) * (m + 2) == m * (m + 1) + 2 * m + 2;
  }

  lemma PhysicsKeepsVertical(s: State)
    requires Vertical(s)
    ensures Vertical(UpdatePhysics(s))
  {
    PhysicsKeepsArc(s, APEX_Y);
  }

  /** A physics tick keeps every ceiling at or above the ground line. */
  lemma PhysicsKeepsArc(s: State, top: int)
    requires ArcWithin(s, top) && top <= GROUND_POS
    ensures ArcWithin(UpdatePhysics(s), top)
  {
    var r := UpdatePhysics(s);
    if !s.onGround && !r.onGround {
      if s.yVelocity + GRAVITY <= MAX_FALL_SPEED {
        LiftStep(s.yVelocity);
      } else {
        assert s.yVelocity == MAX_FALL_SPEED;
      }
    }
  }

  lemma JumpKeepsVertical(s: State, now: u32)
    requires Vertical(s)
    ensures Vertical(HandleJump(s, now))
    ensures GROUND_POS - Lift(BIG_JUMP_VELOCITY) == APEX_Y && GROUND_POS - Lift(SMALL_JUMP_VELOCITY) > APEX_Y
  {
    assert Lift(BIG_JUMP_VELOCITY) == 42 && Lift(SMALL_JUMP_VELOCITY) == 20;
  }

  /** Any number of physics ticks keeps a ceiling, so the character never rises above it. */
  lemma {:induction false} TicksKeepArc(s: State, top: int, n: nat)
    requires ArcWithin(s, top) && top <= GROUND_POS
    ensures ArcWithin(Ticks(s, n), top) && Ticks(s, n).yPos >= top
  {
    if n > 0 {
      TicksKeepArc(s, top, n - 1);
      PhysicsKeepsArc(Ticks(s, n - 1), top);
    }
    LiftNonNegative(Ticks(s, n).yVelocity);
  }

  lemma MoveKeepsVertical(s: State, key: InputKey)
    requires Vertical(s)
    ensures Vertical(UpdateGame(s, key).state)
  {
  }

  /** Each pass of the main loop keeps the invariant. */
  lemma StepKeepsReachable(s: State, f: Frame)
    requires Reachable(s)
    ensures Reachable(Step(s, f).state)
  {
    match f.event
    case None =>
      PhysicsKeepsVertical(s);
    case Some(e) =>
      if !IsBackPress(e) {
        var jumped := if IsJumpPress(e) then HandleJump(s, f.now) else s;
        JumpKeepsVertical(s, f.now);
        assert Reachable(jumped);
        var moved := if IsMove(e) then UpdateGame(jumped, e.key).state else jumped;
        MoveKeepsCoupled(jumped, e.key);
        MoveKeepsVertical(jumped, e.key);
        assert Reachable(moved);
        PhysicsKeepsVertical(moved);
        assert Step(s, f).state == UpdatePhysics(moved);
      }
  }

  /** Any run of the main loop from a reachable state ends in a reachable state. */
  lemma {:induction false} RunKeepsReachable(s: State, frames: seq<Frame>)
    requires Reachable(s)
    ensures Reachable(Run(s, frames).0)
    decreases |frames|
  {
    if s.running && frames != [] {
      StepKeepsReachable(s, frames[0]);
      RunKeepsReachable(Step(s, frames[0]).state, frames[1..]);
    }
  }

  /**
   * One pass of a running main loop: if a run is split into the passes done
   * so far and the rest, the first pass of the rest can move to the done part.
   */
  lemma RunAdvances(whole: (State, seq<bool>), done: seq<bool>, s: State, rest: seq<Frame>)
    requires s.running && rest != []
    requires whole.0 == Run(s, rest).0 && whole.1 == done + Run(s, rest).1
    ensures var o := Step(s, rest[0]);
            whole.0 == Run(o.state, rest[1..]).0 &&
            whole.1 == (done + [o.vibrate]) + Run(o.state, rest[1..]).1
  {
    var o := Step(s, rest[0]);
    assert Run(s, rest).1 == [o.vibrate] + Run(o.state, rest[1..]).1;
  }

  /** The main loop stops only on a Back press: if a running game is stopped at the end, some frame was one. */
  lemma {:induction false} RunStopsOnlyOnBack(s: State, frames: seq<Frame>)
    requires s.running && !Run(s, frames).0.running
    ensures exists i :: 0 <= i < |frames| && frames[i].event.Some? && IsBackPress(frames[i].event.value)
    decreases |frames|
  {
    if frames == [] {
      assert false;
    } else if frames[0].event.Some? && IsBackPress(frames[0].event.value) {
    } else {
      var t := Step(s, frames[0]).state;
      RunStopsOnlyOnBack(t, frames[1..]);
      var i :| 0 <= i < |frames[1..]| && frames[1..][i].event.Some? && IsBackPress(frames[1..][i].event.value);
      assert frames[i + 1] == frames[1..][i];
    }
  }

  /** A Back press stops the main loop: a running game given one in its frames is stopped at the end. */
  lemma {:induction false} BackStopsRun(s: State, frames: seq<Frame>, k: nat)
    requires s.running && k < |frames|
    requires frames[k].event.Some? && IsBackPress(frames[k].event.value)
    ensures !Run(s, frames).0.running
    decreases k
  {
    var t := Step(s, frames[0]).state;
    if k == 0 {
      assert !t.running;
      assert Run(s, frames).0 == Run(t, frames[1..]).0;
    } else if !t.running {
      assert Run(s, frames).0 == Run(t, frames[1..]).0;
    } else {
      assert frames[1..][k - 1] == frames[k];
      BackStopsRun(t, frames[1..], k - 1);
    }
  }

  /**
   * For every camera offset the game can reach, draw_callback draws one or
   * two consecutive tiles among the three, and together they cover the
   * whole visible window [cameraX, cameraX + SCREEN_WIDTH).
   */
  lemma TilesCoverScreen(cameraX: int)
    requires 0 <= cameraX <= MAX_CAMERA_X
    ensures var (first, last) := VisibleTiles(cameraX);
            0 <= first <= last < NUM_TILES && last <= first + 1 &&
            first * TILE_WIDTH <= cameraX && cameraX + SCREEN_WIDTH <= (last + 1) * TILE_WIDTH
  {
  }
}
