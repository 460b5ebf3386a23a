/**
 * The game simulation of the PANIS side-scroller (bread.c) as pure functions
 * over a value snapshot of the game state. Each function here is the
 * specification of one C routine; the class in module PanisGame implements
 * the same routines by in-place field updates and is proved against them.
 */
module PanisModel {

  // Screen and world geometry (bread.c:10-36)
  const SCREEN_WIDTH: int := 128
  const MOVEMENT_SPEED: int := 4
  const GROUND_Y: int := 59
  const TILE_WIDTH: int := 128
  const NUM_TILES: int := 3
  const TOTAL_MAP_WIDTH: int := TILE_WIDTH * NUM_TILES
  const CHAR_WIDTH: int := 10
  const CHAR_HEIGHT: int := 10
  const START_SCROLL_X: int := SCREEN_WIDTH / 2
  const CHAR_START_X: int := SCREEN_WIDTH / 4

  // Jump physics (bread.c:18-23)
  const GRAVITY: int := 2
  const SMALL_JUMP_VELOCITY: int := -10
  const BIG_JUMP_VELOCITY: int := -14
  const MAX_FALL_SPEED: int := 10
  const DOUBLE_CLICK_MS: int := 300

  // Derived bounds used throughout
  const MAX_WORLD_X: int := TOTAL_MAP_WIDTH - CHAR_WIDTH     // 374
  const MAX_SCREEN_X: int := SCREEN_WIDTH - CHAR_WIDTH       // 118
  const MAX_CAMERA_X: int := TOTAL_MAP_WIDTH - SCREEN_WIDTH  // 256
  const GROUND_POS: int := GROUND_Y - CHAR_HEIGHT            // 49

  /** The system tick is an unsigned 32-bit millisecond counter. */
  const TICK_MODULUS: int := 0x1_0000_0000
  type u32 = x: int | 0 <= x < 0x1_0000_0000

  datatype Option<T> = None | Some(value: T)

  /** The keys and event kinds of the handheld's input service. */
  datatype InputKey = Up | Down | Right | Left | Ok | Back
  datatype InputType = Press | Release | Short | Long | Repeat
  datatype InputEvent = InputEvent(key: InputKey, kind: InputType)

  /** The simulated fields of GameState (bread.c:39-50); the notification handle is not state of the game. */
  datatype State = State(
    worldX: int,
    screenX: int,
    cameraX: int,
    facingRight: bool,
    running: bool,
    yPos: int,
    yVelocity: int,
    onGround: bool,
    lastJumpTime: u32)

  /** The state after a call of update_game, and whether it asked for a vibration. */
  datatype Outcome = Outcome(state: State, vibrate: bool)

  /** One pass of the main loop's input: the event the queue delivered, if any, and the tick counter. */
  datatype Frame = Frame(event: Option<InputEvent>, now: u32)

  function Min(a: int, b: int): int { if a <= b then a else b }

  /** Whether a world position is one of the two ends of the map. */
  predicate AtWorldEdge(x: int) { x == 0 || x == MAX_WORLD_X }

  /** The state panis_main starts the loop from (bread.c:242-250). */
  function Init(): (s: State)
    ensures s.worldX == s.cameraX + s.screenX
    ensures s.onGround && s.yPos == GROUND_POS && s.yVelocity == 0
  {
    State(CHAR_START_X, CHAR_START_X, 0, true, true, GROUND_POS, 0, true, 0)
  }

  /** Milliseconds between two tick readings, as uint32 subtraction computes them. */
  function Elapsed(now: u32, last: u32): (d: u32)
    ensures now >= last ==> d == now - last
    ensures now < last ==> d == now + TICK_MODULUS - last
  {
    (now - last) % TICK_MODULUS
  }

  /** The right-key branch of update_game after facing has been set (bread.c:161-189). */
  function MoveRight(s: State): (r: State)
    ensures r.(worldX := s.worldX, screenX := s.screenX, cameraX := s.cameraX) == s
    ensures s.worldX <= r.worldX <= s.worldX + MOVEMENT_SPEED
    ensures s.worldX <= MAX_WORLD_X ==> r.worldX <= MAX_WORLD_X
    ensures s.cameraX <= MAX_CAMERA_X ==> s.cameraX <= r.cameraX <= MAX_CAMERA_X
  {
    if s.worldX < MAX_WORLD_X then
      var t :=
        if s.screenX >= START_SCROLL_X && s.cameraX < MAX_CAMERA_X then
          var cam := s.cameraX + MOVEMENT_SPEED;
          var s1 := s.(cameraX := cam, worldX := s.worldX + MOVEMENT_SPEED);
          if cam > MAX_CAMERA_X then
            s1.(cameraX := MAX_CAMERA_X, screenX := s.screenX + (cam - MAX_CAMERA_X))
          else s1
        else
          var scr := s.screenX + MOVEMENT_SPEED;
          s.(screenX := if scr > MAX_SCREEN_X then MAX_SCREEN_X else scr,
             worldX := s.worldX + MOVEMENT_SPEED);
      if t.worldX > MAX_WORLD_X then t.(worldX := MAX_WORLD_X) else t
    else s
  }

  /** The left-key branch of update_game after facing has been set (bread.c:195-222). */
  function MoveLeft(s: State): (r: State)
    ensures r.(worldX := s.worldX, screenX := s.screenX, cameraX := s.cameraX) == s
    ensures s.worldX - MOVEMENT_SPEED <= r.worldX <= s.worldX
    ensures 0 <= s.worldX ==> 0 <= r.worldX
    ensures 0 <= s.cameraX ==> 0 <= r.cameraX <= s.cameraX
  {
    if s.worldX > 0 then
      var t :=
        if s.screenX <= START_SCROLL_X && s.cameraX > 0 then
          var cam := s.cameraX - MOVEMENT_SPEED;
          var s1 := s.(cameraX := cam, worldX := s.worldX - MOVEMENT_SPEED);
          if cam < 0 then
            s1.(cameraX := 0, screenX := s.screenX - (-cam))
          else s1
        else
          var scr := s.screenX - MOVEMENT_SPEED;
          s.(screenX := if scr < 0 then 0 else scr,
             worldX := s.worldX - MOVEMENT_SPEED);
      if t.worldX < 0 then t.(worldX := 0) else t
    else s
  }

  /**
   * update_game (bread.c:155-231): sets the facing from the key, moves the
   * character or scrolls the camera by one step, and reports a vibration when
   * the character has just arrived at an end of the map.
   */
  function UpdateGame(s: State, key: InputKey): (r: Outcome)
    ensures key == Right ==> r.state.facingRight
    ensures key == Left ==> !r.state.facingRight
    ensures key != Right && key != Left ==> r == Outcome(s, false)
    ensures r.state.(worldX := s.worldX, screenX := s.screenX, cameraX := s.cameraX, facingRight := s.facingRight) == s
    ensures 0 <= s.worldX <= MAX_WORLD_X && 0 <= s.cameraX <= MAX_CAMERA_X ==>
              0 <= r.state.worldX <= MAX_WORLD_X && 0 <= r.state.cameraX <= MAX_CAMERA_X &&
              -MOVEMENT_SPEED <= r.state.worldX - s.worldX <= MOVEMENT_SPEED
  {
    var moved :=
      if key == Right then MoveRight(s.(facingRight := true))
      else if key == Left then MoveLeft(s.(facingRight := false))
      else s;
    Outcome(moved, moved.worldX != s.worldX && AtWorldEdge(moved.worldX))
  }

  /**
   * update_physics (bread.c:120-138): gravity with a capped fall speed while
   * airborne, then the position update and the snap to the ground line.
   */
  function UpdatePhysics(s: State): (r: State)
    ensures r.yPos <= GROUND_POS
    ensures r.onGround <==> r.yPos == GROUND_POS
    ensures r.onGround ==> r.yVelocity == 0
    ensures r.(yPos := s.yPos, yVelocity := s.yVelocity, onGround := s.onGround) == s
  {
    var v := if s.onGround then s.yVelocity else Min(s.yVelocity + GRAVITY, MAX_FALL_SPEED);
    var y := s.yPos + v;
    if y >= GROUND_POS then s.(yPos := GROUND_POS, yVelocity := 0, onGround := true)
    else s.(yPos := y, yVelocity := v, onGround := false)
  }

  /**
   * handle_jump (bread.c:141-152): on the ground, a press less than
   * DOUBLE_CLICK_MS after the previous one gives the big jump, otherwise the
   * small one; in the air the press is ignored.
   */
  function HandleJump(s: State, now: u32): (r: State)
    ensures !s.onGround ==> r == s
    ensures s.onGround ==> !r.onGround && r.lastJumpTime == now
    ensures s.onGround ==> (r.yVelocity == BIG_JUMP_VELOCITY <==> Elapsed(now, s.lastJumpTime) < DOUBLE_CLICK_MS)
    ensures s.onGround ==> (r.yVelocity == SMALL_JUMP_VELOCITY <==> Elapsed(now, s.lastJumpTime) >= DOUBLE_CLICK_MS)
    ensures r.(yVelocity := s.yVelocity, onGround := s.onGround, lastJumpTime := s.lastJumpTime) == s
  {
    if s.onGround then
      var doubleClick := Elapsed(now, s.lastJumpTime) < DOUBLE_CLICK_MS;
      s.(yVelocity := if doubleClick then BIG_JUMP_VELOCITY else SMALL_JUMP_VELOCITY,
         lastJumpTime := now,
         onGround := false)
    else s
  }

  predicate IsBackPress(e: InputEvent) { e.key == Back && e.kind == Press }
  predicate IsJumpPress(e: InputEvent) { e.key == Up && e.kind == Press }
  predicate IsMove(e: InputEvent) { (e.kind == Press || e.kind == Repeat) && (e.key == Left || e.key == Right) }

  /**
   * One pass of the main loop's body (bread.c:266-288): a Back press stops the
   * game without a physics tick; any other frame applies at most one input
   * action and then exactly one physics tick.
   */
  function Step(s: State, f: Frame): (r: Outcome)
    ensures f.event.Some? && IsBackPress(f.event.value) ==> r == Outcome(s.(running := false), false)
    ensures f.event.None? ==> r == Outcome(UpdatePhysics(s), false)
    ensures !(f.event.Some? && IsBackPress(f.event.value)) ==> r.state.running == s.running && r.state.yPos <= GROUND_POS
    // dispatch: an Up press jumps, a Left/Right press or repeat moves, anything else only ticks
    ensures f.event.Some? && IsJumpPress(f.event.value) ==>
              r == Outcome(UpdatePhysics(HandleJump(s, f.now)), false)
    ensures f.event.Some? && IsMove(f.event.value) ==>
              r == Outcome(UpdatePhysics(UpdateGame(s, f.event.value.key).state), UpdateGame(s, f.event.value.key).vibrate)
    ensures f.event.Some? && !IsBackPress(f.event.value) && !IsJumpPress(f.event.value) && !IsMove(f.event.value) ==>
              r == Outcome(UpdatePhysics(s), false)
  {
    match f.event
    case None => Outcome(UpdatePhysics(s), false)
    case Some(e) =>
      if IsBackPress(e) then Outcome(s.(running := false), false)
      else
        var jumped := if IsJumpPress(e) then HandleJump(s, f.now) else s;
        var moved := if IsMove(e) then UpdateGame(jumped, e.key) else Outcome(jumped, false);
        Outcome(UpdatePhysics(moved.state), moved.vibrate)
  }

  /**
   * The main loop over a finite stream of frames: it stops once running is
   * false or the frames run out, and collects the vibration requests.
   */
  function Run(s: State, frames: seq<Frame>): (r: (State, seq<bool>))
    ensures |r.1| <= |frames|
    ensures !s.running ==> r == (s, [])
    decreases |frames|
  {
    if !s.running || frames == [] then (s, [])
    else
      var o := Step(s, frames[0]);
      var rest := Run(o.state, frames[1..]);
      (rest.0, [o.vibrate] + rest.1)
  }

  /** C's int division, which truncates toward zero, for a positive divisor. */
  function CDiv(a: int, b: int): (q: int)
    requires b > 0
    ensures a >= 0 ==> q * b <= a < q * b + b
    ensures a < 0 ==> q * b - b < a <= q * b
  {
    if a >= 0 then a / b else -((-a) / b)
  }

  /** The background tiles draw_callback draws for a camera offset (bread.c:58-63). */
  function VisibleTiles(cameraX: int): (r: (int, int))
    ensures 0 <= r.0 && r.1 < NUM_TILES
    ensures 0 <= cameraX ==> r.0 * TILE_WIDTH <= cameraX && r.1 * TILE_WIDTH <= cameraX + SCREEN_WIDTH
  {
    var first := CDiv(cameraX, TILE_WIDTH);
    var last := CDiv(cameraX + SCREEN_WIDTH, TILE_WIDTH);
    (if first < 0 then 0 else first, if last >= NUM_TILES then NUM_TILES - 1 else last)
  }
}
