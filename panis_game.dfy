/**
 * The game state of bread.c as a mutable object: the routines update its
 * fields in place, in the order the C code does, and each is proved to
 * produce the state its specification function in PanisModel describes.
 */
module PanisGame {
  import opened PanisModel
  import opened PanisProps

  class GameState {
    var worldX: int
    var screenX: int
    var cameraX: int
    var facingRight: bool
    var running: bool
    var yPos: int
    var yVelocity: int
    var onGround: bool
    var lastJumpTime: u32

    /** The current field values as a value of the specification's State. */
    function Snapshot(): State
      reads this
    {
      State(worldX, screenX, cameraX, facingRight, running, yPos, yVelocity, onGround, lastJumpTime)
    }

    /** The initialisation in panis_main (bread.c:242-250). */
    constructor ()
      ensures Snapshot() == Init()
    {
      worldX := CHAR_START_X;
      screenX := CHAR_START_X;
      cameraX := 0;
      facingRight := true;
      running := true;
      yPos := GROUND_Y - CHAR_HEIGHT;
      yVelocity := 0;
      onGround := true;
      lastJumpTime := 0;
    }

    /** update_game (bread.c:155-231); the vibration request is returned. */
    method UpdateGame(key: InputKey) returns (vibrate: bool)
      modifies this
      ensures Outcome(Snapshot(), vibrate) == PanisModel.UpdateGame(old(Snapshot()), key)
      ensures Coupled(old(Snapshot())) ==> Coupled(Snapshot())
    {
      ghost var s0 := Snapshot();
      if Coupled(s0) {
        MoveKeepsCoupled(s0, key);
      }
      var oldWorldX := worldX;
      if key == Right {
        facingRight := true;
        MoveRight();
      } else if key == Left {
        facingRight := false;
        MoveLeft();
      }
      vibrate := oldWorldX != worldX && (worldX == 0 || worldX == TOTAL_MAP_WIDTH - CHAR_WIDTH);
    }

    /** The right-key branch of update_game after the facing is set (bread.c:161-189). */
    method MoveRight()
      modifies this
      ensures Snapshot() == PanisModel.MoveRight(old(Snapshot()))
    {
      if worldX < TOTAL_MAP_WIDTH - CHAR_WIDTH {
        if screenX >= START_SCROLL_X && cameraX < TOTAL_MAP_WIDTH - SCREEN_WIDTH {
          // scroll the world
          cameraX := cameraX + MOVEMENT_SPEED;
          worldX := worldX + MOVEMENT_SPEED;
          if cameraX > TOTAL_MAP_WIDTH - SCREEN_WIDTH {
            var overflow := cameraX - (TOTAL_MAP_WIDTH - SCREEN_WIDTH);
            cameraX := TOTAL_MAP_WIDTH - SCREEN_WIDTH;
            screenX := screenX + overflow;
          }
        } else {
          // move the character on screen
          screenX := screenX + MOVEMENT_SPEED;
          worldX := worldX + MOVEMENT_SPEED;
          if screenX > SCREEN_WIDTH - CHAR_WIDTH {
            screenX := SCREEN_WIDTH - CHAR_WIDTH;
          }
        }
        if worldX > TOTAL_MAP_WIDTH - CHAR_WIDTH {
          worldX := TOTAL_MAP_WIDTH - CHAR_WIDTH;
        }
      }
    }

    /** The left-key branch of update_game after the facing is set (bread.c:195-222). */
    method MoveLeft()
      modifies this
      ensures Snapshot() == PanisModel.MoveLeft(old(Snapshot()))
    {
      if worldX > 0 {
        if screenX <= START_SCROLL_X && cameraX > 0 {
          // scroll the world back
          cameraX := cameraX - MOVEMENT_SPEED;
          worldX := worldX - MOVEMENT_SPEED;
          if cameraX < 0 {
            var overflow := -cameraX;
            cameraX := 0;
            screenX := screenX - overflow;
          }
        } else {
          // move the character on screen
          screenX := screenX - MOVEMENT_SPEED;
          worldX := worldX - MOVEMENT_SPEED;
          if screenX < 0 {
            screenX := 0;
          }
        }
        if worldX < 0 {
          worldX := 0;
        }
      }
    }

    /** update_physics (bread.c:120-138). */
    method UpdatePhysics()
      modifies this
      ensures Snapshot() == PanisModel.UpdatePhysics(old(Snapshot()))
      ensures yPos <= GROUND_POS && (onGround <==> yPos == GROUND_POS) && (onGround ==> yVelocity == 0)
      ensures Vertical(old(Snapshot())) ==> Vertical(Snapshot())
    {
      ghost var s0 := Snapshot();
      if Vertical(s0) {
        PhysicsKeepsVertical(s0);
      }
      if !onGround {
        yVelocity := yVelocity + GRAVITY;
        if yVelocity > MAX_FALL_SPEED {
          yVelocity := MAX_FALL_SPEED;
        }
      }
      yPos := yPos + yVelocity;
      var groundPos := GROUND_Y - CHAR_HEIGHT;
      if yPos >= groundPos {
        yPos := groundPos;
        yVelocity := 0;
        onGround := true;
      } else {
        onGround := false;
      }
    }

    /** handle_jump (bread.c:141-152), with the tick counter passed in as now. */
    method HandleJump(now: u32)
      modifies this
      ensures Snapshot() == PanisModel.HandleJump(old(Snapshot()), now)
      ensures old(onGround) ==>
                (lastJumpTime == now && !onGround &&
                 (yVelocity == BIG_JUMP_VELOCITY <==> Elapsed(now, old(lastJumpTime)) < DOUBLE_CLICK_MS))
      ensures !old(onGround) ==> unchanged(this)
    {
      if onGround {
        var currentTime := now;
        var isDoubleClick := (currentTime - lastJumpTime) % TICK_MODULUS < DOUBLE_CLICK_MS;
        yVelocity := if isDoubleClick then BIG_JUMP_VELOCITY else SMALL_JUMP_VELOCITY;
        lastJumpTime := currentTime;
        onGround := false;
      }
    }

    /** One pass of the main loop's body (bread.c:266-288), with the dequeued event, if any, and the tick counter. */
    method Step(f: Frame) returns (vibrate: bool)
      modifies this
      ensures Outcome(Snapshot(), vibrate) == PanisModel.Step(old(Snapshot()), f)
      ensures Reachable(old(Snapshot())) ==> Reachable(Snapshot())
    {
      ghost var s0 := Snapshot();
      if Reachable(s0) {
        StepKeepsReachable(s0, f);
      }
      vibrate := false;
      if f.event.Some? {
        var event := f.event.value;
        if event.key == Back && event.kind == Press {
          running := false;
          return;
        }
        if event.key == Up {
          if event.kind == Press {
            HandleJump(f.now);
          }
        }
        if (event.kind == Press || event.kind == Repeat) && (event.key == Left || event.key == Right) {
          vibrate := UpdateGame(event.key);
        }
      }
      UpdatePhysics();
    }

    /**
     * The main loop of panis_main (bread.c:264-292) over the frames the
     * input queue delivers; it returns the vibration request of each pass.
     */
    method Run(frames: seq<Frame>) returns (buzzes: seq<bool>)
      modifies this
      ensures (Snapshot(), buzzes) == PanisModel.Run(old(Snapshot()), frames)
      ensures Reachable(old(Snapshot())) ==> Reachable(Snapshot())
    {
      ghost var s0 := Snapshot();
      ghost var whole := PanisModel.Run(s0, frames);
      if Reachable(s0) {
        RunKeepsReachable(s0, frames);
      }
      buzzes := [];
      var i := 0;
      assert frames[i..] == frames;
      while running && i < |frames|
        invariant 0 <= i <= |frames|
        invariant whole.0 == PanisModel.Run(Snapshot(), frames[i..]).0
        invariant whole.1 == buzzes + PanisModel.Run(Snapshot(), frames[i..]).1
        decreases |frames| - i
      {
        RunAdvances(whole, buzzes, Snapshot(), frames[i..]);
        var vibrate := Step(frames[i]);
        assert frames[i..][1..] == frames[i + 1..];
        buzzes := buzzes + [vibrate];
        i := i + 1;
      }
      assert i == |frames| ==> frames[i..] == [];
      assert PanisModel.Run(Snapshot(), frames[i..]) == (Snapshot(), []);
      assert buzzes + [] == buzzes;
    }
  }
}
