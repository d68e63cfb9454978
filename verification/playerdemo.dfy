/** demo/player.py: the player of the demos, whose gravity is half a pixel per update and who
    also moves with the arrow keys and is held on the screen. demo/player_boulders.py defines
    an identical copy of the class, used with a different jump power.

    The source keeps the vertical velocity as a float that is a multiple of 0.5; here it is
    the whole number of half-pixels, so gravity is one unit and a jump power of P pixels is a
    launch velocity of 2P units. `toPixels` is pygame's conversion of a move_ip offset given in
    half-pixels to whole pixels. */
module PlayerDemo {
  import opened Geometry
  import opened Input
  import Jump

  const PLAYER_SPEED: int := 4
  const PLAYER_JUMP_POWER: int := 20
  const PLAYER_START_LEFT: int := 50

  /** The arrow moves of Player.update: Down, Left and Right each shift the box by `speed`
      pixels on their axis; Up is only read by the jump logic. */
  function Arrows(r: Rect, keys: Keys, speed: int): (m: Rect)
    ensures m.w == r.w && m.h == r.h
    ensures m.x == r.x + (if keys.right then speed else 0) - (if keys.left then speed else 0)
    ensures m.y == r.y + (if keys.down then speed else 0)
  {
    var d := if keys.down then r.Move(0, speed) else r;
    var l := if keys.left then d.Move(-speed, 0) else d;
    if keys.right then l.Move(speed, 0) else l
  }

  /** The bounds check that ends Player.update: left, right, top and bottom, in that order. */
  function Clamp(r: Rect): (c: Rect)
    ensures c.w == r.w && c.h == r.h
    ensures r.w <= SCREEN_WIDTH ==> 0 <= c.Left() && c.Right() <= SCREEN_WIDTH
    ensures r.h <= SCREEN_HEIGHT ==> 0 <= c.Top() && c.Bottom() <= SCREEN_HEIGHT
    // a box already on the screen is left where it is
    ensures 0 <= r.Left() && r.Right() <= SCREEN_WIDTH && 0 <= r.Top() && r.Bottom() <= SCREEN_HEIGHT ==>
      c == r
    // a box too wide or too tall for the screen ends flush with the right or bottom edge
    ensures SCREEN_WIDTH < r.w ==> c.Right() == SCREEN_WIDTH
    ensures SCREEN_HEIGHT < r.h ==> c.Bottom() == SCREEN_HEIGHT
    // a box that fits and reaches the bottom edge or beyond ends on it
    ensures r.h <= SCREEN_HEIGHT && SCREEN_HEIGHT <= r.Bottom() ==> c.Bottom() == SCREEN_HEIGHT
    // each check moves the box onto the edge it crossed, and only along its own axis
    ensures r.Left() < 0 && r.w <= SCREEN_WIDTH ==> c.Left() == 0
    ensures SCREEN_WIDTH < r.Right() ==> c.Right() == SCREEN_WIDTH
    ensures r.Top() <= 0 && r.h <= SCREEN_HEIGHT ==> c.Top() == 0
    ensures 0 <= r.Left() && r.Right() <= SCREEN_WIDTH ==> c.x == r.x
    ensures 0 < r.Top() && r.Bottom() < SCREEN_HEIGHT ==> c.y == r.y
  {
    var a := if r.Left() < 0 then r.WithLeft(0) else r;
    var b := if a.Right() > SCREEN_WIDTH then a.WithRight(SCREEN_WIDTH) else a;
    var c := if b.Top() <= 0 then b.WithTop(0) else b;
    if c.Bottom() >= SCREEN_HEIGHT then c.WithBottom(SCREEN_HEIGHT) else c
  }

  /** Clamping twice is clamping once, whatever the size of the box. */
  lemma ClampIdempotent(r: Rect)
    ensures Clamp(Clamp(r)) == Clamp(r)
  {
  }

  /** One whole Player.update: the jump step (launch power in half-pixels), then the arrow
      moves, then the clamp; the clamp touches the box only, never the jump state. */
  function Updated(b: Jump.Body, keys: Keys, power: int, speed: int, toPixels: int -> int): (r: Jump.Body)
    ensures r.jumping == Jump.Step(b, keys.up, power, toPixels).jumping
    ensures r.velocity == Jump.Step(b, keys.up, power, toPixels).velocity
    ensures r.rect == Clamp(Arrows(Jump.Step(b, keys.up, power, toPixels).rect, keys, speed))
  {
    var j := Jump.Step(b, keys.up, power, toPixels);
    j.(rect := Clamp(Arrows(j.rect, keys, speed)))
  }

  class Player {
    var rect: Rect
    var isJumping: bool
    /** vertical_velocity, in half-pixels. */
    var velocity: int
    /** Whether the sprite is still in its groups (pygame's Sprite.alive()). */
    var alive: bool
    /** jump_power, in pixels. */
    const jumpPower: int
    const speed: int

    /** Player.__init__(jump_power): standing on the ground, 50 pixels from the left edge. */
    constructor (jumpPower: int, image: Size)
      ensures rect == AnchoredBottomLeft(image, PLAYER_START_LEFT, SCREEN_HEIGHT)
      ensures !isJumping && velocity == 0 && alive
      ensures this.jumpPower == jumpPower && speed == PLAYER_SPEED
      ensures Jump.Grounded(Body())
    {
      isJumping := false;
      velocity := 0;
      this.jumpPower := jumpPower;
      speed := PLAYER_SPEED;
      rect := AnchoredBottomLeft(image, PLAYER_START_LEFT, SCREEN_HEIGHT);
      alive := true;
    }

    function Body(): Jump.Body
      reads this
    {
      Jump.Body(rect, isJumping, velocity)
    }

    /** Player.update(pressed_keys): the jump, then the arrow moves, then the bounds check. */
    method Update(keys: Keys, toPixels: int -> int)
      modifies this
      ensures Body() == Updated(old(Body()), keys, 2 * jumpPower, speed, toPixels)
      ensures alive == old(alive)
    {
      JumpStep(keys.up, toPixels);
      MoveByKeys(keys);
      KeepOnScreen();
    }

    /** The jump part of Player.update, with velocities in half-pixels and gravity one unit. */
    method JumpStep(up: bool, toPixels: int -> int)
      modifies this`rect, this`isJumping, this`velocity
      ensures Body() == Jump.Step(old(Body()), up, 2 * jumpPower, toPixels)
    {
      if up && !isJumping {
        isJumping := true;
        velocity := 2 * jumpPower;
      }
      if isJumping {
        rect := rect.Move(0, toPixels(-velocity));
        velocity := velocity - 1;
        if rect.Bottom() >= SCREEN_HEIGHT {
          rect := rect.WithBottom(SCREEN_HEIGHT);
          isJumping := false;
          velocity := 0;
        }
      }
    }

    /** The Down, Left and Right moves of Player.update. */
    method MoveByKeys(keys: Keys)
      modifies this`rect
      ensures rect == Arrows(old(rect), keys, speed)
    {
      if keys.down {
        rect := rect.Move(0, speed);
      }
      if keys.left {
        rect := rect.Move(-speed, 0);
      }
      if keys.right {
        rect := rect.Move(speed, 0);
      }
    }

    /** The bounds check that ends Player.update. */
    method KeepOnScreen()
      modifies this`rect
      ensures rect == Clamp(old(rect))
    {
      if rect.Left() < 0 {
        rect := rect.WithLeft(0);
      }
      if rect.Right() > SCREEN_WIDTH {
        rect := rect.WithRight(SCREEN_WIDTH);
      }
      if rect.Top() <= 0 {
        rect := rect.WithTop(0);
      }
      if rect.Bottom() >= SCREEN_HEIGHT {
        rect := rect.WithBottom(SCREEN_HEIGHT);
      }
    }

    /** sprite.kill(): the player leaves its groups. */
    method Kill()
      modifies this
      ensures !alive && Body() == old(Body())
    {
      alive := false;
    }
  }

  /** Whether a box lies within the 900 x 600 screen. */
  predicate OnScreen(r: Rect)
  {
    0 <= r.Left() && r.Right() <= SCREEN_WIDTH && 0 <= r.Top() && r.Bottom() <= SCREEN_HEIGHT
  }

  /** After every update a player whose image fits the screen is on the screen, the size is
      unchanged, a player at rest when not jumping stays so, and (for a non-negative speed)
      so does a player on the ground when not jumping. */
  lemma UpdateKeepsPlayerOnScreen(b: Jump.Body, keys: Keys, power: int, speed: int, toPixels: int -> int)
    requires b.rect.w <= SCREEN_WIDTH && b.rect.h <= SCREEN_HEIGHT
    ensures var r := Updated(b, keys, power, speed, toPixels);
      OnScreen(r.rect) && r.rect.w == b.rect.w && r.rect.h == b.rect.h &&
      (Jump.AtRest(b) ==> Jump.AtRest(r)) &&
      (0 <= speed && Jump.StandsOnGround(b) ==> Jump.StandsOnGround(r))
  {
    var j := Jump.Step(b, keys.up, power, toPixels);
    var m := Arrows(j.rect, keys, speed);
    assert m.w == b.rect.w && m.h == b.rect.h;
    if 0 <= speed && Jump.StandsOnGround(b) && !j.jumping {
      assert SCREEN_HEIGHT <= m.Bottom();
    }
  }

  /** Down on the ground is undone by the clamp: standing still or pressing Down leaves a
      grounded player, on the screen, where it was. */
  lemma DownOnGroundIsUndone(b: Jump.Body, power: int, speed: int, toPixels: int -> int)
    requires Jump.Grounded(b) && OnScreen(b.rect) && 0 <= speed
    ensures Updated(b, Keys(false, true, false, false), power, speed, toPixels) == b
  {
  }

  /** The jump updates in sequence, one key state per update. */
  function Run(b: Jump.Body, keys: seq<Keys>, power: int, speed: int, toPixels: int -> int): Jump.Body
  {
    if keys == [] then b
    else Updated(Run(b, keys[..|keys| - 1], power, speed, toPixels), keys[|keys| - 1], power, speed, toPixels)
  }

  /** The Up states of a sequence of key states. */
  function Ups(keys: seq<Keys>): (ups: seq<bool>)
    ensures |ups| == |keys|
    ensures forall i :: 0 <= i < |keys| ==> ups[i] == keys[i].up
  {
    if keys == [] then [] else Ups(keys[..|keys| - 1]) + [keys[|keys| - 1].up]
  }

  /** The vertical part of a body: what the jump logic reads and writes. */
  function Vertical(b: Jump.Body): (int, nat, bool, int)
  {
    (b.rect.y, b.rect.h, b.jumping, b.velocity)
  }

  /** The jump logic reads only the vertical part of a body, and keeps x. */
  lemma StepIsVertical(b1: Jump.Body, b2: Jump.Body, up: bool, power: int, toPixels: int -> int)
    requires Vertical(b1) == Vertical(b2)
    ensures Vertical(Jump.Step(b1, up, power, toPixels)) == Vertical(Jump.Step(b2, up, power, toPixels))
  {
  }

  /** Without Down, an update whose jump step leaves the box between the top and the bottom
      of the screen moves it vertically exactly as the jump logic alone does. */
  lemma UpdatedIsJump(b: Jump.Body, keys: Keys, power: int, speed: int, toPixels: int -> int)
    requires !keys.down
    requires 0 <= Jump.Step(b, keys.up, power, toPixels).rect.Top()
    requires Jump.Step(b, keys.up, power, toPixels).rect.Bottom() <= SCREEN_HEIGHT
    ensures Vertical(Updated(b, keys, power, speed, toPixels)) == Vertical(Jump.Step(b, keys.up, power, toPixels))
  {
  }

  /** A jump that fits under the top of the screen keeps the box between the top and the
      ground line on every update up to and including the landing. */
  lemma ArcOnScreen(b: Jump.Body, ups: seq<bool>, power: int, toPixels: int -> int)
    requires Jump.Grounded(b)
    requires Jump.FairConversion(toPixels) && 0 < power && 0 < toPixels(power)
    requires 1 <= |ups| <= 2 * power + 1 && ups[0]
    requires forall k :: 1 <= k <= 2 * power ==> Jump.Lift(power, toPixels, k) <= b.rect.Top()
    ensures 0 <= Jump.Run(b, ups, power, toPixels).rect.Top()
    ensures Jump.Run(b, ups, power, toPixels).rect.Bottom() <= SCREEN_HEIGHT
  {
    if |ups| <= 2 * power {
      Jump.Arc(b, ups, power, toPixels);
      Jump.LiftShape(power, toPixels, |ups|);
    } else {
      Jump.Lands(b, ups, power, toPixels);
    }
  }

  /** Without Down, and as long as the jump stays below the top of the screen, the arrow moves
      and the clamp leave the vertical motion to the jump logic alone. */
  lemma {:induction false} RunFollowsJump(b: Jump.Body, keys: seq<Keys>, power: int, speed: int, toPixels: int -> int)
    requires Jump.Grounded(b)
    requires Jump.FairConversion(toPixels) && 0 < power && 0 < toPixels(power)
    requires 1 <= |keys| <= 2 * power + 1 && keys[0].up
    requires forall i :: 0 <= i < |keys| ==> !keys[i].down
    requires forall k :: 1 <= k <= 2 * power ==> Jump.Lift(power, toPixels, k) <= b.rect.Top()
    ensures Vertical(Run(b, keys, power, speed, toPixels)) == Vertical(Jump.Run(b, Ups(keys), power, toPixels))
  {
    var n := |keys| - 1;
    var ups := Ups(keys);
    assert ups[0] == keys[0].up && ups[n] == keys[n].up;
    assert Ups(keys[..n]) == ups[..n];
    var before := Run(b, keys[..n], power, speed, toPixels);
    var jumped := Jump.Run(b, ups[..n], power, toPixels);
    if n == 0 {
      assert before == b && jumped == b;
    } else {
      assert keys[..n][0] == keys[0];
      RunFollowsJump(b, keys[..n], power, speed, toPixels);
    }
    assert Jump.Run(b, ups, power, toPixels) == Jump.Step(jumped, keys[n].up, power, toPixels);
    ArcOnScreen(b, ups, power, toPixels);
    StepIsVertical(before, jumped, keys[n].up, power, toPixels);
    UpdatedIsJump(before, keys[n], power, speed, toPixels);
  }

  /** A jump of the demo player with a jump power of J pixels, that is 2J half-pixels: begun
      on the ground, without Down and below the top of the screen, it is airborne for 4J
      updates and the update 4J + 1 puts the box back at the height it started from, whatever
      Left and Right do meanwhile. */
  lemma {:induction false} JumpLands(b: Jump.Body, keys: seq<Keys>, jumpPower: int, toPixels: int -> int)
    requires Jump.Grounded(b) && 0 < jumpPower
    requires Jump.FairConversion(toPixels) && 0 < toPixels(2 * jumpPower)
    requires |keys| == 4 * jumpPower + 1 && keys[0].up
    requires forall i :: 0 <= i < |keys| ==> !keys[i].down
    requires forall k :: 1 <= k <= 4 * jumpPower ==> Jump.Lift(2 * jumpPower, toPixels, k) <= b.rect.Top()
    ensures forall k :: 1 <= k < |keys| ==>
      Run(b, keys[..k], 2 * jumpPower, PLAYER_SPEED, toPixels).jumping
    ensures var e := Run(b, keys, 2 * jumpPower, PLAYER_SPEED, toPixels);
      !e.jumping && e.velocity == 0 && e.rect.y == b.rect.y
  {
    var power := 2 * jumpPower;
    forall k | 1 <= k < |keys|
      ensures Run(b, keys[..k], power, PLAYER_SPEED, toPixels).jumping
    {
      assert keys[..k][0] == keys[0];
      RunFollowsJump(b, keys[..k], power, PLAYER_SPEED, toPixels);
      var ups := Ups(keys[..k]);
      assert ups[0] == keys[0].up;
      Jump.Arc(b, ups, power, toPixels);
    }
    RunFollowsJump(b, keys, power, PLAYER_SPEED, toPixels);
    var ups := Ups(keys);
    assert ups[0] == keys[0].up;
    Jump.Lands(b, ups, power, toPixels);
  }

  /** The jump of demo/player.py, jump power 20: airborne for 80 updates, back at its starting
      height on update 81. */
  lemma DemoJumpLands(b: Jump.Body, keys: seq<Keys>, toPixels: int -> int)
    requires Jump.Grounded(b)
    requires Jump.FairConversion(toPixels) && 0 < toPixels(2 * PLAYER_JUMP_POWER)
    requires |keys| == 81 && keys[0].up
    requires forall i :: 0 <= i < |keys| ==> !keys[i].down
    requires forall k :: 1 <= k <= 80 ==> Jump.Lift(2 * PLAYER_JUMP_POWER, toPixels, k) <= b.rect.Top()
    ensures forall k :: 1 <= k <= 80 ==>
      Run(b, keys[..k], 2 * PLAYER_JUMP_POWER, PLAYER_SPEED, toPixels).jumping
    ensures var e := Run(b, keys, 2 * PLAYER_JUMP_POWER, PLAYER_SPEED, toPixels);
      !e.jumping && e.velocity == 0 && e.rect.y == b.rect.y
  {
    JumpLands(b, keys, PLAYER_JUMP_POWER, toPixels);
  }
}
