/** The jump-and-gravity state machine shared by the players of game.py, demo/player.py and
    demo/player_boulders.py: an Up press starts a jump from the ground, every airborne update
    moves the box up by the velocity and then lets gravity take one unit off the velocity,
    and a box whose bottom reaches the ground line lands.

    Velocities are counted in units of gravity: pixels in game.py (gravity 1), half-pixels in
    the demos (gravity 0.5). `toPixels` is how pygame turns a vertical offset, given in those
    units, into the whole pixels that move_ip applies; game.py uses the identity. */
module Jump {
  import opened Geometry

  /** The ground line the player stands on: the bottom of the screen. */
  const GROUND: int := SCREEN_HEIGHT

  /** The part of a player that the jump logic reads and writes. */
  datatype Body = Body(rect: Rect, jumping: bool, velocity: int)

  /** The invariant kept from construction onward: a player that is not jumping has no velocity. */
  predicate AtRest(b: Body)
  {
    !b.jumping ==> b.velocity == 0
  }

  /** The other half of that invariant: a player that is not jumping stands on the ground line. */
  predicate StandsOnGround(b: Body)
  {
    !b.jumping ==> b.rect.Bottom() == GROUND
  }

  /** Standing on the ground at rest, ready to jump. */
  predicate Grounded(b: Body)
  {
    !b.jumping && b.velocity == 0 && b.rect.Bottom() == GROUND
  }

  /** Whether this update moves the box: it is already jumping, or Up starts a jump. */
  predicate Airborne(b: Body, up: bool)
  {
    up || b.jumping
  }

  /** The velocity this update moves by: the jump power when Up starts a jump, else the current one. */
  function Launch(b: Body, up: bool, power: int): int
  {
    if up && !b.jumping then power else b.velocity
  }

  /** One pass over the jump part of Player.update. */
  function Step(b: Body, up: bool, power: int, toPixels: int -> int): (r: Body)
    // only the vertical position changes
    ensures r.rect.x == b.rect.x && r.rect.w == b.rect.w && r.rect.h == b.rect.h
    // with Up released and no jump under way nothing changes
    ensures !Airborne(b, up) ==> r == b
    // the invariant is kept
    ensures AtRest(b) ==> AtRest(r)
    ensures StandsOnGround(b) ==> StandsOnGround(r)
    // an airborne update lands exactly when the moved box reaches the ground line
    ensures Airborne(b, up) ==>
      (r.jumping <==> b.rect.Bottom() + toPixels(-Launch(b, up, power)) < GROUND)
    // still in the air: moved up by the velocity, which gravity then lowers by one unit
    ensures Airborne(b, up) && r.jumping ==>
      r.rect.y == b.rect.y + toPixels(-Launch(b, up, power)) &&
      r.velocity == Launch(b, up, power) - 1
    // landed: bottom snapped to the ground line, at rest
    ensures Airborne(b, up) && !r.jumping ==>
      r.rect.Bottom() == GROUND && r.velocity == 0
  {
    if !Airborne(b, up) then b
    else
      var v := Launch(b, up, power);
      var moved := b.rect.Move(0, toPixels(-v));
      if moved.Bottom() >= GROUND then Body(moved.WithBottom(GROUND), false, 0)
      else Body(moved, true, v - 1)
  }

  /** Up is read only on the ground: while a jump is under way, holding Up changes nothing,
      and pressing it on the ground is the same as being launched with the jump power. */
  lemma UpOnlyLaunchesFromGround(b: Body, power: int, toPixels: int -> int)
    ensures b.jumping ==> Step(b, true, power, toPixels) == Step(b, false, power, toPixels)
    ensures !b.jumping ==>
      Step(b, true, power, toPixels) == Step(b.(jumping := true, velocity := power), false, power, toPixels)
  {
  }

  /** Assumptions on pygame's conversion of an offset to pixels: it is odd (an offset and its
      negation move by opposite amounts) and does not turn a non-negative offset negative.
      Truncation, and rounding with ties resolved symmetrically, both qualify. */
  ghost predicate FairConversion(toPixels: int -> int)
  {
    (forall x :: toPixels(-x) == -toPixels(x)) &&
    (forall x :: 0 <= x ==> 0 <= toPixels(x))
  }

  /** Height above the launch point after k airborne updates of a jump launched with `power`:
      the sum of the pixel moves of the velocities power, power - 1, ..., power - k + 1. */
  function Lift(power: int, toPixels: int -> int, k: nat): int
  {
    if k == 0 then 0 else Lift(power, toPixels, k - 1) + toPixels(power - (k - 1))
  }

  /** On the way up (and at the apex) the box is at least one full first move above the ground. */
  lemma {:induction false} LiftRising(power: int, toPixels: int -> int, k: nat)
    requires FairConversion(toPixels) && 0 < toPixels(power)
    requires 1 <= k <= power + 1
    ensures Lift(power, toPixels, k) >= toPixels(power)
  {
    if k > 1 {
      LiftRising(power, toPixels, k - 1);
      assert 0 <= toPixels(power - (k - 1));
    }
  }

  /** On the way down the box passes the heights of the way up in reverse order. */
  lemma {:induction false} LiftMirror(power: int, toPixels: int -> int, j: nat)
    requires FairConversion(toPixels) && 0 <= power
    requires j <= power
    ensures Lift(power, toPixels, power + 1 + j) == Lift(power, toPixels, power - j)
  {
    if j == 0 {
      assert toPixels(-0) == -toPixels(0);
    } else {
      LiftMirror(power, toPixels, j - 1);
      var m: int := j;
      assert toPixels(-m) == -toPixels(m);
      assert power - (power + 1 + j - 1) == -m;
      assert power - (power - j) == m;
    }
  }

  /** Between launch and landing the box stays strictly above the ground, and after 2P + 1
      updates it is back at the launch height. */
  lemma LiftShape(power: int, toPixels: int -> int, k: nat)
    requires FairConversion(toPixels) && 0 < power && 0 < toPixels(power)
    requires 1 <= k <= 2 * power + 1
    ensures k <= 2 * power ==> Lift(power, toPixels, k) > 0
    ensures k == 2 * power + 1 ==> Lift(power, toPixels, k) == 0
  {
    if k <= power + 1 {
      LiftRising(power, toPixels, k);
    } else {
      var j: nat := k - power - 1;
      LiftMirror(power, toPixels, j);
      if j < power {
        LiftRising(power, toPixels, power - j);
      }
    }
  }

  /** Jump updates in sequence, one Up state per update. */
  function Run(b: Body, ups: seq<bool>, power: int, toPixels: int -> int): Body
  {
    if ups == [] then b
    else Step(Run(b, ups[..|ups| - 1], power, toPixels), ups[|ups| - 1], power, toPixels)
  }

  /** The jump trajectory in the air: a jump begun on the ground with jump power P (P >= 1
      units) is still airborne after each of its first 2P updates, whatever Up does meanwhile,
      with velocity P - k and height Lift(k) above its start after update k. */
  lemma {:induction false} Arc(b: Body, ups: seq<bool>, power: int, toPixels: int -> int)
    requires Grounded(b)
    requires FairConversion(toPixels) && 0 < power && 0 < toPixels(power)
    requires 1 <= |ups| <= 2 * power && ups[0]
    ensures var e := Run(b, ups, power, toPixels);
      e.jumping && e.velocity == power - |ups| &&
      e.rect == b.rect.(y := b.rect.y - Lift(power, toPixels, |ups|))
  {
    var n := |ups| - 1;
    var before := Run(b, ups[..n], power, toPixels);
    LiftShape(power, toPixels, |ups|);
    if n == 0 {
      assert before == b;
      assert toPixels(-power) == -toPixels(power);
    } else {
      assert ups[..n][0] == ups[0];
      Arc(b, ups[..n], power, toPixels);
      assert toPixels(-(power - n)) == -toPixels(power - n);
    }
  }

  /** The landing: the update 2P + 1 of a jump begun on the ground puts the box back exactly
      where it started, at rest on the ground. */
  lemma Lands(b: Body, ups: seq<bool>, power: int, toPixels: int -> int)
    requires Grounded(b)
    requires FairConversion(toPixels) && 0 < power && 0 < toPixels(power)
    requires |ups| == 2 * power + 1 && ups[0]
    ensures Run(b, ups, power, toPixels) == b
  {
    var n := 2 * power;
    assert ups[..n][0] == ups[0];
    var before := Run(b, ups[..n], power, toPixels);
    Arc(b, ups[..n], power, toPixels);
    assert before.jumping && before.velocity == -power;
    // the last move is the first one reversed, so the height climbed is all given back
    LiftShape(power, toPixels, n + 1);
    assert Lift(power, toPixels, n + 1) == Lift(power, toPixels, n) + toPixels(-power);
    assert toPixels(-power) == -toPixels(power);
    assert before.rect.Bottom() + toPixels(-Launch(before, ups[n], power)) == GROUND;
    assert Run(b, ups, power, toPixels) == Step(before, ups[n], power, toPixels);
  }
}
