/** demo/player_boulders.py: the demo player (jump power 15) dodging rotating boulders, with a
    score that counts the iterations of the main loop.

    pygame.transform.rotate is a foreign image operation: `rotate` gives the size of the
    boulder image turned by a given angle. All boulders load the same image file, so one
    function serves them all. */
module BouldersDemo {
  import opened Geometry
  import opened Input
  import Jump
  import PlayerDemo

  const PLAYER_JUMP_POWER: int := 15
  const ENEMY_SPEED_MIN: int := 5
  const ENEMY_SPEED_MAX: int := 10
  const ROTATION_SPEED_MIN: int := 5
  const ROTATION_SPEED_MAX: int := 100
  /** The boulder timer fires this many times in all. */
  const NUMBER_OF_BOULDERS: nat := 100

  datatype Option<T> = None | Some(value: T)

  // ---------------------------------------------------------------- the boulders

  datatype BoulderState = BoulderState(rect: Rect, speed: int, rotationSpeed: int, angle: int)

  /** Boulder.__init__: the unrotated image with its bottom-left corner at the bottom-right of
      the screen, angle 0. */
  function Spawned(speed: int, rotationSpeed: int, image: Size): (b: BoulderState)
    ensures b.rect.Left() == SCREEN_WIDTH && b.rect.Bottom() == SCREEN_HEIGHT
    ensures b.rect.w == image.w && b.rect.h == image.h
    ensures b.speed == speed && b.rotationSpeed == rotationSpeed && b.angle == 0
  {
    BoulderState(AnchoredBottomLeft(image, SCREEN_WIDTH, SCREEN_HEIGHT), speed, rotationSpeed, 0)
  }

  /** What Boulder.update does to the state: the box moves left by the speed, the angle
      advances by the rotation speed modulo 360, and the box of the image rotated to that angle
      is centred where the moved box was centred. */
  function Moved(b: BoulderState, rotate: int -> Size): (r: BoulderState)
    ensures r.speed == b.speed && r.rotationSpeed == b.rotationSpeed
    ensures 0 <= r.angle < 360 && r.angle == (b.angle + b.rotationSpeed) % 360
    ensures r.rect.w == rotate(r.angle).w && r.rect.h == rotate(r.angle).h
    ensures r.rect.CenterX() == b.rect.CenterX() - b.speed && r.rect.CenterY() == b.rect.CenterY()
  {
    var angle := (b.angle + b.rotationSpeed) % 360;
    var moved := b.rect.Move(-b.speed, 0);
    BoulderState(Centered(rotate(angle), moved.CenterX(), moved.CenterY()), b.speed, b.rotationSpeed, angle)
  }

  /** The kill test of Boulder.update, made on the rotated box. */
  predicate OffScreen(b: BoulderState)
  {
    b.rect.Right() < 0
  }

  class Boulder {
    var rect: Rect
    const speed: int
    const rotationSpeed: int
    var angle: int
    /** Whether the sprite is still in its groups (pygame's Sprite.alive()). */
    var alive: bool

    /** Boulder.__init__(speed, rotation_speed). */
    constructor (speed: int, rotationSpeed: int, image: Size)
      ensures State() == Spawned(speed, rotationSpeed, image) && alive
    {
      this.speed := speed;
      this.rotationSpeed := rotationSpeed;
      rect := AnchoredBottomLeft(image, SCREEN_WIDTH, SCREEN_HEIGHT);
      angle := 0;
      alive := true;
    }

    function State(): BoulderState
      reads this
    {
      BoulderState(rect, speed, rotationSpeed, angle)
    }

    /** Boulder.update: move left, turn, re-box around the centre, and leave the groups once
        the right edge is past the left of the screen. */
    method Update(rotate: int -> Size)
      modifies this
      ensures State() == Moved(old(State()), rotate)
      ensures alive == (old(alive) && !OffScreen(State()))
    {
      rect := rect.Move(-speed, 0);
      angle := (angle + rotationSpeed) % 360;
      var rotated := rotate(angle);
      rect := Centered(rotated, rect.CenterX(), rect.CenterY());
      if rect.Right() < 0 {
        alive := false;
      }
    }
  }

  /** Turning by `a` and then by `r`, modulo 360, is turning by `a + r` modulo 360. */
  lemma TurnTwice(a: int, r: int, total: int)
    requires total == a + r
    ensures (a % 360 + r) % 360 == total % 360
  {
  }

  /** The state of a boulder after k updates: its speeds are kept, and its centre stays on
      the same horizontal line. */
  function Advance(b: BoulderState, k: nat, rotate: int -> Size): (r: BoulderState)
    ensures r.speed == b.speed && r.rotationSpeed == b.rotationSpeed
    ensures r.rect.CenterY() == b.rect.CenterY()
  {
    if k == 0 then b else Moved(Advance(b, k - 1, rotate), rotate)
  }

  /** k updates carry the centre of a boulder left by exactly k times its speed. */
  lemma {:induction false} AdvanceDrifts(b: BoulderState, k: nat, rotate: int -> Size)
    ensures Advance(b, k, rotate).rect.CenterX() == b.rect.CenterX() - k * b.speed
  {
    if k > 0 {
      var e := Advance(b, k - 1, rotate);
      AdvanceDrifts(b, k - 1, rotate);
      assert Advance(b, k, rotate) == Moved(e, rotate);
      assert (k - 1) * b.speed + b.speed == k * b.speed;
    }
  }

  /** k updates turn a boulder by k times its rotation speed (`turn`), modulo 360. */
  lemma {:induction false} AdvanceTurns(b: BoulderState, k: nat, turn: int, rotate: int -> Size)
    requires 0 <= b.angle < 360 && turn == k * b.rotationSpeed
    ensures Advance(b, k, rotate).angle == (b.angle + turn) % 360
  {
    if k > 0 {
      var before := turn - b.rotationSpeed;
      assert before == (k - 1) * b.rotationSpeed;
      var e := Advance(b, k - 1, rotate);
      AdvanceTurns(b, k - 1, before, rotate);
      assert e.angle == (b.angle + before) % 360;
      assert Advance(b, k, rotate).angle == (e.angle + b.rotationSpeed) % 360;
      TurnTwice(b.angle + before, b.rotationSpeed, b.angle + turn);
    }
  }

  // ---------------------------------------------------------------- one iteration of main

  /** The two random.randint draws made for a new boulder. */
  datatype Draw = Draw(speed: int, rotationSpeed: int)

  /** Everything one iteration of the main loop reads: the event queue and the pressed keys. */
  datatype TickInput = TickInput(events: seq<Event<Draw>>, keys: Keys)

  /** The state the main loop works on. */
  datatype Scene = Scene(player: Jump.Body, boulders: seq<BoulderState>, running: bool, playerAlive: bool, score: int)

  /** Every boulder-timer event carries draws of random.randint(5, 10) and random.randint(5, 100). */
  predicate DrawsInRange(events: seq<Event<Draw>>)
  {
    forall i :: 0 <= i < |events| && events[i].AddBoulder? ==>
      ENEMY_SPEED_MIN <= events[i].draw.speed <= ENEMY_SPEED_MAX &&
      ROTATION_SPEED_MIN <= events[i].draw.rotationSpeed <= ROTATION_SPEED_MAX
  }

  /** The boulders created by the timer events of one iteration, in queue order. */
  function SpawnAll(draws: seq<Draw>, image: Size): (bs: seq<BoulderState>)
    ensures |bs| == |draws|
    ensures forall i :: 0 <= i < |draws| ==> bs[i] == Spawned(draws[i].speed, draws[i].rotationSpeed, image)
  {
    if draws == [] then []
    else
      var d := draws[|draws| - 1];
      SpawnAll(draws[..|draws| - 1], image) + [Spawned(d.speed, d.rotationSpeed, image)]
  }

  /** The boulder group after every boulder has updated once: each moved and turned, the ones
      now off screen removed, the order kept. */
  function Survivors(bs: seq<BoulderState>, rotate: int -> Size): (rs: seq<BoulderState>)
    ensures |rs| <= |bs|
  {
    if bs == [] then []
    else
      var m := Moved(bs[|bs| - 1], rotate);
      Survivors(bs[..|bs| - 1], rotate) + (if OffScreen(m) then [] else [m])
  }

  /** Removal is exact: what survives is exactly the updated boulders that are not off screen. */
  lemma {:induction false} SurvivorsExact(bs: seq<BoulderState>, rotate: int -> Size)
    ensures forall r :: r in Survivors(bs, rotate) ==>
      !OffScreen(r) && exists b :: b in bs && r == Moved(b, rotate)
    ensures forall b :: b in bs && !OffScreen(Moved(b, rotate)) ==> Moved(b, rotate) in Survivors(bs, rotate)
  {
    if bs != [] {
      var init := bs[..|bs| - 1];
      SurvivorsExact(init, rotate);
      assert bs == init + [bs[|bs| - 1]];
    }
  }

  /** The positions, in the group before the update, of the boulders that survive it. */
  function Picked(bs: seq<BoulderState>, rotate: int -> Size): (ix: seq<nat>)
    ensures |ix| == |Survivors(bs, rotate)|
    ensures forall j :: 0 <= j < |ix| ==>
      ix[j] < |bs| && !OffScreen(Moved(bs[ix[j]], rotate)) && Survivors(bs, rotate)[j] == Moved(bs[ix[j]], rotate)
    ensures forall j, k :: 0 <= j < k < |ix| ==> ix[j] < ix[k]
    // and every position whose updated boulder is still on screen is picked
    ensures forall n :: 0 <= n < |bs| && !OffScreen(Moved(bs[n], rotate)) ==> n in ix
  {
    if bs == [] then []
    else
      var n := |bs| - 1;
      Picked(bs[..n], rotate) + (if OffScreen(Moved(bs[n], rotate)) then [] else [n])
  }

  /** pygame.sprite.spritecollideany: some boulder's box overlaps the player's. */
  predicate HitsAny(r: Rect, bs: seq<BoulderState>)
  {
    exists i :: 0 <= i < |bs| && Overlaps(r, bs[i].rect)
  }

  /** A hit is a pixel the player shares with some boulder of the group. */
  lemma HitIsSharedPixel(r: Rect, bs: seq<BoulderState>)
    ensures HitsAny(r, bs) <==>
      exists b, px, py :: b in bs && Covers(r, px, py) && Covers(b.rect, px, py)
  {
    if HitsAny(r, bs) {
      var i :| 0 <= i < |bs| && Overlaps(r, bs[i].rect);
      OverlapIsSharedPixel(r, bs[i].rect);
      var px, py :| Covers(r, px, py) && Covers(bs[i].rect, px, py);
      assert bs[i] in bs;
    }
    forall b, px, py | b in bs && Covers(r, px, py) && Covers(b.rect, px, py)
      ensures HitsAny(r, bs)
    {
      OverlapIsSharedPixel(r, b.rect);
      var i :| 0 <= i < |bs| && bs[i] == b;
      assert Overlaps(r, bs[i].rect);
    }
  }

  /** The player update of the boulders demo: the demo player with a jump power of 15 pixels. */
  function PlayerStep(b: Jump.Body, keys: Keys, toPixels: int -> int): (r: Jump.Body)
    // the clamp holds a player whose image fits on the screen, and the size never changes
    ensures r.rect.w == b.rect.w && r.rect.h == b.rect.h
    ensures b.rect.w <= SCREEN_WIDTH && b.rect.h <= SCREEN_HEIGHT ==> PlayerDemo.OnScreen(r.rect)
    // not jumping implies no velocity, as for every player
    ensures Jump.AtRest(b) ==> Jump.AtRest(r)
    // and, for an image no taller than the screen, a player not jumping stays on the ground
    ensures b.rect.h <= SCREEN_HEIGHT && Jump.StandsOnGround(b) ==> Jump.StandsOnGround(r)
  {
    PlayerDemo.Updated(b, keys, 2 * PLAYER_JUMP_POWER, PlayerDemo.PLAYER_SPEED, toPixels)
  }

  /** One iteration of the loop of main: handle the events, update the player, update every
      boulder (the new ones included), test for a collision, which kills the player and stops
      the loop, and count the iteration in the score, the fatal one included. */
  function Step(s: Scene, input: TickInput, image: Size, toPixels: int -> int, rotate: int -> Size): (r: Scene)
    ensures r.player == PlayerStep(s.player, input.keys, toPixels)
    ensures r.playerAlive == (s.playerAlive && !HitsAny(r.player.rect, r.boulders))
    ensures r.running <==> !StopRequested(input.events) && !HitsAny(r.player.rect, r.boulders)
    ensures |r.boulders| <= |s.boulders| + |Spawns(input.events)|
    ensures r.score == s.score + 1
  {
    var player := PlayerStep(s.player, input.keys, toPixels);
    var boulders := Survivors(s.boulders + SpawnAll(Spawns(input.events), image), rotate);
    var hit := HitsAny(player.rect, boulders);
    Scene(player, boulders, !StopRequested(input.events) && !hit, s.playerAlive && !hit, s.score + 1)
  }

  /** What the hit message of an iteration prints: the score before that iteration's increment,
      when the iteration ends in a collision. */
  function Report(s: Scene, input: TickInput, image: Size, toPixels: int -> int, rotate: int -> Size): (p: Option<int>)
    // a message is printed exactly in the iterations that end the loop by a collision
    ensures p.Some? ==> !Step(s, input, image, toPixels, rotate).running && !Step(s, input, image, toPixels, rotate).playerAlive
    ensures p.None? ==>
      Step(s, input, image, toPixels, rotate).playerAlive == s.playerAlive &&
      (Step(s, input, image, toPixels, rotate).running <==> !StopRequested(input.events))
    // it shows the score before this iteration's increment
    ensures p.Some? ==> p.value == Step(s, input, image, toPixels, rotate).score - 1
  {
    var r := Step(s, input, image, toPixels, rotate);
    if HitsAny(r.player.rect, r.boulders) then Some(s.score) else None
  }

  /** The `while running` loop over a sequence of iterations' inputs: iterations run until one
      clears `running`. */
  function Play(s: Scene, inputs: seq<TickInput>, image: Size, toPixels: int -> int, rotate: int -> Size): (r: Scene)
    decreases |inputs|
    // a stopped loop runs no more iterations
    ensures !s.running ==> r == s
    // a dead player never comes back, and a loop that has stopped stays stopped
    ensures r.playerAlive ==> s.playerAlive
    ensures r.running ==> s.running
  {
    if inputs == [] || !s.running then s
    else Play(Step(s, inputs[0], image, toPixels, rotate), inputs[1..], image, toPixels, rotate)
  }

  /** The score counts the iterations: it grows by at most one per input, by exactly one per
      input while the loop is still running, and a stopped loop changes nothing. */
  lemma {:induction false} PlayCounts(s: Scene, inputs: seq<TickInput>, image: Size, toPixels: int -> int, rotate: int -> Size)
    decreases |inputs|
    ensures var r := Play(s, inputs, image, toPixels, rotate);
      s.score <= r.score <= s.score + |inputs| &&
      (r.running ==> r.score == s.score + |inputs|) &&
      (!s.running ==> r == s)
  {
    if inputs != [] && s.running {
      PlayCounts(Step(s, inputs[0], image, toPixels, rotate), inputs[1..], image, toPixels, rotate);
    }
  }

  /** What holds of every live boulder at the end of an iteration: speeds in their ranges, an
      angle in [0, 360) with the box of the image turned to it, centred on the line of the
      spawn centre, moved at least once, and not yet off screen. */
  predicate BoulderOk(b: BoulderState, image: Size, rotate: int -> Size)
  {
    var spawnCentre := Spawned(b.speed, b.rotationSpeed, image).rect;
    ENEMY_SPEED_MIN <= b.speed <= ENEMY_SPEED_MAX &&
    ROTATION_SPEED_MIN <= b.rotationSpeed <= ROTATION_SPEED_MAX &&
    0 <= b.angle < 360 &&
    b.rect.w == rotate(b.angle).w && b.rect.h == rotate(b.angle).h &&
    b.rect.CenterY() == spawnCentre.CenterY() &&
    b.rect.CenterX() <= spawnCentre.CenterX() - b.speed &&
    !OffScreen(b)
  }

  /** The invariant of the main loop's state, for a player image that fits the screen. */
  predicate SceneOk(s: Scene, image: Size, rotate: int -> Size)
  {
    Jump.AtRest(s.player) && Jump.StandsOnGround(s.player) &&
    s.player.rect.w <= SCREEN_WIDTH && s.player.rect.h <= SCREEN_HEIGHT &&
    forall b :: b in s.boulders ==> BoulderOk(b, image, rotate)
  }

  /** The draws of the timer events of a batch are all values the two randint calls can return. */
  lemma SpawnsInRange(events: seq<Event<Draw>>)
    requires DrawsInRange(events)
    ensures forall d :: d in Spawns(events) ==>
      ENEMY_SPEED_MIN <= d.speed <= ENEMY_SPEED_MAX && ROTATION_SPEED_MIN <= d.rotationSpeed <= ROTATION_SPEED_MAX
  {
  }

  /** A boulder that was fine, or was just spawned with draws in range, is fine after its
      update unless the update removes it. */
  lemma MovedKeepsOk(b: BoulderState, image: Size, rotate: int -> Size)
    requires BoulderOk(b, image, rotate) ||
      (ENEMY_SPEED_MIN <= b.speed <= ENEMY_SPEED_MAX &&
       ROTATION_SPEED_MIN <= b.rotationSpeed <= ROTATION_SPEED_MAX &&
       b == Spawned(b.speed, b.rotationSpeed, image))
    ensures !OffScreen(Moved(b, rotate)) ==> BoulderOk(Moved(b, rotate), image, rotate)
  {
  }

  /** Every iteration keeps the invariant, and leaves the player on the screen. */
  lemma StepKeepsInvariant(s: Scene, input: TickInput, image: Size, toPixels: int -> int, rotate: int -> Size)
    requires SceneOk(s, image, rotate) && DrawsInRange(input.events)
    ensures var r := Step(s, input, image, toPixels, rotate);
      SceneOk(r, image, rotate) && PlayerDemo.OnScreen(r.player.rect)
  {
    PlayerDemo.UpdateKeepsPlayerOnScreen(s.player, input.keys, 2 * PLAYER_JUMP_POWER, PlayerDemo.PLAYER_SPEED, toPixels);
    var draws := Spawns(input.events);
    var spawned := SpawnAll(draws, image);
    var all := s.boulders + spawned;
    SpawnsInRange(input.events);
    SurvivorsExact(all, rotate);
    forall r | r in Survivors(all, rotate)
      ensures BoulderOk(r, image, rotate)
    {
      var b :| b in all && r == Moved(b, rotate);
      if b !in s.boulders {
        assert b in spawned;
        var i :| 0 <= i < |spawned| && spawned[i] == b;
        assert draws[i] in draws;
      }
      MovedKeepsOk(b, image, rotate);
    }
  }

  /** The jump of demo/player_boulders.py, jump power 15: airborne for 60 updates, back at its
      starting height on update 61. */
  lemma BouldersJumpLands(b: Jump.Body, keys: seq<Keys>, toPixels: int -> int)
    requires Jump.Grounded(b)
    requires Jump.FairConversion(toPixels) && 0 < toPixels(2 * PLAYER_JUMP_POWER)
    requires |keys| == 61 && keys[0].up
    requires forall i :: 0 <= i < |keys| ==> !keys[i].down
    requires forall k :: 1 <= k <= 60 ==> Jump.Lift(2 * PLAYER_JUMP_POWER, toPixels, k) <= b.rect.Top()
    ensures forall k :: 1 <= k <= 60 ==>
      PlayerDemo.Run(b, keys[..k], 2 * PLAYER_JUMP_POWER, PlayerDemo.PLAYER_SPEED, toPixels).jumping
    ensures var e := PlayerDemo.Run(b, keys, 2 * PLAYER_JUMP_POWER, PlayerDemo.PLAYER_SPEED, toPixels);
      !e.jumping && e.velocity == 0 && e.rect.y == b.rect.y
  {
    PlayerDemo.JumpLands(b, keys, PLAYER_JUMP_POWER, toPixels);
  }

  // ---------------------------------------------------------------- the world

  /** The abstract values of a sequence of boulder sprites. */
  ghost function States(bs: seq<Boulder>): (r: seq<BoulderState>)
    reads set b | b in bs
  {
    seq(|bs|, i requires 0 <= i < |bs| reads set b | b in bs => bs[i].State())
  }

  /** No sprite appears twice in a group. */
  predicate Distinct(bs: seq<Boulder>)
  {
    forall j, k :: 0 <= j < k < |bs| ==> bs[j] != bs[k]
  }

  /** Every sprite of a group is alive. */
  ghost predicate AllAlive(bs: seq<Boulder>)
    reads set b | b in bs
  {
    forall b :: b in bs ==> b.alive
  }

  /** Where `for boulder in boulders: boulder.update()` stands after the first i boulders of
      the group, whose states were `before`: those i have moved, and are alive exactly when
      still on screen; the rest are untouched; `kept` holds the moved ones still alive, in
      order, `from` their positions in the group. */
  ghost predicate UpdatedUpTo(all: seq<Boulder>, before: seq<BoulderState>, rotate: int -> Size,
                              i: nat, kept: seq<Boulder>, from: seq<nat>)
    reads set b | b in all
  {
    i <= |all| == |before| &&
    (forall j :: i <= j < |all| ==> all[j].State() == before[j] && all[j].alive) &&
    (forall j :: 0 <= j < i ==>
      all[j].State() == Moved(before[j], rotate) && (all[j].alive <==> !OffScreen(Moved(before[j], rotate)))) &&
    from == Picked(before[..i], rotate) &&
    |kept| == |from| && (forall j :: 0 <= j < |kept| ==> kept[j] == all[from[j]])
  }

  /** One pass of the loop body: the boulder at position i updates, and is kept when still alive. */
  method UpdateOne(all: seq<Boulder>, ghost before: seq<BoulderState>, rotate: int -> Size,
                   i: nat, kept: seq<Boulder>, ghost from: seq<nat>)
    returns (kept': seq<Boulder>, ghost from': seq<nat>)
    requires Distinct(all) && i < |all| && UpdatedUpTo(all, before, rotate, i, kept, from)
    modifies all[i]
    ensures UpdatedUpTo(all, before, rotate, i + 1, kept', from')
  {
    var b := all[i];
    assert before[..i + 1][..i] == before[..i];
    b.Update(rotate);
    kept', from' := kept, from;
    if b.alive {
      kept', from' := kept + [b], from + [i];
    }
  }

  /** Updates every boulder of a group once and returns the ones still alive, in order. */
  method UpdateEach(all: seq<Boulder>, rotate: int -> Size) returns (kept: seq<Boulder>)
    requires Distinct(all) && AllAlive(all)
    modifies set b | b in all
    ensures States(kept) == Survivors(old(States(all)), rotate)
    ensures forall b :: b in kept ==> b in all
    ensures Distinct(kept) && AllAlive(kept)
  {
    ghost var before := States(all);
    kept := [];
    ghost var from: seq<nat> := [];
    for i := 0 to |all|
      invariant UpdatedUpTo(all, before, rotate, i, kept, from)
    {
      kept, from := UpdateOne(all, before, rotate, i, kept, from);
    }
    assert before[..|all|] == before;
    ghost var survivors := Survivors(before, rotate);
    forall j | 0 <= j < |kept|
      ensures kept[j] in all && kept[j].alive && kept[j].State() == survivors[j]
    {
      assert kept[j] == all[from[j]];
    }
    forall j, k | 0 <= j < k < |kept|
      ensures kept[j] != kept[k]
    {
      assert from[j] < from[k];
    }
    assert States(kept) == survivors;
  }

  /** The `for event in pygame.event.get()` loop of main: a quit or Escape event clears
      `running`, a timer event creates a boulder from its two draws. Returns the new `running`
      and the created boulders in queue order. */
  method EventLoop(events: seq<Event<Draw>>, running: bool, image: Size)
    returns (stillRunning: bool, created: seq<Boulder>)
    ensures stillRunning == (running && !StopRequested(events))
    ensures |created| == |Spawns(events)|
    ensures forall j :: 0 <= j < |created| ==>
      fresh(created[j]) && created[j].alive &&
      created[j].State() == Spawned(Spawns(events)[j].speed, Spawns(events)[j].rotationSpeed, image)
    ensures Distinct(created)
  {
    stillRunning := running;
    created := [];
    for i := 0 to |events|
      invariant stillRunning == (running && !StopRequested(events[..i]))
      invariant |created| == |Spawns(events[..i])|
      invariant forall j :: 0 <= j < |created| ==>
        fresh(created[j]) && created[j].alive &&
        created[j].State() == Spawned(Spawns(events[..i])[j].speed, Spawns(events[..i])[j].rotationSpeed, image)
      invariant Distinct(created)
    {
      HandledOneMore(events, i);
      match events[i] {
        case Quit =>
          stillRunning := false;
        case KeyDown(escape) =>
          if escape {
            stillRunning := false;
          }
        case AddBoulder(draw) =>
          ghost var draws := Spawns(events[..i + 1]);
          assert draws == Spawns(events[..i]) + [draw];
          var b := new Boulder(draw.speed, draw.rotationSpeed, image);
          ghost var before := created;
          created := created + [b];
          forall j | 0 <= j < |created|
            ensures fresh(created[j]) && created[j].alive &&
              created[j].State() == Spawned(draws[j].speed, draws[j].rotationSpeed, image)
          {
            if j < |before| {
              assert created[j] == before[j] && draws[j] == Spawns(events[..i])[j];
            }
          }
        case Other =>
      }
    }
    assert events[..|events|] == events;
  }

  /** The sprites and variables of main: the player, the `boulders` group, `running` and
      `score`. */
  class World {
    const player: PlayerDemo.Player
    var boulders: seq<Boulder>
    var running: bool
    var score: int
    /** How many times the boulder timer has fired so far. */
    ghost var spawned: nat
    const boulderImage: Size
    const toPixels: int -> int
    const rotate: int -> Size

    ghost predicate Valid()
      reads this, set b | b in boulders
    {
      Distinct(boulders) && AllAlive(boulders) &&
      player.jumpPower == PLAYER_JUMP_POWER && player.speed == PlayerDemo.PLAYER_SPEED &&
      |boulders| <= spawned <= NUMBER_OF_BOULDERS
    }

    ghost function View(): Scene
      reads this, player, set b | b in boulders
    {
      Scene(player.Body(), States(boulders), running, player.alive, score)
    }

    /** The state main sets up before its loop. */
    constructor (playerImage: Size, boulderImage: Size, toPixels: int -> int, rotate: int -> Size)
      ensures Valid() && fresh(player) && spawned == 0
      ensures this.boulderImage == boulderImage && this.toPixels == toPixels && this.rotate == rotate
      ensures View() == Scene(Jump.Body(AnchoredBottomLeft(playerImage, PlayerDemo.PLAYER_START_LEFT, SCREEN_HEIGHT), false, 0), [], true, true, 0)
      ensures playerImage.w <= SCREEN_WIDTH && playerImage.h <= SCREEN_HEIGHT ==> SceneOk(View(), boulderImage, rotate)
    {
      player := new PlayerDemo.Player(PLAYER_JUMP_POWER, playerImage);
      boulders := [];
      running := true;
      score := 0;
      spawned := 0;
      this.boulderImage := boulderImage;
      this.toPixels := toPixels;
      this.rotate := rotate;
    }

    /** The event loop of one iteration; the new boulders join the group in queue order. */
    method HandleEvents(events: seq<Event<Draw>>)
      requires Valid() && running
      requires spawned + |Spawns(events)| <= NUMBER_OF_BOULDERS
      modifies this`boulders, this`running, this`spawned
      ensures Valid()
      ensures States(boulders) == old(States(boulders)) + SpawnAll(Spawns(events), boulderImage)
      ensures running == !StopRequested(events)
      ensures spawned == old(spawned) + |Spawns(events)|
      ensures forall b :: b in boulders ==> b in old(boulders) || fresh(b)
    {
      var created;
      running, created := EventLoop(events, running, boulderImage);
      ghost var before := boulders;
      ghost var expected := States(before) + SpawnAll(Spawns(events), boulderImage);
      boulders := boulders + created;
      spawned := spawned + |created|;
      forall j | 0 <= j < |boulders|
        ensures boulders[j].State() == expected[j]
      {
        if j >= |before| {
          assert boulders[j] == created[j - |before|];
        }
      }
      assert States(boulders) == expected;
    }

    /** `for boulder in boulders: boulder.update()`, with killed boulders leaving the group. */
    method UpdateBoulders()
      requires Valid()
      modifies this`boulders, set b | b in boulders
      ensures Valid()
      ensures States(boulders) == Survivors(old(States(boulders)), rotate)
      ensures forall b :: b in boulders ==> b in old(boulders)
    {
      boulders := UpdateEach(boulders, rotate);
    }

    /** The collision test of main: when pygame.sprite.spritecollideany(player, boulders)
        finds a boulder over the player, the player is killed, the message reports the score
        so far, and the loop stops. */
    method Collide() returns (report: Option<int>)
      requires Valid()
      modifies this`running, player
      ensures Valid()
      ensures report == if HitsAny(player.rect, States(boulders)) then Some(score) else None
      ensures player.Body() == old(player.Body())
      ensures player.alive == (old(player.alive) && report.None?)
      ensures running == (old(running) && report.None?)
      ensures States(boulders) == old(States(boulders))
    {
      var hit := false;
      var i := 0;
      while i < |boulders| && !hit
        invariant 0 <= i <= |boulders|
        invariant hit == exists j :: 0 <= j < i && Overlaps(player.rect, boulders[j].rect)
      {
        hit := Overlaps(player.rect, boulders[i].rect);
        i := i + 1;
      }
      ghost var states := States(boulders);
      assert forall j :: 0 <= j < |boulders| ==> states[j].rect == boulders[j].rect;
      report := None;
      if hit {
        player.Kill();
        report := Some(score);
        running := false;
      }
    }

    /** The rest of an iteration: the collision test, then `score += 1`. */
    method FinishIteration() returns (report: Option<int>)
      requires Valid()
      modifies this`running, this`score, player
      ensures Valid()
      ensures report == if HitsAny(player.rect, States(boulders)) then Some(old(score)) else None
      ensures player.Body() == old(player.Body())
      ensures player.alive == (old(player.alive) && report.None?)
      ensures running == (old(running) && report.None?)
      ensures States(boulders) == old(States(boulders))
      ensures score == old(score) + 1
    {
      report := Collide();
      score := score + 1;
    }

    /** The part of an iteration before the collision test: the event loop, the player's
        update and every boulder's update. */
    method MoveSprites(input: TickInput)
      requires Valid() && running
      requires spawned + |Spawns(input.events)| <= NUMBER_OF_BOULDERS
      modifies this`boulders, this`running, this`spawned, player, set b | b in boulders
      ensures Valid()
      ensures player.Body() == PlayerStep(old(player.Body()), input.keys, toPixels)
      ensures player.alive == old(player.alive)
      ensures States(boulders) == Survivors(old(States(boulders)) + SpawnAll(Spawns(input.events), boulderImage), rotate)
      ensures running == !StopRequested(input.events)
      ensures spawned == old(spawned) + |Spawns(input.events)|
    {
      ghost var start := View();
      HandleEvents(input.events);
      ghost var grown := States(boulders);
      assert grown == start.boulders + SpawnAll(Spawns(input.events), boulderImage);
      player.Update(input.keys, toPixels);
      ghost var body := player.Body();
      assert body == PlayerStep(start.player, input.keys, toPixels);
      assert States(boulders) == grown;
      UpdateBoulders();
      assert States(boulders) == Survivors(grown, rotate) && player.Body() == body;
    }

    /** One iteration of the `while running` loop of main; returns what the hit message
        prints, if the iteration ends in a collision. */
    method Tick(input: TickInput) returns (report: Option<int>)
      requires Valid() && running
      requires spawned + |Spawns(input.events)| <= NUMBER_OF_BOULDERS
      modifies this`boulders, this`running, this`score, this`spawned, player, set b | b in boulders
      ensures Valid()
      ensures View() == Step(old(View()), input, boulderImage, toPixels, rotate)
      ensures report == Report(old(View()), input, boulderImage, toPixels, rotate)
      ensures spawned == old(spawned) + |Spawns(input.events)|
    {
      ghost var start := View();
      ghost var next := Step(start, input, boulderImage, toPixels, rotate);
      MoveSprites(input);
      assert player.Body() == next.player && States(boulders) == next.boulders;
      report := FinishIteration();
      assert report == Report(start, input, boulderImage, toPixels, rotate);
      assert View() == next;
    }
  }
}
