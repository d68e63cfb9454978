/** game.py: the integer player, the boulders and one iteration of the main loop. */
module Game {
  import opened Geometry
  import opened Input
  import Jump

  const JUMP_POWER: int := 50
  const PLAYER_SPEED: int := 5
  const PLAYER_START_LEFT: int := 50
  const BOULDER_SPEED_MIN: int := 4
  const BOULDER_SPEED_MAX: int := 12
  /** The boulder timer fires this many times in all. */
  const NUMBER_OF_BOULDERS: nat := 100

  /** game.py's velocities are whole pixels, so move_ip applies an offset as it is. */
  function Whole(offset: int): int
  {
    offset
  }

  lemma WholeIsFair()
    ensures Jump.FairConversion(Whole)
  {
  }

  // ---------------------------------------------------------------- the player

  class Player {
    var rect: Rect
    var isJumping: bool
    var verticalVelocity: int
    /** Whether the sprite is still in its groups (pygame's Sprite.alive()). */
    var alive: bool
    const jumpPower: int
    const speed: int

    /** A player standing on the ground, 50 pixels from the left edge. */
    constructor (image: Size)
      ensures rect == AnchoredBottomLeft(image, PLAYER_START_LEFT, SCREEN_HEIGHT)
      ensures !isJumping && verticalVelocity == 0 && alive
      ensures jumpPower == JUMP_POWER && speed == PLAYER_SPEED
      ensures Jump.Grounded(Body())
    {
      isJumping := false;
      verticalVelocity := 0;
      jumpPower := JUMP_POWER;
      speed := PLAYER_SPEED;
      rect := AnchoredBottomLeft(image, PLAYER_START_LEFT, SCREEN_HEIGHT);
      alive := true;
    }

    function Body(): Jump.Body
      reads this
    {
      Jump.Body(rect, isJumping, verticalVelocity)
    }

    /** Player.update: the jump logic alone; game.py has no arrow moves and no screen clamp. */
    method Update(keys: Keys)
      modifies this
      ensures Body() == Jump.Step(old(Body()), keys.up, jumpPower, Whole)
      ensures alive == old(alive)
    {
      if keys.up && !isJumping {
        isJumping := true;
        verticalVelocity := jumpPower;
      }
      if isJumping {
        rect := rect.Move(0, -verticalVelocity);
        verticalVelocity := verticalVelocity - 1;
        if rect.Bottom() >= SCREEN_HEIGHT {
          rect := rect.WithBottom(SCREEN_HEIGHT);
          isJumping := false;
          verticalVelocity := 0;
        }
      }
    }

    /** sprite.kill(): the player leaves its groups. */
    method Kill()
      modifies this
      ensures !alive && Body() == old(Body())
    {
      alive := false;
    }
  }

  /** Height reached after k airborne updates of game.py's jump: 50 + 49 + ... + (51 - k). */
  lemma {:induction false} JumpHeight(k: nat)
    ensures 2 * Jump.Lift(JUMP_POWER, Whole, k) == k * (2 * JUMP_POWER + 1 - k)
  {
    if k > 0 {
      JumpHeight(k - 1);
    }
  }

  /** game.py's jump: launched from the ground it stays airborne for 100 updates, whatever
      Up does meanwhile. */
  lemma PlayerAirborne(b: Jump.Body, ups: seq<bool>)
    requires Jump.Grounded(b)
    requires |ups| == 2 * JUMP_POWER + 1 && ups[0]
    ensures forall k :: 1 <= k <= 2 * JUMP_POWER ==>
      Jump.Run(b, ups[..k], JUMP_POWER, Whole).jumping
  {
    WholeIsFair();
    forall k | 1 <= k <= 2 * JUMP_POWER
      ensures Jump.Run(b, ups[..k], JUMP_POWER, Whole).jumping
    {
      assert ups[..k][0] == ups[0];
      Jump.Arc(b, ups[..k], JUMP_POWER, Whole);
    }
  }

  /** game.py's jump peaks 1275 pixels above its start after update 50. */
  lemma PlayerApex(b: Jump.Body, ups: seq<bool>)
    requires Jump.Grounded(b)
    requires |ups| == JUMP_POWER && ups[0]
    ensures Jump.Run(b, ups, JUMP_POWER, Whole).rect.y == b.rect.y - 1275
  {
    WholeIsFair();
    Jump.Arc(b, ups, JUMP_POWER, Whole);
    JumpHeight(JUMP_POWER);
  }

  /** game.py's jump lands where it started on update 101. */
  lemma PlayerLands(b: Jump.Body, ups: seq<bool>)
    requires Jump.Grounded(b)
    requires |ups| == 2 * JUMP_POWER + 1 && ups[0]
    ensures Jump.Run(b, ups, JUMP_POWER, Whole) == b
  {
    WholeIsFair();
    Jump.Lands(b, ups, JUMP_POWER, Whole);
  }

  // ---------------------------------------------------------------- the boulders

  datatype BoulderState = BoulderState(rect: Rect, speed: int)

  /** Boulder.__init__ once its speed is drawn: bottom-left corner at the bottom-right of the screen. */
  function Spawned(speed: int, image: Size): (b: BoulderState)
    ensures b.rect.Left() == SCREEN_WIDTH && b.rect.Bottom() == SCREEN_HEIGHT
    ensures b.rect.w == image.w && b.rect.h == image.h && b.speed == speed
  {
    BoulderState(AnchoredBottomLeft(image, SCREEN_WIDTH, SCREEN_HEIGHT), speed)
  }

  /** The move of Boulder.update: left by exactly the speed, nothing else changes. */
  function Moved(b: BoulderState): (r: BoulderState)
    ensures r.rect.x == b.rect.x - b.speed
    ensures r.rect.y == b.rect.y && r.rect.w == b.rect.w && r.rect.h == b.rect.h
    ensures r.speed == b.speed
  {
    b.(rect := b.rect.Move(-b.speed, 0))
  }

  /** The kill test of Boulder.update. */
  predicate OffScreen(b: BoulderState)
  {
    b.rect.Right() < 0
  }

  class Boulder {
    var rect: Rect
    const speed: int
    /** Whether the sprite is still in its groups (pygame's Sprite.alive()). */
    var alive: bool

    /** Boulder.__init__; `speed` is the value random.randint(4, 12) returned. */
    constructor (speed: int, image: Size)
      requires BOULDER_SPEED_MIN <= speed <= BOULDER_SPEED_MAX
      ensures State() == Spawned(speed, image) && alive
    {
      this.speed := speed;
      rect := AnchoredBottomLeft(image, SCREEN_WIDTH, SCREEN_HEIGHT);
      alive := true;
    }

    function State(): BoulderState
      reads this
    {
      BoulderState(rect, speed)
    }

    /** Boulder.update: move left, and leave the groups once the right edge is past the left of the screen. */
    method Update()
      modifies this
      ensures State() == Moved(old(State()))
      ensures alive == (old(alive) && !OffScreen(State()))
    {
      rect := rect.Move(-speed, 0);
      if rect.Right() < 0 {
        alive := false;
      }
    }
  }

  /** The state of a boulder after k updates. */
  function Advance(b: BoulderState, k: nat): BoulderState
  {
    if k == 0 then b else Moved(Advance(b, k - 1))
  }

  /** k updates move a boulder left by exactly k times its speed and change nothing else. */
  lemma {:induction false} AdvanceShifts(b: BoulderState, k: nat)
    ensures Advance(b, k) == b.(rect := b.rect.(x := b.rect.x - k * b.speed))
  {
    if k > 0 {
      AdvanceShifts(b, k - 1);
    }
  }

  /** Whether a boulder is still alive after k updates: no update so far found it off screen. */
  predicate Survives(b: BoulderState, k: nat)
  {
    forall j :: 1 <= j <= k ==> !OffScreen(Advance(b, j))
  }

  /** A boulder spawned with speed s and image width w survives exactly the first
      (900 + w) / s updates: it is removed by the first update after which
      k * s > 900 + w, and never before. */
  lemma Lifetime(speed: int, image: Size, k: nat)
    requires BOULDER_SPEED_MIN <= speed
    ensures Survives(Spawned(speed, image), k) <==> k * speed <= SCREEN_WIDTH + image.w
  {
    var b := Spawned(speed, image);
    AdvanceShifts(b, k);
    if k * speed <= SCREEN_WIDTH + image.w {
      forall j | 1 <= j <= k
        ensures !OffScreen(Advance(b, j))
      {
        AdvanceShifts(b, j);
        assert j * speed <= k * speed;
      }
    }
  }

  /** The example of a boulder 60 pixels wide moving at speed 5: alive after 192 updates,
      removed by update 193. */
  lemma LifetimeExample(image: Size)
    requires image.w == 60
    ensures Survives(Spawned(5, image), 192)
    ensures !Survives(Spawned(5, image), 193)
  {
    Lifetime(5, image, 192);
    Lifetime(5, image, 193);
  }

  // ---------------------------------------------------------------- one iteration of main

  /** Everything one iteration of the main loop reads: the event queue and the pressed keys. */
  datatype TickInput = TickInput(events: seq<Event<int>>, keys: Keys)

  /** The state the main loop works on. */
  datatype Scene = Scene(player: Jump.Body, boulders: seq<BoulderState>, running: bool, playerAlive: bool)

  /** Every boulder-timer event carries a draw of random.randint(4, 12). */
  predicate DrawsInRange(events: seq<Event<int>>)
  {
    forall i :: 0 <= i < |events| && events[i].AddBoulder? ==>
      BOULDER_SPEED_MIN <= events[i].draw <= BOULDER_SPEED_MAX
  }

  /** The boulders created by the timer events of one iteration, in queue order. */
  function SpawnAll(draws: seq<int>, image: Size): (bs: seq<BoulderState>)
    ensures |bs| == |draws|
    ensures forall i :: 0 <= i < |draws| ==> bs[i] == Spawned(draws[i], image)
  {
    if draws == [] then []
    else SpawnAll(draws[..|draws| - 1], image) + [Spawned(draws[|draws| - 1], image)]
  }

  /** The boulder group after every boulder has updated once: each moved, the ones now off
      screen removed, the order kept. */
  function Survivors(bs: seq<BoulderState>): (rs: seq<BoulderState>)
    ensures |rs| <= |bs|
  {
    if bs == [] then []
    else
      var m := Moved(bs[|bs| - 1]);
      Survivors(bs[..|bs| - 1]) + (if OffScreen(m) then [] else [m])
  }

  /** Removal is exact: what survives is exactly the moved boulders that are not off screen. */
  lemma {:induction false} SurvivorsExact(bs: seq<BoulderState>)
    ensures forall r :: r in Survivors(bs) ==> !OffScreen(r) && exists b :: b in bs && r == Moved(b)
    ensures forall b :: b in bs && !OffScreen(Moved(b)) ==> Moved(b) in Survivors(bs)
  {
    if bs != [] {
      var init := bs[..|bs| - 1];
      SurvivorsExact(init);
      assert bs == init + [bs[|bs| - 1]];
    }
  }

  /** The positions, in the group before the update, of the boulders that survive it. */
  function Picked(bs: seq<BoulderState>): (ix: seq<nat>)
    ensures |ix| == |Survivors(bs)|
    ensures forall j :: 0 <= j < |ix| ==>
      ix[j] < |bs| && !OffScreen(Moved(bs[ix[j]])) && Survivors(bs)[j] == Moved(bs[ix[j]])
    ensures forall j, k :: 0 <= j < k < |ix| ==> ix[j] < ix[k]
    // and every position whose moved boulder is still on screen is picked
    ensures forall n :: 0 <= n < |bs| && !OffScreen(Moved(bs[n])) ==> n in ix
  {
    if bs == [] then []
    else
      var n := |bs| - 1;
      Picked(bs[..n]) + (if OffScreen(Moved(bs[n])) then [] else [n])
  }

  /** pygame.sprite.spritecollideany: some boulder's box overlaps the player's. */
  predicate HitsAny(r: Rect, bs: seq<BoulderState>)
  {
    exists i :: 0 <= i < |bs| && Overlaps(r, bs[i].rect)
  }

  /** A hit is a pixel the player shares with some boulder of the group. */
  lemma HitIsSharedPixel(r: Rect, bs: seq<BoulderState>)
    ensures HitsAny(r, bs) <==>
      exists b, px, py :: b in bs && Covers(r, px, py) && Covers(b.rect, px, py)
  {
    if HitsAny(r, bs) {
      var i :| 0 <= i < |bs| && Overlaps(r, bs[i].rect);
      OverlapIsSharedPixel(r, bs[i].rect);
      var px, py :| Covers(r, px, py) && Covers(bs[i].rect, px, py);
      assert bs[i] in bs;
    }
    forall b, px, py | b in bs && Covers(r, px, py) && Covers(b.rect, px, py)
      ensures HitsAny(r, bs)
    {
      OverlapIsSharedPixel(r, b.rect);
      var i :| 0 <= i < |bs| && bs[i] == b;
      assert Overlaps(r, bs[i].rect);
    }
  }

  /** One iteration of the loop of main: handle the events (a timer event adds a boulder, a
      quit or Escape event clears `running` but the iteration goes on), update the player,
      update every boulder, then test for a collision, which kills the player and stops the loop. */
  function Step(s: Scene, input: TickInput, image: Size): (r: Scene)
    ensures r.player == Jump.Step(s.player, input.keys.up, JUMP_POWER, Whole)
    ensures r.playerAlive == (s.playerAlive && !HitsAny(r.player.rect, r.boulders))
    ensures r.running <==> !StopRequested(input.events) && !HitsAny(r.player.rect, r.boulders)
    ensures |r.boulders| <= |s.boulders| + |Spawns(input.events)|
  {
    var player := Jump.Step(s.player, input.keys.up, JUMP_POWER, Whole);
    var boulders := Survivors(s.boulders + SpawnAll(Spawns(input.events), image));
    var hit := HitsAny(player.rect, boulders);
    Scene(player, boulders, !StopRequested(input.events) && !hit, s.playerAlive && !hit)
  }

  /** What holds of every live boulder at the end of an iteration. */
  predicate BoulderOk(b: BoulderState, image: Size)
  {
    BOULDER_SPEED_MIN <= b.speed <= BOULDER_SPEED_MAX &&
    b.rect.w == image.w && b.rect.h == image.h &&
    b.rect.Bottom() == SCREEN_HEIGHT &&
    b.rect.Left() <= SCREEN_WIDTH - b.speed &&
    0 <= b.rect.Right()
  }

  /** The invariant of the main loop's state. */
  predicate SceneOk(s: Scene, image: Size)
  {
    Jump.AtRest(s.player) && Jump.StandsOnGround(s.player) &&
    forall b :: b in s.boulders ==> BoulderOk(b, image)
  }

  /** The draws of the timer events of a batch are all speeds random.randint(4, 12) can return. */
  lemma SpawnsInRange(events: seq<Event<int>>)
    requires DrawsInRange(events)
    ensures forall d :: d in Spawns(events) ==> BOULDER_SPEED_MIN <= d <= BOULDER_SPEED_MAX
  {
  }

  /** A boulder that was fine, or was just spawned with a speed in range, is fine after its
      update unless the update removes it. */
  lemma MovedKeepsOk(b: BoulderState, image: Size)
    requires BoulderOk(b, image) ||
      (BOULDER_SPEED_MIN <= b.speed <= BOULDER_SPEED_MAX && b == Spawned(b.speed, image))
    ensures !OffScreen(Moved(b)) ==> BoulderOk(Moved(b), image)
  {
  }

  /** Every iteration keeps the invariant: the player is at rest unless jumping, and every
      live boulder has a speed in [4, 12], rolls along the ground, has moved at least once
      and is not yet off screen. */
  lemma StepKeepsInvariant(s: Scene, input: TickInput, image: Size)
    requires SceneOk(s, image) && DrawsInRange(input.events)
    ensures SceneOk(Step(s, input, image), image)
  {
    var draws := Spawns(input.events);
    var spawned := SpawnAll(draws, image);
    var all := s.boulders + spawned;
    SpawnsInRange(input.events);
    SurvivorsExact(all);
    forall r | r in Survivors(all)
      ensures BoulderOk(r, image)
    {
      var b :| b in all && r == Moved(b);
      if b !in s.boulders {
        assert b in spawned;
        var i :| 0 <= i < |spawned| && spawned[i] == b;
        assert draws[i] in draws;
      }
      MovedKeepsOk(b, image);
    }
  }

  // ---------------------------------------------------------------- the world

  /** The abstract values of a sequence of boulder sprites. */
  ghost function States(bs: seq<Boulder>): (r: seq<BoulderState>)
    reads set b | b in bs
  {
    seq(|bs|, i requires 0 <= i < |bs| reads set b | b in bs => bs[i].State())
  }

  /** No sprite appears twice in a group. */
  predicate Distinct(bs: seq<Boulder>)
  {
    forall j, k :: 0 <= j < k < |bs| ==> bs[j] != bs[k]
  }

  /** Every sprite of a group is alive. */
  ghost predicate AllAlive(bs: seq<Boulder>)
    reads set b | b in bs
  {
    forall b :: b in bs ==> b.alive
  }

  /** Where `for boulder in boulders: boulder.update()` stands after the first i boulders of
      the group, whose states were `before`: those i have moved, and are alive exactly when
      still on screen; the rest are untouched; `kept` holds the moved ones still alive, in
      order, `from` their positions in the group. */
  ghost predicate UpdatedUpTo(all: seq<Boulder>, before: seq<BoulderState>, i: nat, kept: seq<Boulder>, from: seq<nat>)
    reads set b | b in all
  {
    i <= |all| == |before| &&
    (forall j :: i <= j < |all| ==> all[j].State() == before[j] && all[j].alive) &&
    (forall j :: 0 <= j < i ==>
      all[j].State() == Moved(before[j]) && (all[j].alive <==> !OffScreen(Moved(before[j])))) &&
    from == Picked(before[..i]) &&
    |kept| == |from| && (forall j :: 0 <= j < |kept| ==> kept[j] == all[from[j]])
  }

  /** One pass of the loop body: the boulder at position i updates, and is kept when still alive. */
  method UpdateOne(all: seq<Boulder>, ghost before: seq<BoulderState>, i: nat, kept: seq<Boulder>, ghost from: seq<nat>)
    returns (kept': seq<Boulder>, ghost from': seq<nat>)
    requires Distinct(all) && i < |all| && UpdatedUpTo(all, before, i, kept, from)
    modifies all[i]
    ensures UpdatedUpTo(all, before, i + 1, kept', from')
  {
    var b := all[i];
    assert before[..i + 1][..i] == before[..i];
    assert Picked(before[..i + 1]) == from + (if OffScreen(Moved(before[i])) then [] else [i]);
    b.Update();
    forall j | 0 <= j < |all| && j != i
      ensures all[j].State() == old(all[j].State()) && all[j].alive == old(all[j].alive)
    {
      assert all[j] != b;
    }
    kept', from' := kept, from;
    if b.alive {
      kept', from' := kept + [b], from + [i];
    }
    forall j | 0 <= j < |kept'|
      ensures kept'[j] == all[from'[j]]
    {
      if j < |kept| {
        assert kept'[j] == kept[j] && from'[j] == from[j];
      }
    }
  }

  /** Updates every boulder of a group once and returns the ones still alive, in order. */
  method UpdateEach(all: seq<Boulder>) returns (kept: seq<Boulder>)
    requires Distinct(all) && AllAlive(all)
    modifies set b | b in all
    ensures States(kept) == Survivors(old(States(all)))
    ensures forall b :: b in kept ==> b in all
    ensures Distinct(kept) && AllAlive(kept)
  {
    ghost var before := States(all);
    kept := [];
    ghost var from: seq<nat> := [];
    for i := 0 to |all|
      invariant UpdatedUpTo(all, before, i, kept, from)
    {
      kept, from := UpdateOne(all, before, i, kept, from);
    }
    assert before[..|all|] == before;
    ghost var survivors := Survivors(before);
    forall j | 0 <= j < |kept|
      ensures kept[j] in all && kept[j].alive && kept[j].State() == survivors[j]
    {
      assert kept[j] == all[from[j]];
    }
    forall j, k | 0 <= j < k < |kept|
      ensures kept[j] != kept[k]
    {
      assert from[j] < from[k];
    }
    assert States(kept) == survivors;
  }

  /** The `for event in pygame.event.get()` loop of main: a quit or Escape event clears
      `running`, a timer event creates a boulder. Returns the new `running` and the created
      boulders in queue order. */
  method EventLoop(events: seq<Event<int>>, running: bool, image: Size)
    returns (stillRunning: bool, created: seq<Boulder>)
    requires DrawsInRange(events)
    ensures stillRunning == (running && !StopRequested(events))
    ensures |created| == |Spawns(events)|
    ensures forall j :: 0 <= j < |created| ==>
      fresh(created[j]) && created[j].alive && created[j].State() == Spawned(Spawns(events)[j], image)
    ensures Distinct(created)
  {
    stillRunning := running;
    created := [];
    for i := 0 to |events|
      invariant stillRunning == (running && !StopRequested(events[..i]))
      invariant |created| == |Spawns(events[..i])|
      invariant forall j :: 0 <= j < |created| ==>
        fresh(created[j]) && created[j].alive &&
        created[j].State() == Spawned(Spawns(events[..i])[j], image)
      invariant Distinct(created)
    {
      HandledOneMore(events, i);
      match events[i] {
        case Quit =>
          stillRunning := false;
        case KeyDown(escape) =>
          if escape {
            stillRunning := false;
          }
        case AddBoulder(draw) =>
          var b := new Boulder(draw, image);
          created := created + [b];
        case Other =>
      }
    }
    assert events[..|events|] == events;
  }

  /** The sprites and flags of main: the player, the `boulders` group and `running`. */
  class World {
    const player: Player
    var boulders: seq<Boulder>
    var running: bool
    /** How many times the boulder timer has fired so far. */
    ghost var spawned: nat
    const boulderImage: Size

    ghost predicate Valid()
      reads this, set b | b in boulders
    {
      Distinct(boulders) && AllAlive(boulders) &&
      player.jumpPower == JUMP_POWER &&
      |boulders| <= spawned <= NUMBER_OF_BOULDERS
    }

    ghost function View(): Scene
      reads this, player, set b | b in boulders
    {
      Scene(player.Body(), States(boulders), running, player.alive)
    }

    /** The state main sets up before its loop. */
    constructor (playerImage: Size, boulderImage: Size)
      ensures Valid() && fresh(player) && spawned == 0 && this.boulderImage == boulderImage
      ensures View() == Scene(Jump.Body(AnchoredBottomLeft(playerImage, PLAYER_START_LEFT, SCREEN_HEIGHT), false, 0), [], true, true)
      ensures SceneOk(View(), boulderImage)
    {
      player := new Player(playerImage);
      boulders := [];
      running := true;
      spawned := 0;
      this.boulderImage := boulderImage;
    }

    /** The event loop of one iteration; the new boulders join the group in queue order. */
    method HandleEvents(events: seq<Event<int>>)
      requires Valid() && running
      requires DrawsInRange(events)
      requires spawned + |Spawns(events)| <= NUMBER_OF_BOULDERS
      modifies this`boulders, this`running, this`spawned
      ensures Valid()
      ensures States(boulders) == old(States(boulders)) + SpawnAll(Spawns(events), boulderImage)
      ensures running == !StopRequested(events)
      ensures spawned == old(spawned) + |Spawns(events)|
      ensures forall b :: b in boulders ==> b in old(boulders) || fresh(b)
    {
      var created;
      running, created := EventLoop(events, running, boulderImage);
      ghost var before := boulders;
      ghost var expected := States(before) + SpawnAll(Spawns(events), boulderImage);
      boulders := boulders + created;
      spawned := spawned + |created|;
      forall j | 0 <= j < |boulders|
        ensures boulders[j].State() == expected[j]
      {
        if j >= |before| {
          assert boulders[j] == created[j - |before|];
        }
      }
      assert States(boulders) == expected;
    }

    /** `for boulder in boulders: boulder.update()`, with killed boulders leaving the group. */
    method UpdateBoulders()
      requires Valid()
      modifies this`boulders, set b | b in boulders
      ensures Valid()
      ensures States(boulders) == Survivors(old(States(boulders)))
      ensures forall b :: b in boulders ==> b in old(boulders)
    {
      boulders := UpdateEach(boulders);
    }

    /** The collision test of main: when pygame.sprite.spritecollideany(player, boulders)
        finds a boulder over the player, the player is killed and the loop stops. */
    method Collide() returns (hit: bool)
      requires Valid()
      modifies this`running, player
      ensures Valid()
      ensures hit == HitsAny(player.rect, States(boulders))
      ensures player.Body() == old(player.Body()) && player.alive == (old(player.alive) && !hit)
      ensures running == (old(running) && !hit)
      ensures States(boulders) == old(States(boulders))
    {
      hit := false;
      var i := 0;
      while i < |boulders| && !hit
        invariant 0 <= i <= |boulders|
        invariant hit == exists j :: 0 <= j < i && Overlaps(player.rect, boulders[j].rect)
      {
        hit := Overlaps(player.rect, boulders[i].rect);
        i := i + 1;
      }
      ghost var states := States(boulders);
      assert forall j :: 0 <= j < |boulders| ==> states[j].rect == boulders[j].rect;
      if hit {
        player.Kill();
        running := false;
      }
    }

    /** One iteration of the `while running` loop of main. */
    method Tick(input: TickInput) returns (hit: bool)
      requires Valid() && running
      requires DrawsInRange(input.events)
      requires spawned + |Spawns(input.events)| <= NUMBER_OF_BOULDERS
      modifies this, player, set b | b in boulders
      ensures Valid()
      ensures View() == Step(old(View()), input, boulderImage)
      ensures hit == HitsAny(player.rect, States(boulders))
      ensures spawned == old(spawned) + |Spawns(input.events)|
    {
      ghost var start := View();
      HandleEvents(input.events);
      ghost var grown := States(boulders);
      assert grown == start.boulders + SpawnAll(Spawns(input.events), boulderImage);
      player.Update(input.keys);
      ghost var body := player.Body();
      assert body == Jump.Step(start.player, input.keys.up, JUMP_POWER, Whole);
      assert States(boulders) == grown;
      UpdateBoulders();
      ghost var moved := States(boulders);
      assert moved == Survivors(grown) && player.Body() == body;
      hit := Collide();
      assert View() == Scene(body, moved, !StopRequested(input.events) && !hit, start.playerAlive && !hit);
    }
  }
}
