# Boulder-dodging arcade loop, modelled in Dafny

This project models the per-iteration simulation of three small pygame programs:

- `game.py`. A player jumps with integer gravity. Boulders roll in from the right at random speeds. The game stops when a boulder touches the player.
- `demo/player.py`. The demo player jumps with half-pixel gravity, moves with the arrow keys and is held on the 900 x 600 screen.
- `demo/player_boulders.py`. The demo player dodges rotating boulders, and a score counts the iterations of the main loop.

The modules:

- `Geometry`: pygame's integer `Rect`, with its edges and centre, `move_ip`, edge assignment and `get_rect` anchoring. It also holds the overlap test used for collisions.
- `Input`: the pressed keys and the event queue of one iteration. An event is a quit, a key press, a boulder-timer event or anything else.
- `Jump`: the jump-and-gravity state machine shared by all three players. It also holds the jump trajectory: airborne for 2P updates and landing where it started on update 2P + 1.
- `Game`: `game.py`.
  - The `Player` and `Boulder` classes, whose methods update their fields in place.
  - The `World` class, whose `Tick` runs one iteration of `main`'s `while running` loop.
  - `Step`, a function on values that `Tick` is proved against.
- `PlayerDemo`: the `Player` class of `demo/player.py`. `demo/player_boulders.py` defines an identical copy of the class and uses it with a jump power of 15.
- `BouldersDemo`: `demo/player_boulders.py`. It has rotating boulders and a `World` whose `Tick` also keeps the score and returns what the hit message prints.

Conventions and abstractions:

- **Velocity units.** Velocities are counted in units of gravity. In `game.py` that unit is a pixel. In the demos it is a half-pixel, so the float velocity, always a multiple of 0.5, is held exactly as an integer. A jump power of P pixels is a launch velocity of 2P units.
- **Fractional moves.** pygame turns a fractional `move_ip` offset into whole pixels. This conversion is a parameter `toPixels`; `game.py` passes the identity. The trajectory lemmas assume that the conversion is odd and maps non-negative offsets to non-negative values (`Jump.FairConversion`), and that it turns the launch velocity into a move of at least one pixel (`0 < toPixels(power)`).
- **Inputs.**
  - The keys and the events of each iteration are inputs.
  - A boulder-timer event carries the values `random.randint` drew for that boulder.
  - The size of a rotated boulder image is a parameter `rotate`, a function of the angle.
  - The timer's limit of 100 firings is a ghost counter.

What the code does that is easy to miss:

- A demo jump with jump power 20 is airborne for 80 updates and lands on update 81 (`PlayerDemo.DemoJumpLands`).
- In `demo/player_boulders.py`, `score += 1` also runs on the iteration of a collision, after the hit message has printed the old value. `BouldersDemo.Step` and `BouldersDemo.Report` state exactly this.
- A quit or Escape event only clears `running`. The rest of that iteration still runs: the player and boulder updates and the collision test.
- The event loop creates the new boulders before the player's update. The player's update reads no boulder, so the order does not change the state.

## Model

| member | source | states |
|---|---|---|
| Geometry.AnchoredBottomLeft | game.py:29 | `get_rect(bottomleft=…)` puts the box's left and bottom edges exactly at the point, with the image's size |
| Geometry.Centered | demo/player_boulders.py:133 | `get_rect(center=…)` gives a box of the image's size whose integer centre is exactly the point |
| Geometry.Rect.Move | game.py:57 | `move_ip` shifts the left and top edges by the offsets and keeps the size |
| Geometry.Rect.WithBottom | game.py:40 | assigning `rect.bottom` puts the bottom edge there and keeps x and the size |
| Geometry.Rect.WithLeft | demo/player.py:79-80 | assigning `rect.left` puts the left edge there and keeps y and the size |
| Geometry.Rect.WithRight | demo/player.py:81-82 | assigning `rect.right` puts the right edge there and keeps y and the size |
| Geometry.Rect.WithTop | demo/player.py:83-84 | assigning `rect.top` puts the top edge there and keeps x and the size |
| Geometry.Overlaps | game.py:106 | `colliderect`: colliding boxes share the top-left pixel of their intersection, and boxes that only touch along an edge do not collide |
| Geometry.OverlapIsSharedPixel | game.py:106 | the collision test is symmetric, and it holds exactly when the two boxes share a pixel |
| Input.Spawns | game.py:81-92 | the draws come from the batch's timer events, never more than there are events |
| Input.TimersExact | game.py:89-92 | one draw per listed timer event, in queue order: draw j is the draw of the j-th timer event, at strictly increasing queue positions |
| Input.TimersComplete | game.py:89-92 | no timer event is skipped: the position of every timer event of the batch is listed, so every timer event gives a boulder |
| Input.HandledOneMore | game.py:81-92 | handling one more event clears `running` exactly when that event is a quit or Escape, and adds a boulder exactly when it is a timer event |
| Jump.Step | game.py:31-42 | only y moves; without Up and not jumping nothing changes; while airborne the box rises by the velocity, which then drops by one unit; it lands exactly when the bottom reaches 600, snapping bottom to 600 with velocity 0; not jumping implies velocity 0 is kept, and so is not jumping implies the bottom on the ground line |
| Jump.UpOnlyLaunchesFromGround | game.py:32-34 | Up during a jump changes nothing; on the ground it is the same as being launched with the jump power |
| Jump.LiftRising | game.py:35-37 | up to the apex the box is at least one first move above its start |
| Jump.LiftMirror | game.py:35-37 | on the way down the box passes the heights of the way up in reverse order |
| Jump.LiftShape | game.py:35-42 | the height above the start is positive for the first 2P updates and zero after update 2P + 1 |
| Jump.Arc | game.py:32-42 | a jump from the ground stays airborne for its first 2P updates whatever Up does, with velocity P − k and height Lift(k) after update k |
| Jump.Lands | game.py:32-42 | update 2P + 1 of a jump from the ground puts the player back exactly as it started, on the ground at rest |
| Game.WholeIsFair | game.py:36 | integer moves satisfy the conversion assumptions of the trajectory lemmas |
| Game.Player.constructor | game.py:20-29 | the player starts at bottom-left (50, 600), not jumping, velocity 0, jump power 50, speed 5, on the ground |
| Game.Player.Update | game.py:31-42 | the new rect, flag and velocity are one `Jump.Step` with power 50 and whole-pixel moves |
| Game.Player.Kill | game.py:107 | the player leaves its groups and its box and jump state are unchanged |
| Game.JumpHeight | game.py:34-37 | after k airborne updates the player is 50 + 49 + … + (51 − k) pixels above its start |
| Game.PlayerAirborne | game.py:32-42 | the player jumping from the ground is airborne for 100 updates |
| Game.PlayerApex | game.py:32-42 | the player's jump peaks 1275 pixels above its start after 50 updates |
| Game.PlayerLands | game.py:32-42 | the player's jump lands where it started on update 101 |
| Game.Spawned | game.py:49-54 | a new boulder has its bottom-left corner at (900, 600), the image's size and the drawn speed |
| Game.Moved | game.py:56-57 | a boulder update moves left by exactly the speed and changes nothing else |
| Game.Boulder.constructor | game.py:49-54 | `Boulder()` with a speed drawn from [4, 12] gives the spawned state, alive |
| Game.Boulder.Update | game.py:56-60 | the boulder moves left by its speed and is killed exactly when its right edge is then below 0 |
| Game.AdvanceShifts | game.py:56-57 | k updates move a boulder left by exactly k times its speed |
| Game.Lifetime | game.py:56-60 | a boulder of speed s and width w survives exactly the updates k with k·s ≤ 900 + w |
| Game.LifetimeExample | game.py:56-60 | a 60-pixel boulder of speed 5 is alive after 192 updates and gone after 193 |
| Game.SpawnAll | game.py:89-92 | the iteration's new boulders are the spawned states of its draws, in queue order |
| Game.Survivors | game.py:100-101 | updating the group never grows it |
| Game.SurvivorsExact | game.py:59-60 | a boulder is in the group after the update exactly when it is the moved form of an old one and is not off screen (multiplicity and order: `Game.Picked`) |
| Game.Picked | game.py:100-101 | the survivors are the moved boulders at strictly increasing positions of the old group, and every position whose moved boulder is still on screen is among them, so nothing is dropped or repeated and the order is kept |
| Game.HitIsSharedPixel | game.py:106 | `spritecollideany` holds exactly when the player shares a pixel with some boulder of the group |
| Game.Step | game.py:80-109 | an iteration updates the player by one jump step; `running` becomes false exactly when a boulder overlaps the player or a quit or Escape event came; the player dies exactly when a boulder overlaps it |
| Game.SpawnsInRange | game.py:52 | every drawn speed lies in [4, 12] |
| Game.MovedKeepsOk | game.py:52-60 | a live boulder or a newly spawned one keeps the boulder invariant after its update unless removed |
| Game.StepKeepsInvariant | game.py:80-109 | every iteration keeps not-jumping ⇒ velocity 0 and bottom on the ground line; every live boulder keeps a speed in [4, 12], stays on the ground line, has moved at least once and is not past the left edge |
| Game.UpdateOne | game.py:100-101 | one pass of the boulder loop updates boulder i and keeps it exactly when it is still alive |
| Game.UpdateEach | game.py:100-101 | the boulder loop leaves exactly `Survivors` of the old states, all alive and distinct |
| Game.EventLoop | game.py:81-92 | the event loop clears `running` exactly when a quit or Escape event came, and creates one fresh boulder per timer event in queue order |
| Game.World.constructor | game.py:69-78 | before the loop: a grounded player, no boulders, `running` true |
| Game.World.HandleEvents | game.py:81-92 | the new boulders join the group after the old ones, and the timer count grows by their number |
| Game.World.UpdateBoulders | game.py:100-101 | the group becomes `Survivors` of its states |
| Game.World.Collide | game.py:106-109 | a hit is exactly an overlap with a live boulder; it kills the player and clears `running` |
| Game.World.Tick | game.py:80-115 | one iteration changes the world exactly as `Step` does and keeps the world invariant |
| PlayerDemo.Arrows | demo/player.py:71-76 | Down, Left and Right each move the box by exactly the speed on their axis |
| PlayerDemo.Clamp | demo/player.py:78-86 | a box that fits ends within [0, 900] × [0, 600]; a box past the left, right or top edge (and fitting, for left and top) ends on that edge, and one that fits and reaches the bottom edge or beyond ends on it; x changes only when the box crosses a side edge and y only when it crosses the top or bottom edge; a box already on screen is unchanged; the size is kept |
| PlayerDemo.ClampIdempotent | demo/player.py:78-86 | clamping twice is clamping once |
| PlayerDemo.Updated | demo/player.py:52-86 | the jump step, then the arrow moves, then the clamp; the clamp never changes the flag or the velocity |
| PlayerDemo.Player.constructor | demo/player.py:30-50 | the player starts at bottom-left (50, 600), not jumping, velocity 0, with the given jump power and speed 4 |
| PlayerDemo.Player.Update | demo/player.py:52-86 | the new rect, flag and velocity are `Updated` with a launch of twice the jump power in half-pixels |
| PlayerDemo.Player.JumpStep | demo/player.py:57-70 | the jump part of the update is one `Jump.Step` with half-pixel gravity |
| PlayerDemo.Player.MoveByKeys | demo/player.py:71-76 | the arrow part of the update moves the rect as `Arrows` does |
| PlayerDemo.Player.KeepOnScreen | demo/player.py:78-86 | the four edge checks move the rect as `Clamp` does |
| PlayerDemo.Player.Kill | demo/player_boulders.py:217 | the player leaves its groups and its box and jump state are unchanged |
| PlayerDemo.UpdateKeepsPlayerOnScreen | demo/player.py:78-86 | after every update a player that fits the screen is on the screen, with its size and its rest invariant kept; with a non-negative speed a player not jumping stays on the ground line, because the bottom clamp undoes Down |
| PlayerDemo.DownOnGroundIsUndone | demo/player.py:71-86 | Down on the ground is undone by the clamp, whatever the jump power |
| PlayerDemo.Ups | demo/player.py:57 | the Up states of a sequence of key states, one per update |
| PlayerDemo.StepIsVertical | demo/player.py:57-70 | the jump step reads only the vertical part of the state |
| PlayerDemo.UpdatedIsJump | demo/player.py:57-86 | without Down, and with the jump step on screen, the vertical part of an update is the jump step's |
| PlayerDemo.ArcOnScreen | demo/player.py:57-70 | a jump that fits under the top of the screen stays on screen vertically |
| PlayerDemo.RunFollowsJump | demo/player.py:52-86 | without Down, arrow moves and the clamp leave the jump trajectory untouched |
| PlayerDemo.JumpLands | demo/player.py:57-70 | without a Down press, and with an arc that stays below the top of the screen (`Lift(k)` at most the starting top for every k), a jump of power J from the ground is airborne for 4J updates and back at its starting height on update 4J + 1 |
| PlayerDemo.DemoJumpLands | demo/player.py:57-70 | without a Down press, and with an arc that stays below the top of the screen, the demo player with jump power 20 is airborne for 80 updates and back at its starting height on update 81 |
| BouldersDemo.Spawned | demo/player_boulders.py:105-124 | a new boulder has its bottom-left corner at (900, 600), the unrotated image's size, the drawn speeds and angle 0 |
| BouldersDemo.Moved | demo/player_boulders.py:127-135 | the angle becomes (angle + rotation speed) mod 360, within [0, 360); the box has the rotated image's size; its centre moves left by exactly the speed and keeps its height |
| BouldersDemo.Boulder.constructor | demo/player_boulders.py:105-124 | `Boulder(speed, rotation_speed)` gives the spawned state, alive |
| BouldersDemo.Boulder.Update | demo/player_boulders.py:127-137 | the boulder moves, turns and is re-boxed as `Moved` says, and is killed exactly when its new right edge is below 0 |
| BouldersDemo.TurnTwice | demo/player_boulders.py:131 | turning modulo 360 twice is turning by the sum modulo 360 |
| BouldersDemo.Advance | demo/player_boulders.py:127-135 | k updates keep a boulder's speeds and the height of its centre |
| BouldersDemo.AdvanceDrifts | demo/player_boulders.py:129-133 | k updates move a boulder's centre left by exactly k times its speed |
| BouldersDemo.AdvanceTurns | demo/player_boulders.py:131 | k updates turn a boulder by k times its rotation speed, modulo 360 |
| BouldersDemo.SpawnAll | demo/player_boulders.py:182-187 | the iteration's new boulders are the spawned states of its draws, in queue order |
| BouldersDemo.Survivors | demo/player_boulders.py:199-200 | updating the group never grows it |
| BouldersDemo.SurvivorsExact | demo/player_boulders.py:136-137 | a boulder is in the group after the update exactly when it is the updated form of an old one and is not off screen (multiplicity and order: `BouldersDemo.Picked`) |
| BouldersDemo.Picked | demo/player_boulders.py:199-200 | the survivors are the updated boulders at strictly increasing positions of the old group, and every position whose updated boulder is still on screen is among them |
| BouldersDemo.HitIsSharedPixel | demo/player_boulders.py:215 | `spritecollideany` holds exactly when the player shares a pixel with some boulder of the group |
| BouldersDemo.PlayerStep | demo/player_boulders.py:197 | the player's update keeps its size, keeps an image that fits on the screen inside it, and leaves a player that is not jumping without velocity and, for an image no taller than the screen, on the ground line |
| BouldersDemo.Play | demo/player_boulders.py:172-227 | the loop run over a list of inputs: a stopped loop runs no more iterations, a dead player stays dead and a stopped loop stays stopped |
| BouldersDemo.Step | demo/player_boulders.py:172-227 | an iteration updates the player with jump power 15; it stops the loop and kills the player exactly on an overlap (or stops it on a quit event); the score grows by exactly 1 even on the fatal iteration |
| BouldersDemo.Report | demo/player_boulders.py:215-219 | a message is printed exactly on the iterations that end by a collision, and it shows the score before that iteration's increment |
| BouldersDemo.PlayCounts | demo/player_boulders.py:169-227 | over n iterations' inputs the score grows by at most n, by exactly n while the loop still runs; a stopped loop changes nothing |
| BouldersDemo.SpawnsInRange | demo/player_boulders.py:183-184 | every drawn speed lies in [5, 10] and every rotation speed in [5, 100] |
| BouldersDemo.MovedKeepsOk | demo/player_boulders.py:127-137 | a live boulder or a newly spawned one keeps the boulder invariant after its update unless removed |
| BouldersDemo.StepKeepsInvariant | demo/player_boulders.py:172-227 | every iteration keeps the player on screen and, when not jumping, at rest on the ground line; every live boulder keeps speeds in range, an angle in [0, 360), the rotated size and its centre on the spawn line, and is not past the left edge |
| BouldersDemo.BouldersJumpLands | demo/player_boulders.py:65-78 | without a Down press, and with an arc that stays below the top of the screen, the player with jump power 15 is airborne for 60 updates and back at its starting height on update 61 |
| BouldersDemo.UpdateOne | demo/player_boulders.py:199-200 | one pass of the boulder loop updates boulder i and keeps it exactly when it is still alive |
| BouldersDemo.UpdateEach | demo/player_boulders.py:199-200 | the boulder loop leaves exactly `Survivors` of the old states, all alive and distinct |
| BouldersDemo.EventLoop | demo/player_boulders.py:174-187 | the event loop clears `running` exactly when a quit or Escape event came, and creates one fresh boulder per timer event from its two draws, in queue order |
| BouldersDemo.World.constructor | demo/player_boulders.py:147-169 | before the loop: a grounded player with jump power 15, no boulders, `running` true, score 0; with a player image no larger than the screen, the scene satisfies the loop invariant `SceneOk` |
| BouldersDemo.World.HandleEvents | demo/player_boulders.py:174-187 | the new boulders join the group after the old ones, and the timer count grows by their number |
| BouldersDemo.World.UpdateBoulders | demo/player_boulders.py:199-200 | the group becomes `Survivors` of its states |
| BouldersDemo.World.Collide | demo/player_boulders.py:215-219 | a hit is exactly an overlap with a live boulder; it kills the player, reports the current score and clears `running` |
| BouldersDemo.World.FinishIteration | demo/player_boulders.py:215-227 | the collision test, then the score grows by exactly 1 |
| BouldersDemo.World.MoveSprites | demo/player_boulders.py:174-200 | the event loop, then the player update, then every boulder update, as `Step` orders them |
| BouldersDemo.World.Tick | demo/player_boulders.py:172-227 | one iteration changes the world exactly as `Step` does; the report is `Report`; the world invariant is kept |

## Left out

- Rendering and set-up are not modelled: `pygame.init`, the display, `fill`, `blit`, `flip`, image loading and colour keys. The `all_sprites` and `player_group` groups only serve drawing, so they are left out too. Image sizes are parameters.
- `clock.tick` frame pacing and the 2000 ms spacing of the boulder timer are left out. Timer firings arrive as events in the input, and a ghost counter bounds them at 100.
- `print` of the hit message is not modelled as output. `BouldersDemo.World.Tick` returns the value it would print. `game.py`'s fixed message is the hit flag returned by `Game.World.Tick`.
- The `while running` loop itself is modelled one iteration at a time (`Tick`). Its repetition is the function `BouldersDemo.Play`, on values. `game.py` has no score, so it gets no such function.
- `random.randint` becomes the draws carried by each timer event. In `game.py` the draw happens inside `Boulder()`, so `Game.Boulder.constructor` requires a speed in [4, 12]. In the demo the ranges enter through `DrawsInRange` in the invariant lemma.
- `pygame.transform.rotate` is a foreign image operation. It is the parameter `rotate`, which gives the rotated size for an angle; the pixels are not modelled.
- pygame's truncation of fractional `move_ip` offsets is the parameter `toPixels`. The trajectory lemmas assume that it is odd and preserves sign, and that it turns the launch velocity into a move of at least one pixel.
- `spritecollideany` and `colliderect` are pygame library code. They are modelled as half-open box overlap, in which touching edges and empty boxes never collide; this is an assumption about pygame.
- A pygame `Group` is modelled as a sequence of distinct live sprites in insertion order. The boulder loop drops a killed boulder from the group when the loop ends, not at the moment of the kill.
- The event loops (`Game.EventLoop`, `Game.World.HandleEvents`, `BouldersDemo.EventLoop`, `BouldersDemo.World.HandleEvents`) collect the new boulders and append them to the group after the loop. pygame adds each one at once. The resulting group is the same, since nothing in the event loop reads the group.
- `PlayerDemo.Player.Update` is split into three helper methods, `JumpStep`, `MoveByKeys` and `KeepOnScreen`, which follow the source's three phases.
- `demo/player.py`'s `main` is only set-up and drawing around `Player.update`, so it is not modelled. `demo/blank_screen.py` is not part of this model.
- Floats are left out. The demo velocity is exact as a count of half-pixels.
- No screen clamp is added to `game.py`'s player, because the source has none. A full jump rises 1275 pixels, above the top of the window, and the model says so (`Game.PlayerApex`).
