# Arcade shooter entities in Dafny

A model of the two game-entity classes of a small 2D arcade shooter and the
properties their per-frame logic guarantees.

- **Spaceship** (the player ship, `spaceship.dfy`, module `Spaceships`): moves
  by `speed` pixels per held direction button, each step guarded by a test made
  *before* the step, so nothing clamps the ship and it can end up to
  `speed - 1` pixels past an edge; fires a laser from its top centre when the
  fire button is held and the cooldown timer is 0, the timer counting `move`
  calls (3 per shot); loses one health point per hit unless its barrier is
  active or its health is already 0; moves its lasers and drops those that are
  off-screen; reports a hitbox centred in its sprite.
- **Enemy** (`enemy.dfy`, module `Enemies`): patrols horizontally, clamped to
  `[0, width - size]`, in a direction that is always -1 or 1 and is redrawn
  when a randomly drawn delay has elapsed; fires one or two lasers, each at the
  sprite's horizontal centre plus a random jitter in
  `[(-size) // 4, size // 4]`, when a randomly drawn interval has elapsed;
  neither moves nor fires once its health is at most 0; takes damage without a
  floor and keeps a destroyed flag that is set when health reaches 0 or below
  and never cleared; reports a hitbox centred by offsets fixed at spawn.
- **EnemyLaser** (`enemy.dfy`): falls by `speed` per move and is off-screen
  once its `y` exceeds the screen height.

Both entity classes are Dafny classes whose methods update their fields in
place, as the Python methods do. Fields that are never reassigned after
construction (screen size, sprite size, speed, cooldown, hitbox sizes) are
`const`. `Spaceship` and `Enemy` each have an object invariant `Valid()` that
every one of their state-changing methods requires and keeps (`EnemyLaser`
has none; its contracts state its fields directly): for the ship,
`0 <= laserTimer <= laserCooldown` and `0 <= health <= 3`; for the enemy, the direction is -1 or 1, the redrawn delays lie in [1, 3] seconds,
the hitbox offsets are `(size - hitbox) // 2` and, on a screen at least one
sprite wide, `0 <= x <= width - size`.

The behaviour that spans several calls is stated on pure functions, with
lemmas about them, and the method contracts tie each new state to those
functions (`Move` to `AxisStep` and `TimerAfterMove`, the ship's
`TakeDamage` to `HealthAfterHit`, `UpdateLasers` to `KeepOnScreen`, the
enemy's `TakeDamage` to `HealthAfterDamages` and `FlagAfterDamages` of the
one hit, `EnemyLaser.Move` to `FallenY` of one move). `TimerAfterMove` and
`HeldFireSchedule` give the firing rhythm under a held button, `HealthAfterHit`/`HealthAfterHits` and
`HitsFloorAtZero` the ship's health, `KeepOnScreen` and its two lemmas the
laser pruning, `FallenY`/`MovesToLeave` the enemy laser's fall, and
`HealthAfterDamages`/`FlagAfterDamages` the enemy's health and destroyed
flag over a sequence of hits. `geometry.dfy` holds the box type both hitboxes
return and what "centred in the sprite" and "inside the sprite" mean.
`scenarios.dfy` drives both classes through short frame sequences (three hits
on the ship, a held fire button, an enemy that is shot down).

Python's `//` appears only with the divisors 2 and 4; for a positive divisor
it rounds toward negative infinity exactly like Dafny's `/`, so `(-size) / 4`
is the source's `-self.size // 4` for every size.

Where the wall clock or a random draw enters, the model takes a parameter:
the clock reading `now` (timestamps and delays are exact `real`s), the new
direction (required to be -1 or 1, as `random.choice([-1, 1])` gives), the
new delay or interval (required to be in [1, 3], as `random.uniform(1, 3)`
gives), and the sequence of jitters, whose length is the number of lasers
(1 or 2, as `random.randint(1, 2)` gives) and whose elements lie in the range
of `random.randint(-size // 4, size // 4)`.

The ship's `move` is described by one function `AxisStep` per axis, with the
guard-then-step order of the source. The code (spaceship.py:36-43) tests each
guard before its step and does not clamp the result, so the ship can end a
step past the screen edge; `MoveCanOvershoot` exhibits such a step. What the
code does keep is the open interval `(-speed, width - size + speed)`: a ship
that starts inside it stays inside.

## Model

| member | source | states |
|---|---|---|
| Spaceships.AxisStep | spaceship.py:36-43 | with no button the coordinate is unchanged; one move changes it by at most `speed`, down only if the back button is held and the position was above 0, up only if the forward button is held and the position was below the limit; a position inside `(-speed, limit + speed)` stays inside it |
| Spaceships.MoveCanOvershoot | spaceship.py:38-39 | nothing clamps the step: from one pixel inside the far edge a step ends `speed - 1` pixels past it |
| Spaceships.TimerAfterMove | spaceship.py:46-61 | after a move the laser timer lies in `0..cooldown-1` when it started in `0..cooldown`; a move that fires leaves it at `cooldown - 1`; otherwise it drops by one while positive and never rises |
| Spaceships.HeldFireSchedule | spaceship.py:46-61 | with the fire button held on every move from timer 0, call k + 1 fires exactly when k is a multiple of 3 (calls 1, 4, 7, ...), and the timer after k >= 1 calls is `2 - (k - 1) % 3` |
| Spaceships.HealthAfterHit | spaceship.py:113-116 | a hit never raises health, keeps a non-negative health non-negative, and changes it, by exactly -1, if and only if the shield is down and health is positive |
| Spaceships.HitsFloorAtZero | spaceship.py:113-116 | k unshielded hits take a non-negative health h to `h - k`, or to 0 once k >= h |
| Spaceships.DestroyedFromThirdHit | spaceship.py:113-120 | from the initial health 3 the ship counts as destroyed (health <= 0) after k unshielded hits exactly when k >= 3 |
| Spaceships.KeepOnScreen | spaceship.py:98 | the pruned list is no longer than the original and holds only lasers of the original that are not off-screen |
| Spaceships.KeepOnScreenCounts | spaceship.py:98 | pruning keeps every on-screen laser as many times as it occurs and drops every off-screen one |
| Spaceships.KeepOnScreenAppend | spaceship.py:98 | pruning distributes over concatenation, so the kept lasers keep their relative order |
| Spaceships.Spaceship.constructor | spaceship.py:6-28 | a new ship is at `(width // 2, height - 40)` with health 3, speed 9, cooldown 3, timer 0 and no lasers, and satisfies the invariant |
| Spaceships.Spaceship.Shoot | spaceship.py:57-61 | when the timer is 0, exactly one laser is appended at `(x + size // 2, y)` and the timer becomes the cooldown; otherwise lasers and timer are unchanged; nothing else changes |
| Spaceships.Spaceship.ActivateBarrier | spaceship.py:63-65 | only the barrier's state changes, to what the barrier reports; the invariant is kept |
| Spaceships.Spaceship.UpdateBarrier | spaceship.py:100-102 | only the barrier's state changes, to what the barrier reports; the invariant is kept |
| Spaceships.Spaceship.Steer | spaceship.py:36-43 | the four guarded steps move `x` and `y` each by its `AxisStep` and change nothing else; the invariant is kept |
| Spaceships.Spaceship.Move | spaceship.py:35-55 | the invariant is kept; x and y move by `AxisStep`; a laser is appended at the new position exactly when fire is held and the timer was 0, and the list is otherwise unchanged; the timer follows `TimerAfterMove`; the barrier changes only when its button is held; health is untouched |
| Spaceships.Spaceship.UpdateLasers | spaceship.py:94-98 | the new list is exactly the lasers each moved one step, with the off-screen ones removed, in order; the invariant is kept |
| Spaceships.Spaceship.GetHitbox | spaceship.py:104-110 | the box is `hitboxWidth` x `hitboxHeight`, centred in the sprite (far margin equal to the near one or one more), and inside the sprite whenever it is no larger |
| Spaceships.Spaceship.TakeDamage | spaceship.py:113-116 | health becomes `HealthAfterHit(health, shield)`, so it falls by one only when unshielded and positive; the invariant `0 <= health <= 3` is kept |
| Enemies.Clamp | enemy.py:44 | the result lies in `[0, hi]` when `hi >= 0` and is 0 otherwise; values already in range are kept, values above go to `hi`, values below 0 go to 0 |
| Enemies.JitterRange | enemy.py:58 | the jitter range is symmetric exactly when size is a multiple of 4; otherwise its left end is one pixel further out |
| Enemies.MovesToLeave | enemy.py:103-110 | a laser falling at positive speed is off-screen after `MovesToLeave` moves and after no fewer |
| Enemies.DamagesAccumulate | enemy.py:62-64 | after a sequence of hits the health is the starting health minus their total, with no floor |
| Enemies.DestroyedIffHealthReachedZero | enemy.py:62-66 | after a sequence of hits the destroyed flag is set exactly when it was set before or the health was at most 0 right after one of the hits |
| Enemies.EnemyLaser.constructor | enemy.py:96-100 | a laser starts at the given position with the given speed and damage (5 and 1 by default) |
| Enemies.EnemyLaser.Move | enemy.py:103-104 | `y` increases by exactly `speed`, which is `FallenY` after one move; `x` is unchanged |
| Enemies.Enemy.constructor | enemy.py:6-29 | a new enemy is at `((width - size) // 2, -size + 60)` with no lasers, the flag clear, both timers at the clock reading, and the invariant (direction -1 or 1, offsets centring the hitbox) |
| Enemies.Enemy.Move | enemy.py:31-44 | a destroyed enemy changes nothing; otherwise the direction and its timer are redrawn exactly when the delay has elapsed, the direction stays -1 or 1, and x becomes the clamped `x + direction * speed`, so it lies in `[0, width - size]`; y is untouched |
| Enemies.Enemy.Shoot | enemy.py:46-60 | a destroyed enemy, or one whose interval has not elapsed, changes nothing; otherwise the timer restarts and one new laser per jitter (one or two) is appended after the old lasers, each at `y + size` and `x + size // 2 + jitter`, inside `[x + size // 2 + (-size) // 4, x + size // 2 + size // 4]`, with speed 5 and damage 1 |
| Enemies.Enemy.TakeDamage | enemy.py:62-66 | health falls by exactly the damage, with no floor, as `HealthAfterDamages` of that one hit; the destroyed flag becomes set when health is at most 0 and is never cleared, as `FlagAfterDamages` of that hit; the invariant is kept |
| Enemies.Enemy.GetHitbox | enemy.py:83-90 | the box is `hitboxWidth` x `hitboxHeight`, centred in the sprite and inside it |

`Spaceships.Spaceship.IsDestroyed` (spaceship.py:118-120) and
`Enemies.EnemyLaser.IsOffScreen` (enemy.py:109-110) are predicates that are
exactly the source's tests, `health <= 0` and `y > screen_height`.

## Left out

- Drawing and image loading: `Image.open(...).convert().resize()`, every `draw` method, `paste` and the health text of the HUD are calls into the imaging library with nothing to state.
- Each clock reading is one parameter `now`: where the source calls `time.time()` twice, once to test the elapsed time and again to store the new timer (enemy.py:37 and :39 in `move`, :51 and :52 in `shoot`), the model stores the same reading it tested, and the constructor's two timers (enemy.py:15 and :27) share one reading. The model therefore does not capture the small gap between the two readings, by which the source's next direction change or shot falls due slightly later.
- The wall clock and the random module are parameters (see above); the model does not capture that real timestamps increase or that `random.uniform` returns floating-point numbers: delays and times are exact reals.
- The hitbox scales (`int(size * 0.6)`, `int(size * 0.8)`) are floating-point products; the constructors take the hitbox width and height as integers between 0 and the sprite size instead.
- The player `Laser` class is not part of this model: a player laser is a position value, and its `move` and `is_off_screen` are passed to `UpdateLasers` as functions. Because lasers are values, the model does not capture aliasing of laser objects between the ship's list and other holders.
- The `Barrier` class is not part of this model: only its `is_active` flag is kept (`shieldUp`), and what `activate` and `deactivate` make of it is a parameter. Its use counter and timing are not modelled.
- The ship fields `barrier_uses`, `is_barrier_active`, `barrier_timer` and `barrier_duration` are never read, so they are not modelled.
- The enemy's `is_destroyed()` method (enemy.py:79-81) is shadowed by the instance attribute of the same name set in the constructor, so it cannot be called on an enemy; only the flag is modelled.
- `move`'s button dictionary: a missing "left", "right", "up", "down" or "barrier" key raises `KeyError` in the source; the model's `Buttons` always has all six flags (a missing "a" reads as false, as in the source).
- Python integers are unbounded like Dafny's `int`, so there is no wrap-around to model; the source's dynamic typing (a float position, say) is not modelled.
