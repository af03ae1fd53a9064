/** The player ship: input-driven movement without clamping, a laser cooldown
    counted in `move` calls, shield-gated damage with a floor at 0, pruning of
    the ship's lasers and a centred hitbox.

    The `Laser` and `Barrier` classes the ship uses are not part of this model.
    A player laser is a value holding its position; how it moves and when it is
    off-screen are passed in as functions. The barrier is reduced to the one
    thing the ship reads from it, whether it is active (`shieldUp`); what
    `activate` and `deactivate` make of it is passed in as a boolean.
 */
module Spaceships {
  import opened Geometry

  const InitialHealth := 3
  const ShipSpeed := 9
  const LaserCooldown := 3
  /** The ship spawns this many pixels above the bottom edge. */
  const SpawnOffset := 40

  /** A player laser, at the position the ship fires it from. */
  datatype Laser = Laser(x: int, y: int)

  /** The input flags `move` reads; the Python dictionary's missing "a" key
      reads as false, which is `fire == false` here. */
  datatype Buttons = Buttons(left: bool, right: bool, up: bool, down: bool, fire: bool, barrier: bool)

  /** One axis of `move`: step back by `speed` if the position is above 0, then
      step forward by `speed` if the position reached so far is below `limit`.
      Each guard is tested before its step, and nothing clamps the result. */
  function AxisStep(p: int, limit: int, back: bool, forward: bool, speed: int): (r: int)
    ensures !back && !forward ==> r == p
    ensures speed >= 0 ==> p - speed <= r <= p + speed
    ensures speed >= 0 && r < p ==> back && p > 0
    ensures speed >= 0 && r > p ==> forward && p < limit
    ensures speed >= 0 && -speed < p < limit + speed ==> -speed < r < limit + speed
  {
    var p1 := if back && p > 0 then p - speed else p;
    if forward && p1 < limit then p1 + speed else p1
  }

  /** With no clamping the ship can end a step past the edge: from one pixel
      inside the far edge, a forward step overshoots it by `speed - 1`. */
  lemma MoveCanOvershoot(limit: int, speed: int)
    requires speed >= 2
    ensures AxisStep(limit - 1, limit, false, true, speed) == limit + speed - 1 > limit
  {
  }

  /** A `move` call shoots exactly when the fire button is held and the
      cooldown timer is exactly 0. */
  predicate Fires(t: int, fire: bool)
  {
    fire && t == 0
  }

  /** The laser timer after one `move`: `shoot` (run first) may reset it to the
      cooldown, then it is decremented once if positive. */
  function TimerAfterMove(t: int, fire: bool): (r: int)
    ensures 0 <= t <= LaserCooldown ==> 0 <= r < LaserCooldown
    ensures Fires(t, fire) ==> r == LaserCooldown - 1
    ensures !Fires(t, fire) ==> r <= t && (t > 0 ==> r == t - 1)
  {
    var t1 := if Fires(t, fire) then LaserCooldown else t;
    if t1 > 0 then t1 - 1 else t1
  }

  /** The laser timer after `k` calls of `move` with the fire button held on
      every call, from the initial timer 0. */
  function TimerAfterHeldMoves(k: nat): int
  {
    if k == 0 then 0 else TimerAfterMove(TimerAfterHeldMoves(k - 1), true)
  }

  /** With the fire button held, call number k + 1 fires exactly when k is a
      multiple of the cooldown: calls 1, 4, 7, ... fire and the two in between
      do not. */
  lemma {:induction false} HeldFireSchedule(k: nat)
    ensures k >= 1 ==> TimerAfterHeldMoves(k) == LaserCooldown - 1 - (k - 1) % LaserCooldown
    ensures Fires(TimerAfterHeldMoves(k), true) <==> k % LaserCooldown == 0
  {
    if k >= 1 {
      HeldFireSchedule(k - 1);
      if k == 1 {
      } else {
        var t := TimerAfterHeldMoves(k - 1);
        assert t == 2 - (k - 2) % 3;
        if (k - 2) % 3 == 2 {
          assert (k - 1) % 3 == 0;
        } else {
          assert (k - 1) % 3 == (k - 2) % 3 + 1;
        }
      }
    }
  }

  /** Health after one hit: it drops by 1 only when the shield is down and the
      health is still positive. */
  function HealthAfterHit(h: int, shielded: bool): (r: int)
    ensures r <= h
    ensures h >= 0 ==> r >= 0
    ensures r != h <==> !shielded && h > 0
    ensures r != h ==> r == h - 1
  {
    if !shielded && h > 0 then h - 1 else h
  }

  /** Health after `k` unshielded hits. */
  function HealthAfterHits(h: int, k: nat): int
  {
    if k == 0 then h else HealthAfterHit(HealthAfterHits(h, k - 1), false)
  }

  /** Unshielded hits lower a non-negative health one by one until it is 0. */
  lemma {:induction false} HitsFloorAtZero(h: nat, k: nat)
    ensures HealthAfterHits(h, k) == if k >= h then 0 else h - k
  {
    if k > 0 {
      HitsFloorAtZero(h, k - 1);
    }
  }

  /** From the initial health of 3 the ship is destroyed exactly from the third
      unshielded hit on. */
  lemma DestroyedFromThirdHit(k: nat)
    ensures HealthAfterHits(InitialHealth, k) <= 0 <==> k >= 3
  {
    HitsFloorAtZero(InitialHealth, k);
  }

  /** The lasers of `s` that are not off-screen at height `h`, in their order. */
  function KeepOnScreen(s: seq<Laser>, offScreen: (Laser, int) -> bool, h: int): (r: seq<Laser>)
    ensures |r| <= |s|
    ensures forall l :: l in r ==> l in s && !offScreen(l, h)
  {
    if s == [] then []
    else (if offScreen(s[0], h) then [] else [s[0]]) + KeepOnScreen(s[1..], offScreen, h)
  }

  /** Every laser that is on screen is kept as often as it occurs, and every
      laser that is off-screen is dropped. */
  lemma {:induction false} KeepOnScreenCounts(s: seq<Laser>, offScreen: (Laser, int) -> bool, h: int)
    ensures forall l :: multiset(KeepOnScreen(s, offScreen, h))[l] == if offScreen(l, h) then 0 else multiset(s)[l]
  {
    if s != [] {
      KeepOnScreenCounts(s[1..], offScreen, h);
      assert s == [s[0]] + s[1..];
    }
  }

  /** Pruning keeps relative order: it distributes over concatenation. */
  lemma {:induction false} KeepOnScreenAppend(a: seq<Laser>, b: seq<Laser>, offScreen: (Laser, int) -> bool, h: int)
    ensures KeepOnScreen(a + b, offScreen, h) == KeepOnScreen(a, offScreen, h) + KeepOnScreen(b, offScreen, h)
  {
    if a != [] {
      KeepOnScreenAppend(a[1..], b, offScreen, h);
      assert (a + b)[1..] == a[1..] + b;
    } else {
      assert a + b == b;
    }
  }

  /** Every laser of `s` moved one step. */
  function Moved(s: seq<Laser>, step: Laser -> Laser): (r: seq<Laser>)
    ensures |r| == |s|
  {
    seq(|s|, k requires 0 <= k < |s| => step(s[k]))
  }

  class Spaceship {
    const width: int
    const height: int
    const size: int
    const speed: int
    const laserCooldown: int
    const hitboxWidth: int
    const hitboxHeight: int
    var x: int
    var y: int
    var health: int
    var lasers: seq<Laser>
    var laserTimer: int
    /** Whether the ship's barrier is active. */
    var shieldUp: bool

    ghost predicate Valid()
      reads this
    {
      speed == ShipSpeed && laserCooldown == LaserCooldown &&
      0 <= laserTimer <= laserCooldown &&
      0 <= health <= InitialHealth &&
      0 <= hitboxWidth <= size && 0 <= hitboxHeight <= size
    }

    /** A ship at the bottom centre of a `width` x `height` screen with full
        health and no lasers; `shieldActive` is the new barrier's state. */
    constructor (width: int, height: int, hitboxWidth: int, hitboxHeight: int, shieldActive: bool, size: int := 40)
      requires 0 <= hitboxWidth <= size && 0 <= hitboxHeight <= size
      ensures Valid()
      ensures this.width == width && this.height == height && this.size == size
      ensures this.hitboxWidth == hitboxWidth && this.hitboxHeight == hitboxHeight
      ensures x == width / 2 && y == height - SpawnOffset
      ensures health == InitialHealth && lasers == [] && laserTimer == 0
      ensures shieldUp == shieldActive
    {
      this.width, this.height, this.size := width, height, size;
      speed, laserCooldown := ShipSpeed, LaserCooldown;
      this.hitboxWidth, this.hitboxHeight := hitboxWidth, hitboxHeight;
      x, y := width / 2, height - SpawnOffset;
      health, lasers, laserTimer := InitialHealth, [], 0;
      shieldUp := shieldActive;
    }

    /** Fires one laser from the top centre of the ship when the cooldown timer
        is 0 and restarts the cooldown; otherwise does nothing. */
    method Shoot()
      requires Valid()
      modifies this`lasers, this`laserTimer
      ensures Valid()
      ensures old(laserTimer) == 0 ==> lasers == old(lasers) + [Laser(x + size / 2, y)] && laserTimer == laserCooldown
      ensures old(laserTimer) != 0 ==> lasers == old(lasers) && laserTimer == old(laserTimer)
    {
      if laserTimer == 0 {
        lasers := lasers + [Laser(x + size / 2, y)];
        laserTimer := laserCooldown;
      }
    }

    /** Asks the barrier to activate; `nowActive` is whether it then is. */
    method ActivateBarrier(nowActive: bool)
      requires Valid()
      modifies this`shieldUp
      ensures Valid()
      ensures shieldUp == nowActive
    {
      shieldUp := nowActive;
    }

    /** Asks the barrier to deactivate (it decides itself whether its time is
        up); `nowActive` is whether it then is still active. */
    method UpdateBarrier(nowActive: bool)
      requires Valid()
      modifies this`shieldUp
      ensures Valid()
      ensures shieldUp == nowActive
    {
      shieldUp := nowActive;
    }

    /** The four guarded steps `move` starts with. */
    method Steer(b: Buttons)
      requires Valid()
      modifies this`x, this`y
      ensures Valid()
      ensures x == AxisStep(old(x), width - size, b.left, b.right, speed)
      ensures y == AxisStep(old(y), height - size, b.up, b.down, speed)
    {
      if b.left && x > 0 {
        x := x - speed;
      }
      if b.right && x < width - size {
        x := x + speed;
      }
      if b.up && y > 0 {
        y := y - speed;
      }
      if b.down && y < height - size {
        y := y + speed;
      }
    }

    /** One frame of input: guarded steps on both axes, then `shoot` if fire is
        held, then the barrier if its button is held, then one cooldown tick.
        Health is not touched, and lasers are only ever appended. */
    method Move(b: Buttons, barrierNowActive: bool)
      requires Valid()
      modifies this`x, this`y, this`lasers, this`laserTimer, this`shieldUp
      ensures Valid()
      ensures x == AxisStep(old(x), width - size, b.left, b.right, speed)
      ensures y == AxisStep(old(y), height - size, b.up, b.down, speed)
      ensures Fires(old(laserTimer), b.fire) ==> lasers == old(lasers) + [Laser(x + size / 2, y)]
      ensures !Fires(old(laserTimer), b.fire) ==> lasers == old(lasers)
      ensures laserTimer == TimerAfterMove(old(laserTimer), b.fire)
      ensures shieldUp == if b.barrier then barrierNowActive else old(shieldUp)
    {
      Steer(b);
      if b.fire {
        Shoot();
      }
      if b.barrier {
        ActivateBarrier(barrierNowActive);
      }
      if laserTimer > 0 {
        laserTimer := laserTimer - 1;
      }
    }

    /** Moves every laser one step in place, then keeps those that are not
        off-screen at the screen height. */
    method UpdateLasers(step: Laser -> Laser, offScreen: (Laser, int) -> bool)
      requires Valid()
      modifies this`lasers
      ensures Valid()
      ensures lasers == KeepOnScreen(Moved(old(lasers), step), offScreen, height)
    {
      var i := 0;
      while i < |lasers|
        invariant 0 <= i <= |lasers| == |old(lasers)|
        invariant forall k :: 0 <= k < i ==> lasers[k] == step(old(lasers)[k])
        invariant forall k :: i <= k < |lasers| ==> lasers[k] == old(lasers)[k]
      {
        lasers := lasers[i := step(lasers[i])];
        i := i + 1;
      }
      assert lasers == Moved(old(lasers), step);
      lasers := KeepOnScreen(lasers, offScreen, height);
    }

    /** The collision box: `hitboxWidth` x `hitboxHeight`, centred in the
        sprite, and inside it when it is no larger than the sprite. */
    function GetHitbox(): (r: Box)
      reads this
      ensures r.x2 - r.x1 == hitboxWidth && r.y2 - r.y1 == hitboxHeight
      ensures CentredIn(r, x, y, size)
      ensures 0 <= hitboxWidth <= size && 0 <= hitboxHeight <= size ==> Within(r, x, y, size)
    {
      var x1 := x + (size - hitboxWidth) / 2;
      var y1 := y + (size - hitboxHeight) / 2;
      Box(x1, y1, x1 + hitboxWidth, y1 + hitboxHeight)
    }

    /** A hit costs one health point unless the barrier is active or the
        health is already 0. */
    method TakeDamage()
      requires Valid()
      modifies this`health
      ensures Valid()
      ensures health == HealthAfterHit(old(health), shieldUp)
    {
      if !shieldUp && health > 0 {
        health := health - 1;
      }
    }

    /** The ship is destroyed once its health has reached 0. */
    predicate IsDestroyed()
      reads this
    {
      health <= 0
    }
  }
}
