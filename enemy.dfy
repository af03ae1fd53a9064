/** The enemy ship and its projectile: a horizontal patrol clamped to the
    screen, a direction that is always -1 or 1, timer-gated firing of one or two
    lasers at jittered positions, damage without a floor and a destroyed flag
    that stays set, a centred hitbox; and a laser that falls straight down.

    The wall clock and the random draws are parameters: `now` is the value of
    the clock for the call, and every random draw arrives as an argument whose
    range the caller must respect, as the random functions guarantee. Times are
    exact reals here, not floating-point numbers.
 */
module Enemies {
  import opened Geometry

  const EnemySize := 50
  const EnemyHealth := 20
  const EnemySpeed := 2
  /** An enemy spawns with its top edge this far below `-size`. */
  const SpawnDepth := 60
  const LaserSpeed := 5
  const LaserDamage := 1

  /** `v` limited to [0, hi] the way `max(0, min(hi, v))` does it: when `hi`
      is negative the lower bound wins. */
  function Clamp(v: int, hi: int): (r: int)
    ensures hi >= 0 ==> 0 <= r <= hi
    ensures hi < 0 ==> r == 0
    ensures 0 <= v <= hi ==> r == v
    ensures 0 <= hi < v ==> r == hi
    ensures v < 0 ==> r == 0
  {
    var m := if hi < v then hi else v;
    if 0 > m then 0 else m
  }

  /** The jitter range `randint(-size // 4, size // 4)` is symmetric only when
      `size` is a multiple of 4; otherwise Python's flooring makes the left end
      one pixel further out (for the default size 50: -13 to 12). */
  lemma JitterRange(size: int)
    requires size >= 0
    ensures size % 4 == 0 ==> (-size) / 4 == -(size / 4)
    ensures size % 4 != 0 ==> (-size) / 4 == -(size / 4) - 1
  {
  }

  /** The y of a laser that starts at `y` and falls `k` times by `speed`. */
  function FallenY(y: int, speed: int, k: nat): int
    decreases k
  {
    if k == 0 then y else FallenY(y + speed, speed, k - 1)
  }

  /** How many moves a laser falling at a positive `speed` from `y` needs to
      get below the screen height `h`: after that many moves it is off-screen,
      and after any fewer it is not. */
  function MovesToLeave(y: int, speed: int, h: int): (k: nat)
    requires speed > 0
    ensures FallenY(y, speed, k) > h
    ensures forall j :: 0 <= j < k ==> FallenY(y, speed, j) <= h
    decreases if y > h then 0 else h - y + 1
  {
    if y > h then 0
    else
      var k' := MovesToLeave(y + speed, speed, h);
      assert forall j :: 1 <= j < 1 + k' ==> FallenY(y, speed, j) == FallenY(y + speed, speed, j - 1);
      1 + k'
  }

  /** Health after a sequence of `take_damage` calls. */
  function HealthAfterDamages(h: int, ds: seq<int>): int
    decreases |ds|
  {
    if ds == [] then h else HealthAfterDamages(h - ds[0], ds[1..])
  }

  /** The destroyed flag after a sequence of `take_damage` calls. */
  function FlagAfterDamages(flag: bool, h: int, ds: seq<int>): bool
    decreases |ds|
  {
    if ds == [] then flag else FlagAfterDamages(flag || h - ds[0] <= 0, h - ds[0], ds[1..])
  }

  /** Damage accumulates without a floor: the health is the starting health
      minus every amount taken. */
  lemma {:induction false} DamagesAccumulate(h: int, ds: seq<int>)
    ensures HealthAfterDamages(h, ds) == h - Total(ds)
    decreases |ds|
  {
    if ds != [] {
      DamagesAccumulate(h - ds[0], ds[1..]);
    }
  }

  /** The sum of `ds`. */
  function Total(ds: seq<int>): int
  {
    if ds == [] then 0 else ds[0] + Total(ds[1..])
  }

  /** The flag is set after a sequence of hits exactly when it was set before,
      or the health was at most 0 right after one of the hits. */
  lemma {:induction false} DestroyedIffHealthReachedZero(flag: bool, h: int, ds: seq<int>)
    ensures FlagAfterDamages(flag, h, ds) <==>
            flag || exists k :: 1 <= k <= |ds| && HealthAfterDamages(h, ds[..k]) <= 0
    decreases |ds|
  {
    if ds != [] {
      var h' := h - ds[0];
      DestroyedIffHealthReachedZero(flag || h' <= 0, h', ds[1..]);
      forall k | 1 <= k <= |ds|
        ensures HealthAfterDamages(h, ds[..k]) == if k == 1 then h' else HealthAfterDamages(h', ds[1..][..k - 1])
      {
        assert ds[..k][1..] == ds[1..][..k - 1];
        if k == 1 {
          assert ds[..k][1..] == [];
        }
      }
      if flag || h' <= 0 {
        if !flag {
          assert HealthAfterDamages(h, ds[..1]) <= 0;
        }
      } else {
        if exists k :: 1 <= k <= |ds| && HealthAfterDamages(h, ds[..k]) <= 0 {
          var k :| 1 <= k <= |ds| && HealthAfterDamages(h, ds[..k]) <= 0;
          assert 1 <= k - 1 <= |ds[1..]| && HealthAfterDamages(h', ds[1..][..k - 1]) <= 0;
        }
        if exists k :: 1 <= k <= |ds[1..]| && HealthAfterDamages(h', ds[1..][..k]) <= 0 {
          var k :| 1 <= k <= |ds[1..]| && HealthAfterDamages(h', ds[1..][..k]) <= 0;
          assert HealthAfterDamages(h, ds[..k + 1]) <= 0;
        }
      }
    }
  }

  /** A projectile fired by an enemy. */
  class EnemyLaser {
    var x: int
    var y: int
    const speed: int
    const damage: int

    constructor (x: int, y: int, speed: int := LaserSpeed, damage: int := LaserDamage)
      ensures this.x == x && this.y == y && this.speed == speed && this.damage == damage
    {
      this.x, this.y := x, y;
      this.speed, this.damage := speed, damage;
    }

    /** Falls by `speed`; `x` is untouched. */
    method Move()
      modifies this`y
      ensures y == old(y) + speed
      ensures y == FallenY(old(y), speed, 1)
    {
      y := y + speed;
    }

    /** Off-screen once below the screen height. */
    predicate IsOffScreen(screenHeight: int)
      reads this
    {
      y > screenHeight
    }
  }

  class Enemy {
    const width: int
    const size: int
    const speed: int
    const hitboxWidth: int
    const hitboxHeight: int
    const hitboxXOffset: int
    const hitboxYOffset: int
    var health: int
    var x: int
    var y: int
    var lasers: seq<EnemyLaser>
    /** Clock reading at the last shot (or at construction). */
    var laserTimer: real
    /** Seconds that must pass after `laserTimer` before the next shot. */
    var nextLaserInterval: real
    var isDestroyed: bool
    /** Clock reading at the last direction change (or at construction). */
    var directionChangeTimer: real
    /** Seconds that must pass after `directionChangeTimer` before the next change. */
    var nextDirectionChange: real
    var currentDirection: int

    ghost predicate Valid()
      reads this
    {
      (currentDirection == -1 || currentDirection == 1) &&
      0 <= hitboxWidth <= size && 0 <= hitboxHeight <= size &&
      hitboxXOffset == (size - hitboxWidth) / 2 &&
      hitboxYOffset == (size - hitboxHeight) / 2 &&
      1.0 <= nextLaserInterval <= 3.0 && 1.0 <= nextDirectionChange <= 3.0 &&
      (width >= size ==> 0 <= x <= width - size)
    }

    /** An enemy at the top centre of a screen `width` pixels wide, with no
        lasers and the destroyed flag clear. `now` is the clock reading; the
        first firing interval is drawn from [1, 2] seconds, the first
        direction-change delay from [1, 3] and the direction from {-1, 1}. */
    constructor (width: int, now: real, firstLaserInterval: real, firstDirectionChange: real,
                 direction: int, hitboxWidth: int, hitboxHeight: int,
                 size: int := EnemySize, health: int := EnemyHealth, speed: int := EnemySpeed)
      requires 1.0 <= firstLaserInterval <= 2.0
      requires 1.0 <= firstDirectionChange <= 3.0
      requires direction == -1 || direction == 1
      requires 0 <= hitboxWidth <= size && 0 <= hitboxHeight <= size
      ensures Valid()
      ensures this.width == width && this.size == size && this.health == health && this.speed == speed
      ensures this.hitboxWidth == hitboxWidth && this.hitboxHeight == hitboxHeight
      ensures x == (width - size) / 2 && y == -size + SpawnDepth
      ensures lasers == [] && !isDestroyed
      ensures laserTimer == now && nextLaserInterval == firstLaserInterval
      ensures directionChangeTimer == now && nextDirectionChange == firstDirectionChange
      ensures currentDirection == direction
    {
      this.width, this.size, this.health, this.speed := width, size, health, speed;
      x, y := (width - size) / 2, -size + SpawnDepth;
      lasers := [];
      laserTimer, nextLaserInterval := now, firstLaserInterval;
      isDestroyed := false;
      this.hitboxWidth, this.hitboxHeight := hitboxWidth, hitboxHeight;
      hitboxXOffset := (size - hitboxWidth) / 2;
      hitboxYOffset := (size - hitboxHeight) / 2;
      directionChangeTimer, nextDirectionChange := now, firstDirectionChange;
      currentDirection := direction;
    }

    /** One patrol step. A destroyed enemy (health at most 0) does not move.
        Otherwise, once the direction-change delay has elapsed, the direction
        becomes `newDirection` and the delay restarts with `newDelay`; then the
        enemy moves `speed` pixels that way, clamped to [0, width - size]. */
    method Move(now: real, newDirection: int, newDelay: real)
      requires Valid()
      requires newDirection == -1 || newDirection == 1
      requires 1.0 <= newDelay <= 3.0
      modifies this`x, this`currentDirection, this`directionChangeTimer, this`nextDirectionChange
      ensures Valid()
      ensures old(health) <= 0 ==>
                x == old(x) && currentDirection == old(currentDirection) &&
                directionChangeTimer == old(directionChangeTimer) &&
                nextDirectionChange == old(nextDirectionChange)
      ensures old(health) > 0 ==>
                var turn := now - old(directionChangeTimer) >= old(nextDirectionChange);
                currentDirection == (if turn then newDirection else old(currentDirection)) &&
                directionChangeTimer == (if turn then now else old(directionChangeTimer)) &&
                nextDirectionChange == (if turn then newDelay else old(nextDirectionChange)) &&
                x == Clamp(old(x) + currentDirection * speed, width - size)
    {
      if health <= 0 {
        return;
      }
      if now - directionChangeTimer >= nextDirectionChange {
        currentDirection := newDirection;
        directionChangeTimer := now;
        nextDirectionChange := newDelay;
      }
      x := x + currentDirection * speed;
      x := Clamp(x, width - size);
    }

    /** Fires when the enemy is alive and the firing interval has elapsed:
        the timer restarts at `now` with interval `newInterval`, and one laser
        per element of `jitter` (one or two of them) is appended below the
        sprite, at the horizontal centre shifted by that jitter. Otherwise
        nothing changes. */
    method Shoot(now: real, newInterval: real, jitter: seq<int>)
      requires Valid()
      requires 1.0 <= newInterval <= 3.0
      requires 1 <= |jitter| <= 2
      requires forall i :: 0 <= i < |jitter| ==> (-size) / 4 <= jitter[i] <= size / 4
      modifies this`lasers, this`laserTimer, this`nextLaserInterval
      ensures Valid()
      ensures !(old(health) > 0 && now - old(laserTimer) >= old(nextLaserInterval)) ==>
                lasers == old(lasers) && laserTimer == old(laserTimer) &&
                nextLaserInterval == old(nextLaserInterval)
      ensures old(health) > 0 && now - old(laserTimer) >= old(nextLaserInterval) ==>
                laserTimer == now && nextLaserInterval == newInterval &&
                |lasers| == |old(lasers)| + |jitter| &&
                lasers[..|old(lasers)|] == old(lasers) &&
                forall j :: |old(lasers)| <= j < |lasers| ==>
                  var l := lasers[j];
                  fresh(l) && l.x == x + size / 2 + jitter[j - |old(lasers)|] && l.y == y + size &&
                  x + size / 2 + (-size) / 4 <= l.x <= x + size / 2 + size / 4 &&
                  l.speed == LaserSpeed && l.damage == LaserDamage
    {
      if health <= 0 {
        return;
      }
      if now - laserTimer >= nextLaserInterval {
        laserTimer := now;
        nextLaserInterval := newInterval;
        var i := 0;
        while i < |jitter|
          invariant 0 <= i <= |jitter|
          invariant |lasers| == |old(lasers)| + i
          invariant lasers[..|old(lasers)|] == old(lasers)
          invariant laserTimer == now && nextLaserInterval == newInterval
          invariant forall j :: |old(lasers)| <= j < |lasers| ==>
                      var l := lasers[j];
                      fresh(l) && l.x == x + size / 2 + jitter[j - |old(lasers)|] && l.y == y + size &&
                      l.speed == LaserSpeed && l.damage == LaserDamage
        {
          var laser := new EnemyLaser(x + size / 2 + jitter[i], y + size);
          lasers := lasers + [laser];
          i := i + 1;
        }
      }
    }

    /** Health drops by exactly `damage`, with no floor; the destroyed flag is
        set when the result is at most 0 and is never cleared. */
    method TakeDamage(damage: int)
      requires Valid()
      modifies this`health, this`isDestroyed
      ensures Valid()
      ensures health == old(health) - damage
      ensures isDestroyed == (old(isDestroyed) || health <= 0)
      ensures health == HealthAfterDamages(old(health), [damage])
      ensures isDestroyed == FlagAfterDamages(old(isDestroyed), old(health), [damage])
    {
      health := health - damage;
      if health <= 0 {
        isDestroyed := true;
      }
    }

    /** The collision box: `hitboxWidth` x `hitboxHeight`, placed by the
        offsets fixed at construction, hence centred in the sprite and inside
        it. */
    function GetHitbox(): (r: Box)
      reads this
      requires Valid()
      ensures r.x2 - r.x1 == hitboxWidth && r.y2 - r.y1 == hitboxHeight
      ensures CentredIn(r, x, y, size)
      ensures Within(r, x, y, size)
    {
      Box(x + hitboxXOffset, y + hitboxYOffset,
          x + hitboxXOffset + hitboxWidth, y + hitboxYOffset + hitboxHeight)
    }
  }
}
