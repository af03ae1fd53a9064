/** Clients that drive the two entities through short frame sequences and
    check, from the contracts alone, what a game loop would observe. */
module Scenarios {
  import Spaceships
  import Enemies

  /** A ship with its shield down survives two hits and is destroyed by the
      third; further hits leave its health at 0. */
  method ShipTakesThreeHits()
  {
    var ship := new Spaceships.Spaceship(800, 600, 24, 24, false);
    ship.TakeDamage();
    assert ship.health == 2 && !ship.IsDestroyed();
    ship.TakeDamage();
    assert ship.health == 1 && !ship.IsDestroyed();
    ship.TakeDamage();
    assert ship.health == 0 && ship.IsDestroyed();
    ship.TakeDamage();
    assert ship.health == 0;
  }

  /** A raised shield blocks a hit. */
  method ShieldBlocksHit()
  {
    var ship := new Spaceships.Spaceship(800, 600, 24, 24, true);
    ship.TakeDamage();
    assert ship.health == Spaceships.InitialHealth;
  }

  /** Holding the fire button fires on the first and fourth move, not the
      two in between. */
  method HeldFireFiresEveryThirdMove()
  {
    var ship := new Spaceships.Spaceship(800, 600, 24, 24, false);
    var fire := Spaceships.Buttons(false, false, false, false, true, false);
    ship.Move(fire, false);
    assert |ship.lasers| == 1;
    ship.Move(fire, false);
    assert |ship.lasers| == 1;
    ship.Move(fire, false);
    assert |ship.lasers| == 1;
    ship.Move(fire, false);
    assert |ship.lasers| == 2;
  }

  /** Within a second of spawning an enemy does not fire; 20 damage destroys
      a fresh enemy, leaving health 0, after which it neither moves nor fires. */
  method EnemyLifecycle()
  {
    var enemy := new Enemies.Enemy(800, 100.0, 1.5, 2.0, 1, 40, 40);
    enemy.Shoot(100.5, 2.0, [0]);
    assert enemy.lasers == [];
    enemy.TakeDamage(20);
    assert enemy.isDestroyed && enemy.health == 0;
    var x := enemy.x;
    enemy.Move(110.0, -1, 1.0);
    enemy.Shoot(110.0, 1.0, [3, -3]);
    assert enemy.x == x && enemy.lasers == [];
  }
}
