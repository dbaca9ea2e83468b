/**
  The script's mutable world: the player object and the module-level
  variables and arrays, updated in place by the game loop, the spawners and
  the store handlers. Every method is proved against the transition of the
  same name in module Rules, through the abstract value Snapshot().
 */
module Game {
  import opened Rules

  /** The player; position, aim and thrust are not modelled. */
  class Player {
    var energy: real
    var health: int   // nothing ever lowers it

    constructor ()
      ensures energy == EnergyCap && health == 100
    {
      energy := EnergyCap;
      health := 100;
    }

    /** The energy line of Player.update. */
    method Update(tier: int)
      modifies this
      ensures energy == Regen(old(energy), tier) && health == old(health)
      ensures tier >= 1 && 0.0 < old(energy) <= EnergyCap ==> 0.0 < energy <= EnergyCap
    {
      energy := Regen(energy, tier);
    }
  }

  class World {
    var tier: int
    var gemsCollected: int
    var bossCount: int
    var enemies: seq<Enemy>
    var bullets: seq<Bullet>
    var bulletsEnemy: seq<Bullet>
    var drones: seq<Drone>
    var currentBoss: Option<Boss>
    const player: Player

    /** The world as a value of Rules.State. */
    function Snapshot(): State
      reads this, player
    {
      State(tier, gemsCollected, bossCount, enemies, bullets, bulletsEnemy, drones, currentBoss, player.energy)
    }

    ghost predicate Valid()
      reads this, player
    {
      Inv(Snapshot())
    }

    /** Start-up: the globals' initial values, a new player and one call of
        spawnEnemies. */
    constructor ()
      ensures Valid() && fresh(player)
      ensures Snapshot() == Initial()
    {
      tier, gemsCollected, bossCount := 1, 0, 0;
      enemies, bullets, bulletsEnemy, drones := [], [], [], [];
      currentBoss := None;
      player := new Player();
      new;
      SpawnEnemies();
    }

    /** spawnEnemies: push new enemies until there are six. */
    method SpawnEnemies()
      requires Valid()
      modifies this
      ensures Valid()
      ensures Snapshot() == Rules.SpawnEnemies(old(Snapshot()))
    {
      while |enemies| < EnemyFloor
        invariant Refill(enemies, tier) == Refill(old(enemies), tier)
        invariant Snapshot() == old(Snapshot()).(enemies := enemies)
        decreases EnemyFloor - |enemies|
      {
        enemies := enemies + [NewEnemy(tier)];
      }
    }

    /** spawnBoss. */
    method SpawnBoss()
      requires Valid()
      modifies this
      ensures Valid()
      ensures Snapshot() == Rules.SpawnBoss(old(Snapshot()))
    {
      bossCount := bossCount + 1;
      enemies := [];
      currentBoss := Some(NewBoss(tier));
    }

    /** One hit of bullet `bullet` on enemy `enemy`, as the body of the
        update loop's overlap test performs it. */
    method Hit(bullet: nat, enemy: nat)
      requires Valid()
      requires enemy < |enemies|
      modifies this
      ensures Valid()
      ensures Snapshot() == Rules.Hit(old(Snapshot()), bullet, enemy)
    {
      var health := enemies[enemy].health - HitDamagePerTier * tier;
      enemies := enemies[enemy := Enemy(health)];
      bullets := RemoveAt(bullets, bullet);
      if health <= 0 {
        enemies := RemoveAt(enemies, enemy);
        gemsCollected := gemsCollected + GemsPerKill;
        if gemsCollected % BossMilestone == 0 {
          SpawnBoss();
        }
      }
    }

    /** Boss.fire: twelve bullets, one per spoke. */
    method BossFire()
      requires Valid()
      requires currentBoss.Some?
      modifies this
      ensures Valid()
      ensures Snapshot() == Rules.BossFire(old(Snapshot()))
    {
      for i := 0 to VolleySize
        invariant bulletsEnemy == old(bulletsEnemy) + Volley(i)
        invariant Snapshot() == old(Snapshot()).(bulletsEnemy := bulletsEnemy)
      {
        bulletsEnemy := bulletsEnemy + [Bullet(Spoke(i), BossBulletSpeed)];
      }
    }

    /** The boss block of update, with the random roll of Boss.update given
        as `fires`. */
    method BossUpdate(fires: bool)
      requires Valid()
      modifies this
      ensures Valid()
      ensures Snapshot() == Rules.BossUpdate(old(Snapshot()), fires)
    {
      if currentBoss.Some? {
        if fires {
          BossFire();
        }
        if currentBoss.value.health <= 0 {
          currentBoss := None;
          tier := tier + 1;
        }
      }
    }

    /** Player.shoot, which appends to the global bullet list. */
    method Shoot()
      requires Valid()
      modifies this, player
      ensures Valid()
      ensures Snapshot() == Rules.Shoot(old(Snapshot()))
      ensures player.health == old(player.health)
    {
      if player.energy > ShotCost {
        bullets := bullets + [Bullet(Aim, PlayerBulletSpeedPerTier * tier)];
        player.energy := player.energy - ShotCost;
      }
    }

    /** The player's per-frame energy regeneration at the current tier. */
    method RegenerateEnergy()
      requires Valid()
      modifies player
      ensures Valid()
      ensures Snapshot() == Rules.Regenerate(old(Snapshot()))
      ensures player.health == old(player.health)
    {
      player.Update(tier);
    }

    /** The buyDrone click handler. */
    method BuyDrone()
      requires Valid()
      modifies this
      ensures Valid()
      ensures Snapshot() == Rules.BuyDrone(old(Snapshot()))
    {
      if gemsCollected >= DroneCost {
        gemsCollected := gemsCollected - DroneCost;
        drones := drones + [Drone];
      }
    }

    /** The upgradeTier click handler. */
    method UpgradeTier()
      requires Valid()
      modifies this
      ensures Valid()
      ensures Snapshot() == Rules.UpgradeTier(old(Snapshot()))
    {
      if gemsCollected >= TierCost {
        gemsCollected := gemsCollected - TierCost;
        tier := tier + 1;
      }
    }
  }
}
