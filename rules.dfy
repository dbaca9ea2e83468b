/**
  The progression rules of the arcade shooter: the world's discrete state
  (tier, gems, boss counter, the entity lists, the boss slot and the player's
  energy) and one transition function per operation of the game loop and the
  store. The classes in module Game are proved against these functions.
 */
module Rules {

  datatype Option<T> = None | Some(value: T)

  // Constants of the game, as the script writes them.
  const EnemyFloor: nat := 6              // spawnEnemies tops up to this many
  const EnemyHealthPerTier: int := 20     // Enemy constructor
  const HitDamagePerTier: int := 20       // damage of one bullet hit
  const BossHealthPerTier: int := 1000    // Boss constructor
  const BossPhase: int := 1               // Boss constructor; never read
  const GemsPerKill: int := 5
  const BossMilestone: int := 100         // a kill landing on a multiple spawns a boss
  const VolleySize: nat := 12             // bullets per Boss.fire
  const BossBulletSpeed: int := 5
  const PlayerBulletSpeedPerTier: int := 10
  const ShotCost: real := 5.0
  const EnergyCap: real := 100.0
  const RegenPerTier: real := 0.2
  const DroneCost: int := 50
  const TierCost: int := 200

  /** An enemy; only its health matters to progression. */
  datatype Enemy = Enemy(health: int)

  /** The boss; `phase` is set once and never used. */
  datatype Boss = Boss(health: int, phase: int)

  /** Direction of a bullet: the player's aim at the time of the shot, or
      spoke `index` of a boss volley (angle 2*pi*index/12). */
  datatype Heading = Aim | Spoke(index: nat)

  datatype Bullet = Bullet(heading: Heading, speed: int)

  /** A purchased drone: an empty record with no behaviour. */
  datatype Drone = Drone

  /** The world state that progression reads and writes. */
  datatype State = State(
    tier: int,
    gemsCollected: int,
    bossCount: int,
    enemies: seq<Enemy>,
    bullets: seq<Bullet>,
    bulletsEnemy: seq<Bullet>,
    drones: seq<Drone>,
    currentBoss: Option<Boss>,
    energy: real)

  /** The global invariant every operation keeps. */
  ghost predicate Inv(s: State) {
    && s.tier >= 1
    && s.gemsCollected >= 0
    && s.gemsCollected % GemsPerKill == 0
    && s.bossCount >= 0
    && 0.0 < s.energy <= EnergyCap
  }

  /** Every live enemy and the boss, if any, have positive health. */
  ghost predicate Healthy(s: State) {
    && (forall k :: 0 <= k < |s.enemies| ==> s.enemies[k].health > 0)
    && (s.currentBoss.Some? ==> s.currentBoss.value.health > 0)
  }

  /** A freshly constructed enemy at the given tier. */
  function NewEnemy(tier: int): (e: Enemy)
    ensures e.health == 20 * tier
    ensures tier >= 1 ==> e.health > 0
  {
    Enemy(EnemyHealthPerTier * tier)
  }

  /** A freshly constructed boss at the given tier. */
  function NewBoss(tier: int): (b: Boss)
    ensures b.health == 1000 * tier && b.phase == 1
    ensures tier >= 1 ==> b.health > 0
  {
    Boss(BossHealthPerTier * tier, BossPhase)
  }

  /** The state right after the script's start-up: fresh globals, a fresh
      player and one call of spawnEnemies. No boss is present. */
  function Initial(): (s: State)
    ensures Inv(s) && Healthy(s)
    ensures s.tier == 1 && s.gemsCollected == 0 && s.bossCount == 0
    ensures |s.enemies| == EnemyFloor && s.currentBoss == None && s.energy == EnergyCap
    ensures forall k :: 0 <= k < |s.enemies| ==> s.enemies[k] == NewEnemy(1)
    ensures s.bullets == [] && s.bulletsEnemy == [] && s.drones == []
  {
    SpawnEnemies(State(1, 0, 0, [], [], [], [], None, EnergyCap))
  }

  /** The enemy list after spawnEnemies: new enemies of the current tier are
      appended until there are at least EnemyFloor of them. */
  function Refill(enemies: seq<Enemy>, tier: int): (r: seq<Enemy>)
    decreases EnemyFloor - |enemies|
    ensures |r| == if |enemies| < EnemyFloor then EnemyFloor else |enemies|
    ensures r[..|enemies|] == enemies
    ensures forall k :: |enemies| <= k < |r| ==> r[k] == NewEnemy(tier)
  {
    if |enemies| >= EnemyFloor then enemies
    else Refill(enemies + [NewEnemy(tier)], tier)
  }

  /** Array.prototype.splice(i, 1): drops the element at i, and does nothing
      when i is past the end. */
  function RemoveAt<T>(s: seq<T>, i: nat): (r: seq<T>)
    ensures i < |s| ==> |r| == |s| - 1
    ensures i < |s| ==> forall k :: 0 <= k < i ==> r[k] == s[k]
    ensures i < |s| ==> forall k :: i <= k < |r| ==> r[k] == s[k + 1]
    ensures i >= |s| ==> r == s
    ensures forall x :: x in r ==> x in s
  {
    if i < |s| then s[..i] + s[i + 1..] else s
  }

  /** spawnEnemies. */
  function SpawnEnemies(s: State): (t: State)
    ensures t == s.(enemies := t.enemies)
    ensures |t.enemies| >= EnemyFloor && |t.enemies| >= |s.enemies|
    ensures t.enemies[..|s.enemies|] == s.enemies
    ensures forall k :: |s.enemies| <= k < |t.enemies| ==> t.enemies[k].health == EnemyHealthPerTier * s.tier
    ensures |s.enemies| >= EnemyFloor ==> t == s
    ensures Inv(s) ==> Inv(t)
    ensures Inv(s) && Healthy(s) ==> Healthy(t)
  {
    s.(enemies := Refill(s.enemies, s.tier))
  }

  /** spawnBoss. */
  function SpawnBoss(s: State): (t: State)
    ensures t.bossCount == s.bossCount + 1
    ensures t.enemies == [] && t.currentBoss == Some(Boss(BossHealthPerTier * s.tier, BossPhase))
    ensures t == s.(bossCount := t.bossCount, enemies := [], currentBoss := t.currentBoss)
    ensures Inv(s) ==> Inv(t) && Healthy(t)
  {
    s.(bossCount := s.bossCount + 1, enemies := [], currentBoss := Some(NewBoss(s.tier)))
  }

  /** Whether a hit at this tier brings the enemy's health to zero or below. */
  predicate Kills(e: Enemy, tier: int) {
    e.health - HitDamagePerTier * tier <= 0
  }

  /** One hit of player bullet `bullet` on enemy `enemy` in the update loop:
      the enemy loses 20 * tier health, the bullet is spliced out, and a kill
      removes the enemy, awards gems and, on a multiple of 100, spawns the
      boss. The overlap test itself is the caller's. */
  function Hit(s: State, bullet: nat, enemy: nat): (t: State)
    requires enemy < |s.enemies|
    ensures t.tier == s.tier && t.drones == s.drones && t.bulletsEnemy == s.bulletsEnemy
    ensures t.energy == s.energy
    ensures t.bullets == RemoveAt(s.bullets, bullet)
    ensures Kills(s.enemies[enemy], s.tier) <==> t.gemsCollected == s.gemsCollected + GemsPerKill
    ensures !Kills(s.enemies[enemy], s.tier) ==>
      && t.gemsCollected == s.gemsCollected
      && |t.enemies| == |s.enemies|
      && t.enemies[enemy].health == s.enemies[enemy].health - HitDamagePerTier * s.tier
      && (forall k :: 0 <= k < |s.enemies| && k != enemy ==> t.enemies[k] == s.enemies[k])
      && t.bossCount == s.bossCount && t.currentBoss == s.currentBoss
    ensures Kills(s.enemies[enemy], s.tier) && t.gemsCollected % BossMilestone != 0 ==>
      && t.enemies == RemoveAt(s.enemies, enemy)
      && t.bossCount == s.bossCount && t.currentBoss == s.currentBoss
    ensures Kills(s.enemies[enemy], s.tier) && t.gemsCollected % BossMilestone == 0 ==>
      && t.enemies == []
      && t.bossCount == s.bossCount + 1
      && t.currentBoss == Some(Boss(BossHealthPerTier * s.tier, BossPhase))
    ensures Inv(s) ==> Inv(t)
    ensures Inv(s) && Healthy(s) ==> Healthy(t)
  {
    var health := s.enemies[enemy].health - HitDamagePerTier * s.tier;
    var damaged := s.(enemies := s.enemies[enemy := Enemy(health)], bullets := RemoveAt(s.bullets, bullet));
    if health <= 0 then
      var killed := damaged.(enemies := RemoveAt(damaged.enemies, enemy),
                             gemsCollected := s.gemsCollected + GemsPerKill);
      if killed.gemsCollected % BossMilestone == 0 then SpawnBoss(killed) else killed
    else
      damaged
  }

  /** The bullets of one boss volley of n spokes. */
  function Volley(n: nat): (r: seq<Bullet>)
    ensures |r| == n
    ensures forall k :: 0 <= k < n ==> r[k] == Bullet(Spoke(k), BossBulletSpeed)
  {
    if n == 0 then [] else Volley(n - 1) + [Bullet(Spoke(n - 1), BossBulletSpeed)]
  }

  /** Boss.fire: one radial volley of VolleySize enemy bullets. */
  function BossFire(s: State): (t: State)
    requires s.currentBoss.Some?
    ensures |t.bulletsEnemy| == |s.bulletsEnemy| + VolleySize
    ensures t.bulletsEnemy[..|s.bulletsEnemy|] == s.bulletsEnemy
    ensures forall k :: 0 <= k < VolleySize ==>
      t.bulletsEnemy[|s.bulletsEnemy| + k] == Bullet(Spoke(k), BossBulletSpeed)
    ensures t == s.(bulletsEnemy := t.bulletsEnemy)
  {
    s.(bulletsEnemy := s.bulletsEnemy + Volley(VolleySize))
  }

  /** The boss part of one frame: if a boss is present it may fire (the
      random roll is the caller's `fires`), and a boss at zero health or below
      is cleared and the tier rises. */
  function BossUpdate(s: State, fires: bool): (t: State)
    ensures s.currentBoss == None ==> t == s
    ensures s.currentBoss.Some? && s.currentBoss.value.health <= 0 ==>
      t.currentBoss == None && t.tier == s.tier + 1
    ensures s.currentBoss.Some? && s.currentBoss.value.health > 0 ==>
      t.currentBoss == s.currentBoss && t.tier == s.tier
    ensures |t.bulletsEnemy| == |s.bulletsEnemy| + (if fires && s.currentBoss.Some? then VolleySize else 0)
    ensures t.bulletsEnemy[..|s.bulletsEnemy|] == s.bulletsEnemy
    ensures t == s.(bulletsEnemy := t.bulletsEnemy, currentBoss := t.currentBoss, tier := t.tier)
    ensures Inv(s) ==> Inv(t)
    ensures Healthy(s) ==> Healthy(t) && t.tier == s.tier
  {
    match s.currentBoss
    case None => s
    case Some(boss) =>
      var fired := if fires then BossFire(s) else s;
      if boss.health <= 0 then fired.(currentBoss := None, tier := s.tier + 1) else fired
  }

  /** The energy line of Player.update: regain 0.2 * tier, capped at 100. */
  function Regen(energy: real, tier: int): (r: real)
    ensures r <= EnergyCap
    ensures r <= energy + RegenPerTier * tier as real
    ensures r < EnergyCap ==> r == energy + RegenPerTier * tier as real
    ensures tier >= 1 && energy <= EnergyCap ==> energy < r || r == EnergyCap
    ensures tier >= 1 && 0.0 < energy ==> 0.0 < r
  {
    var raised := energy + RegenPerTier * tier as real;
    if raised < EnergyCap then raised else EnergyCap
  }

  function Regenerate(s: State): (t: State)
    ensures t == s.(energy := Regen(s.energy, s.tier))
    ensures Inv(s) ==> Inv(t)
  {
    s.(energy := Regen(s.energy, s.tier))
  }

  /** Player.shoot: with more than 5 energy, one bullet at the current aim
      and speed 10 * tier, for 5 energy; otherwise nothing. */
  function Shoot(s: State): (t: State)
    ensures s.energy > ShotCost <==> |t.bullets| == |s.bullets| + 1
    ensures s.energy > ShotCost ==>
      t == s.(bullets := s.bullets + [Bullet(Aim, PlayerBulletSpeedPerTier * s.tier)], energy := s.energy - ShotCost)
    ensures s.energy <= ShotCost ==> t == s
    ensures Inv(s) ==> Inv(t)
  {
    if s.energy > ShotCost then
      s.(bullets := s.bullets + [Bullet(Aim, PlayerBulletSpeedPerTier * s.tier)], energy := s.energy - ShotCost)
    else s
  }

  /** The buyDrone handler. */
  function BuyDrone(s: State): (t: State)
    ensures s.gemsCollected >= DroneCost <==> |t.drones| == |s.drones| + 1
    ensures s.gemsCollected >= DroneCost ==>
      t == s.(gemsCollected := s.gemsCollected - DroneCost, drones := s.drones + [Drone])
    ensures s.gemsCollected < DroneCost ==> t == s
    ensures Inv(s) ==> Inv(t) && t.gemsCollected >= 0
  {
    if s.gemsCollected >= DroneCost then
      s.(gemsCollected := s.gemsCollected - DroneCost, drones := s.drones + [Drone])
    else s
  }

  /** The upgradeTier handler. */
  function UpgradeTier(s: State): (t: State)
    ensures s.gemsCollected >= TierCost <==> t.tier == s.tier + 1
    ensures s.gemsCollected >= TierCost ==>
      t == s.(gemsCollected := s.gemsCollected - TierCost, tier := s.tier + 1)
    ensures s.gemsCollected < TierCost ==> t == s
    ensures Inv(s) ==> Inv(t)
  {
    if s.gemsCollected >= TierCost then
      s.(gemsCollected := s.gemsCollected - TierCost, tier := s.tier + 1)
    else s
  }

  /** Everything that can happen to the world, one step at a time. */
  datatype Event =
    | EnemyRefill
    | BulletHitsEnemy(bullet: nat, enemy: nat)
    | BossFrame(fires: bool)
    | PlayerShoot
    | EnergyRegen
    | BuyDroneClick
    | UpgradeTierClick

  predicate IsPurchase(e: Event) {
    e.BuyDroneClick? || e.UpgradeTierClick?
  }

  /** One event applied to the world. `BulletHitsEnemy` stands for a hit on
      a live entry of the current enemy list; an index outside that list
      names no live enemy, and the event then changes nothing. */
  function Step(s: State, e: Event): (t: State)
    ensures Inv(s) ==> Inv(t) && t.tier >= s.tier
    ensures Inv(s) && Healthy(s) ==> Healthy(t)
    ensures Healthy(s) && !e.UpgradeTierClick? ==> t.tier == s.tier
    ensures !IsPurchase(e) ==> t.gemsCollected >= s.gemsCollected
  {
    match e
    case EnemyRefill => SpawnEnemies(s)
    case BulletHitsEnemy(b, j) => if j < |s.enemies| then Hit(s, b, j) else s
    case BossFrame(fires) => BossUpdate(s, fires)
    case PlayerShoot => Shoot(s)
    case EnergyRegen => Regenerate(s)
    case BuyDroneClick => BuyDrone(s)
    case UpgradeTierClick => UpgradeTier(s)
  }

  function Run(s: State, events: seq<Event>): State
    decreases |events|
  {
    if events == [] then s else Run(Step(s, events[0]), events[1..])
  }

  /** Over any sequence of events the invariant holds and tier never falls. */
  lemma {:induction false} RunKeepsInv(s: State, events: seq<Event>)
    requires Inv(s)
    ensures Inv(Run(s, events))
    ensures Run(s, events).tier >= s.tier
    decreases |events|
  {
    if events != [] {
      RunKeepsInv(Step(s, events[0]), events[1..]);
    }
  }

  /** From any state with healthy enemies and boss, the boss is never
      defeated: without tier purchases the tier never moves. */
  lemma {:induction false} TierFrozenWithoutUpgrade(s: State, events: seq<Event>)
    requires Inv(s) && Healthy(s)
    requires forall k :: 0 <= k < |events| ==> !events[k].UpgradeTierClick?
    ensures Inv(Run(s, events)) && Healthy(Run(s, events))
    ensures Run(s, events).tier == s.tier
    decreases |events|
  {
    if events != [] {
      TierFrozenWithoutUpgrade(Step(s, events[0]), events[1..]);
    }
  }

  /** Over any sequence of events, tier purchases included, every live
      enemy and the boss keep positive health. */
  lemma {:induction false} RunKeepsHealthy(s: State, events: seq<Event>)
    requires Inv(s) && Healthy(s)
    ensures Inv(Run(s, events)) && Healthy(Run(s, events))
    decreases |events|
  {
    if events != [] {
      RunKeepsHealthy(Step(s, events[0]), events[1..]);
    }
  }

  /** Gems only ever fall through store purchases. */
  lemma {:induction false} GemsGrowWithoutPurchases(s: State, events: seq<Event>)
    requires forall k :: 0 <= k < |events| ==> !IsPurchase(events[k])
    ensures Run(s, events).gemsCollected >= s.gemsCollected
    decreases |events|
  {
    if events != [] {
      GemsGrowWithoutPurchases(Step(s, events[0]), events[1..]);
    }
  }

  /** Every state reachable from start-up through events that include no
      tier purchase keeps both invariants and stays at tier 1: the boss,
      whenever one appears, is never defeated. */
  lemma ReachableStates(start: State, events: seq<Event>)
    requires start == Initial()
    requires forall k :: 0 <= k < |events| ==> !events[k].UpgradeTierClick?
    ensures Inv(Run(start, events)) && Healthy(Run(start, events))
    ensures Run(start, events).tier == 1
  {
    TierFrozenWithoutUpgrade(start, events);
  }

  // ---------------------------------------------------------------------
  // The boss slot as the script writes it. `currentBoss` is never declared,
  // so reading it throws a ReferenceError until spawnBoss has assigned it;
  // spawnBoss is the only assignment and always increments bossCount, so the
  // global exists exactly when bossCount > 0. None stands for the exception.

  function BossUpdateAsWritten(s: State, fires: bool): (r: Option<State>)
    ensures s.bossCount == 0 <==> r == None
    ensures r.Some? ==> r.value == BossUpdate(s, fires)
  {
    if s.bossCount == 0 then None else Some(BossUpdate(s, fires))
  }

  /** The first frame, which runs straight after start-up, throws. */
  lemma FirstFrameThrows(fires: bool)
    ensures BossUpdateAsWritten(Initial(), fires) == None
    ensures BossUpdate(Initial(), fires) == Initial()
  {
  }
}
