# Game progression of the arcade shooter (main.js)

This project models the discrete progression rules of a browser arcade shooter and proves
properties about them. The player fires bullets at enemies that home in. Each kill earns gems.
Landing on a multiple of 100 gems summons a boss, and beating a boss raises the tier. Gems buy
drones and tier upgrades in the store.

The model covers these parts of the script:

- the module-level integers `tier`, `gemsCollected` and `bossCount`;
- the arrays `enemies`, `bullets`, `bulletsEnemy` and `drones`;
- the boss slot `currentBoss`;
- the player's `energy`.

The following operations change that state:

- `spawnEnemies`;
- `spawnBoss`;
- the hit and kill block of `update`;
- the boss block of `update` and `Boss.fire`;
- `Player.shoot` and the energy line of `Player.update`;
- the two store handlers.

There are two modules:

- `Rules` (rules.dfy) describes the world as a value of type `State`. It has one transition
  function per operation, and each function's contract states what the operation promises.
  The invariants are `Inv` and `Healthy`:
  - `Inv`: tier is at least 1, gems are non-negative and a multiple of 5, and energy is in (0, 100].
  - `Healthy`: every live enemy and the boss have positive health.
  
  `Step` and `Run` apply any sequence of events. Lemmas proved by induction over `Run` show
  that the invariants hold over whole sessions.
- `Game` (game.dfy) holds the mutable objects. `Player` is a class. `World` is a class whose
  fields are the script's globals. Its methods update those fields in place, and the loops in
  `spawnEnemies` and `Boss.fire` are kept. Each method is proved to produce
  `Rules.X(old(Snapshot()))`, where `Snapshot()` is the world read as a `State`.

Behaviour of the script that the model reproduces:

- **No `break` after a hit.** One bullet keeps testing the remaining enemies, so it can hit
  several of them, and `bullets.splice(i, 1)` can then run more than once. `Hit(bullet, enemy)`
  is a single hit. Nothing in the model claims that the first match wins. A bullet index past
  the end of the list is allowed, and then the splice does nothing, as in JavaScript.
- **Boss health never falls.** Bullets are only tested against `enemies`. `TierFrozenWithoutUpgrade`
  proves that from any healthy state the boss is never defeated, so without store upgrades the
  tier never moves. The defeat transition is still modelled, on its own, in `BossUpdate`.
- **`shoot` is never called** (`mouse.left` is set but never read), and `spawnEnemies` runs
  only once, at start-up. Both are modelled as operations. Nothing in the script triggers them
  during play.

A boss spawns when a kill leaves `gemsCollected` at an exact multiple of 100
(`gemsCollected % 100 === 0`, main.js:143). Gems are always a multiple of 5 and a kill adds 5,
so a kill that reaches or passes a multiple of 100 always lands exactly on it. The JavaScript `%` truncates, but testing the result against zero gives the same answer as
Dafny's `%` for every sign.

## Model

| member | source | states |
|---|---|---|
| `Rules.NewEnemy` | main.js:83 | a new enemy has health 20 × tier, which is positive at tier ≥ 1 |
| `Rules.NewBoss` | main.js:98-100 | a new boss has health 1000 × tier, positive at tier ≥ 1, and phase 1 |
| `Rules.Initial` | main.js:13-19 | the start-up state has tier 1, no gems, bossCount 0, exactly six enemies each of health 20, empty bullet, enemy-bullet and drone lists, full energy and no boss; it satisfies `Inv` and `Healthy` |
| `Rules.Refill` | main.js:117-119 | the refilled list keeps the old list as a prefix, has length max(6, old length), and every appended enemy has health 20 × tier |
| `Rules.RemoveAt` | main.js:139-141 | `splice(i, 1)`: for an index in range, the result is one shorter, keeps the elements before i and shifts the rest down; past the end, nothing changes; no new element appears |
| `Rules.SpawnEnemies` | main.js:117-119 | only the enemy list changes, and only by appending; afterwards there are at least 6 enemies; with 6 or more already the state is unchanged; new enemies have health 20 × tier; keeps `Inv` and `Healthy` |
| `Rules.SpawnBoss` | main.js:121-125 | bossCount rises by 1, the enemy list is emptied, the boss has health 1000 × tier and phase 1, nothing else changes; the result is `Healthy` under `Inv` |
| `Rules.Hit` | main.js:137-145 | the bullet is spliced out; a kill happens exactly when gems rise by exactly 5; otherwise only the target loses exactly 20 × tier health; a kill removes the target, and when the new total is a multiple of 100 the enemies are cleared, bossCount rises by 1 and a boss with 1000 × tier health appears; tier, drones, enemy bullets and energy are unchanged; keeps `Inv` and `Healthy` |
| `Rules.Volley` | main.js:107-110 | a volley of n bullets has bullet k on spoke k at speed 5 |
| `Rules.BossFire` | main.js:106-111 | exactly 12 enemy bullets are appended, one per spoke, at speed 5; player bullets, enemies and everything else are unchanged |
| `Rules.BossUpdate` | main.js:154-160 | with no boss nothing changes; a boss at health ≤ 0 is cleared and tier rises by exactly 1; otherwise the boss stays and tier is unchanged; firing adds 12 enemy bullets; keeps `Inv`; in a `Healthy` state tier never changes |
| `Rules.Regen` | main.js:58 | regenerated energy never exceeds 100 nor the old energy plus 0.2 × tier, and it falls short of 100 only when it equals the old energy plus 0.2 × tier, so it is min(100, energy + 0.2 × tier); at tier ≥ 1 it never loses energy below the cap and stays positive |
| `Rules.Regenerate` | main.js:58 | only the player's energy changes, to the regenerated value; keeps `Inv` |
| `Rules.Shoot` | main.js:60-65 | a bullet is added exactly when energy > 5; then exactly one bullet with speed 10 × tier is appended and energy drops by exactly 5; otherwise the state is unchanged; keeps energy in (0, 100] |
| `Rules.BuyDrone` | main.js:194-199 | a drone is added exactly when gems ≥ 50; then gems drop by exactly 50 and nothing else changes; otherwise the state is unchanged; keeps `Inv` |
| `Rules.UpgradeTier` | main.js:200-205 | tier rises exactly when gems ≥ 200; then gems drop by exactly 200 and tier rises by exactly 1; otherwise the state is unchanged; keeps `Inv` |
| `Rules.Step` | main.js:127-161 | every event keeps `Inv` and never lowers tier; events keep `Healthy`; in a `Healthy` state only a tier purchase changes tier; only purchases lower gems |
| `Rules.RunKeepsInv` | main.js:17-18 | over any sequence of events, tier ≥ 1 and never decreases, gems stay ≥ 0 and a multiple of 5, and energy stays in (0, 100] |
| `Rules.TierFrozenWithoutUpgrade` | main.js:135-160 | from a healthy state, no sequence of events without a tier purchase ever defeats the boss or changes tier |
| `Rules.RunKeepsHealthy` | main.js:135-160 | over any sequence of events, tier purchases included, `Inv` holds and every live enemy and the boss keep positive health, so the boss is never defeated |
| `Rules.GemsGrowWithoutPurchases` | main.js:142 | without store purchases, gems never decrease |
| `Rules.ReachableStates` | main.js:170-172 | every state reachable from start-up without tier purchases keeps `Inv` and `Healthy` and stays at tier 1 |
| `Rules.BossUpdateAsWritten` | main.js:154 | the script's boss block throws a ReferenceError exactly when no boss has ever been spawned; otherwise it behaves as `BossUpdate` |
| `Rules.FirstFrameThrows` | main.js:172 | the first frame after start-up throws in the script, while the corrected boss block leaves the state unchanged |
| `Game.Player.constructor` | main.js:40-45 | a new player has energy 100 and health 100 |
| `Game.Player.Update` | main.js:58 | energy becomes the regenerated value, health is unchanged, and energy stays in (0, 100] at tier ≥ 1 |
| `Game.World.constructor` | main.js:170-171 | the new world equals `Rules.Initial()` and is valid |
| `Game.World.SpawnEnemies` | main.js:117-119 | the while loop leaves the world equal to `Rules.SpawnEnemies` of the old world, and the world stays valid |
| `Game.World.SpawnBoss` | main.js:121-125 | the world becomes `Rules.SpawnBoss` of the old world and stays valid |
| `Game.World.Hit` | main.js:137-145 | the world becomes `Rules.Hit` of the old world and stays valid |
| `Game.World.BossFire` | main.js:106-111 | the counted loop leaves the world equal to `Rules.BossFire` of the old world, and the world stays valid |
| `Game.World.BossUpdate` | main.js:154-160 | the world becomes `Rules.BossUpdate` of the old world and stays valid |
| `Game.World.Shoot` | main.js:60-65 | the world becomes `Rules.Shoot` of the old world, stays valid, and player health is unchanged |
| `Game.World.RegenerateEnergy` | main.js:58 | the world becomes `Rules.Regenerate` of the old world, stays valid, and player health is unchanged |
| `Game.World.BuyDrone` | main.js:194-199 | the world becomes `Rules.BuyDrone` of the old world and stays valid |
| `Game.World.UpgradeTier` | main.js:200-205 | the world becomes `Rules.UpgradeTier` of the old world and stays valid |

## Left out

- Rendering and DOM updates (`draw`, `ctx.*`, the energy, health and gem readouts, store visibility): these are output only.
- Event listeners, `requestAnimationFrame` and `location.reload`: these are host plumbing. A reload corresponds to constructing a new `World`.
- Positions, velocities, aim angle, thrust, drag, enemy homing and its division by zero at distance 0, boss descent and bullet motion: these are floating-point geometry with no discrete contract.
- The overlap test (`Math.hypot` against the radii): the caller of `Hit` decides that a bullet overlaps an enemy.
- Randomness: enemy spawn positions are not modelled, and the 2% boss-fire roll is the `fires` argument of `BossUpdate`.
- The nested `forEach` over arrays that `splice` and `spawnBoss` change during iteration: the model gives each hit as its own step, on an entry of the current enemy list. It does not capture the index-shifting order of one frame. It also does not capture stale kills. When a kill spawns the boss partway through the loop, `enemies` points at a new empty array (main.js:123), but the inner `forEach` keeps visiting the old one. A later overlap in the same loop still costs that enemy health, splices `bullets` and, on a kill, adds 5 gems. Only its `enemies.splice(j, 1)` is lost, because it acts on the empty array.
- Energy is a `real`, so the rounding of JavaScript doubles (0.2 is not exact) is not modelled.
- Enemies, bullets and the boss are values, not shared objects: nothing in the script aliases them.
- `Rules.Shoot`: the bullet records only that it flies at the player's aim (`Aim`), not the angle, because aim is geometry.
- Off-screen bullets are never removed in the script, and the model keeps them too. Boss bullets never hurt the player, and player health stays 100.
- The unused `gems`, `powerUps` and `keys` globals and the boss's unused `phase` have no behaviour. `phase` is kept as a field.

## Findings

| source | as written | input that shows it | evidently intended | confidence | as-written member | corrected member |
|---|---|---|---|---|---|---|
| main.js:154 | `if (currentBoss)` reads a global that is never declared; only `spawnBoss` assigns it | the first call of `update()` at main.js:172, before any boss has spawned, throws a ReferenceError. The frame loop never reschedules. The uncaught error also stops the rest of the script, so the input listeners and store handlers at main.js:174-209 are never installed | `currentBoss` declared and empty at start-up, so a frame with no boss leaves the boss state alone | high, not executed | `Rules.BossUpdateAsWritten` | `Rules.BossUpdate` |
