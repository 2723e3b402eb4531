# Aircraft game simulation, modelled in Dafny

This project models the simulation inside the `Game` class of the browser
arcade shooter in game.js. The player steers a ship, fires one of three
weapons, and fights four kinds of falling enemies. It collects four kinds of
power-ups: rapid fire, shield, multi-shot and heal. A single `update` tick does
the following, in order:

- reads the held keys (movement and firing);
- runs the enemy and power-up spawners;
- moves bullets, enemies and power-ups (with the enemy-vs-player and
  power-up-vs-player collisions);
- ages particles, explosions, the player's trail and the effect timers;
- resolves bullet-vs-enemy collisions.

The model keeps the source's form:

- `Simulation.Game` is a class whose fields are the game's fields. Each
  source method is a method that updates those fields in place. Each
  `filter` pass or `forEach` is a loop proved to compute a function of
  module `Rules` or `Combat`.
- Entities are datatypes (`Entities`). `Seqs` holds the `filter`/`map`
  and `splice` helpers.
- The catalogs are constants of `Entities` with the source's values:
  `Weapons` is the weapon table of game.js:36-64 (cooldown, bullet speed,
  size, damage, colour and pattern), `EnemyTypes` the four archetypes of
  game.js:311-316, and `PowerUpTypes` the four power-ups and their
  durations of game.js:340-345.
- `Phases` states one tick as a function on values. `State` holds the
  fields a tick may change, each step of `update` is a function on it, and
  `Step` chains the steps in the source's order. Every method that runs a
  step is proved to turn the game's state into that step's function of the
  old state, so `Update` is proved to compute `Step`.
- Positions are `real` because the game moves things by 1.5, 0.5 and
  `width / 2`. Health, score, timers and the spawn interval are `int`.
- Health has no floor.
- The shake is overwritten by the last call.
- The 50 points of a power-up do not touch the high score.
- `restartGame` resets only part of the state.
- `checkCollisions` splices both arrays while it walks them with
  `forEach`. A bullet that has hit keeps being compared with the later
  enemies, and each further hit splices whatever bullet then sits at its
  index. The element after a spliced one is skipped. `Combat.Resolve`
  follows these steps exactly, and three worked cases show them. A bullet
  is therefore not limited to one hit per tick.
- Effects that the source applies during a `filter` pass are applied when
  the pass ends. This covers the bullet sparks, the enemy strike and the
  collected power-ups. The final state is the same, because the pass reads
  nothing those effects change. The one exception is the invulnerability
  that a strike sets, and the pass's `struck` result stands for it.

The environment becomes parameters:

- `Date.now()` is `now`.
- The `Math.random()` draws that matter are fields of `Phases.Draws`:
  the archetype and power-up picks, the spawn positions, the zigzag
  direction and the per-bullet spark rolls.
- `Math.sin` in the zigzag motion is a function parameter `wave`.

## Model

| member | source | states |
|---|---|---|
| Entities.Collides | game.js:580-585 | `checkCollision`: two boxes overlap exactly when, on both axes, each one starts strictly before the other ends |
| Entities.CollidesSymmetric | game.js:580-585 | the overlap test gives the same answer whichever box comes first |
| Entities.TouchingDoesNotCollide | game.js:580-585 | boxes that only share an edge or a corner do not collide (strict comparisons) |
| Entities.CollidesIffCommonPoint | game.js:580-585 | for boxes of positive size, the test holds exactly when the open rectangles share a point |
| Entities.Effects.Set | game.js:460 | writing an effect's timer sets that timer to the value and leaves the other two unchanged |
| Entities.NewExplosion | game.js:588-603 | a new explosion starts at time 0 with a maximum time of 40 |
| Entities.InitialPlayer | game.js:74-86 | the player of `initPlayer`: a 40 by 60 ship at x = width / 2 and y = height - 80, speed 5, last shot at 0, cooldown 150, no invulnerability and an empty trail |
| Seqs.Splice | game.js:545 | `splice(k, 1)` removes exactly the element at k and shifts the later ones down; an index past the end removes nothing |
| Seqs.SpliceMultiset | game.js:567 | a splice takes exactly the removed element out of the pool's multiset and adds nothing |
| Rules.WeaponForKey | game.js:108-114 | a key selects a weapon exactly when it is Digit1, Digit2 or Digit3, and the index is always valid |
| Rules.Steer | game.js:185-196 | movement changes only the player's position |
| Rules.SteerStaysInViewport | game.js:185-196 | a player inside the viewport stays inside it, moves at most `speed` per axis, and only its position changes |
| Rules.EffectiveCooldown | game.js:200 | the weapon's cooldown, halved while rapid fire is active |
| Rules.CanFire | game.js:202 | the fire gate: strictly more than the effective cooldown has passed since the last shot |
| Rules.FireGate | game.js:199-205 | the gate holds exactly when strictly more than the cooldown has passed (half of it under rapid fire); a second shot at the same instant is never accepted |
| Rules.Volley | game.js:212-290 | three bullets under multi-shot (drift 0, -1, 1); otherwise one for single and plasma, three for spread (drift -1.5, 0, 1.5); every bullet carries the weapon's damage, speed and size |
| Rules.MuzzleFlash | game.js:293-305 | 15 particles for plasma, 8 otherwise, all alive |
| Rules.Pick | game.js:318 | `floor(draw * n)` of a draw in [0, 1) is a valid index into an n-entry table |
| Rules.Due | game.js:309 | a spawner fires unless fewer than `interval` ms have passed since its last spawn (the same test guards the power-up spawner at game.js:338) |
| Rules.Ramp | game.js:332-334 | the difficulty ramp: the enemy interval drops by 10 ms while it is above 800 ms, and otherwise stays |
| Rules.RampBounds | game.js:332-334 | the difficulty ramp keeps the interval a multiple of 10 in [800, 2000] and never raises it |
| Rules.RampSchedule | game.js:332-334 | after k enemy spawns the interval is max(800, rate - 10 k) |
| Rules.NewEnemy | game.js:320-327 | a spawned enemy has the archetype's stats, full health, its bottom edge on the top of the screen, an x inside the side walls and a direction of 1 or -1 |
| Rules.NewPowerUp | game.js:349-357 | a spawned power-up has the type's kind and duration, its bottom edge on the top of the screen and an x inside the side walls |
| Rules.AdvanceBullets | game.js:362-384 | the bullet pool after a tick: each bullet moved by its drift and speed, then only those still on screen, in pool order |
| Rules.AdvanceBulletsSound | game.js:362-384 | the bullet pass adds no bullet; every survivor is an input bullet moved one step and still on screen; damage stays positive |
| Rules.Sparks | game.js:367-380 | the pass leaves at most one live spark per bullet |
| Rules.MoveEnemy | game.js:388-406 | an enemy falls by exactly its speed, lands inside the side walls, and changes nothing but position and zigzag phase |
| Rules.SweepEnemies | game.js:409-418 | an enemy can strike only an exposed player (neither invulnerable nor shielded) |
| Rules.SweepEnemiesStrike | game.js:409-418 | the pass strikes exactly when the player is exposed and some moved enemy overlaps it; the striking enemy is the first such enemy |
| Rules.SweepEnemiesShielded | game.js:409 | with invulnerability or a shield the pass is a plain move-and-cull and nothing strikes |
| Rules.SweepEnemiesKept | game.js:386-422 | the kept enemies plus the striking one number at most the input enemies; every kept enemy is an input enemy moved one step and still in play |
| Rules.SweepEnemiesCull | game.js:386-422 | with no strike the pass keeps exactly the move-and-cull of the whole pool; when it strikes, the striking enemy is the first whose move overlaps the player (an exposed player is struck exactly when there is one), and the pass keeps the move-and-cull of the pool with that enemy spliced out, so every other enemy is kept exactly when it is still in play |
| Rules.SweepEnemiesOk | game.js:386-422 | kept enemies keep positive health and positive points |
| Rules.SweepEnemiesSound | game.js:403-406 | kept enemies sit inside the side walls and keep their health and points |
| Rules.Struck | game.js:409-418 | a strike costs exactly 20 health with no floor, sets 60 ticks of invulnerability, ends the game exactly when health is no longer positive, adds one explosion and 25 particles, and leaves the explosion's shake (8, 20) |
| Rules.Caught | game.js:424-437 | the power-ups that, after falling one step, overlap the player, in pool order |
| Rules.Missed | game.js:424-437 | the power-ups that, after falling one step, do not overlap the player and are still in play, in pool order |
| Rules.PowerUpsPartition | game.js:424-437 | each moved power-up is caught, kept or dropped, never two of these |
| Rules.PowerUpsSound | game.js:424-437 | every caught power-up overlaps the player; every kept one does not and is still in play; each is an input power-up moved one step |
| Rules.Collect | game.js:439-464 | one collection on health, timers and score: a heal adds 25 health up to 100; any other kind sets its timer to the power-up's duration; 50 points either way |
| Rules.CollectAll | game.js:430-432 | the caught power-ups collected one after another in pool order |
| Rules.CollectOverwrites | game.js:457-461 | a timed power-up overwrites its timer with its duration instead of adding to it, leaves the other timers alone and does not heal |
| Rules.CollectAllSound | game.js:439-464 | collecting n power-ups adds exactly 50 n to the score, never lowers health nor lifts it above 100, and leaves no timer negative |
| Rules.Flashes | game.js:443-454 | 20 live particles per collected power-up |
| Rules.AgeParticles | game.js:471-479 | the particle pool after a tick: each life lowered by one, keeping only those still alive, in pool order |
| Rules.AgeParticlesSound | game.js:471-479 | ageing never grows the pool, keeps every life in (0, maxLife], and keeps every particle that had more than one tick left |
| Rules.AgeExplosions | game.js:523-528 | the explosion pool after a tick: each time raised by one, keeping only those below their maximum time, in pool order |
| Rules.AgeExplosionsSound | game.js:523-528 | ageing never grows the pool; every kept explosion is an input one tick older with time still below its maximum |
| Rules.TrailStep | game.js:481-499 | the trail after a tick: the new point of life 20 appended, every life lowered by one, expired points dropped, then the oldest dropped if more than 10 remain |
| Rules.TrailStepOk | game.js:481-499 | the trail stays at most 10 points long with every life in [1, 19] |
| Rules.DecayTimer | game.js:502-509 | an effect timer loses 16 ms while positive, and is set to 0 when that would leave it at or below 0 |
| Rules.DecayEffects | game.js:502-509 | the timer decay never makes a non-negative timer negative |
| Rules.TimerRunsOut | game.js:502-509 | after k ticks a timer of ms milliseconds holds max(0, ms - 16 k) |
| Combat.Explode | game.js:587-622 | `createExplosion`: one explosion, 25 particles of life 80, and a shake of 8 for 20 ticks that replaces any earlier shake |
| Combat.Wound | game.js:544-562 | a hit: the enemy at ei loses the bullet's damage, the bullet now at bi is spliced, 12 particles of life 35 appear, and the shake becomes (2, 5) |
| Combat.Kill | game.js:564-574 | a kill: the enemy's points are scored, it explodes at its centre, it is spliced out, and the high score follows the score if it passed it |
| Combat.Strike | game.js:543-576 | one inner callback: nothing on a miss; on an overlap a hit, followed by a kill when the enemy's health is no longer positive |
| Combat.EnemyPass | game.js:542-577 | the inner `forEach`: callbacks for the indices below the length it started with, skipping an index that a splice has pushed past the end |
| Combat.BulletPass | game.js:541-578 | the outer `forEach`: the inner pass for each bullet index below the starting length, skipping an index past the end, with the bullet that sits there when its turn comes |
| Combat.Resolve | game.js:540-578 | `checkCollisions`: the outer pass over the whole bullet pool |
| Combat.PointsSplice | game.js:565-567 | removing a killed enemy removes exactly its points from the pool's worth |
| Combat.PointsUpdate | game.js:544 | damaging an enemy does not change the pool's worth |
| Combat.WoundProgress | game.js:543-562 | a hit keeps the score plus the enemies' worth constant, adds no bullet (the bullets after it are a sub-multiset of those before), and keeps the other pools sound |
| Combat.KillProgress | game.js:564-574 | a kill moves exactly the enemy's points to the score, leaves one explosion, and lifts the high score only up to the new score |
| Combat.StrikeProgress | game.js:543-576 | a bullet that misses changes nothing; a hit that leaves health splices the bullet at bi and lowers that enemy's health by the damage, score unchanged; a killing hit splices the bullet at bi and the enemy at ei and adds the enemy's points to the score; in every case the pools stay sound and the books balance |
| Combat.EnemyPassProgress | game.js:542-577 | the inner `forEach` keeps the pools sound and keeps the books balanced |
| Combat.BulletPassProgress | game.js:541-578 | the outer `forEach` keeps the pools sound and keeps the books balanced |
| Combat.ResolveSound | game.js:540-578 | checkCollisions adds no bullet or enemy; each kill's points reach the score once and leave one explosion; the score never drops; the high score never decreases and rises only to the score |
| Combat.TwoHitsKill | game.js:540-578 | a basic enemy takes two laser hits on two ticks: the first consumes the laser, the second kills it for 10 points and raises the high score |
| Combat.SpliceSkipsNextBullet | game.js:541-545 | after a bullet is spliced, the next bullet slides into its index and never meets an enemy in that tick |
| Combat.SecondHitRemovesAnotherBullet | game.js:541-545 | a bullet that hits two enemies splices, on its second hit, a bullet that touched nothing |
| Phases.InputPhase | game.js:181-206 | `handleInput` on the state: nothing while stopped; otherwise steer, and, when Space is held and the gate opens, record the shot time and append the volley and the muzzle flash |
| Phases.EnemySpawnPhase | game.js:308-335 | `spawnEnemy` on the state: when due, one enemy of the picked archetype, the spawn clock restarted and the interval ramped |
| Phases.PowerUpSpawnPhase | game.js:337-360 | `spawnPowerUp` on the state: when 15000 ms are due, one power-up of the picked type and the spawn clock restarted |
| Phases.BulletPhase | game.js:362-384 | `updateBullets` on the state: the bullet pool advanced and the sparks appended |
| Phases.EnemyPhase | game.js:386-422 | `updateEnemies` on the state: the enemy pool swept, and the player's side struck when the sweep found a striking enemy |
| Phases.PowerUpPhase | game.js:424-437 | `updatePowerUps` on the state: the missed power-ups kept, the caught ones collected with their flashes, and a (5, 15) shake when anything was caught |
| Phases.ParticlePhase | game.js:471-479 | `updateParticles` on the state: only the particle pool ages |
| Phases.ExplosionPhase | game.js:523-528 | `updateExplosions` on the state: only the explosion pool ages |
| Phases.TrailPhase | game.js:481-499 | `updatePlayerTrail` on the state: only the trail steps, at the player's bottom centre |
| Phases.TimerPhase | game.js:501-521 | `updatePowerUpTimers` on the state: the timers decay, invulnerability and the shake count down, and the shake amount clears when it runs out |
| Phases.CollisionPhase | game.js:540-578 | `checkCollisions` on the state: the bullets, enemies, particles, explosions, score, high score and shake become those of `Resolve` |
| Phases.SpawnPhases | game.js:1053-1055 | input, then the enemy spawner, then the power-up spawner |
| Phases.MovePhases | game.js:1056-1058 | the bullet, enemy and power-up passes, in that order |
| Phases.AgePhase | game.js:1059-1063 | the particle, explosion, trail and timer passes, in that order |
| Phases.Step | game.js:1050-1066 | one tick of a running game: the four groups in the order of `update` |
| Simulation.Game.constructor | game.js:2-69 | a fresh game: score 0, full health, not started, empty pools, spawn interval 2000, no effects, weapon 0, the player at its start |
| Simulation.Game.StartGame | game.js:132-135 | the game is started and running |
| Simulation.Game.KeyDown | game.js:101-115 | the key is held; Space or Enter starts a game only if none was started; Digit1 to Digit3 switch the weapon |
| Simulation.Game.KeyUp | game.js:117-119 | the key is no longer held |
| Simulation.Game.Click | game.js:121-125 | a click starts a game only if none was started, and otherwise changes nothing |
| Simulation.Game.RestartGame | game.js:138-149 | score 0, full health, running, bullets, enemies, explosions and particles empty, the player back at its start; everything else is kept |
| Simulation.Game.InitPlayer | game.js:74-86 | the player at the bottom centre, with no trail and no invulnerability |
| Simulation.Game.GameOver | game.js:624-625 | the game stops running |
| Simulation.Game.ShakeScreen | game.js:466-469 | the shake is overwritten, so the last call wins |
| Simulation.Game.EmitParticles | game.js:294-305 | n particles of the given life are appended, and nothing else changes |
| Simulation.Game.CreateExplosion | game.js:587-622 | one explosion with rings of radius 25/40/55 and delay 0/5/10, 25 particles of life 80, and a shake of (8, 20) |
| Simulation.Game.Shoot | game.js:208-306 | the bullets of the weapon's volley and its muzzle flash are appended |
| Simulation.Game.MovePlayer | game.js:185-196 | the player moves as the held keys steer it, clamped to the screen, and no other field changes |
| Simulation.Game.HandleInput | game.js:181-206 | nothing happens while not running; otherwise the player moves, and fires exactly when Space is held and the gate opens; a shot records `now` and appends the volley and flash; a player in the viewport stays in it; the whole state becomes `InputPhase` of the old one |
| Simulation.Game.SpawnEnemy | game.js:308-335 | nothing happens before the interval has passed; otherwise one enemy of the picked archetype is added, the clock restarts and the ramp shortens the interval; the whole state becomes `EnemySpawnPhase` of the old one |
| Simulation.Game.SpawnPowerUp | game.js:337-360 | nothing happens before 15000 ms have passed; otherwise one power-up of the picked type is added and the clock restarts; the whole state becomes `PowerUpSpawnPhase` of the old one |
| Simulation.Game.UpdateBullets | game.js:362-384 | the pool becomes the moved, on-screen bullets, and the sparks are appended; the whole state becomes `BulletPhase` of the old one |
| Simulation.Game.MoveBullets | game.js:365-383 | the loop over the pool yields the moved bullets still on screen and the sparks, in pool order, both sound |
| Simulation.Game.TakeHit | game.js:409-418 | the player's side of the state becomes the strike's outcome |
| Simulation.Game.MoveEnemies | game.js:386-422 | the pool and the striking enemy are what the enemy pass computes, and the pool stays sound |
| Simulation.Game.UpdateEnemies | game.js:386-422 | the pool is the pass's kept enemies; the player's side is struck exactly when the pass found a striking enemy, and is unchanged otherwise; the whole state becomes `EnemyPhase` of the old one |
| Simulation.Game.CollectPowerUp | game.js:439-464 | health, timers and score change as one collection does; 20 particles are appended; the shake is (5, 15) |
| Simulation.Game.CollectEach | game.js:430-432 | the caught power-ups are collected in pool order; the shake changes only if something was caught |
| Simulation.Game.MovePowerUps | game.js:424-437 | the pool becomes the kept power-ups, and the caught ones are returned in order |
| Simulation.Game.UpdatePowerUps | game.js:424-437 | the pool keeps the missed power-ups; the caught ones are collected in order; the score rises by exactly 50 per catch; health never drops; the whole state becomes `PowerUpPhase` of the old one |
| Simulation.Game.UpdateParticles | game.js:471-479 | the pool becomes the aged particles that are still alive, and nothing else changes (`ParticlePhase`) |
| Simulation.Game.UpdateExplosions | game.js:523-528 | the pool becomes the aged explosions that are still running, and nothing else changes (`ExplosionPhase`) |
| Simulation.Game.UpdatePlayerTrail | game.js:481-499 | the trail gains the point under the player, ages, drops expired points and the oldest beyond 10; nothing else changes (`TrailPhase`) |
| Simulation.Game.UpdatePowerUpTimers | game.js:501-521 | timers lose 16 ms clamped at 0; invulnerability loses a tick while positive; the shake loses a tick while positive, and its amount clears when it runs out; nothing else changes (`TimerPhase`) |
| Simulation.Game.WoundEnemy | game.js:544-562 | the pools become the result of one hit |
| Simulation.Game.KillEnemy | game.js:564-574 | the pools become the result of one kill |
| Simulation.Game.BulletMeetsEnemy | game.js:543-576 | the pools become the result of one inner callback |
| Simulation.Game.CheckCollisions | game.js:540-578 | the pools become what checkCollisions computes under forEach-over-splice; the score and the high score never drop; the whole state becomes `CollisionPhase` of the old one |
| Simulation.Game.ReadInputAndSpawn | game.js:1053-1055 | the state becomes `SpawnPhases` of the old one: input, then the enemy spawner, then the power-up spawner; it stays sound and the spawn interval never rises |
| Simulation.Game.MovePools | game.js:1056-1058 | the state becomes `MovePhases` of the old one: bullets, then enemies, then power-ups; it stays sound, the score never drops and at most 20 health is lost |
| Simulation.Game.AgePools | game.js:1059-1063 | the state becomes `AgePhase` of the old one: particles, explosions, trail, then timers; it stays sound |
| Simulation.Game.Update | game.js:1050-1066 | a stopped game does not change; the held keys, the weapon and the started flag are outside its frame, so no tick changes them; a running game's state becomes `Step` of the old one (input and spawners, moving passes, ageing passes, checkCollisions, in the source's order); the state stays sound, the score and the high score never drop, at most 20 health is lost, and the spawn interval never rises |

## Left out

- Drawing: the `draw*` methods are presentation. This includes the cosmetic particles that `drawPlayer` and `drawEnemy` push while drawing (game.js:796, game.js:996), which the model's particle pool does not contain.
- The DOM: `updateUI`, `getPowerUpColor` and the element writes in `startGame`, `restartGame` and `gameOver` are presentation only.
- Event wiring: the listeners are not modelled. `KeyDown`, `KeyUp` and `Click` are the callbacks' effects, and `RestartGame` is what the restart button calls.
- Key release: it stores `false` rather than deleting the key. The model removes the key from the held set, which is the same for every test the game makes.
- Local storage: the stored high score is a constructor parameter. The write after a new high score is not modelled. Neither is the string-versus-number coercion of the stored value.
- The clock and randomness: `Date.now()` and `Math.random()` are parameters. So is `Math.sin` in the zigzag motion, which is the `wave` function parameter.
- Particles: each particle keeps only its emission point and its life. Velocity, gravity, size and colour are random or cosmetic.
- Stars: `initStars` and `updateStars` are background decoration and touch no other state.
- The main loop: `gameLoop` and `requestAnimationFrame` are host scheduling, and `Update` is one tick of it.
- `Simulation.Game.RestartGame`: its postcondition does not list the fields it keeps. The modifies clause states them instead. Those fields are the power-ups on screen, the effect timers, the spawn clocks and interval, the shake, the weapon, the started flag and the high score.
- Effects applied during a pass: the bullet sparks, the enemy strike and the collected power-ups take effect in the model after the pass rather than during it. The final state is the same, as the doc comments of `UpdateBullets`, `UpdateEnemies` and `UpdatePowerUps` explain.
- The clock: the model reads one `now` per tick. The source calls `Date.now()` separately for the fire test and the recorded shot (game.js:202, game.js:204), and for each spawner's test and its recorded time (game.js:309 and 329, game.js:338 and 359). Those calls can differ by a millisecond within a tick, and the model does not capture that difference.
- Floating point: positions and sizes are exact reals, while the source computes with IEEE doubles. Rounding can flip a strict comparison of `checkCollision` (game.js:580-585) at an exact edge, and the model does not capture rounding.
