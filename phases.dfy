// One tick of the simulation as a function on values. `State` holds the
// fields a tick may change; each phase of `update` is a function built from
// the rules of modules Rules and Combat, and `Step` chains them in the
// source's order. The methods of Simulation.Game are proved to compute them.
module Phases {
  import opened Seqs
  import opened Entities
  import opened Rules
  import opened Combat

  /** Everything one tick reads from the clock's neighbours: the two spawner
      picks and positions, the zigzag direction draw, the per-bullet spark
      rolls, and the sine used by zigzag enemies. */
  datatype Draws = Draws(
    enemyType: real, enemyX: real, enemyDirection: real,
    powerUpType: real, powerUpX: real,
    spark: nat -> real,
    wave: real -> real)
  {
    /** The two type picks are draws of `Math.random()`, in [0, 1). */
    predicate Fair() { 0.0 <= enemyType < 1.0 && 0.0 <= powerUpType < 1.0 }
  }

  const PowerUpSpawnRate: int := 15000

  /** The fields of the game that one tick may change. */
  datatype State = State(
    score: int, health: int, gameRunning: bool, highScore: int,
    player: Player,
    bullets: seq<Bullet>, enemies: seq<Enemy>, powerUps: seq<PowerUp>,
    particles: seq<Particle>, explosions: seq<Explosion>,
    shakeAmount: int, shakeTime: int,
    lastEnemySpawn: int, enemySpawnRate: int, lastPowerUpSpawn: int,
    playerPowerUps: Effects)

  /** handleInput: while running, steer; then fire if Space is held and the
      gate opens, recording `now` as the last shot. */
  function InputPhase(s: State, keys: set<string>, weapon: nat, now: int, width: real, height: real): State
    requires weapon < |Weapons|
  {
    if !s.gameRunning then s
    else
      var moved := Steer(s.player, keys, width, height);
      var w := Weapons[weapon];
      if "Space" in keys && CanFire(now, moved.lastShot, w, s.playerPowerUps.rapidFire) then
        s.(player := moved.(lastShot := now),
           bullets := s.bullets + Volley(w, Center(moved), moved.y, s.playerPowerUps.multiShot > 0),
           particles := s.particles + MuzzleFlash(w, Center(moved), moved.y))
      else s.(player := moved)
  }

  /** spawnEnemy. */
  function EnemySpawnPhase(s: State, now: int, pick: real, xDraw: real, dirDraw: real, width: real): State
    requires 0.0 <= pick < 1.0
  {
    if !Due(now, s.lastEnemySpawn, s.enemySpawnRate) then s
    else
      var t := EnemyTypes[Pick(pick, |EnemyTypes|)];
      s.(enemies := s.enemies + [NewEnemy(t, xDraw, dirDraw, width)],
         lastEnemySpawn := now, enemySpawnRate := Ramp(s.enemySpawnRate))
  }

  /** spawnPowerUp. */
  function PowerUpSpawnPhase(s: State, now: int, pick: real, xDraw: real, width: real): State
    requires 0.0 <= pick < 1.0
  {
    if !Due(now, s.lastPowerUpSpawn, PowerUpSpawnRate) then s
    else
      var t := PowerUpTypes[Pick(pick, |PowerUpTypes|)];
      s.(powerUps := s.powerUps + [NewPowerUp(t, xDraw, width)], lastPowerUpSpawn := now)
  }

  /** updateBullets. */
  function BulletPhase(s: State, roll: nat -> real, width: real): State
  {
    s.(bullets := AdvanceBullets(s.bullets, width),
       particles := s.particles + Sparks(Map(s.bullets, MoveBullet), roll))
  }

  /** The part of the state an enemy's strike changes. */
  function SideOf(s: State): Side
  {
    Side(s.health, s.player, s.gameRunning, s.explosions, s.particles, s.shakeAmount, s.shakeTime)
  }

  function WithSide(s: State, d: Side): State
  {
    s.(health := d.health, player := d.player, gameRunning := d.running, explosions := d.explosions,
       particles := d.particles, shakeAmount := d.shakeAmount, shakeTime := d.shakeTime)
  }

  /** updateEnemies: the sweep, then the strike of the enemy it stopped at. */
  function EnemyPhase(s: State, wave: real -> real, width: real, height: real): State
  {
    var exposed := s.player.invulnerable <= 0 && s.playerPowerUps.shield <= 0;
    var r := SweepEnemies(s.enemies, s.player, exposed, width, height, wave);
    WithSide(s.(enemies := r.kept), if r.hit.Some? then Struck(SideOf(s), r.hit.value) else SideOf(s))
  }

  /** updatePowerUps: the fall-and-catch pass, then collectPowerUp for each
      caught power-up in pool order. */
  function PowerUpPhase(s: State, height: real): State
  {
    var caught := Caught(s.powerUps, s.player);
    var v := CollectAll(Vitals(s.health, s.playerPowerUps, s.score), caught);
    s.(powerUps := Missed(s.powerUps, s.player, height),
       health := v.health, playerPowerUps := v.effects, score := v.score,
       particles := s.particles + Flashes(caught),
       shakeAmount := if caught == [] then s.shakeAmount else 5,
       shakeTime := if caught == [] then s.shakeTime else 15)
  }

  /** updateParticles. */
  function ParticlePhase(s: State): State { s.(particles := AgeParticles(s.particles)) }

  /** updateExplosions. */
  function ExplosionPhase(s: State): State { s.(explosions := AgeExplosions(s.explosions)) }

  /** updatePlayerTrail. */
  function TrailPhase(s: State): State
  {
    s.(player := s.player.(trail := TrailStep(s.player.trail, Center(s.player), s.player.y + s.player.height)))
  }

  /** updatePowerUpTimers: the effect timers, invulnerability and the shake
      each count down while positive; the shake's amount clears when it ends. */
  function TimerPhase(s: State): State
  {
    var p := s.player;
    s.(playerPowerUps := DecayEffects(s.playerPowerUps),
       player := p.(invulnerable := if p.invulnerable > 0 then p.invulnerable - 1 else p.invulnerable),
       shakeTime := if s.shakeTime > 0 then s.shakeTime - 1 else s.shakeTime,
       shakeAmount := if s.shakeTime > 0 && s.shakeTime - 1 <= 0 then 0 else s.shakeAmount)
  }

  /** The four ageing passes, in the order of `update`. */
  function AgePhase(s: State): State
  {
    TimerPhase(TrailPhase(ExplosionPhase(ParticlePhase(s))))
  }

  /** The part of the state checkCollisions reads and writes. */
  function ArenaOf(s: State): Arena
  {
    Arena(s.bullets, s.enemies, s.particles, s.explosions, s.score, s.highScore, s.shakeAmount, s.shakeTime)
  }

  /** checkCollisions. */
  function CollisionPhase(s: State): State
  {
    var a := Resolve(ArenaOf(s));
    s.(bullets := a.bullets, enemies := a.enemies, particles := a.particles, explosions := a.explosions,
       score := a.score, highScore := a.highScore, shakeAmount := a.shakeAmount, shakeTime := a.shakeTime)
  }

  /** Input and the two spawners. */
  function SpawnPhases(s: State, keys: set<string>, weapon: nat, now: int, draws: Draws, width: real,
                       height: real): State
    requires weapon < |Weapons| && draws.Fair()
  {
    var s1 := InputPhase(s, keys, weapon, now, width, height);
    var s2 := EnemySpawnPhase(s1, now, draws.enemyType, draws.enemyX, draws.enemyDirection, width);
    PowerUpSpawnPhase(s2, now, draws.powerUpType, draws.powerUpX, width)
  }

  /** The three moving passes. */
  function MovePhases(s: State, draws: Draws, width: real, height: real): State
  {
    PowerUpPhase(EnemyPhase(BulletPhase(s, draws.spark, width), draws.wave, width, height), height)
  }

  /** One tick of a running game, in the order of `update`. */
  function Step(s: State, keys: set<string>, weapon: nat, now: int, draws: Draws, width: real,
                height: real): State
    requires weapon < |Weapons| && draws.Fair()
  {
    CollisionPhase(AgePhase(MovePhases(SpawnPhases(s, keys, weapon, now, draws, width, height),
                                       draws, width, height)))
  }

  /** A tick is its four phase groups in order. */
  lemma StepChain(s0: State, s1: State, s2: State, s3: State, s4: State, keys: set<string>, weapon: nat,
                  now: int, draws: Draws, width: real, height: real)
    requires weapon < |Weapons| && draws.Fair()
    requires s1 == SpawnPhases(s0, keys, weapon, now, draws, width, height)
    requires s2 == MovePhases(s1, draws, width, height)
    requires s3 == AgePhase(s2)
    requires s4 == CollisionPhase(s3)
    ensures s4 == Step(s0, keys, weapon, now, draws, width, height)
  {
  }
}
