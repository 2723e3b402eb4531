// The game object: every piece of simulation state is a field, and each
// method of the source's simulation is a method here that updates those
// fields in place. Each `filter` pass and each `forEach` becomes a loop proved
// to compute the matching function of module Rules or Combat. The clock, the
// random draws and the sine the source reads are passed in as parameters.
module Simulation {
  import opened Seqs
  import opened Entities
  import opened Rules
  import opened Combat
  import opened Phases

  /** The enemy spawn interval stays a multiple of 10 within [800, 2000] ms. */
  predicate RateOk(rate: int) { 800 <= rate <= 2000 && rate % 10 == 0 }

  /** The player keeps its 40x60 shape and speed 5, at most 60 ticks of
      invulnerability and a trail of at most 10 live points. */
  predicate PlayerOk(p: Player)
  {
    0 <= p.invulnerable <= 60 && p.width == 40.0 && p.height == 60.0 && p.speed == 5.0 &&
    TrailOk(p.trail)
  }

  class Game {
    const width: real
    const height: real

    var score: int
    var health: int
    var gameRunning: bool
    var gameStarted: bool
    var highScore: int

    /** The codes of the keys held down. */
    var keys: set<string>
    var particles: seq<Particle>
    var bullets: seq<Bullet>
    var enemies: seq<Enemy>
    var explosions: seq<Explosion>
    var powerUps: seq<PowerUp>
    var shakeAmount: int
    var shakeTime: int

    var lastEnemySpawn: int
    var enemySpawnRate: int
    var lastPowerUpSpawn: int

    var playerPowerUps: Effects
    var currentWeapon: nat
    var player: Player

    /** The fields checkCollisions reads and writes, as one value. */
    function Pools(): Arena
      reads this`bullets, this`enemies, this`particles, this`explosions, this`score, this`highScore,
            this`shakeAmount, this`shakeTime
    {
      Arena(bullets, enemies, particles, explosions, score, highScore, shakeAmount, shakeTime)
    }

    /** The fields one tick may change, as one value. */
    function Snapshot(): State
      reads this`score, this`health, this`gameRunning, this`highScore, this`player, this`bullets,
            this`enemies, this`powerUps, this`particles, this`explosions, this`shakeAmount,
            this`shakeTime, this`lastEnemySpawn, this`enemySpawnRate, this`lastPowerUpSpawn,
            this`playerPowerUps
    {
      State(score, health, gameRunning, highScore, player, bullets, enemies, powerUps, particles,
            explosions, shakeAmount, shakeTime, lastEnemySpawn, enemySpawnRate, lastPowerUpSpawn,
            playerPowerUps)
    }

    /** The fields an enemy's strike changes, as one value. */
    function PlayerSide(): Side
      reads this`health, this`player, this`gameRunning, this`explosions, this`particles,
            this`shakeAmount, this`shakeTime
    {
      Side(health, player, gameRunning, explosions, particles, shakeAmount, shakeTime)
    }

    /** What holds between ticks: sound pools, health at most full, the spawn
        interval on its ramp, a valid weapon, no negative timer, and a
        player of the fixed shape with a bounded trail. */
    ghost predicate Valid()
      reads this`bullets, this`enemies, this`particles, this`explosions, this`shakeTime, this`powerUps,
            this`health, this`enemySpawnRate, this`currentWeapon, this`playerPowerUps, this`player
    {
      BulletsOk(bullets) && EnemiesOk(enemies) && ParticlesOk(particles) &&
      ExplosionsOk(explosions) && shakeTime >= 0 && PowerUpsOk(powerUps) &&
      health <= MaxHealth && RateOk(enemySpawnRate) && currentWeapon < |Weapons| &&
      playerPowerUps.NonNegative() && PlayerOk(player)
    }

    /** A fresh game on a canvas of the given size; the stored high score is
        what the browser kept from earlier sessions. */
    constructor (canvasWidth: nat, canvasHeight: nat, storedHighScore: int)
      ensures Valid()
      ensures width == canvasWidth as real && height == canvasHeight as real
      ensures score == 0 && health == MaxHealth && highScore == storedHighScore
      ensures !gameRunning && !gameStarted
      ensures keys == {} && particles == [] && bullets == [] && enemies == [] &&
              explosions == [] && powerUps == []
      ensures shakeAmount == 0 && shakeTime == 0
      ensures lastEnemySpawn == 0 && enemySpawnRate == 2000 && lastPowerUpSpawn == 0
      ensures playerPowerUps == NoEffects && currentWeapon == 0
      ensures player == InitialPlayer(width, height)
    {
      width := canvasWidth as real;
      height := canvasHeight as real;
      score := 0;
      health := MaxHealth;
      gameRunning := false;
      gameStarted := false;
      highScore := storedHighScore;
      keys := {};
      particles := [];
      bullets := [];
      enemies := [];
      explosions := [];
      powerUps := [];
      shakeAmount := 0;
      shakeTime := 0;
      lastEnemySpawn := 0;
      enemySpawnRate := 2000;
      lastPowerUpSpawn := 0;
      playerPowerUps := NoEffects;
      currentWeapon := 0;
      player := InitialPlayer(canvasWidth as real, canvasHeight as real);
    }

    // -------------------------------------------------------------------
    // Input events

    method StartGame()
      modifies this`gameStarted, this`gameRunning
      ensures gameStarted && gameRunning
    {
      gameStarted := true;
      gameRunning := true;
    }

    /** A key press: the key is held; Space or Enter starts a game not yet
        started; Digit1..Digit3 switch weapon, whether or not a game runs. */
    method KeyDown(code: string)
      requires Valid()
      modifies this`keys, this`gameStarted, this`gameRunning, this`currentWeapon
      ensures Valid()
      ensures keys == old(keys) + {code}
      ensures StartKey(code) && !old(gameStarted) ==> gameStarted && gameRunning
      ensures !(StartKey(code) && !old(gameStarted)) ==>
        gameStarted == old(gameStarted) && gameRunning == old(gameRunning)
      ensures currentWeapon == (if WeaponForKey(code).Some? then WeaponForKey(code).value else old(currentWeapon))
    {
      keys := keys + {code};
      if StartKey(code) && !gameStarted {
        StartGame();
      }
      var k := WeaponForKey(code);
      if k.Some? {
        currentWeapon := k.value;
      }
    }

    /** A key release: the key is no longer held. */
    method KeyUp(code: string)
      modifies this`keys
      ensures keys == old(keys) - {code}
    {
      keys := keys - {code};
    }

    /** A click on the canvas starts a game not yet started. */
    method Click()
      modifies this`gameStarted, this`gameRunning
      ensures !old(gameStarted) ==> gameStarted && gameRunning
      ensures old(gameStarted) ==> gameStarted && gameRunning == old(gameRunning)
    {
      if !gameStarted {
        StartGame();
      }
    }

    /** restartGame resets score, health, four of the pools and the player,
        and sets the game running. Its modifies clause leaves out what it
        keeps: the power-ups on screen, the effect timers, the spawn clocks
        and interval, the shake, the weapon and the high score. */
    method RestartGame()
      requires Valid()
      modifies this`score, this`health, this`gameRunning, this`bullets, this`enemies,
               this`explosions, this`particles, this`player
      ensures Valid()
      ensures score == 0 && health == MaxHealth && gameRunning
      ensures bullets == [] && enemies == [] && explosions == [] && particles == []
      ensures player == InitialPlayer(width, height)
    {
      score := 0;
      health := MaxHealth;
      gameRunning := true;
      bullets := [];
      enemies := [];
      explosions := [];
      particles := [];
      InitPlayer();
    }

    /** initPlayer: the player at its starting place, with no trail. */
    method InitPlayer()
      modifies this`player
      ensures player == InitialPlayer(width, height)
    {
      player := InitialPlayer(width, height);
    }

    method GameOver()
      modifies this`gameRunning
      ensures !gameRunning
    {
      gameRunning := false;
    }

    // -------------------------------------------------------------------
    // Effects shared by several steps

    /** The last call wins: amount and duration are overwritten. */
    method ShakeScreen(amount: int, duration: int)
      modifies this`shakeAmount, this`shakeTime
      ensures shakeAmount == amount && shakeTime == duration
    {
      shakeAmount := amount;
      shakeTime := duration;
    }

    /** Pushes n particles at (x, y) living `life` ticks. */
    method EmitParticles(x: real, y: real, n: nat, life: int)
      modifies this`particles
      ensures particles == old(particles) + Burst(x, y, n, life)
    {
      for i := 0 to n
        invariant particles == old(particles) + Burst(x, y, i, life)
      {
        assert Burst(x, y, i + 1, life) == Burst(x, y, i, life) + [Particle(x, y, life, life)];
        particles := particles + [Particle(x, y, life, life)];
      }
    }

    /** createExplosion: one explosion with three rings, 25 particles of
        life 80, and a shake of 8 for 20 ticks. */
    method CreateExplosion(x: real, y: real, color: string)
      modifies this`explosions, this`particles, this`shakeAmount, this`shakeTime
      ensures explosions == old(explosions) + [NewExplosion(x, y, color)]
      ensures particles == old(particles) + Burst(x, y, 25, 80)
      ensures shakeAmount == 8 && shakeTime == 20
    {
      var rings: seq<Ring> := [];
      for ring := 0 to 3
        invariant rings == ExplosionRings[..ring]
      {
        rings := rings + [Ring(0.0, 25.0 + ring as real * 15.0, ring * 5)];
      }
      assert rings == ExplosionRings;
      explosions := explosions + [Explosion(x, y, 0, 40, color, rings)];
      EmitParticles(x, y, 25, 80);
      ShakeScreen(8, 20);
    }

    // -------------------------------------------------------------------
    // Player input (handleInput, shoot)

    /** The bullets of the current weapon (three under multi-shot) and its
        muzzle flash, from the player's centre and top edge. */
    method Shoot()
      requires currentWeapon < |Weapons|
      modifies this`bullets, this`particles
      ensures var w := Weapons[currentWeapon];
        bullets == old(bullets) + Volley(w, Center(player), player.y, playerPowerUps.multiShot > 0) &&
        particles == old(particles) + MuzzleFlash(w, Center(player), player.y)
      ensures Snapshot() == old(Snapshot()).(bullets := bullets, particles := particles)
    {
      var centerX := player.x + player.width / 2.0;
      var y := player.y;
      var w := Weapons[currentWeapon];
      var mid := centerX - w.bulletWidth / 2.0;
      var volley: seq<Bullet> := [];
      if playerPowerUps.multiShot > 0 {
        volley := [Shot(w, mid, y, 0.0, false), Shot(w, centerX - 12.0, y, -1.0, false),
                   Shot(w, centerX + 8.0, y, 1.0, false)];
      } else if w.pattern == Single {
        volley := [Shot(w, mid, y, 0.0, false)];
      } else if w.pattern == Plasma {
        volley := [Shot(w, mid, y, 0.0, true)];
      } else if w.pattern == Spread {
        for i := -1 to 2
          modifies {}
          invariant volley == seq(i + 1, k requires 0 <= k < i + 1 => Shot(w, mid, y, (k - 1) as real * 1.5, false))
        {
          volley := volley + [Shot(w, mid, y, i as real * 1.5, false)];
        }
        assert volley == [Shot(w, mid, y, -1.5, false), Shot(w, mid, y, 0.0, false), Shot(w, mid, y, 1.5, false)];
      }
      bullets := bullets + volley;
      if w.pattern == Plasma {
        EmitParticles(centerX, y, 15, 35);
      } else {
        EmitParticles(centerX, y, 8, 25);
      }
    }

    /** The four arrow/WASD tests of handleInput, each clamped to the canvas. */
    method MovePlayer()
      modifies this`player
      ensures player == Steer(old(player), keys, width, height)
      ensures Snapshot() == old(Snapshot()).(player := player)
    {
      var p := player;
      if "ArrowLeft" in keys || "KeyA" in keys {
        p := p.(x := Max(0.0, p.x - p.speed));
      }
      if "ArrowRight" in keys || "KeyD" in keys {
        p := p.(x := Min(width - p.width, p.x + p.speed));
      }
      if "ArrowUp" in keys || "KeyW" in keys {
        p := p.(y := Max(0.0, p.y - p.speed));
      }
      if "ArrowDown" in keys || "KeyS" in keys {
        p := p.(y := Min(height - p.height, p.y + p.speed));
      }
      player := p;
    }

    /** While running: steer the player by the held keys, then fire when
        Space is held and the (rapid-fire halved) cooldown has strictly
        passed since the last shot, recording `now` as the last shot. */
    method HandleInput(now: int)
      requires Valid()
      modifies this`player, this`bullets, this`particles
      ensures Valid()
      ensures Snapshot() == InputPhase(old(Snapshot()), keys, currentWeapon, now, width, height)
      ensures !gameRunning ==> player == old(player) && bullets == old(bullets) && particles == old(particles)
      ensures gameRunning ==>
        var moved := Steer(old(player), keys, width, height);
        var w := Weapons[currentWeapon];
        var fire := "Space" in keys && CanFire(now, moved.lastShot, w, playerPowerUps.rapidFire);
        player == (if fire then moved.(lastShot := now) else moved) &&
        bullets == old(bullets) + (if fire then Volley(w, Center(moved), moved.y, playerPowerUps.multiShot > 0) else []) &&
        particles == old(particles) + (if fire then MuzzleFlash(w, Center(moved), moved.y) else [])
      ensures gameRunning && InViewport(old(player), width, height) ==> InViewport(player, width, height)
    {
      ghost var s0 := Snapshot();
      if gameRunning {
        MovePlayer();
        if InViewport(old(player), width, height) {
          SteerStaysInViewport(old(player), keys, width, height);
        }
        var w := Weapons[currentWeapon];
        var effectiveCooldown := if playerPowerUps.rapidFire > 0 then w.cooldown as real * 0.5 else w.cooldown as real;
        if "Space" in keys && (now - player.lastShot) as real > effectiveCooldown {
          assert w.damage > 0;
          Shoot();
          player := player.(lastShot := now);
        }
      }
      assert Snapshot() == s0.(player := player, bullets := bullets, particles := particles);
    }

    // -------------------------------------------------------------------
    // Spawners

    /** Unless fewer than `enemySpawnRate` ms passed since the last enemy, add
        one of the four archetypes at the top, restart the spawn clock and
        shorten the interval by the ramp. */
    method SpawnEnemy(now: int, pick: real, xDraw: real, dirDraw: real)
      requires Valid() && 0.0 <= pick < 1.0
      modifies this`enemies, this`lastEnemySpawn, this`enemySpawnRate
      ensures Valid()
      ensures !Due(now, old(lastEnemySpawn), old(enemySpawnRate)) ==>
        enemies == old(enemies) && lastEnemySpawn == old(lastEnemySpawn) && enemySpawnRate == old(enemySpawnRate)
      ensures Due(now, old(lastEnemySpawn), old(enemySpawnRate)) ==>
        enemies == old(enemies) + [NewEnemy(EnemyTypes[Pick(pick, |EnemyTypes|)], xDraw, dirDraw, width)] &&
        lastEnemySpawn == now && enemySpawnRate == Ramp(old(enemySpawnRate))
      ensures Snapshot() == EnemySpawnPhase(old(Snapshot()), now, pick, xDraw, dirDraw, width)
    {
      if now - lastEnemySpawn < enemySpawnRate {
        return;
      }
      var t := EnemyTypes[Pick(pick, |EnemyTypes|)];
      enemies := enemies + [NewEnemy(t, xDraw, dirDraw, width)];
      lastEnemySpawn := now;
      if enemySpawnRate > 800 {
        enemySpawnRate := enemySpawnRate - 10;
      }
    }

    /** Unless fewer than 15000 ms passed since the last power-up, add one of
        the four kinds at the top and restart the spawn clock. */
    method SpawnPowerUp(now: int, pick: real, xDraw: real)
      requires Valid() && 0.0 <= pick < 1.0
      modifies this`powerUps, this`lastPowerUpSpawn
      ensures Valid()
      ensures !Due(now, old(lastPowerUpSpawn), PowerUpSpawnRate) ==>
        powerUps == old(powerUps) && lastPowerUpSpawn == old(lastPowerUpSpawn)
      ensures Due(now, old(lastPowerUpSpawn), PowerUpSpawnRate) ==>
        powerUps == old(powerUps) + [NewPowerUp(PowerUpTypes[Pick(pick, |PowerUpTypes|)], xDraw, width)] &&
        lastPowerUpSpawn == now
      ensures Snapshot() == PowerUpSpawnPhase(old(Snapshot()), now, pick, xDraw, width)
    {
      if now - lastPowerUpSpawn < PowerUpSpawnRate {
        return;
      }
      var t := PowerUpTypes[Pick(pick, |PowerUpTypes|)];
      powerUps := powerUps + [NewPowerUp(t, xDraw, width)];
      lastPowerUpSpawn := now;
    }

    // -------------------------------------------------------------------
    // The pool passes

    /** updateBullets: every bullet moves; a moved bullet may leave a spark;
        bullets gone above the top or off a side are dropped. The sparks are
        gathered during the pass and appended when it ends; nothing reads the
        particle pool in between. */
    method UpdateBullets(roll: nat -> real)
      requires BulletsOk(bullets) && ParticlesOk(particles)
      modifies this`bullets, this`particles
      ensures BulletsOk(bullets) && ParticlesOk(particles)
      ensures bullets == AdvanceBullets(old(bullets), width)
      ensures particles == old(particles) + Sparks(Map(old(bullets), MoveBullet), roll)
      ensures Snapshot() == BulletPhase(old(Snapshot()), roll, width)
    {
      var kept, sparks := MoveBullets(bullets, roll);
      bullets := kept;
      particles := particles + sparks;
    }

    /** The loop of updateBullets over the pool `bs`: the bullets kept and the
        sparks left, each in pool order. */
    method MoveBullets(bs: seq<Bullet>, roll: nat -> real) returns (kept: seq<Bullet>, sparks: seq<Particle>)
      requires BulletsOk(bs)
      ensures kept == AdvanceBullets(bs, width) && BulletsOk(kept)
      ensures sparks == Sparks(Map(bs, MoveBullet), roll) && ParticlesOk(sparks)
    {
      kept, sparks := [], [];
      for i := 0 to |bs|
        invariant kept == AdvanceBullets(bs[..i], width)
        invariant sparks == Sparks(Map(bs[..i], MoveBullet), roll)
      {
        AdvanceBulletsStep(bs, i, width);
        SparksStep(bs, i, roll);
        var b := MoveBullet(bs[i]);
        if roll(i) < SparkChance(b) {
          sparks := sparks + [Particle(b.x + b.width / 2.0, b.y + b.height, SparkLife(b), SparkLife(b))];
        }
        if OnScreen(b, width) {
          kept := kept + [b];
        }
      }
      assert bs[..|bs|] == bs;
      AdvanceBulletsSound(bs, width);
    }

    /** The collision branch of updateEnemies: health falls by 20, the player
        turns invulnerable for 60 ticks, the screen shakes, a red explosion
        goes off at the enemy's centre, and the game ends if health reached 0. */
    method TakeHit(e: Enemy)
      modifies this`health, this`player, this`shakeAmount, this`shakeTime,
               this`explosions, this`particles, this`gameRunning
      ensures PlayerSide() == Struck(old(PlayerSide()), e)
    {
      health := health - 20;
      player := player.(invulnerable := 60);
      ShakeScreen(10, 30);
      CreateExplosion(e.x + e.width / 2.0, e.y + e.height / 2.0, "#ff0000");
      if health <= 0 {
        GameOver();
      }
    }

    /** The filter pass of updateEnemies: every enemy moves. While the player
        is exposed (neither invulnerable nor shielded), the first moved enemy
        that overlaps the player strikes and is dropped; the strike makes the
        player invulnerable, so no later enemy of the pass strikes. The others
        are kept while still in play. The striking enemy is returned. */
    method MoveEnemies(exposed: bool, wave: real -> real) returns (struck: Option<Enemy>)
      requires EnemiesOk(enemies)
      modifies this`enemies
      ensures EnemiesOk(enemies)
      ensures EnemySweep(enemies, struck) == SweepEnemies(old(enemies), player, exposed, width, height, wave)
      ensures Snapshot() == old(Snapshot()).(enemies := enemies)
    {
      var es := enemies;
      var kept: seq<Enemy> := [];
      struck := None;
      for i := 0 to |es|
        invariant SweepEnemies(es[..i], player, exposed, width, height, wave) == EnemySweep(kept, struck)
        modifies {}
      {
        SweepEnemiesStep(es, i, player, exposed, width, height, wave);
        var e := MoveEnemy(es[i], Center(player), width, wave);
        if exposed && struck.None? && Collides(e.Bounds(), player.Bounds()) {
          struck := Some(e);
        } else if e.y < height + e.height {
          kept := kept + [e];
        }
      }
      assert es[..|es|] == es;
      SweepEnemiesOk(es, player, exposed, width, height, wave);
      enemies := kept;
    }

    /** updateEnemies: the pass, then the strike of the enemy it stopped at,
        if any. The strike is applied when the pass ends; the pass reads
        nothing it changes but the invulnerability, which `struck` stands
        for. */
    method UpdateEnemies(wave: real -> real)
      requires Valid()
      modifies this`enemies, this`health, this`player, this`shakeAmount, this`shakeTime,
               this`explosions, this`particles, this`gameRunning
      ensures Valid()
      ensures var r := SweepEnemies(old(enemies), old(player),
                                    old(player).invulnerable <= 0 && playerPowerUps.shield <= 0,
                                    width, height, wave);
        enemies == r.kept &&
        PlayerSide() == (if r.hit.Some? then Struck(old(PlayerSide()), r.hit.value) else old(PlayerSide()))
      ensures Snapshot() == EnemyPhase(old(Snapshot()), wave, width, height)
    {
      ghost var s0, side0 := Snapshot(), PlayerSide();
      var struck := MoveEnemies(player.invulnerable <= 0 && playerPowerUps.shield <= 0, wave);
      assert PlayerSide() == side0;
      if struck.Some? {
        TakeHit(struck.value);
      }
      assert Snapshot() == WithSide(s0.(enemies := enemies), PlayerSide());
    }

    /** collectPowerUp: a shake of 5 for 15 ticks, 20 particles of life 40 at
        the power-up's centre, then heal or set the effect's timer, and 50
        points that do not touch the high score. */
    method CollectPowerUp(p: PowerUp)
      modifies this`health, this`playerPowerUps, this`score, this`particles,
               this`shakeAmount, this`shakeTime
      ensures Vitals(health, playerPowerUps, score) == Collect(old(Vitals(health, playerPowerUps, score)), p)
      ensures particles == old(particles) + Burst(p.x + p.width / 2.0, p.y + p.height / 2.0, 20, 40)
      ensures shakeAmount == 5 && shakeTime == 15
    {
      ShakeScreen(5, 15);
      EmitParticles(p.x + p.width / 2.0, p.y + p.height / 2.0, 20, 40);
      if p.kind == Heal {
        health := MinInt(MaxHealth, health + 25);
      } else {
        playerPowerUps := playerPowerUps.Set(p.kind, p.duration);
      }
      score := score + 50;
    }

    /** collectPowerUp for each of the caught power-ups, in order. */
    method CollectEach(caught: seq<PowerUp>)
      modifies this`health, this`playerPowerUps, this`score, this`particles,
               this`shakeAmount, this`shakeTime
      ensures Vitals(health, playerPowerUps, score) == CollectAll(old(Vitals(health, playerPowerUps, score)), caught)
      ensures particles == old(particles) + Flashes(caught)
      ensures caught == [] ==> shakeAmount == old(shakeAmount) && shakeTime == old(shakeTime)
      ensures caught != [] ==> shakeAmount == 5 && shakeTime == 15
      ensures Snapshot() == old(Snapshot()).(health := health, playerPowerUps := playerPowerUps, score := score,
                                             particles := particles, shakeAmount := shakeAmount,
                                             shakeTime := shakeTime)
    {
      ghost var v0 := Vitals(health, playerPowerUps, score);
      for j := 0 to |caught|
        invariant Vitals(health, playerPowerUps, score) == CollectAll(v0, caught[..j])
        invariant particles == old(particles) + Flashes(caught[..j])
        invariant j == 0 ==> shakeAmount == old(shakeAmount) && shakeTime == old(shakeTime)
        invariant j > 0 ==> shakeAmount == 5 && shakeTime == 15
      {
        CollectStep(v0, caught, j);
        CollectPowerUp(caught[j]);
      }
      assert caught[..|caught|] == caught;
    }

    /** The filter pass of updatePowerUps: every power-up falls; those
        overlapping the player are dropped and returned, in pool order; the
        rest are kept while still in play. */
    method MovePowerUps() returns (caught: seq<PowerUp>)
      requires PowerUpsOk(powerUps)
      modifies this`powerUps
      ensures PowerUpsOk(powerUps) && PowerUpsOk(caught)
      ensures powerUps == Missed(old(powerUps), player, height) && caught == Caught(old(powerUps), player)
      ensures Snapshot() == old(Snapshot()).(powerUps := powerUps)
    {
      var ps := powerUps;
      var kept: seq<PowerUp> := [];
      caught := [];
      for i := 0 to |ps|
        invariant kept == Missed(ps[..i], player, height)
        invariant caught == Caught(ps[..i], player)
        modifies {}
      {
        PowerUpsStep(ps, i, player, height);
        var p := Fall(ps[i]);
        if Collides(p.Bounds(), player.Bounds()) {
          caught := caught + [p];
        } else if p.y < height + p.height {
          kept := kept + [p];
        }
      }
      assert ps[..|ps|] == ps;
      PowerUpsOkKept(ps, player, height);
      powerUps := kept;
    }

    /** updatePowerUps: the pass, then collectPowerUp for each power-up it
        caught, in pool order. The collections are applied once the pass
        ends; the pass reads nothing they change. */
    method UpdatePowerUps()
      requires Valid()
      modifies this`powerUps, this`health, this`playerPowerUps, this`score, this`particles,
               this`shakeAmount, this`shakeTime
      ensures Valid()
      ensures var caught := Caught(old(powerUps), player);
        powerUps == Missed(old(powerUps), player, height) &&
        Vitals(health, playerPowerUps, score) == CollectAll(old(Vitals(health, playerPowerUps, score)), caught) &&
        particles == old(particles) + Flashes(caught) &&
        (caught == [] ==> shakeAmount == old(shakeAmount) && shakeTime == old(shakeTime)) &&
        (caught != [] ==> shakeAmount == 5 && shakeTime == 15)
      ensures score == old(score) + 50 * |Caught(old(powerUps), player)| && health >= old(health)
      ensures Snapshot() == PowerUpPhase(old(Snapshot()), height)
    {
      var caught := MovePowerUps();
      CollectAllSound(Vitals(health, playerPowerUps, score), caught);
      CollectEach(caught);
    }

    /** updateParticles: every particle ages one tick; the expired go. */
    method UpdateParticles()
      requires Valid()
      modifies this`particles
      ensures Valid()
      ensures particles == AgeParticles(old(particles))
      ensures Snapshot() == ParticlePhase(old(Snapshot()))
    {
      var ps := particles;
      var kept: seq<Particle> := [];
      for i := 0 to |ps|
        invariant kept == AgeParticles(ps[..i])
        modifies {}
      {
        AgeParticlesStep(ps, i);
        var q := Age(ps[i]);
        if q.life > 0 {
          kept := kept + [q];
        }
      }
      assert ps[..|ps|] == ps;
      particles := kept;
      AgeParticlesSound(ps);
    }

    /** updateExplosions: every explosion ages one tick; the finished go. */
    method UpdateExplosions()
      requires Valid()
      modifies this`explosions
      ensures Valid()
      ensures explosions == AgeExplosions(old(explosions))
      ensures Snapshot() == ExplosionPhase(old(Snapshot()))
    {
      var xs := explosions;
      var kept: seq<Explosion> := [];
      for i := 0 to |xs|
        invariant kept == AgeExplosions(xs[..i])
        modifies {}
      {
        AgeExplosionsStep(xs, i);
        var x := Tick(xs[i]);
        if x.time < x.maxTime {
          kept := kept + [x];
        }
      }
      assert xs[..|xs|] == xs;
      explosions := kept;
      AgeExplosionsSound(xs);
    }

    /** updatePlayerTrail: push the point under the player's centre, age the
        trail, drop the expired points and then the oldest beyond 10. */
    method UpdatePlayerTrail()
      requires Valid()
      modifies this`player
      ensures Valid()
      ensures player == old(player).(trail := TrailStep(old(player).trail, Center(old(player)),
                                                        old(player).y + old(player).height))
      ensures Snapshot() == TrailPhase(old(Snapshot()))
    {
      var grown := player.trail + [TrailPoint(player.x + player.width / 2.0, player.y + player.height, 20)];
      var kept: seq<TrailPoint> := [];
      for i := 0 to |grown|
        invariant kept == FadeTrail(grown[..i])
        modifies {}
      {
        FadeTrailStep(grown, i);
        var t := Fade(grown[i]);
        if t.life > 0 {
          kept := kept + [t];
        }
      }
      assert grown[..|grown|] == grown;
      if |kept| > 10 {
        kept := kept[1..];
      }
      TrailStepOk(player.trail, Center(player), player.y + player.height);
      player := player.(trail := kept);
    }

    /** updatePowerUpTimers: each effect timer loses 16 ms while positive,
        clamped at 0; invulnerability loses a tick while positive; the shake
        loses a tick while positive and its amount is cleared when it ends. */
    method UpdatePowerUpTimers()
      requires Valid()
      modifies this`playerPowerUps, this`player, this`shakeAmount, this`shakeTime
      ensures Valid()
      ensures playerPowerUps == DecayEffects(old(playerPowerUps))
      ensures player == old(player).(invulnerable := if old(player).invulnerable > 0
                                                      then old(player).invulnerable - 1
                                                      else old(player).invulnerable)
      ensures old(shakeTime) > 0 ==>
        (shakeTime == old(shakeTime) - 1 && shakeAmount == (if shakeTime == 0 then 0 else old(shakeAmount)))
      ensures old(shakeTime) <= 0 ==> shakeTime == old(shakeTime) && shakeAmount == old(shakeAmount)
      ensures Snapshot() == TimerPhase(old(Snapshot()))
    {
      ghost var s0 := Snapshot();
      var kinds := [RapidFire, Shield, MultiShot];
      var fx := playerPowerUps;
      for i := 0 to |kinds|
        invariant forall j :: 0 <= j < i ==> fx.Get(kinds[j]) == DecayTimer(playerPowerUps.Get(kinds[j]))
        invariant forall j :: i <= j < |kinds| ==> fx.Get(kinds[j]) == playerPowerUps.Get(kinds[j])
        modifies {}
      {
        var k := kinds[i];
        if fx.Get(k) > 0 {
          fx := fx.Set(k, fx.Get(k) - 16);
          if fx.Get(k) <= 0 {
            fx := fx.Set(k, 0);
          }
        }
      }
      assert fx.rapidFire == fx.Get(kinds[0]);
      assert fx.shield == fx.Get(kinds[1]);
      assert fx.multiShot == fx.Get(kinds[2]);
      playerPowerUps := fx;
      if player.invulnerable > 0 {
        player := player.(invulnerable := player.invulnerable - 1);
      }
      if shakeTime > 0 {
        shakeTime := shakeTime - 1;
        if shakeTime <= 0 {
          shakeAmount := 0;
        }
      }
      assert Snapshot() == s0.(playerPowerUps := playerPowerUps, player := player, shakeAmount := shakeAmount,
                               shakeTime := shakeTime);
    }

    // -------------------------------------------------------------------
    // Collisions (checkCollisions)

    /** The hit of bullet b, taken from index bi, on the enemy at index ei. */
    method WoundEnemy(bi: nat, b: Bullet, ei: nat)
      requires ei < |enemies|
      modifies this`bullets, this`enemies, this`particles, this`shakeAmount, this`shakeTime
      ensures Pools() == Wound(old(Pools()), bi, b, ei)
    {
      var e := enemies[ei];
      enemies := enemies[ei := e.(health := e.health - b.damage)];
      bullets := Splice(bullets, bi);
      EmitParticles(b.x + b.width / 2.0, b.y + b.height / 2.0, 12, 35);
      ShakeScreen(2, 5);
    }

    /** The kill of the enemy at index ei. */
    method KillEnemy(ei: nat)
      requires ei < |enemies|
      modifies this`enemies, this`particles, this`explosions, this`score, this`highScore,
               this`shakeAmount, this`shakeTime
      ensures Pools() == Kill(old(Pools()), ei)
    {
      var d := enemies[ei];
      score := score + d.points;
      CreateExplosion(d.x + d.width / 2.0, d.y + d.height / 2.0, d.color);
      enemies := Splice(enemies, ei);
      if score > highScore {
        highScore := score;
      }
    }

    /** One call of the inner callback: bullet b, taken from index bi, against
        the enemy now at index ei. */
    method BulletMeetsEnemy(bi: nat, b: Bullet, ei: nat)
      requires ei < |enemies|
      modifies this`bullets, this`enemies, this`particles, this`explosions, this`score,
               this`highScore, this`shakeAmount, this`shakeTime
      ensures Pools() == Strike(old(Pools()), bi, b, ei)
    {
      if Collides(b.Bounds(), enemies[ei].Bounds()) {
        WoundEnemy(bi, b, ei);
        if enemies[ei].health <= 0 {
          KillEnemy(ei);
        }
      }
    }

    /** checkCollisions: each bullet against each enemy, with the source's
        forEach-over-splice semantics: both walks fix their length when they
        start and skip an index the shrinking pool no longer has. */
    method CheckCollisions()
      requires Valid()
      modifies this`bullets, this`enemies, this`particles, this`explosions, this`score,
               this`highScore, this`shakeAmount, this`shakeTime
      ensures Valid()
      ensures Pools() == Resolve(old(Pools()))
      ensures score >= old(score) && highScore >= old(highScore)
      ensures Snapshot() == CollisionPhase(old(Snapshot()))
    {
      ghost var s0 := Snapshot();
      var n := |bullets|;
      for bi := 0 to n
        invariant BulletPass(Pools(), bi, n) == Resolve(old(Pools()))
      {
        if bi < |bullets| {
          var b := bullets[bi];
          var m := |enemies|;
          ghost var start := Pools();
          for ei := 0 to m
            invariant EnemyPass(Pools(), bi, b, ei, m) == EnemyPass(start, bi, b, 0, m)
          {
            if ei < |enemies| {
              BulletMeetsEnemy(bi, b, ei);
            }
          }
        }
      }
      ResolveSound(old(Pools()));
      assert Snapshot() == s0.(bullets := bullets, enemies := enemies, particles := particles,
                               explosions := explosions, score := score, highScore := highScore,
                               shakeAmount := shakeAmount, shakeTime := shakeTime);
    }

    // -------------------------------------------------------------------
    // One tick

    /** The first three steps of update: input, then the two spawners. */
    method ReadInputAndSpawn(now: int, draws: Draws)
      requires Valid() && draws.Fair()
      modifies this`player, this`bullets, this`particles, this`enemies, this`lastEnemySpawn,
               this`enemySpawnRate, this`powerUps, this`lastPowerUpSpawn
      ensures Valid()
      ensures Snapshot() == SpawnPhases(old(Snapshot()), keys, currentWeapon, now, draws, width, height)
      ensures enemySpawnRate <= old(enemySpawnRate)
    {
      ghost var s0 := Snapshot();
      HandleInput(now);
      ghost var s1 := Snapshot();
      assert s1 == InputPhase(s0, keys, currentWeapon, now, width, height);
      SpawnEnemy(now, draws.enemyType, draws.enemyX, draws.enemyDirection);
      SpawnPowerUp(now, draws.powerUpType, draws.powerUpX);
    }

    /** The moving passes of update: bullets, enemies, power-ups. An enemy
        strike costs 20 health at most once; collected power-ups only add
        points and health. */
    method MovePools(draws: Draws)
      requires Valid()
      modifies this`bullets, this`particles, this`enemies, this`health, this`player, this`shakeAmount,
               this`shakeTime, this`explosions, this`gameRunning, this`powerUps, this`playerPowerUps,
               this`score
      ensures Valid()
      ensures Snapshot() == MovePhases(old(Snapshot()), draws, width, height)
      ensures score >= old(score) && health >= old(health) - 20
    {
      ghost var score0, health0 := score, health;
      UpdateBullets(draws.spark);
      assert Valid() && score == score0 && health == health0;
      UpdateEnemies(draws.wave);
      assert score == score0 && health >= health0 - 20;
      UpdatePowerUps();
    }

    /** The ageing passes of update: particles, explosions, trail, timers. */
    method AgePools()
      requires Valid()
      modifies this`particles, this`explosions, this`player, this`playerPowerUps, this`shakeAmount,
               this`shakeTime
      ensures Valid()
      ensures Snapshot() == AgePhase(old(Snapshot()))
    {
      UpdateParticles();
      UpdateExplosions();
      UpdatePlayerTrail();
      UpdatePowerUpTimers();
    }

    /** update: nothing while the game is not running; otherwise the steps in
        the source's order. A hit that ends the game does not stop the rest
        of the tick. The held keys, the weapon and the started flag are
        outside the frame: a tick never changes them. */
    method Update(now: int, draws: Draws)
      requires Valid() && draws.Fair()
      modifies this`score, this`health, this`gameRunning, this`highScore, this`player, this`bullets,
               this`enemies, this`powerUps, this`particles, this`explosions, this`shakeAmount,
               this`shakeTime, this`lastEnemySpawn, this`enemySpawnRate, this`lastPowerUpSpawn,
               this`playerPowerUps
      ensures Valid()
      ensures !old(gameRunning) ==> unchanged(this)
      ensures old(gameRunning) ==>
        Snapshot() == Step(old(Snapshot()), old(keys), old(currentWeapon), now, draws, width, height)
      ensures score >= old(score) && highScore >= old(highScore)
      ensures health >= old(health) - 20
      ensures enemySpawnRate <= old(enemySpawnRate)
    {
      if gameRunning {
        ghost var k, w := keys, currentWeapon;
        ghost var s0 := Snapshot();
        ghost var score0, highScore0, health0 := score, highScore, health;
        ReadInputAndSpawn(now, draws);
        ghost var s1 := Snapshot();
        assert s1 == SpawnPhases(s0, k, w, now, draws, width, height);
        assert score == score0 && highScore == highScore0 && health == health0;
        MovePools(draws);
        ghost var s2 := Snapshot();
        assert s2 == MovePhases(s1, draws, width, height);
        assert score >= score0 && highScore == highScore0 && health >= health0 - 20;
        ghost var score1, health1, rate1 := score, health, enemySpawnRate;
        AgePools();
        ghost var s3 := Snapshot();
        assert s3 == AgePhase(s2);
        assert score == score1 && highScore == highScore0 && health == health1 && enemySpawnRate == rate1;
        CheckCollisions();
        assert Snapshot() == CollisionPhase(s3);
        StepChain(s0, s1, s2, s3, Snapshot(), k, w, now, draws, width, height);
      }
    }
  }
}
