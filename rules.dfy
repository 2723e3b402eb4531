// The per-tick rules of the simulation as functions on values: player
// steering and the fire gate, the shot patterns, the spawners' gates and
// difficulty ramp, and one function per `filter` pass over a pool. The
// methods of Simulation.Game are proved to compute exactly these.
module Rules {
  import opened Seqs
  import opened Entities

  // ---------------------------------------------------------------------
  // Keyboard

  /** Digit1, Digit2, Digit3 select weapon 0, 1, 2; every other key selects nothing. */
  function WeaponForKey(code: string): (k: Option<nat>)
    ensures k.Some? ==> k.value < |Weapons|
    ensures k.Some? <==> code in {"Digit1", "Digit2", "Digit3"}
  {
    if code == "Digit1" then Some(0)
    else if code == "Digit2" then Some(1)
    else if code == "Digit3" then Some(2)
    else None
  }

  /** Keys that start a game that has not been started yet. */
  predicate StartKey(code: string) { code == "Space" || code == "Enter" }

  // ---------------------------------------------------------------------
  // Steering (the movement half of handleInput)

  /** Left, right, up, down in that order, each clamped to its own edge. */
  function Steer(p: Player, keys: set<string>, width: real, height: real): (q: Player)
    ensures q == p.(x := q.x, y := q.y)
  {
    var x1 := if "ArrowLeft" in keys || "KeyA" in keys then Max(0.0, p.x - p.speed) else p.x;
    var x2 := if "ArrowRight" in keys || "KeyD" in keys then Min(width - p.width, x1 + p.speed) else x1;
    var y1 := if "ArrowUp" in keys || "KeyW" in keys then Max(0.0, p.y - p.speed) else p.y;
    var y2 := if "ArrowDown" in keys || "KeyS" in keys then Min(height - p.height, y1 + p.speed) else y1;
    p.(x := x2, y := y2)
  }

  predicate InViewport(p: Player, width: real, height: real)
  {
    0.0 <= p.x <= width - p.width && 0.0 <= p.y <= height - p.height
  }

  /** A player inside the viewport stays inside it, moves at most `speed` along
      each axis, and nothing but its position changes. */
  lemma SteerStaysInViewport(p: Player, keys: set<string>, width: real, height: real)
    requires InViewport(p, width, height) && p.speed >= 0.0
    ensures var q := Steer(p, keys, width, height);
      InViewport(q, width, height) &&
      p.x - p.speed <= q.x <= p.x + p.speed &&
      p.y - p.speed <= q.y <= p.y + p.speed &&
      q == p.(x := q.x, y := q.y)
  {
  }

  // ---------------------------------------------------------------------
  // Firing (the shooting half of handleInput, and shoot)

  /** Half the weapon's cooldown while rapid fire is active. */
  function EffectiveCooldown(w: Weapon, rapidFire: int): real
  {
    if rapidFire > 0 then w.cooldown as real * 0.5 else w.cooldown as real
  }

  /** The gate `now - lastShot > effectiveCooldown`. */
  predicate CanFire(now: int, lastShot: int, w: Weapon, rapidFire: int)
  {
    (now - lastShot) as real > EffectiveCooldown(w, rapidFire)
  }

  /** For every catalog weapon the gate is an integer comparison: strictly more
      than the cooldown (150, 300 or 200 ms) must have passed, or strictly more
      than half of it under rapid fire. In particular a second shot at the same
      instant is always refused. */
  lemma FireGate(k: nat, rapidFire: int, lastShot: int, now: int)
    requires k < |Weapons|
    ensures var w := Weapons[k];
      CanFire(now, lastShot, w, rapidFire) <==>
        now - lastShot > (if rapidFire > 0 then w.cooldown / 2 else w.cooldown)
    ensures !CanFire(lastShot, lastShot, Weapons[k], rapidFire)
  {
    var w := Weapons[k];
    assert w.cooldown % 2 == 0 && w.cooldown > 0;
    var half := w.cooldown / 2;
    assert w.cooldown as real * 0.5 == half as real;
  }

  /** One bullet of weapon w. */
  function Shot(w: Weapon, x: real, y: real, vx: real, plasma: bool): Bullet
  {
    Bullet(x, y, w.bulletWidth, w.bulletHeight, w.bulletSpeed, w.damage, w.color, vx, w.pattern, plasma)
  }

  /** The bullets one accepted shot adds. Multi-shot always fires three
      (drift -1, 0, 1); otherwise single and plasma fire one centred bullet and
      spread fires three centred bullets drifting -1.5, 0, 1.5. */
  function Volley(w: Weapon, centerX: real, y: real, multiShot: bool): (bs: seq<Bullet>)
    ensures |bs| == (if multiShot || w.pattern == Spread then 3 else 1)
    ensures forall b <- bs :: b.damage == w.damage && b.speed == w.bulletSpeed && b.y == y &&
                              b.width == w.bulletWidth && b.height == w.bulletHeight
    ensures multiShot ==> [bs[0].vx, bs[1].vx, bs[2].vx] == [0.0, -1.0, 1.0]
    ensures !multiShot && w.pattern == Spread ==> [bs[0].vx, bs[1].vx, bs[2].vx] == [-1.5, 0.0, 1.5]
    ensures !multiShot && w.pattern != Spread ==> bs[0].vx == 0.0 && bs[0].plasma == (w.pattern == Plasma)
  {
    var mid := centerX - w.bulletWidth / 2.0;
    if multiShot then
      [Shot(w, mid, y, 0.0, false), Shot(w, centerX - 12.0, y, -1.0, false), Shot(w, centerX + 8.0, y, 1.0, false)]
    else
      match w.pattern
      case Single => [Shot(w, mid, y, 0.0, false)]
      case Plasma => [Shot(w, mid, y, 0.0, true)]
      case Spread => [Shot(w, mid, y, -1.5, false), Shot(w, mid, y, 0.0, false), Shot(w, mid, y, 1.5, false)]
  }

  /** Muzzle flash: 15 particles of life 35 for plasma, 8 of life 25 otherwise. */
  function MuzzleFlash(w: Weapon, centerX: real, y: real): (ps: seq<Particle>)
    ensures |ps| == (if w.pattern == Plasma then 15 else 8)
    ensures forall q <- ps :: ParticleOk(q)
  {
    if w.pattern == Plasma then Burst(centerX, y, 15, 35) else Burst(centerX, y, 8, 25)
  }

  // ---------------------------------------------------------------------
  // Spawning

  /** `Math.floor(draw * n)` for a draw of `Math.random()`. */
  function Pick(draw: real, n: nat): (k: nat)
    requires 0.0 <= draw < 1.0 && n > 0
    ensures k < n
    ensures k as real <= draw * n as real < k as real + 1.0
  {
    var scaled := draw * n as real;
    assert 0.0 <= scaled < n as real by {
      assert n as real - scaled == (1.0 - draw) * n as real;
    }
    scaled.Floor
  }

  /** A spawner fires unless fewer than `interval` ms passed since its last spawn. */
  predicate Due(now: int, last: int, interval: int) { !(now - last < interval) }

  /** The difficulty ramp: 10 ms shorter per spawn while above 800 ms. */
  function Ramp(rate: int): int { if rate > 800 then rate - 10 else rate }

  /** The spawn rate after k enemy spawns. */
  function RampTimes(rate: int, k: nat): int
  {
    if k == 0 then rate else RampTimes(Ramp(rate), k - 1)
  }

  /** The ramp keeps the rate a multiple of 10 within [800, 2000] and never raises it. */
  lemma RampBounds(rate: int)
    requires 800 <= rate <= 2000 && rate % 10 == 0
    ensures 800 <= Ramp(rate) <= rate && Ramp(rate) % 10 == 0
  {
  }

  /** From any multiple of 10 at or above the floor, k spawns shorten the interval
      by 10 ms each until it reaches 800 ms, where it stays: from the initial
      2000 ms the floor is reached after 120 spawns. */
  lemma {:induction false} RampSchedule(rate: int, k: nat)
    requires rate >= 800 && rate % 10 == 0
    ensures RampTimes(rate, k) == MaxInt(800, rate - 10 * k)
  {
    if k > 0 {
      RampSchedule(Ramp(rate), k - 1);
    }
  }

  /** One enemy of archetype t at the horizontal position the draw picks, with
      its bottom edge on the top of the viewport. */
  function NewEnemy(t: EnemyType, xDraw: real, dirDraw: real, width: real): (e: Enemy)
    ensures e.health == e.maxHealth == t.health && e.points == t.points && e.kind == t.kind
    ensures e.width == t.width && e.height == t.height && e.y + e.height == 0.0
    ensures 0.0 <= xDraw < 1.0 && width >= t.width ==> 0.0 <= e.x <= width - e.width
    ensures e.direction == 1 || e.direction == -1
  {
    var room := width - t.width;
    assert 0.0 <= xDraw < 1.0 && room >= 0.0 ==> 0.0 <= xDraw * room <= room by {
      if 0.0 <= xDraw < 1.0 && room >= 0.0 {
        assert room - xDraw * room == (1.0 - xDraw) * room;
      }
    }
    Enemy(xDraw * room, -t.height, t.width, t.height, t.speed, t.health, t.health,
          t.color, t.points, t.kind, 0.0, if dirDraw > 0.5 then 1 else -1)
  }

  /** One 20x20 power-up of type t falling at 2 per tick from just above the top. */
  function NewPowerUp(t: PowerUpType, xDraw: real, width: real): (p: PowerUp)
    ensures p.kind == t.kind && p.duration == t.duration && p.y + p.height == 0.0
    ensures 0.0 <= xDraw < 1.0 && width >= 20.0 ==> 0.0 <= p.x <= width - p.width
  {
    var room := width - 20.0;
    assert 0.0 <= xDraw < 1.0 && room >= 0.0 ==> 0.0 <= xDraw * room <= room by {
      if 0.0 <= xDraw < 1.0 && room >= 0.0 {
        assert room - xDraw * room == (1.0 - xDraw) * room;
      }
    }
    PowerUp(xDraw * room, -20.0, 20.0, 20.0, 2.0, t.kind, t.color, t.duration, 0.0)
  }

  // ---------------------------------------------------------------------
  // Bullets (updateBullets)

  function MoveBullet(b: Bullet): Bullet { b.(y := b.y - b.speed, x := b.x + b.vx) }

  /** Kept while not fully above the top and not off either side. */
  predicate OnScreen(b: Bullet, width: real)
  {
    b.y > -b.height && b.x > -b.width && b.x < width
  }

  /** The bullet pool after one tick. */
  function AdvanceBullets(bs: seq<Bullet>, width: real): seq<Bullet>
  {
    Filter(Map(bs, MoveBullet), b => OnScreen(b, width))
  }

  /** Every surviving bullet is an input bullet moved one step and still on
      screen; none is added and damage stays positive. */
  lemma AdvanceBulletsSound(bs: seq<Bullet>, width: real)
    ensures var r := AdvanceBullets(bs, width);
      |r| <= |bs| &&
      (forall b <- r :: OnScreen(b, width) && exists i :: 0 <= i < |bs| && b == MoveBullet(bs[i])) &&
      ((forall b <- bs :: b.damage > 0) ==> forall b <- r :: b.damage > 0)
  {
    var moved := Map(bs, MoveBullet);
    FilterMembers(moved, b => OnScreen(b, width));
    FilterShrinks(moved, b => OnScreen(b, width));
  }

  /** One more step of the pass over bs. */
  lemma AdvanceBulletsStep(bs: seq<Bullet>, i: nat, width: real)
    requires i < |bs|
    ensures AdvanceBullets(bs[..i + 1], width) ==
      AdvanceBullets(bs[..i], width) + (if OnScreen(MoveBullet(bs[i]), width) then [MoveBullet(bs[i])] else [])
  {
    assert bs[..i + 1] == bs[..i] + [bs[i]];
    FilterMapSnoc(bs[..i], bs[i], MoveBullet, b => OnScreen(b, width));
  }

  function SparkChance(b: Bullet): real { if b.pattern == Plasma then 0.5 else 0.3 }
  function SparkLife(b: Bullet): int { if b.pattern == Plasma then 25 else 15 }

  /** The trail particles of one tick: the moved bullet at index i leaves one
      spark below its centre when roll(i) falls under its chance. */
  function Sparks(ms: seq<Bullet>, roll: nat -> real): (ps: seq<Particle>)
    ensures |ps| <= |ms|
    ensures forall q <- ps :: ParticleOk(q)
  {
    if ms == [] then []
    else
      var b := ms[|ms| - 1];
      Sparks(ms[..|ms| - 1], roll) +
        (if roll(|ms| - 1) < SparkChance(b)
         then [Particle(b.x + b.width / 2.0, b.y + b.height, SparkLife(b), SparkLife(b))]
         else [])
  }

  lemma SparksStep(bs: seq<Bullet>, i: nat, roll: nat -> real)
    requires i < |bs|
    ensures var m := MoveBullet(bs[i]);
      Sparks(Map(bs[..i + 1], MoveBullet), roll) == Sparks(Map(bs[..i], MoveBullet), roll) +
        (if roll(i) < SparkChance(m)
         then [Particle(m.x + m.width / 2.0, m.y + m.height, SparkLife(m), SparkLife(m))]
         else [])
  {
    assert bs[..i + 1] == bs[..i] + [bs[i]];
    MapSnoc(bs[..i], bs[i], MoveBullet);
    var ms := Map(bs[..i + 1], MoveBullet);
    assert ms[..|ms| - 1] == Map(bs[..i], MoveBullet);
  }

  // ---------------------------------------------------------------------
  // Enemies (updateEnemies)

  /** One step of an enemy: zigzag advances its phase and swings by
      wave(phase) * 2 * direction, fast steps 0.5 toward the player's centre,
      every enemy falls by its speed, then x is clamped to [0, width - w]. */
  function MoveEnemy(e: Enemy, playerCenter: real, width: real, wave: real -> real): (m: Enemy)
    ensures m.y == e.y + e.speed
    ensures width >= e.width ==> 0.0 <= m.x <= width - e.width
    ensures m == e.(x := m.x, y := m.y, movePattern := m.movePattern)
  {
    var e1 :=
      if e.kind == Zigzag then
        var phase := e.movePattern + 0.1;
        e.(movePattern := phase, x := e.x + wave(phase) * 2.0 * e.direction as real)
      else if e.kind == Fast then
        (if playerCenter > e.x + e.width / 2.0 then e.(x := e.x + 0.5) else e.(x := e.x - 0.5))
      else e;
    var e2 := e1.(y := e1.y + e1.speed);
    e2.(x := Max(0.0, Min(width - e2.width, e2.x)))
  }

  function Center(p: Player): real { p.x + p.width / 2.0 }

  /** What the enemy pass leaves: the enemies kept, and the enemy (if any)
      that struck the player. */
  datatype EnemySweep = EnemySweep(kept: seq<Enemy>, hit: Option<Enemy>)

  /** The enemy pass over es. `exposed` is "not invulnerable and no shield" at
      the start; the first strike makes the player invulnerable, so at most
      one enemy strikes per pass. A striking enemy is dropped; the others are
      kept while their top is above height + their height. */
  function SweepEnemies(es: seq<Enemy>, p: Player, exposed: bool, width: real, height: real,
                        wave: real -> real): (r: EnemySweep)
    ensures r.hit.Some? ==> exposed
  {
    if es == [] then EnemySweep([], None)
    else
      var prev := SweepEnemies(es[..|es| - 1], p, exposed, width, height, wave);
      var m := MoveEnemy(es[|es| - 1], Center(p), width, wave);
      if exposed && prev.hit.None? && Collides(m.Bounds(), p.Bounds()) then prev.(hit := Some(m))
      else if m.y < height + m.height then prev.(kept := prev.kept + [m])
      else prev
  }

  lemma SweepEnemiesStep(es: seq<Enemy>, i: nat, p: Player, exposed: bool, width: real, height: real,
                         wave: real -> real)
    requires i < |es|
    ensures var prev := SweepEnemies(es[..i], p, exposed, width, height, wave);
      var m := MoveEnemy(es[i], Center(p), width, wave);
      SweepEnemies(es[..i + 1], p, exposed, width, height, wave) ==
        if exposed && prev.hit.None? && Collides(m.Bounds(), p.Bounds()) then prev.(hit := Some(m))
        else if m.y < height + m.height then prev.(kept := prev.kept + [m])
        else prev
  {
    assert es[..i + 1][..i] == es[..i];
  }

  /** The moved enemy overlaps the player. */
  predicate Strikes(e: Enemy, p: Player, width: real, wave: real -> real)
  {
    Collides(MoveEnemy(e, Center(p), width, wave).Bounds(), p.Bounds())
  }

  /** The pass strikes exactly when the player is exposed and some moved enemy
      overlaps the player, and the striking enemy is the first such one. */
  lemma {:induction false} SweepEnemiesStrike(es: seq<Enemy>, p: Player, exposed: bool, width: real,
                                               height: real, wave: real -> real)
    ensures var r := SweepEnemies(es, p, exposed, width, height, wave);
      r.hit.Some? <==> exposed && exists i :: 0 <= i < |es| && Strikes(es[i], p, width, wave)
    ensures var r := SweepEnemies(es, p, exposed, width, height, wave);
      r.hit.Some? ==>
        exists i :: 0 <= i < |es| && r.hit.value == MoveEnemy(es[i], Center(p), width, wave) &&
          Strikes(es[i], p, width, wave) && forall j :: 0 <= j < i ==> !Strikes(es[j], p, width, wave)
  {
    if es != [] {
      var init := es[..|es| - 1];
      SweepEnemiesStrike(init, p, exposed, width, height, wave);
      assert forall i :: 0 <= i < |init| ==> init[i] == es[i];
    }
  }

  /** The enemies the pass would keep if nothing could strike the player. */
  function Descend(es: seq<Enemy>, p: Player, width: real, height: real, wave: real -> real): seq<Enemy>
  {
    Filter(Map(es, e => MoveEnemy(e, Center(p), width, wave)), (m: Enemy) => m.y < height + m.height)
  }

  /** Invulnerability or a shield turns the pass into a plain move-and-cull. */
  lemma {:induction false} SweepEnemiesShielded(es: seq<Enemy>, p: Player, width: real, height: real,
                                                wave: real -> real)
    ensures SweepEnemies(es, p, false, width, height, wave) == EnemySweep(Descend(es, p, width, height, wave), None)
  {
    if es != [] {
      var init := es[..|es| - 1];
      SweepEnemiesShielded(init, p, width, height, wave);
      assert es == init + [es[|es| - 1]];
      FilterMapSnoc(init, es[|es| - 1], e => MoveEnemy(e, Center(p), width, wave), (m: Enemy) => m.y < height + m.height);
    }
  }

  /** Every kept enemy is an input enemy moved one step and still in play; a
      struck enemy is not kept, so the pass never grows the pool. */
  lemma {:induction false} SweepEnemiesKept(es: seq<Enemy>, p: Player, exposed: bool, width: real,
                                            height: real, wave: real -> real)
    ensures var r := SweepEnemies(es, p, exposed, width, height, wave);
      |r.kept| + (if r.hit.Some? then 1 else 0) <= |es|
    ensures var r := SweepEnemies(es, p, exposed, width, height, wave);
      forall m <- r.kept :: m.y < height + m.height && exists i :: 0 <= i < |es| && m == MoveEnemy(es[i], Center(p), width, wave)
  {
    if es != [] {
      var init := es[..|es| - 1];
      SweepEnemiesKept(init, p, exposed, width, height, wave);
      assert forall i :: 0 <= i < |init| ==> init[i] == es[i];
    }
  }

  lemma DescendSnoc(es: seq<Enemy>, e: Enemy, p: Player, width: real, height: real, wave: real -> real)
    ensures var m := MoveEnemy(e, Center(p), width, wave);
      Descend(es + [e], p, width, height, wave) ==
        Descend(es, p, width, height, wave) + (if m.y < height + m.height then [m] else [])
  {
    FilterMapSnoc(es, e, e => MoveEnemy(e, Center(p), width, wave), (m: Enemy) => m.y < height + m.height);
  }

  /** The index of the first enemy whose move overlaps the player, or |es|
      when none does. */
  function FirstStrike(es: seq<Enemy>, p: Player, width: real, wave: real -> real): (i: nat)
    ensures i <= |es|
  {
    if es == [] then 0
    else
      var k := FirstStrike(es[..|es| - 1], p, width, wave);
      if k < |es| - 1 then k
      else if Strikes(es[|es| - 1], p, width, wave) then |es| - 1
      else |es|
  }

  /** What the pass keeps is the move-and-cull of the whole pool when nothing
      strikes, and otherwise the move-and-cull of the pool with the first
      striking enemy spliced out. An exposed player is struck exactly when
      some moved enemy overlaps it. */
  lemma {:induction false} SweepEnemiesCull(es: seq<Enemy>, p: Player, exposed: bool, width: real,
                                            height: real, wave: real -> real)
    ensures var r := SweepEnemies(es, p, exposed, width, height, wave);
      exposed ==> (r.hit.Some? <==> FirstStrike(es, p, width, wave) < |es|)
    ensures var r := SweepEnemies(es, p, exposed, width, height, wave);
      r.hit.None? ==> r.kept == Descend(es, p, width, height, wave)
    ensures var r := SweepEnemies(es, p, exposed, width, height, wave);
      var i := FirstStrike(es, p, width, wave);
      r.hit.Some? ==>
        i < |es| && r.hit.value == MoveEnemy(es[i], Center(p), width, wave) &&
        r.kept == Descend(Splice(es, i), p, width, height, wave)
  {
    if es != [] {
      var n := |es| - 1;
      var init, last := es[..n], es[n];
      assert es == init + [last];
      SweepEnemiesCull(init, p, exposed, width, height, wave);
      var prev := SweepEnemies(init, p, exposed, width, height, wave);
      var m := MoveEnemy(last, Center(p), width, wave);
      if prev.hit.Some? {
        var k := FirstStrike(init, p, width, wave);
        SweepAfterHit(es, p, exposed, width, height, wave);
        SpliceSnoc(init, k, last);
        DescendSnoc(Splice(init, k), last, p, width, height, wave);
      } else if exposed && Collides(m.Bounds(), p.Bounds()) {
        SpliceLast(init, last);
      } else {
        DescendSnoc(init, last, p, width, height, wave);
      }
    }
  }

  /** Once an enemy has struck, the pass only moves and culls. */
  lemma SweepAfterHit(es: seq<Enemy>, p: Player, exposed: bool, width: real, height: real, wave: real -> real)
    requires es != [] && SweepEnemies(es[..|es| - 1], p, exposed, width, height, wave).hit.Some?
    ensures var prev := SweepEnemies(es[..|es| - 1], p, exposed, width, height, wave);
      var r := SweepEnemies(es, p, exposed, width, height, wave);
      var m := MoveEnemy(es[|es| - 1], Center(p), width, wave);
      r.hit == prev.hit && r.kept == prev.kept + (if m.y < height + m.height then [m] else [])
  {
  }

  /** The pass keeps the pool sound. */
  lemma SweepEnemiesOk(es: seq<Enemy>, p: Player, exposed: bool, width: real, height: real,
                       wave: real -> real)
    requires EnemiesOk(es)
    ensures EnemiesOk(SweepEnemies(es, p, exposed, width, height, wave).kept)
  {
    SweepEnemiesKept(es, p, exposed, width, height, wave);
    forall m <- SweepEnemies(es, p, exposed, width, height, wave).kept ensures EnemyOk(m) {
      var i :| 0 <= i < |es| && m == MoveEnemy(es[i], Center(p), width, wave);
      assert EnemyOk(es[i]);
    }
  }

  /** Kept enemies keep their health and points, and sit inside the side walls. */
  lemma SweepEnemiesSound(es: seq<Enemy>, p: Player, exposed: bool, width: real, height: real,
                          wave: real -> real)
    requires forall e <- es :: EnemyOk(e) && width >= e.width
    ensures forall m <- SweepEnemies(es, p, exposed, width, height, wave).kept ::
      EnemyOk(m) && 0.0 <= m.x <= width - m.width
  {
    SweepEnemiesKept(es, p, exposed, width, height, wave);
  }

  /** The part of the game state an enemy's strike changes. */
  datatype Side = Side(
    health: int, player: Player, running: bool,
    explosions: seq<Explosion>, particles: seq<Particle>,
    shakeAmount: int, shakeTime: int)

  /** The strike of enemy e: 20 health lost, 60 ticks of invulnerability, a
      red explosion at the enemy's centre, and game over once health is down
      to 0. The explosion's shake (8 for 20 ticks) replaces the strike's own
      (10 for 30), which is set first. */
  function Struck(s: Side, e: Enemy): (r: Side)
    ensures r.health == s.health - 20 && r.player == s.player.(invulnerable := 60)
    ensures r.running <==> s.running && r.health > 0
    ensures |r.explosions| == |s.explosions| + 1 && s.explosions <= r.explosions
    ensures |r.particles| == |s.particles| + 25 && s.particles <= r.particles
    ensures ExplosionsOk(s.explosions) ==> ExplosionsOk(r.explosions)
    ensures ParticlesOk(s.particles) ==> ParticlesOk(r.particles)
    ensures r.shakeAmount == 8 && r.shakeTime == 20
  {
    var cx, cy := e.x + e.width / 2.0, e.y + e.height / 2.0;
    Side(s.health - 20, s.player.(invulnerable := 60), s.running && s.health - 20 > 0,
         s.explosions + [NewExplosion(cx, cy, "#ff0000")], s.particles + Burst(cx, cy, 25, 80),
         8, 20)
  }

  // ---------------------------------------------------------------------
  // Power-ups (updatePowerUps, collectPowerUp)

  function Fall(p: PowerUp): PowerUp { p.(y := p.y + p.speed, pulse := p.pulse + 0.2) }

  /** The moved power-ups that overlap the player, in pool order. */
  function Caught(ps: seq<PowerUp>, player: Player): seq<PowerUp>
  {
    Filter(Map(ps, Fall), (q: PowerUp) => Collides(q.Bounds(), player.Bounds()))
  }

  /** The moved power-ups the pass keeps: not caught and still in play. */
  function Missed(ps: seq<PowerUp>, player: Player, height: real): seq<PowerUp>
  {
    Filter(Map(ps, Fall), (q: PowerUp) => !Collides(q.Bounds(), player.Bounds()) && q.y < height + q.height)
  }

  lemma PowerUpsStep(ps: seq<PowerUp>, i: nat, player: Player, height: real)
    requires i < |ps|
    ensures var m := Fall(ps[i]);
      Caught(ps[..i + 1], player) ==
        Caught(ps[..i], player) + (if Collides(m.Bounds(), player.Bounds()) then [m] else []) &&
      Missed(ps[..i + 1], player, height) ==
        Missed(ps[..i], player, height) +
        (if !Collides(m.Bounds(), player.Bounds()) && m.y < height + m.height then [m] else [])
  {
    assert ps[..i + 1] == ps[..i] + [ps[i]];
    FilterMapSnoc(ps[..i], ps[i], Fall, (q: PowerUp) => Collides(q.Bounds(), player.Bounds()));
    FilterMapSnoc(ps[..i], ps[i], Fall, (q: PowerUp) => !Collides(q.Bounds(), player.Bounds()) && q.y < height + q.height);
  }

  /** The moved power-ups are split three ways: caught, kept, or culled. */
  lemma {:induction false} PowerUpsPartition(ps: seq<PowerUp>, player: Player, height: real)
    ensures |Caught(ps, player)| + |Missed(ps, player, height)| <= |ps|
  {
    if ps != [] {
      var init := ps[..|ps| - 1];
      PowerUpsPartition(init, player, height);
      assert ps == init + [ps[|ps| - 1]];
      FilterMapSnoc(init, ps[|ps| - 1], Fall, (q: PowerUp) => Collides(q.Bounds(), player.Bounds()));
      FilterMapSnoc(init, ps[|ps| - 1], Fall, (q: PowerUp) => !Collides(q.Bounds(), player.Bounds()) && q.y < height + q.height);
    }
  }

  /** Every caught power-up overlaps the player, every kept one does not and
      is still in play, and each is an input power-up moved one step. */
  lemma PowerUpsSound(ps: seq<PowerUp>, player: Player, height: real)
    ensures forall q <- Caught(ps, player) ::
      Collides(q.Bounds(), player.Bounds()) && exists i :: 0 <= i < |ps| && q == Fall(ps[i])
    ensures forall q <- Missed(ps, player, height) ::
      !Collides(q.Bounds(), player.Bounds()) && q.y < height + q.height &&
      exists i :: 0 <= i < |ps| && q == Fall(ps[i])
  {
    FilterMembers(Map(ps, Fall), (q: PowerUp) => Collides(q.Bounds(), player.Bounds()));
    FilterMembers(Map(ps, Fall), (q: PowerUp) => !Collides(q.Bounds(), player.Bounds()) && q.y < height + q.height);
  }

  /** The part of the game state a collected power-up changes. */
  datatype Vitals = Vitals(health: int, effects: Effects, score: int)

  /** collectPowerUp: heal 25 up to the cap, or overwrite the effect's timer
      with the power-up's duration; 50 points either way. */
  function Collect(v: Vitals, p: PowerUp): Vitals
  {
    Vitals(if p.kind == Heal then MinInt(MaxHealth, v.health + 25) else v.health,
           if p.kind == Heal then v.effects else v.effects.Set(p.kind, p.duration),
           v.score + 50)
  }

  /** A timed effect is set to the power-up's duration whatever was left of it
      (the timers are not summed), and the other timers are untouched. */
  lemma CollectOverwrites(v: Vitals, p: PowerUp, k: PowerUpKind)
    requires p.kind != Heal && k != Heal
    ensures Collect(v, p).effects.Get(k) == (if k == p.kind then p.duration else v.effects.Get(k))
    ensures Collect(v, p).health == v.health
  {
  }

  /** The power-ups caught in one tick, applied in pool order. */
  function CollectAll(v: Vitals, ps: seq<PowerUp>): Vitals
  {
    if ps == [] then v else Collect(CollectAll(v, ps[..|ps| - 1]), ps[|ps| - 1])
  }

  /** Collecting n power-ups adds exactly 50 n to the score, never lowers
      health nor lifts it above the cap, and leaves no timer below zero. */
  lemma {:induction false} CollectAllSound(v: Vitals, ps: seq<PowerUp>)
    requires v.health <= MaxHealth && v.effects.NonNegative()
    requires forall p <- ps :: p.duration >= 0
    ensures var r := CollectAll(v, ps);
      r.score == v.score + 50 * |ps| && v.health <= r.health <= MaxHealth && r.effects.NonNegative()
  {
    if ps != [] {
      var init := ps[..|ps| - 1];
      assert forall p <- init :: p in ps;
      CollectAllSound(v, init);
    }
  }

  /** Caught and kept power-ups keep a non-negative duration. */
  lemma PowerUpsOkKept(ps: seq<PowerUp>, player: Player, height: real)
    requires PowerUpsOk(ps)
    ensures PowerUpsOk(Caught(ps, player)) && PowerUpsOk(Missed(ps, player, height))
  {
    PowerUpsSound(ps, player, height);
    forall q <- Caught(ps, player) ensures q.duration >= 0 {
      var i :| 0 <= i < |ps| && q == Fall(ps[i]);
      assert ps[i] in ps;
    }
    forall q <- Missed(ps, player, height) ensures q.duration >= 0 {
      var i :| 0 <= i < |ps| && q == Fall(ps[i]);
      assert ps[i] in ps;
    }
  }

  /** The 20 particles of life 40 each collected power-up bursts into, in order. */
  function Flashes(ps: seq<PowerUp>): (qs: seq<Particle>)
    ensures |qs| == 20 * |ps|
    ensures forall q <- qs :: ParticleOk(q)
  {
    if ps == [] then []
    else
      var p := ps[|ps| - 1];
      Flashes(ps[..|ps| - 1]) + Burst(p.x + p.width / 2.0, p.y + p.height / 2.0, 20, 40)
  }

  /** One more collected power-up. */
  lemma CollectStep(v: Vitals, ps: seq<PowerUp>, j: nat)
    requires j < |ps|
    ensures CollectAll(v, ps[..j + 1]) == Collect(CollectAll(v, ps[..j]), ps[j])
    ensures Flashes(ps[..j + 1]) ==
      Flashes(ps[..j]) + Burst(ps[j].x + ps[j].width / 2.0, ps[j].y + ps[j].height / 2.0, 20, 40)
  {
    assert ps[..j + 1][..j] == ps[..j];
  }

  // ---------------------------------------------------------------------
  // Particles and explosions (updateParticles, updateExplosions)

  function Age(q: Particle): Particle { q.(life := q.life - 1) }

  function AgeParticles(ps: seq<Particle>): seq<Particle>
  {
    Filter(Map(ps, Age), (q: Particle) => q.life > 0)
  }

  lemma AgeParticlesStep(ps: seq<Particle>, i: nat)
    requires i < |ps|
    ensures AgeParticles(ps[..i + 1]) == AgeParticles(ps[..i]) + (if Age(ps[i]).life > 0 then [Age(ps[i])] else [])
  {
    assert ps[..i + 1] == ps[..i] + [ps[i]];
    FilterMapSnoc(ps[..i], ps[i], Age, (q: Particle) => q.life > 0);
  }

  /** Aging keeps every life within (0, maxLife] and drops the particles whose
      last tick this was. */
  lemma AgeParticlesSound(ps: seq<Particle>)
    requires forall q <- ps :: ParticleOk(q)
    ensures |AgeParticles(ps)| <= |ps|
    ensures forall q <- AgeParticles(ps) :: ParticleOk(q)
    ensures forall q <- ps :: q.life > 1 ==> Age(q) in AgeParticles(ps)
  {
    var aged := Map(ps, Age);
    FilterMembers(aged, (q: Particle) => q.life > 0);
    FilterShrinks(aged, (q: Particle) => q.life > 0);
    forall q <- AgeParticles(ps) ensures ParticleOk(q) {
      var i :| 0 <= i < |aged| && aged[i] == q;
      assert ParticleOk(ps[i]);
    }
    forall q <- ps | q.life > 1 ensures Age(q) in AgeParticles(ps) {
      var i :| 0 <= i < |ps| && ps[i] == q;
      assert aged[i] == Age(q);
    }
  }

  function Tick(x: Explosion): Explosion { x.(time := x.time + 1) }

  function AgeExplosions(xs: seq<Explosion>): seq<Explosion>
  {
    Filter(Map(xs, Tick), (x: Explosion) => x.time < x.maxTime)
  }

  lemma AgeExplosionsStep(xs: seq<Explosion>, i: nat)
    requires i < |xs|
    ensures AgeExplosions(xs[..i + 1]) ==
      AgeExplosions(xs[..i]) + (if Tick(xs[i]).time < Tick(xs[i]).maxTime then [Tick(xs[i])] else [])
  {
    assert xs[..i + 1] == xs[..i] + [xs[i]];
    FilterMapSnoc(xs[..i], xs[i], Tick, (x: Explosion) => x.time < x.maxTime);
  }

  /** Every kept explosion has time < maxTime and is an input one tick older. */
  lemma AgeExplosionsSound(xs: seq<Explosion>)
    requires forall x <- xs :: ExplosionOk(x)
    ensures |AgeExplosions(xs)| <= |xs|
    ensures forall x <- AgeExplosions(xs) :: ExplosionOk(x) && exists i :: 0 <= i < |xs| && x == Tick(xs[i])
  {
    var ticked := Map(xs, Tick);
    FilterMembers(ticked, (x: Explosion) => x.time < x.maxTime);
    FilterShrinks(ticked, (x: Explosion) => x.time < x.maxTime);
    forall x <- AgeExplosions(xs) ensures ExplosionOk(x) && exists i :: 0 <= i < |xs| && x == Tick(xs[i]) {
      var i :| 0 <= i < |ticked| && ticked[i] == x;
      assert ExplosionOk(xs[i]);
    }
  }

  // ---------------------------------------------------------------------
  // Player trail (updatePlayerTrail)

  function Fade(t: TrailPoint): TrailPoint { t.(life := t.life - 1) }

  /** Age every trail point and drop the expired ones. */
  function FadeTrail(ts: seq<TrailPoint>): seq<TrailPoint>
  {
    Filter(Map(ts, Fade), (t: TrailPoint) => t.life > 0)
  }

  lemma FadeTrailStep(ts: seq<TrailPoint>, i: nat)
    requires i < |ts|
    ensures FadeTrail(ts[..i + 1]) == FadeTrail(ts[..i]) + (if Fade(ts[i]).life > 0 then [Fade(ts[i])] else [])
  {
    assert ts[..i + 1] == ts[..i] + [ts[i]];
    FilterMapSnoc(ts[..i], ts[i], Fade, (t: TrailPoint) => t.life > 0);
  }

  /** Append the new point with life 20, age every point, drop the expired
      ones, then drop the oldest if more than 10 remain. */
  function TrailStep(trail: seq<TrailPoint>, px: real, py: real): seq<TrailPoint>
  {
    var aged := FadeTrail(trail + [TrailPoint(px, py, 20)]);
    if |aged| > 10 then aged[1..] else aged
  }

  predicate TrailOk(trail: seq<TrailPoint>)
  {
    |trail| <= 10 && forall t <- trail :: 1 <= t.life <= 19
  }

  /** The trail stays at most 10 long with every life in [1, 19]. */
  lemma TrailStepOk(trail: seq<TrailPoint>, px: real, py: real)
    requires TrailOk(trail)
    ensures TrailOk(TrailStep(trail, px, py))
  {
    var grown := trail + [TrailPoint(px, py, 20)];
    var aged := FadeTrail(grown);
    FilterMembers(Map(grown, Fade), (t: TrailPoint) => t.life > 0);
    FilterShrinks(Map(grown, Fade), (t: TrailPoint) => t.life > 0);
    forall t <- aged ensures 1 <= t.life <= 19 {
      var i :| 0 <= i < |grown| && Map(grown, Fade)[i] == t;
      assert i < |trail| ==> grown[i] in trail;
    }
    if |aged| > 10 {
      assert forall t <- aged[1..] :: t in aged;
    }
  }

  // ---------------------------------------------------------------------
  // Timers (updatePowerUpTimers)

  /** An effect timer loses 16 ms per tick while positive, clamped at 0. */
  function DecayTimer(ms: int): int
  {
    if ms > 0 then (if ms - 16 <= 0 then 0 else ms - 16) else ms
  }

  function DecayEffects(e: Effects): (d: Effects)
    ensures e.NonNegative() ==> d.NonNegative()
  {
    Effects(DecayTimer(e.rapidFire), DecayTimer(e.shield), DecayTimer(e.multiShot))
  }

  function DecayTimes(ms: int, k: nat): int
  {
    if k == 0 then ms else DecayTimes(DecayTimer(ms), k - 1)
  }

  /** After k ticks a timer of ms milliseconds holds max(0, ms - 16 k): a
      5000 ms rapid fire lasts 313 ticks and is never negative. */
  lemma {:induction false} TimerRunsOut(ms: int, k: nat)
    requires ms >= 0
    ensures DecayTimes(ms, k) == MaxInt(0, ms - 16 * k)
  {
    if k > 0 {
      TimerRunsOut(DecayTimer(ms), k - 1);
    }
  }
}
