// The records the arcade simulation keeps in its pools, the fixed catalogs
// (weapons, enemy archetypes, power-ups) and the bounding-box overlap test.
// Positions and sizes are reals (the game moves things by 1.5, 0.5, width / 2);
// health, score, timers and durations are integers.
module Entities {

  datatype Option<T> = None | Some(value: T)

  function Min(a: real, b: real): real { if a <= b then a else b }
  function Max(a: real, b: real): real { if a >= b then a else b }
  function MinInt(a: int, b: int): int { if a <= b then a else b }
  function MaxInt(a: int, b: int): int { if a >= b then a else b }

  /** The player's full health, which is also the cap for healing. */
  const MaxHealth: int := 100

  // ---------------------------------------------------------------------
  // Axis-aligned boxes

  /** A rectangle given by its top-left corner and its size. */
  datatype Box = Box(x: real, y: real, width: real, height: real)

  /** The game's `checkCollision`: strict comparisons on all four sides. */
  predicate Collides(a: Box, b: Box)
  {
    a.x < b.x + b.width && a.x + a.width > b.x &&
    a.y < b.y + b.height && a.y + a.height > b.y
  }

  /** A point strictly inside a box. */
  predicate Inside(px: real, py: real, a: Box)
  {
    a.x < px < a.x + a.width && a.y < py < a.y + a.height
  }

  predicate Proper(a: Box) { a.width > 0.0 && a.height > 0.0 }

  /** The overlap test does not depend on which box comes first. */
  lemma CollidesSymmetric(a: Box, b: Box)
    ensures Collides(a, b) <==> Collides(b, a)
  {
  }

  /** Boxes that only share an edge or a corner do not collide. */
  lemma TouchingDoesNotCollide(a: Box, b: Box)
    requires a.x + a.width == b.x || b.x + b.width == a.x ||
             a.y + a.height == b.y || b.y + b.height == a.y
    ensures !Collides(a, b)
  {
  }

  /** For boxes of positive size the strict test holds exactly when some point
      lies strictly inside both: the open rectangles intersect. */
  lemma CollidesIffCommonPoint(a: Box, b: Box)
    requires Proper(a) && Proper(b)
    ensures Collides(a, b) <==> exists px, py :: Inside(px, py, a) && Inside(px, py, b)
  {
    if Collides(a, b) {
      var px := (Max(a.x, b.x) + Min(a.x + a.width, b.x + b.width)) / 2.0;
      var py := (Max(a.y, b.y) + Min(a.y + a.height, b.y + b.height)) / 2.0;
      assert Inside(px, py, a) && Inside(px, py, b);
    }
  }

  // ---------------------------------------------------------------------
  // Weapons

  datatype Pattern = Single | Plasma | Spread

  datatype Weapon = Weapon(
    name: string,
    cooldown: int,        // ms between shots
    bulletSpeed: real,
    bulletWidth: real,
    bulletHeight: real,
    damage: int,
    color: string,
    pattern: Pattern)

  /** The three weapons, selected by index 0, 1, 2. */
  const Weapons: seq<Weapon> := [
    Weapon("Basic Laser", 150, 8.0, 4.0, 15.0, 25, "#00ffff", Single),
    Weapon("Plasma Cannon", 300, 6.0, 8.0, 20.0, 50, "#ff6600", Plasma),
    Weapon("Spread Shot", 200, 7.0, 3.0, 12.0, 20, "#ffff00", Spread)
  ]

  datatype Bullet = Bullet(
    x: real, y: real, width: real, height: real,
    speed: real,          // upward distance per tick
    damage: int,
    color: string,
    vx: real,             // horizontal drift per tick
    pattern: Pattern,     // the firing weapon's pattern
    plasma: bool)         // set only on plasma-pattern shots
  {
    function Bounds(): Box { Box(x, y, width, height) }
  }

  // ---------------------------------------------------------------------
  // Enemies

  datatype EnemyKind = Basic | Heavy | Fast | Zigzag

  datatype EnemyType = EnemyType(
    width: real, height: real, speed: real,
    health: int, color: string, points: int, kind: EnemyKind)

  /** The four archetypes `spawnEnemy` picks from. */
  const EnemyTypes: seq<EnemyType> := [
    EnemyType(30.0, 40.0, 2.0, 50, "#ff4444", 10, Basic),
    EnemyType(40.0, 50.0, 1.5, 100, "#ff8844", 25, Heavy),
    EnemyType(25.0, 35.0, 3.0, 25, "#ff44ff", 15, Fast),
    EnemyType(35.0, 45.0, 1.8, 75, "#44ff44", 20, Zigzag)
  ]

  datatype Enemy = Enemy(
    x: real, y: real, width: real, height: real,
    speed: real,          // downward distance per tick
    health: int, maxHealth: int,
    color: string,
    points: int,          // score for a kill
    kind: EnemyKind,
    movePattern: real,    // zigzag phase
    direction: int)       // zigzag sign, 1 or -1
  {
    function Bounds(): Box { Box(x, y, width, height) }
  }

  /** What the pool keeps true of a live enemy. */
  predicate EnemyOk(e: Enemy)
  {
    0 < e.health <= e.maxHealth && e.points > 0
  }

  predicate EnemiesOk(es: seq<Enemy>) { forall e <- es :: EnemyOk(e) }

  predicate BulletsOk(bs: seq<Bullet>) { forall b <- bs :: b.damage > 0 }

  // ---------------------------------------------------------------------
  // Power-ups and the player's timed effects

  /** `Heal` is the game's 'health' power-up; the others are timed effects. */
  datatype PowerUpKind = RapidFire | Shield | MultiShot | Heal

  datatype PowerUpType = PowerUpType(kind: PowerUpKind, color: string, duration: int)

  /** The four power-ups `spawnPowerUp` picks from; durations in ms. */
  const PowerUpTypes: seq<PowerUpType> := [
    PowerUpType(RapidFire, "#ffff00", 5000),
    PowerUpType(Shield, "#00ffff", 8000),
    PowerUpType(MultiShot, "#ff00ff", 6000),
    PowerUpType(Heal, "#00ff00", 0)
  ]

  datatype PowerUp = PowerUp(
    x: real, y: real, width: real, height: real,
    speed: real,
    kind: PowerUpKind,
    color: string,
    duration: int,
    pulse: real)
  {
    function Bounds(): Box { Box(x, y, width, height) }
  }

  predicate PowerUpsOk(ps: seq<PowerUp>) { forall p <- ps :: p.duration >= 0 }

  /** Remaining ms of each timed effect (the game's `playerPowerUps`). */
  datatype Effects = Effects(rapidFire: int, shield: int, multiShot: int)
  {
    predicate NonNegative() { rapidFire >= 0 && shield >= 0 && multiShot >= 0 }

    function Get(k: PowerUpKind): int
      requires k != Heal
    {
      match k
      case RapidFire => rapidFire
      case Shield => shield
      case MultiShot => multiShot
    }

    /** `playerPowerUps[type] = duration`: the timer is overwritten. */
    function Set(k: PowerUpKind, ms: int): (e: Effects)
      requires k != Heal
      ensures e.Get(k) == ms
      ensures forall j :: j != Heal && j != k ==> e.Get(j) == Get(j)
    {
      match k
      case RapidFire => this.(rapidFire := ms)
      case Shield => this.(shield := ms)
      case MultiShot => this.(multiShot := ms)
    }
  }

  const NoEffects: Effects := Effects(0, 0, 0)

  // ---------------------------------------------------------------------
  // Particles, explosions, the player

  /** A cosmetic particle: where it was emitted and how long it lives (ticks).
      Velocity, size and colour are random and not kept. */
  datatype Particle = Particle(x: real, y: real, life: int, maxLife: int)

  predicate ParticleOk(q: Particle) { 0 < q.life <= q.maxLife }

  predicate ParticlesOk(ps: seq<Particle>) { forall q <- ps :: ParticleOk(q) }

  /** n identical particles at (x, y) with the given life. */
  function Burst(x: real, y: real, n: nat, life: int): (ps: seq<Particle>)
    ensures |ps| == n
    ensures life > 0 ==> forall q <- ps :: ParticleOk(q)
  {
    seq(n, _ => Particle(x, y, life, life))
  }

  datatype Ring = Ring(radius: real, maxRadius: real, delay: int)

  datatype Explosion = Explosion(
    x: real, y: real,
    time: int, maxTime: int,
    color: string,
    rings: seq<Ring>)

  predicate ExplosionOk(x: Explosion) { 0 <= x.time < x.maxTime }

  predicate ExplosionsOk(xs: seq<Explosion>) { forall x <- xs :: ExplosionOk(x) }

  /** The three rings every explosion starts with. */
  const ExplosionRings: seq<Ring> := [Ring(0.0, 25.0, 0), Ring(0.0, 40.0, 5), Ring(0.0, 55.0, 10)]

  function NewExplosion(x: real, y: real, color: string): (e: Explosion)
    ensures ExplosionOk(e)
    ensures e.time == 0 && e.maxTime == 40
  {
    Explosion(x, y, 0, 40, color, ExplosionRings)
  }

  datatype TrailPoint = TrailPoint(x: real, y: real, life: int)

  datatype Player = Player(
    x: real, y: real, width: real, height: real,
    speed: real,
    lastShot: int,        // time of the last accepted shot
    shootCooldown: int,   // carried by the player record, never consulted
    invulnerable: int,    // ticks left
    trail: seq<TrailPoint>)
  {
    function Bounds(): Box { Box(x, y, width, height) }
  }

  /** `initPlayer`: centred horizontally, 80 above the bottom edge. */
  function InitialPlayer(width: real, height: real): Player
  {
    Player(width / 2.0, height - 80.0, 40.0, 60.0, 5.0, 0, 150, 0, [])
  }
}
