// checkCollisions as a function of the part of the game state it touches.
// The source walks the bullets with forEach and, for each, the enemies with
// forEach, splicing both arrays while it walks them. forEach fixes the number
// of steps when it starts and skips an index that the array no longer has; a
// splice shifts the later elements down, so the element after a removed one
// is skipped; a bullet that has hit keeps being compared with the later
// enemies, and each of its further hits splices whatever bullet then sits at
// its old index. The functions below follow those steps exactly.
module Combat {
  import opened Seqs
  import opened Entities

  /** The pools and counters checkCollisions reads and writes. */
  datatype Arena = Arena(
    bullets: seq<Bullet>,
    enemies: seq<Enemy>,
    particles: seq<Particle>,
    explosions: seq<Explosion>,
    score: int,
    highScore: int,
    shakeAmount: int,
    shakeTime: int)

  /** createExplosion: three rings, 25 particles of life 80, and a shake of
      8 for 20 ticks that replaces any shake set before it. */
  function Explode(a: Arena, x: real, y: real, color: string): Arena
  {
    a.(explosions := a.explosions + [NewExplosion(x, y, color)],
       particles := a.particles + Burst(x, y, 25, 80),
       shakeAmount := 8, shakeTime := 20)
  }

  /** The hit itself: the enemy at ei loses the bullet's damage, whatever
      bullet sits at bi is spliced, 12 particles of life 35 and a shake of 2
      for 5 ticks. */
  function Wound(a: Arena, bi: nat, b: Bullet, ei: nat): Arena
    requires ei < |a.enemies|
  {
    var e := a.enemies[ei];
    a.(enemies := a.enemies[ei := e.(health := e.health - b.damage)],
       bullets := Splice(a.bullets, bi),
       particles := a.particles + Burst(b.x + b.width / 2.0, b.y + b.height / 2.0, 12, 35),
       shakeAmount := 2, shakeTime := 5)
  }

  /** The kill of the enemy at ei: its points are scored, it explodes, it is
      spliced out, and the high score follows the score if it passed it. */
  function Kill(a: Arena, ei: nat): Arena
    requires ei < |a.enemies|
  {
    var e := a.enemies[ei];
    var a2 := Explode(a.(score := a.score + e.points), e.x + e.width / 2.0, e.y + e.height / 2.0, e.color);
    var a3 := a2.(enemies := Splice(a2.enemies, ei));
    if a3.score > a3.highScore then a3.(highScore := a3.score) else a3
  }

  /** One call of the inner callback: bullet b (taken from index bi when the
      outer step began) against the enemy now at index ei. */
  function Strike(a: Arena, bi: nat, b: Bullet, ei: nat): Arena
    requires ei < |a.enemies|
  {
    if !Collides(b.Bounds(), a.enemies[ei].Bounds()) then a
    else
      var w := Wound(a, bi, b, ei);
      if w.enemies[ei].health > 0 then w else Kill(w, ei)
  }

  /** The inner forEach from index ei up to m, its length when it started. */
  function EnemyPass(a: Arena, bi: nat, b: Bullet, ei: nat, m: nat): Arena
    decreases m - ei
  {
    if ei >= m then a
    else EnemyPass(if ei < |a.enemies| then Strike(a, bi, b, ei) else a, bi, b, ei + 1, m)
  }

  /** The outer forEach from index bi up to n, its length when it started. */
  function BulletPass(a: Arena, bi: nat, n: nat): Arena
    decreases n - bi
  {
    if bi >= n then a
    else
      var next := if bi < |a.bullets| then EnemyPass(a, bi, a.bullets[bi], 0, |a.enemies|) else a;
      BulletPass(next, bi + 1, n)
  }

  /** checkCollisions. */
  function Resolve(a: Arena): Arena
  {
    BulletPass(a, 0, |a.bullets|)
  }

  // ---------------------------------------------------------------------
  // Bookkeeping

  /** The points the enemies in a pool are worth. */
  function Points(es: seq<Enemy>): int
  {
    if es == [] then 0 else es[0].points + Points(es[1..])
  }

  lemma {:induction false} PointsConcat(xs: seq<Enemy>, ys: seq<Enemy>)
    ensures Points(xs + ys) == Points(xs) + Points(ys)
  {
    if xs != [] {
      assert (xs + ys)[1..] == xs[1..] + ys;
      PointsConcat(xs[1..], ys);
    } else {
      assert xs + ys == ys;
    }
  }

  lemma PointsAround(es: seq<Enemy>, k: nat)
    requires k < |es|
    ensures Points(es) == Points(es[..k]) + es[k].points + Points(es[k + 1..])
  {
    assert es == es[..k] + ([es[k]] + es[k + 1..]);
    PointsConcat(es[..k], [es[k]] + es[k + 1..]);
    PointsConcat([es[k]], es[k + 1..]);
  }

  /** Removing an enemy removes exactly its points from the pool's worth. */
  lemma PointsSplice(es: seq<Enemy>, k: nat)
    requires k < |es|
    ensures Points(Splice(es, k)) == Points(es) - es[k].points
  {
    PointsAround(es, k);
    PointsConcat(es[..k], es[k + 1..]);
  }

  /** Damaging an enemy does not change the pool's worth. */
  lemma PointsUpdate(es: seq<Enemy>, k: nat, e: Enemy)
    requires k < |es| && e.points == es[k].points
    ensures Points(es[k := e]) == Points(es)
  {
    PointsAround(es, k);
    PointsAround(es[k := e], k);
    assert es[k := e][..k] == es[..k] && es[k := e][k + 1..] == es[k + 1..];
  }

  /** What the pools keep true between ticks. */
  predicate ArenaOk(a: Arena)
  {
    BulletsOk(a.bullets) && EnemiesOk(a.enemies) && ParticlesOk(a.particles) &&
    ExplosionsOk(a.explosions) && a.shakeTime >= 0
  }

  /** What checkCollisions guarantees between a state a and a later state d:
      the score plus the worth of the enemy pool is conserved (a kill moves
      exactly the enemy's points to the score), every removed enemy left an
      explosion, no bullet appears, particles and explosions are only
      appended, the score never drops, and the high score follows the score
      upward only when the score rose. */
  predicate Progress(a: Arena, d: Arena)
  {
    d.score + Points(d.enemies) == a.score + Points(a.enemies) &&
    |d.enemies| + |d.explosions| == |a.enemies| + |a.explosions| &&
    multiset(d.bullets) <= multiset(a.bullets) &&
    a.explosions <= d.explosions && a.particles <= d.particles &&
    a.score <= d.score &&
    d.highScore == (if d.score > a.score then MaxInt(a.highScore, d.score) else a.highScore)
  }

  lemma ProgressTrans(a: Arena, b: Arena, c: Arena)
    requires Progress(a, b) && Progress(b, c)
    ensures Progress(a, c)
  {
  }

  lemma SpliceKeeps<A>(s: seq<A>, k: nat, p: A -> bool)
    requires forall x <- s :: p(x)
    ensures forall x <- Splice(s, k) :: p(x)
  {
    SpliceMembers(s, k);
  }

  /** A hit only damages: the books balance, and all the pools but the hit
      enemy stay sound. */
  lemma WoundProgress(a: Arena, bi: nat, b: Bullet, ei: nat)
    requires ArenaOk(a) && b.damage > 0 && ei < |a.enemies|
    ensures var w := Wound(a, bi, b, ei);
      Progress(a, w) && w.enemies[ei].points > 0 &&
      (w.enemies[ei].health > 0 ==> ArenaOk(w)) &&
      ArenaOk(w.(enemies := Splice(w.enemies, ei)))
  {
    var e := a.enemies[ei];
    var hurt := e.(health := e.health - b.damage);
    var w := Wound(a, bi, b, ei);
    SpliceMultiset(a.bullets, bi);
    SpliceKeeps(a.bullets, bi, (x: Bullet) => x.damage > 0);
    PointsUpdate(a.enemies, ei, hurt);
    assert EnemyOk(e);
    assert forall x <- w.enemies :: x == hurt || x in a.enemies;
    SpliceAfterUpdate(a.enemies, ei, hurt);
    SpliceKeeps(a.enemies, ei, EnemyOk);
  }

  /** A kill moves the enemy's points to the score and leaves one explosion. */
  lemma KillProgress(a: Arena, ei: nat)
    requires ei < |a.enemies| && a.enemies[ei].points > 0
    requires ArenaOk(a.(enemies := Splice(a.enemies, ei)))
    ensures ArenaOk(Kill(a, ei)) && Progress(a, Kill(a, ei))
  {
    PointsSplice(a.enemies, ei);
  }

  /** One callback keeps the pools sound and makes progress. */
  lemma StrikeProgress(a: Arena, bi: nat, b: Bullet, ei: nat)
    requires ArenaOk(a) && b.damage > 0 && ei < |a.enemies|
    ensures ArenaOk(Strike(a, bi, b, ei)) && Progress(a, Strike(a, bi, b, ei))
    ensures !Collides(b.Bounds(), a.enemies[ei].Bounds()) ==> Strike(a, bi, b, ei) == a
    ensures var e := a.enemies[ei];
      Collides(b.Bounds(), e.Bounds()) && e.health - b.damage > 0 ==>
        Strike(a, bi, b, ei).enemies == a.enemies[ei := e.(health := e.health - b.damage)] &&
        Strike(a, bi, b, ei).bullets == Splice(a.bullets, bi) &&
        Strike(a, bi, b, ei).score == a.score
    ensures var e := a.enemies[ei];
      Collides(b.Bounds(), e.Bounds()) && e.health - b.damage <= 0 ==>
        Strike(a, bi, b, ei).enemies == Splice(a.enemies, ei) &&
        Strike(a, bi, b, ei).bullets == Splice(a.bullets, bi) &&
        Strike(a, bi, b, ei).score == a.score + e.points
  {
    if Collides(b.Bounds(), a.enemies[ei].Bounds()) {
      var w := Wound(a, bi, b, ei);
      WoundProgress(a, bi, b, ei);
      if w.enemies[ei].health <= 0 {
        KillProgress(w, ei);
        ProgressTrans(a, w, Kill(w, ei));
        SpliceAfterUpdate(a.enemies, ei, w.enemies[ei]);
      }
    }
  }

  lemma {:induction false} EnemyPassProgress(a: Arena, bi: nat, b: Bullet, ei: nat, m: nat)
    requires ArenaOk(a) && b.damage > 0
    ensures ArenaOk(EnemyPass(a, bi, b, ei, m)) && Progress(a, EnemyPass(a, bi, b, ei, m))
    decreases m - ei
  {
    if ei < m {
      var next := if ei < |a.enemies| then Strike(a, bi, b, ei) else a;
      if ei < |a.enemies| {
        StrikeProgress(a, bi, b, ei);
      }
      EnemyPassProgress(next, bi, b, ei + 1, m);
      ProgressTrans(a, next, EnemyPass(a, bi, b, ei, m));
    }
  }

  lemma {:induction false} BulletPassProgress(a: Arena, bi: nat, n: nat)
    requires ArenaOk(a)
    ensures ArenaOk(BulletPass(a, bi, n)) && Progress(a, BulletPass(a, bi, n))
    decreases n - bi
  {
    if bi < n {
      var next := if bi < |a.bullets| then EnemyPass(a, bi, a.bullets[bi], 0, |a.enemies|) else a;
      if bi < |a.bullets| {
        assert a.bullets[bi] in a.bullets;
        EnemyPassProgress(a, bi, a.bullets[bi], 0, |a.enemies|);
      }
      BulletPassProgress(next, bi + 1, n);
      ProgressTrans(a, next, BulletPass(a, bi, n));
    }
  }

  /** checkCollisions keeps the pools sound and makes progress: no bullet or
      enemy is added, each killed enemy's points reach the score exactly once
      and leave an explosion, and the high score never decreases. */
  lemma ResolveSound(a: Arena)
    requires ArenaOk(a)
    ensures var d := Resolve(a);
      ArenaOk(d) && Progress(a, d) &&
      |d.bullets| <= |a.bullets| && |d.enemies| <= |a.enemies| &&
      d.highScore >= a.highScore
  {
    BulletPassProgress(a, 0, |a.bullets|);
    var d := Resolve(a);
    assert |multiset(d.bullets)| <= |multiset(a.bullets)| by {
      MultisetSubsetSize(multiset(d.bullets), multiset(a.bullets));
    }
  }

  lemma {:induction false} MultisetSubsetSize<A>(x: multiset<A>, y: multiset<A>)
    requires x <= y
    ensures |x| <= |y|
    decreases |y|
  {
    if x != multiset{} {
      var z :| z in x;
      MultisetSubsetSize(x - multiset{z}, y - multiset{z});
    }
  }

  // ---------------------------------------------------------------------
  // Worked cases

  const Laser: Bullet := Bullet(10.0, 10.0, 4.0, 15.0, 8.0, 25, "#00ffff", 0.0, Single, false)
  const FarLaser: Bullet := Bullet(500.0, 10.0, 4.0, 15.0, 8.0, 25, "#00ffff", 0.0, Single, false)

  function Foe(x: real, health: int): Enemy
  {
    Enemy(x, 0.0, 30.0, 40.0, 2.0, health, health, "#ff4444", 10, Basic, 0.0, 1)
  }

  /** A basic enemy (health 50, 10 points) is hit by one laser (damage 25) per
      tick: the first hit leaves it at 25 and consumes the laser, the second
      kills it, adds its 10 points and lifts the high score to the new score. */
  lemma TwoHitsKill()
    ensures var a0 := Arena([Laser], [Foe(0.0, 50)], [], [], 0, 0, 0, 0);
      var a1 := Resolve(a0);
      a1.bullets == [] && a1.enemies == [Foe(0.0, 50).(health := 25)] && a1.score == 0 &&
      var a2 := Resolve(a1.(bullets := [Laser]));
      a2.bullets == [] && a2.enemies == [] && a2.score == 10 && a2.highScore == 10 &&
      |a2.explosions| == 1
  {
    var a0 := Arena([Laser], [Foe(0.0, 50)], [], [], 0, 0, 0, 0);
    assert Collides(Laser.Bounds(), Foe(0.0, 50).Bounds());
    var s1 := Strike(a0, 0, Laser, 0);
    assert s1.enemies == [Foe(0.0, 50).(health := 25)] && s1.bullets == [];
    assert EnemyPass(a0, 0, Laser, 0, 1) == EnemyPass(s1, 0, Laser, 1, 1);
    assert Resolve(a0) == BulletPass(s1, 1, 1);
    var a1 := s1.(bullets := [Laser]);
    var s2 := Strike(a1, 0, Laser, 0);
    assert s2.enemies == [] && s2.bullets == [] && s2.score == 10 && s2.highScore == 10;
    assert EnemyPass(a1, 0, Laser, 0, 1) == EnemyPass(s2, 0, Laser, 1, 1);
    assert Resolve(a1) == BulletPass(s2, 1, 1);
  }

  /** Two lasers over one sturdy enemy in the same tick: the first hits and is
      spliced out, the second slides into its index and never meets the enemy. */
  lemma SpliceSkipsNextBullet()
    ensures var d := Resolve(Arena([Laser, Laser], [Foe(0.0, 100)], [], [], 0, 0, 0, 0));
      d.bullets == [Laser] && d.enemies == [Foe(0.0, 100).(health := 75)]
  {
    var a := Arena([Laser, Laser], [Foe(0.0, 100)], [], [], 0, 0, 0, 0);
    assert Collides(Laser.Bounds(), Foe(0.0, 100).Bounds());
    var s := Strike(a, 0, Laser, 0);
    assert s.bullets == [Laser] && s.enemies == [Foe(0.0, 100).(health := 75)];
    assert EnemyPass(a, 0, Laser, 0, 1) == EnemyPass(s, 0, Laser, 1, 1);
    assert BulletPass(a, 0, 2) == BulletPass(s, 1, 2);
    assert BulletPass(s, 1, 2) == BulletPass(s, 2, 2);
  }

  /** One laser over two sturdy enemies, and a second laser far away: the
      first laser hits both enemies, and its second hit splices the far laser,
      which never touched anything. */
  lemma SecondHitRemovesAnotherBullet()
    ensures var d := Resolve(Arena([Laser, FarLaser], [Foe(0.0, 100), Foe(5.0, 100)], [], [], 0, 0, 0, 0));
      d.bullets == [] && d.enemies == [Foe(0.0, 100).(health := 75), Foe(5.0, 100).(health := 75)]
  {
    var a := Arena([Laser, FarLaser], [Foe(0.0, 100), Foe(5.0, 100)], [], [], 0, 0, 0, 0);
    assert Collides(Laser.Bounds(), Foe(0.0, 100).Bounds());
    assert Collides(Laser.Bounds(), Foe(5.0, 100).Bounds());
    var s1 := Strike(a, 0, Laser, 0);
    assert s1.bullets == [FarLaser];
    var s2 := Strike(s1, 0, Laser, 1);
    assert s2.bullets == [] && s2.enemies == [Foe(0.0, 100).(health := 75), Foe(5.0, 100).(health := 75)];
    assert EnemyPass(a, 0, Laser, 0, 2) == EnemyPass(s1, 0, Laser, 1, 2);
    assert EnemyPass(s1, 0, Laser, 1, 2) == EnemyPass(s2, 0, Laser, 2, 2);
    assert BulletPass(a, 0, 2) == BulletPass(s2, 1, 2);
    assert BulletPass(s2, 1, 2) == BulletPass(s2, 2, 2);
  }
}
