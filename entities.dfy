/** The simulated objects of the game as values, the constants that shape
    them, and the per-entity rules that do not depend on the rest of the game:
    geometry, clamping, ageing, the pierce counter, spawning and the
    end-of-tick filter. Positions and times are exact reals; the source's
    double-precision arithmetic is not modelled. */
module Entities {

  datatype Option<T> = None | Some(value: T)

  /** A value of Math.random(): a real in [0, 1). */
  type Unit = r: real | 0.0 <= r < 1.0

  /** A displacement or velocity; for a heading, the pair (cos a, sin a). */
  datatype Vec = Vec(x: real, y: real)

  const GAME_PADDING: real := 50.0

  const PLAYER_RADIUS: real := 15.0
  const PLAYER_SPEED_BASE: int := 100
  const PLAYER_FIRE_RATE_BASE: real := 0.2
  const PLAYER_PROJECTILE_DAMAGE_BASE: int := 10
  const PLAYER_MAX_HEALTH_BASE: int := 100
  const PROJECTILE_RADIUS: real := 5.0
  const CONTACT_DAMAGE: int := 10

  const ENEMY_SPAWN_INTERVAL_BASE: real := 3.0
  const MIN_SPAWN_INTERVAL: real := 0.5
  const SPAWN_DECAY: real := 0.99
  const ENEMY_SPEED_BASE: real := 50.0
  const ENEMY_HEALTH_BASE: real := 10.0
  const ENEMY_RADIUS_BASE: real := 12.0
  const ENEMY_XP_VALUE_BASE: nat := 20
  const ELITE_SPAWN_CHANCE: real := 0.1
  const ELITE_HEALTH_MULTIPLIER: real := 3.0
  const ELITE_XP_MULTIPLIER: nat := 5
  const ELITE_SPEED_MULTIPLIER: real := 1.2
  const ELITE_RADIUS_MULTIPLIER: real := 1.3

  const XP_GEM_RADIUS: real := 5.0
  const XP_GEM_LIFETIME: real := 10.0
  const XP_GEM_PULL_SPEED_BASE: real := 300.0

  const PARTICLE_LIFETIME_BASE: real := 0.5
  const PARTICLE_COUNT_ENEMY_DEATH: nat := 25
  const PARTICLE_COUNT_HIT: nat := 5
  const PARTICLE_COUNT_XP_SPARKLE: nat := 10
  const PARTICLE_COUNT_NOVA: nat := 100
  const LIGHTNING_PARTICLES: nat := 11

  const SHAKE_DURATION: real := 0.1
  const SHAKE_INTENSITY: real := 5.0
  const NOVA_SHAKE_DURATION: real := 0.3
  const NOVA_SHAKE_INTENSITY: real := 15.0

  const CHAIN_HOPS: nat := 2
  const CHAIN_RADIUS: real := 200.0
  const CHAIN_DAMAGE_FACTOR: real := 0.7
  const NOVA_DAMAGE_FACTOR: int := 10

  datatype Player = Player(
    x: real, y: real, radius: real,
    maxHealth: int, health: int,
    speed: int,
    fireRate: real, lastFireTime: real,
    projectileDamage: int, multiShot: nat,
    chainLightningChance: int, novaAvailable: bool, projectilePierce: nat,
    level: nat, xp: int, xpToNextLevel: int)

  datatype Enemy = Enemy(
    id: nat, x: real, y: real, radius: real,
    maxHealth: real, health: real, speed: real,
    xpValue: nat, isElite: bool, marked: bool)

  datatype Projectile = Projectile(
    x: real, y: real, radius: real, vx: real, vy: real,
    damage: int, fromPlayer: bool, pierce: int,
    hits: seq<nat>, marked: bool)

  datatype Gem = Gem(
    x: real, y: real, radius: real, value: nat, isElite: bool,
    lifetime: real, elapsed: real, marked: bool)

  datatype Particle = Particle(x: real, y: real, lifetime: real, elapsed: real, marked: bool)

  datatype Shake = Shake(active: bool, duration: real, intensity: real, elapsed: real)

  /** The four Math.random() draws of one spawn, in the order the source
      makes them: edge, size, position along the edge, elite roll. */
  datatype SpawnRolls = SpawnRolls(side: Unit, size: Unit, along: Unit, elite: Unit)

  /** `Math.hypot(x1 - x2, y1 - y2) < reach`, decided on squares: the
      distance is never negative, so no reach <= 0 is ever met. */
  predicate Within(x1: real, y1: real, x2: real, y2: real, reach: real)
  {
    0.0 < reach && (x1 - x2) * (x1 - x2) + (y1 - y2) * (y1 - y2) < reach * reach
  }

  /** `Math.hypot(x1 - x2, y1 - y2) > d`, for d >= 0. */
  predicate Farther(x1: real, y1: real, x2: real, y2: real, d: real)
  {
    (x1 - x2) * (x1 - x2) + (y1 - y2) * (y1 - y2) > d * d
  }

  function Max(a: real, b: real): real { if a >= b then a else b }

  function Min(a: real, b: real): real { if a <= b then a else b }

  /** `Math.max(lo, Math.min(hi, v))`. */
  function Clamp(v: real, lo: real, hi: real): (r: real)
    ensures lo <= hi ==> lo <= r <= hi
    ensures lo <= v <= hi ==> r == v
    ensures hi < lo ==> r == lo
  {
    Max(lo, Min(hi, v))
  }

  /** The player's radius and health bounds that every reachable state keeps. */
  ghost predicate PlayerOk(p: Player)
  {
    p.radius == PLAYER_RADIUS &&
    0 < p.health <= p.maxHealth &&
    p.fireRate > 0.0 && p.lastFireTime >= 0.0 &&
    p.projectileDamage >= PLAYER_PROJECTILE_DAMAGE_BASE &&
    p.multiShot >= 1 && p.chainLightningChance >= 0 &&
    p.level >= 1 && p.xpToNextLevel >= 100 && 0 <= p.xp < p.xpToNextLevel
  }

  /** The player as `new Player(x, y)` builds it. */
  function NewPlayer(x: real, y: real): (p: Player)
    ensures PlayerOk(p)
    ensures p.level == 1 && p.xp == 0 && p.health == p.maxHealth
  {
    Player(x, y, PLAYER_RADIUS,
           PLAYER_MAX_HEALTH_BASE, PLAYER_MAX_HEALTH_BASE,
           PLAYER_SPEED_BASE, PLAYER_FIRE_RATE_BASE, 0.0,
           PLAYER_PROJECTILE_DAMAGE_BASE, 1, 0, false, 0,
           1, 0, 100)
  }

  /** The player's square of free positions on a `width` x `height` canvas. */
  function Clamped(p: Player, width: real, height: real): (q: Player)
    ensures 2.0 * p.radius <= width ==> p.radius <= q.x <= width - p.radius
    ensures 2.0 * p.radius <= height ==> p.radius <= q.y <= height - p.radius
    ensures p.radius <= p.x <= width - p.radius && p.radius <= p.y <= height - p.radius ==> q == p
    ensures q == p.(x := q.x, y := q.y)
  {
    p.(x := Clamp(p.x, p.radius, width - p.radius),
       y := Clamp(p.y, p.radius, height - p.radius))
  }

  /** The movement part of `Player.update`: with the pointer at (mx, my)
      more than 1 away, a step of `speed * dt` along the bearing `h` to it,
      then the clamp into the canvas; otherwise no movement. */
  function Steered(p: Player, mx: real, my: real, h: Vec, dt: real, width: real, height: real): (q: Player)
    ensures q == p.(x := q.x, y := q.y)
    ensures !Farther(mx, my, p.x, p.y, 1.0) ==> q == p
    ensures Farther(mx, my, p.x, p.y, 1.0) && 2.0 * p.radius <= width ==> p.radius <= q.x <= width - p.radius
    ensures Farther(mx, my, p.x, p.y, 1.0) && 2.0 * p.radius <= height ==> p.radius <= q.y <= height - p.radius
  {
    if Farther(mx, my, p.x, p.y, 1.0) then
      var d := (p.speed as real) * dt;
      Clamped(p.(x := p.x + h.x * d, y := p.y + h.y * d), width, height)
    else p
  }

  /** One shot of `fire`: at the player, carrying its damage and pierce. */
  function Shot(p: Player, v: Vec): Projectile
  {
    Projectile(p.x, p.y, PROJECTILE_RADIUS, v.x, v.y,
               p.projectileDamage, true, p.projectilePierce, [], false)
  }

  /** The first `n` shots of one volley, shot `i` flying with velocity `aim(i)`. */
  function Volley(p: Player, aim: nat -> Vec, n: nat): (r: seq<Projectile>)
    ensures |r| == n
    ensures forall i :: 0 <= i < n ==> r[i] == Shot(p, aim(i))
  {
    if n == 0 then [] else Volley(p, aim, n - 1) + [Shot(p, aim(n - 1))]
  }

  /** `count` fresh particles at (x, y) with the given lifetime. */
  function Burst(x: real, y: real, count: nat, lifetime: real): (r: seq<Particle>)
    ensures |r| == count
    ensures forall k :: 0 <= k < count ==> r[k] == Particle(x, y, lifetime, 0.0, false)
  {
    seq(count, _ => Particle(x, y, lifetime, 0.0, false))
  }

  /** The gem an enemy drops when it dies by damage. */
  function GemOf(e: Enemy): (g: Gem)
    ensures g.value == e.xpValue && g.isElite == e.isElite && !g.marked
    ensures g.x == e.x && g.y == e.y && g.elapsed == 0.0 && g.lifetime == XP_GEM_LIFETIME
    ensures g.radius == if e.isElite then 2.0 * XP_GEM_RADIUS else XP_GEM_RADIUS
  {
    Gem(e.x, e.y, XP_GEM_RADIUS + (if e.isElite then 5.0 else 0.0),
        e.xpValue, e.isElite, XP_GEM_LIFETIME, 0.0, false)
  }

  /** `Enemy.takeDamage` on the record: health falls, and the enemy is
      marked once it is at or below zero. */
  function Damaged(e: Enemy, amount: real): (r: Enemy)
    ensures r.health == e.health - amount && (r.marked <==> e.marked || r.health <= 0.0)
    ensures r == e.(health := r.health, marked := r.marked)
  {
    var h := e.health - amount;
    e.(health := h, marked := e.marked || h <= 0.0)
  }

  /** `Projectile.update`: fly, and be marked once outside the canvas by
      more than its own radius. */
  function Flown(p: Projectile, dt: real, width: real, height: real): (q: Projectile)
    ensures q.marked <==> p.marked || q.x < -p.radius || q.x > width + p.radius ||
                          q.y < -p.radius || q.y > height + p.radius
    ensures q == p.(x := q.x, y := q.y, marked := q.marked)
  {
    var x := p.x + p.vx * dt;
    var y := p.y + p.vy * dt;
    p.(x := x, y := y,
       marked := if x < -p.radius || x > width + p.radius || y < -p.radius || y > height + p.radius
                 then true else p.marked)
  }

  /** The lifetime part of `XPGem.update`: age, and expire at the lifetime. */
  function GemAged(g: Gem, dt: real): (r: Gem)
    ensures r.elapsed == g.elapsed + dt
    ensures r.marked <==> g.marked || r.elapsed >= g.lifetime
    ensures r == g.(elapsed := r.elapsed, marked := r.marked)
  {
    var t := g.elapsed + dt;
    if t >= g.lifetime then g.(elapsed := t, marked := true) else g.(elapsed := t)
  }

  /** The lifetime part of `Particle.update`. It is the gem's rule on a
      record of its own: the source ages particles in a method of their own
      that also moves and fades them, and a gem's expiry instead cuts its
      update short before it moves. */
  function ParticleAged(p: Particle, dt: real): (r: Particle)
    ensures r.elapsed == p.elapsed + dt
    ensures r.marked <==> p.marked || r.elapsed >= p.lifetime
    ensures r == p.(elapsed := r.elapsed, marked := r.marked)
  {
    var t := p.elapsed + dt;
    if t >= p.lifetime then p.(elapsed := t, marked := true) else p.(elapsed := t)
  }

  /** `Enemy.update`: with the player at (px, py) more than 1 away, a step
      of `speed * dt` along the bearing `h` to it; nothing but the position
      changes. */
  function Marched(e: Enemy, px: real, py: real, h: Vec, dt: real): (r: Enemy)
    ensures r == e.(x := r.x, y := r.y)
    ensures !Farther(px, py, e.x, e.y, 1.0) ==> r == e
  {
    if Farther(px, py, e.x, e.y, 1.0) then
      e.(x := e.x + h.x * e.speed * dt, y := e.y + h.y * e.speed * dt)
    else e
  }

  /** `XPGem.update`: age; at the lifetime it is marked and does not move;
      otherwise, within `reach` of the player at (px, py), a step of
      `pull * dt` along the bearing `h` to the player. */
  function GemUpdated(g: Gem, px: real, py: real, reach: real, pull: real, h: Vec, dt: real): (r: Gem)
    ensures r == g.(x := r.x, y := r.y, elapsed := r.elapsed, marked := r.marked)
    ensures r.elapsed == g.elapsed + dt
    ensures r.marked <==> g.marked || r.elapsed >= g.lifetime
    ensures r.elapsed >= g.lifetime || !Within(px, py, g.x, g.y, reach) ==> r.x == g.x && r.y == g.y
  {
    var a := GemAged(g, dt);
    if a.elapsed >= a.lifetime || !Within(px, py, g.x, g.y, reach) then a
    else a.(x := g.x + h.x * pull * dt, y := g.y + h.y * pull * dt)
  }

  /** The screen-shake timer of one `Game.update`. */
  function ShakeTick(s: Shake, dt: real): (r: Shake)
    ensures !s.active ==> r == s
    ensures s.active && s.elapsed + dt >= s.duration ==> !r.active && r.elapsed == 0.0
    ensures s.active && s.elapsed + dt < s.duration ==> r.active && r.elapsed == s.elapsed + dt
    ensures r.duration == s.duration && r.intensity == s.intensity
  {
    if !s.active then s
    else if s.elapsed + dt >= s.duration then s.(active := false, elapsed := 0.0)
    else s.(elapsed := s.elapsed + dt)
  }

  // ---------------------------------------------------------------------
  // The pierce counter

  /** One hit by a projectile on the enemy `id`: it is remembered, and the
      projectile is marked when no pierce is left, otherwise it loses one. */
  function AfterHit(p: Projectile, id: nat): Projectile
  {
    if p.pierce <= 0 then p.(hits := p.hits + [id], marked := true)
    else p.(hits := p.hits + [id], pierce := p.pierce - 1)
  }

  /** The hits `ids`, in order. */
  function AfterHits(p: Projectile, ids: seq<nat>): Projectile
  {
    if ids == [] then p else AfterHit(AfterHits(p, ids[..|ids| - 1]), ids[|ids| - 1])
  }

  /** A first hit followed by `ids` is the hits `[id] + ids`. */
  lemma {:induction false} AfterHitsCons(p: Projectile, id: nat, ids: seq<nat>)
    ensures AfterHits(AfterHit(p, id), ids) == AfterHits(p, [id] + ids)
  {
    if ids != [] {
      var init := ids[..|ids| - 1];
      AfterHitsCons(p, id, init);
      assert ([id] + ids)[..|ids|] == [id] + init;
    }
  }

  function Max0(n: int): int { if n < 0 then 0 else n }

  /** Starting from pierce `p >= 0`, `k` hits leave pierce `max(0, p - k)`,
      and mark the projectile exactly when `k > p`; nothing but the hit
      list, the pierce and the mark changes. */
  lemma {:induction false} PierceAccounting(p: Projectile, ids: seq<nat>)
    requires p.pierce >= 0
    ensures AfterHits(p, ids).hits == p.hits + ids
    ensures AfterHits(p, ids).pierce == Max0(p.pierce - |ids|)
    ensures AfterHits(p, ids).marked <==> p.marked || |ids| > p.pierce
    ensures AfterHits(p, ids) == p.(hits := p.hits + ids,
                                    pierce := AfterHits(p, ids).pierce,
                                    marked := AfterHits(p, ids).marked)
  {
    if ids != [] {
      var init := ids[..|ids| - 1];
      PierceAccounting(p, init);
      assert init + [ids[|ids| - 1]] == ids;
    }
  }

  // ---------------------------------------------------------------------
  // The spawner

  /** `Math.max(0.5, interval * 0.99)`. */
  function Decay(interval: real): (r: real)
    ensures r >= MIN_SPAWN_INTERVAL
    ensures interval >= MIN_SPAWN_INTERVAL ==> r <= interval
    ensures interval <= ENEMY_SPAWN_INTERVAL_BASE ==> r <= ENEMY_SPAWN_INTERVAL_BASE
    ensures r == Max(MIN_SPAWN_INTERVAL, interval * 0.99)
  {
    if interval * 0.99 > 0.5 then interval * 0.99 else 0.5
  }

  /** `interval * 0.99^n`, the decay without the floor. */
  function Geometric(interval: real, n: nat): real
  {
    if n == 0 then interval else Geometric(interval, n - 1) * 0.99
  }

  /** The interval after `n` consecutive spawns. */
  function DecayTimes(interval: real, n: nat): real
  {
    if n == 0 then interval else Decay(DecayTimes(interval, n - 1))
  }

  /** `n` spawns from an interval of at least 0.5 leave
      `max(0.5, interval * 0.99^n)`: the decay and the floor both apply. */
  lemma {:induction false} DecayClosedForm(interval: real, n: nat)
    requires interval >= MIN_SPAWN_INTERVAL
    ensures DecayTimes(interval, n) == Max(MIN_SPAWN_INTERVAL, Geometric(interval, n))
  {
    if n > 0 {
      DecayClosedForm(interval, n - 1);
    }
  }

  /** From the base of 3 s, ten spawns leave 3 * 0.99^10 (about 2.713 s),
      above the floor. */
  lemma TenSpawns()
    ensures DecayTimes(ENEMY_SPAWN_INTERVAL_BASE, 10) == 2.71314622502641347003
  {
    DecayClosedForm(ENEMY_SPAWN_INTERVAL_BASE, 10);
    assert Geometric(3.0, 1) == 2.97;
    assert Geometric(3.0, 2) == 2.9403;
    assert Geometric(3.0, 3) == 2.910897;
    assert Geometric(3.0, 4) == 2.88178803;
    assert Geometric(3.0, 5) == 2.8529701497;
    assert Geometric(3.0, 6) == 2.824440448203;
    assert Geometric(3.0, 7) == 2.79619604372097;
    assert Geometric(3.0, 8) == 2.7682340832837603;
    assert Geometric(3.0, 9) == 2.740551742450922697;
    assert Geometric(3.0, 10) == 2.71314622502641347003;
  }

  /** The side of the canvas `Math.floor(Math.random() * 4)` picks. */
  function Side(u: Unit): (s: int)
    ensures 0 <= s < 4
  {
    (u * 4.0).Floor
  }

  /** The enemy `spawnEnemy` builds from its four draws, for a player at
      `level` on a `width` x `height` canvas. */
  function Spawned(id: nat, level: nat, width: real, height: real, r: SpawnRolls): (e: Enemy)
    requires width >= 0.0 && height >= 0.0
    ensures e.id == id && !e.marked && e.health == e.maxHealth
    ensures e.isElite <==> r.elite < ELITE_SPAWN_CHANCE
    ensures e.health == ENEMY_HEALTH_BASE * (level as real) * (if e.isElite then ELITE_HEALTH_MULTIPLIER else 1.0)
    ensures e.xpValue == if e.isElite then ENEMY_XP_VALUE_BASE * ELITE_XP_MULTIPLIER else ENEMY_XP_VALUE_BASE
    ensures e.speed == if e.isElite then ENEMY_SPEED_BASE * ELITE_SPEED_MULTIPLIER else ENEMY_SPEED_BASE
    ensures e.radius > 0.0
    // the whole circle starts outside the canvas
    ensures e.y + e.radius < 0.0 || e.x - e.radius > width || e.y - e.radius > height || e.x + e.radius < 0.0
  {
    var radius := ENEMY_RADIUS_BASE * (1.0 + r.size * 0.5);
    var padding := GAME_PADDING + radius;
    var side := Side(r.side);
    var x := if side == 0 || side == 2 then r.along * width
             else if side == 1 then width + padding else -padding;
    var y := if side == 1 || side == 3 then r.along * height
             else if side == 0 then -padding else height + padding;
    if r.elite < ELITE_SPAWN_CHANCE then
      Enemy(id, x, y, radius * ELITE_RADIUS_MULTIPLIER,
            ENEMY_HEALTH_BASE * ELITE_HEALTH_MULTIPLIER * (level as real),
            ENEMY_HEALTH_BASE * ELITE_HEALTH_MULTIPLIER * (level as real),
            ENEMY_SPEED_BASE * ELITE_SPEED_MULTIPLIER,
            ENEMY_XP_VALUE_BASE * ELITE_XP_MULTIPLIER, true, false)
    else
      Enemy(id, x, y, radius,
            ENEMY_HEALTH_BASE * (level as real), ENEMY_HEALTH_BASE * (level as real),
            ENEMY_SPEED_BASE, ENEMY_XP_VALUE_BASE, false, false)
  }

  // ---------------------------------------------------------------------
  // The end-of-tick filter

  /** `s.filter(live)`. */
  function Keep<T>(s: seq<T>, live: T -> bool): (r: seq<T>)
    ensures |r| <= |s|
    ensures forall x :: x in r ==> x in s && live(x)
  {
    if s == [] then []
    else if live(s[0]) then [s[0]] + Keep(s[1..], live)
    else Keep(s[1..], live)
  }

  /** Nothing live is dropped. */
  lemma {:induction false} KeepComplete<T>(s: seq<T>, live: T -> bool, x: T)
    requires x in s && live(x)
    ensures x in Keep(s, live)
  {
    if s[0] != x {
      KeepComplete(s[1..], live, x);
    }
  }

  /** The filter goes piece by piece, so it keeps the order of what it keeps. */
  lemma {:induction false} KeepAppend<T>(a: seq<T>, b: seq<T>, live: T -> bool)
    ensures Keep(a + b, live) == Keep(a, live) + Keep(b, live)
  {
    if a == [] {
      assert a + b == b;
    } else {
      assert (a + b)[0] == a[0];
      assert (a + b)[1..] == a[1..] + b;
      KeepAppend(a[1..], b, live);
    }
  }

  /** A collection with nothing to remove is left as it is. */
  lemma {:induction false} KeepAllLive<T>(s: seq<T>, live: T -> bool)
    requires forall k :: 0 <= k < |s| ==> live(s[k])
    ensures Keep(s, live) == s
  {
    if s != [] {
      KeepAllLive(s[1..], live);
    }
  }

  predicate LiveEnemy(e: Enemy) { !e.marked }
  predicate LiveProjectile(p: Projectile) { !p.marked }
  predicate LiveGem(g: Gem) { !g.marked }
  predicate LiveParticle(p: Particle) { !p.marked }

  /** Enemy identities are distinct: `enemiesHit.includes` compares identity. */
  predicate DistinctIds(es: seq<Enemy>)
  {
    forall i, j :: 0 <= i < j < |es| ==> es[i].id != es[j].id
  }

  /** The filter keeps enemy identities distinct. */
  lemma {:induction false} KeepDistinctIds(es: seq<Enemy>)
    requires DistinctIds(es)
    ensures DistinctIds(Keep(es, LiveEnemy))
  {
    if es != [] {
      KeepDistinctIds(es[1..]);
      var rest := Keep(es[1..], LiveEnemy);
      if LiveEnemy(es[0]) {
        forall j | 0 <= j < |rest| ensures rest[j].id != es[0].id {
          assert rest[j] in es[1..];
        }
      }
    }
  }
}
