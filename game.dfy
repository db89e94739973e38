/** The orchestrator of src/main.js: the `Game` object with its player,
    its four entity collections and its spawn timer, together with the
    module-level state the source keeps beside it (`gamePaused`,
    `screenShake`, `XP_GEM_PULL_SPEED`, the canvas size and the cards on
    show). Every Math.random() the source draws arrives as a value of a
    `Tick` or as a parameter. */
module Simulation {
  import opened Entities
  import opened Progression
  import opened Combat

  /** What one animation frame receives from outside the core. */
  datatype Tick = Tick(
    dt: real,                           // seconds since the previous frame
    mouseX: real, mouseY: real,         // the pointer
    heading: Vec,                       // (cos, sin) of the player's bearing to the pointer
    aim: nat -> Vec,                    // velocity of shot i of a volley
    spawn: SpawnRolls,                  // the draws of spawnEnemy
    enemyHeading: nat -> Vec,           // (cos, sin) of enemy k's bearing to the player
    gemHeading: nat -> Vec,             // (cos, sin) of gem k's bearing to the player
    chainRoll: nat -> nat -> Unit,      // chain-lightning roll when projectile i hits enemy j
    chainPick: nat -> nat -> nat -> Unit, // the draw of hop h of that chain
    shuffle: nat -> Shuffle)            // the catalog shuffle shown on reaching level L

  predicate Touching(p: Player, e: Enemy)
  {
    Within(p.x, p.y, e.x, e.y, p.radius + e.radius)
  }

  predicate GemTouching(p: Player, g: Gem)
  {
    Within(p.x, p.y, g.x, g.y, p.radius + g.radius)
  }

  ghost predicate EnemiesOk(es: seq<Enemy>, next: nat)
  {
    DistinctIds(es) && DeadMarked(es) &&
    forall k :: 0 <= k < |es| ==> es[k].id < next && es[k].radius > 0.0
  }

  ghost predicate ProjectilesOk(ps: seq<Projectile>)
  {
    forall k :: 0 <= k < |ps| ==> ShotOk(ps[k])
  }

  /** The end-of-update filter keeps the enemy bounds. */
  lemma KeepEnemiesOk(es: seq<Enemy>, next: nat)
    requires EnemiesOk(es, next)
    ensures EnemiesOk(Keep(es, LiveEnemy), next)
  {
    KeepDistinctIds(es);
    var r := Keep(es, LiveEnemy);
    forall k | 0 <= k < |r|
      ensures r[k].id < next && r[k].radius > 0.0 && (r[k].health <= 0.0 ==> r[k].marked)
    {
      assert r[k] in es;
    }
  }

  /** The end-of-update filter keeps every projectile sound. */
  lemma KeepProjectilesOk(ps: seq<Projectile>)
    requires ProjectilesOk(ps)
    ensures ProjectilesOk(Keep(ps, LiveProjectile))
  {
    var r := Keep(ps, LiveProjectile);
    forall k | 0 <= k < |r| ensures ShotOk(r[k]) {
      assert r[k] in ps;
    }
  }

  // ---------------------------------------------------------------------
  // Counting functions that the collision loops are specified by

  /** How many of the first `k` enemies the contact loop finds live and
      touching `p`. */
  function Contacts(es: seq<Enemy>, k: nat, p: Player): nat
    requires k <= |es|
  {
    if k == 0 then 0
    else Contacts(es, k - 1, p) + (if !es[k - 1].marked && Touching(p, es[k - 1]) then 1 else 0)
  }

  /** Later enemies only add contacts. */
  lemma {:induction false} ContactsGrow(es: seq<Enemy>, k: nat, p: Player)
    requires k <= |es|
    ensures Contacts(es, k, p) <= Contacts(es, |es|, p)
    decreases |es| - k
  {
    if k < |es| {
      ContactsGrow(es, k + 1, p);
    }
  }

  /** The enemies after the contact loop: each live one touching `p` is marked. */
  function ContactMarked(es: seq<Enemy>, p: Player): (r: seq<Enemy>)
    ensures |r| == |es|
    ensures forall k :: 0 <= k < |es| ==>
      r[k] == if !es[k].marked && Touching(p, es[k]) then es[k].(marked := true) else es[k]
  {
    seq(|es|, k requires 0 <= k < |es| =>
      if !es[k].marked && Touching(p, es[k]) then es[k].(marked := true) else es[k])
  }

  /** The XP the gem loop hands to `p` from the first `k` gems: the values
      of the live ones touching it. */
  function Gathered(gs: seq<Gem>, k: nat, p: Player): nat
    requires k <= |gs|
  {
    if k == 0 then 0
    else Gathered(gs, k - 1, p) + (if !gs[k - 1].marked && GemTouching(p, gs[k - 1]) then gs[k - 1].value else 0)
  }

  /** How many of the first `k` gems the gem loop gathers. */
  function Pickups(gs: seq<Gem>, k: nat, p: Player): nat
    requires k <= |gs|
  {
    if k == 0 then 0
    else Pickups(gs, k - 1, p) + (if !gs[k - 1].marked && GemTouching(p, gs[k - 1]) then 1 else 0)
  }

  /** The gems after the gem loop: each live one touching `p` is marked. */
  function GemsPicked(gs: seq<Gem>, p: Player): (r: seq<Gem>)
    ensures |r| == |gs|
    ensures forall k :: 0 <= k < |gs| ==>
      r[k] == if !gs[k].marked && GemTouching(p, gs[k]) then gs[k].(marked := true) else gs[k]
  {
    seq(|gs|, k requires 0 <= k < |gs| =>
      if !gs[k].marked && GemTouching(p, gs[k]) then gs[k].(marked := true) else gs[k])
  }

  /** What the gem loop reads and writes: the player's XP, requirement
      and level, the pause flag, the cards on show, the gems and the
      particles. */
  datatype GemLoop = GemLoop(xp: int, threshold: int, level: nat, paused: bool, offer: seq<Upgrade>,
                           gems: seq<Gem>, particles: seq<Particle>)

  /** One turn of the gem loop on gem `k`, for a player standing where `p`
      does: a live gem touching it hands it its value through `gainXP`, is
      marked, and leaves a sparkle. */
  function Collected(s: GemLoop, k: nat, p: Player, shuffle: nat -> Shuffle): (r: GemLoop)
    requires k < |s.gems| && s.threshold >= 1
  {
    var g := s.gems[k];
    if g.marked || !GemTouching(p, g) then s
    else
      Gain(s, g.value, shuffle).(gems := s.gems[k := g.(marked := true)],
                                 particles := s.particles + Burst(g.x, g.y, PARTICLE_COUNT_XP_SPARKLE, 0.3))
  }

  /** `gainXP(v)` on the player part of a gem-loop state: the requirement, XP and
      level `Settle` leaves, the game paused and new cards on show when a
      level was gained. */
  function Gain(s: GemLoop, v: int, shuffle: nat -> Shuffle): GemLoop
    requires s.threshold >= 1
  {
    GainWith(s, Settle(s.xp + v, s.threshold), shuffle)
  }

  /** The player part of a gem-loop state after a levelling loop whose outcome is `r`. */
  function GainWith(s: GemLoop, r: Progress, shuffle: nat -> Shuffle): GemLoop
  {
    s.(xp := r.xp, threshold := r.threshold, level := s.level + r.levels, paused := s.paused || r.levels > 0,
       offer := if r.levels > 0 then Offer(shuffle(s.level + r.levels)) else s.offer)
  }

  /** The player part of a gem-loop state as one `gainXP` of `xp` from the player
      `p` leaves it, the pause flag having been `paused` and the cards
      `cards`. */
  predicate Gained(s: GemLoop, p: Player, xp: int, paused: bool, cards: seq<Upgrade>, shuffle: nat -> Shuffle)
    requires p.xpToNextLevel >= 1
  {
    GainedBy(s, p, Settle(xp, p.xpToNextLevel), paused, cards, shuffle)
  }

  /** The player part of a gem-loop state as a levelling loop with outcome `r`
      leaves the player `p`. */
  predicate GainedBy(s: GemLoop, p: Player, r: Progress, paused: bool, cards: seq<Upgrade>, shuffle: nat -> Shuffle)
  {
    s.xp == r.xp && s.threshold == r.threshold && s.level == p.level + r.levels &&
    s.paused == (paused || r.levels > 0) &&
    s.offer == (if r.levels > 0 then Offer(shuffle(p.level + r.levels)) else cards)
  }

  /** A second levelling loop that continues where the first stopped adds
      its level-ups to the first's, keeps the game paused once it was, and
      leaves the cards of the last level reached. */
  lemma GainedCompose(u: GemLoop, p: Player, first: Progress, second: Progress, once: Progress,
                      paused: bool, cards: seq<Upgrade>, shuffle: nat -> Shuffle)
    requires GainedBy(u, p, first, paused, cards, shuffle)
    requires second.xp == once.xp && second.threshold == once.threshold && first.levels + second.levels == once.levels
    ensures GainedBy(GainWith(u, second, shuffle), p, once, paused, cards, shuffle)
  {
    assert u.level + second.levels == p.level + once.levels;
    if second.levels == 0 {
      assert first.levels == once.levels;
    }
  }

  /** A turn of the gem loop that gathers its gem adds the gem's value to
      the one `gainXP` the turns before it amount to, `y` being the sum. */
  lemma CollectedGains(u: GemLoop, j: nat, p: Player, shuffle: nat -> Shuffle, xp: int, y: int,
                       paused: bool, cards: seq<Upgrade>)
    requires j < |u.gems| && p.xpToNextLevel >= 1 && Gained(u, p, xp, paused, cards, shuffle)
    requires !u.gems[j].marked && GemTouching(p, u.gems[j]) && y == xp + u.gems[j].value
    ensures Gained(Collected(u, j, p, shuffle), p, y, paused, cards, shuffle)
  {
    var g := u.gems[j];
    GainedGain(u, p, xp, paused, cards, shuffle, g.value, y);
    var c := Collected(u, j, p, shuffle);
    assert c == Gain(u, g.value, shuffle).(gems := c.gems, particles := c.particles);
  }

  /** Two `gainXP` calls in a row amount to one of their sum `y`. */
  lemma GainedGain(u: GemLoop, p: Player, xp: int, paused: bool, cards: seq<Upgrade>, shuffle: nat -> Shuffle,
                   v: int, y: int)
    requires p.xpToNextLevel >= 1 && Gained(u, p, xp, paused, cards, shuffle) && v >= 0 && y == xp + v
    ensures u.threshold >= 1 && Gained(Gain(u, v, shuffle), p, y, paused, cards, shuffle)
  {
    GainTwiceAt(xp, p.xpToNextLevel, v, y, u.xp, u.threshold);
    GainedCompose(u, p, Settle(xp, p.xpToNextLevel), Settle(u.xp + v, u.threshold), Settle(y, p.xpToNextLevel),
                  paused, cards, shuffle);
  }

  /** The gems and particles of the gem loop begun on `s0` for the player
      `p`, after its first `k` turns: the gems so far are marked exactly
      when gathered and the rest are untouched, and one sparkle was
      appended per gathered gem. */
  predicate Picked(gems: seq<Gem>, particles: seq<Particle>, s0: GemLoop, p: Player, k: nat)
    requires k <= |s0.gems|
  {
    |gems| == |s0.gems| &&
    (forall i :: 0 <= i < k ==> gems[i] == GemsPicked(s0.gems, p)[i]) &&
    (forall i :: k <= i < |s0.gems| ==> gems[i] == s0.gems[i]) &&
    s0.particles <= particles &&
    |particles| == |s0.particles| + PARTICLE_COUNT_XP_SPARKLE * Pickups(s0.gems, k, p)
  }

  /** The gem loop after its first `k` turns: the player is where one
      `gainXP` of everything gathered so far leaves it, and `Picked`. */
  predicate GemLoopInv(u: GemLoop, s0: GemLoop, p: Player, k: nat, shuffle: nat -> Shuffle)
    requires k <= |s0.gems|
  {
    p.xpToNextLevel >= 1 &&
    Gained(u, p, p.xp + Gathered(s0.gems, k, p), s0.paused, s0.offer, shuffle) &&
    Picked(u.gems, u.particles, s0, p, k)
  }

  /** Nothing is collected before the first turn. */
  lemma GemLoopStart(s0: GemLoop, p: Player, shuffle: nat -> Shuffle)
    requires p.xpToNextLevel >= 1 && 0 <= p.xp < p.xpToNextLevel
    requires s0.xp == p.xp && s0.threshold == p.xpToNextLevel && s0.level == p.level
    ensures GemLoopInv(s0, s0, p, 0, shuffle)
  {
    assert Settle(p.xp, p.xpToNextLevel) == Progress(p.xp, p.xpToNextLevel, 0);
  }

  /** A turn carries the gems and particles of `Picked` one gem further. */
  lemma PickedStep(u: GemLoop, s0: GemLoop, p: Player, k: nat, shuffle: nat -> Shuffle)
    requires k < |s0.gems| && u.threshold >= 1 && Picked(u.gems, u.particles, s0, p, k)
    ensures var c := Collected(u, k, p, shuffle);
            Picked(c.gems, c.particles, s0, p, k + 1)
  {
    assert u.gems[k] == s0.gems[k];
  }

  /** A turn carries the player part of `GemLoopInv` one gem further. */
  lemma GainedStep(u: GemLoop, s0: GemLoop, p: Player, k: nat, shuffle: nat -> Shuffle)
    requires k < |s0.gems| && k < |u.gems| && u.gems[k] == s0.gems[k] && p.xpToNextLevel >= 1
    requires Gained(u, p, p.xp + Gathered(s0.gems, k, p), s0.paused, s0.offer, shuffle)
    ensures u.threshold >= 1
    ensures Gained(Collected(u, k, p, shuffle), p, p.xp + Gathered(s0.gems, k + 1, p), s0.paused, s0.offer, shuffle)
  {
    var g := s0.gems[k];
    var xp := p.xp + Gathered(s0.gems, k, p);
    assert Settle(xp, p.xpToNextLevel).threshold >= p.xpToNextLevel;
    if !g.marked && GemTouching(p, g) {
      CollectedGains(u, k, p, shuffle, xp, p.xp + Gathered(s0.gems, k + 1, p), s0.paused, s0.offer);
    } else {
      assert Gathered(s0.gems, k + 1, p) == Gathered(s0.gems, k, p);
    }
  }

  /** Each turn of the gem loop carries `GemLoopInv` one gem further. */
  lemma GemLoopStep(u: GemLoop, s0: GemLoop, p: Player, k: nat, shuffle: nat -> Shuffle)
    requires k < |s0.gems| && GemLoopInv(u, s0, p, k, shuffle)
    ensures u.threshold >= 1 && GemLoopInv(Collected(u, k, p, shuffle), s0, p, k + 1, shuffle)
  {
    assert u.gems[k] == s0.gems[k];
    GainedStep(u, s0, p, k, shuffle);
    PickedStep(u, s0, p, k, shuffle);
  }

  /** After the last turn the gem loop has marked exactly the gathered
      gems. */
  lemma GemLoopEnd(u: GemLoop, s0: GemLoop, p: Player, shuffle: nat -> Shuffle)
    requires GemLoopInv(u, s0, p, |s0.gems|, shuffle)
    ensures var r := Settle(p.xp + Gathered(s0.gems, |s0.gems|, p), p.xpToNextLevel);
            u.xp == r.xp && u.threshold == r.threshold && u.level == p.level + r.levels &&
            u.paused == (s0.paused || r.levels > 0) &&
            u.offer == (if r.levels > 0 then Offer(shuffle(p.level + r.levels)) else s0.offer)
    ensures u.gems == GemsPicked(s0.gems, p)
    ensures s0.particles <= u.particles &&
            |u.particles| == |s0.particles| + PARTICLE_COUNT_XP_SPARKLE * Pickups(s0.gems, |s0.gems|, p)
  {
  }

  /** What the contact loop reads and writes: the player's health, the
      enemies, the particles and the shake. */
  datatype ContactLoop = ContactLoop(health: int, enemies: seq<Enemy>, particles: seq<Particle>, shake: Shake)

  /** One turn of the contact loop on enemy `k`, for a player standing where
      `p` does and surviving it: a live enemy touching it costs the player
      10 health and a flash of hit particles, and dies with no gem. */
  function Contacted(b: ContactLoop, k: nat, p: Player): ContactLoop
    requires k < |b.enemies|
  {
    var e := b.enemies[k];
    if e.marked || !Touching(p, e) then b
    else ContactLoop(b.health - CONTACT_DAMAGE, b.enemies[k := e.(marked := true)],
              b.particles + Burst(p.x, p.y, PARTICLE_COUNT_HIT, 0.1) +
              Burst(e.x, e.y, PARTICLE_COUNT_ENEMY_DEATH, PARTICLE_LIFETIME_BASE),
              ARMED)
  }

  /** The contact loop begun on `b0` for the player `p`, after its first `k`
      turns without a reset: each contact so far cost 10 health and 5 + 25
      particles and armed the shake, the enemies so far are marked exactly
      when touched, and the rest are untouched. */
  predicate ContactLoopInv(b: ContactLoop, b0: ContactLoop, p: Player, k: nat)
    requires k <= |b0.enemies|
  {
    var n := Contacts(b0.enemies, k, p);
    b.health == b0.health - CONTACT_DAMAGE * n &&
    |b.enemies| == |b0.enemies| &&
    (forall i :: 0 <= i < k ==> b.enemies[i] == ContactMarked(b0.enemies, p)[i]) &&
    (forall i :: k <= i < |b0.enemies| ==> b.enemies[i] == b0.enemies[i]) &&
    b0.particles <= b.particles &&
    |b.particles| == |b0.particles| + (PARTICLE_COUNT_HIT + PARTICLE_COUNT_ENEMY_DEATH) * n &&
    b.shake == (if n > 0 then ARMED else b0.shake)
  }

  /** Each surviving turn carries `ContactLoopInv` one enemy further. */
  lemma ContactLoopStep(b: ContactLoop, b0: ContactLoop, p: Player, k: nat)
    requires k < |b0.enemies| && ContactLoopInv(b, b0, p, k)
    ensures ContactLoopInv(Contacted(b, k, p), b0, p, k + 1)
  {
    assert b.enemies[k] == b0.enemies[k];
  }

  /** A contact the player does not survive means the contacts' damage
      covers the health it began the loop with. */
  lemma ContactLoopFatal(b: ContactLoop, b0: ContactLoop, p: Player, k: nat)
    requires k < |b0.enemies| && ContactLoopInv(b, b0, p, k)
    requires !b.enemies[k].marked && Touching(p, b.enemies[k]) && b.health - CONTACT_DAMAGE <= 0
    ensures b0.health <= CONTACT_DAMAGE * Contacts(b0.enemies, |b0.enemies|, p)
  {
    assert b.enemies[k] == b0.enemies[k];
    ContactsGrow(b0.enemies, k + 1, p);
  }

  /** After the last turn the contact loop has marked exactly the touched
      enemies. */
  lemma ContactLoopEnd(b: ContactLoop, b0: ContactLoop, p: Player)
    requires ContactLoopInv(b, b0, p, |b0.enemies|)
    ensures b.enemies == ContactMarked(b0.enemies, p)
  {
  }

  /** `total`, the outcome of the whole levelling loop, is `n` level-ups
      followed by the outcome of the loop run from XP `xp` and requirement
      `t`. */
  predicate Behind(total: Progress, xp: int, t: int, n: nat)
    requires t >= 1
  {
    var r := Settle(xp, t);
    total == Progress(r.xp, r.threshold, r.levels + n)
  }

  /** A turn of the levelling loop keeps `Behind`. */
  lemma BehindStep(total: Progress, xp: int, t: int, n: nat)
    requires 1 <= t <= xp && Behind(total, xp, t, n)
    ensures Behind(total, xp - t, Grow(t), n + 1)
  {
    SettleStep(xp, t);
  }

  /** The shake every enemy death arms. */
  const ARMED: Shake := Shake(true, SHAKE_DURATION, SHAKE_INTENSITY, 0.0)

  class Game {
    var player: Option<Player>
    var enemies: seq<Enemy>
    var projectiles: seq<Projectile>
    var xpGems: seq<Gem>
    var particles: seq<Particle>
    var lastSpawnTime: real
    var enemySpawnInterval: real
    var isRunning: bool
    /** The identity the next spawned enemy receives. */
    var nextEnemyId: nat
    var width: real
    var height: real
    // module-level state of the source
    var gamePaused: bool
    var screenShake: Shake
    var gemPullSpeed: real
    /** The upgrade cards last put on show. */
    var offer: seq<Upgrade>

    ghost predicate Valid()
      reads this`isRunning, this`player, this`gamePaused, this`offer, this`enemySpawnInterval, this`lastSpawnTime, this`enemies, this`nextEnemyId, this`projectiles, this`gemPullSpeed, this`width, this`height
    {
      (isRunning <==> player.Some?) &&
      (gamePaused ==> player.Some? && |offer| == 3) &&
      (player.Some? ==> PlayerOk(player.value)) &&
      MIN_SPAWN_INTERVAL <= enemySpawnInterval <= ENEMY_SPAWN_INTERVAL_BASE &&
      lastSpawnTime >= 0.0 &&
      EnemiesOk(enemies, nextEnemyId) && ProjectilesOk(projectiles) &&
      gemPullSpeed > 0.0 && width >= 0.0 && height >= 0.0
    }

    /** The fields that only the tick's own phases, reset and resize write. */
    twostate predicate SettingsKept()
      reads this
    {
      width == old(width) && height == old(height) && gemPullSpeed == old(gemPullSpeed) &&
      nextEnemyId == old(nextEnemyId) && isRunning == old(isRunning) &&
      lastSpawnTime == old(lastSpawnTime) && enemySpawnInterval == old(enemySpawnInterval)
    }

    /** `new Game()` followed by `init()`'s first `resizeCanvas`. */
    constructor (w: real, h: real)
      requires w >= 0.0 && h >= 0.0
      ensures Valid()
      ensures player.None? && !isRunning && !gamePaused && !screenShake.active
      ensures enemies == [] && projectiles == [] && xpGems == [] && particles == []
      ensures lastSpawnTime == 0.0 && enemySpawnInterval == ENEMY_SPAWN_INTERVAL_BASE
      ensures gemPullSpeed == XP_GEM_PULL_SPEED_BASE && width == w && height == h
    {
      player := None;
      enemies, projectiles, xpGems, particles := [], [], [], [];
      lastSpawnTime := 0.0;
      enemySpawnInterval := ENEMY_SPAWN_INTERVAL_BASE;
      isRunning := false;
      nextEnemyId := 0;
      width, height := w, h;
      gamePaused := false;
      screenShake := Shake(false, 0.0, 0.0, 0.0);
      gemPullSpeed := XP_GEM_PULL_SPEED_BASE;
      offer := [];
    }

    /** `startGame`: a no-op while running, otherwise a fresh player at the
        centre of the canvas. */
    method StartGame()
      requires Valid()
      modifies this
      ensures Valid() && isRunning
      ensures old(isRunning) ==> unchanged(this)
      ensures !old(isRunning) ==> player == Some(NewPlayer(width / 2.0, height / 2.0))
      ensures enemies == old(enemies) && projectiles == old(projectiles) && xpGems == old(xpGems)
      ensures particles == old(particles) && gamePaused == old(gamePaused) && offer == old(offer)
      ensures screenShake == old(screenShake) && lastSpawnTime == old(lastSpawnTime)
      ensures enemySpawnInterval == old(enemySpawnInterval) && gemPullSpeed == old(gemPullSpeed)
      ensures width == old(width) && height == old(height) && nextEnemyId == old(nextEnemyId)
    {
      if isRunning {
        return;
      }
      player := Some(NewPlayer(width / 2.0, height / 2.0));
      isRunning := true;
    }

    /** `resizeCanvas`: the new canvas size, and the player clamped into it. */
    method ResizeCanvas(w: real, h: real)
      requires Valid() && w >= 0.0 && h >= 0.0
      modifies this`width, this`height, this`player
      ensures Valid() && width == w && height == h
      ensures player.None? <==> old(player).None?
      ensures player.Some? ==> player.value == Clamped(old(player).value, w, h)
      ensures player.Some? && 2.0 * PLAYER_RADIUS <= w ==> PLAYER_RADIUS <= player.value.x <= w - PLAYER_RADIUS
      ensures player.Some? && 2.0 * PLAYER_RADIUS <= h ==> PLAYER_RADIUS <= player.value.y <= h - PLAYER_RADIUS
    {
      width, height := w, h;
      if player.Some? {
        player := Some(Clamped(player.value, w, h));
      }
    }

    /** `resetGame`. The canvas size, the pull speed, the shake's duration
        and intensity and the identity counter are not reset by the source. */
    method ResetGame()
      requires gemPullSpeed > 0.0 && width >= 0.0 && height >= 0.0
      modifies this`isRunning, this`player, this`enemies, this`projectiles, this`particles, this`xpGems,
               this`lastSpawnTime, this`enemySpawnInterval, this`gamePaused, this`screenShake
      ensures Valid()
      ensures !isRunning && player.None? && !gamePaused
      ensures enemies == [] && projectiles == [] && particles == [] && xpGems == []
      ensures lastSpawnTime == 0.0 && enemySpawnInterval == ENEMY_SPAWN_INTERVAL_BASE
      ensures screenShake == old(screenShake).(active := false)
    {
      isRunning := false;
      player := None;
      enemies, projectiles, particles, xpGems := [], [], [], [];
      lastSpawnTime := 0.0;
      enemySpawnInterval := ENEMY_SPAWN_INTERVAL_BASE;
      gamePaused := false;
      screenShake := screenShake.(active := false);
    }

    /** `triggerScreenShake`. */
    method TriggerScreenShake(duration: real, intensity: real)
      modifies this`screenShake
      ensures screenShake == Shake(true, duration, intensity, 0.0)
    {
      screenShake := Shake(true, duration, intensity, 0.0);
    }

    /** `addParticles`: `count` particles appended, one per loop turn. */
    method AddParticles(x: real, y: real, count: nat, lifetime: real)
      modifies this`particles
      ensures particles == old(particles) + Burst(x, y, count, lifetime)
    {
      for i := 0 to count
        invariant particles == old(particles) + Burst(x, y, i, lifetime)
      {
        assert Burst(x, y, i + 1, lifetime) == Burst(x, y, i, lifetime) + [Particle(x, y, lifetime, 0.0, false)];
        particles := particles + [Particle(x, y, lifetime, 0.0, false)];
      }
    }

    /** `onEnemyDeath`: shake, explosion, and a gem unless the death came
        from touching the player. */
    method OnEnemyDeath(e: Enemy, noXp: bool)
      modifies this`screenShake, this`particles, this`xpGems
      ensures screenShake == Shake(true, SHAKE_DURATION, SHAKE_INTENSITY, 0.0)
      ensures particles == old(particles) + Burst(e.x, e.y, PARTICLE_COUNT_ENEMY_DEATH, PARTICLE_LIFETIME_BASE)
      ensures xpGems == old(xpGems) + (if noXp then [] else [GemOf(e)])
    {
      TriggerScreenShake(SHAKE_DURATION, SHAKE_INTENSITY);
      AddParticles(e.x, e.y, PARTICLE_COUNT_ENEMY_DEATH, PARTICLE_LIFETIME_BASE);
      if !noXp {
        xpGems := xpGems + [GemOf(e)];
      }
    }

    /** `Enemy.takeDamage` on the enemy at index `k`: its health falls by
        `amount`, and exactly when it reaches zero or below it is marked and
        its death effects run, dropping one gem with its value and rank. */
    method StrikeEnemy(k: nat, amount: real)
      requires Valid() && k < |enemies| && amount >= 0.0
      modifies this`enemies, this`screenShake, this`particles, this`xpGems
      ensures Valid()
      ensures Arena(enemies, xpGems, particles, screenShake) ==
              Struck(Arena(old(enemies), old(xpGems), old(particles), old(screenShake)), k, amount)
    {
      var e := enemies[k];
      var hit := Damaged(e, amount);
      enemies := enemies[k := hit];
      AddParticles(e.x, e.y, PARTICLE_COUNT_HIT, 0.05);
      if hit.health <= 0.0 {
        OnEnemyDeath(hit, false);
      }
    }

    /** A stopped session with nothing in play: the state `resetGame`
        leaves, apart from the particles and the shake flag, which a contact
        death may write again straight afterwards. */
    ghost predicate Fresh()
      reads this`isRunning, this`player, this`gamePaused, this`enemies, this`projectiles, this`xpGems, this`lastSpawnTime, this`enemySpawnInterval
    {
      !isRunning && player.None? && !gamePaused &&
      enemies == [] && projectiles == [] && xpGems == [] &&
      lastSpawnTime == 0.0 && enemySpawnInterval == ENEMY_SPAWN_INTERVAL_BASE
    }

    /** `Fresh`, with the canvas, the pull speed, the id counter and the
        cards on show as they were. */
    twostate predicate WasReset()
      reads this
    {
      Fresh() &&
      width == old(width) && height == old(height) && gemPullSpeed == old(gemPullSpeed) &&
      nextEnemyId == old(nextEnemyId) && offer == old(offer)
    }

    /** `Player.takeDamage`: health falls by `amount`, with a flash of hit
        particles; at zero or below the session is reset. */
    method HurtPlayer(amount: int)
      requires Valid() && player.Some? && amount >= 0
      modifies this
      ensures Valid()
      ensures var p := old(player).value;
              if p.health - amount <= 0 then
                WasReset() && particles == [] && screenShake == old(screenShake).(active := false)
              else
                player == Some(p.(health := p.health - amount)) &&
                particles == old(particles) + Burst(p.x, p.y, PARTICLE_COUNT_HIT, 0.1) &&
                enemies == old(enemies) && projectiles == old(projectiles) && xpGems == old(xpGems) &&
                screenShake == old(screenShake) && gamePaused == old(gamePaused) &&
                offer == old(offer) && SettingsKept()
    {
      var p := player.value;
      player := Some(p.(health := p.health - amount));
      AddParticles(p.x, p.y, PARTICLE_COUNT_HIT, 0.1);
      if p.health - amount <= 0 {
        ResetGame();
      }
    }

    /** `levelUp`: pause, and put three cards of the shuffle `s` on show. */
    method LevelUp(s: Shuffle)
      modifies this`gamePaused, this`offer
      ensures gamePaused && offer == Offer(s) && |offer| == 3
    {
      OfferCards(s);
      gamePaused := true;
      offer := Offer(s);
    }

    /** `Player.gainXP`: the XP is added, then while it covers the
        requirement it pays for one level, the requirement grows to
        floor(1.25 x) and `levelUp` runs, with the cards of the shuffle for
        the level just reached. The loop is `Settle`; only the cards of the
        last level-up stay on show. */
    method GainXP(amount: int, shuffle: nat -> Shuffle)
      requires Valid() && player.Some? && amount >= 0
      modifies this`player, this`gamePaused, this`offer
      ensures Valid() && player.Some?
      ensures var p := old(player).value;
              var r := Settle(p.xp + amount, p.xpToNextLevel);
              player.value == p.(xp := r.xp, xpToNextLevel := r.threshold, level := p.level + r.levels) &&
              gamePaused == (old(gamePaused) || r.levels > 0) &&
              offer == (if r.levels > 0 then Offer(shuffle(p.level + r.levels)) else old(offer))
    {
      var p := player.value;
      var xp := p.xp + amount;
      var threshold := p.xpToNextLevel;
      var level := p.level;
      player := Some(p.(xp := xp));
      ghost var n: nat := 0;
      ghost var total := Settle(xp, threshold);
      while xp >= threshold
        invariant threshold >= 100 && xp >= 0 && level == p.level + n
        invariant Behind(total, xp, threshold, n)
        invariant player == Some(p.(xp := xp, xpToNextLevel := threshold, level := level))
        invariant gamePaused == (old(gamePaused) || n > 0)
        invariant offer == (if n > 0 then Offer(shuffle(level)) else old(offer))
        decreases xp
      {
        BehindStep(total, xp, threshold, n);
        xp := xp - threshold;
        level := level + 1;
        threshold := Grow(threshold);
        player := Some(p.(xp := xp, xpToNextLevel := threshold, level := level));
        LevelUp(shuffle(level));
        n := n + 1;
      }
      assert Settle(xp, threshold) == Progress(xp, threshold, 0);
    }

    /** `resumeGame`. */
    method ResumeGame()
      modifies this`gamePaused
      ensures !gamePaused
    {
      gamePaused := false;
    }

    /** A click on card `k` of the offer: its `apply`, then `resumeGame`.
        Cards can be clicked only while the level-up overlay shows. */
    method ChooseUpgrade(k: nat)
      requires Valid() && gamePaused && k < |offer|
      modifies this`player, this`gemPullSpeed, this`gamePaused
      ensures Valid() && !gamePaused
      ensures player == Some(Upgraded(old(player).value, offer[k]))
      ensures gemPullSpeed == PullAfter(old(gemPullSpeed), offer[k])
    {
      var u := offer[k];
      player := Some(Upgraded(player.value, u));
      gemPullSpeed := PullAfter(gemPullSpeed, u);
      ResumeGame();
    }

    /** `enemies.forEach(e => e.takeDamage(amount))`: every enemy is struck
        once, in list order, each death dropping its gem and re-arming the
        ordinary shake. */
    method StrikeAll(amount: real)
      requires Valid() && amount >= 0.0
      modifies this`enemies, this`screenShake, this`particles, this`xpGems
      ensures Valid()
      ensures var deaths := Deaths(old(enemies), amount);
              enemies == AllStruck(old(enemies), amount) &&
              xpGems == old(xpGems) + DeathGems(old(enemies), amount) &&
              old(particles) <= particles &&
              |particles| == |old(particles)| + PARTICLE_COUNT_HIT * |old(enemies)| +
                             PARTICLE_COUNT_ENEMY_DEATH * deaths &&
              screenShake == (if deaths > 0 then Shake(true, SHAKE_DURATION, SHAKE_INTENSITY, 0.0)
                              else old(screenShake))
    {
      ghost var a := Arena(enemies, xpGems, particles, screenShake);
      for k := 0 to |enemies|
        invariant Valid() && |enemies| == |a.enemies|
        invariant Arena(enemies, xpGems, particles, screenShake) == StruckEach(a, k, amount)
      {
        StrikeEnemy(k, amount);
      }
      StruckEachEnemies(a, |a.enemies|, amount);
      StruckEachEffects(a, |a.enemies|, amount);
      assert a.enemies[..|a.enemies|] == a.enemies;
    }

    /** The Space keydown handler. With a player whose Nova is unlocked and
        the game not paused, it spends the charge, arms the large shake and
        strikes every enemy in the list once with ten times the projectile
        damage; any death re-arms the ordinary shake. In every other case
        nothing changes (without a player the source's handler throws). */
    method Nova(isSpace: bool)
      requires Valid()
      modifies this`player, this`enemies, this`screenShake, this`particles, this`xpGems
      ensures Valid()
      ensures !(isSpace && old(player).Some? && old(player).value.novaAvailable && !gamePaused) ==>
                unchanged(this)
      ensures isSpace && old(player).Some? && old(player).value.novaAvailable && !gamePaused ==>
                var p := old(player).value;
                var amount := (NOVA_DAMAGE_FACTOR * p.projectileDamage) as real;
                var deaths := Deaths(old(enemies), amount);
                player == Some(p.(novaAvailable := false)) &&
                enemies == AllStruck(old(enemies), amount) &&
                xpGems == old(xpGems) + DeathGems(old(enemies), amount) &&
                old(particles) <= particles &&
                |particles| == |old(particles)| + PARTICLE_COUNT_NOVA + PARTICLE_COUNT_HIT * |old(enemies)| +
                               PARTICLE_COUNT_ENEMY_DEATH * deaths &&
                screenShake == (if deaths > 0 then Shake(true, SHAKE_DURATION, SHAKE_INTENSITY, 0.0)
                                else Shake(true, NOVA_SHAKE_DURATION, NOVA_SHAKE_INTENSITY, 0.0))
    {
      if isSpace && player.Some? && player.value.novaAvailable && !gamePaused {
        Detonate();
      }
    }

    /** The body of the Nova handler once its guard holds: the charge is
        spent, the burst and the large shake come first, then every enemy
        is struck. */
    method Detonate()
      requires Valid() && player.Some? && player.value.novaAvailable
      modifies this`player, this`enemies, this`screenShake, this`particles, this`xpGems
      ensures Valid()
      ensures var p := old(player).value;
              var amount := (NOVA_DAMAGE_FACTOR * p.projectileDamage) as real;
              var deaths := Deaths(old(enemies), amount);
              player == Some(p.(novaAvailable := false)) &&
              enemies == AllStruck(old(enemies), amount) &&
              xpGems == old(xpGems) + DeathGems(old(enemies), amount) &&
              old(particles) <= particles &&
              |particles| == |old(particles)| + PARTICLE_COUNT_NOVA + PARTICLE_COUNT_HIT * |old(enemies)| +
                             PARTICLE_COUNT_ENEMY_DEATH * deaths &&
              screenShake == (if deaths > 0 then Shake(true, SHAKE_DURATION, SHAKE_INTENSITY, 0.0)
                              else Shake(true, NOVA_SHAKE_DURATION, NOVA_SHAKE_INTENSITY, 0.0))
    {
      var p := player.value;
      player := Some(p.(novaAvailable := false));
      AddParticles(p.x, p.y, PARTICLE_COUNT_NOVA, 0.8);
      TriggerScreenShake(NOVA_SHAKE_DURATION, NOVA_SHAKE_INTENSITY);
      StrikeAll((NOVA_DAMAGE_FACTOR * p.projectileDamage) as real);
    }

    // -------------------------------------------------------------------
    // The phases of one `Game.update`

    /** `Player.fire`: `multiShot` shots appended, one per loop turn, shot
        `i` flying with `aim(i)` and each carrying the player's damage and
        pierce. */
    method Fire(aim: nat -> Vec)
      requires Valid() && player.Some?
      modifies this`projectiles
      ensures Valid()
      ensures projectiles == old(projectiles) + Volley(player.value, aim, player.value.multiShot)
    {
      var p := player.value;
      for i := 0 to p.multiShot
        invariant projectiles == old(projectiles) + Volley(p, aim, i)
        invariant ProjectilesOk(projectiles)
      {
        projectiles := projectiles + [Shot(p, aim(i))];
      }
    }

    /** `Player.update`: the step towards the pointer, then the fire timer:
        once it reaches `fireRate` a volley leaves from the new position
        and the timer restarts at 0, dropping any excess. */
    method PlayerUpdate(t: Tick)
      requires Valid() && player.Some? && t.dt >= 0.0
      modifies this`player, this`projectiles
      ensures Valid() && player.Some?
      ensures var m := Steered(old(player).value, t.mouseX, t.mouseY, t.heading, t.dt, width, height);
              var clock := m.lastFireTime + t.dt;
              if clock >= m.fireRate then
                player == Some(m.(lastFireTime := 0.0)) &&
                projectiles == old(projectiles) + Volley(m, t.aim, m.multiShot)
              else
                player == Some(m.(lastFireTime := clock)) && projectiles == old(projectiles)
    {
      var m := Steered(player.value, t.mouseX, t.mouseY, t.heading, t.dt, width, height);
      var clock := m.lastFireTime + t.dt;
      player := Some(m.(lastFireTime := clock));
      if clock >= m.fireRate {
        Fire(t.aim);
        player := Some(m.(lastFireTime := 0.0));
      }
    }

    /** `spawnEnemy`: one enemy, built from the draws `r` for the player's
        level, pushed with a fresh identity. */
    method SpawnEnemy(r: SpawnRolls)
      requires Valid() && player.Some?
      modifies this`enemies, this`nextEnemyId
      ensures Valid()
      ensures enemies == old(enemies) + [Spawned(old(nextEnemyId), player.value.level, width, height, r)]
      ensures nextEnemyId == old(nextEnemyId) + 1
    {
      var e := Spawned(nextEnemyId, player.value.level, width, height, r);
      enemies := enemies + [e];
      nextEnemyId := nextEnemyId + 1;
    }

    /** The spawn timer of `Game.update`: once it reaches the interval,
        exactly one enemy is spawned, the timer restarts at 0 and the
        interval decays; otherwise the timer only advances. */
    method SpawnTimer(dt: real, r: SpawnRolls)
      requires Valid() && player.Some? && dt >= 0.0
      modifies this`enemies, this`nextEnemyId, this`lastSpawnTime, this`enemySpawnInterval
      ensures Valid()
      ensures var due := old(lastSpawnTime) + dt >= old(enemySpawnInterval);
              if due then
                enemies == old(enemies) + [Spawned(old(nextEnemyId), player.value.level, width, height, r)] &&
                nextEnemyId == old(nextEnemyId) + 1 &&
                lastSpawnTime == 0.0 && enemySpawnInterval == Decay(old(enemySpawnInterval))
              else
                enemies == old(enemies) && nextEnemyId == old(nextEnemyId) &&
                lastSpawnTime == old(lastSpawnTime) + dt && enemySpawnInterval == old(enemySpawnInterval)
      ensures enemySpawnInterval <= old(enemySpawnInterval)
    {
      lastSpawnTime := lastSpawnTime + dt;
      if lastSpawnTime >= enemySpawnInterval {
        SpawnEnemy(r);
        lastSpawnTime := 0.0;
        enemySpawnInterval := Decay(enemySpawnInterval);
      }
    }

    /** `enemies.forEach(enemy => enemy.update(...))` towards the player at
        (px, py), enemy `k` bearing `heading(k)`. */
    method MoveEnemies(px: real, py: real, heading: nat -> Vec, dt: real)
      requires Valid()
      modifies this`enemies
      ensures Valid() && |enemies| == |old(enemies)|
      ensures forall k :: 0 <= k < |enemies| ==> enemies[k] == Marched(old(enemies)[k], px, py, heading(k), dt)
    {
      for k := 0 to |enemies|
        invariant |enemies| == |old(enemies)|
        invariant forall i :: 0 <= i < k ==> enemies[i] == Marched(old(enemies)[i], px, py, heading(i), dt)
        invariant forall i :: k <= i < |enemies| ==> enemies[i] == old(enemies)[i]
      {
        enemies := enemies[k := Marched(enemies[k], px, py, heading(k), dt)];
      }
      assert forall i :: 0 <= i < |enemies| ==> enemies[i] == old(enemies)[i].(x := enemies[i].x, y := enemies[i].y);
    }

    /** `projectiles.forEach(proj => proj.update(dt))`. */
    method MoveProjectiles(dt: real)
      requires Valid()
      modifies this`projectiles
      ensures Valid() && |projectiles| == |old(projectiles)|
      ensures forall k :: 0 <= k < |projectiles| ==> projectiles[k] == Flown(old(projectiles)[k], dt, width, height)
    {
      for k := 0 to |projectiles|
        invariant |projectiles| == |old(projectiles)|
        invariant forall i :: 0 <= i < k ==> projectiles[i] == Flown(old(projectiles)[i], dt, width, height)
        invariant forall i :: k <= i < |projectiles| ==> projectiles[i] == old(projectiles)[i]
      {
        projectiles := projectiles[k := Flown(projectiles[k], dt, width, height)];
      }
    }

    /** `xpGems.forEach(gem => gem.update(...))` with the player at (px,
        py): attraction within three player radii at the pull speed, gem `k`
        bearing `heading(k)`. */
    method UpdateGems(px: real, py: real, heading: nat -> Vec, dt: real)
      requires Valid() && player.Some?
      modifies this`xpGems
      ensures Valid() && |xpGems| == |old(xpGems)|
      ensures forall k :: 0 <= k < |xpGems| ==>
                xpGems[k] == GemUpdated(old(xpGems)[k], px, py, player.value.radius * 3.0, gemPullSpeed, heading(k), dt)
    {
      var reach := player.value.radius * 3.0;
      for k := 0 to |xpGems|
        invariant |xpGems| == |old(xpGems)|
        invariant forall i :: 0 <= i < k ==> xpGems[i] == GemUpdated(old(xpGems)[i], px, py, reach, gemPullSpeed, heading(i), dt)
        invariant forall i :: k <= i < |xpGems| ==> xpGems[i] == old(xpGems)[i]
      {
        xpGems := xpGems[k := GemUpdated(xpGems[k], px, py, reach, gemPullSpeed, heading(k), dt)];
      }
    }

    /** `particles.forEach(p => p.update(dt))`. */
    method UpdateParticles(dt: real)
      modifies this`particles
      ensures |particles| == |old(particles)|
      ensures forall k :: 0 <= k < |particles| ==> particles[k] == ParticleAged(old(particles)[k], dt)
    {
      for k := 0 to |particles|
        invariant |particles| == |old(particles)|
        invariant forall i :: 0 <= i < k ==> particles[i] == ParticleAged(old(particles)[i], dt)
        invariant forall i :: k <= i < |particles| ==> particles[i] == old(particles)[i]
      {
        particles := particles[k := ParticleAged(particles[k], dt)];
      }
    }

    // -------------------------------------------------------------------
    // `handleCollisions`

    /** The projectile pass, resolved on the arena of enemies, gems,
        particles and shake with the player's chain chance and chain
        damage; its outcome is written back. */
    method ShootEnemies(roll: nat -> nat -> Unit, pick: nat -> nat -> nat -> Unit)
      requires Valid() && player.Some?
      modifies this`enemies, this`projectiles, this`xpGems, this`particles, this`screenShake
      ensures Valid()
      ensures var p := player.value;
              var r := Volleyed(Arena(old(enemies), old(xpGems), old(particles), old(screenShake)),
                                old(projectiles), 0, p.chainLightningChance, ChainDamage(p), roll, pick);
              Arena(enemies, xpGems, particles, screenShake) == r.arena && projectiles == r.shots
    {
      var p := player.value;
      var a := Arena(enemies, xpGems, particles, screenShake);
      var r := ResolveShots(a, projectiles, p.chainLightningChance, ChainDamage(p), roll, pick);
      VolleyedShots(a, projectiles, 0, p.chainLightningChance, ChainDamage(p), roll, pick);
      VolleyedGrows(a, projectiles, 0, p.chainLightningChance, ChainDamage(p), roll, pick);
      DistinctIdsEvolved(a.enemies, r.arena.enemies);
      enemies, projectiles := r.arena.enemies, r.shots;
      xpGems, particles, screenShake := r.arena.gems, r.arena.particles, r.arena.shake;
    }

    /** The part of the state the contact loop works on. */
    ghost function ContactLoopState(): ContactLoop
      reads this`player, this`enemies, this`particles, this`screenShake
      requires player.Some?
    {
      ContactLoop(player.value.health, enemies, particles, screenShake)
    }

    /** One turn of the contact loop, on the enemy at `k`: a live enemy
        touching the player costs it 10 health, is marked and dies without
        a gem. When the damage resets the session the enemy belongs to a
        list the game no longer holds, and its death effects run on the
        state just reset. */
    method ContactStep(k: nat, ghost p: Player)
      requires Valid() && player.Some? && player.value == p.(health := player.value.health) && k < |enemies|
      modifies this
      ensures Valid()
      ensures var e := old(enemies)[k];
              if !e.marked && Touching(p, e) && old(player).value.health - CONTACT_DAMAGE <= 0 then
                WasReset() && particles == Burst(e.x, e.y, PARTICLE_COUNT_ENEMY_DEATH, PARTICLE_LIFETIME_BASE) &&
                screenShake == ARMED
              else
                player.Some? && player.value == p.(health := player.value.health) &&
                ContactLoopState() == Contacted(old(ContactLoopState()), k, p) &&
                projectiles == old(projectiles) && xpGems == old(xpGems) &&
                gamePaused == old(gamePaused) && offer == old(offer) && SettingsKept()
    {
      var e := enemies[k];
      assert Touching(player.value, e) == Touching(p, e);
      if !e.marked && Touching(player.value, e) {
        ghost var b := ContactLoopState();
        HurtPlayer(CONTACT_DAMAGE);
        if isRunning {
          enemies := enemies[k := e.(marked := true)];
          OnEnemyDeath(e, true);
          assert ContactLoopState() == ContactLoop(b.health - CONTACT_DAMAGE, b.enemies[k := e.(marked := true)],
                                 b.particles + Burst(p.x, p.y, PARTICLE_COUNT_HIT, 0.1) +
                                 Burst(e.x, e.y, PARTICLE_COUNT_ENEMY_DEATH, PARTICLE_LIFETIME_BASE),
                                 ARMED);
        } else {
          OnEnemyDeath(e, true);
          assert xpGems == [] && particles == Burst(e.x, e.y, PARTICLE_COUNT_ENEMY_DEATH, PARTICLE_LIFETIME_BASE);
        }
      }
    }

    /** The contact loop. Without a reset, every live enemy touching the
        player is marked with no gem, each costing 10 health and 5 + 25
        particles and re-arming the shake. A reset happens only when the
        contacts' damage covers the player's health, and ends the loop. */
    method ContactPass()
      requires Valid() && player.Some?
      modifies this
      ensures Valid()
      ensures var p := old(player).value;
              var n := Contacts(old(enemies), |old(enemies)|, p);
              player.Some? ==>
                player == Some(p.(health := p.health - CONTACT_DAMAGE * n)) &&
                enemies == ContactMarked(old(enemies), p) &&
                old(particles) <= particles &&
                |particles| == |old(particles)| + (PARTICLE_COUNT_HIT + PARTICLE_COUNT_ENEMY_DEATH) * n &&
                screenShake == (if n > 0 then ARMED else old(screenShake)) &&
                projectiles == old(projectiles) && xpGems == old(xpGems) &&
                gamePaused == old(gamePaused) && offer == old(offer) && SettingsKept()
      ensures player.None? ==>
                WasReset() && |particles| > 0 && particles == Burst(particles[0].x, particles[0].y, PARTICLE_COUNT_ENEMY_DEATH, PARTICLE_LIFETIME_BASE) &&
                screenShake == ARMED &&
                old(player).value.health <= CONTACT_DAMAGE * Contacts(old(enemies), |old(enemies)|, old(player).value)
    {
      ghost var p := player.value;
      ghost var b0 := ContactLoopState();
      for k := 0 to |enemies|
        invariant Valid() && player.Some? && player.value == p.(health := player.value.health)
        invariant ContactLoopInv(ContactLoopState(), b0, p, k)
        invariant projectiles == old(projectiles) && xpGems == old(xpGems)
        invariant gamePaused == old(gamePaused) && offer == old(offer) && SettingsKept()
      {
        ghost var b := ContactLoopState();
        ContactLoopStep(b, b0, p, k);
        ContactStep(k, p);
        if player.None? {
          ContactLoopFatal(b, b0, p, k);
          return;
        }
      }
      ContactLoopEnd(ContactLoopState(), b0, p);
    }

    /** The part of the state the gem loop works on. */
    ghost function GemLoopState(): GemLoop
      reads this`player, this`gamePaused, this`offer, this`xpGems, this`particles
      requires player.Some?
    {
      GemLoop(player.value.xp, player.value.xpToNextLevel, player.value.level, gamePaused, offer, xpGems, particles)
    }

    /** The player is `p` but for its XP, requirement and level. */
    ghost predicate Holds(p: Player)
      reads this`player
    {
      player.Some? &&
      player.value == p.(xp := player.value.xp, xpToNextLevel := player.value.xpToNextLevel, level := player.value.level)
    }

    /** One turn of the gem loop, on the gem at `k`: a live gem touching the
        player hands it its value through `gainXP`, is marked, and leaves a
        sparkle. */
    method CollectGem(k: nat, ghost p: Player, shuffle: nat -> Shuffle)
      requires Valid() && Holds(p) && k < |xpGems|
      modifies this`player, this`gamePaused, this`offer, this`xpGems, this`particles
      ensures Valid() && Holds(p)
      ensures GemLoopState() == Collected(old(GemLoopState()), k, p, shuffle)
    {
      ghost var u := GemLoopState();
      var g := xpGems[k];
      assert GemTouching(player.value, g) == GemTouching(p, g);
      if !g.marked && GemTouching(player.value, g) {
        GainXP(g.value, shuffle);
        assert GemLoopState() == Gain(u, g.value, shuffle);
        xpGems := xpGems[k := g.(marked := true)];
        AddParticles(g.x, g.y, PARTICLE_COUNT_XP_SPARKLE, 0.3);
      }
    }

    /** The gem loop: the player ends as one `gainXP` of everything it
        gathered would leave it, every gathered gem is marked, and the
        cards on show are those of the last level reached. */
    method GemPass(shuffle: nat -> Shuffle)
      requires Valid() && player.Some?
      modifies this`player, this`gamePaused, this`offer, this`xpGems, this`particles
      ensures Valid() && player.Some?
      ensures var p := old(player).value;
              var r := Settle(p.xp + Gathered(old(xpGems), |old(xpGems)|, p), p.xpToNextLevel);
              player.value == p.(xp := r.xp, xpToNextLevel := r.threshold, level := p.level + r.levels) &&
              gamePaused == (old(gamePaused) || r.levels > 0) &&
              offer == (if r.levels > 0 then Offer(shuffle(p.level + r.levels)) else old(offer)) &&
              xpGems == GemsPicked(old(xpGems), p) &&
              old(particles) <= particles &&
              |particles| == |old(particles)| + PARTICLE_COUNT_XP_SPARKLE * Pickups(old(xpGems), |old(xpGems)|, p)
    {
      ghost var p := player.value;
      ghost var s0 := GemLoopState();
      GemLoopStart(s0, p, shuffle);
      for k := 0 to |xpGems|
        invariant Valid() && Holds(p)
        invariant GemLoopInv(GemLoopState(), s0, p, k, shuffle)
      {
        GemLoopStep(GemLoopState(), s0, p, k, shuffle);
        CollectGem(k, p, shuffle);
      }
      GemLoopEnd(GemLoopState(), s0, p, shuffle);
    }

    /** The end-of-update filter: each collection keeps, in order, exactly
        its unmarked entities. */
    method Cleanup()
      requires Valid()
      modifies this`enemies, this`projectiles, this`xpGems, this`particles
      ensures Valid()
      ensures enemies == Keep(old(enemies), LiveEnemy) && projectiles == Keep(old(projectiles), LiveProjectile)
      ensures xpGems == Keep(old(xpGems), LiveGem) && particles == Keep(old(particles), LiveParticle)
    {
      KeepEnemiesOk(enemies, nextEnemyId);
      KeepProjectilesOk(projectiles);
      enemies := Keep(enemies, LiveEnemy);
      projectiles := Keep(projectiles, LiveProjectile);
      xpGems := Keep(xpGems, LiveGem);
      particles := Keep(particles, LiveParticle);
    }

    /** No entity marked for deletion is left. */
    ghost predicate Tidy()
      reads this`enemies, this`projectiles, this`xpGems, this`particles
    {
      (forall e :: e in enemies ==> LiveEnemy(e)) && (forall q :: q in projectiles ==> LiveProjectile(q)) &&
      (forall g :: g in xpGems ==> LiveGem(g)) && (forall q :: q in particles ==> LiveParticle(q))
    }

    /** The first half of `Game.update`: the shake timer, the player, the
        spawner and the four movement passes. The lists the passes move are
        the old ones with the volley and the spawned enemy appended. */
    method Advance(t: Tick)
      requires Valid() && player.Some? && t.dt >= 0.0
      modifies this`screenShake, this`player, this`projectiles, this`enemies, this`nextEnemyId,
               this`lastSpawnTime, this`enemySpawnInterval, this`xpGems, this`particles
      ensures Valid() && player.Some?
      ensures var m := Steered(old(player).value, t.mouseX, t.mouseY, t.heading, t.dt, width, height);
              var clock := m.lastFireTime + t.dt;
              var fired := clock >= m.fireRate;
              var due := old(lastSpawnTime) + t.dt >= old(enemySpawnInterval);
              var ps := old(projectiles) + (if fired then Volley(m, t.aim, m.multiShot) else []);
              var es := old(enemies) + (if due then [Spawned(old(nextEnemyId), m.level, width, height, t.spawn)] else []);
              screenShake == ShakeTick(old(screenShake), t.dt) &&
              player == Some(m.(lastFireTime := if fired then 0.0 else clock)) &&
              lastSpawnTime == (if due then 0.0 else old(lastSpawnTime) + t.dt) &&
              enemySpawnInterval == (if due then Decay(old(enemySpawnInterval)) else old(enemySpawnInterval)) &&
              nextEnemyId == old(nextEnemyId) + (if due then 1 else 0) &&
              |enemies| == |es| && |projectiles| == |ps| &&
              |xpGems| == |old(xpGems)| && |particles| == |old(particles)| &&
              (forall k :: 0 <= k < |es| ==> enemies[k] == Marched(es[k], m.x, m.y, t.enemyHeading(k), t.dt)) &&
              (forall k :: 0 <= k < |ps| ==> projectiles[k] == Flown(ps[k], t.dt, width, height)) &&
              (forall k :: 0 <= k < |xpGems| ==>
                 xpGems[k] == GemUpdated(old(xpGems)[k], m.x, m.y, m.radius * 3.0, gemPullSpeed, t.gemHeading(k), t.dt)) &&
              (forall k :: 0 <= k < |particles| ==> particles[k] == ParticleAged(old(particles)[k], t.dt))
    {
      Steer(t);
      MovePasses(t);
    }

    /** The shake timer, the player's step and the spawn timer: the part of
        `Advance` before the movement passes. The shake runs down by `dt`,
        the player steps and perhaps fires a volley, and a due spawner
        appends one enemy for the player's level. */
    method Steer(t: Tick)
      requires Valid() && player.Some? && t.dt >= 0.0
      modifies this`screenShake, this`player, this`projectiles, this`enemies, this`nextEnemyId,
               this`lastSpawnTime, this`enemySpawnInterval
      ensures Valid() && player.Some?
      ensures var m := Steered(old(player).value, t.mouseX, t.mouseY, t.heading, t.dt, width, height);
              var clock := m.lastFireTime + t.dt;
              var fired := clock >= m.fireRate;
              var due := old(lastSpawnTime) + t.dt >= old(enemySpawnInterval);
              screenShake == ShakeTick(old(screenShake), t.dt) &&
              player == Some(m.(lastFireTime := if fired then 0.0 else clock)) &&
              projectiles == old(projectiles) + (if fired then Volley(m, t.aim, m.multiShot) else []) &&
              enemies == old(enemies) + (if due then [Spawned(old(nextEnemyId), m.level, width, height, t.spawn)] else []) &&
              lastSpawnTime == (if due then 0.0 else old(lastSpawnTime) + t.dt) &&
              enemySpawnInterval == (if due then Decay(old(enemySpawnInterval)) else old(enemySpawnInterval)) &&
              nextEnemyId == old(nextEnemyId) + (if due then 1 else 0)
    {
      screenShake := ShakeTick(screenShake, t.dt);
      PlayerUpdate(t);
      SpawnTimer(t.dt, t.spawn);
    }

    /** The four `forEach(... update(deltaTime))` passes: enemies march on
        the player, projectiles fly, gems age and drift, particles age. */
    method MovePasses(t: Tick)
      requires Valid() && player.Some?
      modifies this`enemies, this`projectiles, this`xpGems, this`particles
      ensures Valid()
      ensures var p := player.value;
              |enemies| == |old(enemies)| && |projectiles| == |old(projectiles)| &&
              |xpGems| == |old(xpGems)| && |particles| == |old(particles)| &&
              (forall k :: 0 <= k < |enemies| ==> enemies[k] == Marched(old(enemies)[k], p.x, p.y, t.enemyHeading(k), t.dt)) &&
              (forall k :: 0 <= k < |projectiles| ==> projectiles[k] == Flown(old(projectiles)[k], t.dt, width, height)) &&
              (forall k :: 0 <= k < |xpGems| ==>
                 xpGems[k] == GemUpdated(old(xpGems)[k], p.x, p.y, p.radius * 3.0, gemPullSpeed, t.gemHeading(k), t.dt)) &&
              (forall k :: 0 <= k < |particles| ==> particles[k] == ParticleAged(old(particles)[k], t.dt))
    {
      MoveEnemies(player.value.x, player.value.y, t.enemyHeading, t.dt);
      MoveProjectiles(t.dt);
      UpdateGems(player.value.x, player.value.y, t.gemHeading, t.dt);
      UpdateParticles(t.dt);
    }

    /** `handleCollisions`: the projectile, contact and gem loops. A fatal
        contact leaves a fresh, stopped session; otherwise the player has
        not moved. */
    method HandleCollisions(t: Tick)
      requires Valid() && player.Some?
      modifies this
      ensures Valid()
      ensures player.None? ==>
                WasReset() && screenShake == ARMED && |particles| == PARTICLE_COUNT_ENEMY_DEATH
      ensures player.Some? ==>
                player.value.x == old(player).value.x && player.value.y == old(player).value.y &&
                SettingsKept()
    {
      ShootEnemies(t.chainRoll, t.chainPick);
      ContactPass();
      if player.None? {
        return;
      }
      GemPass(t.shuffle);
    }

    /** `Game.update`, in the source's order. A fatal contact ends the frame
        on a fresh, stopped session; otherwise the player stands where its
        steering put it, the spawner has run, and nothing marked is left. */
    method Update(t: Tick)
      requires Valid() && player.Some? && t.dt >= 0.0
      modifies this
      ensures Valid()
      ensures player.None? ==>
                Fresh() && screenShake == ARMED && |particles| == PARTICLE_COUNT_ENEMY_DEATH &&
                width == old(width) && height == old(height) && gemPullSpeed == old(gemPullSpeed) &&
                offer == old(offer)
      ensures var m := Steered(old(player).value, t.mouseX, t.mouseY, t.heading, t.dt, width, height);
              var due := old(lastSpawnTime) + t.dt >= old(enemySpawnInterval);
              player.Some? ==>
                player.value.x == m.x && player.value.y == m.y && Tidy() &&
                lastSpawnTime == (if due then 0.0 else old(lastSpawnTime) + t.dt) &&
                enemySpawnInterval == (if due then Decay(old(enemySpawnInterval)) else old(enemySpawnInterval)) &&
                nextEnemyId == old(nextEnemyId) + (if due then 1 else 0) &&
                width == old(width) && height == old(height) && gemPullSpeed == old(gemPullSpeed)
    {
      Advance(t);
      HandleCollisions(t);
      if player.Some? {
        Cleanup();
      }
    }

    /** One animation frame of `gameLoop`: nothing happens unless a session
        is running and not paused; the elapsed time is given. */
    method Frame(t: Tick)
      requires Valid() && t.dt >= 0.0
      modifies this
      ensures Valid()
      ensures !old(isRunning) || old(gamePaused) ==> unchanged(this)
      ensures old(isRunning) && !old(gamePaused) && player.Some? ==> Tidy()
    {
      if isRunning && !gamePaused {
        Update(t);
      }
    }
  }
}
