/** Hits: `Enemy.takeDamage` with its death effects, `triggerChainLightning`
    and the projectile half of `handleCollisions`. They are modelled on an
    `Arena`, the value of the four pieces of game state that hits write
    (enemies, gems, particles, shake); the `Game` writes the result back. */
module Combat {
  import opened Entities

  /** The part of the game state a hit may change. */
  datatype Arena = Arena(enemies: seq<Enemy>, gems: seq<Gem>, particles: seq<Particle>, shake: Shake)

  /** The strict overlap test of the projectile loop. */
  predicate HitTest(p: Projectile, e: Enemy)
  {
    Within(p.x, p.y, e.x, e.y, p.radius + e.radius)
  }

  /** `chainLightningChance > 0 && Math.random() * 100 < chainLightningChance`. */
  predicate ChainFires(chance: int, roll: Unit)
  {
    chance > 0 && roll * 100.0 < chance as real
  }

  /** `Math.floor(u * n)`, an index into a list of `n` candidates. */
  function Pick(u: Unit, n: nat): (k: nat)
    requires n > 0
    ensures k < n
  {
    var x := u * (n as real);
    assert x < n as real;
    x.Floor
  }

  predicate NoDup(s: seq<nat>)
  {
    forall i, j :: 0 <= i < j < |s| ==> s[i] != s[j]
  }

  /** What an enemy keeps through every hit: identity, place, size and prize. */
  predicate SameBody(a: Enemy, b: Enemy)
  {
    a.id == b.id && a.x == b.x && a.y == b.y && a.radius == b.radius &&
    a.maxHealth == b.maxHealth && a.speed == b.speed &&
    a.xpValue == b.xpValue && a.isElite == b.isElite
  }

  /** `after` is `before` after some hits: bodies kept, health never up,
      and an enemy already marked is never touched again. */
  predicate Evolved(before: seq<Enemy>, after: seq<Enemy>)
  {
    |after| == |before| &&
    forall k :: 0 <= k < |before| ==>
      SameBody(before[k], after[k]) && after[k].health <= before[k].health &&
      (before[k].marked ==> after[k] == before[k])
  }

  /** Hits compose. */
  lemma EvolvedTrans(a: seq<Enemy>, b: seq<Enemy>, c: seq<Enemy>)
    requires Evolved(a, b) && Evolved(b, c)
    ensures Evolved(a, c)
  {
  }

  /** Every enemy at or below zero health is marked. */
  predicate DeadMarked(es: seq<Enemy>)
  {
    forall k :: 0 <= k < |es| ==> es[k].health <= 0.0 ==> es[k].marked
  }

  /** The ids of the enemies at the indices `ks`. */
  function IdsAt(es: seq<Enemy>, ks: seq<nat>): (r: seq<nat>)
    requires forall t :: 0 <= t < |ks| ==> ks[t] < |es|
    ensures |r| == |ks| && forall t :: 0 <= t < |ks| ==> r[t] == es[ks[t]].id
  {
    if ks == [] then [] else [es[ks[0]].id] + IdsAt(es, ks[1..])
  }

  // ---------------------------------------------------------------------
  // One hit

  /** `Enemy.takeDamage(amount)` on the enemy at `k`: health falls and five
      hit particles appear; exactly when health reaches zero or below the
      enemy is marked and `onEnemyDeath` runs, arming the shake, adding the
      explosion and dropping one gem that carries the enemy's value and
      rank. A hit on a live enemy leaves every other enemy alone. */
  function Struck(a: Arena, k: nat, amount: real): (r: Arena)
    requires k < |a.enemies|
    ensures var e := a.enemies[k];
            var died := e.health - amount <= 0.0;
            r.enemies == a.enemies[k := Damaged(e, amount)] &&
            r.enemies[k].health == e.health - amount && SameBody(e, r.enemies[k]) &&
            (r.enemies[k].marked <==> e.marked || died) &&
            (forall j :: 0 <= j < |a.enemies| && j != k ==> r.enemies[j] == a.enemies[j]) &&
            r.gems == a.gems + (if died then [GemOf(e)] else []) &&
            a.particles <= r.particles &&
            |r.particles| == |a.particles| + PARTICLE_COUNT_HIT + (if died then PARTICLE_COUNT_ENEMY_DEATH else 0) &&
            r.shake == (if died then Shake(true, SHAKE_DURATION, SHAKE_INTENSITY, 0.0) else a.shake)
    ensures !a.enemies[k].marked && amount >= 0.0 ==> Evolved(a.enemies, r.enemies)
    ensures DeadMarked(a.enemies) ==> DeadMarked(r.enemies)
  {
    var e := a.enemies[k];
    var hurt := Damaged(e, amount);
    var flashed := a.particles + Burst(e.x, e.y, PARTICLE_COUNT_HIT, 0.05);
    if hurt.health <= 0.0 then
      Arena(a.enemies[k := hurt], a.gems + [GemOf(e)],
            flashed + Burst(e.x, e.y, PARTICLE_COUNT_ENEMY_DEATH, PARTICLE_LIFETIME_BASE),
            Shake(true, SHAKE_DURATION, SHAKE_INTENSITY, 0.0))
    else
      Arena(a.enemies[k := hurt], a.gems, flashed, a.shake)
  }

  // ---------------------------------------------------------------------
  // Every enemy struck once

  /** Every enemy of `es` struck once by `amount`, as Nova does. */
  function AllStruck(es: seq<Enemy>, amount: real): (r: seq<Enemy>)
    ensures |r| == |es| && forall k :: 0 <= k < |es| ==> r[k] == Damaged(es[k], amount)
  {
    seq(|es|, k requires 0 <= k < |es| => Damaged(es[k], amount))
  }

  /** The gems dropped when every enemy of `es` takes `amount`, in order. */
  function DeathGems(es: seq<Enemy>, amount: real): seq<Gem>
  {
    if es == [] then []
    else DeathGems(es[..|es| - 1], amount) +
         (if es[|es| - 1].health - amount <= 0.0 then [GemOf(es[|es| - 1])] else [])
  }

  function Deaths(es: seq<Enemy>, amount: real): nat
  {
    if es == [] then 0
    else Deaths(es[..|es| - 1], amount) + (if es[|es| - 1].health - amount <= 0.0 then 1 else 0)
  }

  /** The arena after the enemies at indices below `n` are struck once
      each by `amount`, in list order. */
  function StruckEach(a: Arena, n: nat, amount: real): (r: Arena)
    requires n <= |a.enemies|
    ensures |r.enemies| == |a.enemies|
    decreases n
  {
    if n == 0 then a else Struck(StruckEach(a, n - 1, amount), n - 1, amount)
  }

  /** Those hits land on the first `n` enemies, once each, and on no other. */
  lemma {:induction false} StruckEachEnemies(a: Arena, n: nat, amount: real)
    requires n <= |a.enemies|
    ensures var r := StruckEach(a, n, amount);
            r.enemies[..n] == AllStruck(a.enemies[..n], amount) && r.enemies[n..] == a.enemies[n..]
    decreases n
  {
    if n > 0 {
      StruckEachEnemies(a, n - 1, amount);
      var r := StruckEach(a, n, amount);
      var q := StruckEach(a, n - 1, amount);
      assert r.enemies == q.enemies[n - 1 := Damaged(q.enemies[n - 1], amount)];
      assert q.enemies[n - 1] == q.enemies[n - 1..][0] == a.enemies[n - 1];
      assert r.enemies[..n] == q.enemies[..n - 1] + [Damaged(a.enemies[n - 1], amount)];
      assert a.enemies[..n] == a.enemies[..n - 1] + [a.enemies[n - 1]];
      assert r.enemies[n..] == q.enemies[n..];
    }
  }

  /** What those hits leave behind: the gems of the enemies they kill, in
      list order; five particles per hit and an explosion per kill; and
      the ordinary shake armed exactly if one of them killed. */
  lemma {:induction false} StruckEachEffects(a: Arena, n: nat, amount: real)
    requires n <= |a.enemies|
    ensures var r := StruckEach(a, n, amount);
            var es := a.enemies[..n];
            r.gems == a.gems + DeathGems(es, amount) &&
            a.particles <= r.particles &&
            |r.particles| == |a.particles| + PARTICLE_COUNT_HIT * n + PARTICLE_COUNT_ENEMY_DEATH * Deaths(es, amount) &&
            r.shake == (if Deaths(es, amount) > 0 then Shake(true, SHAKE_DURATION, SHAKE_INTENSITY, 0.0) else a.shake)
    decreases n
  {
    if n > 0 {
      StruckEachEffects(a, n - 1, amount);
      StruckEachEnemies(a, n - 1, amount);
      var q := StruckEach(a, n - 1, amount);
      assert q.enemies[n - 1] == q.enemies[n - 1..][0] == a.enemies[n - 1];
      assert a.enemies[..n][..n - 1] == a.enemies[..n - 1];
    }
  }

  // ---------------------------------------------------------------------
  // Chain lightning

  /** The indices of the live enemies other than `cur` within 200 of it:
      `potentialTargets`, among the first `n` enemies. */
  function Candidates(es: seq<Enemy>, cur: nat, n: nat): (r: seq<nat>)
    requires cur < |es| && n <= |es|
    ensures forall t :: 0 <= t < |r| ==> r[t] < n
    ensures forall t :: 0 <= t < |r| ==>
      !es[r[t]].marked && r[t] != cur && Within(es[cur].x, es[cur].y, es[r[t]].x, es[r[t]].y, CHAIN_RADIUS)
    ensures forall k :: (0 <= k < n && !es[k].marked && k != cur &&
                         Within(es[cur].x, es[cur].y, es[k].x, es[k].y, CHAIN_RADIUS)) ==> k in r
  {
    if n == 0 then []
    else
      var k := n - 1;
      Candidates(es, cur, k) +
      (if !es[k].marked && k != cur && Within(es[cur].x, es[cur].y, es[k].x, es[k].y, CHAIN_RADIUS)
       then [k] else [])
  }

  /** The enemies after hits of `amount` on the indices `ks`, in order. */
  function StruckAt(es: seq<Enemy>, ks: seq<nat>, amount: real): (r: seq<Enemy>)
    requires forall t :: 0 <= t < |ks| ==> ks[t] < |es|
    ensures |r| == |es|
    decreases |ks|
  {
    if ks == [] then es
    else StruckAt(es[ks[0] := Damaged(es[ks[0]], amount)], ks[1..], amount)
  }

  /** The gems those hits drop: one per hit that takes its enemy to zero. */
  function StruckGems(es: seq<Enemy>, ks: seq<nat>, amount: real): seq<Gem>
    requires forall t :: 0 <= t < |ks| ==> ks[t] < |es|
    decreases |ks|
  {
    if ks == [] then []
    else
      var e := es[ks[0]];
      (if e.health - amount <= 0.0 then [GemOf(e)] else []) +
      StruckGems(es[ks[0] := Damaged(e, amount)], ks[1..], amount)
  }

  /** The gem list `gs` after those hits: the same drops, appended one at
      a time as the hits happen. */
  function Dropped(gs: seq<Gem>, es: seq<Enemy>, ks: seq<nat>, amount: real): seq<Gem>
    requires forall t :: 0 <= t < |ks| ==> ks[t] < |es|
    decreases |ks|
  {
    if ks == [] then gs
    else
      var e := es[ks[0]];
      Dropped(gs + (if e.health - amount <= 0.0 then [GemOf(e)] else []),
              es[ks[0] := Damaged(e, amount)], ks[1..], amount)
  }

  /** Appending the drops one at a time adds them all, in order. */
  lemma {:induction false} DroppedAppends(gs: seq<Gem>, es: seq<Enemy>, ks: seq<nat>, amount: real)
    requires forall t :: 0 <= t < |ks| ==> ks[t] < |es|
    decreases |ks|
    ensures Dropped(gs, es, ks, amount) == gs + StruckGems(es, ks, amount)
  {
    if ks != [] {
      var e := es[ks[0]];
      var drop := if e.health - amount <= 0.0 then [GemOf(e)] else [];
      var es' := es[ks[0] := Damaged(e, amount)];
      DroppedAppends(gs + drop, es', ks[1..], amount);
      assert gs + drop + StruckGems(es', ks[1..], amount) == gs + (drop + StruckGems(es', ks[1..], amount));
    }
  }

  /** The damage of one chain hop: `projectileDamage * 0.7`. */
  function ChainDamage(p: Player): real
  {
    (p.projectileDamage as real) * CHAIN_DAMAGE_FACTOR
  }

  /** The targets `triggerChainLightning` strikes, hop `i` onwards, when the
      current target is the enemy at `cur`: while hops remain and some live
      enemy other than the current target stands within 200 of it, the one
      `pick(i)` draws is struck and becomes the current target. */
  function ChainHops(es: seq<Enemy>, cur: nat, pick: nat -> Unit, amount: real, i: nat): (r: seq<nat>)
    requires cur < |es|
    decreases if i < CHAIN_HOPS then CHAIN_HOPS - i else 0
    ensures forall t :: 0 <= t < |r| ==> r[t] < |es|
  {
    if i >= CHAIN_HOPS then []
    else
      var ts := Candidates(es, cur, |es|);
      if ts == [] then []
      else
        var next := ts[Pick(pick(i), |ts|)];
        [next] + ChainHops(es[next := Damaged(es[next], amount)], next, pick, amount, i + 1)
  }

  /** The target a hop leaves: `cur` for the first hop of `r`, the hop
      before it for each later one. */
  function Leaves(r: seq<nat>, cur: nat, t: nat): nat
    requires t <= |r|
  {
    if t == 0 then cur else r[t - 1]
  }

  /** A chain makes at most two hops, none exactly when nothing qualifies
      at the start, and it stops early only at a hop whose target, as the
      enemies stand after the hops so far, has no candidate left. */
  lemma ChainLength(es: seq<Enemy>, cur: nat, pick: nat -> Unit, amount: real, i: nat)
    requires cur < |es|
    ensures var r := ChainHops(es, cur, pick, amount, i);
            |r| <= (if i < CHAIN_HOPS then CHAIN_HOPS - i else 0) &&
            (i < CHAIN_HOPS ==> (r == [] <==> Candidates(es, cur, |es|) == [])) &&
            (i + |r| < CHAIN_HOPS ==>
               Candidates(StruckAt(es, r, amount), Leaves(r, cur, |r|), |es|) == [])
  {
    ChainBound(es, cur, pick, amount, i);
    ChainStops(es, cur, pick, amount, i);
  }

  /** At most two hops, and none exactly when nothing qualifies. */
  lemma {:induction false} ChainBound(es: seq<Enemy>, cur: nat, pick: nat -> Unit, amount: real, i: nat)
    requires cur < |es|
    decreases if i < CHAIN_HOPS then CHAIN_HOPS - i else 0
    ensures var r := ChainHops(es, cur, pick, amount, i);
            |r| <= (if i < CHAIN_HOPS then CHAIN_HOPS - i else 0) &&
            (i < CHAIN_HOPS ==> (r == [] <==> Candidates(es, cur, |es|) == []))
  {
    if i < CHAIN_HOPS {
      var ts := Candidates(es, cur, |es|);
      if ts != [] {
        var k := ts[Pick(pick(i), |ts|)];
        ChainBound(es[k := Damaged(es[k], amount)], k, pick, amount, i + 1);
      }
    }
  }

  /** A chain cut short ends at a target with no candidate left. */
  lemma {:induction false} ChainStops(es: seq<Enemy>, cur: nat, pick: nat -> Unit, amount: real, i: nat)
    requires cur < |es|
    decreases if i < CHAIN_HOPS then CHAIN_HOPS - i else 0
    ensures var r := ChainHops(es, cur, pick, amount, i);
            i + |r| < CHAIN_HOPS ==> Candidates(StruckAt(es, r, amount), Leaves(r, cur, |r|), |es|) == []
  {
    if i < CHAIN_HOPS {
      var ts := Candidates(es, cur, |es|);
      if ts != [] {
        var k := ts[Pick(pick(i), |ts|)];
        var es' := es[k := Damaged(es[k], amount)];
        ChainStops(es', k, pick, amount, i + 1);
        var rest := ChainHops(es', k, pick, amount, i + 1);
        var r := ChainHops(es, cur, pick, amount, i);
        assert r == [k] + rest;
        assert r[1..] == rest;
        assert StruckAt(es, r, amount) == StruckAt(es', rest, amount);
        assert Leaves(r, cur, |r|) == Leaves(rest, k, |rest|);
      }
    }
  }

  /** Every hop goes to a live enemy other than the target it leaves and
      within 200 of it, as the enemies stand after the hops before it: the
      first from `cur`, each later one from the hop before it. */
  lemma {:induction false} ChainTargets(es: seq<Enemy>, cur: nat, pick: nat -> Unit, amount: real, i: nat)
    requires cur < |es|
    decreases if i < CHAIN_HOPS then CHAIN_HOPS - i else 0
    ensures var r := ChainHops(es, cur, pick, amount, i);
            forall t :: 0 <= t < |r| ==>
              r[t] in Candidates(StruckAt(es, r[..t], amount), Leaves(r, cur, t), |es|)
  {
    if i < CHAIN_HOPS {
      var ts := Candidates(es, cur, |es|);
      if ts != [] {
        var k := ts[Pick(pick(i), |ts|)];
        var es' := es[k := Damaged(es[k], amount)];
        ChainTargets(es', k, pick, amount, i + 1);
        var rest := ChainHops(es', k, pick, amount, i + 1);
        var r := ChainHops(es, cur, pick, amount, i);
        assert r == [k] + rest;
        forall t | 0 <= t < |r|
          ensures r[t] in Candidates(StruckAt(es, r[..t], amount), Leaves(r, cur, t), |es|)
        {
          if t == 0 {
            assert r[..0] == [];
          } else {
            assert r[t] == rest[t - 1];
            assert r[..t][1..] == rest[..t - 1];
            assert StruckAt(es, r[..t], amount) == StruckAt(es', rest[..t - 1], amount);
            assert Leaves(r, cur, t) == Leaves(rest, k, t - 1);
          }
        }
      }
    }
  }

  /** The arena after the chain, hop `i` onwards: each hop is a `Struck`
      with the chain damage, then the eleven lightning particles drawn from
      the target it leaves. */
  function Chained(a: Arena, cur: nat, pick: nat -> Unit, amount: real, i: nat): (r: Arena)
    requires cur < |a.enemies|
    decreases if i < CHAIN_HOPS then CHAIN_HOPS - i else 0
    ensures |r.enemies| == |a.enemies|
  {
    if i >= CHAIN_HOPS then a
    else
      var ts := Candidates(a.enemies, cur, |a.enemies|);
      if ts == [] then a
      else
        var next := ts[Pick(pick(i), |ts|)];
        var from := a.enemies[cur];
        var b := Struck(a, next, amount);
        Chained(b.(particles := b.particles + Burst(from.x, from.y, LIGHTNING_PARTICLES, 0.1)),
                next, pick, amount, i + 1)
  }

  /** What a chain does to the enemies: exactly the hits of `ChainHops`,
      each with the chain damage. Without negative damage it only ever
      lowers the health of live enemies, and it marks every enemy it takes
      to zero. */
  lemma {:induction false} ChainStrikes(a: Arena, cur: nat, pick: nat -> Unit, amount: real, i: nat)
    requires cur < |a.enemies|
    decreases if i < CHAIN_HOPS then CHAIN_HOPS - i else 0
    ensures var r := Chained(a, cur, pick, amount, i);
            r.enemies == StruckAt(a.enemies, ChainHops(a.enemies, cur, pick, amount, i), amount) &&
            (amount >= 0.0 ==> Evolved(a.enemies, r.enemies)) &&
            (DeadMarked(a.enemies) ==> DeadMarked(r.enemies))
  {
    if i < CHAIN_HOPS {
      var ts := Candidates(a.enemies, cur, |a.enemies|);
      if ts != [] {
        var next := ts[Pick(pick(i), |ts|)];
        var from := a.enemies[cur];
        var b := Struck(a, next, amount);
        var b' := b.(particles := b.particles + Burst(from.x, from.y, LIGHTNING_PARTICLES, 0.1));
        ChainStrikes(b', next, pick, amount, i + 1);
        var hops := ChainHops(a.enemies, cur, pick, amount, i);
        assert hops[0] == next && hops[1..] == ChainHops(b'.enemies, next, pick, amount, i + 1);
        if amount >= 0.0 {
          EvolvedTrans(a.enemies, b'.enemies, Chained(b', next, pick, amount, i + 1).enemies);
        }
      }
    }
  }

  /** The gems a chain leaves: one per kill, in hop order. */
  lemma ChainGems(a: Arena, cur: nat, pick: nat -> Unit, amount: real, i: nat)
    requires cur < |a.enemies|
    ensures var hops := ChainHops(a.enemies, cur, pick, amount, i);
            var r := Chained(a, cur, pick, amount, i);
            r.gems == a.gems + StruckGems(a.enemies, hops, amount)
  {
    var hops := ChainHops(a.enemies, cur, pick, amount, i);
    ChainDrops(a, cur, pick, amount, i);
    DroppedAppends(a.gems, a.enemies, hops, amount);
  }

  /** The same, with the drops appended hop by hop. */
  lemma {:induction false} ChainDrops(a: Arena, cur: nat, pick: nat -> Unit, amount: real, i: nat)
    requires cur < |a.enemies|
    decreases if i < CHAIN_HOPS then CHAIN_HOPS - i else 0
    ensures var hops := ChainHops(a.enemies, cur, pick, amount, i);
            Chained(a, cur, pick, amount, i).gems == Dropped(a.gems, a.enemies, hops, amount)
  {
    if i < CHAIN_HOPS {
      var ts := Candidates(a.enemies, cur, |a.enemies|);
      if ts != [] {
        var next := ts[Pick(pick(i), |ts|)];
        var from := a.enemies[cur];
        var b := Struck(a, next, amount);
        var b' := b.(particles := b.particles + Burst(from.x, from.y, LIGHTNING_PARTICLES, 0.1));
        ChainDrops(b', next, pick, amount, i + 1);
        var hops := ChainHops(a.enemies, cur, pick, amount, i);
        assert hops[0] == next && hops[1..] == ChainHops(b'.enemies, next, pick, amount, i + 1);
        assert b'.enemies == a.enemies[next := Damaged(a.enemies[next], amount)];
      }
    }
  }

  /** The shake after a chain: armed afresh exactly if it killed. */
  lemma {:induction false} ChainShake(a: Arena, cur: nat, pick: nat -> Unit, amount: real, i: nat)
    requires cur < |a.enemies|
    decreases if i < CHAIN_HOPS then CHAIN_HOPS - i else 0
    ensures var hops := ChainHops(a.enemies, cur, pick, amount, i);
            var r := Chained(a, cur, pick, amount, i);
            var kills := StruckGems(a.enemies, hops, amount);
            r.shake == (if |kills| > 0 then Shake(true, SHAKE_DURATION, SHAKE_INTENSITY, 0.0) else a.shake)
  {
    if i < CHAIN_HOPS {
      var ts := Candidates(a.enemies, cur, |a.enemies|);
      if ts != [] {
        var next := ts[Pick(pick(i), |ts|)];
        var from := a.enemies[cur];
        var b := Struck(a, next, amount);
        var b' := b.(particles := b.particles + Burst(from.x, from.y, LIGHTNING_PARTICLES, 0.1));
        ChainShake(b', next, pick, amount, i + 1);
        var hops := ChainHops(a.enemies, cur, pick, amount, i);
        var rest := ChainHops(b'.enemies, next, pick, amount, i + 1);
        assert hops[0] == next && hops[1..] == rest;
        var e := a.enemies[next];
        assert b'.enemies == a.enemies[next := Damaged(e, amount)];
        assert |StruckGems(a.enemies, hops, amount)| ==
               (if e.health - amount <= 0.0 then 1 else 0) + |StruckGems(b'.enemies, rest, amount)|;
      }
    }
  }

  /** The particles a chain leaves: five hit and eleven lightning particles
      per hop plus an explosion per kill, after all that was there. */
  lemma ChainParticles(a: Arena, cur: nat, pick: nat -> Unit, amount: real, i: nat)
    requires cur < |a.enemies|
    ensures var hops := ChainHops(a.enemies, cur, pick, amount, i);
            var r := Chained(a, cur, pick, amount, i);
            a.particles <= r.particles &&
            |r.particles| == |a.particles| + (PARTICLE_COUNT_HIT + LIGHTNING_PARTICLES) * |hops| +
                             PARTICLE_COUNT_ENEMY_DEATH * |StruckGems(a.enemies, hops, amount)|
  {
    ChainParticlesKept(a, cur, pick, amount, i);
    ChainParticleCount(a, cur, pick, amount, i);
  }

  /** A chain only appends particles. */
  lemma {:induction false} ChainParticlesKept(a: Arena, cur: nat, pick: nat -> Unit, amount: real, i: nat)
    requires cur < |a.enemies|
    decreases if i < CHAIN_HOPS then CHAIN_HOPS - i else 0
    ensures a.particles <= Chained(a, cur, pick, amount, i).particles
  {
    if i < CHAIN_HOPS {
      var ts := Candidates(a.enemies, cur, |a.enemies|);
      if ts != [] {
        var next := ts[Pick(pick(i), |ts|)];
        var from := a.enemies[cur];
        var b := Struck(a, next, amount);
        var b' := b.(particles := b.particles + Burst(from.x, from.y, LIGHTNING_PARTICLES, 0.1));
        ChainParticlesKept(b', next, pick, amount, i + 1);
        assert a.particles <= b'.particles;
      }
    }
  }

  /** How many particles a chain appends: sixteen per hop and an
      explosion per kill. */
  lemma {:induction false} ChainParticleCount(a: Arena, cur: nat, pick: nat -> Unit, amount: real, i: nat)
    requires cur < |a.enemies|
    decreases if i < CHAIN_HOPS then CHAIN_HOPS - i else 0
    ensures var hops := ChainHops(a.enemies, cur, pick, amount, i);
            |Chained(a, cur, pick, amount, i).particles| ==
              |a.particles| + (PARTICLE_COUNT_HIT + LIGHTNING_PARTICLES) * |hops| +
              PARTICLE_COUNT_ENEMY_DEATH * |StruckGems(a.enemies, hops, amount)|
  {
    if i < CHAIN_HOPS {
      var ts := Candidates(a.enemies, cur, |a.enemies|);
      if ts != [] {
        var next := ts[Pick(pick(i), |ts|)];
        var from := a.enemies[cur];
        var b := Struck(a, next, amount);
        var b' := b.(particles := b.particles + Burst(from.x, from.y, LIGHTNING_PARTICLES, 0.1));
        var hops := ChainHops(a.enemies, cur, pick, amount, i);
        var rest := ChainHops(b'.enemies, next, pick, amount, i + 1);
        var e := a.enemies[next];
        var died := if e.health - amount <= 0.0 then 1 else 0;
        assert hops == [next] + rest;
        assert b'.enemies == a.enemies[next := Damaged(e, amount)];
        assert |b'.particles| == |a.particles| + PARTICLE_COUNT_HIT + LIGHTNING_PARTICLES + PARTICLE_COUNT_ENEMY_DEATH * died;
        ChainGemCount(a.enemies, hops, amount);
        ChainParticleCount(b', next, pick, amount, i + 1);
      }
    }
  }

  /** One hit's share of the drops: a gem exactly if it kills. */
  lemma ChainGemCount(es: seq<Enemy>, ks: seq<nat>, amount: real)
    requires forall t :: 0 <= t < |ks| ==> ks[t] < |es|
    requires ks != []
    ensures |StruckGems(es, ks, amount)| ==
            (if es[ks[0]].health - amount <= 0.0 then 1 else 0) +
            |StruckGems(es[ks[0] := Damaged(es[ks[0]], amount)], ks[1..], amount)|
  {
  }

  /** `triggerChainLightning(enemy)` for the enemy at `first`, struck by a
      projectile a moment ago: the `for` loop of at most two hops. */
  method ChainLightning(a: Arena, first: nat, pick: nat -> Unit, amount: real) returns (r: Arena)
    requires first < |a.enemies|
    ensures r == Chained(a, first, pick, amount, 0)
  {
    r := a;
    var cur: nat := first;
    for i := 0 to CHAIN_HOPS
      invariant cur < |r.enemies|
      invariant Chained(r, cur, pick, amount, i) == Chained(a, first, pick, amount, 0)
    {
      var targets := Candidates(r.enemies, cur, |r.enemies|);
      if targets == [] {
        break;
      }
      var next := targets[Pick(pick(i), |targets|)];
      var from := r.enemies[cur];
      r := Struck(r, next, amount);
      r := r.(particles := r.particles + Burst(from.x, from.y, LIGHTNING_PARTICLES, 0.1));
      cur := next;
    }
  }

  // ---------------------------------------------------------------------
  // One projectile against the enemy list

  /** The arena `b` has grown out of `a` by hits: the enemies evolved,
      every enemy at zero marked if it was so before, and gems and
      particles only added. */
  predicate Grown(a: Arena, b: Arena)
  {
    Evolved(a.enemies, b.enemies) && (DeadMarked(a.enemies) ==> DeadMarked(b.enemies)) &&
    a.gems <= b.gems && a.particles <= b.particles
  }

  lemma GrownTrans(a: Arena, b: Arena, c: Arena)
    requires Grown(a, b) && Grown(b, c)
    ensures Grown(a, c)
  {
    EvolvedTrans(a.enemies, b.enemies, c.enemies);
  }

  /** A projectile strikes the enemy at `j` for `damage` and, if the roll
      fires, a chain of `chainAmount` starts from it. */
  function Hit(a: Arena, j: nat, damage: real, fires: bool, pick: nat -> Unit, chainAmount: real): (r: Arena)
    requires j < |a.enemies|
    ensures |r.enemies| == |a.enemies|
  {
    var b := Struck(a, j, damage);
    if fires then Chained(b, j, pick, chainAmount, 0) else b
  }

  /** A hit on a live enemy, without negative damage, only grows the arena. */
  lemma HitGrows(a: Arena, j: nat, damage: real, fires: bool, pick: nat -> Unit, chainAmount: real)
    requires j < |a.enemies| && !a.enemies[j].marked && damage >= 0.0 && chainAmount >= 0.0
    ensures Grown(a, Hit(a, j, damage, fires, pick, chainAmount))
  {
    var b := Struck(a, j, damage);
    assert Grown(a, b);
    if fires {
      ChainStrikes(b, j, pick, chainAmount, 0);
      ChainGems(b, j, pick, chainAmount, 0);
      ChainParticles(b, j, pick, chainAmount, 0);
      GrownTrans(a, b, Chained(b, j, pick, chainAmount, 0));
    }
  }

  /** The test of the inner loop: a live enemy this projectile has not
      struck before, strictly overlapping it. */
  predicate Strikes(q: Projectile, e: Enemy)
  {
    !e.marked && e.id !in q.hits && HitTest(q, e)
  }

  /** A projectile's pass over the enemies: the arena after it, the
      projectile after it, and the indices of the enemies it struck. */
  datatype Sweep = Sweep(arena: Arena, shot: Projectile, hit: seq<nat>)

  /** The inner `this.enemies.forEach` of `handleCollisions` for the player
      projectile `q`, from enemy `j` on. An enemy is struck when it is live,
      not yet in the projectile's hit list, and strictly overlapping; then
      it enters the hit list, the projectile loses one pierce or, with none
      left, is marked (the pass goes on regardless), and with probability
      `chance` percent (`roll(j)`) a chain of `chainAmount` starts from it.
      `Math.random()` arrives as `roll` and `pick`. */
  function Swept(a: Arena, q: Projectile, j: nat, chance: int, chainAmount: real,
                 roll: nat -> Unit, pick: nat -> nat -> Unit): (r: Sweep)
    requires j <= |a.enemies|
    ensures |r.arena.enemies| == |a.enemies|
    decreases |a.enemies| - j
  {
    if j == |a.enemies| then Sweep(a, q, [])
    else
      var e := a.enemies[j];
      if Strikes(q, e) then
        var c := Hit(a, j, q.damage as real, ChainFires(chance, roll(j)), pick(j), chainAmount);
        var rest := Swept(c, AfterHit(q, e.id), j + 1, chance, chainAmount, roll, pick);
        Sweep(rest.arena, rest.shot, [j] + rest.hit)
      else
        Swept(a, q, j + 1, chance, chainAmount, roll, pick)
  }

  /** One turn of the pass, on the enemy at `j`: what is left of the pass
      afterwards is `Swept` from `j + 1` on the new arena and projectile. */
  method SweepStep(a: Arena, q: Projectile, j: nat, chance: int, chainAmount: real,
                   roll: nat -> Unit, pick: nat -> nat -> Unit)
    returns (b: Arena, p: Projectile, took: seq<nat>)
    requires j < |a.enemies|
    ensures |b.enemies| == |a.enemies|
    ensures var s := Swept(b, p, j + 1, chance, chainAmount, roll, pick);
            Swept(a, q, j, chance, chainAmount, roll, pick) == Sweep(s.arena, s.shot, took + s.hit)
  {
    var e := a.enemies[j];
    b, p, took := a, q, [];
    if Strikes(q, e) {
      b := Struck(a, j, q.damage as real);
      if ChainFires(chance, roll(j)) {
        b := ChainLightning(b, j, pick(j), chainAmount);
      }
      p, took := AfterHit(q, e.id), [j];
    } else {
      assert took + Swept(b, p, j + 1, chance, chainAmount, roll, pick).hit ==
             Swept(b, p, j + 1, chance, chainAmount, roll, pick).hit;
    }
  }

  /** The pass as the source runs it: one loop turn per enemy. */
  method ResolveShot(a: Arena, q: Projectile, chance: int, chainAmount: real,
                     roll: nat -> Unit, pick: nat -> nat -> Unit) returns (r: Sweep)
    ensures r == Swept(a, q, 0, chance, chainAmount, roll, pick)
  {
    var arena := a;
    var shot := q;
    var hit: seq<nat> := [];
    for j := 0 to |a.enemies|
      invariant |arena.enemies| == |a.enemies|
      invariant var s := Swept(arena, shot, j, chance, chainAmount, roll, pick);
                Swept(a, q, 0, chance, chainAmount, roll, pick) == Sweep(s.arena, s.shot, hit + s.hit)
    {
      var took;
      ghost var h := hit;
      arena, shot, took := SweepStep(arena, shot, j, chance, chainAmount, roll, pick);
      hit := hit + took;
      ghost var s := Swept(arena, shot, j + 1, chance, chainAmount, roll, pick);
      assert h + (took + s.hit) == hit + s.hit;
    }
    assert hit + [] == hit;
    r := Sweep(arena, shot, hit);
  }

  /** What the pass keeps of the arena: the chain and the projectile hits
      only lower the health of live enemies, mark every enemy they take
      to zero, and add gems and particles without removing any. */
  lemma {:induction false} SweptGrows(a: Arena, q: Projectile, j: nat, chance: int, chainAmount: real,
                                      roll: nat -> Unit, pick: nat -> nat -> Unit)
    requires j <= |a.enemies| && q.damage >= 0 && chainAmount >= 0.0
    ensures Grown(a, Swept(a, q, j, chance, chainAmount, roll, pick).arena)
    decreases |a.enemies| - j
  {
    if j == |a.enemies| {
      assert Grown(a, a);
    } else {
      var e := a.enemies[j];
      if Strikes(q, e) {
        var c := Hit(a, j, q.damage as real, ChainFires(chance, roll(j)), pick(j), chainAmount);
        HitGrows(a, j, q.damage as real, ChainFires(chance, roll(j)), pick(j), chainAmount);
        SweptGrows(c, AfterHit(q, e.id), j + 1, chance, chainAmount, roll, pick);
        GrownTrans(a, c, Swept(c, AfterHit(q, e.id), j + 1, chance, chainAmount, roll, pick).arena);
      } else {
        SweptGrows(a, q, j + 1, chance, chainAmount, roll, pick);
      }
    }
  }

  /** Hits keep identities, so the ids at given indices stay the same. */
  lemma IdsAtEvolved(es: seq<Enemy>, fs: seq<Enemy>, ks: seq<nat>)
    requires Evolved(es, fs) && forall t :: 0 <= t < |ks| ==> ks[t] < |es|
    ensures IdsAt(es, ks) == IdsAt(fs, ks)
  {
  }

  /** The hit list is in list order, strictly increasing, from `j` on. */
  lemma {:induction false} SweptOrder(a: Arena, q: Projectile, j: nat, chance: int, chainAmount: real,
                                      roll: nat -> Unit, pick: nat -> nat -> Unit)
    requires j <= |a.enemies|
    ensures var r := Swept(a, q, j, chance, chainAmount, roll, pick);
            (forall t :: 0 <= t < |r.hit| ==> j <= r.hit[t] < |a.enemies|) &&
            (forall s, t :: 0 <= s < t < |r.hit| ==> r.hit[s] < r.hit[t])
    decreases |a.enemies| - j
  {
    if j < |a.enemies| {
      var e := a.enemies[j];
      if Strikes(q, e) {
        var c := Hit(a, j, q.damage as real, ChainFires(chance, roll(j)), pick(j), chainAmount);
        var k := j + 1;
        SweptOrder(c, AfterHit(q, e.id), k, chance, chainAmount, roll, pick);
        var rest := Swept(c, AfterHit(q, e.id), k, chance, chainAmount, roll, pick);
        assert var r := Swept(c, AfterHit(q, e.id), k, chance, chainAmount, roll, pick);
               forall t :: 0 <= t < |r.hit| ==> k <= r.hit[t] < |c.enemies|;
        var hit := [j] + rest.hit;
        assert Swept(a, q, j, chance, chainAmount, roll, pick).hit == hit;
        assert forall t :: 0 < t < |hit| ==> hit[t] == rest.hit[t - 1];
      } else {
        var k := j + 1;
        SweptOrder(a, q, k, chance, chainAmount, roll, pick);
        assert var r := Swept(a, q, k, chance, chainAmount, roll, pick);
               (forall t :: 0 <= t < |r.hit| ==> k <= r.hit[t] < |a.enemies|) &&
               Swept(a, q, j, chance, chainAmount, roll, pick) == r;
      }
    }
  }

  /** The projectile after the pass is the projectile after hits on the
      enemies of the hit list, in order. */
  lemma {:induction false} SweptShot(a: Arena, q: Projectile, j: nat, chance: int, chainAmount: real,
                                     roll: nat -> Unit, pick: nat -> nat -> Unit)
    requires j <= |a.enemies| && q.damage >= 0 && chainAmount >= 0.0
    ensures var r := Swept(a, q, j, chance, chainAmount, roll, pick);
            (forall t :: 0 <= t < |r.hit| ==> r.hit[t] < |a.enemies|) &&
            r.shot == AfterHits(q, IdsAt(a.enemies, r.hit))
    decreases |a.enemies| - j, 1
  {
    if j < |a.enemies| {
      if Strikes(q, a.enemies[j]) {
        SweptShotStrike(a, q, j, chance, chainAmount, roll, pick);
      } else {
        SweptShot(a, q, j + 1, chance, chainAmount, roll, pick);
        assert Swept(a, q, j, chance, chainAmount, roll, pick) == Swept(a, q, j + 1, chance, chainAmount, roll, pick);
      }
    }
  }

  /** The step of `SweptShot` at an enemy the projectile strikes. */
  lemma {:induction false} SweptShotStrike(a: Arena, q: Projectile, j: nat, chance: int, chainAmount: real,
                                           roll: nat -> Unit, pick: nat -> nat -> Unit)
    requires j < |a.enemies| && q.damage >= 0 && chainAmount >= 0.0 && Strikes(q, a.enemies[j])
    ensures var r := Swept(a, q, j, chance, chainAmount, roll, pick);
            (forall t :: 0 <= t < |r.hit| ==> r.hit[t] < |a.enemies|) &&
            r.shot == AfterHits(q, IdsAt(a.enemies, r.hit))
    decreases |a.enemies| - j, 0
  {
    var e := a.enemies[j];
    var c := Hit(a, j, q.damage as real, ChainFires(chance, roll(j)), pick(j), chainAmount);
    var q' := AfterHit(q, e.id);
    HitGrows(a, j, q.damage as real, ChainFires(chance, roll(j)), pick(j), chainAmount);
    SweptShot(c, q', j + 1, chance, chainAmount, roll, pick);
    assert var r := Swept(c, q', j + 1, chance, chainAmount, roll, pick);
           (forall t :: 0 <= t < |r.hit| ==> r.hit[t] < |c.enemies|) &&
           r.shot == AfterHits(q', IdsAt(c.enemies, r.hit));
    var rest := Swept(c, q', j + 1, chance, chainAmount, roll, pick);
    IdsAtEvolved(a.enemies, c.enemies, rest.hit);
    AfterHitsCons(q, e.id, IdsAt(a.enemies, rest.hit));
    var hit := [j] + rest.hit;
    assert Swept(a, q, j, chance, chainAmount, roll, pick) == Sweep(rest.arena, rest.shot, hit);
    assert hit[1..] == rest.hit;
    assert forall t :: 0 <= t < |hit| ==> hit[t] < |a.enemies| by {
      forall t | 0 <= t < |hit| ensures hit[t] < |a.enemies| {
        if t > 0 { assert hit[t] == rest.hit[t - 1]; }
      }
    }
    assert IdsAt(a.enemies, hit) == [e.id] + IdsAt(a.enemies, rest.hit);
  }

  /** An enemy that a projectile strikes after hits was already open to
      it before them: hits never unmark an enemy, move it, or shorten the
      projectile's hit list. */
  lemma StrikesEarlier(q: Projectile, id: nat, e: Enemy, f: Enemy)
    requires SameBody(e, f) && (e.marked ==> f == e)
    ensures Strikes(AfterHit(q, id), f) ==> Strikes(q, e)
  {
  }

  /** A hit list headed by an enemy the projectile strikes, followed by
      enemies it strikes after that hit, names only enemies it struck
      before. */
  lemma HitListSound(es: seq<Enemy>, fs: seq<Enemy>, q: Projectile, j: nat, rest: seq<nat>)
    requires j < |es| && Strikes(q, es[j]) && Evolved(es, fs)
    requires forall t :: 0 <= t < |rest| ==> rest[t] < |fs| && Strikes(AfterHit(q, es[j].id), fs[rest[t]])
    ensures var hit := [j] + rest;
            forall t :: 0 <= t < |hit| ==> hit[t] < |es| && Strikes(q, es[hit[t]])
  {
    var hit := [j] + rest;
    forall t | 0 <= t < |hit|
      ensures hit[t] < |es| && Strikes(q, es[hit[t]])
    {
      if t > 0 {
        var x := rest[t - 1];
        StrikesEarlier(q, es[j].id, es[x], fs[x]);
      }
    }
  }

  /** Every enemy on the hit list was, when the pass began, one the
      projectile strikes: live, not hit by it before, and overlapping. */
  lemma {:induction false} SweptSound(a: Arena, q: Projectile, j: nat, chance: int, chainAmount: real,
                                      roll: nat -> Unit, pick: nat -> nat -> Unit)
    requires j <= |a.enemies| && q.damage >= 0 && chainAmount >= 0.0
    ensures var r := Swept(a, q, j, chance, chainAmount, roll, pick);
            forall t :: 0 <= t < |r.hit| ==> r.hit[t] < |a.enemies| && Strikes(q, a.enemies[r.hit[t]])
    decreases |a.enemies| - j
  {
    if j < |a.enemies| {
      var e := a.enemies[j];
      var k := j + 1;
      if Strikes(q, e) {
        var c := Hit(a, j, q.damage as real, ChainFires(chance, roll(j)), pick(j), chainAmount);
        HitGrows(a, j, q.damage as real, ChainFires(chance, roll(j)), pick(j), chainAmount);
        SweptSound(c, AfterHit(q, e.id), k, chance, chainAmount, roll, pick);
        assert var r := Swept(c, AfterHit(q, e.id), k, chance, chainAmount, roll, pick);
               forall t :: 0 <= t < |r.hit| ==> r.hit[t] < |c.enemies| && Strikes(AfterHit(q, e.id), c.enemies[r.hit[t]]);
        var rest := Swept(c, AfterHit(q, e.id), k, chance, chainAmount, roll, pick);
        assert Swept(a, q, j, chance, chainAmount, roll, pick).hit == [j] + rest.hit;
        HitListSound(a.enemies, c.enemies, q, j, rest.hit);
      } else {
        SweptSound(a, q, k, chance, chainAmount, roll, pick);
        assert var r := Swept(a, q, k, chance, chainAmount, roll, pick);
               (forall t :: 0 <= t < |r.hit| ==> r.hit[t] < |a.enemies| && Strikes(q, a.enemies[r.hit[t]])) &&
               Swept(a, q, j, chance, chainAmount, roll, pick) == r;
      }
    }
  }

  /** An enemy open to a projectile stays open after a hit on another
      enemy, unless that hit has marked it. */
  lemma StrikesLater(q: Projectile, id: nat, e: Enemy, f: Enemy)
    requires SameBody(e, f) && id != e.id && Strikes(q, e)
    ensures f.marked || Strikes(AfterHit(q, id), f)
  {
  }

  /** Hits keep identities, so they keep them distinct. */
  lemma DistinctIdsEvolved(es: seq<Enemy>, fs: seq<Enemy>)
    requires Evolved(es, fs) && DistinctIds(es)
    ensures DistinctIds(fs)
  {
  }

  /** No enemy the projectile strikes is passed over: one that is open to
      it when the pass begins and is not on the hit list ends the pass
      marked, by a chain that reached it first. */
  lemma {:induction false} SweptComplete(a: Arena, q: Projectile, j: nat, chance: int, chainAmount: real,
                                         roll: nat -> Unit, pick: nat -> nat -> Unit)
    requires j <= |a.enemies| && q.damage >= 0 && chainAmount >= 0.0 && DistinctIds(a.enemies)
    ensures var r := Swept(a, q, j, chance, chainAmount, roll, pick);
            forall x :: j <= x < |a.enemies| && Strikes(q, a.enemies[x]) && x !in r.hit ==>
              r.arena.enemies[x].marked
    decreases |a.enemies| - j
  {
    if j < |a.enemies| {
      var e := a.enemies[j];
      var k := j + 1;
      if Strikes(q, e) {
        var c := Hit(a, j, q.damage as real, ChainFires(chance, roll(j)), pick(j), chainAmount);
        var q' := AfterHit(q, e.id);
        HitGrows(a, j, q.damage as real, ChainFires(chance, roll(j)), pick(j), chainAmount);
        DistinctIdsEvolved(a.enemies, c.enemies);
        SweptComplete(c, q', k, chance, chainAmount, roll, pick);
        SweptGrows(c, q', k, chance, chainAmount, roll, pick);
        assert var r := Swept(c, q', k, chance, chainAmount, roll, pick);
               (forall x :: k <= x < |c.enemies| && Strikes(q', c.enemies[x]) && x !in r.hit ==>
                  r.arena.enemies[x].marked) &&
               Grown(c, r.arena);
        var rest := Swept(c, q', k, chance, chainAmount, roll, pick);
        assert Swept(a, q, j, chance, chainAmount, roll, pick) == Sweep(rest.arena, rest.shot, [j] + rest.hit);
        forall x | j <= x < |a.enemies| && Strikes(q, a.enemies[x]) && x !in [j] + rest.hit
          ensures rest.arena.enemies[x].marked
        {
          StrikesLater(q, e.id, a.enemies[x], c.enemies[x]);
        }
      } else {
        SweptComplete(a, q, k, chance, chainAmount, roll, pick);
        assert var r := Swept(a, q, k, chance, chainAmount, roll, pick);
               (forall x :: k <= x < |a.enemies| && Strikes(q, a.enemies[x]) && x !in r.hit ==>
                  r.arena.enemies[x].marked) &&
               Swept(a, q, j, chance, chainAmount, roll, pick) == r;
      }
    }
  }

  /** The pierce book-keeping of a whole pass: the ids of the struck
      enemies are appended to the hit list; each hit spends one pierce,
      and the projectile is marked exactly when it struck more enemies
      than it had pierce. The pass itself does not stop at the mark, so one
      projectile may strike more than `pierce + 1` enemies in a frame. */
  lemma PierceSpent(a: Arena, q: Projectile, chance: int, chainAmount: real,
                    roll: nat -> Unit, pick: nat -> nat -> Unit)
    requires q.damage >= 0 && q.pierce >= 0 && chainAmount >= 0.0
    ensures var r := Swept(a, q, 0, chance, chainAmount, roll, pick);
            (forall t :: 0 <= t < |r.hit| ==> r.hit[t] < |a.enemies|) &&
            r.shot.hits == q.hits + IdsAt(a.enemies, r.hit) &&
            r.shot.pierce == Max0(q.pierce - |r.hit|) &&
            (r.shot.marked <==> q.marked || |r.hit| > q.pierce) &&
            r.shot == q.(hits := r.shot.hits, pierce := r.shot.pierce, marked := r.shot.marked)
  {
    SweptShot(a, q, 0, chance, chainAmount, roll, pick);
    var r := Swept(a, q, 0, chance, chainAmount, roll, pick);
    PierceAccounting(q, IdsAt(a.enemies, r.hit));
  }

  /** A projectile never strikes one enemy twice: its hit list keeps free
      of repeats, since an enemy is struck only while its id is not on it. */
  lemma {:induction false} HitsStayDistinct(a: Arena, q: Projectile, j: nat, chance: int, chainAmount: real,
                                            roll: nat -> Unit, pick: nat -> nat -> Unit)
    requires j <= |a.enemies| && NoDup(q.hits)
    ensures NoDup(Swept(a, q, j, chance, chainAmount, roll, pick).shot.hits)
    decreases |a.enemies| - j
  {
    if j < |a.enemies| {
      var e := a.enemies[j];
      if Strikes(q, e) {
        var c := Hit(a, j, q.damage as real, ChainFires(chance, roll(j)), pick(j), chainAmount);
        assert AfterHit(q, e.id).hits == q.hits + [e.id];
        HitsStayDistinct(c, AfterHit(q, e.id), j + 1, chance, chainAmount, roll, pick);
      } else {
        HitsStayDistinct(a, q, j + 1, chance, chainAmount, roll, pick);
      }
    }
  }

  // ---------------------------------------------------------------------
  // Every player projectile against the enemy list

  /** The arena and the projectile list after the projectile half of
      `handleCollisions`. */
  datatype Battle = Battle(arena: Arena, shots: seq<Projectile>)

  /** A projectile that makes a pass: a player's, not yet marked. */
  predicate Flies(p: Projectile)
  {
    p.fromPlayer && !p.marked
  }

  /** The outer `this.projectiles.forEach`, from projectile `i` on: each
      projectile that flies makes its pass against the arena the earlier
      passes left, with the draws `roll(i)` and `pick(i)` of its own. */
  function Volleyed(a: Arena, ps: seq<Projectile>, i: nat, chance: int, chainAmount: real,
                    roll: nat -> nat -> Unit, pick: nat -> nat -> nat -> Unit): (r: Battle)
    requires i <= |ps|
    ensures |r.shots| == |ps| && |r.arena.enemies| == |a.enemies|
    decreases |ps| - i
  {
    if i == |ps| then Battle(a, ps)
    else if Flies(ps[i]) then
      var s := Swept(a, ps[i], 0, chance, chainAmount, roll(i), pick(i));
      Volleyed(s.arena, ps[i := s.shot], i + 1, chance, chainAmount, roll, pick)
    else
      Volleyed(a, ps, i + 1, chance, chainAmount, roll, pick)
  }

  /** The outer loop as the source runs it. */
  method ResolveShots(a: Arena, ps: seq<Projectile>, chance: int, chainAmount: real,
                      roll: nat -> nat -> Unit, pick: nat -> nat -> nat -> Unit) returns (r: Battle)
    ensures r == Volleyed(a, ps, 0, chance, chainAmount, roll, pick)
  {
    r := Battle(a, ps);
    for i := 0 to |ps|
      invariant |r.shots| == |ps|
      invariant Volleyed(r.arena, r.shots, i, chance, chainAmount, roll, pick) ==
                Volleyed(a, ps, 0, chance, chainAmount, roll, pick)
    {
      if Flies(r.shots[i]) {
        var s := ResolveShot(r.arena, r.shots[i], chance, chainAmount, roll(i), pick(i));
        r := Battle(s.arena, r.shots[i := s.shot]);
      }
    }
  }

  /** What `Game` keeps true of every projectile. */
  predicate ShotOk(p: Projectile)
  {
    p.pierce >= 0 && p.damage >= 0 && NoDup(p.hits)
  }

  /** `q` is `p` after `n` hits, `n` the growth of its hit list: the list
      extended, `n` pierce spent, marked once `n` exceeds the pierce, and
      nothing else changed. */
  predicate ShotAfter(p: Projectile, q: Projectile)
  {
    var n := |q.hits| - |p.hits|;
    p.hits <= q.hits &&
    q == p.(hits := q.hits, pierce := Max0(p.pierce - n), marked := p.marked || n > p.pierce)
  }

  /** One pass leaves a sound projectile sound and after its hits. */
  lemma SweptShotOk(a: Arena, q: Projectile, chance: int, chainAmount: real,
                    roll: nat -> Unit, pick: nat -> nat -> Unit)
    requires ShotOk(q) && chainAmount >= 0.0
    ensures var s := Swept(a, q, 0, chance, chainAmount, roll, pick).shot;
            ShotOk(s) && ShotAfter(q, s)
  {
    PierceSpent(a, q, chance, chainAmount, roll, pick);
    HitsStayDistinct(a, q, 0, chance, chainAmount, roll, pick);
  }

  /** The projectiles after the outer loop: each sound one stays sound;
      those that do not fly, and those before `i`, are untouched, and every
      other one is itself after the hits of its pass. */
  lemma {:induction false} VolleyedShots(a: Arena, ps: seq<Projectile>, i: nat, chance: int, chainAmount: real,
                                         roll: nat -> nat -> Unit, pick: nat -> nat -> nat -> Unit)
    requires i <= |ps| && chainAmount >= 0.0 && forall k :: 0 <= k < |ps| ==> ShotOk(ps[k])
    ensures var r := Volleyed(a, ps, i, chance, chainAmount, roll, pick);
            forall k :: 0 <= k < |ps| ==>
              ShotOk(r.shots[k]) && ShotAfter(ps[k], r.shots[k]) &&
              (k < i || !Flies(ps[k]) ==> r.shots[k] == ps[k])
    decreases |ps| - i
  {
    if i == |ps| {
      forall k | 0 <= k < |ps| ensures ShotAfter(ps[k], ps[k]) {
        assert ps[k].hits[..|ps[k].hits|] == ps[k].hits;
      }
    } else if Flies(ps[i]) {
      var s := Swept(a, ps[i], 0, chance, chainAmount, roll(i), pick(i));
      SweptShotOk(a, ps[i], chance, chainAmount, roll(i), pick(i));
      var ps' := ps[i := s.shot];
      VolleyedShots(s.arena, ps', i + 1, chance, chainAmount, roll, pick);
      assert var r := Volleyed(s.arena, ps', i + 1, chance, chainAmount, roll, pick);
             (forall k :: 0 <= k < |ps'| ==>
                ShotOk(r.shots[k]) && ShotAfter(ps'[k], r.shots[k]) &&
                (k < i + 1 || !Flies(ps'[k]) ==> r.shots[k] == ps'[k])) &&
             Volleyed(a, ps, i, chance, chainAmount, roll, pick) == r;
    } else {
      VolleyedShots(a, ps, i + 1, chance, chainAmount, roll, pick);
      assert var r := Volleyed(a, ps, i + 1, chance, chainAmount, roll, pick);
             (forall k :: 0 <= k < |ps| ==>
                ShotOk(r.shots[k]) && ShotAfter(ps[k], r.shots[k]) &&
                (k < i + 1 || !Flies(ps[k]) ==> r.shots[k] == ps[k])) &&
             Volleyed(a, ps, i, chance, chainAmount, roll, pick) == r;
    }
  }

  /** The outer loop only grows the arena. */
  lemma {:induction false} VolleyedGrows(a: Arena, ps: seq<Projectile>, i: nat, chance: int, chainAmount: real,
                                         roll: nat -> nat -> Unit, pick: nat -> nat -> nat -> Unit)
    requires i <= |ps| && chainAmount >= 0.0 && forall k :: 0 <= k < |ps| ==> ShotOk(ps[k])
    ensures Grown(a, Volleyed(a, ps, i, chance, chainAmount, roll, pick).arena)
    decreases |ps| - i
  {
    if i == |ps| {
      assert Grown(a, a);
    } else if Flies(ps[i]) {
      var s := Swept(a, ps[i], 0, chance, chainAmount, roll(i), pick(i));
      SweptShotOk(a, ps[i], chance, chainAmount, roll(i), pick(i));
      SweptGrows(a, ps[i], 0, chance, chainAmount, roll(i), pick(i));
      var ps' := ps[i := s.shot];
      VolleyedGrows(s.arena, ps', i + 1, chance, chainAmount, roll, pick);
      GrownTrans(a, s.arena, Volleyed(s.arena, ps', i + 1, chance, chainAmount, roll, pick).arena);
    } else {
      VolleyedGrows(a, ps, i + 1, chance, chainAmount, roll, pick);
    }
  }
}
