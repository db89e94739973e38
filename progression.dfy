/** Experience, levelling and the upgrade catalog: the arithmetic of
    `Player.gainXP`, the nine upgrades of `displayUpgradeChoices` and the
    three-card offer drawn from a shuffle of them. */
module Progression {
  import opened Entities

  // ---------------------------------------------------------------------
  // Levelling

  /** `Math.floor(t * 1.25)`; Dafny's division by a positive divisor rounds
      down, and 1.25 is exact in binary, so this is the source's value. */
  function Grow(t: int): (r: int)
    ensures 4 * r <= 5 * t < 4 * r + 4
    ensures t >= 0 ==> r >= t
  {
    (5 * t) / 4
  }

  /** The requirement after `n` level-ups starting from requirement `t`. */
  function Threshold(t: int, n: nat): int
    decreases n
  {
    if n == 0 then t else Threshold(Grow(t), n - 1)
  }

  /** The XP that `n` level-ups starting from requirement `t` consume. */
  function Spent(t: int, n: nat): int
    decreases n
  {
    if n == 0 then 0 else t + Spent(Grow(t), n - 1)
  }

  /** A requirement never shrinks as levels are gained. */
  lemma {:induction false} ThresholdGrows(t: int, n: nat)
    requires t >= 0
    ensures Threshold(t, n) >= t
    decreases n
  {
    if n > 0 {
      ThresholdGrows(Grow(t), n - 1);
    }
  }

  /** The outcome of the levelling loop: XP left over, the requirement for
      the next level, and how many times the loop body ran. */
  datatype Progress = Progress(xp: int, threshold: int, levels: nat)

  /** The `while (xp >= xpToNextLevel)` loop of `gainXP`, run on XP `xp`
      with requirement `t`. It terminates because `t >= 1` and no step
      lowers the requirement. */
  function Settle(xp: int, t: int): (r: Progress)
    requires t >= 1
    decreases if xp < 0 then 0 else xp
    ensures r.xp < r.threshold && r.threshold >= t
    ensures xp >= 0 ==> r.xp >= 0
  {
    if xp < t then Progress(xp, t, 0)
    else
      var rest := Settle(xp - t, Grow(t));
      Progress(rest.xp, rest.threshold, rest.levels + 1)
  }

  /** What the loop's outcome amounts to: the requirement after its
      level-ups, the XP they consumed, and no level-up exactly when the
      XP did not cover the requirement. */
  lemma {:induction false} SettleAccounts(xp: int, t: int)
    requires t >= 1
    decreases if xp < 0 then 0 else xp
    ensures var r := Settle(xp, t);
            r.threshold == Threshold(t, r.levels) &&
            xp == r.xp + Spent(t, r.levels) &&
            (r.levels == 0 <==> xp < t)
  {
    if xp >= t {
      SettleAccounts(xp - t, Grow(t));
    }
  }

  /** One turn of the loop: paying for a level leaves the rest of the
      outcome to the grown requirement. */
  lemma SettleStep(xp: int, t: int)
    requires 1 <= t <= xp
    ensures var r := Settle(xp - t, Grow(t));
            Settle(xp, t) == Progress(r.xp, r.threshold, r.levels + 1)
  {
  }

  /** The loop ran exactly as long as it could: before each of its
      iterations the XP still covered the requirement of that moment. */
  lemma {:induction false} SettleStepsWereDue(xp: int, t: int, k: nat)
    requires t >= 1 && k < Settle(xp, t).levels
    ensures xp - Spent(t, k) >= Threshold(t, k)
    decreases k
  {
    SettleAccounts(xp, t);
    if k > 0 {
      SettleStep(xp, t);
      SettleStepsWereDue(xp - t, Grow(t), k - 1);
    }
  }

  /** Gaining `a` and then `b` XP ends where gaining `a + b` at once does,
      with the level-ups of the two gains adding up: batch gains are
      handled correctly however many levels they span. */
  lemma GainTwice(xp: int, t: int, b: int)
    requires t >= 1 && b >= 0
    ensures var first := Settle(xp, t);
            var second := Settle(first.xp + b, first.threshold);
            var once := Settle(xp + b, t);
            second.xp == once.xp && second.threshold == once.threshold &&
            first.levels + second.levels == once.levels
  {
    GainTwiceAt(xp, t, b, xp + b, Settle(xp, t).xp, Settle(xp, t).threshold);
  }

  /** `GainTwice` with the total XP `y` and the outcome `fx`, `ft` of the
      first gain named, so that each level-up lowers the total by a plain
      subtraction and leaves the second gain as it is. */
  lemma {:induction false} GainTwiceAt(xp: int, t: int, b: int, y: int, fx: int, ft: int)
    requires t >= 1 && b >= 0 && y == xp + b
    requires fx == Settle(xp, t).xp && ft == Settle(xp, t).threshold
    ensures ft >= 1
    ensures var second := Settle(fx + b, ft);
            var once := Settle(y, t);
            second.xp == once.xp && second.threshold == once.threshold &&
            Settle(xp, t).levels + second.levels == once.levels
    decreases if xp < 0 then 0 else xp
  {
    if xp >= t {
      SettleStep(xp, t);
      SettleStep(y, t);
      GainTwiceAt(xp - t, Grow(t), b, y - t, fx, ft);
    }
  }

  // ---------------------------------------------------------------------
  // Upgrades

  datatype Upgrade =
    | MultiShot | AttackSpeed | ProjectileDamage | MovementSpeed | MaxHealth
    | Pierce | ChainLightning | GiantNova | Magnetism

  /** `availableUpgrades`, in the source's order. */
  const CATALOG: seq<Upgrade> :=
    [MultiShot, AttackSpeed, ProjectileDamage, MovementSpeed, MaxHealth,
     Pierce, ChainLightning, GiantNova, Magnetism]

  /** No upgrade occurs twice in `s`. */
  predicate Distinct(s: seq<Upgrade>)
  {
    forall i, j :: 0 <= i < j < |s| ==> s[i] != s[j]
  }

  /** What the random-comparator sort may produce: the nine upgrades in
      some order (its distribution is not modelled). Nine distinct values
      of a nine-valued type are all of them. */
  type Shuffle = s: seq<Upgrade> | |s| == |CATALOG| && Distinct(s) witness CATALOG

  /** `shuffled.slice(0, 3)`. */
  function Offer(s: Shuffle): seq<Upgrade>
  {
    s[..3]
  }

  /** An offer is three cards, all different, the three leading the shuffle. */
  lemma OfferCards(s: Shuffle)
    ensures var r := Offer(s);
            |r| == 3 && Distinct(r) && forall i :: 0 <= i < 3 ==> r[i] == s[i]
  {
  }

  /** The player statistics an upgrade may touch. */
  datatype Stat =
    | PosX | PosY | Radius | MaxHealthStat | HealthStat | SpeedStat | FireRateStat
    | LastFireStat | DamageStat | MultiShotStat | ChanceStat | NovaStat | PierceStat
    | LevelStat | XpStat | ThresholdStat

  /** The statistics in which `p` and `q` differ: every field of a player. */
  function Changed(p: Player, q: Player): set<Stat>
  {
    (if p.x != q.x then {PosX} else {}) +
    (if p.y != q.y then {PosY} else {}) +
    (if p.radius != q.radius then {Radius} else {}) +
    (if p.maxHealth != q.maxHealth then {MaxHealthStat} else {}) +
    (if p.health != q.health then {HealthStat} else {}) +
    (if p.speed != q.speed then {SpeedStat} else {}) +
    (if p.fireRate != q.fireRate then {FireRateStat} else {}) +
    (if p.lastFireTime != q.lastFireTime then {LastFireStat} else {}) +
    (if p.projectileDamage != q.projectileDamage then {DamageStat} else {}) +
    (if p.multiShot != q.multiShot then {MultiShotStat} else {}) +
    (if p.chainLightningChance != q.chainLightningChance then {ChanceStat} else {}) +
    (if p.novaAvailable != q.novaAvailable then {NovaStat} else {}) +
    (if p.projectilePierce != q.projectilePierce then {PierceStat} else {}) +
    (if p.level != q.level then {LevelStat} else {}) +
    (if p.xp != q.xp then {XpStat} else {}) +
    (if p.xpToNextLevel != q.xpToNextLevel then {ThresholdStat} else {})
  }

  /** The statistics each catalog entry names; Magnetism names none, its
      target is the global pull speed. */
  function Touches(u: Upgrade): set<Stat>
  {
    match u
    case MultiShot => {MultiShotStat}
    case AttackSpeed => {FireRateStat}
    case ProjectileDamage => {DamageStat}
    case MovementSpeed => {SpeedStat}
    case MaxHealth => {MaxHealthStat, HealthStat}
    case Pierce => {PierceStat}
    case ChainLightning => {ChanceStat}
    case GiantNova => {NovaStat}
    case Magnetism => {}
  }

  /** `floor(v * 1.15)` on exact reals. */
  function Boost(v: int): (r: int)
    ensures v >= 0 ==> r >= v
    ensures v >= 7 ==> r > v
  {
    ((v as real) * 1.15).Floor
  }

  /** The `apply` closure of an upgrade, on the player. Each upgrade
      changes its own statistics and no other, and never weakens the
      player; Max Health keeps the gap between health and maximum. */
  function Upgraded(p: Player, u: Upgrade): (q: Player)
    ensures Changed(p, q) <= Touches(u)
    ensures q.multiShot >= p.multiShot && q.projectilePierce >= p.projectilePierce
    ensures q.chainLightningChance >= p.chainLightningChance
    ensures p.fireRate >= 0.0 ==> q.fireRate <= p.fireRate
    ensures p.projectileDamage >= 0 ==> q.projectileDamage >= p.projectileDamage
    ensures p.speed >= 0 ==> q.speed >= p.speed
    ensures q.maxHealth >= p.maxHealth && q.maxHealth - q.health == p.maxHealth - p.health
    ensures u == MaxHealth ==> q.maxHealth == p.maxHealth + 25 && q.health == p.health + 25
    ensures u == GiantNova ==> q.novaAvailable
    ensures u != GiantNova ==> q.novaAvailable == p.novaAvailable
    ensures PlayerOk(p) ==> PlayerOk(q)
  {
    match u
    case MultiShot => p.(multiShot := p.multiShot + 1)
    case AttackSpeed => p.(fireRate := p.fireRate * 0.8)
    case ProjectileDamage => p.(projectileDamage := Boost(p.projectileDamage))
    case MovementSpeed => p.(speed := Boost(p.speed))
    case MaxHealth => p.(maxHealth := p.maxHealth + 25, health := p.health + 25)
    case Pierce => p.(projectilePierce := p.projectilePierce + 1)
    case ChainLightning => p.(chainLightningChance := p.chainLightningChance + 5)
    case GiantNova => p.(novaAvailable := true)
    case Magnetism => p
  }

  /** The Magnetism closure: only it changes `XP_GEM_PULL_SPEED`, by 1.25. */
  function PullAfter(pull: real, u: Upgrade): (r: real)
    ensures u != Magnetism ==> r == pull
    ensures pull > 0.0 ==> r >= pull && r > 0.0
  {
    if u == Magnetism then pull * 1.25 else pull
  }
}
