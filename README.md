# neon-dopamine: a verified model of the simulation core

neon-dopamine is a browser arcade survival game. The player drifts towards
the mouse pointer and fires automatically. Enemies spawn off-screen and
march on the player. A dying enemy drops an XP gem. Collected XP levels the
player up, which pauses the game and offers three of nine upgrades. This
project models the simulation behind all of that: the `Game` object of
`src/main.js` with its player, its four entity lists (enemies, projectiles,
XP gems, particles) and its spawn timer, together with the module-level
state beside it (`gamePaused`, `screenShake`, `XP_GEM_PULL_SPEED`). It
proves what each phase of a frame does to that state.

The project has four modules, in four files:

- `entities.dfy` (`Entities`): the entity records, the constants and the
  rules for one entity on its own. These cover the player's clamped
  movement, the fly, age and expire rules, the pierce counter, the spawner
  and its interval decay, and the end-of-frame filter.
- `progression.dfy` (`Progression`): the XP levelling loop of
  `Player.gainXP`, the nine-card upgrade catalog, the three-card offer and
  each upgrade's `apply`.
- `combat.dfy` (`Combat`): `Enemy.takeDamage` with its death effects,
  `triggerChainLightning`, and the projectile half of `handleCollisions`.
  These are computed on an `Arena` value: the enemies, gems, particles and
  shake that hits write.
- `game.dfy` (`Simulation`): the `Game` class. Its fields are the source's
  fields. Each method of the source becomes a method with a `modifies`
  clause. `Game.update` is split into its phases: shake timer, player,
  spawner, movement passes, the three collision loops and the filter. The
  contact loop and the gem loop are specified through the values `ContactLoop` and
  `GemLoop`, which view the part of the state each loop works on.

Every `Math.random()` draw, the pointer position, the bearings the source
computes with `atan2`/`cos`/`sin`, and the frame's elapsed time arrive as
inputs, mostly bundled in a `Tick`. Enemy identity (the source compares
objects in `enemiesHit.includes(enemy)`) is modelled by an `id` from a
counter that only grows.

Behaviour of the source that the model keeps as written:

- The levelling loop can run several times for one gem. Each `levelUp`
  redraws the upgrade cards, so only the cards of the last level reached
  stay on show, and one click resumes the game: a batch of level-ups
  yields one upgrade.
- A projectile's pass over the enemy list does not stop when the
  projectile runs out of pierce. It goes on striking every enemy it
  overlaps in that frame, so it may strike more than `pierce + 1` enemies.
- A chain-lightning hit never starts a further chain. Its second hop may
  go back to the enemy the projectile struck, since a hop only avoids the
  target it leaves.
- When contact damage kills the player, `resetGame` runs in the middle of
  the contact loop. The death effects of that enemy then land on the state
  just reset: 25 particles and an armed shake. The source then
  dereferences the null player, either at the next live enemy of the loop
  or in `draw`. The model ends the frame at that point on the reset state.
  The state the source leaves is the same either way.
- `resetGame` does not restore the pull speed that Magnetism raised, the
  shake's duration and intensity, or the canvas size.

## Model

| member | source | states |
|---|---|---|
| Entities.Clamp | src/main.js:172-173 | `max(lo, min(hi, v))` lies in [lo, hi] when lo <= hi, leaves a value already there alone, and is `lo` when the interval is empty |
| Entities.NewPlayer | src/main.js:118-135 | a new player is level 1 with 0 XP and full health, and meets every player bound the game keeps (`PlayerOk`) |
| Entities.Clamped | src/main.js:446-449 | after the resize clamp the player's centre lies at least one radius inside each axis wide enough for it; a player already inside is unchanged; only x and y change |
| Entities.Steered | src/main.js:160-174 | the step towards the pointer changes only the position; a pointer within 1 means no movement; after a step the player lies inside the canvas |
| Entities.Damaged | src/main.js:315-322 | a hit lowers health by exactly the amount and marks the enemy exactly when it was marked or its health is now at or below zero; nothing else changes |
| Entities.Flown | src/main.js:265-274 | a projectile is marked exactly when it was marked or its new position is more than one radius off the canvas; only position and mark change |
| Entities.Volley | src/main.js:184-207 | a volley of n shots is exactly n `Shot`s, shot i flying with `aim(i)`; a `Shot` starts at the player with radius 5, the player's damage and pierce, an empty hit list, player-owned and unmarked |
| Entities.Burst | src/main.js:655-664 | exactly `count` particles, each new at (x, y) with the given lifetime, age 0 and unmarked |
| Entities.GemAged | src/main.js:334-339 | a gem's age grows by dt, and it is marked exactly when it was marked or its age has reached its lifetime |
| Entities.ParticleAged | src/main.js:367-381 | a particle's age grows by dt, and it is marked exactly when it was marked or its age has reached its lifetime |
| Entities.Marched | src/main.js:302-313 | an enemy's update changes only its position, and not at all when the player is within 1 |
| Entities.GemUpdated | src/main.js:334-351 | a gem ages and expires as `GemAged` does; an expired gem, or one outside the attraction reach, does not move; only position, age and mark change |
| Entities.ShakeTick | src/main.js:467-474 | an inactive shake is untouched; an active one either stops, with its elapsed time reset to 0, once the elapsed time reaches the duration, or else advances by dt; duration and intensity are kept |
| Entities.GemOf | src/main.js:643-648 | the dropped gem sits where the enemy died, carries its XP value and elite rank, is 5 larger for an elite, and starts with a 10 s lifetime |
| Entities.AfterHit | src/main.js:588-594 | one hit by a projectile: the enemy's id joins the hit list, and the projectile is marked when no pierce is left, otherwise it loses one; `PierceAccounting` states what a run of hits amounts to |
| Entities.PierceAccounting | src/main.js:587-594 | k hits on a projectile with pierce p >= 0 append the k ids to its hit list, leave pierce max(0, p - k), and mark it exactly when k > p; nothing else changes |
| Entities.Decay | src/main.js:484 | the decayed interval is `max(0.5, 0.99 x)`: never below 0.5, never above the interval it decays, never above the 3 s base when the interval was not |
| Entities.DecayClosedForm | src/main.js:479-485 | n consecutive spawns from an interval of at least 0.5 leave `max(0.5, interval * 0.99^n)` |
| Entities.TenSpawns | src/main.js:479-485 | ten spawns from the 3 s base leave 3 * 0.99^10 = 2.71314622502641347003 s |
| Entities.Side | src/main.js:530 | `floor(4u)` picks one of the four canvas edges, 0 to 3 |
| Entities.Spawned | src/main.js:529-577 | a spawned enemy is live at full health with a fresh id; it is elite exactly when the roll is below 0.1; health scales with the player's level (x3 for elites); XP value and speed are the base values (x5 and x1.2 for elites); the whole circle starts outside the canvas |
| Entities.Keep | src/main.js:500-504 | the filter keeps only live entities of the list and is no longer than it |
| Entities.KeepComplete | src/main.js:500-504 | the filter drops no live entity |
| Entities.KeepAppend | src/main.js:500-504 | filtering a concatenation filters each part, so the filter keeps the order of what it keeps |
| Entities.KeepAllLive | src/main.js:500-504 | a list with nothing marked is left as it is |
| Entities.KeepDistinctIds | src/main.js:501 | the enemy filter keeps enemy identities distinct |
| Progression.Grow | src/main.js:238 | `floor(1.25 t)` is the largest integer not above 5t/4, and never below t for t >= 0 |
| Progression.ThresholdGrows | src/main.js:235-240 | the XP requirement never falls below where it started, however many levels are gained |
| Progression.Settle | src/main.js:233-240 | the levelling loop ends with XP below the requirement, a requirement no lower than the starting one, and non-negative XP when the XP gained was non-negative |
| Progression.SettleAccounts | src/main.js:233-240 | the loop's outcome is the requirement after its level-ups and the XP left once they are paid for; it levels up not at all exactly when the XP did not cover the requirement |
| Progression.SettleStep | src/main.js:235-239 | one turn of the loop pays the requirement, grows it by 1.25 and leaves one level fewer to gain |
| Progression.SettleStepsWereDue | src/main.js:235 | before each level-up the loop performs, the remaining XP covered the requirement of that moment |
| Progression.GainTwice | src/main.js:233-243 | gaining a and then b XP leaves the same XP and requirement as gaining a + b at once, and the level-ups of the two gains add up to those of the single gain |
| Progression.OfferCards | src/main.js:696-698 | the offer is the first three cards of the shuffle, all different |
| Progression.Offer | src/main.js:697 | the first three cards of the shuffle, `shuffled.slice(0, 3)`; `OfferCards` proves them three distinct cards leading the shuffle |
| Progression.Boost | src/main.js:687-688 | the 15 % boost never lowers a non-negative stat, and raises every stat of at least 7 |
| Progression.Upgraded | src/main.js:684-694 | each upgrade changes only the stats it names and weakens none; Max Health raises maximum and current health by 25 each; Giant Nova unlocks the Nova and no other card touches it; every player bound is kept |
| Progression.PullAfter | src/main.js:693 | only Magnetism changes the pull speed, and it never lowers a positive one |
| Combat.Pick | src/main.js:726 | `floor(u * n)` is an index into the n candidates |
| Combat.Struck | src/main.js:315-322 | a hit of `amount` on enemy k: its health falls by the amount and no other enemy changes; it is marked exactly when it was marked or now at or below zero, and in that case exactly one gem of its value is appended, 25 explosion particles follow the 5 hit particles, and the ordinary shake is armed; a hit on a live enemy keeps its body and keeps every enemy at zero marked |
| Combat.AllStruck | src/main.js:810-812 | every enemy takes the damage once: the same number of enemies, and enemy k becomes `Damaged` of enemy k |
| Combat.StruckEach | src/main.js:810-812 | the arena after enemies 0 to n - 1 are struck once each in list order, keeping the number of enemies; `StruckEachEnemies` and `StruckEachEffects` state what those hits do |
| Combat.StruckEachEnemies | src/main.js:810-812 | striking every enemy once, in list order, hits each of them exactly once |
| Combat.StruckEachEffects | src/main.js:810-812 | those hits append the gems of exactly the enemies they kill, in list order; they add 5 particles per hit and 25 per kill; they arm the ordinary shake exactly if any of them killed |
| Combat.Candidates | src/main.js:721-723 | the chain's candidates are exactly the live enemies, other than the current target, within 200 of it |
| Combat.ChainHops | src/main.js:717-734 | the targets of the chain from hop i on, each an index into the enemy list; `ChainLength` and `ChainTargets` state which targets they are |
| Combat.ChainBound | src/main.js:718-733 | at most two hops, and none exactly when nothing qualifies at the start |
| Combat.ChainStops | src/main.js:724-732 | a chain of fewer hops than remain ends at a target that has no candidate left, with the enemies as its hops left them |
| Combat.ChainLength | src/main.js:718-733 | a chain makes at most two hops, none exactly when nothing qualifies at the start, and it stops short only where the target it reached, with the enemies as its hops left them, has no live enemy other than itself within 200 |
| Combat.ChainTargets | src/main.js:719-729 | every hop goes to a live enemy, other than the target it leaves and within 200 of it, with the enemies as the hops before it left them: the first hop leaves the struck enemy, each later one the hop before it |
| Combat.Chained | src/main.js:717-734 | the arena after the chain from hop i on: each hop is a `takeDamage` of 0.7 times the projectile damage followed by 11 lightning particles; the number of enemies is kept, and `ChainStrikes`, `ChainGems`, `ChainShake` and `ChainParticles` state the rest |
| Combat.ChainStrikes | src/main.js:725-729 | a chain changes the enemies by exactly its hops' hits of `projectileDamage * 0.7`; with non-negative damage it only lowers the health of live enemies and keeps every enemy at zero marked |
| Combat.ChainGems | src/main.js:727 | a chain appends one gem per kill, in hop order |
| Combat.ChainDrops | src/main.js:725-727 | the chain's gems are the old gems with each hop's drop appended in hop order |
| Combat.ChainShake | src/main.js:727 | after a chain the ordinary shake is armed afresh exactly if the chain killed |
| Combat.ChainParticles | src/main.js:725-729 | a chain appends 5 hit particles and 11 lightning particles per hop, plus 25 per kill, after all that was there |
| Combat.ChainParticlesKept | src/main.js:725-729 | a chain only appends particles: the old ones stay in front |
| Combat.ChainParticleCount | src/main.js:725-729 | a chain appends 5 + 11 particles per hop and 25 per kill |
| Combat.ChainLightning | src/main.js:717-734 | the source's loop of at most two hops, breaking when no candidate is left, computes the chain `Chained` |
| Combat.Hit | src/main.js:587-599 | a projectile's `takeDamage` on enemy j, followed by a chain from it when the roll fires; the number of enemies is kept, and `HitGrows` states what the hit does |
| Combat.HitGrows | src/main.js:587-599 | a hit on a live enemy and the chain it may start only lower live enemies' health, keep every enemy's body, keep every enemy at zero marked, and only add gems and particles |
| Combat.SweepStep | src/main.js:583-602 | one turn of the inner loop: the pass from this enemy on equals this turn's hits followed by the pass from the next enemy on |
| Combat.Swept | src/main.js:583-602 | the inner enemy loop from enemy j on: the arena, the projectile and the struck indices it leaves, keeping the number of enemies; `SweptSound`, `SweptComplete`, `SweptShot`, `PierceSpent` and `SweptGrows` state the rest |
| Combat.ResolveShot | src/main.js:583-602 | the inner loop, run enemy by enemy, computes the pass `Swept` |
| Combat.SweptGrows | src/main.js:583-602 | a projectile's pass only lowers live enemies' health, marks every enemy it takes to zero, and only adds gems and particles |
| Combat.SweptOrder | src/main.js:583 | the enemies a pass strikes lie in list order, strictly increasing |
| Combat.SweptShot | src/main.js:587-594 | the projectile after a pass is the projectile after hits on the struck enemies, in order |
| Combat.SweptShotStrike | src/main.js:587-594 | at an enemy the projectile strikes, the struck indices stay in range and the projectile after the pass is its hits applied in order to the struck enemies' ids |
| Combat.SweptSound | src/main.js:584-586 | every enemy a pass strikes was, when the pass began, live, not yet hit by that projectile, and strictly overlapping it |
| Combat.SweptComplete | src/main.js:583-602 | an enemy that was open to the projectile when the pass began and was not struck ends the pass marked, killed first by a chain |
| Combat.PierceSpent | src/main.js:588-594 | a pass appends the struck ids to the hit list, spends one pierce per hit down to zero, and marks the projectile exactly when it struck more enemies than it had pierce |
| Combat.HitsStayDistinct | src/main.js:584-588 | a projectile never strikes one enemy twice: its hit list stays free of repeats |
| Combat.ResolveShots | src/main.js:581-604 | the outer loop, run projectile by projectile, computes `Volleyed` |
| Combat.Volleyed | src/main.js:581-604 | the outer projectile loop from projectile i on: a flying projectile makes its pass on the arena the earlier passes left, others are skipped; the numbers of projectiles and enemies are kept, and `VolleyedShots` and `VolleyedGrows` state the rest |
| Combat.SweptShotOk | src/main.js:588-594 | one pass keeps a projectile sound (pierce and damage non-negative, no repeated hit) and changes it only as its hits do |
| Combat.VolleyedShots | src/main.js:581-604 | after the outer loop every projectile is sound and changed only by its own hits; one not fired by the player, or already marked, is untouched |
| Combat.VolleyedGrows | src/main.js:581-604 | the outer loop only lowers live enemies' health, keeps every enemy at zero marked, and only adds gems and particles |
| Simulation.KeepEnemiesOk | src/main.js:501 | the enemy filter keeps identities distinct and below the counter, keeps radii positive, and leaves no enemy at zero unmarked |
| Simulation.KeepProjectilesOk | src/main.js:502 | the projectile filter keeps every projectile sound |
| Simulation.Gain | src/main.js:233-243 | `gainXP(v)` on the player's part of the gem loop: XP, requirement and level as `Settle` leaves them, and the game paused with the cards of the last level reached when one was gained; `GainedGain` states how gains compose |
| Simulation.Collected | src/main.js:619-627 | one turn of the gem loop: a live gem touching the player gives its value through `Gain`, is marked and adds 10 sparkles; any other gem changes nothing; `CollectedGains` and `PickedStep` state what the turns add up to |
| Simulation.CollectedGains | src/main.js:619-629 | a gathered gem adds its value to the single `gainXP` that the loop's earlier turns amount to |
| Simulation.GainedGain | src/main.js:233-243 | `gainXP(a)` followed by `gainXP(v)` leaves the XP, requirement, level, pause flag and cards that one `gainXP(a + v)` leaves |
| Simulation.GemLoopStart | src/main.js:618-619 | before the gem loop's first turn the player is as no XP gained leaves it |
| Simulation.PickedStep | src/main.js:620-627 | each turn marks its gem exactly when gathered, leaves later gems alone, and adds 10 sparkles per gathered gem |
| Simulation.GainedStep | src/main.js:620-624 | after each turn the player's XP, requirement, level, pause flag and cards are those of one `gainXP` of everything gathered so far |
| Simulation.GemLoopStep | src/main.js:619-629 | each turn carries the gem loop's invariant one gem further |
| Simulation.GemLoopEnd | src/main.js:618-629 | after the last turn exactly the live gems touching the player are marked |
| Simulation.Contacted | src/main.js:607-615 | one surviving turn of the contact loop: a live enemy touching the player costs 10 health, adds 5 + 25 particles, arms the shake and is marked; any other enemy changes nothing; `ContactLoopStep` states what the turns add up to |
| Simulation.ContactLoopStep | src/main.js:607-616 | each surviving turn of the contact loop carries its invariant one enemy further: 10 health, 5 + 25 particles and an armed shake per contact, and the touched enemies marked |
| Simulation.ContactLoopFatal | src/main.js:610-611 | a fatal contact means the damage of all the loop's contacts covers the health the player began the loop with |
| Simulation.ContactLoopEnd | src/main.js:606-616 | after the last turn exactly the live enemies touching the player are marked |
| Simulation.BehindStep | src/main.js:235-240 | one turn of the levelling loop keeps its outcome equal to the turns taken followed by the rest of the loop |
| Simulation.Game.constructor | src/main.js:400-409 | the new game is stopped, unpaused, with no player, empty lists, the spawn timer at 0 and the 3 s interval |
| Simulation.Game.StartGame | src/main.js:429-440 | starting while running changes nothing; otherwise a new player stands at the canvas centre and nothing else changes |
| Simulation.Game.ResizeCanvas | src/main.js:442-450 | the canvas takes the new size and a player present is clamped into it |
| Simulation.Game.ResetGame | src/main.js:762-790 | the game is stopped and unpaused, with no player, empty lists, the timer at 0 and the base interval; the shake is switched off; the pull speed, canvas, id counter and cards are kept |
| Simulation.Game.TriggerScreenShake | src/main.js:666-671 | the shake is armed with the given duration and intensity, elapsed time 0 |
| Simulation.Game.AddParticles | src/main.js:655-664 | exactly `count` new particles are appended after the existing ones |
| Simulation.Game.OnEnemyDeath | src/main.js:632-653 | a death arms the ordinary shake, appends 25 particles, and appends the enemy's gem unless `noXp` |
| Simulation.Game.StrikeEnemy | src/main.js:315-322 | `takeDamage` on enemy k changes the enemies, gems, particles and shake exactly as `Struck` does |
| Simulation.Game.HurtPlayer | src/main.js:210-231 | damage the player survives lowers health by the amount, adds 5 particles and changes nothing else; damage it does not survive resets the session |
| Simulation.Game.LevelUp | src/main.js:673-678 | a level-up pauses the game and shows three cards drawn from the shuffle |
| Simulation.Game.GainXP | src/main.js:233-243 | the player's XP, requirement and level become the levelling loop's outcome; the game is paused exactly if it was paused or a level was gained; the cards shown are those of the last level reached |
| Simulation.Game.ResumeGame | src/main.js:712-715 | the game is unpaused |
| Simulation.Game.ChooseUpgrade | src/main.js:704-707 | clicking a card applies that card's upgrade to the player and the pull speed, then unpauses |
| Simulation.Game.StrikeAll | src/main.js:810-812 | every enemy is struck once in list order; exactly the killed enemies drop gems, in order; 5 particles per enemy and 25 per kill are added; the ordinary shake is armed exactly if one died |
| Simulation.Game.Nova | src/main.js:800-816 | Space with an unlocked Nova and no pause spends the charge, adds 100 particles, and strikes every enemy with ten times the projectile damage, the shake ending as the ordinary one if anything died and as the large one otherwise; in every other case nothing changes |
| Simulation.Game.Detonate | src/main.js:803-814 | the charge is spent, 100 particles and the hits' and deaths' particles are added, every enemy is struck once with ten times the projectile damage, each death drops its gem, and the shake ends as the ordinary one if anything died and as the large one otherwise |
| Simulation.Game.Fire | src/main.js:184-207 | a volley appends exactly `multiShot` shots from the player, carrying its damage and pierce |
| Simulation.Game.PlayerUpdate | src/main.js:160-182 | the player steps as `Steered`; once the fire timer reaches the fire rate a volley leaves from the new position and the timer restarts at 0, otherwise the timer advances by dt and nothing is fired |
| Simulation.Game.SpawnEnemy | src/main.js:529-577 | one enemy, built as `Spawned` for the player's level, is appended with the next identity |
| Simulation.Game.SpawnTimer | src/main.js:479-485 | once the timer reaches the interval exactly one enemy spawns, the timer restarts at 0 and the interval decays; otherwise the timer only advances; the interval never grows and stays in [0.5, 3] |
| Simulation.Game.MoveEnemies | src/main.js:486 | every enemy marches on the player, and only its position changes |
| Simulation.Game.MoveProjectiles | src/main.js:489 | every projectile flies and is marked once off the canvas |
| Simulation.Game.UpdateGems | src/main.js:492 | every gem ages and drifts towards the player within three player radii at the pull speed |
| Simulation.Game.UpdateParticles | src/main.js:495 | every particle ages and is marked at its lifetime |
| Simulation.Game.MovePasses | src/main.js:486-495 | the four movement passes apply their per-entity rules to every element and keep the list lengths |
| Simulation.Game.ShootEnemies | src/main.js:581-604 | the projectile half of `handleCollisions` leaves enemies, gems, particles, shake and projectiles exactly as `Volleyed` computes them, keeping every game invariant |
| Simulation.Game.ContactStep | src/main.js:608-614 | one contact turn: a live enemy touching the player costs 10 health, 5 + 25 particles and an armed shake, and is marked with no gem; when the player does not survive, the session is reset and carries just that enemy's 25 particles and the armed shake |
| Simulation.Game.ContactPass | src/main.js:606-616 | without a reset the player loses 10 health per live enemy touching it, exactly those enemies are marked, 30 particles per contact are added, and the shake is armed if anything touched; a reset happens only when those contacts' damage covers the player's health |
| Simulation.Game.CollectGem | src/main.js:620-627 | one gem turn changes the XP, level, pause flag, cards, gems and particles exactly as `Collected` does |
| Simulation.Game.GemPass | src/main.js:618-629 | the player ends as one `gainXP` of the value of every live gem touching it would leave it; exactly those gems are marked; 10 sparkles per gathered gem are added |
| Simulation.Game.Cleanup | src/main.js:500-504 | each of the four lists keeps exactly its unmarked entities, in order |
| Simulation.Game.Advance | src/main.js:467-495 | the shake runs down by dt as `ShakeTick` says; the player steps, and fires a volley and restarts its fire timer exactly when the timer reaches its fire rate; a due spawner appends one enemy, restarts at 0, decays the interval and uses one id; then every enemy (the new one included) marches on the player's new position, every projectile (the volley included) flies, every gem ages and drifts, every particle ages |
| Simulation.Game.Steer | src/main.js:467-486 | the shake runs down by dt as `ShakeTick` says; the player steps, and fires a volley and restarts its fire timer exactly when the timer reaches its fire rate, otherwise the timer advances; a due spawner appends one enemy for the player's level, restarts at 0, decays the interval and uses one id, otherwise only its timer advances |
| Simulation.Game.HandleCollisions | src/main.js:579-630 | a fatal contact leaves a stopped, fresh session with 25 particles and an armed shake; otherwise the player has not moved and the canvas, pull speed, timer and interval are kept |
| Simulation.Game.Update | src/main.js:466-505 | one `update`: after a fatal contact a fresh, stopped session; otherwise the player stands where its steering put it, the spawner has acted, and no marked entity is left in any list |
| Simulation.Game.Frame | src/main.js:452-464 | a frame changes nothing unless a session is running and not paused; a frame that updates and leaves a player leaves no marked entity |

## Left out

- Rendering, audio, the DOM (health and XP bars, overlays, cards as
  elements), event wiring, `requestAnimationFrame` and `console.log` are
  not modelled: they do not feed back into the simulation.
- The frame's elapsed time (`lastFrameTime`, the timestamp division by
  1000) is an input, `Tick.dt`.
- `Math.atan2`, `Math.cos` and `Math.sin` are not modelled: the bearing of
  the player to the pointer, of each enemy and gem to the player, and each
  shot's velocity arrive as given vectors. The multi-shot spread and
  `PLAYER_PROJECTILE_SPEED` are set aside with them.
- Particles have no velocity, radius or colour in the model, and lightning
  particles all start at the target the hop leaves. Only their number, age
  and expiry matter to the simulation.
- The distribution of `sort(() => 0.5 - Math.random())` is not modelled.
  A shuffle is any ordering of the nine upgrades.
- Double-precision arithmetic is not modelled. The model computes on exact
  reals and integers, so `Math.floor(100 * 1.15)` is 115 in the model where
  JavaScript gives 114. `Math.hypot` comparisons are decided on squares.
- Simulation.Game.Update: ends the frame when contact damage resets the
  session. The source dereferences the null player at that point instead
  and throws; the state it leaves is the one the model reaches.
- Simulation.Game.Nova: without a player the source's handler throws on
  `game.player.novaAvailable`; the model changes nothing.
- The projectile pass and chain lightning are computed on the `Arena`
  value, so aliasing between the game's lists and the enemy objects is not
  modelled. `Game.ShootEnemies` writes the outcome back. The chain's
  filter over `this.enemies` is the same list in the source, so nothing is
  lost.
- Enemy object identity is modelled by an `id` field and a counter
  (`nextEnemyId`) that survives a reset.
- `proj.source === 'player'` is the boolean `fromPlayer`. Every projectile
  the game creates is the player's.
- `XP_GEM_VALUE_BASE`, `XP_GEM_ELITE_VALUE`, `FPS`, `TARGET_FRAME_TIME`
  and the colour constants are not modelled. The simulation never reads
  them.
- Simulation.Game.HandleCollisions: states only the reset outcome and what
  the collisions keep. The three loops' own contracts (`ShootEnemies`,
  `ContactPass`, `GemPass`) carry the rest.
- Simulation.Game.Update: does not restate the phases' contracts. It
  states the player's position, the spawner's effect and that no marked
  entity is left.
- Simulation.Game.Frame: states only the skip when stopped or paused, and
  that no marked entity is left after an update. The update's own
  contract covers the rest.
