# Space Zombie Survivors — a Dafny model of the game core

This project models the game logic of Space Zombie Survivors, a top-down survival game. The player moves with the arrow keys or WASD while an auto-gun and an orbiting disc fight an ever faster stream of zombies. Gems dropped by killed zombies carry experience, and each level-up opens a menu of three upgrade cards.

There is one Dafny module per source file of the core:

| module | file | models |
|---|---|---|
| `Numbers` | `numbers.dfy` | Python's `int()` truncation, `None`, and the `math` functions the game calls (`MathLib`, a parameter whose only law is that of `hypot`) |
| `Geometry` | `geometry.dfy` | rectangles in the style of pygame: centre, `move`, `clamp`, `colliderect`, and the circle-against-box test of the bullets and discs |
| `Settings` | `settings.dfy` | the `config` constants, as a record with the assumptions the game makes of them |
| `Sprites` | `animated_sprite.dfy` | `AnimatedSprite`: frame cutting, cyclic frame advance, reset |
| `Zombies` | `zombie.dfy` | `Zombie`: the three types' stats, chasing the player, taking damage |
| `Players` | `player.dfy` | `Player`: keyboard movement, staying on screen, damage with the half-second immunity window |
| `Bullets` | `bullet.dfy` | `Bullet`: flight, leaving the screen, striking a zombie with piercing |
| `Gems` | `exp_gem.dfy` | `ExpGem`: the attraction latch, homing on the player, collection |
| `Bosses` | `boss_zombie.dfy` | `BossZombie`: boss stats, its pulse and the minion timer |
| `Spawning` | `spawner.dfy` | `ZombieSpawner`: the difficulty curve, off-screen spawn points, the type mix over time |
| `Experience` | `experience.dfy` | `ExperienceSystem`: adding experience, level-ups, the growing thresholds |
| `Weapons` | `weapon_base.dfy` | `Weapon`: owner, level and the upgrade template |
| `Guns` | `auto_gun.dfy` | `AutoGun`: the fire timer, the nearest live target, the bullet fan, the level table |
| `Discs` | `orbiting_disc.dfy` | `OrbitingDisc`: rotation, disc positions, per-target hit cooldowns, the level table |
| `Upgrades` | `upgrades.dfy` | the upgrade catalogue and the filter that chooses what is offered |
| `Menus` | `upgrade_menu.dfy` | `UpgradeMenu`: showing a sample of the offers, clicking a card, applying its effect |
| `Particles` | `particles.dfy` | void and death particles: drift, gravity, fading, and their creation |
| `GameLoop` | `game.dfy` | `Game` in `main.py`: the run flags and events, and one frame of `update` |

Objects that the game updates in place are classes whose methods name the fields they change in `modifies`. Stat rules, geometry, the level tables, the experience arithmetic and the event transitions are pure functions. Each method is tied to those functions in its `ensures`. Lemmas prove what the game relies on about them:
- the difficulty never eases;
- thresholds never shrink and experience is never lost;
- a disc hits a target at most once per half second;
- only the first zombie contact in a frame hurts;
- a bullet strikes at most once;
- the upgrade filter offers exactly the allowed cards;
- particles live exactly their lifetime.

`Game.Update` is proved phase by phase, in the order `update` runs them:
1. player;
2. weapons;
3. void particles;
4. spawning;
5. zombies;
6. bullets;
7. gems;
8. particles.

It keeps one invariant, `Game.Valid`. The lists have no repeats, the weapons are the player's gun and disc, the menu applies to this player, and the sub-systems are well-formed.

Behaviours of the code that the model keeps as written:
- The zombie loop moves every zombie, and damages the player only through live ones that overlap it after moving. The immunity window means only the first contact of a frame can hurt (`GameLoop.OnlyFirstContactHurts`).
- A zombie killed by the orbiting disc is neither counted as a kill nor removed from the list, and it leaves no gem. Only bullet kills do that.
- The disc's cooldown entries of zombies that are no longer in the list are never counted down or removed.
- Escape toggles pause even while the upgrade menu is open.
- `update` does not stop after a lethal zombie hit within the same frame. The bullets and gems still run, and a level-up can open the menu after the game is over.
- A gem is collected by its distance before it moves this frame.
- `add_exp` checks for a level-up only once. An addition of zero can therefore still level up when an earlier large gain left experience above the next threshold (`Experience.ZeroGainCanLevelUp`).
- The boss class is modelled, but `main.py` never spawns a boss, so it plays no part in the game loop.
- A bullet hits at most one zombie per frame, the first in list order, because of the `break` after the first hit.

Randomness enters as explicit draws whose ranges are those of Python's `random` calls:
- `SpawnDraw` and `SpawnBatch` draws for the spawner;
- `VoidDraw` and `DeathDraw` for particles;
- sample positions for the menu;
- `GameLoop.Dice` for a whole frame.

The keys held, the events of a frame, the frame time `dt` and the math library are parameters as well.

## Model

| member | source | states |
|---|---|---|
| Zombies.StatsCompare | src/entities/zombie.py:19-36 | speed ranks tank < basic < fast, health and damage rank fast < basic < tank with a tank at three times and a fast zombie at most half of basic health, and the experience reward rises basic < fast < tank |
| Zombies.Hurt | src/entities/zombie.py:64-71 | a hit reports a kill exactly when health falls to 0 or below, and then health is pinned to 0 and the zombie is dead; otherwise only health drops |
| Zombies.HurtAllBounds | src/entities/zombie.py:64-71 | under any run of non-negative hits health stays between 0 and its start, death is permanent, and a survivor has lost exactly the sum of the hits |
| Zombies.DeadReportsAgain | src/entities/zombie.py:64-71 | a dead zombie that is hit again reports a kill again and stays at 0 health |
| Zombies.Zombie.constructor | src/entities/zombie.py:13-43 | a new zombie is centred on its spawn point with its type's stats, full health, alive and standing still |
| Zombies.Zombie.TakeDamage | src/entities/zombie.py:64-71 | the new health and liveness and the reported kill are those of Hurt |
| Zombies.Zombie.Update | src/entities/zombie.py:45-62 | a dead zombie does not move; a live one steps toward the player at its speed, and does not move when it stands on the player |
| Players.Direction | src/entities/player.py:45-55 | each component of the movement is -1, 0 or 1; it is 0 exactly when both or neither of its opposite keys are held, and negative exactly when only the left (up) key is held |
| Players.Hit | src/entities/player.py:69-81 | while immune a hit changes nothing and reports no death; otherwise the immunity window opens, a death is reported exactly when health would reach 0 or below, and then health is 0 and the player is dead |
| Players.Cooldown | src/entities/player.py:85-86 | the immunity timer counts down by dt only while positive |
| Players.ImmunityLasts | src/entities/player.py:75-86 | while less time than the window has elapsed the timer is still positive and equals the window minus the elapsed time |
| Players.SecondHitIgnored | src/entities/player.py:69-86 | a second hit that lands less than half a second after a landed hit has no effect |
| Players.Player.constructor | src/entities/player.py:14-38 | a new player is centred on the start point with full health, the configured speed and pickup radius, alive and not immune, with a fresh 3-frame vertical animation |
| Players.Player.HandleInput | src/entities/player.py:40-63 | a dead player or one with no direction held does not move; otherwise the rect moves by the normalised direction times speed times dt, each axis truncated toward zero |
| Players.Player.Clamp | src/entities/player.py:65-67 | the rect is moved into the screen rectangle as pygame's clamp does |
| Players.Player.TakeDamage | src/entities/player.py:69-81 | the new health, liveness, immunity and the reported death are those of Hit |
| Players.Player.Update | src/entities/player.py:83-89 | the immunity timer follows Cooldown and the animation advances by dt |
| Bullets.Strike | src/entities/bullet.py:47-68 | a hit is reported exactly when bullet and zombie are both alive and touching; a hit raises the pierce count and kills the bullet; a miss changes nothing |
| Bullets.AtMostOneVictim | src/entities/bullet.py:47-68 | whatever run of zombies a bullet checks, it hits at most one, a dead bullet hits none, and the pierce count counts the hits |
| Bullets.Bullet.constructor | src/entities/bullet.py:12-32 | a new bullet starts alive at the start point, aimed at the target at bullet speed, and stands still when the target is the start point |
| Bullets.Bullet.Update | src/entities/bullet.py:34-45 | the bullet moves by velocity times dt and dies once it is more than 50 pixels off screen; the result is its liveness |
| Bullets.Bullet.CheckCollision | src/entities/bullet.py:47-68 | the bullet's new state and the result are those of Strike; on a hit the zombie takes the bullet's damage, on a miss it is untouched |
| Bullets.HitIffSquare | src/entities/bullet.py:53-58 | the bullet touches a box exactly when the squared distance to the box's nearest point is below 25 |
| Gems.Attract | src/entities/exp_gem.py:37-38 | the attraction flag is set once the player is within the pickup radius and never cleared |
| Gems.AttractAllLatches | src/entities/exp_gem.py:37-38 | after any run of updates a gem is attracted exactly when it started so or the player was within range at some update |
| Gems.ExpGem.constructor | src/entities/exp_gem.py:12-26 | a new gem sits at its point with its value, size 8 and attraction speed 400, unattracted and still |
| Gems.ExpGem.Update | src/entities/exp_gem.py:28-51 | the pulse advances by 5 dt; the gem latches attraction inside the pickup radius, moves toward the player at attraction speed only when attracted and more than 5 pixels away, and reports collection exactly when within 10 pixels |
| Gems.CollectIffSquare | src/entities/exp_gem.py:35-51 | the distance tests of update agree with the squared-distance tests |
| Bosses.MinionCheck | src/entities/boss_zombie.py:47-52 | a minion is requested exactly when the timer has reached the cooldown, and the timer then resets to 0 |
| Bosses.MinionsCostTime | src/entities/boss_zombie.py:37-52 | over any run of frames, the time fed in covers the remaining timer plus one cooldown per requested minion |
| Bosses.BossZombie.constructor | src/entities/boss_zombie.py:14-35 | a boss is a basic zombie overridden with 2000 health, 0.8 of zombie speed, 30 damage, 500 experience, size 64 and purple, with a 5 second minion cooldown |
| Bosses.BossZombie.Update | src/entities/boss_zombie.py:37-45 | the pulse advances by 3 dt and the minion timer by dt, and a dead boss does not move |
| Bosses.BossZombie.ShouldSpawnMinion | src/entities/boss_zombie.py:47-52 | the request and the new timer are those of MinionCheck |
| Spawning.DifficultyMultiplier | src/systems/spawner.py:32 | the multiplier is at least 1 |
| Spawning.DivideByMore | src/systems/spawner.py:33 | dividing the spawn rate by a larger multiplier gives a shorter interval |
| Spawning.DivideByMoreStrict | src/systems/spawner.py:33 | dividing a positive rate by a strictly larger multiplier gives a strictly shorter interval |
| Spawning.BucketMonotone | src/systems/spawner.py:32 | the 30-second difficulty bucket never goes back |
| Spawning.IntervalNonIncreasing | src/systems/spawner.py:26-35 | the spawn interval never grows as game time passes |
| Spawning.IntervalDropsAtBoundary | src/systems/spawner.py:26-35 | in the k-th 30-second bucket the multiplier is 1 + 0.2 k, and the interval strictly drops at the next boundary |
| Spawning.SpawnPosition | src/systems/spawner.py:48-62 | each edge places the zombie 50 pixels beyond that edge at the drawn coordinate along it |
| Spawning.SpawnOffscreen | src/systems/spawner.py:46-62 | every spawn position lies outside the screen but within the 50-pixel margin around it |
| Spawning.ChooseZombieType | src/systems/spawner.py:70-87 | before 30 s only basic zombies; before 60 s no tanks, basic with probability 0.7; later basic below 0.5, tank from 0.8 |
| Spawning.EveryTypeReachable | src/systems/spawner.py:76-87 | from 30 s a fast zombie can be drawn and from 60 s a tank |
| Spawning.ZombieSpawner.constructor | src/systems/spawner.py:13-24 | a new spawner has its screen size, a zero timer and game time and no zombies spawned |
| Spawning.ZombieSpawner.Update | src/systems/spawner.py:26-35 | game time and timer advance by dt and the result is the base rate divided by the difficulty multiplier |
| Spawning.ZombieSpawner.ShouldSpawn | src/systems/spawner.py:37-44 | a spawn is due exactly when the advanced timer reaches the adjusted interval, and then the timer resets |
| Spawning.ZombieSpawner.SpawnZombie | src/systems/spawner.py:46-68 | the zombie is fresh, at the position and of the type its draws give, and the spawned count rises by one |
| Spawning.ZombieSpawner.SpawnBatch | src/systems/spawner.py:89-94 | count distinct fresh zombies (none for a non-positive count), each as SpawnZombie makes it, and the spawned count rises by that many |
| Experience.ThresholdGrows | src/systems/experience.py:27-35 | experience thresholds never fall below the first one and never shrink from level to level |
| Experience.AfterLevelUp | src/systems/experience.py:27-35 | a level-up raises the level by one, carries the surplus over and leaves the total alone |
| Experience.AfterAddExp | src/systems/experience.py:16-25 | the total grows by the amount; a level-up is reported exactly when current experience reaches the threshold and then the level rises by one with the surplus carried; otherwise only current and total change |
| Experience.LevelUpKeepsLedger | src/systems/experience.py:27-35 | a level-up keeps the threshold equal to the level's scheduled threshold and current experience equal to the total less what earlier levels cost |
| Experience.AddExpKeepsLedger | src/systems/experience.py:16-25 | adding experience keeps the same ledger |
| Experience.AfterAllStep | src/systems/experience.py:16-25 | a run of additions followed by one more is the longer run |
| Experience.AfterAllAccounts | src/systems/experience.py:16-35 | after any run of additions the total grew by their sum and the level by the number of reported level-ups, at most one per addition |
| Experience.TotalNeverDecreases | src/systems/experience.py:16-19 | non-negative additions never lower the total |
| Experience.SettledZeroGain | src/systems/experience.py:16-25 | adding nothing below the threshold changes nothing |
| Experience.ZeroGainCanLevelUp | src/systems/experience.py:16-25 | when a large gain leaves current experience above the next threshold, adding nothing still levels up |
| Experience.ExperienceSystem.constructor | src/systems/experience.py:10-14 | a new system is at level 1 with no experience and the first threshold |
| Experience.ExperienceSystem.AddExp | src/systems/experience.py:16-25 | the new state and the level-up flag are those of AfterAddExp, and the ledger is kept |
| Experience.ExperienceSystem.LevelUp | src/systems/experience.py:27-35 | the new state is that of AfterLevelUp, the ledger is kept, and it reports a level-up |
| Experience.ExperienceSystem.Progress | src/systems/experience.py:37-39 | progress times the threshold is current experience; it is non-negative and below 1 exactly when current experience is below the threshold |
| Sprites.FrameAt | src/animated_sprite.py:49-61 | frame i is cut from the sheet at the frame's size, stacked downward in a vertical layout and rightward in a horizontal one |
| Sprites.Advance | src/animated_sprite.py:65-72 | once the timer reaches the frame duration the frame moves on cyclically and the timer resets; otherwise only the timer grows; the frame stays in range |
| Sprites.AdvanceAllCycles | src/animated_sprite.py:65-72 | after any run of updates the frame is the start frame moved on by the number of advances modulo the frame count, with at most one advance per update |
| Sprites.AnimatedSprite.constructor | src/animated_sprite.py:10-43 | a new sprite stores its dimensions, frame count, rate and layout, starts at frame 0 with a zero timer, with a frame duration of one over the rate and one cut frame per frame |
| Sprites.AnimatedSprite.LoadFrames | src/animated_sprite.py:45-63 | one frame per frame count, frame i being FrameAt i |
| Sprites.AnimatedSprite.Update | src/animated_sprite.py:65-72 | the frame and timer move on as Advance says |
| Sprites.AnimatedSprite.GetCurrentFrame | src/animated_sprite.py:74-76 | the result is the stored frame at the current index |
| Sprites.AnimatedSprite.Reset | src/animated_sprite.py:78-81 | the frame and timer go back to 0 |
| Weapons.Weapon.constructor | src/weapons/weapon_base.py:7-13 | a new weapon belongs to its owner, at level 1 and enabled |
| Weapons.Weapon.Upgrade | src/weapons/weapon_base.py:32-39 | the level rises by one and nothing else changes |
| Guns.UpgradesFollowTable | src/weapons/auto_gun.py:102-118 | upgrading a gun one level at a time from level 1 yields the level table: fire rate 4 from level 2, 5 from 4, 6 from 7; two bullets from level 3, three from 5; 1.5 times damage from 6 |
| Guns.TableMonotone | src/weapons/auto_gun.py:102-118 | along the table the fire rate and bullet count never drop, the fire rate stays within 3..6 and the bullet count within 1..3 |
| Guns.NearestLiveTarget | src/weapons/auto_gun.py:38-57 | no target is found exactly when every target is dead; otherwise the one found is alive, strictly nearer than every earlier live target and no farther than any later one |
| Guns.FanCentred | src/weapons/auto_gun.py:74-84 | a spread of several bullets runs from 7.5 degrees before the aim to 7.5 degrees after it |
| Guns.Fan | src/weapons/auto_gun.py:83-98 | count distinct fresh live bullets from the owner's centre with the gun's damage, bullet j aimed at the point 500 pixels out along spread angle j |
| Guns.AutoGun.constructor | src/weapons/auto_gun.py:13-24 | a new gun is a fresh level-1 weapon with fire rate 3, one bullet, base damage, no pierce, a zero timer and a third of a second cooldown |
| Guns.AutoGun.Update | src/weapons/auto_gun.py:26-36 | the gun fires exactly when the advanced timer reaches the cooldown and there are targets, and then resets the timer; a shot at live targets yields bullet_count fresh live bullets, otherwise none |
| Guns.AutoGun.ShootAtNearest | src/weapons/auto_gun.py:38-100 | nothing when every target is dead; otherwise bullet_count fresh bullets from the owner's centre with the gun's damage, a single one aimed at the nearest live target and several fanned around the angle to it |
| Guns.AutoGun.Upgrade | src/weapons/auto_gun.py:102-118 | the level rises by one and the stats take that level's step of the table, with the cooldown one over the fire rate |
| Guns.AutoGun.ApplyUpgrade | src/weapons/auto_gun.py:102-118 | the stats take the current level's step of the table and the cooldown is one over the fire rate |
| Discs.WrapAngle | src/weapons/orbiting_disc.py:34-35 | the angle is brought into [0, 360) by removing whole turns, as Python's `%` does |
| Discs.WrapIdempotent | src/weapons/orbiting_disc.py:35 | wrapping a wrapped angle changes nothing |
| Discs.UpgradesFollowTable | src/weapons/orbiting_disc.py:112-127 | upgrading a disc one level at a time yields the level table: 2 discs from level 2, 3 from 4, 4 from 6; 1.3 times rotation speed from 3; 1.2 times radius from 5; 1.5 times damage from 7; size 16 from 8 |
| Discs.TableMonotone | src/weapons/orbiting_disc.py:112-127 | along the table the disc count never drops and stays within 1..4 |
| Discs.Ring | src/weapons/orbiting_disc.py:42-59 | one position per disc, disc i at angle plus i turns over the count, at the orbit radius from the owner's centre |
| Discs.Visit | src/weapons/orbiting_disc.py:65-88 | a dead target is skipped; a live one is hit exactly when a disc touches it and its cooldown entry, counted down by dt, has run out; a hit restarts the entry at the hit delay |
| Discs.Kept | src/weapons/orbiting_disc.py:91 | the clean-up keeps an entry exactly when it is positive |
| Discs.HitsAreSpaced | src/weapons/orbiting_disc.py:61-91 | on one target, over any run of frames, the number of hits is at most one more than the elapsed time over the hit delay: hits are at least half a second apart |
| Discs.Prune | src/weapons/orbiting_disc.py:91 | the pruned map holds exactly the positive entries, unchanged |
| Discs.PruneEntry | src/weapons/orbiting_disc.py:91 | a target's entry survives the clean-up exactly when it is positive |
| Discs.Store | src/weapons/orbiting_disc.py:72-87 | writing one target's entry leaves every other target's entry alone |
| Discs.OrbitingDisc.constructor | src/weapons/orbiting_disc.py:13-29 | a new disc weapon is a fresh level-1 weapon with one disc, the configured radius, speed and damage, size 12, cyan, angle 0, no cooldowns and a half-second hit delay |
| Discs.OrbitingDisc.Update | src/weapons/orbiting_disc.py:31-40 | the angle turns by rotation speed times dt and is wrapped, the collisions are checked, and no projectile is made |
| Discs.OrbitingDisc.GetDiscPositions | src/weapons/orbiting_disc.py:42-59 | exactly disc_count positions, evenly spread around the owner's centre |
| Discs.OrbitingDisc.AnyDiscHits | src/weapons/orbiting_disc.py:77-88 | the result is whether some disc's circle test touches the box |
| Discs.OrbitingDisc.VisitTarget | src/weapons/orbiting_disc.py:65-88 | the target's entry and health change as Visit says, a hit dealing the disc's damage once; every other entry is kept |
| Discs.OrbitingDisc.CheckCollisions | src/weapons/orbiting_disc.py:61-91 | over a list without repeats each target is visited once as Visit says, a hit dealing the disc's damage, and its entry is then kept only while positive; entries of other zombies stay |
| Discs.OrbitingDisc.Upgrade | src/weapons/orbiting_disc.py:112-127 | the level rises by one and the stats take that level's step of the table |
| Discs.OrbitingDisc.ApplyUpgrade | src/weapons/orbiting_disc.py:112-127 | the stats take the current level's step of the table |
| Upgrades.CatalogShape | src/systems/upgrades.py:6-92 | ten distinct upgrades: the two weapon upgrades first, then eight positive stat boosts of which the last two are heals |
| Upgrades.AvailableMembers | src/systems/upgrades.py:95-117 | an upgrade is available exactly when it is in the catalogue and passes the filter: a weapon upgrade when that weapon is carried, a heal only below max health, any other boost always |
| Upgrades.AvailableInOrder | src/systems/upgrades.py:95-117 | the available upgrades are the kept catalogue entries in catalogue order |
| Upgrades.AvailableAll | src/systems/upgrades.py:95-117 | when every entry passes the filter the whole catalogue is offered |
| Upgrades.OffersInGame | src/systems/upgrades.py:95-117 | carrying both weapons, a wounded player is offered all ten upgrades and a player at full health the first eight |
| Upgrades.GetAvailableUpgrades | src/systems/upgrades.py:95-117 | the result is the filtered catalogue for the player's health and the carried classes |
| Menus.CardsDisjoint | src/ui/upgrade_menu.py:48-57 | the three cards never overlap, so a click selects at most one card: the one whose 320-pixel slot holds it |
| Menus.Sample | src/ui/upgrade_menu.py:33-37 | at most three options are shown: all of them when there are at most three, otherwise three distinct ones drawn from the list |
| Menus.Boost | src/ui/upgrade_menu.py:81-94 | a max-health boost raises the cap and heals fully; a heal gives the smaller of health plus the value and the cap; speed and pickup boosts add to their stat; each boost leaves the other stats alone |
| Menus.BoostKeepsCap | src/ui/upgrade_menu.py:81-94 | no boost lifts health above max health, and a non-negative boost lowers nothing |
| Menus.FirstOf | src/ui/upgrade_menu.py:72-75 | the index of the first carried weapon of the class, absent exactly when none is carried |
| Menus.UpgradeArm | src/ui/upgrade_menu.py:74 | the weapon goes up one level and stays well-formed |
| Menus.ArmsKept | src/ui/upgrade_menu.py:81-94 | a stat boost leaves every weapon well-formed and at its level |
| Menus.PlayerOutside | src/ui/upgrade_menu.py:65-94 | the player is not one of the weapons' objects, so boosting the player does not touch them |
| Menus.MenuOutside | src/ui/upgrade_menu.py:65-94 | the menu is not one of the weapons' objects |
| Menus.BoostPlayer | src/ui/upgrade_menu.py:81-94 | the player's stats become those of Boost |
| Menus.UpgradeFirst | src/ui/upgrade_menu.py:69-75 | the first weapon of the class goes up one level and every other weapon keeps its level |
| Menus.UpgradeMenu.constructor | src/ui/upgrade_menu.py:12-26 | a new menu is closed with no options, no selection, no player and no weapons |
| Menus.UpgradeMenu.Show | src/ui/upgrade_menu.py:28-41 | the menu opens with no selection, the sampled options and the given player and weapons |
| Menus.UpgradeMenu.ApplyUpgrade | src/ui/upgrade_menu.py:65-94 | a stat boost changes the player as Boost says and no weapon; a weapon upgrade raises the first weapon of its class and nothing else; a new-weapon card changes nothing |
| Menus.UpgradeMenu.HandleClick | src/ui/upgrade_menu.py:43-63 | a closed menu ignores the click; an open one takes the clicked card's option, records and applies it, closes and returns it; a click on no card changes nothing and returns nothing |
| Particles.Fade | src/systems/particles.py:27 | life drops by dt as a fraction of the particle's lifetime |
| Particles.FadeAllLinear | src/systems/particles.py:23-28 | after any run of updates life has dropped by the elapsed time over the lifetime |
| Particles.LivesForItsLifetime | src/systems/particles.py:23-28 | a particle starting at full life is still visible exactly while less than its lifetime has elapsed |
| Particles.FallAllLinear | src/systems/particles.py:53-59 | after any run of updates a death particle's vertical speed has grown by gravity times the elapsed time |
| Particles.VoidParticle.constructor | src/systems/particles.py:13-21 | a void particle starts at its point with the drawn velocity, lifetime and size, full life and a colour shifted from (80, 20, 100) |
| Particles.VoidParticle.Update | src/systems/particles.py:23-28 | the particle drifts by velocity times dt, fades as Fade says, and reports whether life is left |
| Particles.DeathParticle.constructor | src/systems/particles.py:40-51 | a death particle starts at its point in the zombie's colour, moving at the drawn speed along the drawn angle, at full life with gravity 400 |
| Particles.DeathParticle.Update | src/systems/particles.py:53-59 | the particle moves on the previous frame's velocity, then gains gravity times dt of vertical speed, fades, and reports whether life is left |
| Particles.CreateDeathParticles | src/systems/particles.py:68-70 | count distinct fresh particles at the point in the given colour at full life, none for a non-positive count |
| Particles.CreateVoidParticles | src/systems/particles.py:73-80 | count distinct fresh particles, each at the point shifted by its drawn offset, so within 50 pixels on each axis |
| Geometry.Rect.Moved | src/entities/player.py:62-63 | moving a box shifts its centre by the offsets and keeps its size |
| Geometry.Centered | src/entities/player.py:15-16 | the box has the given size and centre |
| Geometry.Clamp | src/entities/bullet.py:53-54 | the clamped value lies in the interval and a value already inside is kept |
| Geometry.CircleHitsIffSquare | src/entities/bullet.py:53-58 | the circle test is the same as comparing the squared gap to the box with the squared radius |
| Geometry.CentreInsideHits | src/entities/bullet.py:53-58 | a circle whose centre is inside the box always hits it |
| Geometry.BeyondCornerHits | src/entities/bullet.py:53-58 | a centre beyond the bottom-right corner hits exactly when it is within the radius of that corner |
| Geometry.OverlapSymmetric | src/main.py:126 | the box overlap test does not depend on which box asks |
| Geometry.ClampSpan | src/entities/player.py:65-67 | along one axis a span narrower than the bounds ends up inside them, and one already inside stays put |
| Geometry.ClampInto | src/entities/player.py:65-67 | the clamped rect keeps its size and lies within the bounds along each axis where it is narrower than them |
| Numbers.Trunc | src/entities/player.py:62-63 | Python's int() truncates toward zero: the result is the whole part below a non-negative value and above a negative one |
| Numbers.HypotBelow | src/entities/exp_gem.py:35-37 | a distance is below a bound exactly when the bound is positive and the squared distance is below its square |
| Numbers.HypotAbove | src/entities/exp_gem.py:41 | a distance exceeds a non-negative bound exactly when the squared distance does |
| Numbers.HypotPositive | src/entities/bullet.py:22-24 | a distance is positive exactly when the points differ |
| Numbers.TruncGrows | src/systems/experience.py:33 | scaling a non-negative threshold by a factor of at least 1 and truncating never lowers it |
| Numbers.ModSucc | src/animated_sprite.py:72 | stepping a cyclic counter from its remainder gives the same remainder as stepping the raw count |
| GameLoop.OnEvent | src/main.py:68-84 | quitting stops the loop; Escape stops it after game over and otherwise toggles pause, menu or not; R restarts only after game over; a click reaches the menu only while it is open; any other event changes nothing |
| GameLoop.EscapeTwiceRestores | src/main.py:74-78 | before game over two Escapes in a row give back the flags they started from |
| GameLoop.FlagsOnlyWhatTheEventSays | src/main.py:68-84 | no event changes game over; the loop only stops on Quit or on Escape after game over; pause only flips on Escape before game over; a restart is only asked for by R after game over |
| GameLoop.Click | src/main.py:81-84 | a click on the open menu keeps both weapons well-formed and closes the menu exactly when it picks one of the shown options, which is recorded as the selection |
| GameLoop.GameArms | src/main.py:63-66 | the game's weapon list consists of the gun, the disc and their bases; it is well-formed exactly when both weapons are, and its weapons are separate exactly when their bases differ |
| GameLoop.Remove | src/main.py:131-134 | `list.remove` drops the first occurrence only: the list is unchanged without one, one shorter with one, keeps every other element, adds nothing, and leaves a list without repeats free of the removed element |
| GameLoop.Contacts | src/main.py:121-128 | the contact damages come from live zombies that overlap the player, at most one per zombie |
| GameLoop.OnlyFirstContactHurts | src/main.py:121-128 | however many zombies touch the player in one frame, only the first contact can hurt, because it opens the immunity window, and none hurts while the window is already open |
| GameLoop.Approach | src/main.py:122-123 | zombie i's box moves as Zombies.Chased says toward the centre of the player's box, every other zombie keeps its box, and the contacts so far stay |
| GameLoop.Touch | src/main.py:125-128 | the zombie, where it now stands, touches exactly when it is alive and overlaps the player's box, and only then is the player hit as Players.Hit says |
| GameLoop.ZombieTurn | src/main.py:122-128 | after zombie i's turn, the player's state and the lethal flag are the run of Players.Hit over the contacts of zombies 0..i |
| GameLoop.UpdateZombies | src/main.py:121-128 | every zombie's box moves as Zombies.Chased says toward the centre of the player's box, which does not move; the player's state and whether a hit was lethal are the run of Players.Hit over the frame's contacts in list order |
| GameLoop.FirstCollision | src/main.py:136-155 | a live bullet strikes the first zombie in list order that was alive and touched, which alone takes the bullet's damage while the bullet's state follows Bullets.Strike; when no zombie was struck nothing changes |
| GameLoop.Remains | src/main.py:139-153 | a bullet kill leaves a fresh gem worth the zombie's experience value at its centre in the gem colour, and 15 fresh death particles there in the zombie's colour at full life |
| GameLoop.Fly | src/main.py:131-155 | the bullet moves and stays exactly when it was alive and is not off screen; a live one strikes as FirstCollision says (the first zombie alive and touched, which alone is hurt), and one that stays without striking keeps its state; the struck zombie leaves the list exactly when the strike killed it, and exactly then one fresh gem at its centre worth its experience value in the gem colour and 15 fresh death particles at its centre in its colour join |
| GameLoop.UpdateBullets | src/main.py:130-155 | every bullet moves, it stays in the list exactly when it was alive and is not off screen, and none comes back to life; a zombie leaves the list exactly when it was alive before the loop and is dead after it, and one still listed is as alive as it was; the kills equal the zombies removed, at most one per bullet, each with one fresh gem and 15 fresh death particles |
| GameLoop.BulletTurn | src/main.py:131-155 | one bullet's turn keeps what the loop has done so far: the bullets before it and this one have moved and left exactly when dead or off screen, the later ones are untouched, and the zombies that left are exactly those that were alive and are now dead |
| GameLoop.FlownStep | src/main.py:131-134 | a bullet's move keeps the record of the bullets that have moved: only bullet i moves, and it leaves the list exactly when it is no longer flying |
| GameLoop.CulledStep | src/main.py:137-154 | a strike keeps the record of the zombies that left: only the struck zombie, which was alive, can change, and it leaves the list exactly when it died |
| GameLoop.Visible | src/main.py:166-167 | the kept particles are exactly the listed ones with life left, with no repeats when the list has none |
| GameLoop.Advance | src/systems/particles.py:23-59 | one update of a particle lowers its life by dt over its lifetime |
| GameLoop.Tick | src/systems/particles.py:23-59 | a particle's update advances it as Advance says and reports whether life is left |
| GameLoop.ShownKeeps | src/main.py:166-167 | the particles the filter keeps come from the list, without repeats when it has none, and stay in a state their updates accept |
| GameLoop.VisibleShown | src/main.py:166-167 | once every particle has updated, the filtered list is the particles whose updated life is positive, in list order |
| GameLoop.UpdateParticles | src/main.py:166-167 | every particle of the list updates once, and the kept list is, in order, those still visible |
| GameLoop.PickupsCollected | src/main.py:157-161 | the values collected from the gems are those of the gems that stood within 10 pixels of the player, in list order |
| GameLoop.SweepStep | src/main.py:158-161 | after gem i's turn, the gems among 0..i still listed are exactly those that stood farther than 10 pixels from the player, and the banked values are theirs in order |
| GameLoop.Sweep | src/main.py:157-161 | every gem updates; a gem stays exactly when it stood farther than 10 pixels from the player, and the collected values are those of the gems that left, in list order |
| GameLoop.Bank | src/main.py:162-175 | a collected value goes to the experience bar as Experience.AfterAddExp says; a level-up opens the menu without a selection on the sample of this player's available upgrades; otherwise the menu is untouched |
| GameLoop.BankNext | src/main.py:162-164 | after value i the experience state and the level-up count are those of the run of additions over values 0..i, and any level-up has opened the menu for this player |
| GameLoop.BankAll | src/main.py:157-164 | after the values are banked in order, the experience state and the level-up count are those of the run of additions, the menu is open without a selection when there was a level-up, and otherwise it stays open or closed as it was |
| GameLoop.Game.constructor | src/main.py:34-66 | a new game is running, unpaused and not over, at time 0 with no kills and empty lists, with a full-health player at the screen's centre, a fresh spawner, an empty level-1 experience bar, a closed menu and both weapons at level 1 |
| GameLoop.Game.Restart | src/main.py:86-88 | a restart gives a game in the state a new one starts in, built from fresh sub-systems |
| GameLoop.Game.HandleEvent | src/main.py:70-84 | an event sets the flags as OnEvent says, a restart gives the initial state, an event that asks nothing leaves the menu alone, and the game stays coherent |
| GameLoop.Game.ClickMenu | src/main.py:81-84 | a click on the open menu keeps the game coherent |
| GameLoop.Game.HandleEvents | src/main.py:68-84 | a frame's events, handled in order, keep the game coherent |
| GameLoop.Game.PlayerPhase | src/main.py:98-102 | the player's box keeps its size, ends on screen along each axis it fits, and the immunity timer counts down as Players.Cooldown says |
| GameLoop.Game.FireGun | src/main.py:105-107 | the gun's bullets are fresh, live and unpierced, and join the end of the bullet list |
| GameLoop.Game.SpinDisc | src/main.py:105-107 | the disc turns by its rotation speed times dt, wrapped, and the game stays coherent |
| GameLoop.Game.WeaponPhase | src/main.py:104-107 | the old bullets stay in order and the new ones at the end are fresh, live and unpierced |
| GameLoop.Game.VoidPhase | src/main.py:109-115 | with a roll of 0.3 or more nothing is added; below it one fresh void particle at full life joins the end of the list, placed at the player's centre shifted by the drawn offset |
| GameLoop.Game.SpawnPhase | src/main.py:117-119 | the spawner's clock advances by dt; when the timer reaches the current interval the timer resets and one fresh zombie as the spawner makes it joins the end of the list, and otherwise the list is unchanged |
| GameLoop.Game.ZombiePhase | src/main.py:121-128 | every zombie's box moves as Zombies.Chased says toward the centre of the player's box; the player's state and whether a hit was lethal are the run of Players.Hit over the frame's contacts in list order, and a lethal run leaves the player dead at 0 health |
| GameLoop.Game.BulletPhase | src/main.py:130-155 | every bullet moves, it stays exactly when it was alive and is not off screen, and none comes back to life; bullets and zombies only leave their lists, and a zombie leaves exactly when it was alive before and is dead after; the kills grow by the number of zombies removed, at most one per bullet; each kill adds one fresh gem and 15 fresh death particles at the end of their lists; the clocks, game over and the player do not change |
| GameLoop.Game.CollectGems | src/main.py:157-161 | a gem stays exactly when it stood farther than 10 pixels from the player's centre; the collected values are those of Pickups on the gems as they stood; kills, clocks, player and spawner do not change |
| GameLoop.Game.BankGems | src/main.py:162-175 | the experience state and the level-up count are those of the run of additions over the collected values; a level-up leaves the menu open without a selection; nothing else in the game changes |
| GameLoop.Game.AdvanceClock | src/main.py:95-96 | the game time grows by dt |
| GameLoop.Game.EndGame | src/main.py:127-128 | a lethal hit sets game over and anything else leaves the flag as it was; the player and the frame's contacts do not change and the game stays coherent |
| GameLoop.Game.Steer | src/main.py:95-107 | the game time grows by dt, kills and game over stay, and every listed bullet is an old one or fresh |
| GameLoop.Game.Populate | src/main.py:109-119 | the spawner's clock grows by dt, the bullets, kills, game time and game over stay, and only fresh zombies and fresh void particles are added |
| GameLoop.Game.Fight | src/main.py:121-128 | the player's state is the run of Players.Hit over the frame's contacts, and the game is over exactly when it was before or a hit was lethal; a game over set here comes with a dead player at 0 health; the lists, kills and clocks stay |
| GameLoop.Game.FirstSteps | src/main.py:95-128 | both clocks grow by dt, kills stay, a new game over comes with a dead player at 0 health, and every listed bullet, zombie and particle is an old one or fresh |
| GameLoop.Game.Shoot | src/main.py:130-155 | kills never fall, bullets and zombies only leave their lists, only fresh gems and death particles join, and the clocks, game over and the player stay |
| GameLoop.Game.Gather | src/main.py:157-164 | kills, particles, the clocks, game over and the player's health stay |
| GameLoop.Game.AgeParticles | src/main.py:166-167 | every particle updates once as Advance says, and the kept ones are those still visible, without repeats and accepted by their updates |
| GameLoop.Game.ParticlePhase | src/main.py:166-167 | every particle updates once as Advance says and the list becomes the visible ones in order; kills, clocks, game over and the player stay |
| GameLoop.Game.LastSteps | src/main.py:130-167 | kills never fall, and the clocks, game over and the player's health stay |
| GameLoop.Game.Play | src/main.py:95-167 | an unhalted frame advances both clocks by dt, never lowers kills, keeps the game coherent, and a game over comes with a dead player at 0 health |
| GameLoop.Game.Update | src/main.py:90-167 | a paused or finished game, or one showing the menu, does not change at all: neither the game's fields, nor its player, sub-systems and weapons, nor any listed zombie, bullet, gem or particle; otherwise the frame runs as Play says |

## Left out

- Rendering is not modelled: every `draw` method, the HUD, the main menu screen, fonts, surfaces and the sprite sheet image. These only read state and draw it.
- Pygame's display, clock and event queue are not modelled, nor is the pressed-key array. The events, the held keys and `dt` are parameters to the model.
- `math.hypot`, `atan2`, `cos`, `sin` and `pi` are treated as an oracle (`Numbers.MathLib`). Only the law of `hypot` is assumed, so no property depends on trigonometric values.
- Floating point is modelled as exact real arithmetic. Rounding is not modelled.
- Positions in pygame `Rect`s are reals. Pygame truncates rectangle coordinates to integers, and that truncation is not modelled. The truncation that `int()` applies to player movement is modelled (`Numbers.Trunc`).
- Random draws are parameters whose ranges are stated. Probabilities and distributions are not modelled.
- The `config` values are not fixed. They are the `Settings.Config` record, with the assumptions of `Config.Valid`.
- The frame time is required to be non-negative, as a clock tick is.
- Python objects are compared by identity. The disc's cooldown map is keyed by the zombie object rather than by `id()`, so reuse of an `id` after garbage collection is not modelled.
- Inheritance is flattened. `AutoGun` and `OrbitingDisc` hold their `Weapon` part as `base`, and `BossZombie` holds its `Zombie` part as `body`. The abstract `Weapon.update`, which only raises, is left out.
- `Game.update`'s loop over the weapon list is written out as the gun's turn followed by the disc's, which is the list's fixed order.
- The display dictionaries `get_info` of the weapons and `get_level_info` of the experience system are not modelled, nor are the upgrade icons and descriptions or the printed messages of `on_level_up`. They only package state for the screen. The progress value that `get_level_info` reports is modelled by `Experience.ExperienceSystem.Progress`.
- `Game.run`, the outer loop, is not modelled. All it does is call `handle_events`, `update(dt)` and `draw` once per clock tick until `running` is false, and those three are modelled (`draw` aside) as `GameLoop.Game.HandleEvents` and `GameLoop.Game.Update`.
- `Game.restart` is modelled as building a fresh game state, as re-running `__init__` does. A new pygame window is not modelled.
- Sprite-sheet loading from disk is not modelled. Frames are the cut rectangles of a sheet.
- The gem loop of `update` is proved in two passes over state that does not overlap: `Sweep` moves and removes the gems, then `BankAll` adds their values and opens the menu. `on_level_up` reads neither gem positions nor anything the gem update changes, so the order in which the two passes interleave does not matter.
- Players.Player.HandleInput: requires `MathLib.Valid`, the law of `hypot`, because the diagonal normalisation divides by it.
- Experience.ExperienceSystem.LevelUp: requires the experience-ledger invariant that `AddExp` keeps. It is only ever called from `add_exp`.
- Weapons.Weapon.ApplyUpgrade: has no `ensures`. Its empty frame states that the default changes nothing.
- GameLoop.Game.Update and GameLoop.Game.Play: state the halting gate, the two clocks, that kills never fall, the invariant, and that game over means a dead player. Per-entity effects are stated by the phase methods (`PlayerPhase` … `ParticlePhase`), not carried up to the frame.
- GameLoop.Game.FirstSteps, GameLoop.Game.LastSteps, GameLoop.Game.Steer, GameLoop.Game.Populate, GameLoop.Game.Shoot and GameLoop.Game.Gather: state only what the frame needs from each group of phases. The details are in the phase methods they call.
- GameLoop.Game.HandleEvents and GameLoop.Game.ClickMenu: state only that the game stays coherent. The effect of one event is stated by `GameLoop.Game.HandleEvent`, and the effect of a click by `GameLoop.Click` and `Menus.UpgradeMenu.HandleClick`.
- GameLoop.Game.SpinDisc: states the disc's new angle and the invariant. The per-zombie damage and cooldowns are stated by `Discs.OrbitingDisc.Update`.
- GameLoop.Game.WeaponPhase: states how the bullet list grows. The effect on zombie health is stated by `Discs.OrbitingDisc.Update`.
- GameLoop.UpdateBullets and GameLoop.Game.BulletPhase: state the counts and freshness of the new gems and particles, not which removed zombie each belongs to. The value, position and colour of each are stated per bullet by `GameLoop.Fly`, which ties them to its victim.
- GameLoop.UpdateBullets and GameLoop.Game.BulletPhase: do not state the health of a zombie that was struck and survived, the pierce count of a bullet that struck, or that the surviving bullets and zombies keep their list order. `GameLoop.Fly` states each per bullet: the struck zombie's health follows `Zombies.Hurt`, the bullet's state follows `Bullets.Strike`, and each list shrinks only by one `list.remove` (`GameLoop.Remove`) per bullet. Carrying these through the bullet loop would need more per-object snapshots in its invariant, and with them the loop's proof exceeds the solver budget the model is kept within.
- GameLoop.Game.Fight: the zombies' movement is stated by `GameLoop.Game.ZombiePhase`, which it calls, and is not carried up.
- GameLoop.Game.Gather: the link to the experience bar is stated by `GameLoop.Game.CollectGems` and `GameLoop.Game.BankGems`, which it calls.
