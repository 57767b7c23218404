# Ancient Apocalypse: gameplay core in Dafny

A model of the gameplay core of a WebXR zombie-survival game, with proofs
about it. The game runs in A-Frame on a Meta Quest headset. The model
covers four components:

- **game manager** (`Game` and the `powerup` component): the session
  lifecycle menu → playing → gameover, the wave director, kills, drops and
  player damage, health regeneration, powerups and their expiry timers.
- **zombie**: hp with a dead latch, headshot doubling, seeking the player
  on the floor plane, and biting on a cooldown.
- **gun**: magazine and reserve, the fire guards, the two-phase reload,
  the safety, resolving a ray hit to a zombie, damage and score.
- **vr-controls**: stick movement with a dead zone and sprint, the
  clamped tick, the keyboard fallback, the sprint HUD text, the restart
  guard and the melee strike.

Every `setTimeout`/`setInterval` of these pieces is a timer in one explicit
queue (`Timers`). A timer is armed with a delay and can be cancelled by id.
It fires when time advances to it, earliest due time first and
registration order on ties. The whole game is one immutable `World`.
Everything that can happen to it is an `Action`: a button press, a timer
firing, a frame of one entity, a controller or keyboard input, or the
left thumbstick click that toggles sprint, or a confirmed restart.
`GameManager.Run`
applies a sequence of them.

Files, each one module:

| file | module | contents |
|---|---|---|
| common.dfy | Common | Option, Vec3, State, Difficulty, PowerupKind, `Math.ceil` on reals |
| timers.dfy | Timers | the timer queue: schedule, cancel, fire next |
| waves.dfy | Waves | `getWaveConfig`, `calculatePlayerDamage`, `createZombie` stat formulas |
| zombie.dfy | Zombies | `takeDamage`/`die`, `tick` |
| gun.dfy | Guns | `shoot`, `reload`, `toggleSafety`, hit resolution and outcome |
| controls.dfy | Controls | `handleMovement`, `tick`, keyboard, `toggleSprint`, `restartGame`, `meleeAttack` |
| game.dfy | GameManager | the session and the pickup component, actions and runs |
| game_inv.dfy | GameInvariants | the session invariant, its preservation by every action, scenarios |

JavaScript numbers are modelled as exact reals. Integer counters (`hp`,
`score`, `magazine`, …) are unbounded `int`s, since no counter of the
game comes near 2^53.

## Model

| member | source | states |
|---|---|---|
| Common.KindAt | components/game-manager.js:384-391 | the drop table `['instakill','maxammo','shield','speed']` indexed by position, inverse of `KindIndex` |
| Common.Clamp | components/controls.js:382-383 | `Math.max(lo, Math.min(hi, v))` lies in [lo, hi], is v inside and the nearer bound outside |
| Common.CeilUnique | components/game-manager.js:203-208 | `Math.ceil` of x is the unique integer n with n-1 < x <= n |
| Timers.Empty | components/game-manager.js:27-34 | no timer is pending at load and the id supply starts valid |
| Timers.Schedule | components/game-manager.js:295-300 | setTimeout appends a timer with a fresh id, due at now+delay; validity kept and the id was not pending before |
| Timers.Without | components/game-manager.js:584 | removing an id keeps exactly the timers with other ids |
| Timers.WithoutKeepsDistinct | components/game-manager.js:584 | removal keeps ids pairwise distinct |
| Timers.Cancel | components/game-manager.js:445-447 | clearTimeout(id): exactly the timers with other ids stay; that id is no longer pending; a no-op for a spent id |
| Timers.CancelIdempotent | components/game-manager.js:445-447 | cancelling twice is cancelling once |
| Timers.Earliest | components/game-manager.js:295-300 | the next timer has the minimal due time and is the first registered among equals |
| Timers.RemoveAtFacts | components/game-manager.js:295-300 | taking one timer out keeps every other one and keeps ids distinct |
| Timers.PopNext | components/game-manager.js:295-300 | the firing timer is pending with minimal due time; the clock moves to it; every other timer stays; it never fires again |
| Timers.CancelAll | components/game-manager.js:577-585 | clearing a list of handles keeps exactly the timers whose id is not in the list |
| Timers.CancelledNeverFires | components/game-manager.js:443-447 | a cancelled timer is never the one that fires next |
| Waves.GetWaveConfig | components/game-manager.js:203-231 | spawn delay within [400, 775], count within [4.2, 128], speed >= 0.48, hp >= 3.2 for every wave and difficulty |
| Waves.CeilMonotone | components/game-manager.js:207 | `Math.ceil` is monotone |
| Waves.WaveConfigMonotone | components/game-manager.js:203-231 | later waves are never easier: count, speed, hp and spawn total do not fall and the delay does not rise |
| Waves.BaseConfigCaps | components/game-manager.js:204-209 | the unscaled count caps at 80 exactly from wave 38 and the delay floors at 400 exactly from wave 16 |
| Waves.DifficultyScaling | components/game-manager.js:211-228 | a difficulty multiplies count, speed and hp by its factors and leaves the spawn delay alone |
| Waves.Wave1Normal | components/game-manager.js:203-231 | wave 1 on normal is 6 zombies at speed 0.6 with hp 4, one per 775 ms |
| Waves.Wave1EasySpawnsFive | components/game-manager.js:203-248 | wave 1 on easy has count 4.2, so its spawn chain creates 5 zombies |
| Waves.PlayerDamage | components/game-manager.js:319-336 | the bite damage is the least integer not below 8 times the difficulty factor |
| Waves.PlayerDamageValues | components/game-manager.js:319-336 | a bite costs 6, 8, 11 or 13 hp on easy, normal, hard or nightmare |
| Waves.ZombieSpeed | components/game-manager.js:258 | a spawned speed is within 0.15 of the wave's base speed |
| Waves.ZombieHp | components/game-manager.js:259 | a spawned hp lies between ceil(baseHp-1) and ceil(baseHp+1) |
| Waves.SpawnedStatsPositive | components/game-manager.js:250-283 | without any clamp, every zombie of every wave and difficulty starts with hp >= 3 and positive speed |
| Waves.RingDistance | components/game-manager.js:264-267 | a point at radius r on the unit circle's direction is at squared distance in [36, 64) when 6 <= r < 8 |
| Waves.SpawnPoint | components/game-manager.js:264-269 | zombies appear on the floor in the ring between radius 6 and 8 around the origin |
| Zombies.Spawn | components/zombie.js:9-27 | a new zombie is alive with its attack cooldown at 0 |
| Zombies.TakeDamage | components/zombie.js:232-245 | a dead zombie ignores damage; otherwise hp drops by the damage (doubled for a headshot) and the zombie dies, signalling one kill and its removal after 2000 ms, exactly when hp reaches 0 or below |
| Zombies.HeadshotDoubles | components/zombie.js:235 | a headshot takes exactly twice the hp of a body shot of the same damage |
| Zombies.HpNeverIncreases | components/zombie.js:232-245 | non-negative damage never raises hp |
| Zombies.KilledAtMostOnce | components/zombie.js:232-269 | over any sequence of hits the kill event is emitted at most once, and exactly once iff the zombie went from alive to dead |
| Zombies.TwoHeadshotsKill | components/zombie.js:232-245 | hp 4 and two headshots of 1: 2 and alive, then 0, dead, with one kill and its removal |
| Zombies.Cooldown | components/zombie.js:305-313 | out of range nothing changes; in range the cooldown runs down by dt and a bite is emitted, resetting it to 1000, exactly when it reaches 0 or below |
| Zombies.Tick | components/zombie.js:271-314 | a dead zombie does nothing; a live one keeps hp, speed and height, stays put within 0.001 of the player, farther away steps speed·dt/1000 straight toward the player (so the planar distance left is the old one minus the step), and bites only within 0.8 |
| Zombies.SeekStep | components/zombie.js:281-290 | each step has length speed·dt on the line to the player, so the planar distance becomes abs(distance - step) |
| Zombies.FirstTickInRangeBites | components/zombie.js:305-313 | a fresh zombie bites on its first tick in range |
| Zombies.NoBiteWithinCooldown | components/zombie.js:305-313 | while the frame times sum to less than the remaining cooldown there is no bite, and the cooldown falls by exactly that sum |
| Zombies.SumNonNegative | components/zombie.js:305-313 | frame times that are not negative add up to a non-negative total |
| Guns.Ready | components/gun.js:206-208 | the cooldown timer lets the gun fire again and changes nothing else about it |
| Guns.Shoot | components/gun.js:175-209 | refused while cooling down, reloading or on safety; a dry click on an empty magazine; otherwise one round is spent and the gun locks |
| Guns.StartReload | components/gun.js:309-315 | refused while reloading, with a full magazine or an empty reserve; otherwise the rounds needed are captured |
| Guns.FinishReload | components/gun.js:323-329 | min(needed, reserve) rounds move from reserve to magazine; no round is created or lost |
| Guns.Refill | components/game-manager.js:460-466 | maxammo sets the reserve to 120 and fills the magazine, leaving the gun's flags alone |
| Guns.ReloadCycle | components/gun.js:309-330 | a full reload keeps the rounds total, fills the magazine if the reserve allows or else empties the reserve |
| Guns.NoShotDuringReload | components/gun.js:176 | no shot changes the gun while a reload is running, so the captured `needed` stays exact |
| Guns.RefillDuringReloadOverfills | components/gun.js:323-329 | a maxammo pickup during a reload leaves the magazine at maxMag + needed when the timer fires |
| Guns.ShootKeepsSane | components/gun.js:175-209 | shooting, the cooldown timer, a refill and starting a reload keep 0 <= magazine <= 15 and reserve >= 0 |
| Guns.ToggleSafety | components/gun.js:346-351 | the safety flips and nothing else changes |
| Guns.ToggleSafetyTwice | components/gun.js:346-351 | toggling twice restores the gun |
| Guns.Resolve | components/gun.js:222-232 | the first object along the parent walk that has an entity decides, and it yields a target exactly when that entity is a zombie; the headshot flag is that object's |
| Guns.NonZombieEntityShields | components/gun.js:226-230 | an entity without a zombie component stops the walk with no target |
| Guns.HitOutcomeTable | components/gun.js:234-237 | damage depends only on instakill (10 vs 1), score only on the headshot flag (15 body, 30 head), and a headshot scores twice a body shot |
| Controls.Init | components/controls.js:3-28 | the rig starts at base speed 0.18, sprint multiplier 2, not sprinting |
| Controls.HandleMovement | components/controls.js:77-100 | only the move vector changes; inside the 0.1 dead zone it is zero; it is always horizontal |
| Controls.MoveVectorLength | components/controls.js:87-99 | outside the dead zone the move vector has length speed·sqrt(x²+y²) whatever the camera yaw |
| Controls.SprintDoublesSpeed | components/controls.js:88 | sprinting doubles the speed both movement paths read |
| Controls.Tick | components/controls.js:371-405 | only the position changes; with no key held a stick move stays within ±5.5 on x and z, and a zero move vector leaves the rig still |
| Controls.StickMoveExact | components/controls.js:373-386 | inside the box the rig moves by exactly the move vector |
| Controls.KeyboardIgnoresBounds | components/controls.js:394-403 | the keyboard path is not clamped: holding D at x = 5.5 walks past the wall |
| Controls.SingleKeyStep | components/controls.js:394-403 | with the stick idle and one key held, a tick moves the rig by exactly the current speed: W toward -z, S toward +z, A toward -x, D toward +x |
| Controls.SprintDoublesKeyboardStep | components/controls.js:394-403 | with the stick idle and one key held, the displacement of a tick while sprinting is twice the displacement while walking |
| Controls.KeyDown | components/controls.js:343-360 | pressing left shift starts sprinting; other keys leave the sprint flag alone |
| Controls.KeyUp | components/controls.js:362-368 | releasing left shift stops sprinting; other keys leave the sprint flag alone |
| Controls.KeyPressRelease | components/controls.js:339-369 | pressing and releasing a key restores the movement state |
| Controls.ToggleSprint | components/controls.js:114-126 | the sprint flag flips, and when it turns on the HUD text contains "Sprint" |
| Controls.SprintOnContains | components/controls.js:118-121 | the sprint-on text always contains "Sprint" |
| Controls.MatchShift | components/controls.js:124 | a match in a string's tail is a match one position later in the string |
| Controls.TailLacks | components/controls.js:124 | a string that lacks a pattern has a tail that lacks it too |
| Controls.ReplaceAbsent | components/controls.js:124 | `replace` of a pattern that does not occur changes nothing |
| Controls.ContainsLonger | components/controls.js:124 | text containing "Sprint • " contains "Sprint" |
| Controls.NoEarlySuffix | components/controls.js:121-124 | " • Sprint" appended to Sprint-free text cannot match before the point it was appended |
| Controls.StripSuffix | components/controls.js:121-124 | removing the first " • Sprint" from Sprint-free text plus that suffix gives the text back |
| Controls.SprintTextRoundTrip | components/controls.js:114-126 | turning sprint on then off restores any HUD text that did not mention Sprint, the dash placeholder included |
| Controls.ToggleSprintTwice | components/controls.js:114-126 | two toggles restore both the sprint flag and such a HUD text |
| Controls.RestartOffered | components/controls.js:221-229 | a restart is offered exactly while playing or after game over |
| GameManager.RestartFromAnyGame | components/controls.js:221-229 | the restart action does nothing from the menu; otherwise a confirmed restart gives a fresh menu session with nothing pending, no zombies and full health |
| Controls.MeleeOutcome | components/controls.js:289-319 | a hit is produced exactly when a zombie is resolved; it strikes that zombie for 2 damage, never as a headshot, for 5 points |
| GameManager.Initial | components/game-manager.js:8-19 | the page loads in the menu with full health and nothing scheduled |
| GameManager.SprintToggleTwice | components/controls.js:40-42 | the left thumbstick click flips the sprint flag and changes nothing else in the session, so two clicks leave it as it was |
| GameManager.Delay | components/game-manager.js:244 | a non-negative timer delay is kept and a negative one counts as 0 |
| GameManager.CreateZombie | components/game-manager.js:250-283 | one live zombie is added under a fresh id with jittered stats in range and a zero cooldown; nothing else changes |
| GameManager.SpawnZombie | components/game-manager.js:233-248 | the chain stops once `count` is reached or play ends; otherwise it adds one zombie, counts it spawned and alive, and re-arms itself after the spawn delay |
| GameManager.StartWave | components/game-manager.js:185-201 | only while playing: spawned restarts from 0, a live zombie is added at once under a fresh id, and the spawn chain is armed with the current wave's configuration after its spawn delay; the alive counter is not reset |
| GameManager.CompleteWave | components/game-manager.js:355-370 | the wave goes up by one, the new wave number times 50 is scored, and the next wave starts 2000 ms later |
| GameManager.AddScore | components/game-manager.js:529-535 | the score grows by exactly the points and nothing else changes |
| GameManager.MaybeDrop | components/game-manager.js:384-413 | below the 0.18 draw a pickup of the drawn kind appears at height 0.3 over the kill point's x and z with a 15 s removal timer; otherwise nothing happens |
| GameManager.OnZombieKilled | components/game-manager.js:285-301 | one fewer enemy alive; a completion check is armed exactly when none remain alive and the current wave's count was spawned |
| GameManager.DamageZombie | components/zombie.js:232-269 | only the hit zombie changes, as `takeDamage` says; the alive counter drops exactly on the alive-to-dead transition; a dead zombie changes nothing |
| GameManager.OnPlayerHit | components/game-manager.js:303-317 | ignored when dead or shielded; otherwise hp falls by the difficulty's damage, clamped at 0, and the game ends exactly when hp did not exceed the damage |
| GameManager.RegenTick | components/game-manager.js:172-177 | +1 hp exactly while alive with 0 < hp < maxHp; the interval re-arms |
| GameManager.TableIds | components/game-manager.js:584 | the handles of the powerup table, every one and nothing else |
| GameManager.TableIdsCover | components/game-manager.js:584 | every key of the table contributes its handle |
| GameManager.ClearGameTimers | components/game-manager.js:577-585 | exactly the regen interval and the table's handles are cancelled |
| GameManager.EndGame | components/game-manager.js:548-575 | the state becomes gameover, the player dead, the game timers cleared; nothing else changes |
| GameManager.ActivatePowerup | components/game-manager.js:443-497 | the flag is set, the old expiry of that kind is cancelled, a fresh one is armed and recorded; maxammo refills the gun, speed multiplies base speed by 1.5 |
| GameManager.ExpirePowerup | components/game-manager.js:454-490 | the flag drops and speed divides base speed by 1.5 once |
| GameManager.Collect | components/game-manager.js:693-708 | the latch makes the collection event carry the kind at most once |
| GameManager.PickupTick | components/game-manager.js:678-691 | a pickup is collected exactly when not yet collected and the player is closer than 1.2 |
| GameManager.CollectAtMostOnce | components/game-manager.js:678-708 | over any sequence of frames a pickup emits at most one collection, exactly one iff it came within reach while uncollected |
| GameManager.StartGame | components/game-manager.js:134-183 | only from the menu: the session resets to wave 1, score 0, full hp, no powerups; the recorded powerup timers are cancelled; wave 1's first zombie spawns and regen is armed |
| GameManager.Elapse | components/game-manager.js:295-300 | nothing pending, nothing happens; wave timers do nothing outside play; a completion check during play advances the wave and scores 50 times the new wave |
| GameManager.HitZombie | components/gun.js:230-237 | a zombie still present takes the instakill-dependent damage unless already dead, and the player scores 30 or 15 even for a dying zombie |
| GameManager.Shoot | components/gun.js:175-209 | a refused or dry trigger changes nothing; a shot spends a round and locks the gun, and the last timer armed is the 120 ms re-enable; a miss scores nothing |
| GameManager.Melee | components/controls.js:289-319 | a zombie target takes `takeDamage(2, false)` and 5 points are scored; gun and state untouched |
| GameManager.Reload | components/gun.js:309-330 | when the gun accepts, it is marked reloading and a 1500 ms timer carries the rounds needed at that moment |
| GameManager.ZombieFrame | components/zombie.js:271-314 | an absent or dead zombie changes nothing; otherwise the zombie becomes its own tick's result, no bite leaves the rest of the session alone, and a bite costs the difficulty's damage (clamped at 0, game over when it reaches 0) unless the player is dead or shielded; hp never rises |
| GameManager.PickupFrame | components/game-manager.js:678-708 | a collection removes the pickup and activates its kind; out of reach nothing changes |
| GameInvariants.InitialInv | components/game-manager.js:8-19 | the loaded page satisfies the session invariant |
| GameInvariants.SpawnZombieInv | components/game-manager.js:233-248 | a spawn of a wave not after the current one keeps the invariant, in particular spawned <= ceil(count) |
| GameInvariants.StartWaveInv | components/game-manager.js:185-201 | starting a wave keeps the invariant |
| GameInvariants.CompleteWaveInv | components/game-manager.js:355-370 | completing a wave keeps the invariant; pending spawn timers stay tied to a wave not after the current one |
| GameInvariants.EndGameInv | components/game-manager.js:548-585 | game over leaves no regen and no powerup expiry pending |
| GameInvariants.OnPlayerHitInv | components/game-manager.js:303-317 | a bite keeps 0 <= hp <= 100 and hp = 0 exactly at game over |
| GameInvariants.AddScoreInv | components/game-manager.js:529-535 | adding non-negative points keeps the invariant |
| GameInvariants.MaybeDropInv | components/game-manager.js:384-413 | a drop keeps the invariant |
| GameInvariants.OnZombieKilledInv | components/game-manager.js:285-301 | the kill handler restores alive = number of live zombies |
| GameInvariants.DamageZombieLive | components/zombie.js:232-269 | after a hit the alive counter equals the number of live zombies and removal timers name dead zombies |
| GameInvariants.DamageZombieInv | components/zombie.js:232-269 | a hit keeps the invariant |
| GameInvariants.HitZombieInv | components/gun.js:230-237 | a resolved gun hit keeps the invariant |
| GameInvariants.ShootInv | components/gun.js:175-209 | a trigger pull keeps the invariant |
| GameInvariants.MeleeInv | components/controls.js:289-319 | a melee strike keeps the invariant |
| GameInvariants.ActivatePowerupInv | components/game-manager.js:443-497 | activation keeps one recorded expiry per kind |
| GameInvariants.ExpirePowerupInv | components/game-manager.js:454-490 | an expiry keeps the invariant |
| GameInvariants.RegenTickInv | components/game-manager.js:172-177 | the re-armed interval is the only regen timer |
| GameInvariants.RemoveZombieInv | components/zombie.js:266-268 | removing a dead zombie's entity keeps the live count |
| GameInvariants.GunTimerInv | components/gun.js:206-208 | the gun's timers touch only the gun |
| GameInvariants.RemovePickupInv | components/game-manager.js:408-412 | a pickup's removal keeps the invariant |
| GameInvariants.ZombieFrameInv | components/zombie.js:271-314 | a zombie frame, bite included, keeps the invariant |
| GameInvariants.PickupFrameInv | components/game-manager.js:678-708 | a pickup frame, collection included, keeps the invariant |
| GameInvariants.StartGameInv | components/game-manager.js:134-183 | starting from the menu leaves no stale powerup expiry pending |
| GameInvariants.PopInv | components/game-manager.js:295-300 | taking the next timer out of the queue keeps the invariant |
| GameInvariants.DispatchInv | components/game-manager.js:295-300 | any timer that fires keeps the invariant |
| GameInvariants.ElapseInv | components/game-manager.js:295-300 | letting time pass to the next timer keeps the invariant |
| GameInvariants.StepInv | components/game-manager.js:36-60 | every well-formed action keeps the invariant |
| GameInvariants.RunInv | components/game-manager.js:36-60 | along any run, 0 <= hp <= 100 with hp = 0 exactly at game over, alive >= 0, spawned <= ceil(count), and no regen after game over |
| GameInvariants.ReachableInv | components/game-manager.js:27-60 | every session reachable from the loaded page keeps the invariant |
| GameInvariants.OneExpiryPerKind | components/game-manager.js:443-447 | two pending expiries of the same kind are the same timer |
| GameInvariants.TwoBitesFromTen | components/game-manager.js:303-317 | on normal, 10 hp goes to 2 after one bite and to 0 and game over after the next |
| GameInvariants.SpeedRefreshCompounds | components/game-manager.js:480-493 | collecting speed twice multiplies base speed by 2.25 with one expiry pending, and after it fires 1.5 times the original remains |
| GameInvariants.SpawnChainCount | components/game-manager.js:233-248 | repeated firings spawn one zombie each until exactly ceil(count) exist, and none after |

`Dispatch`, `Apply` and `Run` in `GameManager` carry no contract of their
own. What a firing timer and an action do is stated by the members they
call and by `DispatchInv`, `StepInv` and `RunInv`.

### Where the model follows the code rather than the design intent

- Collecting speed while it is active compounds. The intent is one ×1.5
  refresh with a single division on expiry. The code multiplies again, so
  the player ends at ×2.25. The first expiry is cancelled, so only one
  division happens and ×1.5 remains for good
  (`SpeedRefreshCompounds`).
- The wave-completion test re-reads the CURRENT wave's configuration,
  where a configuration captured per wave was intended (`WaveCleared`).
- A fractional `count` (easy, hard and nightmare scaling) makes the chain
  spawn ceil(count) zombies, e.g. 5 for count 4.2 (`SpawnChainCount`).
- `startWave` resets `enemiesSpawned` but not `enemiesAlive`.
- A shot at an already dying zombie still scores 30 or 15 (`HitZombie`).
- The hit walk stops at the FIRST object that belongs to an entity, and
  only a zombie entity yields a target (`Resolve`). The zombie component
  builds its head, skull, torso and limbs as entities of their own. So a
  ray that strikes one of those parts ends the walk at the part, and
  `NonZombieEntityShields` shows that such a hit yields no target. The
  model keeps the walk as written and takes the object chain as input.
- A maxammo pickup during a reload overfills the magazine
  (`RefillDuringReloadOverfills`).
- The keyboard movement path is not clamped to the ±5.5 box
  (`KeyboardIgnoresBounds`).
- A pickup can still be collected after game over. It sets its flag and
  arms an expiry timer that nothing clears.
- Stale timers are not guarded by a generation counter. They are
  cancelled by handle where the code cancels them: powerup re-activation,
  the regen interval and powerup table at game over, the table at start.
  The completion check and next-wave timers are not cancelled. The
  completion check does nothing unless playing, and `startWave` and the
  spawn chain do nothing unless playing.

## Left out

- Double handler registration: `zombie-killed` and `zombie-hit-player`
  are handled both by a listener on the zombie entity (game-manager.js
  lines 272-279) and by one on the document (lines 50-56). A-Frame's
  `emit` bubbles, so each event may reach its handler twice. The model
  runs each handler once per event, because event dispatch is not part of
  this model.
- Floating point: numbers are exact reals, so double rounding is not
  modelled. The `Math.ceil` arguments of the wave and damage formulas are
  short decimals such as 3 + 0.8·wave and 8 × 1.3. Their rounding error
  stays below half a unit in the last place, so the ceilings agree.
- Randomness: every `Math.random()` draw is a parameter
  (`SpawnRolls`, `DropRolls`), constrained to [0, 1).
- Trigonometry and square roots: the spawn angle and the camera yaw are
  given as a cosine/sine pair on the unit circle. The planar distance to
  the player is given with its square fixed.
- Frame time: the `dt` of a zombie frame is a parameter, not linked to
  the timer clock.
- The gun and the rig are always present. The optional-chaining branches
  of `activatePowerup` for a missing gun or controls component are not
  modelled.
- The raycast geometry (`intersectObjects`, the 1.5 melee range): the
  nearest hit's parent chain or resolved target is an input.
- Gun headshots: the model's target carries a free headshot flag. In the
  game the object passed to `isHeadshot` is the first object on the parent
  walk that has an entity; for a resolved zombie that is the zombie's own
  root object, never the head's, so a 30-point double-damage gun hit
  cannot actually happen. The model allows
  more than the game does here.
- Presentation only: HUD and DOM updates, audio, hit, blood, muzzle and
  collection effects, `getPowerupConfig` visuals, zombie type and model
  variations, groaning, the walk animation.
- `restartGame`'s confirmation dialog: a `Restart` action is a confirmed
  one (a declined dialog is no action). The reloaded page is modelled as
  `Initial` with the difficulty, powerup setting and rig position it
  starts from as inputs; local storage across the reload is not modelled.
- Persistence: `saveProgress`, `saveHighScore` and the 30 s autosave
  interval write local storage only.
- Weather and time-of-day intervals, `handleTurning`, the flashlight and
  laser toggles: they do not affect the game state.
- Teleport (`startTeleport`/`endTeleport`): it moves the rig to the
  marker's x and z without the ±5.5 clamp, so it can take the rig out of
  the box. Where the marker lands is floor raycast geometry, which is not
  modelled, so teleport is not an `Action`.
- The pickup's distance to the player: `PickupTickAt` takes it as a free
  input rather than the 3D distance from the pickup to the rig that the
  pickup's `tick` computes, because the pickup's bob animation moves it
  and that animation is not modelled.
- The `zombie-wave-start`, `game-state-changed` and `zombie-groan`
  events: they only inform other components.
- Controls.Tick: its contract bounds the position only when no movement
  key is held. With keys held, the keyboard step is added after the
  clamp, and `KeyboardIgnoresBounds` shows the result can leave the box.
- Controls.ToggleSprint: it states that the text contains "Sprint" when
  sprint turns on. The off direction is stated as a round trip
  (`SprintTextRoundTrip`) for text that did not already mention Sprint.
- GameManager.Elapse: its own contract covers the empty queue, the wave
  timers outside play and the completion check during play. The effect
  of every other timer is stated through the members `Dispatch` calls.
- GameManager.OnZombieKilled: the completion-timer equivalence is stated
  for a valid timer queue, which every reachable session has (`RunInv`).
- GameManager.ZombieFrame: "hp never rises" is stated for hp >= 0, which
  every reachable session has (`RunInv`).
- GameManager.StartGame: "no stale expiry survives" is stated for a valid
  timer queue, which every reachable session has.
- Guns.FinishReload: the reserve bounds are stated for a non-negative
  reserve, which every reachable gun has (`ShootKeepsSane`,
  `ReloadCycle`).
