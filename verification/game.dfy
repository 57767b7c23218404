/** The `Game` session object and the `powerup` component: the lifecycle
    menu -> playing -> gameover, the wave director with its self-rescheduling
    spawn chain, kill and player-hit handling, health regeneration, the
    powerup timers, and the world-level effect of the gun, the melee strike
    and the zombies' bites. Every setTimeout/setInterval of these pieces is a
    timer of one queue. */
module GameManager {
  import opened Common
  import opened Timers
  import opened Waves
  import Zombies
  import Guns
  import Controls

  /** What a pending timer will do when it fires. */
  datatype Event =
    | SpawnNext(config: WaveConfig)    // spawnWave's chained setTimeout
    | CompletionCheck                  // onZombieKilled's 1500 ms grace period
    | NextWave                         // completeWave's 2000 ms pause
    | Expire(kind: PowerupKind)        // activatePowerup's expiry
    | Regen                            // the 5000 ms health-regen interval
    | GunReady                         // the gun's 120 ms shot cooldown
    | ReloadDone(needed: nat)          // the gun's 1500 ms reload
    | RemoveZombie(zombie: nat)        // die()'s 2000 ms removal
    | RemovePickup(pickup: nat)        // createPowerup's 15000 ms removal

  /** A `powerup` entity: its type, position and `collected` latch. */
  datatype Pickup = Pickup(kind: PowerupKind, pos: Vec3, collected: bool)

  /** The whole simulation: the `Game` fields, the timers, the live zombie and
      pickup entities by id, the gun and the player rig. */
  datatype World = World(
    state: State,
    wave: int,
    score: int,
    hp: int,
    maxHp: int,
    alive: bool,
    enemiesAlive: int,
    enemiesSpawned: int,
    active: set<PowerupKind>,
    powerupTimers: map<PowerupKind, nat>,
    difficulty: Difficulty,
    powerupsEnabled: bool,
    regenTimer: Option<nat>,
    timers: Queue<Event>,
    zombies: map<nat, Zombies.Zombie>,
    nextZombie: nat,
    pickups: map<nat, Pickup>,
    nextPickup: nat,
    gun: Guns.Gun,
    rig: Controls.Rig)

  const CompletionDelay: nat := 1500
  const NextWaveDelay: nat := 2000
  const RegenPeriod: nat := 5000
  const PickupLifetime: nat := 15000
  const DropChance: real := 0.18
  const CollectRadius: real := 1.2

  /** The page as loaded: the menu, full health, nothing scheduled. */
  function Initial(d: Difficulty, powerupsEnabled: bool, rigPos: Vec3): (w: World)
    ensures w.state == Menu && w.hp == w.maxHp == 100 && w.alive
    ensures w.timers.pending == [] && w.zombies == map[] && w.pickups == map[]
  {
    World(Menu, 1, 0, 100, 100, true, 0, 0, {}, map[], d, powerupsEnabled, None,
          Empty(0), map[], 0, map[], 0, Guns.Initial, Controls.Init(rigPos))
  }

  /** setTimeout clamps a negative delay to 0. */
  function Delay(ms: int): (d: nat)
    ensures ms >= 0 ==> d == ms
    ensures ms < 0 ==> d == 0
  {
    if ms < 0 then 0 else ms
  }

  function PowerupDuration(k: PowerupKind): nat
  {
    match k
    case Instakill => 8000
    case MaxAmmo => 6000
    case Shield => 10000
    case Speed => 12000
  }

  /** The random draws `createZombie` makes: speed and hp jitter, spawn
      radius, and the spawn angle given by its cosine and sine. */
  datatype SpawnRolls = SpawnRolls(speed: real, hp: real, radius: real, cos: real, sin: real)

  predicate ValidSpawn(r: SpawnRolls)
  {
    IsRoll(r.speed) && IsRoll(r.hp) && IsRoll(r.radius) && r.cos * r.cos + r.sin * r.sin == 1.0
  }

  /** The two draws of `maybeDrop`: the drop chance and the type index. */
  datatype DropRolls = DropRolls(chance: real, kind: real)

  predicate ValidDrop(r: DropRolls)
  {
    IsRoll(r.chance) && IsRoll(r.kind)
  }

  // ---------------------------------------------------------------------
  // Waves and spawning

  /** `getWaveConfig()` of the session. */
  function Config(w: World): WaveConfig
  {
    GetWaveConfig(w.wave, w.difficulty)
  }

  /** `createZombie(config)`: a live zombie with jittered stats on the spawn
      ring, under a fresh id. */
  function CreateZombie(w: World, cfg: WaveConfig, rolls: SpawnRolls): (r: World)
    requires ValidSpawn(rolls)
    ensures r == w.(zombies := r.zombies, nextZombie := w.nextZombie + 1)
    ensures w.nextZombie in r.zombies
    ensures r.zombies == w.zombies[w.nextZombie := r.zombies[w.nextZombie]]
    ensures var z := r.zombies[w.nextZombie];
            !z.dead && z.attackCooldown == 0.0 && z.pos.y == 0.0
            && cfg.baseSpeed - 0.15 <= z.speed < cfg.baseSpeed + 0.15
            && Ceil(cfg.baseHp - 1.0) <= z.hp <= Ceil(cfg.baseHp + 1.0)
  {
    var z := Zombies.Spawn(ZombieSpeed(cfg, rolls.speed), ZombieHp(cfg, rolls.hp),
                           SpawnPoint(rolls.cos, rolls.sin, rolls.radius));
    w.(zombies := w.zombies[w.nextZombie := z], nextZombie := w.nextZombie + 1)
  }

  /** One run of `spawnZombie`: stop once `count` zombies exist or the game
      is no longer playing; otherwise create one, count it as spawned and
      alive, and reschedule itself after the spawn delay. */
  function SpawnZombie(w: World, cfg: WaveConfig, rolls: SpawnRolls): (r: World)
    requires ValidSpawn(rolls)
    ensures w.enemiesSpawned as real >= cfg.count || w.state != Playing ==> r == w
    ensures w.enemiesSpawned as real < cfg.count && w.state == Playing ==>
              && r.enemiesSpawned == w.enemiesSpawned + 1
              && r.enemiesAlive == w.enemiesAlive + 1
              && w.nextZombie in r.zombies
              && r.zombies == w.zombies[w.nextZombie := r.zombies[w.nextZombie]]
              && !r.zombies[w.nextZombie].dead
              && r.timers.pending == w.timers.pending
                   + [Timer(w.timers.nextId, w.timers.now + Delay(cfg.spawnDelay), SpawnNext(cfg))]
    ensures w.enemiesSpawned as real < cfg.count && w.state == Playing ==>
              r == w.(zombies := r.zombies, nextZombie := w.nextZombie + 1, enemiesSpawned := r.enemiesSpawned,
                      enemiesAlive := r.enemiesAlive, timers := Schedule(w.timers, Delay(cfg.spawnDelay), SpawnNext(cfg)).0)
    ensures r.enemiesSpawned <= Max(w.enemiesSpawned, SpawnTotal(cfg))
    ensures r.state == w.state && r.wave == w.wave && r.hp == w.hp && r.score == w.score
  {
    if w.enemiesSpawned as real >= cfg.count || w.state != Playing then w
    else
      var w1 := CreateZombie(w, cfg, rolls);
      var (q, _) := Schedule(w1.timers, Delay(cfg.spawnDelay), SpawnNext(cfg));
      w1.(enemiesSpawned := w1.enemiesSpawned + 1, enemiesAlive := w1.enemiesAlive + 1, timers := q)
  }

  /** `startWave()`: only while playing; resets the spawned counter (not the
      alive counter) and starts the spawn chain with the current wave's
      configuration, whose first zombie appears at once. */
  function StartWave(w: World, rolls: SpawnRolls): (r: World)
    requires ValidSpawn(rolls)
    ensures w.state != Playing ==> r == w
    ensures w.state == Playing && w.wave >= 1 ==>
              && r.enemiesSpawned == 1 && r.enemiesAlive == w.enemiesAlive + 1
              && w.nextZombie in r.zombies && !r.zombies[w.nextZombie].dead
              && r.timers.pending == w.timers.pending
                   + [Timer(w.timers.nextId, w.timers.now + Delay(Config(w).spawnDelay), SpawnNext(Config(w)))]
    ensures r.state == w.state && r.wave == w.wave && r.hp == w.hp && r.score == w.score
    ensures r.timers.nextId >= w.timers.nextId && r.timers.now == w.timers.now
    ensures forall t :: t in r.timers.pending ==> t in w.timers.pending || t.id >= w.timers.nextId
  {
    if w.state != Playing then w
    else SpawnZombie(w.(enemiesSpawned := 0), Config(w), rolls)
  }

  /** `completeWave()`: the wave number goes up by one and the new wave's
      number times 50 is scored; the next wave starts 2000 ms later. */
  function CompleteWave(w: World): (r: World)
    ensures r.wave == w.wave + 1
    ensures r.score == w.score + 50 * r.wave
    ensures r.timers.pending == w.timers.pending + [Timer(w.timers.nextId, w.timers.now + NextWaveDelay, NextWave)]
    ensures r.state == w.state && r.hp == w.hp && r.zombies == w.zombies && r.enemiesSpawned == w.enemiesSpawned
  {
    var w1 := w.(wave := w.wave + 1);
    var w2 := AddScore(w1, w1.wave * 50);
    var (q, _) := Schedule(w2.timers, NextWaveDelay, NextWave);
    w2.(timers := q)
  }

  /** `addScore(points)`. */
  function AddScore(w: World, points: int): (r: World)
    ensures r.score - w.score == points
    ensures r.(score := w.score) == w
  {
    w.(score := w.score + points)
  }

  // ---------------------------------------------------------------------
  // Kills, drops and the completion check

  /** The completion test of `onZombieKilled`, made against the CURRENT wave's
      configuration. */
  predicate WaveCleared(w: World)
  {
    w.enemiesAlive <= 0 && w.enemiesSpawned as real >= Config(w).count
  }

  /** `maybeDrop(position)` and `createPowerup`: with probability 0.18 a
      pickup of the drawn kind appears at the kill position, 0.3 above the
      floor, and is removed after 15 s unless collected first. */
  function MaybeDrop(w: World, pos: Vec3, drop: DropRolls): (r: World)
    requires ValidDrop(drop)
    ensures drop.chance >= DropChance ==> r == w
    ensures drop.chance < DropChance ==>
              && r.pickups == w.pickups[w.nextPickup := Pickup(KindAt((drop.kind * 4.0).Floor), Vec3(pos.x, 0.3, pos.z), false)]
              && r.nextPickup == w.nextPickup + 1
              && r.timers.pending == w.timers.pending + [Timer(w.timers.nextId, w.timers.now + PickupLifetime, RemovePickup(w.nextPickup))]
    ensures r.(pickups := w.pickups, nextPickup := w.nextPickup, timers := w.timers) == w
    ensures Valid(w.timers) ==> Valid(r.timers)
  {
    if drop.chance < DropChance then
      var kind := KindAt((drop.kind * 4.0).Floor);
      var p := Pickup(kind, Vec3(pos.x, 0.3, pos.z), false);
      var (q, _) := Schedule(w.timers, PickupLifetime, RemovePickup(w.nextPickup));
      w.(pickups := w.pickups[w.nextPickup := p], nextPickup := w.nextPickup + 1, timers := q)
    else w
  }

  /** `onZombieKilled`: one fewer enemy alive, perhaps a drop, and a
      completion check 1500 ms later when the wave looks cleared. */
  function OnZombieKilled(w: World, pos: Vec3, drop: DropRolls): (r: World)
    requires ValidDrop(drop)
    ensures r.enemiesAlive == w.enemiesAlive - 1
    ensures !w.powerupsEnabled ==> r.pickups == w.pickups
    ensures r.state == w.state && r.wave == w.wave && r.hp == w.hp && r.score == w.score
    ensures r.zombies == w.zombies && r.enemiesSpawned == w.enemiesSpawned
    ensures r.(enemiesAlive := w.enemiesAlive, pickups := w.pickups, nextPickup := w.nextPickup, timers := w.timers) == w
    ensures forall t :: t in r.timers.pending ==> t in w.timers.pending || t.event.RemovePickup? || t.event.CompletionCheck?
    ensures Valid(w.timers) ==> Valid(r.timers)
    ensures Valid(w.timers) ==>
              ((exists t :: t in r.timers.pending && t.event == CompletionCheck && t !in w.timers.pending)
               <==> w.enemiesAlive - 1 <= 0 && w.enemiesSpawned as real >= Config(w).count)
  {
    var w1 := w.(enemiesAlive := w.enemiesAlive - 1);
    var w2 := if w.powerupsEnabled then MaybeDrop(w1, pos, drop) else w1;
    assert forall t :: t in w2.timers.pending ==> t in w.timers.pending || t.event.RemovePickup?;
    if WaveCleared(w2) then
      var (q, id) := Schedule(w2.timers, CompletionDelay, CompletionCheck);
      var c := q.pending[|q.pending| - 1];
      assert c in q.pending && c.event == CompletionCheck && c.id >= w.timers.nextId;
      assert Valid(w.timers) ==> c !in w.timers.pending;
      w2.(timers := q)
    else w2
  }

  /** `takeDamage` on the zombie with this id, with `die()`'s effects on the
      session: the kill handler runs, then the entity's removal is scheduled. */
  function DamageZombie(w: World, id: nat, damage: int, isHeadshot: bool, drop: DropRolls): (r: World)
    requires id in w.zombies && ValidDrop(drop)
    ensures r.zombies.Keys == w.zombies.Keys
    ensures r.zombies[id] == Zombies.TakeDamage(w.zombies[id], damage, isHeadshot).0
    ensures forall j :: j in w.zombies && j != id ==> r.zombies[j] == w.zombies[j]
    ensures r.enemiesAlive == if !w.zombies[id].dead && r.zombies[id].dead then w.enemiesAlive - 1 else w.enemiesAlive
    ensures w.zombies[id].dead ==> r == w
    ensures r.state == w.state && r.wave == w.wave && r.hp == w.hp && r.score == w.score
    ensures r.(zombies := w.zombies, enemiesAlive := w.enemiesAlive, pickups := w.pickups,
               nextPickup := w.nextPickup, timers := w.timers) == w
    ensures forall t :: t in r.timers.pending ==>
              t in w.timers.pending || t.event.RemovePickup? || t.event.CompletionCheck? || t.event == RemoveZombie(id)
    ensures Valid(w.timers) ==> Valid(r.timers)
  {
    var (z, signals) := Zombies.TakeDamage(w.zombies[id], damage, isHeadshot);
    var w1 := w.(zombies := w.zombies[id := z]);
    if Zombies.Killed in signals then
      var w2 := OnZombieKilled(w1, z.pos, drop);
      var (q, _) := Schedule(w2.timers, Zombies.RemovalDelay, RemoveZombie(id));
      w2.(timers := q)
    else
      assert w.zombies[id].dead ==> w1 == w;
      w1
  }

  // ---------------------------------------------------------------------
  // The player

  /** `calculatePlayerDamage()` of the session. */
  function Damage(w: World): int
  {
    PlayerDamage(w.difficulty)
  }

  /** `onPlayerHit`: ignored when dead or shielded; otherwise hp drops by the
      difficulty's damage, clamped at 0, and reaching 0 ends the game. */
  function OnPlayerHit(w: World): (r: World)
    ensures !w.alive || Shield in w.active ==> r == w
    ensures w.alive && Shield !in w.active ==>
              && r.hp == Max(0, w.hp - Damage(w))
              && (r.alive <==> w.hp > Damage(w))
              && (!r.alive ==> r.state == GameOver && r.hp == 0)
              && (r.alive ==> r.state == w.state)
    ensures r.score == w.score && r.wave == w.wave && r.zombies == w.zombies
  {
    if !w.alive || Shield in w.active then w
    else
      var hp := w.hp - Damage(w);
      var w1 := w.(hp := if hp < 0 then 0 else hp);
      if w1.hp <= 0 then EndGame(w1) else w1
  }

  /** One firing of the regen interval: +1 hp, capped at maxHp, only while
      alive with 0 < hp < maxHp; the interval then re-arms. */
  function RegenTick(w: World): (r: World)
    ensures w.alive && 0 < w.hp < w.maxHp ==> r.hp == w.hp + 1
    ensures !(w.alive && 0 < w.hp < w.maxHp) ==> r.hp == w.hp
    ensures r.regenTimer == Some(w.timers.nextId)
    ensures r.timers.pending == w.timers.pending + [Timer(w.timers.nextId, w.timers.now + RegenPeriod, Regen)]
    ensures r.(hp := w.hp, timers := w.timers, regenTimer := w.regenTimer) == w
  {
    var hp := if w.alive && w.hp < w.maxHp && w.hp > 0 then Min(w.maxHp, w.hp + 1) else w.hp;
    var (q, id) := Schedule(w.timers, RegenPeriod, Regen);
    w.(hp := hp, timers := q, regenTimer := Some(id))
  }

  /** The handles in the powerup timer table (its `Object.values`). */
  function TableIds(m: map<PowerupKind, nat>): (ids: seq<nat>)
    ensures forall k :: k in m ==> m[k] in ids
    ensures forall id :: id in ids ==> exists k :: k in m && m[k] == id
  {
    var ids := (if Instakill in m then [m[Instakill]] else [])
      + (if MaxAmmo in m then [m[MaxAmmo]] else [])
      + (if Shield in m then [m[Shield]] else [])
      + (if Speed in m then [m[Speed]] else []);
    TableIdsCover(m, ids);
    ids
  }

  lemma TableIdsCover(m: map<PowerupKind, nat>, ids: seq<nat>)
    requires Instakill in m ==> m[Instakill] in ids
    requires MaxAmmo in m ==> m[MaxAmmo] in ids
    requires Shield in m ==> m[Shield] in ids
    requires Speed in m ==> m[Speed] in ids
    ensures forall k :: k in m ==> m[k] in ids
  {
    forall k | k in m
      ensures m[k] in ids
    {
      match k
      case Instakill =>
      case MaxAmmo =>
      case Shield =>
      case Speed =>
    }
  }

  /** `clearGameTimers()`: the regen interval and every handle in the powerup
      table are cancelled; the table itself is left as it is. */
  function ClearGameTimers(w: World): (q: Queue<Event>)
    ensures q.now == w.timers.now && q.nextId == w.timers.nextId
    ensures forall t :: t in q.pending <==>
              && t in w.timers.pending
              && (w.regenTimer.Some? ==> t.id != w.regenTimer.value)
              && (forall k :: k in w.powerupTimers ==> t.id != w.powerupTimers[k])
    ensures Valid(w.timers) ==> Valid(q)
  {
    var q1 := match w.regenTimer
      case Some(id) => Cancel(w.timers, id)
      case None => w.timers;
    CancelAll(q1, TableIds(w.powerupTimers))
  }

  /** `gameOver()`: the state becomes gameover, the player is dead, and the
      game timers are cleared; the powerup flags, the table and every other
      timer stay. */
  function EndGame(w: World): (r: World)
    ensures r.state == GameOver && !r.alive
    ensures r.timers == ClearGameTimers(w)
    ensures r.(state := w.state, alive := w.alive, timers := w.timers) == w
  {
    w.(state := GameOver, alive := false, timers := ClearGameTimers(w))
  }

  // ---------------------------------------------------------------------
  // Powerups

  /** `activatePowerup(type)`: any pending expiry of that kind is cancelled,
      the flag is set, maxammo refills the gun and speed multiplies the rig's
      base speed by 1.5, and a fresh expiry is armed and recorded. */
  function ActivatePowerup(w: World, k: PowerupKind): (r: World)
    ensures r.active == w.active + {k}
    ensures r.powerupTimers == w.powerupTimers[k := w.timers.nextId]
    ensures Timer(w.timers.nextId, w.timers.now + PowerupDuration(k), Expire(k)) in r.timers.pending
    ensures forall t :: t in r.timers.pending <==>
              (t in w.timers.pending && (k in w.powerupTimers ==> t.id != w.powerupTimers[k]))
              || t == Timer(w.timers.nextId, w.timers.now + PowerupDuration(k), Expire(k))
    ensures r.timers.nextId == w.timers.nextId + 1 && r.timers.now == w.timers.now
    ensures r.gun == if k == MaxAmmo then Guns.Refill(w.gun) else w.gun
    ensures r.rig == if k == Speed then w.rig.(baseSpeed := w.rig.baseSpeed * 1.5) else w.rig
    ensures r.(active := w.active, powerupTimers := w.powerupTimers, timers := w.timers, gun := w.gun, rig := w.rig) == w
  {
    var q1 := if k in w.powerupTimers then Cancel(w.timers, w.powerupTimers[k]) else w.timers;
    var gun := if k == MaxAmmo then Guns.Refill(w.gun) else w.gun;
    var rig := if k == Speed then w.rig.(baseSpeed := w.rig.baseSpeed * 1.5) else w.rig;
    var (q2, id) := Schedule(q1, PowerupDuration(k), Expire(k));
    w.(active := w.active + {k}, gun := gun, rig := rig, timers := q2, powerupTimers := w.powerupTimers[k := id])
  }

  /** An expiry timer: the flag drops, and for speed the rig's base speed is
      divided by 1.5 once. The table keeps the spent handle. */
  function ExpirePowerup(w: World, k: PowerupKind): (r: World)
    ensures r.active == w.active - {k}
    ensures r.rig == if k == Speed then w.rig.(baseSpeed := w.rig.baseSpeed / 1.5) else w.rig
    ensures r.(active := w.active, rig := w.rig) == w
  {
    var rig := if k == Speed then w.rig.(baseSpeed := w.rig.baseSpeed / 1.5) else w.rig;
    w.(active := w.active - {k}, rig := rig)
  }

  /** The `powerup` component's `collect()`: guarded by its latch, so the
      collection event carries the kind at most once. */
  function Collect(p: Pickup): (r: (Pickup, Option<PowerupKind>))
    ensures r.0 == p.(collected := true)
    ensures r.1.Some? <==> !p.collected
    ensures r.1.Some? ==> r.1.value == p.kind
  {
    if p.collected then (p, None) else (p.(collected := true), Some(p.kind))
  }

  /** The `powerup` component's `tick`: collect when the player is closer
      than 1.2. */
  function PickupTick(p: Pickup, distance: real): (r: (Pickup, Option<PowerupKind>))
    ensures p.collected ==> r == (p, None)
    ensures r.1.Some? <==> !p.collected && distance < CollectRadius
    ensures r.1.Some? ==> r.1.value == p.kind && r.0.collected
  {
    if p.collected then (p, None)
    else if distance < CollectRadius then Collect(p)
    else (p, None)
  }

  /** Ticks of one pickup at the given player distances, with the number of
      collection events emitted. */
  function PickupTicks(p: Pickup, distances: seq<real>): (Pickup, nat)
    decreases |distances|
  {
    if distances == [] then (p, 0)
    else
      var (p1, e) := PickupTick(p, distances[0]);
      var (pn, n) := PickupTicks(p1, distances[1..]);
      (pn, n + (if e.Some? then 1 else 0))
  }

  /** A pickup is collected at most once, and exactly once iff it was not yet
      collected and the player came within reach at some tick. */
  lemma {:induction false} CollectAtMostOnce(p: Pickup, distances: seq<real>)
    ensures PickupTicks(p, distances).1 <= 1
    ensures PickupTicks(p, distances).1 == 1 <==>
              !p.collected && exists i :: 0 <= i < |distances| && distances[i] < CollectRadius
    ensures p.collected ==> PickupTicks(p, distances) == (p, 0)
    decreases |distances|
  {
    if distances != [] {
      var (p1, e) := PickupTick(p, distances[0]);
      CollectAtMostOnce(p1, distances[1..]);
      if !p.collected && distances[0] >= CollectRadius {
        forall i | 0 <= i < |distances| && distances[i] < CollectRadius
          ensures 0 <= i - 1 < |distances[1..]| && distances[1..][i - 1] < CollectRadius
        {
        }
      } else if !p.collected {
        assert distances[0] < CollectRadius;
      }
    }
  }

  // ---------------------------------------------------------------------
  // Lifecycle

  /** `startGame()`: only from the menu. Resets the session, clears the
      powerup flags and cancels every recorded powerup timer, starts wave 1
      (whose first zombie appears at once) and arms the regen interval. */
  function StartGame(w: World, rolls: SpawnRolls): (r: World)
    requires ValidSpawn(rolls)
    ensures w.state != Menu ==> r == w
    ensures w.state == Menu ==>
              && r.state == Playing && r.wave == 1 && r.score == 0
              && r.hp == w.maxHp && r.alive
              && r.enemiesAlive == 1 && r.enemiesSpawned == 1
              && r.active == {} && r.powerupTimers == map[]
              && r.regenTimer.Some? && IsPending(r.timers, r.regenTimer.value)
    ensures w.state == Menu && Valid(w.timers) ==>
              forall t :: t in r.timers.pending && t in w.timers.pending ==>
                forall k :: k in w.powerupTimers ==> t.id != w.powerupTimers[k]
  {
    if w.state != Menu then w
    else
      var q := CancelAll(w.timers, TableIds(w.powerupTimers));
      var w1 := w.(state := Playing, wave := 1, score := 0, hp := w.maxHp, alive := true,
                   enemiesAlive := 0, enemiesSpawned := 0, active := {}, powerupTimers := map[], timers := q);
      var w2 := StartWave(w1, rolls);
      var (q2, id) := Schedule(w2.timers, RegenPeriod, Regen);
      assert q2.pending[|q2.pending| - 1].id == id;
      w2.(timers := q2, regenTimer := Some(id))
  }

  /** What a firing timer does to the session. */
  function Dispatch(w: World, e: Event, rolls: SpawnRolls): (r: World)
    requires ValidSpawn(rolls)
  {
    match e
    case SpawnNext(cfg) => SpawnZombie(w, cfg, rolls)
    case CompletionCheck => if w.state == Playing then CompleteWave(w) else w
    case NextWave => StartWave(w, rolls)
    case Expire(k) => ExpirePowerup(w, k)
    case Regen => RegenTick(w)
    case GunReady => w.(gun := Guns.Ready(w.gun))
    case ReloadDone(needed) => w.(gun := Guns.FinishReload(w.gun, needed))
    case RemoveZombie(id) => w.(zombies := w.zombies - {id})
    case RemovePickup(id) => w.(pickups := w.pickups - {id})
  }

  /** Time passes until the next timer fires; that timer leaves the queue
      and runs. With nothing pending nothing happens. */
  function Elapse(w: World, rolls: SpawnRolls): (r: World)
    requires ValidSpawn(rolls)
    ensures w.timers.pending == [] ==> r == w
    ensures w.timers.pending != [] && w.state != Playing ==>
              var (t, q) := PopNext(w.timers);
              t.event.CompletionCheck? || t.event.NextWave? || t.event.SpawnNext? ==> r == w.(timers := q)
    ensures w.timers.pending != [] && w.state == Playing ==>
              var (t, q) := PopNext(w.timers);
              t.event.CompletionCheck? ==> r.wave == w.wave + 1 && r.score == w.score + 50 * (w.wave + 1)
  {
    if w.timers.pending == [] then w
    else
      var (t, q) := PopNext(w.timers);
      Dispatch(w.(timers := q), t.event, rolls)
  }

  // ---------------------------------------------------------------------
  // Gun, melee and frames

  /** `performRaycast` once the hit is resolved: a zombie still in the scene
      takes 10 (instakill) or 1, doubled by its own headshot rule, and the
      player scores 30 or 15 — also when the zombie is already dying. */
  function HitZombie(w: World, t: Guns.Target, drop: DropRolls): (r: World)
    requires ValidDrop(drop)
    ensures t.zombie !in w.zombies ==> r == w
    ensures t.zombie in w.zombies ==> r.score == w.score + (if t.isHeadshot then 30 else 15)
    ensures t.zombie in w.zombies ==>
              t.zombie in r.zombies && r.zombies[t.zombie].hp == w.zombies[t.zombie].hp
                - (if w.zombies[t.zombie].dead then 0
                   else Zombies.EffectiveDamage(if Instakill in w.active then 10 else 1, t.isHeadshot))
    ensures r.state == w.state && r.hp == w.hp && r.wave == w.wave
  {
    if t.zombie !in w.zombies then w
    else
      var s := Guns.HitOutcome(Instakill in w.active, t.isHeadshot);
      AddScore(DamageZombie(w, t.zombie, s.damage, s.isHeadshot, drop), s.points)
  }

  /** A trigger pull: the gun's guards, then the resolved hit, then the
      120 ms cooldown timer. */
  function Shoot(w: World, target: Option<Guns.Target>, drop: DropRolls): (r: World)
    requires ValidDrop(drop)
    ensures Guns.Shoot(w.gun).1 != Guns.Fired ==> r == w
    ensures Guns.Shoot(w.gun).1 == Guns.Fired ==>
              r.gun == Guns.Shoot(w.gun).0 && !r.gun.canShoot && r.gun.magazine == w.gun.magazine - 1
    ensures Guns.Shoot(w.gun).1 == Guns.Fired && target.None? ==> r.score == w.score && r.zombies == w.zombies
    ensures Guns.Shoot(w.gun).1 == Guns.Fired ==>
              && r.timers.pending != [] && r.timers.nextId >= 1
              && r.timers.pending[|r.timers.pending| - 1]
                   == Timer(r.timers.nextId - 1, w.timers.now + Guns.ShotCooldownMs, GunReady)
    ensures r.state == w.state && r.hp == w.hp && r.wave == w.wave
  {
    var (g, trigger) := Guns.Shoot(w.gun);
    if trigger != Guns.Fired then w
    else
      var w1 := w.(gun := g);
      var w2 := match target
        case None => w1
        case Some(t) => HitZombie(w1, t, drop);
      var (q, _) := Schedule(w2.timers, Guns.ShotCooldownMs, GunReady);
      assert q.pending[|q.pending| - 1] == Timer(w2.timers.nextId, w2.timers.now + Guns.ShotCooldownMs, GunReady);
      w2.(timers := q)
  }

  /** `meleeAttack()` once resolved: 2 damage, never a headshot, and 5 points,
      with no ammo or cooldown involved. */
  function Melee(w: World, target: Option<Guns.Target>, drop: DropRolls): (r: World)
    requires ValidDrop(drop)
    ensures target.None? || target.value.zombie !in w.zombies ==> r == w
    ensures target.Some? && target.value.zombie in w.zombies ==>
              && r.score == w.score + 5
              && target.value.zombie in r.zombies
              && r.zombies[target.value.zombie] == Zombies.TakeDamage(w.zombies[target.value.zombie], 2, false).0
    ensures r.gun == w.gun && r.state == w.state && r.hp == w.hp
  {
    match Controls.MeleeOutcome(target)
    case None => w
    case Some((id, s)) =>
      if id !in w.zombies then w
      else AddScore(DamageZombie(w, id, s.damage, s.isHeadshot, drop), s.points)
  }

  /** `reload()`: when the gun accepts, the reload timer carries the rounds
      needed at that moment. */
  function Reload(w: World): (r: World)
    ensures Guns.StartReload(w.gun).1.None? ==> r == w
    ensures Guns.StartReload(w.gun).1.Some? ==>
              && r.gun.isReloading
              && r.timers.pending == w.timers.pending
                   + [Timer(w.timers.nextId, w.timers.now + Guns.ReloadMs, ReloadDone(Guns.StartReload(w.gun).1.value))]
  {
    var (g, needed) := Guns.StartReload(w.gun);
    match needed
    case None => w
    case Some(n) =>
      var (q, _) := Schedule(w.timers, Guns.ReloadMs, ReloadDone(n));
      w.(gun := g, timers := q)
  }

  /** One frame of the zombie with this id; a bite runs `onPlayerHit`. */
  function ZombieFrame(w: World, id: nat, player: Vec3, distance: real, dt: real): (r: World)
    requires id in w.zombies ==> distance >= 0.0 && distance * distance == Zombies.PlanarSq(w.zombies[id].pos, player)
    ensures id !in w.zombies || w.zombies[id].dead ==> r == w
    ensures r.zombies.Keys == w.zombies.Keys && r.score == w.score && r.wave == w.wave
    ensures id in w.zombies ==> r.zombies[id].dead == w.zombies[id].dead
    ensures w.hp >= 0 ==> r.hp <= w.hp
    ensures id in w.zombies ==> r.zombies == w.zombies[id := Zombies.Tick(w.zombies[id], player, distance, dt).0]
    ensures id in w.zombies && !Zombies.Tick(w.zombies[id], player, distance, dt).1 ==> r == w.(zombies := r.zombies)
    ensures id in w.zombies && Zombies.Tick(w.zombies[id], player, distance, dt).1 ==>
              if w.alive && Shield !in w.active then
                && r.hp == Max(0, w.hp - Damage(w))
                && (r.alive <==> w.hp > Damage(w))
                && (!r.alive ==> r.state == GameOver)
              else r == w.(zombies := r.zombies)
  {
    if id !in w.zombies then w
    else
      var (z, bite) := Zombies.Tick(w.zombies[id], player, distance, dt);
      var w1 := w.(zombies := w.zombies[id := z]);
      assert w.zombies[id].dead ==> w1 == w;
      if bite then OnPlayerHit(w1) else w1
  }

  /** One frame of the pickup with this id: on collection the powerup is
      activated and the entity removed. */
  function PickupFrame(w: World, id: nat, distance: real): (r: World)
    ensures id !in w.pickups || distance >= CollectRadius ==> r == w
    ensures id in w.pickups && !w.pickups[id].collected && distance < CollectRadius ==>
              r == ActivatePowerup(w.(pickups := w.pickups - {id}), w.pickups[id].kind)
  {
    if id !in w.pickups then w
    else
      var (p, e) := PickupTick(w.pickups[id], distance);
      match e
      case None => w.(pickups := w.pickups[id := p])
      case Some(k) => ActivatePowerup(w.(pickups := w.pickups - {id}), k)
  }

  // ---------------------------------------------------------------------
  // Inputs

  /** Everything that can happen to the session from outside: a timer
      firing, a button, a frame of an entity, or the player's controls. */
  datatype Action =
    | Start(spawn: SpawnRolls)
    | Wait(spawn: SpawnRolls)
    | Fire(target: Option<Guns.Target>, drop: DropRolls)
    | Strike(target: Option<Guns.Target>, drop: DropRolls)
    | ReloadGun
    | Safety
    | ZombieTick(zombie: nat, player: Vec3, distance: real, dt: real)
    | PickupTickAt(pickup: nat, distance: real)
    | Stick(x: real, y: real, cos: real, sin: real)
    | Press(key: Controls.Key)
    | Release(key: Controls.Key)
    | RigTick
    | SprintToggle
    | Restart(difficulty: Difficulty, powerupsEnabled: bool, rigPos: Vec3)

  /** The draws and geometry an action carries are well formed. */
  predicate ActionOk(w: World, a: Action)
  {
    match a
    case Start(s) => ValidSpawn(s)
    case Wait(s) => ValidSpawn(s)
    case Fire(_, d) => ValidDrop(d)
    case Strike(_, d) => ValidDrop(d)
    case ZombieTick(id, p, dist, _) =>
      id in w.zombies ==> dist >= 0.0 && dist * dist == Zombies.PlanarSq(w.zombies[id].pos, p)
    case Stick(_, _, c, s) => c * c + s * s == 1.0
    case _ => true
  }

  function Apply(w: World, a: Action): (r: World)
    requires ActionOk(w, a)
  {
    match a
    case Start(s) => StartGame(w, s)
    case Wait(s) => Elapse(w, s)
    case Fire(t, d) => Shoot(w, t, d)
    case Strike(t, d) => Melee(w, t, d)
    case ReloadGun => Reload(w)
    case Safety => w.(gun := Guns.ToggleSafety(w.gun))
    case ZombieTick(id, p, dist, dt) => ZombieFrame(w, id, p, dist, dt)
    case PickupTickAt(id, dist) => PickupFrame(w, id, dist)
    case Stick(x, y, c, s) => w.(rig := Controls.HandleMovement(w.rig, x, y, c, s))
    case Press(k) => w.(rig := Controls.KeyDown(w.rig, k))
    case Release(k) => w.(rig := Controls.KeyUp(w.rig, k))
    case RigTick => w.(rig := Controls.Tick(w.rig))
    // The HUD text `toggleSprint` rewrites is presentation; only the rig half is kept.
    case SprintToggle => w.(rig := Controls.ToggleSprint(w.rig, "").0)
    // A confirmed restart reloads the page: a fresh session with the settings
    // the reloaded page starts from.
    case Restart(d, p, pos) => if Controls.RestartOffered(w.state) then Initial(d, p, pos) else w
  }

  /** A run of actions, stopping at the first one that is not well formed. */
  function Run(w: World, actions: seq<Action>): World
    decreases |actions|
  {
    if actions == [] then w
    else if ActionOk(w, actions[0]) then Run(Apply(w, actions[0]), actions[1..])
    else w
  }

  /** Clicking the left thumbstick flips sprint and touches nothing else, so
      two clicks in a row leave the session as it was. */
  lemma SprintToggleTwice(w: World)
    ensures Apply(w, SprintToggle).rig.isSprinting == !w.rig.isSprinting
    ensures Apply(w, SprintToggle).(rig := w.rig) == w
    ensures Run(w, [SprintToggle, SprintToggle]) == w
  {
    var w1 := Apply(w, SprintToggle);
    assert [SprintToggle, SprintToggle][1..] == [SprintToggle];
    assert Run(w1, [SprintToggle]) == Run(Apply(w1, SprintToggle), []);
  }

  /** The restart button does nothing from the menu; while playing or after
      game over a confirmed restart returns to a fresh menu with nothing
      pending and full health. */
  lemma RestartFromAnyGame(w: World, d: Difficulty, p: bool, pos: Vec3)
    ensures w.state == Menu ==> Apply(w, Restart(d, p, pos)) == w
    ensures w.state != Menu ==>
              var r := Apply(w, Restart(d, p, pos));
              r.state == Menu && r.timers.pending == [] && r.zombies == map[] && r.hp == 100
  {
  }
}
