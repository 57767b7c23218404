/** What every reachable session keeps: hp within [0, maxHp] and zero exactly
    at game over, one pending expiry per powerup kind, no regen after game
    over, `enemiesAlive` equal to the number of live zombies, and
    `enemiesSpawned` never past the spawn total of the current wave. */
module GameInvariants {
  import opened Common
  import opened Timers
  import opened Waves
  import Zombies
  import Guns
  import Controls
  import opened GameManager

  /** Ids of the zombies that are not dead. */
  function LiveIds(m: map<nat, Zombies.Zombie>): set<nat>
  {
    set id | id in m && !m[id].dead
  }

  /** `cfg` is the configuration of some wave up to `wave`. */
  ghost predicate IsWaveConfig(cfg: WaveConfig, d: Difficulty, wave: int)
  {
    exists k :: 1 <= k <= wave && cfg == GetWaveConfig(k, d)
  }

  ghost predicate Vitals(w: World)
  {
    && w.maxHp == 100 && 0 <= w.hp <= w.maxHp
    && w.score >= 0 && w.wave >= 1
    && (w.alive <==> w.state != GameOver)
    && (w.hp == 0 <==> w.state == GameOver)
    && (w.state == Menu ==> w.wave == 1 && w.zombies == map[])
  }

  ghost predicate TimersTracked(w: World)
  {
    && Valid(w.timers)
    && (forall t :: t in w.timers.pending && t.event.Expire? ==>
          t.event.kind in w.powerupTimers && w.powerupTimers[t.event.kind] == t.id)
    && (forall t :: t in w.timers.pending && t.event.Regen? ==>
          w.regenTimer == Some(t.id) && w.state == Playing)
  }

  ghost predicate ZombiesTracked(w: World)
  {
    && (forall id :: id in w.zombies ==> id < w.nextZombie)
    && (forall t :: t in w.timers.pending && t.event.RemoveZombie? ==>
          t.event.zombie < w.nextZombie && (t.event.zombie in w.zombies ==> w.zombies[t.event.zombie].dead))
    && w.enemiesAlive == |LiveIds(w.zombies)|
  }

  ghost predicate SpawnsBounded(w: World)
  {
    && 0 <= w.enemiesSpawned <= SpawnTotal(Config(w))
    && (forall t :: t in w.timers.pending && t.event.SpawnNext? ==>
          IsWaveConfig(t.event.config, w.difficulty, w.wave))
  }

  ghost predicate Inv(w: World)
  {
    Vitals(w) && TimersTracked(w) && ZombiesTracked(w) && SpawnsBounded(w)
  }

  // ---------------------------------------------------------------------
  // Live zombies

  lemma LiveIdsUpdate(m: map<nat, Zombies.Zombie>, id: nat, z: Zombies.Zombie)
    ensures LiveIds(m[id := z]) == if z.dead then LiveIds(m) - {id} else LiveIds(m) + {id}
  {
  }

  lemma LiveIdsRemove(m: map<nat, Zombies.Zombie>, id: nat)
    ensures LiveIds(m - {id}) == LiveIds(m) - {id}
  {
  }

  // ---------------------------------------------------------------------
  // Preservation, operation by operation

  lemma InitialInv(d: Difficulty, powerupsEnabled: bool, rigPos: Vec3)
    ensures Inv(Initial(d, powerupsEnabled, rigPos))
  {
    var w := Initial(d, powerupsEnabled, rigPos);
    assert LiveIds(w.zombies) == {};
    assert GetWaveConfig(1, d).count >= 4.2;
  }

  lemma SpawnZombieInv(w: World, cfg: WaveConfig, rolls: SpawnRolls)
    requires Inv(w) && ValidSpawn(rolls) && IsWaveConfig(cfg, w.difficulty, w.wave)
    ensures Inv(SpawnZombie(w, cfg, rolls))
  {
    var r := SpawnZombie(w, cfg, rolls);
    if w.enemiesSpawned as real < cfg.count && w.state == Playing {
      var k :| 1 <= k <= w.wave && cfg == GetWaveConfig(k, w.difficulty);
      WaveConfigMonotone(k, w.wave, w.difficulty);
      assert SpawnTotal(cfg) <= SpawnTotal(Config(w));
      assert r.enemiesSpawned <= SpawnTotal(Config(r));
      var (q, id) := Schedule(w.timers, Delay(cfg.spawnDelay), SpawnNext(cfg));
      assert r.timers == q;
      assert Valid(r.timers);
      assert Vitals(r);
      assert TimersTracked(r);
      LiveIdsUpdate(w.zombies, w.nextZombie, r.zombies[w.nextZombie]);
      assert w.nextZombie !in LiveIds(w.zombies);
      assert ZombiesTracked(r);
      assert SpawnsBounded(r);
    }
  }

  lemma StartWaveInv(w: World, rolls: SpawnRolls)
    requires Inv(w) && ValidSpawn(rolls)
    ensures Inv(StartWave(w, rolls))
  {
    if w.state == Playing {
      var w1 := w.(enemiesSpawned := 0);
      assert IsWaveConfig(Config(w1), w1.difficulty, w1.wave);
      SpawnZombieInv(w1, Config(w1), rolls);
    }
  }

  lemma CompleteWaveInv(w: World)
    requires Inv(w) && w.state == Playing
    ensures Inv(CompleteWave(w))
  {
    var r := CompleteWave(w);
    WaveConfigMonotone(w.wave, r.wave, w.difficulty);
    forall t | t in r.timers.pending && t.event.SpawnNext?
      ensures IsWaveConfig(t.event.config, r.difficulty, r.wave)
    {
      var k :| 1 <= k <= w.wave && t.event.config == GetWaveConfig(k, w.difficulty);
    }
  }

  lemma EndGameInv(w: World)
    requires Inv(w.(hp := w.maxHp)) && w.hp == 0
    ensures Inv(EndGame(w))
  {
    var r := EndGame(w);
    forall t | t in r.timers.pending
      ensures !t.event.Regen? && !t.event.Expire?
    {
      assert t in w.timers.pending;
    }
  }

  lemma OnPlayerHitInv(w: World)
    requires Inv(w)
    ensures Inv(OnPlayerHit(w))
  {
    if w.alive && Shield !in w.active && w.hp <= Damage(w) {
      var w1 := w.(hp := 0);
      assert w1.(hp := w1.maxHp) == w.(hp := w.maxHp);
      assert Inv(w.(hp := w.maxHp));
      EndGameInv(w1);
    }
  }

  lemma AddScoreInv(w: World, points: int)
    requires Inv(w) && points >= 0
    ensures Inv(AddScore(w, points))
  {
  }

  lemma MaybeDropInv(w: World, pos: Vec3, drop: DropRolls)
    requires Inv(w) && ValidDrop(drop)
    ensures Inv(MaybeDrop(w, pos, drop))
  {
  }

  /** After a zombie was killed and its entry updated, the kill handler
      restores the live count. */
  lemma OnZombieKilledInv(w: World, pos: Vec3, drop: DropRolls)
    requires Inv(w.(enemiesAlive := w.enemiesAlive - 1)) && ValidDrop(drop)
    ensures Inv(OnZombieKilled(w, pos, drop))
  {
    var w1 := w.(enemiesAlive := w.enemiesAlive - 1);
    if w.powerupsEnabled {
      MaybeDropInv(w1, pos, drop);
    }
  }

  /** The live count after a hit: one fewer exactly when this hit killed. */
  lemma DamageZombieLive(w: World, id: nat, damage: int, isHeadshot: bool, drop: DropRolls)
    requires ZombiesTracked(w) && Valid(w.timers) && id in w.zombies && ValidDrop(drop)
    ensures ZombiesTracked(DamageZombie(w, id, damage, isHeadshot, drop))
  {
    var r := DamageZombie(w, id, damage, isHeadshot, drop);
    var z := r.zombies[id];
    assert r.zombies == w.zombies[id := z];
    LiveIdsUpdate(w.zombies, id, z);
    if !w.zombies[id].dead && z.dead {
      assert id in LiveIds(w.zombies);
    } else {
      assert LiveIds(r.zombies) == LiveIds(w.zombies);
    }
  }

  lemma DamageZombieInv(w: World, id: nat, damage: int, isHeadshot: bool, drop: DropRolls)
    requires Inv(w) && id in w.zombies && ValidDrop(drop)
    ensures Inv(DamageZombie(w, id, damage, isHeadshot, drop))
  {
    DamageZombieLive(w, id, damage, isHeadshot, drop);
  }

  lemma HitZombieInv(w: World, t: Guns.Target, drop: DropRolls)
    requires Inv(w) && ValidDrop(drop)
    ensures Inv(HitZombie(w, t, drop))
  {
    if t.zombie in w.zombies {
      var s := Guns.HitOutcome(Instakill in w.active, t.isHeadshot);
      DamageZombieInv(w, t.zombie, s.damage, s.isHeadshot, drop);
    }
  }

  lemma ShootInv(w: World, target: Option<Guns.Target>, drop: DropRolls)
    requires Inv(w) && ValidDrop(drop)
    ensures Inv(Shoot(w, target, drop))
  {
    var (g, trigger) := Guns.Shoot(w.gun);
    if trigger == Guns.Fired {
      var w1 := w.(gun := g);
      if target.Some? {
        HitZombieInv(w1, target.value, drop);
      }
    }
  }

  lemma MeleeInv(w: World, target: Option<Guns.Target>, drop: DropRolls)
    requires Inv(w) && ValidDrop(drop)
    ensures Inv(Melee(w, target, drop))
  {
    if target.Some? && target.value.zombie in w.zombies {
      DamageZombieInv(w, target.value.zombie, 2, false, drop);
    }
  }

  lemma ActivatePowerupInv(w: World, k: PowerupKind)
    requires Inv(w)
    ensures Inv(ActivatePowerup(w, k))
  {
  }

  lemma ZombieFrameInv(w: World, id: nat, player: Vec3, distance: real, dt: real)
    requires Inv(w)
    requires id in w.zombies ==> distance >= 0.0 && distance * distance == Zombies.PlanarSq(w.zombies[id].pos, player)
    ensures Inv(ZombieFrame(w, id, player, distance, dt))
  {
    if id in w.zombies {
      var (z, bite) := Zombies.Tick(w.zombies[id], player, distance, dt);
      var w1 := w.(zombies := w.zombies[id := z]);
      LiveIdsUpdate(w.zombies, id, z);
      assert LiveIds(w1.zombies) == LiveIds(w.zombies);
      assert Inv(w1);
      if bite {
        OnPlayerHitInv(w1);
      }
    }
  }

  lemma PickupFrameInv(w: World, id: nat, distance: real)
    requires Inv(w)
    ensures Inv(PickupFrame(w, id, distance))
  {
    if id in w.pickups {
      ActivatePowerupInv(w.(pickups := w.pickups - {id}), w.pickups[id].kind);
    }
  }

  lemma StartGameInv(w: World, rolls: SpawnRolls)
    requires Inv(w) && ValidSpawn(rolls)
    ensures Inv(StartGame(w, rolls))
  {
    if w.state == Menu {
      var q := CancelAll(w.timers, TableIds(w.powerupTimers));
      var w1 := w.(state := Playing, wave := 1, score := 0, hp := w.maxHp, alive := true,
                   enemiesAlive := 0, enemiesSpawned := 0, active := {}, powerupTimers := map[], timers := q);
      assert LiveIds(w1.zombies) == {};
      forall t | t in q.pending
        ensures !t.event.Expire? && !t.event.Regen?
      {
        assert t in w.timers.pending;
      }
      assert Inv(w1);
      StartWaveInv(w1, rolls);
    }
  }

  /** A timer that left the queue: the rest of the world is still fine, and
      the timer carried the facts the invariant recorded about it. */
  lemma PopInv(w: World)
    requires Inv(w) && w.timers.pending != []
    ensures Inv(w.(timers := PopNext(w.timers).1))
  {
  }

  lemma ExpirePowerupInv(w: World, k: PowerupKind)
    requires Inv(w)
    ensures Inv(ExpirePowerup(w, k))
  {
  }

  /** The regen timer that fired is no longer pending, so the re-armed one is
      the only regen timer. */
  lemma RegenTickInv(w: World, id: nat)
    requires Inv(w) && !IsPending(w.timers, id)
    requires w.regenTimer == Some(id) && w.state == Playing
    ensures Inv(RegenTick(w))
  {
    forall u | u in w.timers.pending
      ensures !u.event.Regen?
    {
      assert u.id != id;
    }
  }

  lemma RemoveZombieInv(w: World, id: nat)
    requires Inv(w) && id < w.nextZombie && (id in w.zombies ==> w.zombies[id].dead)
    ensures Inv(w.(zombies := w.zombies - {id}))
  {
    LiveIdsRemove(w.zombies, id);
    assert LiveIds(w.zombies - {id}) == LiveIds(w.zombies);
  }

  lemma GunTimerInv(w: World, g: Guns.Gun)
    requires Inv(w)
    ensures Inv(w.(gun := g))
  {
  }

  lemma RemovePickupInv(w: World, id: nat)
    requires Inv(w)
    ensures Inv(w.(pickups := w.pickups - {id}))
  {
  }

  /** A timer that fired runs against a world that keeps the invariant, with
      the facts the invariant recorded about that timer. */
  lemma DispatchInv(w: World, t: Timer<Event>, rolls: SpawnRolls)
    requires Inv(w) && ValidSpawn(rolls)
    requires !IsPending(w.timers, t.id)
    requires t.event.Regen? ==> w.regenTimer == Some(t.id) && w.state == Playing
    requires t.event.RemoveZombie? ==>
               t.event.zombie < w.nextZombie && (t.event.zombie in w.zombies ==> w.zombies[t.event.zombie].dead)
    requires t.event.SpawnNext? ==> IsWaveConfig(t.event.config, w.difficulty, w.wave)
    ensures Inv(Dispatch(w, t.event, rolls))
  {
    match t.event
    case SpawnNext(cfg) => SpawnZombieInv(w, cfg, rolls);
    case CompletionCheck =>
      if w.state == Playing {
        CompleteWaveInv(w);
      }
    case NextWave => StartWaveInv(w, rolls);
    case Expire(k) => ExpirePowerupInv(w, k);
    case Regen => RegenTickInv(w, t.id);
    case GunReady => GunTimerInv(w, Guns.Ready(w.gun));
    case ReloadDone(n) => GunTimerInv(w, Guns.FinishReload(w.gun, n));
    case RemoveZombie(id) => RemoveZombieInv(w, id);
    case RemovePickup(id) => RemovePickupInv(w, id);
  }

  lemma ElapseInv(w: World, rolls: SpawnRolls)
    requires Inv(w) && ValidSpawn(rolls)
    ensures Inv(Elapse(w, rolls))
  {
    if w.timers.pending != [] {
      var (t, q) := PopNext(w.timers);
      PopInv(w);
      DispatchInv(w.(timers := q), t, rolls);
    }
  }

  /** Every action keeps the invariant. */
  lemma StepInv(w: World, a: Action)
    requires Inv(w) && ActionOk(w, a)
    ensures Inv(Apply(w, a))
  {
    match a
    case Start(s) => StartGameInv(w, s);
    case Wait(s) => ElapseInv(w, s);
    case Fire(t, d) => ShootInv(w, t, d);
    case Strike(t, d) => MeleeInv(w, t, d);
    case ReloadGun =>
    case Safety =>
    case ZombieTick(id, p, dist, dt) => ZombieFrameInv(w, id, p, dist, dt);
    case PickupTickAt(id, dist) => PickupFrameInv(w, id, dist);
    case Stick(x, y, c, s) =>
    case Press(k) =>
    case Release(k) =>
    case RigTick =>
    case SprintToggle =>
    case Restart(d, p, pos) => InitialInv(d, p, pos);
  }

  /** Every run from a state that keeps the invariant keeps it; in particular
      hp stays within [0, maxHp] and is 0 exactly at game over, the alive
      counter never goes negative, a wave never spawns past ceil(count), and
      no regen timer survives game over. */
  lemma {:induction false} RunInv(w: World, actions: seq<Action>)
    requires Inv(w)
    ensures var r := Run(w, actions);
            && Inv(r)
            && 0 <= r.hp <= r.maxHp && (r.hp == 0 <==> r.state == GameOver)
            && r.enemiesAlive >= 0
            && r.enemiesSpawned <= SpawnTotal(Config(r))
            && (r.state == GameOver ==> forall t :: t in r.timers.pending ==> !t.event.Regen?)
    decreases |actions|
  {
    if actions != [] && ActionOk(w, actions[0]) {
      StepInv(w, actions[0]);
      RunInv(Apply(w, actions[0]), actions[1..]);
    }
  }

  /** Every session reachable from the loaded page keeps the invariant. */
  lemma ReachableInv(d: Difficulty, powerupsEnabled: bool, rigPos: Vec3, actions: seq<Action>)
    ensures Inv(Run(Initial(d, powerupsEnabled, rigPos), actions))
  {
    InitialInv(d, powerupsEnabled, rigPos);
    RunInv(Initial(d, powerupsEnabled, rigPos), actions);
  }

  /** At most one expiry per powerup kind is ever pending: re-activation
      cancels the recorded one before arming the next. */
  lemma OneExpiryPerKind(w: World, t1: Timer<Event>, t2: Timer<Event>)
    requires Inv(w)
    requires t1 in w.timers.pending && t2 in w.timers.pending
    requires t1.event.Expire? && t2.event == t1.event
    ensures t1 == t2
  {
    var s := w.timers.pending;
    var i :| 0 <= i < |s| && s[i] == t1;
    var j :| 0 <= j < |s| && s[j] == t2;
    assert s[i].id == s[j].id;
    assert i == j;
  }

  // ---------------------------------------------------------------------
  // Scenarios

  /** On Normal a bite costs 8: from 10 hp one bite leaves 2 and the next
      ends the game at 0 rather than -6. */
  lemma TwoBitesFromTen(w: World)
    requires w.alive && w.hp == 10 && w.difficulty == Normal && Shield !in w.active
    ensures OnPlayerHit(w).hp == 2 && OnPlayerHit(w).alive
    ensures var r := OnPlayerHit(OnPlayerHit(w)); r.hp == 0 && r.state == GameOver && !r.alive
  {
    PlayerDamageValues();
  }

  /** Collecting speed twice within its duration multiplies the base speed
      by 2.25 and leaves one pending expiry; when it fires the speed is
      divided once, so 1.5 times the original remains. */
  lemma SpeedRefreshCompounds(w: World)
    requires Inv(w)
    ensures var r := ActivatePowerup(ActivatePowerup(w, Speed), Speed);
            && r.rig.baseSpeed == w.rig.baseSpeed * 2.25
            && ExpirePowerup(r, Speed).rig.baseSpeed == w.rig.baseSpeed * 1.5
            && Speed !in ExpirePowerup(r, Speed).active
            && forall t :: t in r.timers.pending && t.event == Expire(Speed) ==> t.id == w.timers.nextId + 1
  {
    var r1 := ActivatePowerup(w, Speed);
    ActivatePowerupInv(w, Speed);
    ActivatePowerupInv(r1, Speed);
  }

  // ---------------------------------------------------------------------
  // The spawn chain of one wave

  /** Repeated firings of the spawn chain with one configuration. */
  function SpawnChain(w: World, cfg: WaveConfig, rolls: seq<SpawnRolls>): World
    requires forall i :: 0 <= i < |rolls| ==> ValidSpawn(rolls[i])
    decreases |rolls|
  {
    if rolls == [] then w else SpawnChain(SpawnZombie(w, cfg, rolls[0]), cfg, rolls[1..])
  }

  /** The chain spawns one zombie per firing until ceil(count) have been
      spawned, and none after that: a wave with count 4.2 spawns 5. */
  lemma {:induction false} SpawnChainCount(w: World, cfg: WaveConfig, rolls: seq<SpawnRolls>)
    requires forall i :: 0 <= i < |rolls| ==> ValidSpawn(rolls[i])
    requires w.state == Playing
    ensures var r := SpawnChain(w, cfg, rolls);
            && r.state == Playing
            && r.enemiesSpawned == Max(w.enemiesSpawned, Min(w.enemiesSpawned + |rolls|, SpawnTotal(cfg)))
            && r.enemiesAlive - w.enemiesAlive == r.enemiesSpawned - w.enemiesSpawned
    decreases |rolls|
  {
    if rolls != [] {
      var w1 := SpawnZombie(w, cfg, rolls[0]);
      assert w.enemiesSpawned as real < cfg.count <==> w.enemiesSpawned < SpawnTotal(cfg);
      SpawnChainCount(w1, cfg, rolls[1..]);
    }
  }
}
