/** The `gun` component: magazine and reserve, the fire guards, the two-phase
    reload, the safety toggle, and how a resolved hit turns into damage and
    score. */
module Guns {
  import opened Common

  datatype Gun = Gun(magazine: int, reserve: int, maxMag: int, canShoot: bool, isReloading: bool, safetyOn: bool)

  /** State after `init()`: 15 in the magazine, 90 in reserve, ready to fire. */
  const Initial := Gun(15, 90, 15, true, false, false)

  const ShotCooldownMs: nat := 120
  const ReloadMs: nat := 1500

  /** The ammo bookkeeping every reachable gun state keeps (`maxMag` is
      never reassigned). */
  ghost predicate Sane(g: Gun)
  {
    g.maxMag == 15 && 0 <= g.magazine <= g.maxMag && 0 <= g.reserve
  }

  /** What a trigger pull did: nothing (a guard), an empty click, or a shot. */
  datatype Trigger = Blocked | Dry | Fired

  /** `shoot()` up to the raycast: refused while cooling down, reloading or
      on safety; a click with an empty magazine; otherwise one round leaves
      the magazine and the gun stays locked until the 120 ms timer. */
  function Shoot(g: Gun): (r: (Gun, Trigger))
    ensures !g.canShoot || g.isReloading || g.safetyOn ==> r == (g, Blocked)
    ensures r.1 == Dry <==> g.canShoot && !g.isReloading && !g.safetyOn && g.magazine <= 0
    ensures r.1 != Fired ==> r.0 == g
    ensures r.1 == Fired ==> r.0 == g.(magazine := g.magazine - 1, canShoot := false)
  {
    if !g.canShoot || g.isReloading || g.safetyOn then (g, Blocked)
    else if g.magazine <= 0 then (g, Dry)
    else (g.(canShoot := false, magazine := g.magazine - 1), Fired)
  }

  /** The 120 ms timer armed by a shot: the gun may fire again, and nothing
      else about it changes. */
  function Ready(g: Gun): (r: Gun)
    ensures r.canShoot && r.(canShoot := g.canShoot) == g
  {
    g.(canShoot := true)
  }

  /** `reload()` up to its timer: refused while reloading, with a full
      magazine or with an empty reserve; otherwise the gun is marked reloading
      and the number of rounds needed is captured for the timer. */
  function StartReload(g: Gun): (r: (Gun, Option<nat>))
    ensures r.1.None? <==> g.isReloading || g.maxMag - g.magazine <= 0 || g.reserve <= 0
    ensures r.1.None? ==> r.0 == g
    ensures r.1.Some? ==> r.0 == g.(isReloading := true) && r.1.value == g.maxMag - g.magazine > 0
  {
    if g.isReloading then (g, None)
    else
      var needed := g.maxMag - g.magazine;
      if needed <= 0 || g.reserve <= 0 then (g, None)
      else (g.(isReloading := true), Some(needed))
  }

  /** The reload timer: moves min(needed, reserve) rounds from the reserve to
      the magazine. */
  function FinishReload(g: Gun, needed: nat): (r: Gun)
    ensures r.magazine + r.reserve == g.magazine + g.reserve
    ensures g.reserve >= 0 ==> 0 <= r.reserve <= g.reserve && r.magazine >= g.magazine
    ensures !r.isReloading && r.maxMag == g.maxMag && r.canShoot == g.canShoot && r.safetyOn == g.safetyOn
  {
    var take := Min(needed, g.reserve);
    g.(magazine := g.magazine + take, reserve := g.reserve - take, isReloading := false)
  }

  /** The maxammo powerup's write into the gun: reserve 120, full magazine. */
  function Refill(g: Gun): (r: Gun)
    ensures r.magazine == r.maxMag == g.maxMag && r.reserve == 120
    ensures r.isReloading == g.isReloading && r.canShoot == g.canShoot && r.safetyOn == g.safetyOn
  {
    g.(reserve := 120, magazine := g.maxMag)
  }

  /** A complete reload from a sane gun: the magazine fills as far as the
      reserve allows, no round is created or lost, and the gun stays sane. */
  lemma ReloadCycle(g: Gun)
    requires Sane(g) && !g.isReloading
    requires StartReload(g).1.Some?
    ensures var r := FinishReload(StartReload(g).0, StartReload(g).1.value);
            && Sane(r) && !r.isReloading
            && r.magazine + r.reserve == g.magazine + g.reserve
            && (g.reserve >= g.maxMag - g.magazine ==> r.magazine == g.maxMag)
            && (g.reserve < g.maxMag - g.magazine ==> r.reserve == 0)
  {
  }

  /** While a reload is in progress no shot can change the magazine, so the
      captured `needed` is still what the magazine lacks when the timer
      fires. */
  lemma NoShotDuringReload(g: Gun)
    requires g.isReloading
    ensures Shoot(g) == (g, Blocked)
  {
  }

  /** A maxammo pickup landing during a reload makes the timer overfill the
      magazine by the captured `needed`: the game keeps this. */
  lemma RefillDuringReloadOverfills(g: Gun)
    requires Sane(g) && StartReload(g).1.Some?
    ensures var needed := StartReload(g).1.value;
            var r := FinishReload(Refill(StartReload(g).0), needed);
            r.magazine == g.maxMag + needed > g.maxMag && r.reserve == 120 - needed
  {
  }

  /** Sanity is kept by every gun operation other than a refill landing
      mid-reload. */
  lemma ShootKeepsSane(g: Gun)
    requires Sane(g)
    ensures Sane(Shoot(g).0) && Sane(Ready(g)) && Sane(Refill(g)) && Sane(StartReload(g).0)
    ensures Shoot(g).1 == Fired ==> Shoot(g).0.magazine == g.magazine - 1
  {
  }

  /** `toggleSafety()`. */
  function ToggleSafety(g: Gun): (r: Gun)
    ensures r.safetyOn != g.safetyOn
    ensures r.(safetyOn := g.safetyOn) == g
  {
    g.(safetyOn := !g.safetyOn)
  }

  lemma ToggleSafetyTwice(g: Gun)
    ensures ToggleSafety(ToggleSafety(g)) == g
  {
  }

  /** One object along the raycast's upward walk: whether it belongs to an
      entity (`.el`), that entity's zombie component if any, and whether it is
      the zombie's head object or one of the head's children. */
  datatype SceneObject = SceneObject(hasEntity: bool, zombie: Option<nat>, isHeadPart: bool)

  /** A hit resolved to a zombie. */
  datatype Target = Target(zombie: nat, isHeadshot: bool)

  /** The walk `while (o && !o.el) o = o.parent` over the struck object and
      its ancestors (in that order), followed by the zombie-component check:
      the FIRST object with an entity decides, and only a zombie entity
      yields a target. */
  function Resolve(chain: seq<SceneObject>): (t: Option<Target>)
    ensures t.Some? <==> exists k :: 0 <= k < |chain| && FirstEntityAt(chain, k) && chain[k].zombie.Some?
    ensures forall k :: 0 <= k < |chain| && FirstEntityAt(chain, k) && t.Some? ==>
              t.value == Target(chain[k].zombie.value, chain[k].isHeadPart)
    decreases |chain|
  {
    if chain == [] then None
    else if chain[0].hasEntity then
      (if chain[0].zombie.Some? then Some(Target(chain[0].zombie.value, chain[0].isHeadPart)) else None)
    else
      var t := Resolve(chain[1..]);
      assert forall k :: 1 <= k < |chain| ==> (FirstEntityAt(chain, k) <==> FirstEntityAt(chain[1..], k - 1));
      assert !FirstEntityAt(chain, 0);
      t
  }

  /** `chain[k]` is the first object of the chain that has an entity. */
  predicate FirstEntityAt(chain: seq<SceneObject>, k: int)
    requires 0 <= k < |chain|
  {
    chain[k].hasEntity && forall j :: 0 <= j < k ==> !chain[j].hasEntity
  }

  /** An entity without a zombie component blocks the walk: anything behind
      it is never reached. */
  lemma NonZombieEntityShields(chain: seq<SceneObject>, rest: seq<SceneObject>)
    requires chain != [] && chain[0].hasEntity && chain[0].zombie.None?
    ensures Resolve(chain + rest) == None
  {
    assert (chain + rest)[0] == chain[0];
  }

  /** How a shot that struck a target changes the world: the zombie takes
      10 with instakill and 1 otherwise (doubled by its own headshot rule),
      and the player scores 30 for a headshot, 15 for a body shot. */
  datatype Strike = Strike(damage: int, isHeadshot: bool, points: int)

  function HitOutcome(instakill: bool, isHeadshot: bool): Strike
  {
    Strike(if instakill then 10 else 1, isHeadshot, if isHeadshot then 30 else 15)
  }

  /** The hit outcome table: damage depends only on instakill and score only
      on the headshot flag; a headshot scores exactly twice a body shot. */
  lemma HitOutcomeTable(instakill: bool, isHeadshot: bool)
    ensures HitOutcome(instakill, isHeadshot).damage == HitOutcome(instakill, !isHeadshot).damage
    ensures HitOutcome(instakill, isHeadshot).points == HitOutcome(!instakill, isHeadshot).points
    ensures HitOutcome(instakill, true).points == 2 * HitOutcome(instakill, false).points
    ensures HitOutcome(true, isHeadshot).damage == 10 * HitOutcome(false, isHeadshot).damage
    ensures HitOutcome(instakill, isHeadshot).isHeadshot == isHeadshot
    ensures HitOutcome(false, isHeadshot).damage == 1 && HitOutcome(true, isHeadshot).damage == 10
    ensures HitOutcome(instakill, false).points == 15 && HitOutcome(instakill, true).points == 30
  {
  }
}
