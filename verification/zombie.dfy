/** The `zombie` component: a dead latch with headshot-doubled damage, and a
    per-frame tick that seeks the player on the floor plane and bites on a
    cooldown while in range. */
module Zombies {
  import opened Common

  /** The component's simulation state (`data.hp`, `data.speed`, `dead`,
      `attackCooldown` and the entity's position). */
  datatype Zombie = Zombie(hp: int, speed: real, dead: bool, attackCooldown: real, pos: Vec3)

  /** What `die()` does besides the animation: emit `zombie-killed`, then
      remove the entity after a delay. */
  datatype Signal = Killed | RemoveAfter(ms: nat)

  const RemovalDelay: nat := 2000
  const AttackRange: real := 0.8
  const AttackReset: real := 1000.0
  const MoveEpsilon: real := 0.001

  /** A freshly initialised zombie: alive, ready to bite at once. */
  function Spawn(speed: real, hp: int, pos: Vec3): (z: Zombie)
    ensures !z.dead && z.attackCooldown == 0.0
  {
    Zombie(hp, speed, false, 0.0, pos)
  }

  /** `isHeadshot ? damage * 2 : damage`. */
  function EffectiveDamage(damage: int, isHeadshot: bool): int
  {
    if isHeadshot then damage * 2 else damage
  }

  /** `takeDamage(damage, isHeadshot)`: nothing once dead; otherwise hp drops
      by the effective damage and the zombie dies, emitting exactly one kill
      and scheduling its removal, when hp reaches 0 or below. */
  function TakeDamage(z: Zombie, damage: int, isHeadshot: bool): (r: (Zombie, seq<Signal>))
    ensures z.dead ==> r == (z, [])
    ensures !z.dead ==> r.0.hp == z.hp - EffectiveDamage(damage, isHeadshot)
    ensures r.0.dead <==> z.dead || r.0.hp <= 0
    ensures r.1 == if !z.dead && r.0.dead then [Killed, RemoveAfter(RemovalDelay)] else []
    ensures r.0.pos == z.pos && r.0.speed == z.speed && r.0.attackCooldown == z.attackCooldown
  {
    if z.dead then (z, [])
    else
      var hp := z.hp - EffectiveDamage(damage, isHeadshot);
      if hp <= 0 then (z.(hp := hp, dead := true), Die())
      else (z.(hp := hp), [])
  }

  /** `die()`. */
  function Die(): seq<Signal>
  {
    [Killed, RemoveAfter(RemovalDelay)]
  }

  /** A headshot always deals exactly twice the body-shot damage. */
  lemma HeadshotDoubles(z: Zombie, damage: int)
    requires !z.dead
    ensures z.hp - TakeDamage(z, damage, true).0.hp == 2 * (z.hp - TakeDamage(z, damage, false).0.hp)
  {
  }

  /** Non-negative damage never raises hp. */
  lemma HpNeverIncreases(z: Zombie, damage: int, isHeadshot: bool)
    requires damage >= 0
    ensures TakeDamage(z, damage, isHeadshot).0.hp <= z.hp
  {
  }

  datatype Hit = Hit(damage: int, isHeadshot: bool)

  /** A sequence of `takeDamage` calls, with the number of kill events emitted. */
  function ApplyHits(z: Zombie, hits: seq<Hit>): (Zombie, nat)
    decreases |hits|
  {
    if hits == [] then (z, 0)
    else
      var (z1, signals) := TakeDamage(z, hits[0].damage, hits[0].isHeadshot);
      var (zn, kills) := ApplyHits(z1, hits[1..]);
      (zn, kills + (if Killed in signals then 1 else 0))
  }

  /** No two damage sources double-kill: over any sequence of hits the kill
      event is emitted at most once, and exactly once iff the zombie went from
      alive to dead; once dead it stays dead and unchanged. */
  lemma {:induction false} KilledAtMostOnce(z: Zombie, hits: seq<Hit>)
    ensures ApplyHits(z, hits).1 <= 1
    ensures ApplyHits(z, hits).1 == 1 <==> !z.dead && ApplyHits(z, hits).0.dead
    ensures z.dead ==> ApplyHits(z, hits) == (z, 0)
    ensures (z.dead <==> z.hp <= 0) ==> (ApplyHits(z, hits).0.dead <==> ApplyHits(z, hits).0.hp <= 0)
    decreases |hits|
  {
    if hits != [] {
      var (z1, signals) := TakeDamage(z, hits[0].damage, hits[0].isHeadshot);
      KilledAtMostOnce(z1, hits[1..]);
      if z.dead {
        assert z1 == z && signals == [];
      }
    }
  }

  /** hp 4 hit by two headshots of damage 1: 2 and alive, then 0 and dead,
      with one kill event. */
  lemma TwoHeadshotsKill(speed: real, pos: Vec3)
    ensures var z0 := Spawn(speed, 4, pos);
            var (z1, s1) := TakeDamage(z0, 1, true);
            var (z2, s2) := TakeDamage(z1, 1, true);
            z1.hp == 2 && !z1.dead && s1 == [] &&
            z2.hp == 0 && z2.dead && s2 == [Killed, RemoveAfter(2000)]
  {
  }

  /** The attack part of `tick`: out of range nothing changes; in range the
      cooldown runs down by `dt` and a bite is emitted, resetting it to 1000,
      once it is at or below 0. */
  function Cooldown(cd: real, distance: real, dt: real): (r: (real, bool))
    ensures distance >= AttackRange ==> r == (cd, false)
    ensures r.1 <==> distance < AttackRange && cd - dt <= 0.0
    ensures r.1 ==> r.0 == AttackReset
    ensures distance < AttackRange && !r.1 ==> r.0 == cd - dt
  {
    if distance < AttackRange then
      var c := cd - dt;
      if c <= 0.0 then (AttackReset, true) else (c, false)
    else (cd, false)
  }

  /** Squared distance on the floor plane (y ignored). */
  function PlanarSq(a: Vec3, b: Vec3): real
  {
    (b.x - a.x) * (b.x - a.x) + (b.z - a.z) * (b.z - a.z)
  }

  /** `tick(time, dt)` given the player's world position and the planar
      distance to it (the square root is left to the caller). A dead zombie
      does nothing; a live one steps `speed * dt / 1000` toward the player on
      the floor when farther than 0.001, then runs its attack cooldown. */
  function Tick(z: Zombie, target: Vec3, distance: real, dt: real): (r: (Zombie, bool))
    requires distance >= 0.0 && distance * distance == PlanarSq(z.pos, target)
    ensures z.dead ==> r == (z, false)
    ensures r.0.dead == z.dead && r.0.hp == z.hp && r.0.speed == z.speed
    ensures r.0.pos.y == z.pos.y
    ensures distance <= MoveEpsilon ==> r.0.pos == z.pos
    ensures r.1 ==> !z.dead && distance < AttackRange
    ensures !z.dead ==> (r.0.attackCooldown, r.1) == Cooldown(z.attackCooldown, distance, dt)
    ensures !z.dead && distance > MoveEpsilon ==>
              var step := z.speed * (dt / 1000.0);
              && PlanarSq(z.pos, r.0.pos) == step * step
              && PlanarSq(r.0.pos, target) == (distance - step) * (distance - step)
  {
    if z.dead then (z, false)
    else
      var step := z.speed * (dt / 1000.0);
      var pos := if distance > MoveEpsilon then SeekStep(z.pos, target, distance, step); Advance(z.pos, target, distance, step) else z.pos;
      var (cd, hit) := Cooldown(z.attackCooldown, distance, dt);
      (z.(pos := pos, attackCooldown := cd), hit)
  }

  /** `myPos.addScaledVector(direction.normalize(), step)` with a direction
      whose y component is 0. */
  function Advance(p: Vec3, target: Vec3, distance: real, step: real): Vec3
    requires distance > 0.0
  {
    Vec3(p.x + (target.x - p.x) / distance * step, p.y, p.z + (target.z - p.z) / distance * step)
  }

  /** Seeking is exact: the step has length `step` and lies on the line to the
      player, so the remaining planar distance becomes |distance - step|. */
  lemma SeekStep(p: Vec3, target: Vec3, distance: real, step: real)
    requires distance > 0.0 && distance * distance == PlanarSq(p, target)
    ensures PlanarSq(p, Advance(p, target, distance, step)) == step * step
    ensures PlanarSq(Advance(p, target, distance, step), target) == (distance - step) * (distance - step)
  {
    var dx := target.x - p.x;
    var dz := target.z - p.z;
    var k := step / distance;
    var q := Advance(p, target, distance, step);
    assert q.x - p.x == dx * k && q.z - p.z == dz * k;
    assert PlanarSq(p, q) == (dx * dx + dz * dz) * (k * k);
    assert k * k * (distance * distance) == step * step;
    assert target.x - q.x == dx * (1.0 - k) && target.z - q.z == dz * (1.0 - k);
    assert PlanarSq(q, target) == (dx * dx + dz * dz) * ((1.0 - k) * (1.0 - k));
    assert (1.0 - k) * distance == distance - step;
  }

  /** A zombie bites on its first tick in range: the cooldown starts at 0. */
  lemma FirstTickInRangeBites(speed: real, hp: int, pos: Vec3, target: Vec3, distance: real, dt: real)
    requires distance >= 0.0 && distance * distance == PlanarSq(pos, target)
    requires distance < AttackRange && dt >= 0.0
    ensures Tick(Spawn(speed, hp, pos), target, distance, dt).1
  {
  }

  /** The cooldown part of a run of in-range ticks: the final cooldown and
      how many bites were emitted. */
  function Bites(cd: real, dts: seq<real>): (real, nat)
    decreases |dts|
  {
    if dts == [] then (cd, 0)
    else
      var (c1, hit) := Cooldown(cd, 0.0, dts[0]);
      var (cn, n) := Bites(c1, dts[1..]);
      (cn, n + (if hit then 1 else 0))
  }

  function Sum(dts: seq<real>): real
  {
    if dts == [] then 0.0 else dts[0] + Sum(dts[1..])
  }

  /** Bites are spaced by the cooldown: while the frame times add up to less
      than the remaining cooldown, no bite is emitted and the cooldown has
      run down by exactly their sum. */
  lemma {:induction false} NoBiteWithinCooldown(cd: real, dts: seq<real>)
    requires forall i :: 0 <= i < |dts| ==> dts[i] >= 0.0
    requires Sum(dts) < cd
    ensures Bites(cd, dts) == (cd - Sum(dts), 0)
    decreases |dts|
  {
    if dts != [] {
      assert Sum(dts[1..]) >= 0.0 by { SumNonNegative(dts[1..]); }
      NoBiteWithinCooldown(cd - dts[0], dts[1..]);
    }
  }

  lemma {:induction false} SumNonNegative(dts: seq<real>)
    requires forall i :: 0 <= i < |dts| ==> dts[i] >= 0.0
    ensures Sum(dts) >= 0.0
  {
    if dts != [] {
      SumNonNegative(dts[1..]);
    }
  }
}
