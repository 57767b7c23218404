/** The wave director's arithmetic: the per-wave configuration with its
    difficulty scaling, the damage a zombie deals to the player, and the
    per-zombie stats drawn from a configuration. */
module Waves {
  import opened Common

  /** `getWaveConfig()`'s result. `count`, `baseSpeed` and `baseHp` become
      fractional once a difficulty factor is applied, so they are reals. */
  datatype WaveConfig = WaveConfig(count: real, baseSpeed: real, baseHp: real, spawnDelay: int)

  /** The configuration before the difficulty switch. */
  function BaseConfig(wave: int): WaveConfig
  {
    WaveConfig(
      Min(6 + (wave - 1) * 2, 80) as real,
      0.6 + (wave - 1) as real * 0.08,
      Ceil(3.0 + wave as real * 0.8) as real,
      Max(400, 800 - wave * 25))
  }

  function CountFactor(d: Difficulty): real
  {
    match d
    case Easy => 0.7
    case Normal => 1.0
    case Hard => 1.3
    case Nightmare => 1.6
  }

  function SpeedFactor(d: Difficulty): real
  {
    match d
    case Easy => 0.8
    case Normal => 1.0
    case Hard => 1.2
    case Nightmare => 1.4
  }

  function HpFactor(d: Difficulty): real
  {
    match d
    case Easy => 0.8
    case Normal => 1.0
    case Hard => 1.2
    case Nightmare => 1.5
  }

  /** `getWaveConfig()` for the given wave number and difficulty. The normal
      difficulty leaves the base configuration alone; the others scale count,
      speed and hp, never the spawn delay. */
  function GetWaveConfig(wave: int, d: Difficulty): (c: WaveConfig)
    ensures 400 <= c.spawnDelay
    ensures wave >= 1 ==> c.spawnDelay <= 775
    ensures wave >= 1 ==> 4.2 <= c.count <= 128.0
    ensures wave >= 1 ==> 0.48 <= c.baseSpeed && 3.2 <= c.baseHp
  {
    var b := BaseConfig(wave);
    BaseHpAtLeastFour(wave);
    match d
    case Normal => b
    case _ => b.(count := b.count * CountFactor(d),
                 baseSpeed := b.baseSpeed * SpeedFactor(d),
                 baseHp := b.baseHp * HpFactor(d))
  }

  lemma BaseHpAtLeastFour(wave: int)
    ensures wave >= 1 ==> Ceil(3.0 + wave as real * 0.8) >= 4
  {
    if wave >= 1 {
      CeilMonotone(3.8, 3.0 + wave as real * 0.8);
      CeilUnique(3.8, 4);
    }
  }

  /** How many zombies the spawn chain of a configuration creates: it keeps
      spawning while fewer than `count` exist, so a fractional count rounds up. */
  function SpawnTotal(c: WaveConfig): int
  {
    Ceil(c.count)
  }

  lemma CeilMonotone(x: real, y: real)
    requires x <= y
    ensures Ceil(x) <= Ceil(y)
  {
  }

  /** Later waves are never easier: count, speed and hp do not decrease and
      the spawn delay does not increase, for every difficulty. */
  lemma WaveConfigMonotone(w1: int, w2: int, d: Difficulty)
    requires 1 <= w1 <= w2
    ensures GetWaveConfig(w1, d).count <= GetWaveConfig(w2, d).count
    ensures GetWaveConfig(w1, d).baseSpeed <= GetWaveConfig(w2, d).baseSpeed
    ensures GetWaveConfig(w1, d).baseHp <= GetWaveConfig(w2, d).baseHp
    ensures GetWaveConfig(w2, d).spawnDelay <= GetWaveConfig(w1, d).spawnDelay
    ensures SpawnTotal(GetWaveConfig(w1, d)) <= SpawnTotal(GetWaveConfig(w2, d))
  {
    CeilMonotone(3.0 + w1 as real * 0.8, 3.0 + w2 as real * 0.8);
    CeilMonotone(GetWaveConfig(w1, d).count, GetWaveConfig(w2, d).count);
  }

  /** The unscaled count is capped at 80, reached from wave 38 on, and the
      spawn delay bottoms out at 400 from wave 16 on. */
  lemma BaseConfigCaps(wave: int)
    requires wave >= 1
    ensures BaseConfig(wave).count <= 80.0
    ensures BaseConfig(wave).count == 80.0 <==> wave >= 38
    ensures BaseConfig(wave).spawnDelay == 400 <==> wave >= 16
  {
  }

  /** The difficulty scales count, speed and hp by its factors and never
      touches the spawn delay. */
  lemma DifficultyScaling(wave: int, d: Difficulty)
    ensures GetWaveConfig(wave, d).count == GetWaveConfig(wave, Normal).count * CountFactor(d)
    ensures GetWaveConfig(wave, d).baseSpeed == GetWaveConfig(wave, Normal).baseSpeed * SpeedFactor(d)
    ensures GetWaveConfig(wave, d).baseHp == GetWaveConfig(wave, Normal).baseHp * HpFactor(d)
    ensures GetWaveConfig(wave, d).spawnDelay == GetWaveConfig(wave, Normal).spawnDelay
  {
  }

  /** Wave 1 on normal: six zombies, speed 0.6, hp ceil(3.8) = 4, one every 775 ms. */
  lemma Wave1Normal()
    ensures GetWaveConfig(1, Normal) == WaveConfig(6.0, 0.6, 4.0, 775)
    ensures SpawnTotal(GetWaveConfig(1, Normal)) == 6
  {
    CeilUnique(3.8, 4);
    CeilUnique(6.0, 6);
  }

  /** Wave 1 on easy has count 4.2, so its spawn chain creates five zombies. */
  lemma Wave1EasySpawnsFive()
    ensures GetWaveConfig(1, Easy).count == 4.2
    ensures SpawnTotal(GetWaveConfig(1, Easy)) == 5
  {
    CeilUnique(3.8, 4);
    CeilUnique(4.2, 5);
  }

  function DamageFactor(d: Difficulty): real
  {
    match d
    case Easy => 0.7
    case Normal => 1.0
    case Hard => 1.3
    case Nightmare => 1.6
  }

  /** `calculatePlayerDamage()`: the base damage 8 scaled by the difficulty
      and rounded up. */
  function PlayerDamage(d: Difficulty): (r: int)
    ensures r as real - 1.0 < 8.0 * DamageFactor(d) <= r as real
  {
    Ceil(8.0 * DamageFactor(d))
  }

  lemma PlayerDamageValues()
    ensures PlayerDamage(Easy) == 6
    ensures PlayerDamage(Normal) == 8
    ensures PlayerDamage(Hard) == 11
    ensures PlayerDamage(Nightmare) == 13
  {
    CeilUnique(5.6, 6);
    CeilUnique(8.0, 8);
    CeilUnique(10.4, 11);
    CeilUnique(12.8, 13);
  }

  /** A `Math.random()` draw. */
  predicate IsRoll(r: real)
  {
    0.0 <= r < 1.0
  }

  /** `createZombie`'s stat formulas: speed jittered by up to 0.15 either way,
      hp jittered by up to 1 and rounded up, with no clamp. */
  function ZombieSpeed(c: WaveConfig, roll: real): (s: real)
    requires IsRoll(roll)
    ensures c.baseSpeed - 0.15 <= s < c.baseSpeed + 0.15
  {
    c.baseSpeed + (roll - 0.5) * 0.3
  }

  function ZombieHp(c: WaveConfig, roll: real): (hp: int)
    requires IsRoll(roll)
    ensures Ceil(c.baseHp - 1.0) <= hp <= Ceil(c.baseHp + 1.0)
  {
    var x := c.baseHp + (roll - 0.5) * 2.0;
    CeilMonotone(c.baseHp - 1.0, x);
    CeilMonotone(x, c.baseHp + 1.0);
    Ceil(x)
  }

  /** The missing clamp never matters: every zombie of every wave and
      difficulty starts with at least 3 hp and a positive speed. */
  lemma SpawnedStatsPositive(wave: int, d: Difficulty, speedRoll: real, hpRoll: real)
    requires wave >= 1 && IsRoll(speedRoll) && IsRoll(hpRoll)
    ensures ZombieHp(GetWaveConfig(wave, d), hpRoll) >= 3
    ensures ZombieSpeed(GetWaveConfig(wave, d), speedRoll) > 0.0
  {
    var c := GetWaveConfig(wave, d);
    CeilMonotone(2.2, c.baseHp - 1.0);
    CeilUnique(2.2, 3);
  }

  lemma RingDistance(cos: real, sin: real, radius: real)
    requires cos * cos + sin * sin == 1.0 && 6.0 <= radius < 8.0
    ensures 36.0 <= (cos * radius) * (cos * radius) + (sin * radius) * (sin * radius) < 64.0
  {
    var d := (cos * radius) * (cos * radius) + (sin * radius) * (sin * radius);
    assert d == (cos * cos + sin * sin) * (radius * radius);
    assert d == radius * radius;
    assert 6.0 * radius <= radius * radius < 8.0 * radius;
  }

  /** `createZombie`'s spawn point: radius 6 + 2*roll at an angle whose cosine
      and sine are given; it lies on the floor in the ring [6, 8). */
  function SpawnPoint(cos: real, sin: real, roll: real): (p: Vec3)
    requires cos * cos + sin * sin == 1.0 && IsRoll(roll)
    ensures p.y == 0.0
    ensures 36.0 <= p.x * p.x + p.z * p.z < 64.0
  {
    var radius := 6.0 + roll * 2.0;
    RingDistance(cos, sin, radius);
    Vec3(cos * radius, 0.0, sin * radius)
  }
}
