/** Shared vocabulary of the simulation: optional values, 3D positions, the
    difficulty setting, the four powerup kinds and JavaScript's Math.ceil. */
module Common {

  datatype Option<+T> = None | Some(value: T)

  /** A world-space position or direction (THREE.Vector3). */
  datatype Vec3 = Vec3(x: real, y: real, z: real)

  const Origin := Vec3(0.0, 0.0, 0.0)

  /** `Game.state`. */
  datatype State = Menu | Playing | GameOver

  /** `settings.difficulty` of the game manager. */
  datatype Difficulty = Easy | Normal | Hard | Nightmare

  /** The keys of `Game.powerups`. */
  datatype PowerupKind = Instakill | MaxAmmo | Shield | Speed

  /** `powerupTypes[i]` for the list ['instakill', 'maxammo', 'shield', 'speed']. */
  function KindAt(i: int): (k: PowerupKind)
    requires 0 <= i < 4
    ensures i == KindIndex(k)
  {
    if i == 0 then Instakill else if i == 1 then MaxAmmo else if i == 2 then Shield else Speed
  }

  /** Position of a kind in the drop table. */
  function KindIndex(k: PowerupKind): int
  {
    match k
    case Instakill => 0
    case MaxAmmo => 1
    case Shield => 2
    case Speed => 3
  }

  function Abs(x: real): real
  {
    if x < 0.0 then -x else x
  }

  /** Math.ceil on exact reals: the least integer not below `x`. */
  function Ceil(x: real): (r: int)
    ensures r as real - 1.0 < x <= r as real
  {
    -((-x).Floor)
  }

  /** Math.min / Math.max on integers. */
  function Min(a: int, b: int): (r: int)
    ensures r <= a && r <= b && (r == a || r == b)
  {
    if a <= b then a else b
  }

  function Max(a: int, b: int): (r: int)
    ensures r >= a && r >= b && (r == a || r == b)
  {
    if a >= b then a else b
  }

  /** Math.max(lo, Math.min(hi, v)) on reals, the order the source writes it. */
  function Clamp(lo: real, hi: real, v: real): (r: real)
    requires lo <= hi
    ensures lo <= r <= hi
    ensures lo <= v <= hi ==> r == v
    ensures v < lo ==> r == lo
    ensures v > hi ==> r == hi
  {
    var m := if hi <= v then hi else v;
    if lo >= m then lo else m
  }

  /** A Ceil result is characterised by its two bounds; used to pin literals. */
  lemma CeilUnique(x: real, n: int)
    requires n as real - 1.0 < x <= n as real
    ensures Ceil(x) == n
  {
  }
}
