/** The `vr-controls` component: stick movement with a dead zone and sprint,
    the per-frame position update (clamped for the stick, unclamped for the
    keyboard), the sprint HUD text, the restart guard and the melee strike. */
module Controls {
  import opened Common
  import Guns

  /** The movement keys `tick` reads from `keys`. */
  datatype Keys = Keys(w: bool, a: bool, s: bool, d: bool)

  /** The `event.code`s the keyboard handlers distinguish. */
  datatype Key = KeyW | KeyA | KeyS | KeyD | ShiftLeft | KeyR | KeyF | KeyL | OtherKey

  datatype Rig = Rig(pos: Vec3, moveVector: Vec3, isSprinting: bool, sprintMultiplier: real, baseSpeed: real, keys: Keys)

  const NoKeys := Keys(false, false, false, false)
  const DeadZone: real := 0.1
  const Bound: real := 5.5

  /** State after `init()` with the rig standing at `pos`. */
  function Init(pos: Vec3): (r: Rig)
    ensures r.baseSpeed == 0.18 && r.sprintMultiplier == 2.0 && !r.isSprinting
  {
    Rig(pos, Origin, false, 2.0, 0.18, NoKeys)
  }

  /** The speed both movement paths use. */
  function MoveSpeed(r: Rig): real
  {
    if r.isSprinting then r.baseSpeed * r.sprintMultiplier else r.baseSpeed
  }

  /** `handleMovement({x, y})` with the camera yaw given by its cosine and
      sine: inside the dead zone the move vector is zeroed; otherwise it is
      the stick deflection scaled by the speed and rotated by the yaw, on the
      floor plane. */
  function HandleMovement(r: Rig, x: real, y: real, cos: real, sin: real): (r': Rig)
    requires cos * cos + sin * sin == 1.0
    ensures r'.(moveVector := r.moveVector) == r
    ensures Abs(x) < DeadZone && Abs(y) < DeadZone ==> r'.moveVector == Origin
    ensures r'.moveVector.y == 0.0
  {
    if Abs(x) < DeadZone && Abs(y) < DeadZone then r.(moveVector := Origin)
    else
      var speed := MoveSpeed(r);
      var forward := -y * speed;
      var strafe := x * speed;
      r.(moveVector := Vec3(strafe * cos - forward * sin, 0.0, strafe * sin + forward * cos))
  }

  /** Rotating by the yaw preserves length: outside the dead zone the move
      vector's squared length is speed^2 * (x^2 + y^2). */
  lemma MoveVectorLength(r: Rig, x: real, y: real, cos: real, sin: real)
    requires cos * cos + sin * sin == 1.0
    requires !(Abs(x) < DeadZone && Abs(y) < DeadZone)
    ensures var m := HandleMovement(r, x, y, cos, sin).moveVector;
            m.x * m.x + m.z * m.z == MoveSpeed(r) * MoveSpeed(r) * (x * x + y * y)
  {
    var speed := MoveSpeed(r);
    var f := -y * speed;
    var s := x * speed;
    var m := HandleMovement(r, x, y, cos, sin).moveVector;
    assert m.x * m.x + m.z * m.z == (s * s + f * f) * (cos * cos + sin * sin);
    assert s * s + f * f == speed * speed * (x * x + y * y);
  }

  /** Sprinting doubles the speed of both paths, whatever the base speed. */
  lemma SprintDoublesSpeed(r: Rig)
    requires r.sprintMultiplier == 2.0
    ensures MoveSpeed(r.(isSprinting := true)) == 2.0 * MoveSpeed(r.(isSprinting := false))
  {
  }

  function AnyKey(k: Keys): bool
  {
    k.w || k.a || k.s || k.d
  }

  /** The keyboard step of `tick`: W/S move along z, A/D along x, by the
      current speed each, with no boundary check. */
  function KeyboardStep(p: Vec3, k: Keys, speed: real): Vec3
  {
    var z1 := if k.w then p.z - speed else p.z;
    var z2 := if k.s then z1 + speed else z1;
    var x1 := if k.a then p.x - speed else p.x;
    var x2 := if k.d then x1 + speed else x1;
    Vec3(x2, p.y, z2)
  }

  /** `tick()`: a non-zero move vector moves the rig with x and z clamped to
      [-5.5, 5.5]; then held movement keys move it again, unclamped. Height
      never changes. */
  function Tick(r: Rig): (r': Rig)
    ensures r'.(pos := r.pos) == r
    ensures r'.pos.y == r.pos.y
    ensures !AnyKey(r.keys) && r.moveVector != Origin ==>
              -Bound <= r'.pos.x <= Bound && -Bound <= r'.pos.z <= Bound
    ensures !AnyKey(r.keys) && r.moveVector == Origin ==> r'.pos == r.pos
  {
    var p1 :=
      if r.moveVector != Origin then
        Vec3(Clamp(-Bound, Bound, r.pos.x + r.moveVector.x), r.pos.y, Clamp(-Bound, Bound, r.pos.z + r.moveVector.z))
      else r.pos;
    var p2 := if AnyKey(r.keys) then KeyboardStep(p1, r.keys, MoveSpeed(r)) else p1;
    r.(pos := p2)
  }

  /** Inside the box the stick moves the rig by exactly the move vector. */
  lemma StickMoveExact(r: Rig)
    requires !AnyKey(r.keys) && r.moveVector != Origin
    requires -Bound <= r.pos.x + r.moveVector.x <= Bound && -Bound <= r.pos.z + r.moveVector.z <= Bound
    ensures Tick(r).pos == Vec3(r.pos.x + r.moveVector.x, r.pos.y, r.pos.z + r.moveVector.z)
  {
  }

  /** The keyboard path is not clamped: holding D at the east wall walks
      through it. */
  lemma KeyboardIgnoresBounds(r: Rig)
    requires r.moveVector == Origin && r.keys == Keys(false, false, false, true)
    requires r.pos.x == Bound && r.baseSpeed > 0.0 && r.sprintMultiplier > 0.0
    ensures Tick(r).pos.x > Bound
  {
  }

  /** The key held alone, if exactly one movement key is down. */
  function OnlyKey(k: Keys): Option<Key>
  {
    if k == Keys(true, false, false, false) then Some(KeyW)
    else if k == Keys(false, true, false, false) then Some(KeyA)
    else if k == Keys(false, false, true, false) then Some(KeyS)
    else if k == Keys(false, false, false, true) then Some(KeyD)
    else None
  }

  /** The unit floor direction a single key moves the rig in: W is -z, S is
      +z, A is -x, D is +x. */
  function Heading(key: Key): Vec3
  {
    match key
    case KeyW => Vec3(0.0, 0.0, -1.0)
    case KeyS => Vec3(0.0, 0.0, 1.0)
    case KeyA => Vec3(-1.0, 0.0, 0.0)
    case KeyD => Vec3(1.0, 0.0, 0.0)
    case _ => Origin
  }

  /** With the stick idle and one key held, a tick moves the rig by exactly
      the current speed along that key's heading. */
  lemma SingleKeyStep(r: Rig, key: Key)
    requires r.moveVector == Origin && OnlyKey(r.keys) == Some(key)
    ensures var h := Heading(key);
            Tick(r).pos == Vec3(r.pos.x + MoveSpeed(r) * h.x, r.pos.y, r.pos.z + MoveSpeed(r) * h.z)
  {
  }

  /** With the stick idle and one key held, the tick's displacement while
      sprinting is twice the displacement while walking. */
  lemma SprintDoublesKeyboardStep(r: Rig, key: Key)
    requires r.moveVector == Origin && OnlyKey(r.keys) == Some(key)
    requires r.sprintMultiplier == 2.0
    ensures var run := Tick(r.(isSprinting := true)).pos;
            var walk := Tick(r.(isSprinting := false)).pos;
            run.x - r.pos.x == 2.0 * (walk.x - r.pos.x) &&
            run.z - r.pos.z == 2.0 * (walk.z - r.pos.z)
  {
    SingleKeyStep(r.(isSprinting := true), key);
    SingleKeyStep(r.(isSprinting := false), key);
    SprintDoublesSpeed(r);
  }

  /** The keydown/keyup handlers' effect on the movement state. */
  function KeyDown(r: Rig, k: Key): (r': Rig)
    ensures k == ShiftLeft ==> r'.isSprinting
    ensures k != ShiftLeft ==> r'.isSprinting == r.isSprinting
  {
    match k
    case KeyW => r.(keys := r.keys.(w := true))
    case KeyA => r.(keys := r.keys.(a := true))
    case KeyS => r.(keys := r.keys.(s := true))
    case KeyD => r.(keys := r.keys.(d := true))
    case ShiftLeft => r.(isSprinting := true)
    case _ => r
  }

  function KeyUp(r: Rig, k: Key): (r': Rig)
    ensures k == ShiftLeft ==> !r'.isSprinting
    ensures k != ShiftLeft ==> r'.isSprinting == r.isSprinting
  {
    match k
    case KeyW => r.(keys := r.keys.(w := false))
    case KeyA => r.(keys := r.keys.(a := false))
    case KeyS => r.(keys := r.keys.(s := false))
    case KeyD => r.(keys := r.keys.(d := false))
    case ShiftLeft => r.(isSprinting := false)
    case _ => r
  }

  /** Pressing and releasing a key restores the movement state it had when
      the key was up. */
  lemma KeyPressRelease(r: Rig, k: Key)
    requires k == ShiftLeft ==> !r.isSprinting
    requires k == KeyW ==> !r.keys.w
    requires k == KeyA ==> !r.keys.a
    requires k == KeyS ==> !r.keys.s
    requires k == KeyD ==> !r.keys.d
    ensures KeyUp(KeyDown(r, k), k) == r
  {
  }

  // ---------------------------------------------------------------------
  // The HUD sprint text

  const Dash := "\U{2014}"
  const SprintWord := "Sprint"
  const SprintSuffix := " \U{2022} Sprint"
  const SprintPrefix := "Sprint \U{2022} "

  /** `pat` occurs in `s` starting at index `i`. */
  predicate MatchAt(s: string, pat: string, i: int)
  {
    0 <= i && i + |pat| <= |s| && s[i..i + |pat|] == pat
  }

  /** `s` has `pat` as a substring. */
  predicate Contains(s: string, pat: string)
  {
    exists i :: 0 <= i <= |s| && MatchAt(s, pat, i)
  }

  /** JavaScript's `s.replace(pat, rep)` with a string pattern: only the first
      occurrence is replaced. */
  function ReplaceFirst(s: string, pat: string, rep: string): string
    requires |pat| > 0
    decreases |s|
  {
    if |s| < |pat| then s
    else if s[..|pat|] == pat then rep + s[|pat|..]
    else [s[0]] + ReplaceFirst(s[1..], pat, rep)
  }

  /** The HUD text written when sprint turns on. */
  function SprintOnText(t: string): string
  {
    if t == Dash then SprintWord else t + SprintSuffix
  }

  /** The HUD text written when sprint turns off. */
  function SprintOffText(t: string): string
  {
    ReplaceFirst(ReplaceFirst(ReplaceFirst(t, SprintSuffix, ""), SprintPrefix, ""), SprintWord, Dash)
  }

  /** `toggleSprint()` on the rig and the `hudPowers` text. */
  function ToggleSprint(r: Rig, hud: string): (res: (Rig, string))
    ensures res.0 == r.(isSprinting := !r.isSprinting)
    ensures res.0.isSprinting ==> Contains(res.1, SprintWord)
  {
    if !r.isSprinting then
      var t := SprintOnText(hud);
      SprintOnContains(hud);
      (r.(isSprinting := true), t)
    else (r.(isSprinting := false), SprintOffText(hud))
  }

  lemma SprintOnContains(t: string)
    ensures Contains(SprintOnText(t), SprintWord)
  {
    var s := SprintOnText(t);
    if t == Dash {
      assert MatchAt(s, SprintWord, 0);
    } else {
      assert s[|t| + 3..|t| + 9] == SprintWord;
      assert MatchAt(s, SprintWord, |t| + 3);
    }
  }

  /** A match in the tail of a string is a match in the string, one later. */
  lemma MatchShift(s: string, pat: string, i: int)
    requires |s| > 0
    ensures MatchAt(s[1..], pat, i) ==> MatchAt(s, pat, i + 1)
  {
    if MatchAt(s[1..], pat, i) {
      assert s[i + 1..i + 1 + |pat|] == s[1..][i..i + |pat|];
    }
  }

  lemma TailLacks(s: string, pat: string)
    requires |s| > 0 && !Contains(s, pat)
    ensures !Contains(s[1..], pat)
  {
    forall i | 0 <= i <= |s[1..]|
      ensures !MatchAt(s[1..], pat, i)
    {
      MatchShift(s, pat, i);
    }
  }

  /** Replacing a pattern that does not occur changes nothing. */
  lemma {:induction false} ReplaceAbsent(s: string, pat: string, rep: string)
    requires |pat| > 0 && !Contains(s, pat)
    ensures ReplaceFirst(s, pat, rep) == s
    decreases |s|
  {
    if |s| >= |pat| {
      assert !MatchAt(s, pat, 0);
      assert s[0..|pat|] == s[..|pat|];
      TailLacks(s, pat);
      ReplaceAbsent(s[1..], pat, rep);
      assert s == [s[0]] + s[1..];
    }
  }

  lemma ContainsLonger(s: string)
    requires Contains(s, SprintPrefix)
    ensures Contains(s, SprintWord)
  {
    var i :| 0 <= i <= |s| && MatchAt(s, SprintPrefix, i);
    assert s[i..i + 6] == s[i..i + |SprintPrefix|][..6];
    assert MatchAt(s, SprintWord, i);
  }

  /** The suffix can only be matched where it was appended: an earlier match
      would put "Sprint" inside `x` or clash with the suffix's own letters. */
  lemma NoEarlySuffix(x: string)
    requires |x| > 0 && !Contains(x, SprintWord)
    ensures (x + SprintSuffix)[..9] != SprintSuffix
  {
    var s := x + SprintSuffix;
    var n := |x|;
    assert SprintSuffix[3..9] == SprintWord;
    if n >= 9 {
      assert !MatchAt(x, SprintWord, 3);
      assert s[..9][3..9] == x[3..9];
    } else if n <= 5 {
      assert s[..9][n + 3] == 'S' != SprintSuffix[n + 3];
    } else {
      assert s[..9][n] == ' ' != SprintSuffix[n];
    }
  }

  lemma {:induction false} StripSuffix(x: string)
    requires !Contains(x, SprintWord)
    ensures ReplaceFirst(x + SprintSuffix, SprintSuffix, "") == x
    decreases |x|
  {
    var s := x + SprintSuffix;
    if |x| == 0 {
      assert s == SprintSuffix;
      assert s[..9] == SprintSuffix;
      assert s[9..] == "";
    } else {
      NoEarlySuffix(x);
      TailLacks(x, SprintWord);
      StripSuffix(x[1..]);
      assert s[1..] == x[1..] + SprintSuffix;
      assert s[0] == x[0];
      assert x == [x[0]] + x[1..];
    }
  }

  /** Turning sprint on and then off restores any HUD text that did not
      mention sprint: "—" becomes "Sprint" and back, "X" becomes
      "X • Sprint" and back. */
  lemma SprintTextRoundTrip(t: string)
    requires !Contains(t, SprintWord)
    ensures SprintOffText(SprintOnText(t)) == t
  {
    if t == Dash {
      assert SprintOnText(t) == SprintWord;
      assert ReplaceFirst(SprintWord, SprintSuffix, "") == SprintWord;
      assert ReplaceFirst(SprintWord, SprintPrefix, "") == SprintWord;
      assert SprintWord[..6] == SprintWord;
      assert ReplaceFirst(SprintWord, SprintWord, Dash) == Dash + SprintWord[6..];
      assert SprintWord[6..] == "";
    } else {
      StripSuffix(t);
      if Contains(t, SprintPrefix) {
        ContainsLonger(t);
      }
      ReplaceAbsent(t, SprintPrefix, "");
      ReplaceAbsent(t, SprintWord, Dash);
    }
  }

  /** Two toggles restore both the sprint flag and a sprint-free HUD text. */
  lemma ToggleSprintTwice(r: Rig, hud: string)
    requires !r.isSprinting && !Contains(hud, SprintWord)
    ensures var (r1, h1) := ToggleSprint(r, hud);
            ToggleSprint(r1, h1) == (r, hud)
  {
    SprintTextRoundTrip(hud);
  }

  // ---------------------------------------------------------------------
  // Restart and melee

  /** `restartGame()`'s guard: a restart is offered while playing or after
      game over, never from the menu. */
  function RestartOffered(s: State): (b: bool)
    ensures b <==> s != Menu
  {
    s == GameOver || s == Playing
  }

  /** `meleeAttack()` once the short ray is resolved: a zombie target takes
      a fixed 2 damage that is never a headshot and the player scores 5;
      anything else changes nothing. */
  function MeleeOutcome(t: Option<Guns.Target>): (r: Option<(nat, Guns.Strike)>)
    ensures r.Some? <==> t.Some?
    ensures r.Some? ==> r.value.0 == t.value.zombie
    ensures r.Some? ==> !r.value.1.isHeadshot
    ensures r.Some? ==> r.value.1.damage == 2 && r.value.1.points == 5
  {
    match t
    case None => None
    case Some(target) => Some((target.zombie, Guns.Strike(2, false, 5)))
  }
}
