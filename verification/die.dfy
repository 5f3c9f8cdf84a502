/**
 * One die of the dice game: a two-state machine (rolling, settled).
 * `roll` loads a countdown of `roll_speed` frames and picks a target face;
 * every frame `update` counts down while showing arbitrary faces, and when the
 * countdown is exhausted the die settles on its target.
 *
 * The random draws of the game (the target face, the faces shown while
 * rolling, the per-die speed) are parameters here, constrained to the ranges
 * the game draws them from.
 */
module Die {

  const MinFace := 1
  const MaxFace := 6
  const MinSpeed := 5
  const MaxSpeed := 15

  /** A face a die can show. */
  predicate IsFace(v: int) { MinFace <= v <= MaxFace }

  /** A frame count a die can be given as its animation speed. */
  predicate IsSpeed(v: int) { MinSpeed <= v <= MaxSpeed }

  predicate AreFaces(faces: seq<int>) { forall i :: 0 <= i < |faces| ==> IsFace(faces[i]) }

  /** The value of a die: its screen position, shown face, target face,
      remaining animation frames, rolling flag and animation speed. */
  datatype DieState = DieState(x: int, y: int, value: int, target: int,
                               frames: int, rolling: bool, speed: int)

  /** What every die satisfies at all times. */
  predicate Wellformed(s: DieState)
  {
    IsFace(s.value) && IsFace(s.target) && IsSpeed(s.speed) && 0 <= s.frames <= s.speed
  }

  /** A newly built die: settled, showing 1, nothing left to animate. */
  function Initial(x: int, y: int, speed: int): (s: DieState)
    requires IsSpeed(speed)
    ensures Wellformed(s)
    ensures s.x == x && s.y == y && s.speed == speed
    ensures !s.rolling && s.value == 1 && s.target == 1 && s.frames == 0
  {
    DieState(x, y, 1, 1, 0, false, speed)
  }

  /** The die after `roll` with the drawn target face. */
  function Rolled(s: DieState, target: int): (r: DieState)
    requires Wellformed(s) && IsFace(target)
    ensures Wellformed(r)
    ensures r.rolling && r.target == target
    ensures r.frames == r.speed == s.speed && IsSpeed(r.frames)
    ensures r.value == s.value && r.x == s.x && r.y == s.y
  {
    s.(target := target, rolling := true, frames := s.speed)
  }

  /** The die after one frame of `update`; `face` is the face drawn for display. */
  function Step(s: DieState, face: int): (r: DieState)
    requires Wellformed(s) && IsFace(face)
    ensures Wellformed(r)
    ensures !s.rolling ==> r == s
    ensures s.rolling && s.frames > 0 ==>
              r.rolling && r.frames == s.frames - 1 && r.value == face
    ensures s.rolling && s.frames == 0 ==>
              !r.rolling && r.frames == 0 && r.value == s.target
    ensures r.target == s.target && r.speed == s.speed && r.x == s.x && r.y == s.y
  {
    if !s.rolling then s
    else if s.frames > 0 then s.(frames := s.frames - 1, value := face)
    else s.(value := s.target, rolling := false)
  }

  /** The die after one `update` per element of `faces`, in order. */
  function Run(s: DieState, faces: seq<int>): (r: DieState)
    requires Wellformed(s) && AreFaces(faces)
    ensures Wellformed(r)
    ensures r.target == s.target && r.speed == s.speed && r.x == s.x && r.y == s.y
    decreases |faces|
  {
    if faces == [] then s else Run(Step(s, faces[0]), faces[1..])
  }

  /** Running `a` and then `b` is running `a + b`. */
  lemma {:induction false} RunAppend(s: DieState, a: seq<int>, b: seq<int>)
    requires Wellformed(s) && AreFaces(a) && AreFaces(b)
    ensures AreFaces(a + b)
    ensures Run(s, a + b) == Run(Run(s, a), b)
    decreases |a|
  {
    assert AreFaces(a + b) by {
      forall i | 0 <= i < |a + b| ensures IsFace((a + b)[i]) {
        if i < |a| { assert (a + b)[i] == a[i]; } else { assert (a + b)[i] == b[i - |a|]; }
      }
    }
    if a != [] {
      assert (a + b)[0] == a[0];
      assert (a + b)[1..] == a[1..] + b;
      RunAppend(Step(s, a[0]), a[1..], b);
    } else {
      assert a + b == b;
    }
  }

  /** Updating a settled die changes nothing, however many frames pass. */
  lemma {:induction false} SettledIsFixed(s: DieState, faces: seq<int>)
    requires Wellformed(s) && AreFaces(faces) && !s.rolling
    ensures Run(s, faces) == s
    decreases |faces|
  {
    if faces != [] {
      SettledIsFixed(Step(s, faces[0]), faces[1..]);
    }
  }

  /** While frames remain, each update uses up exactly one of them. */
  lemma {:induction false} CountsDown(s: DieState, faces: seq<int>)
    requires Wellformed(s) && AreFaces(faces) && s.rolling && |faces| <= s.frames
    ensures Run(s, faces).rolling
    ensures Run(s, faces).frames == s.frames - |faces|
    decreases |faces|
  {
    if faces != [] {
      CountsDown(Step(s, faces[0]), faces[1..]);
    }
  }

  /** A rolling die with `frames` frames left settles on its target at
      update number `frames + 1`. */
  lemma {:induction false} SettlesOnTarget(s: DieState, faces: seq<int>)
    requires Wellformed(s) && AreFaces(faces) && s.rolling && |faces| == s.frames + 1
    ensures !Run(s, faces).rolling
    ensures Run(s, faces).value == s.target
  {
    var k := |faces| - 1;
    assert faces == faces[..k] + [faces[k]];
    RunAppend(s, faces[..k], [faces[k]]);
    CountsDown(s, faces[..k]);
    var t := Run(s, faces[..k]);
    assert Run(t, [faces[k]]) == Step(t, faces[k]);
  }

  /** After a roll the die keeps rolling for exactly `speed` updates and is
      settled on the drawn target from update `speed + 1` on. */
  lemma RollSettlesAfterSpeedPlusOne(s: DieState, target: int, faces: seq<int>)
    requires Wellformed(s) && IsFace(target) && AreFaces(faces)
    ensures Run(Rolled(s, target), faces).rolling <==> |faces| <= s.speed
    ensures |faces| > s.speed ==> Run(Rolled(s, target), faces).value == target
  {
    var r := Rolled(s, target);
    if |faces| <= s.speed {
      CountsDown(r, faces);
    } else {
      var k := s.speed + 1;
      assert faces == faces[..k] + faces[k..];
      RunAppend(r, faces[..k], faces[k..]);
      SettlesOnTarget(r, faces[..k]);
      SettledIsFixed(Run(r, faces[..k]), faces[k..]);
    }
  }

  /** No die animates for longer than `MaxSpeed + 1` updates, whatever its state. */
  lemma SettledWithinMaxSpeed(s: DieState, faces: seq<int>)
    requires Wellformed(s) && AreFaces(faces) && |faces| > MaxSpeed
    ensures !Run(s, faces).rolling
  {
    if !s.rolling {
      SettledIsFixed(s, faces);
    } else {
      var k := s.frames + 1;
      assert faces == faces[..k] + faces[k..];
      RunAppend(s, faces[..k], faces[k..]);
      SettlesOnTarget(s, faces[..k]);
      SettledIsFixed(Run(s, faces[..k]), faces[k..]);
    }
  }

  /** A die object; its fields change in place on `Roll` and `Update`. */
  class Dice {
    var x: int
    var y: int
    var value: int
    var targetValue: int
    var animationFrames: int
    var isRolling: bool
    var rollSpeed: int

    /** The die's fields as a value. */
    function State(): DieState
      reads this
    {
      DieState(x, y, value, targetValue, animationFrames, isRolling, rollSpeed)
    }

    ghost predicate Valid()
      reads this
    {
      Wellformed(State())
    }

    /** A die at (x, y) with the drawn animation speed `speed`. */
    constructor (x: int, y: int, speed: int)
      requires IsSpeed(speed)
      ensures Valid()
      ensures State() == Initial(x, y, speed)
    {
      this.x := x;
      this.y := y;
      value := 1;
      targetValue := 1;
      animationFrames := 0;
      isRolling := false;
      rollSpeed := speed;
    }

    /** Start rolling towards the drawn face `target`. */
    method Roll(target: int)
      requires Valid() && IsFace(target)
      modifies this
      ensures Valid()
      ensures State() == Rolled(old(State()), target)
    {
      targetValue := target;
      isRolling := true;
      animationFrames := rollSpeed;
    }

    /** Advance one frame; `face` is the face drawn for display while rolling. */
    method Update(face: int)
      requires Valid() && IsFace(face)
      modifies this
      ensures Valid()
      ensures State() == Step(old(State()), face)
    {
      if isRolling {
        if animationFrames > 0 {
          animationFrames := animationFrames - 1;
          value := face;
        } else {
          value := targetValue;
          isRolling := false;
        }
      }
    }
  }
}
