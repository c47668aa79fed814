/** Scalar helpers and the mathematical primitives the library takes from <cmath>.
    Doubles are modelled as `real`; rounding, NaN and infinities are not represented here. */
module Numeric {

  /** LOWEST_SAMPLE_TIME [s]: the shortest cycle of the robot controller. */
  const LOWEST_SAMPLE_TIME: real := 0.004

  datatype Option<+T> = None | Some(value: T)

  function Max(x: real, y: real): real { if x < y then y else x }

  function Abs(x: real): real { if x < 0.0 then -x else x }

  function Saturate(value: real, lower: real, upper: real): real {
    if value < lower then lower else if value > upper then upper else value
  }

  /** saturate(x / d, 0, 1) for an elapsed time x > 0. A zero duration makes the C++ quotient +infinity,
      which saturates to 1. */
  function Progress(x: real, d: real): real {
    if d == 0.0 then 1.0 else Saturate(x / d, 0.0, 1.0)
  }

  /** Element i, or zero where the sequence is too short. */
  function At(s: seq<real>, i: int): real {
    if 0 <= i < |s| then s[i] else 0.0
  }

  function Zeros(n: nat): (s: seq<real>)
    ensures |s| == n && forall i :: 0 <= i < n ==> s[i] == 0.0
  {
    seq(n, _ => 0.0)
  }

  function Min(x: int, y: int): int { if x < y then x else y }

  datatype Vec3 = Vec3(x: real, y: real, z: real)

  const ZERO3: Vec3 := Vec3(0.0, 0.0, 0.0)

  function Scale3(k: real, v: Vec3): Vec3 { Vec3(k * v.x, k * v.y, k * v.z) }

  /** start + r*(goal - start), per axis. */
  function Mix(start: real, goal: real, r: real): real { start + r * (goal - start) }

  function Mix3(start: Vec3, goal: Vec3, r: real): Vec3 {
    Vec3(Mix(start.x, goal.x, r), Mix(start.y, goal.y, r), Mix(start.z, goal.z, r))
  }

  /** At r = 1 a mix is its goal, and a mix of a value with itself is that value. */
  lemma MixEnds(start: real, goal: real)
    ensures Mix(start, goal, 1.0) == goal
    ensures Mix(start, goal, 0.0) == start
  {
  }
}
