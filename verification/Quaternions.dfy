/** The quaternion arithmetic of egm_common_auxiliary.cpp. */
module Quaternions {
  import opened Numeric

  datatype Quaternion = Quaternion(u0: real, u1: real, u2: real, u3: real)

  /** Library functions and angle conversions are left arbitrary: every theorem that does not
      constrain them holds whatever they compute. `slerp(start, goal, duration, t)` gives the
      interpolated orientation and its angular velocity. */
  datatype Maths = Maths(
    pi: real,
    degToRad: real,
    radToDeg: real,
    cos: real -> real,
    sin: real -> real,
    sqrt: real -> real,
    toQuaternion: Vec3 -> Quaternion,
    toEuler: Quaternion -> Vec3,
    slerp: (Quaternion, Quaternion, real, real) -> (Quaternion, Vec3)
  ) {
    /** The factor that goes from 0 to 1. */
    function RampUp(x: real): real { 0.5 * cos(pi * x + pi) + 0.5 }

    /** The factor that goes from 1 to 0. */
    function RampOut(x: real): real { 0.5 * cos(pi * x) + 0.5 }

    /** Derivative of RampUp(t / duration) with respect to t, at x = t / duration. */
    function RampUpRate(x: real, duration: real): real {
      if duration == 0.0 then 0.0 else (-0.5 * pi / duration) * sin(pi * x + pi)
    }

    /** What the ramp factors need from the cosine: its values at pi and at two pi. */
    ghost predicate RampEndpoints() {
      cos(pi * 1.0) == -1.0 && cos(pi * 1.0 + pi) == 1.0
    }
  }

  function Multiply(p: Quaternion, q: Quaternion): Quaternion {
    Quaternion(
      p.u0 * q.u0 - p.u1 * q.u1 - p.u2 * q.u2 - p.u3 * q.u3,
      p.u0 * q.u1 + p.u1 * q.u0 + p.u2 * q.u3 - p.u3 * q.u2,
      p.u0 * q.u2 + p.u2 * q.u0 + p.u3 * q.u1 - p.u1 * q.u3,
      p.u0 * q.u3 + p.u3 * q.u0 + p.u1 * q.u2 - p.u2 * q.u1)
  }

  function Dot(p: Quaternion, q: Quaternion): real {
    p.u0 * q.u0 + p.u1 * q.u1 + p.u2 * q.u2 + p.u3 * q.u3
  }

  function Times(q: Quaternion, k: real): Quaternion {
    Quaternion(q.u0 * k, q.u1 * k, q.u2 * k, q.u3 * k)
  }

  function Plus(p: Quaternion, q: Quaternion): Quaternion {
    Quaternion(p.u0 + q.u0, p.u1 + q.u1, p.u2 + q.u2, p.u3 + q.u3)
  }

  function Minus(p: Quaternion, q: Quaternion): Quaternion {
    Quaternion(p.u0 - q.u0, p.u1 - q.u1, p.u2 - q.u2, p.u3 - q.u3)
  }

  function Conjugate(q: Quaternion): Quaternion { Quaternion(q.u0, -q.u1, -q.u2, -q.u3) }

  function MixQ(start: Quaternion, goal: Quaternion, r: real): Quaternion {
    Plus(start, Times(Minus(goal, start), r))
  }

  function Normalize(k: Maths, q: Quaternion): Quaternion {
    var norm := k.sqrt(Dot(q, q));
    if norm != 0.0 then Quaternion(q.u0 / norm, q.u1 / norm, q.u2 / norm, q.u3 / norm) else q
  }

  /** The quaternion derivative for an angular velocity [degrees/s]. */
  function Derivative(k: Maths, previous: Quaternion, av: Vec3): Quaternion {
    var w := Scale3(k.degToRad, av);
    Times(Multiply(Quaternion(0.0, w.x, w.y, w.z), previous), 0.5)
  }

  /** One integration step of an orientation, before normalisation. */
  function Advance(k: Maths, q: Quaternion, previous: Quaternion, av: Vec3, dt: real): Quaternion {
    Plus(q, Times(Derivative(k, previous, av), dt))
  }

  /** The angular velocity [degrees/s] estimated from two orientations, as the vector part of
      (2 (q2 - q1) / dt) * conj(q1). */
  function EstimateAngular(k: Maths, current: Quaternion, previous: Quaternion, dt: real): Vec3
    requires dt > 0.0
  {
    var e := Multiply(Times(Minus(current, previous), 2.0 / dt), Conjugate(previous));
    Vec3(e.u1 * k.radToDeg, e.u2 * k.radToDeg, e.u3 * k.radToDeg)
  }

  // ---------------------------------------------------------------- Properties

  /** Euler's four-square identity: norms multiply. */
  lemma NormIsMultiplicative(p: Quaternion, q: Quaternion)
    ensures Dot(Multiply(p, q), Multiply(p, q)) == Dot(p, p) * Dot(q, q)
  {
    hide Dot;
    NormOfProduct(p, q, Multiply(p, q));
  }

  lemma NormOfProduct(p: Quaternion, q: Quaternion, r: Quaternion)
    requires r.u0 == p.u0 * q.u0 - p.u1 * q.u1 - p.u2 * q.u2 - p.u3 * q.u3
    requires r.u1 == p.u0 * q.u1 + p.u1 * q.u0 + p.u2 * q.u3 - p.u3 * q.u2
    requires r.u2 == p.u0 * q.u2 + p.u2 * q.u0 + p.u3 * q.u1 - p.u1 * q.u3
    requires r.u3 == p.u0 * q.u3 + p.u3 * q.u0 + p.u1 * q.u2 - p.u2 * q.u1
    ensures Dot(r, r) == Dot(p, p) * Dot(q, q)
  {
    FourSquares(p.u0, p.u1, p.u2, p.u3, q.u0, q.u1, q.u2, q.u3, r.u0, r.u1, r.u2, r.u3, Dot(p, p), Dot(q, q));
  }

  lemma FourSquares(a: real, b: real, c: real, d: real, e: real, f: real, g: real, h: real,
                    w: real, x: real, y: real, z: real, m: real, n: real)
    requires m == a*a + b*b + c*c + d*d && n == e*e + f*f + g*g + h*h
    requires w == a*e - b*f - c*g - d*h
    requires x == a*f + b*e + c*h - d*g
    requires y == a*g + c*e + d*f - b*h
    requires z == a*h + d*e + b*g - c*f
    ensures w*w + x*x + y*y + z*z == m * n
  {
    assert w*w == (a*e - b*f - c*g - d*h) * (a*e - b*f - c*g - d*h);
    assert x*x == (a*f + b*e + c*h - d*g) * (a*f + b*e + c*h - d*g);
    assert y*y == (a*g + c*e + d*f - b*h) * (a*g + c*e + d*f - b*h);
    assert z*z == (a*h + d*e + b*g - c*f) * (a*h + d*e + b*g - c*f);
    Products(m, n, a*a + b*b + c*c + d*d, e*e + f*f + g*g + h*h);
  }

  lemma Products(m: real, n: real, p: real, q: real)
    requires m == p && n == q
    ensures m * n == p * q
  {
  }

  /** The derivative is orthogonal to the orientation it was taken at. */
  lemma DerivativeIsOrthogonal(k: Maths, q: Quaternion, av: Vec3)
    ensures Dot(q, Derivative(k, q, av)) == 0.0
  {
    var w := Scale3(k.degToRad, av);
    Orthogonal(q.u0, q.u1, q.u2, q.u3, w.x, w.y, w.z);
  }

  lemma Orthogonal(a: real, b: real, c: real, d: real, x: real, y: real, z: real)
    ensures a * ((0.0*a - x*b - y*c - z*d) * 0.5) + b * ((0.0*b + x*a + y*d - z*c) * 0.5)
          + c * ((0.0*c + y*a + z*b - x*d) * 0.5) + d * ((0.0*d + z*a + x*c - y*b) * 0.5) == 0.0
  {
  }

  /** An integration step at the current orientation grows the squared norm by exactly the squared
      length of the step, so it never shrinks the norm and normalisation never divides by zero
      for a non-zero orientation. */
  lemma AdvanceNeverShrinks(k: Maths, q: Quaternion, av: Vec3, dt: real)
    ensures var d := Derivative(k, q, av);
            var r := Advance(k, q, q, av, dt);
            && Dot(r, r) == Dot(q, q) + dt * dt * Dot(d, d)
            && Dot(r, r) >= Dot(q, q)
  {
    var d := Derivative(k, q, av);
    DerivativeIsOrthogonal(k, q, av);
    StepNorm(q, d, dt);
    SumOfSquares(d);
    assert dt * dt >= 0.0;
    assert dt * dt * Dot(d, d) >= 0.0;
  }

  lemma SumOfSquares(d: Quaternion)
    ensures Dot(d, d) >= 0.0
  {
  }

  lemma StepNorm(q: Quaternion, d: Quaternion, dt: real)
    requires Dot(q, d) == 0.0
    ensures var r := Plus(q, Times(d, dt)); Dot(r, r) == Dot(q, q) + dt * dt * Dot(d, d)
  {
    SquareStep(q.u0, d.u0, dt);
    SquareStep(q.u1, d.u1, dt);
    SquareStep(q.u2, d.u2, dt);
    SquareStep(q.u3, d.u3, dt);
    assert 2.0 * dt * Dot(q, d) == 2.0*dt*(q.u0*d.u0) + 2.0*dt*(q.u1*d.u1) + 2.0*dt*(q.u2*d.u2) + 2.0*dt*(q.u3*d.u3);
    assert dt * dt * Dot(d, d) == dt*dt*(d.u0*d.u0) + dt*dt*(d.u1*d.u1) + dt*dt*(d.u2*d.u2) + dt*dt*(d.u3*d.u3);
  }

  lemma SquareStep(a: real, b: real, t: real)
    ensures (a + b * t) * (a + b * t) == a * a + 2.0 * t * (a * b) + t * t * (b * b)
  {
  }

  /** Estimation inverts integration: an un-normalised step of a unit orientation gives back the
      angular velocity it was made with. */
  lemma EstimateInvertsAdvance(k: Maths, q: Quaternion, av: Vec3, dt: real)
    requires dt > 0.0 && Dot(q, q) == 1.0 && k.degToRad * k.radToDeg == 1.0
    ensures EstimateAngular(k, Advance(k, q, q, av, dt), q, dt) == av
  {
    var w := Scale3(k.degToRad, av);
    var d := Derivative(k, q, av);
    var u := Times(Minus(Advance(k, q, q, av, dt), q), 2.0 / dt);
    UndoStep(q.u0, d.u0, dt);
    UndoStep(q.u1, d.u1, dt);
    UndoStep(q.u2, d.u2, dt);
    UndoStep(q.u3, d.u3, dt);
    assert u == Times(d, 2.0);
    TwiceHalf(Multiply(Quaternion(0.0, w.x, w.y, w.z), q));
    assert u == Multiply(Quaternion(0.0, w.x, w.y, w.z), q);
    RightConjugate(w, q, u);
    Degrees(k, av.x);
    Degrees(k, av.y);
    Degrees(k, av.z);
  }

  lemma UndoStep(a: real, b: real, dt: real)
    requires dt > 0.0
    ensures ((a + b * dt) - a) * (2.0 / dt) == b * 2.0
  {
    assert (b * dt) * (2.0 / dt) == b * 2.0 * (dt / dt);
  }

  lemma TwiceHalf(q: Quaternion)
    ensures Times(Times(q, 0.5), 2.0) == q
  {
  }

  lemma Degrees(k: Maths, x: real)
    requires k.degToRad * k.radToDeg == 1.0
    ensures (k.degToRad * x) * k.radToDeg == x
  {
    assert (k.degToRad * x) * k.radToDeg == (k.degToRad * k.radToDeg) * x;
  }

  /** (w * q) * conj(q) has vector part w * |q|^2. */
  lemma RightConjugate(w: Vec3, q: Quaternion, u: Quaternion)
    requires u == Multiply(Quaternion(0.0, w.x, w.y, w.z), q) && Dot(q, q) == 1.0
    ensures var e := Multiply(u, Conjugate(q)); e.u1 == w.x && e.u2 == w.y && e.u3 == w.z
  {
    hide Multiply, Dot, Conjugate;
    ConjugateX(w, q, u);
    ConjugateY(w, q, u);
    ConjugateZ(w, q, u);
  }

  /** The products, component by component. */
  lemma RotationParts(w: Vec3, q: Quaternion)
    ensures var u := Multiply(Quaternion(0.0, w.x, w.y, w.z), q);
            && u.u0 == 0.0*q.u0 - w.x*q.u1 - w.y*q.u2 - w.z*q.u3 && u.u1 == 0.0*q.u1 + w.x*q.u0 + w.y*q.u3 - w.z*q.u2
            && u.u2 == 0.0*q.u2 + w.y*q.u0 + w.z*q.u1 - w.x*q.u3 && u.u3 == 0.0*q.u3 + w.z*q.u0 + w.x*q.u2 - w.y*q.u1
    ensures Dot(q, q) == q.u0*q.u0 + q.u1*q.u1 + q.u2*q.u2 + q.u3*q.u3
  {
  }

  lemma ConjugateParts(u: Quaternion, q: Quaternion)
    ensures var e := Multiply(u, Conjugate(q));
            && e.u1 == u.u0 * (-q.u1) + u.u1 * q.u0 + u.u2 * (-q.u3) - u.u3 * (-q.u2)
            && e.u2 == u.u0 * (-q.u2) + u.u2 * q.u0 + u.u3 * (-q.u1) - u.u1 * (-q.u3)
            && e.u3 == u.u0 * (-q.u3) + u.u3 * q.u0 + u.u1 * (-q.u2) - u.u2 * (-q.u1)
  {
  }

  lemma ConjugateX(w: Vec3, q: Quaternion, u: Quaternion)
    requires u == Multiply(Quaternion(0.0, w.x, w.y, w.z), q) && Dot(q, q) == 1.0
    ensures Multiply(u, Conjugate(q)).u1 == w.x
  {
    hide Multiply, Dot;
    RotationParts(w, q);
    ConjugateParts(u, q);
    Axis(w.x, w.y, w.z, q.u0, q.u1, q.u2, q.u3, u.u0, u.u1, u.u2, u.u3);
  }

  lemma ConjugateY(w: Vec3, q: Quaternion, u: Quaternion)
    requires u == Multiply(Quaternion(0.0, w.x, w.y, w.z), q) && Dot(q, q) == 1.0
    ensures Multiply(u, Conjugate(q)).u2 == w.y
  {
    hide Multiply, Dot;
    RotationParts(w, q);
    ConjugateParts(u, q);
    Axis(w.y, w.z, w.x, q.u0, q.u2, q.u3, q.u1, u.u0, u.u2, u.u3, u.u1);
  }

  lemma ConjugateZ(w: Vec3, q: Quaternion, u: Quaternion)
    requires u == Multiply(Quaternion(0.0, w.x, w.y, w.z), q) && Dot(q, q) == 1.0
    ensures Multiply(u, Conjugate(q)).u3 == w.z
  {
    hide Multiply, Dot;
    RotationParts(w, q);
    ConjugateParts(u, q);
    Axis(w.z, w.x, w.y, q.u0, q.u3, q.u1, q.u2, u.u0, u.u3, u.u1, u.u2);
  }

  /** One vector component; the other two follow by rotating the arguments. */
  lemma Axis(x: real, y: real, z: real, a: real, b: real, c: real, d: real,
             s0: real, s1: real, s2: real, s3: real)
    requires a*a + b*b + c*c + d*d == 1.0
    requires s0 == 0.0*a - x*b - y*c - z*d && s1 == 0.0*b + x*a + y*d - z*c
    requires s2 == 0.0*c + y*a + z*b - x*d && s3 == 0.0*d + z*a + x*c - y*b
    ensures s0 * (-b) + s1 * a + s2 * (-d) - s3 * (-c) == x
  {
    Expand(x, y, z, a, b, c, d);
    Unit(x, a*a + b*b + c*c + d*d);
    Replace(s0, s1, s2, s3, 0.0 - x*b - y*c - z*d, x*a + y*d - z*c, y*a + z*b - x*d, z*a + x*c - y*b, -b, a, -d, -c);
  }

  lemma Replace(s0: real, s1: real, s2: real, s3: real, t0: real, t1: real, t2: real, t3: real,
                f: real, g: real, h: real, i: real)
    requires s0 == t0 && s1 == t1 && s2 == t2 && s3 == t3
    ensures s0 * f + s1 * g + s2 * h - s3 * i == t0 * f + t1 * g + t2 * h - t3 * i
  {
  }

  lemma Unit(x: real, n: real)
    requires n == 1.0
    ensures x * n == x
  {
  }

  lemma Expand(x: real, y: real, z: real, a: real, b: real, c: real, d: real)
    ensures (0.0 - x*b - y*c - z*d) * (-b) + (x*a + y*d - z*c) * a + (y*a + z*b - x*d) * (-d) - (z*a + x*c - y*b) * (-c)
         == x * (a*a + b*b + c*c + d*d)
  {
  }
}
