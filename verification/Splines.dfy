/** The spline polynomials of egm_interpolator.cpp: coefficient fitting and evaluation. */
module Splines {
  import opened Numeric

  datatype SplineMethod = Linear | Square | Cubic | Quintic

  function Pow(x: real, n: nat): real { if n == 0 then 1.0 else x * Pow(x, n - 1) }

  /** Boundary conditions of one axis: start (alfa) and goal (beta) position, velocity, acceleration. */
  datatype Boundary = Boundary(alfa: real, dAlfa: real, ddAlfa: real, beta: real, dBeta: real, ddBeta: real)

  /** S(t) = a + b t + c t^2 + d t^3 + e t^4 + f t^5. */
  datatype Polynomial = Polynomial(a: real, b: real, c: real, d: real, e: real, f: real) {

    function Position(t: real): real {
      a + b*t + c*Pow(t, 2) + d*Pow(t, 3) + e*Pow(t, 4) + f*Pow(t, 5)
    }

    function Velocity(t: real): real {
      b + 2.0*c*t + 3.0*d*Pow(t, 2) + 4.0*e*Pow(t, 3) + 5.0*f*Pow(t, 4)
    }

    function Acceleration(t: real): real {
      2.0*c + 6.0*d*t + 12.0*e*Pow(t, 2) + 20.0*f*Pow(t, 3)
    }
  }

  const FLAT: Polynomial := Polynomial(0.0, 0.0, 0.0, 0.0, 0.0, 0.0)

  /** Ramp from the start velocity to `factor` times that velocity in time T. */
  function RampDownFit(s: Boundary, T: real, factor: real): Polynomial
    requires T > 0.0
  {
    var K := Saturate(factor, 0.0, 1.0);
    var c := ((K - 1.0) * s.dAlfa) / T;
    Polynomial(s.alfa, s.dAlfa, c, (-c) / (3.0 * T), 0.0, 0.0)
  }

  function Gap(s: Boundary, T: real): real { s.beta - s.alfa - s.dAlfa*T }

  function VelocityGap(s: Boundary): real { s.dBeta - s.dAlfa }

  function CurvedGap(s: Boundary, T: real): real { s.beta - s.alfa - s.dAlfa*T - (s.ddAlfa / 2.0)*Pow(T, 2) }

  function CurvedVelocityGap(s: Boundary, T: real): real { s.dBeta - s.dAlfa - s.ddAlfa*T }

  function AccelerationGap(s: Boundary): real { s.ddBeta - s.ddAlfa }

  /** The coefficient formulas, over the residuals c1 (position), c2 (velocity), c3 (acceleration)
      that the lower-order terms leave at time T. */
  function CubicC(c1: real, c2: real, T: real): real
    requires T > 0.0
  {
    Positive(T, 2); 3.0*c1 / Pow(T, 2) - c2 / T
  }

  function CubicD(c1: real, c: real, T: real): real
    requires T > 0.0
  {
    Positive(T, 3); c1 / Pow(T, 3) - c / T
  }

  function QuinticD(c1: real, c2: real, c3: real, T: real): real
    requires T > 0.0
  {
    Positive(T, 2); Positive(T, 3);
    10.0*c1 / Pow(T, 3) - 4.0*c2 / Pow(T, 2) + c3 / (2.0*T)
  }

  function QuinticE(c1: real, c2: real, d: real, T: real): real
    requires T > 0.0
  {
    Positive(T, 3); Positive(T, 4);
    5.0*c1 / Pow(T, 4) - c2 / Pow(T, 3) - 2.0*d / T
  }

  function QuinticF(c1: real, d: real, e: real, T: real): real
    requires T > 0.0
  {
    Positive(T, 2); Positive(T, 5);
    c1 / Pow(T, 5) - d / Pow(T, 2) - e / T
  }

  function Fit(kind: SplineMethod, s: Boundary, T: real): Polynomial
    requires T > 0.0
  {
    match kind
    case Linear =>
      Polynomial(s.alfa, (s.beta - s.alfa) / T, 0.0, 0.0, 0.0, 0.0)
    case Square =>
      Positive(T, 2);
      Polynomial(s.alfa, s.dAlfa, Gap(s, T) / Pow(T, 2), 0.0, 0.0, 0.0)
    case Cubic =>
      var c := CubicC(Gap(s, T), VelocityGap(s), T);
      Polynomial(s.alfa, s.dAlfa, c, CubicD(Gap(s, T), c, T), 0.0, 0.0)
    case Quintic =>
      var d := QuinticD(CurvedGap(s, T), CurvedVelocityGap(s, T), AccelerationGap(s), T);
      var e := QuinticE(CurvedGap(s, T), CurvedVelocityGap(s, T), d, T);
      Polynomial(s.alfa, s.dAlfa, s.ddAlfa / 2.0, d, e, QuinticF(CurvedGap(s, T), d, e, T))
  }

  // ---------------------------------------------------------------- Real arithmetic

  lemma {:induction false} Positive(x: real, n: nat)
    requires x > 0.0
    ensures Pow(x, n) > 0.0
  {
    if n > 0 { Positive(x, n - 1); }
  }

  lemma LowPowers(T: real)
    ensures Pow(T, 1) == T && Pow(T, 2) == T * T
    ensures Pow(T, 3) == T * Pow(T, 2) && Pow(T, 4) == T * Pow(T, 3) && Pow(T, 5) == T * Pow(T, 4)
  {
    assert Pow(T, 0) == 1.0;
  }

  lemma Quotient(x: real, y: real)
    requires y > 0.0
    ensures (x / y) * y == x
  {
  }

  lemma SameQuotient(x: real, c: real, y: real)
    requires y > 0.0 && x * y == c
    ensures x == c / y
  {
  }

  // ---------------------------------------------------------------- At the start

  /** Every fit starts at the start position; all but Linear at the start velocity; Quintic at the
      start acceleration. */
  lemma FitStart(kind: SplineMethod, s: Boundary, T: real)
    requires T > 0.0
    ensures Fit(kind, s, T).Position(0.0) == s.alfa
    ensures !kind.Linear? ==> Fit(kind, s, T).Velocity(0.0) == s.dAlfa
    ensures kind.Quintic? ==> Fit(kind, s, T).Acceleration(0.0) == s.ddAlfa
  {
    hide CubicC, CubicD, QuinticD, QuinticE, QuinticF;
    AtZero(Fit(kind, s, T));
  }

  lemma RampDownStart(s: Boundary, T: real, factor: real)
    requires T > 0.0
    ensures RampDownFit(s, T, factor).Position(0.0) == s.alfa
    ensures RampDownFit(s, T, factor).Velocity(0.0) == s.dAlfa
  {
    AtZero(RampDownFit(s, T, factor));
  }

  lemma AtZero(p: Polynomial)
    ensures p.Position(0.0) == p.a && p.Velocity(0.0) == p.b && p.Acceleration(0.0) == 2.0 * p.c
  {
    LowPowers(0.0);
  }

  // ---------------------------------------------------------------- At the end

  /** Every fit ends at the goal position; Cubic also at the goal velocity; Quintic at the goal
      velocity and acceleration. */
  lemma FitEnd(kind: SplineMethod, s: Boundary, T: real)
    requires T > 0.0
    ensures Fit(kind, s, T).Position(T) == s.beta
    ensures kind.Cubic? || kind.Quintic? ==> Fit(kind, s, T).Velocity(T) == s.dBeta
    ensures kind.Quintic? ==> Fit(kind, s, T).Acceleration(T) == s.ddBeta
  {
    hide CubicC, CubicD, QuinticD, QuinticE, QuinticF;
    match kind
    case Linear =>
      Quotient(s.beta - s.alfa, T);
    case Square =>
      Positive(T, 2);
      Quotient(Gap(s, T), Pow(T, 2));
    case Cubic =>
      CubicEnd(s, T);
    case Quintic =>
      QuinticEnd(s, T);
  }

  lemma CubicEnd(s: Boundary, T: real)
    requires T > 0.0
    ensures Fit(Cubic, s, T).Position(T) == s.beta
    ensures Fit(Cubic, s, T).Velocity(T) == s.dBeta
  {
    hide Pow, CubicC, CubicD;
    var p := Fit(Cubic, s, T);
    CubicResiduals(Gap(s, T), VelocityGap(s), T, p.c, p.d);
    ZeroTimes(p.e, Pow(T, 4));
    ZeroTimes(p.f, Pow(T, 5));
    ZeroTimes(4.0*p.e, Pow(T, 3));
    ZeroTimes(5.0*p.f, Pow(T, 4));
  }

  lemma ZeroTimes(x: real, y: real)
    requires x == 0.0
    ensures x * y == 0.0
  {
  }

  lemma QuinticEnd(s: Boundary, T: real)
    requires T > 0.0
    ensures Fit(Quintic, s, T).Position(T) == s.beta
    ensures Fit(Quintic, s, T).Velocity(T) == s.dBeta
    ensures Fit(Quintic, s, T).Acceleration(T) == s.ddBeta
  {
    hide Pow, QuinticD, QuinticE, QuinticF;
    var p := Fit(Quintic, s, T);
    QuinticResiduals(CurvedGap(s, T), CurvedVelocityGap(s, T), AccelerationGap(s), T, p.d, p.e, p.f);
    HalfTerm(p.c, s.ddAlfa, T, Pow(T, 2));
  }

  lemma HalfTerm(c: real, dd: real, T: real, t2: real)
    requires c == dd / 2.0
    ensures c * t2 == (dd / 2.0) * t2 && 2.0*c*T == dd * T
  {
  }

  /** The two free cubic coefficients close exactly the residuals c1 and c2. With x = c1/T^3 and
      y = c2/T^2 they are c = (3x - y) T and d = y - 2x. */
  lemma CubicResiduals(c1: real, c2: real, T: real, c: real, d: real)
    requires T > 0.0
    requires c == CubicC(c1, c2, T) && d == CubicD(c1, c, T)
    ensures c*Pow(T, 2) + d*Pow(T, 3) == c1
    ensures 2.0*c*T + 3.0*d*Pow(T, 2) == c2
  {
    LowPowers(T);
    Positive(T, 2);
    Positive(T, 3);
    var x, y := c1 / Pow(T, 3), c2 / Pow(T, 2);
    Quotient(c1, Pow(T, 3));
    Quotient(c2, Pow(T, 2));
    CubicSolved(c1, c2, T, Pow(T, 2), Pow(T, 3), x, y);
    CubicAlgebra(x, y, T, Pow(T, 2), Pow(T, 3), c, d);
  }

  lemma CubicSolved(c1: real, c2: real, T: real, t2: real, t3: real, x: real, y: real)
    requires T > 0.0 && t2 == Pow(T, 2) && t3 == Pow(T, 3) && t2 > 0.0 && t3 > 0.0
    requires t2 == T*T && t3 == T*t2 && c1 == x*t3 && c2 == y*t2
    ensures CubicC(c1, c2, T) == (3.0*x - y) * T
    ensures CubicD(c1, (3.0*x - y) * T, T) == x - (3.0*x - y)
  {
    SameQuotient(3.0*x*T, 3.0*c1, t2);
    SameQuotient(y*T, c2, T);
    SameQuotient(x, c1, t3);
    SameQuotient(3.0*x - y, (3.0*x - y) * T, T);
  }

  lemma CubicAlgebra(x: real, y: real, T: real, t2: real, t3: real, c: real, d: real)
    requires t2 == T*T && t3 == T*t2 && c == (3.0*x - y) * T && d == x - (3.0*x - y)
    ensures c*t2 + d*t3 == x*t3
    ensures 2.0*c*T + 3.0*d*t2 == y*t2
  {
    assert c*t2 == (3.0*x - y)*(T*t2);
    assert d*t3 == (y - 2.0*x)*t3;
    assert c*T == (3.0*x - y)*(T*T);
    assert d*t2 == (y - 2.0*x)*t2;
  }

  /** The three free quintic coefficients close exactly the residuals c1, c2 and c3. With
      x = c1/T^5, y = c2/T^4 and z = c3/T^3 they are D T^2, E T and x - D - E where
      D = 10x - 4y + z/2 and E = 5x - y - 2D. */
  lemma QuinticResiduals(c1: real, c2: real, c3: real, T: real, d: real, e: real, f: real)
    requires T > 0.0
    requires d == QuinticD(c1, c2, c3, T) && e == QuinticE(c1, c2, d, T) && f == QuinticF(c1, d, e, T)
    ensures d*Pow(T, 3) + e*Pow(T, 4) + f*Pow(T, 5) == c1
    ensures 3.0*d*Pow(T, 2) + 4.0*e*Pow(T, 3) + 5.0*f*Pow(T, 4) == c2
    ensures 6.0*d*T + 12.0*e*Pow(T, 2) + 20.0*f*Pow(T, 3) == c3
  {
    hide QuinticD, QuinticE, QuinticF, Pow;
    Positive(T, 3);
    Positive(T, 4);
    Positive(T, 5);
    Quotient(c1, Pow(T, 5));
    Quotient(c2, Pow(T, 4));
    Quotient(c3, Pow(T, 3));
    QuinticClosed(c1, c2, c3, T, c1 / Pow(T, 5), c2 / Pow(T, 4), c3 / Pow(T, 3), d, e, f);
  }

  lemma QuinticClosed(c1: real, c2: real, c3: real, T: real, x: real, y: real, z: real, d: real, e: real, f: real)
    requires T > 0.0 && c1 == x*Pow(T, 5) && c2 == y*Pow(T, 4) && c3 == z*Pow(T, 3)
    requires d == QuinticD(c1, c2, c3, T) && e == QuinticE(c1, c2, d, T) && f == QuinticF(c1, d, e, T)
    ensures d*Pow(T, 3) + e*Pow(T, 4) + f*Pow(T, 5) == c1
    ensures 3.0*d*Pow(T, 2) + 4.0*e*Pow(T, 3) + 5.0*f*Pow(T, 4) == c2
    ensures 6.0*d*T + 12.0*e*Pow(T, 2) + 20.0*f*Pow(T, 3) == c3
  {
    hide QuinticD, QuinticE, QuinticF, Pow;
    var D := 10.0*x - 4.0*y + z / 2.0;
    var E := 5.0*x - y - 2.0*D;
    QuinticSolved(c1, c2, c3, T, x, y, z, D, E, d, e, f);
    Powers(T);
    QuinticAlgebra(x, y, z, D, E, T, Pow(T, 2), Pow(T, 3), Pow(T, 4), Pow(T, 5), d, e, f);
  }

  lemma Powers(T: real)
    requires T > 0.0
    ensures Pow(T, 2) > 0.0 && Pow(T, 3) > 0.0 && Pow(T, 4) > 0.0 && Pow(T, 5) > 0.0
    ensures Pow(T, 2) == T*T && Pow(T, 3) == T*Pow(T, 2) && Pow(T, 4) == T*Pow(T, 3) && Pow(T, 5) == T*Pow(T, 4)
    ensures Pow(T, 5) == Pow(T, 2)*Pow(T, 3) && Pow(T, 4) == Pow(T, 2)*Pow(T, 2)
  {
    hide Pow;
    LowPowers(T);
    Positive(T, 2);
    Positive(T, 3);
    Positive(T, 4);
    Positive(T, 5);
    MorePowers(T, Pow(T, 2), Pow(T, 3), Pow(T, 4), Pow(T, 5));
  }

  /** The coefficients, over the scaled residuals. */
  lemma QuinticSolved(c1: real, c2: real, c3: real, T: real, x: real, y: real, z: real, D: real, E: real,
                      d: real, e: real, f: real)
    requires T > 0.0 && c1 == x*Pow(T, 5) && c2 == y*Pow(T, 4) && c3 == z*Pow(T, 3)
    requires D == 10.0*x - 4.0*y + z / 2.0 && E == 5.0*x - y - 2.0*D
    requires d == QuinticD(c1, c2, c3, T) && e == QuinticE(c1, c2, d, T) && f == QuinticF(c1, d, e, T)
    ensures d == D*Pow(T, 2) && e == E*T && f == x - D - E
  {
    hide QuinticD, QuinticE, QuinticF, Pow;
    Powers(T);
    var t2, t3, t4, t5 := Pow(T, 2), Pow(T, 3), Pow(T, 4), Pow(T, 5);
    SolveD(c1, c2, c3, T, t2, t3, t4, t5, x, y, z, D);
    SolveE(c1, c2, T, t2, t3, t4, t5, x, y, D, E, d);
    SolveF(c1, T, t2, t5, x, D, E, d, e);
  }

  lemma MorePowers(T: real, t2: real, t3: real, t4: real, t5: real)
    requires t2 == T*T && t3 == T*t2 && t4 == T*t3 && t5 == T*t4
    ensures t5 == t2*t3 && t4 == t2*t2
  {
    assert T*t3 == (T*T)*t2;
    assert T*t4 == T*(t2*t2);
    assert T*(t2*t2) == (T*t2)*t2;
  }

  lemma SolveD(c1: real, c2: real, c3: real, T: real, t2: real, t3: real, t4: real, t5: real,
               x: real, y: real, z: real, D: real)
    requires T > 0.0 && t2 == Pow(T, 2) && t3 == Pow(T, 3) && t2 > 0.0 && t3 > 0.0
    requires t3 == T*t2 && t5 == t2*t3 && t4 == t2*t2
    requires c1 == x*t5 && c2 == y*t4 && c3 == z*t3
    requires D == 10.0*x - 4.0*y + z / 2.0
    ensures QuinticD(c1, c2, c3, T) == D*t2
  {
    assert (10.0*x*t2)*t3 == 10.0*(x*(t2*t3));
    SameQuotient(10.0*x*t2, 10.0*c1, t3);
    assert (4.0*y*t2)*t2 == 4.0*(y*(t2*t2));
    SameQuotient(4.0*y*t2, 4.0*c2, t2);
    assert (z / 2.0 * t2)*(2.0*T) == z*(T*t2);
    SameQuotient(z / 2.0 * t2, c3, 2.0*T);
  }

  lemma SolveE(c1: real, c2: real, T: real, t2: real, t3: real, t4: real, t5: real,
               x: real, y: real, D: real, E: real, d: real)
    requires T > 0.0 && t3 == Pow(T, 3) && t4 == Pow(T, 4) && t3 > 0.0 && t4 > 0.0
    requires t2 == T*T && t4 == T*t3 && t5 == T*t4
    requires c1 == x*t5 && c2 == y*t4
    requires E == 5.0*x - y - 2.0*D && d == D*t2
    ensures QuinticE(c1, c2, d, T) == E*T
  {
    assert (5.0*x*T)*t4 == 5.0*(x*(T*t4));
    SameQuotient(5.0*x*T, 5.0*c1, t4);
    assert (y*T)*t3 == y*(T*t3);
    SameQuotient(y*T, c2, t3);
    assert (2.0*D*T)*T == 2.0*(D*(T*T));
    SameQuotient(2.0*D*T, 2.0*(D*t2), T);
  }

  lemma SolveF(c1: real, T: real, t2: real, t5: real, x: real, D: real, E: real, d: real, e: real)
    requires T > 0.0 && t2 == Pow(T, 2) && t5 == Pow(T, 5) && t2 > 0.0 && t5 > 0.0
    requires c1 == x*t5 && d == D*t2 && e == E*T
    ensures QuinticF(c1, d, e, T) == x - D - E
  {
    SameQuotient(x, c1, t5);
    SameQuotient(D, D*t2, t2);
    SameQuotient(E, E*T, T);
  }

  lemma QuinticAlgebra(x: real, y: real, z: real, D: real, E: real, T: real, t2: real, t3: real, t4: real, t5: real,
                       d: real, e: real, f: real)
    requires t2 == T*T && t3 == T*t2 && t4 == T*t3 && t5 == T*t4 && t5 == t2*t3 && t4 == t2*t2
    requires D == 10.0*x - 4.0*y + z / 2.0 && E == 5.0*x - y - 2.0*D
    requires d == D*t2 && e == E*T && f == x - D - E
    ensures d*t3 + e*t4 + f*t5 == x*t5
    ensures 3.0*d*t2 + 4.0*e*t3 + 5.0*f*t4 == y*t4
    ensures 6.0*d*T + 12.0*e*t2 + 20.0*f*t3 == z*t3
  {
    assert d*t3 == D*(t2*t3);
    assert e*t4 == E*(T*t4);
    assert d*t2 == D*(t2*t2);
    assert e*t3 == E*(T*t3);
    assert d*T == D*(T*t2);
    assert e*t2 == E*(T*t2);
    assert f*t5 == (x - D - E)*t5;
    assert f*t4 == (x - D - E)*t4;
    assert f*t3 == (x - D - E)*t3;
  }

  // ---------------------------------------------------------------- Ramp down

  /** The share of the start velocity left after a fraction x of the ramp. */
  function Share(K: real, x: real): real { 1.0 - (1.0 - K) * (2.0*x - x*x) }

  /** At t = x T a ramp down has velocity v0 (1 - (1 - K)(2x - x^2)), and its acceleration is
      -2 v0 (1 - K)(1 - x) / T. */
  lemma RampDownLaw(s: Boundary, T: real, factor: real, x: real, t: real)
    requires T > 0.0 && t == x * T
    ensures var K := Saturate(factor, 0.0, 1.0);
            var p := RampDownFit(s, T, factor);
            && p.Velocity(t) == s.dAlfa * Share(K, x)
            && p.Acceleration(t) * T == s.dAlfa * (-2.0 * (1.0 - K) * (1.0 - x))
  {
    var K := Saturate(factor, 0.0, 1.0);
    var p := RampDownFit(s, T, factor);
    var u := (K - 1.0) * s.dAlfa;
    Quotient(u, T);
    RampD(p.c, T, u);
    LowPowers(t);
    RampAlgebra(s.dAlfa, K, T, x, p.c, p.d, t, Pow(t, 2));
    ZeroTimes(4.0*p.e, Pow(t, 3));
    ZeroTimes(5.0*p.f, Pow(t, 4));
    ZeroTimes(12.0*p.e, Pow(t, 2));
    ZeroTimes(20.0*p.f, Pow(t, 3));
    hide Pow, Share, RampDownFit;
    assert p.Acceleration(t) == 2.0*p.c + 6.0*p.d*t;
  }

  lemma RampD(c: real, T: real, u: real)
    requires T > 0.0 && c * T == u
    ensures 3.0 * ((-c) / (3.0 * T)) * (T*T) == -u
  {
    Quotient(-c, 3.0 * T);
    var d := (-c) / (3.0 * T);
    assert 3.0 * d * (T*T) == (d * (3.0 * T)) * T;
  }

  lemma RampAlgebra(v: real, K: real, T: real, x: real, c: real, d: real, t: real, t2: real)
    requires c * T == (K - 1.0) * v && 3.0 * d * (T*T) == -((K - 1.0) * v)
    requires t == x * T && t2 == t * t
    ensures v + 2.0*c*t + 3.0*d*t2 == v * Share(K, x)
    ensures (2.0*c + 6.0*d*t) * T == v * (-2.0 * (1.0 - K) * (1.0 - x))
  {
    assert 2.0*c*t == 2.0*x*(c*T);
    assert t2 == (x*T)*(x*T);
    assert 3.0*d*t2 == 3.0*d*((x*T)*(x*T));
    assert 3.0*d*t2 == (x*x)*(3.0*d*(T*T));
    assert 6.0*d*t*T == 2.0*x*(3.0*d*(T*T));
  }

  /** Between its start and its end a ramp down never speeds up, never reverses and never leaves
      the band between the start velocity and K times it. */
  lemma RampDownEnvelope(s: Boundary, T: real, factor: real, t1: real, t2: real)
    requires T > 0.0 && 0.0 <= t1 <= t2 <= T
    ensures var K := Saturate(factor, 0.0, 1.0);
            var p := RampDownFit(s, T, factor);
            && (s.dAlfa >= 0.0 ==> 0.0 <= K * s.dAlfa <= p.Velocity(t2) <= p.Velocity(t1) <= s.dAlfa)
            && (s.dAlfa <= 0.0 ==> 0.0 >= K * s.dAlfa >= p.Velocity(t2) >= p.Velocity(t1) >= s.dAlfa)
  {
    var K := Saturate(factor, 0.0, 1.0);
    hide Pow, RampDownFit, Share, Polynomial.Velocity;
    RampDownAt(s, T, factor, t1);
    RampDownAt(s, T, factor, t2);
    Fractions(t1, t2, T);
    ShareFalls(K, t1 / T, t2 / T);
    Ordered(s.dAlfa, K, Share(K, t2 / T), Share(K, t1 / T));
  }

  lemma RampDownAt(s: Boundary, T: real, factor: real, t: real)
    requires T > 0.0
    ensures RampDownFit(s, T, factor).Velocity(t) == s.dAlfa * Share(Saturate(factor, 0.0, 1.0), t / T)
  {
    Quotient(t, T);
    RampDownLaw(s, T, factor, t / T, t);
  }

  lemma Fractions(t1: real, t2: real, T: real)
    requires T > 0.0 && 0.0 <= t1 <= t2 <= T
    ensures 0.0 <= t1 / T <= t2 / T <= 1.0
  {
  }

  lemma ShareFalls(K: real, x: real, y: real)
    requires 0.0 <= K <= 1.0 && 0.0 <= x <= y <= 1.0
    ensures K <= Share(K, y) <= Share(K, x) <= 1.0
  {
    NonNegative(y - x, 2.0 - x - y);
    NonNegative(1.0 - y, 1.0 - y);
    NonNegative(x, 2.0 - x);
    NonNegative(1.0 - K, (y - x) * (2.0 - x - y));
    NonNegative(1.0 - K, (1.0 - y) * (1.0 - y));
    NonNegative(1.0 - K, x * (2.0 - x));
  }

  lemma NonNegative(x: real, y: real)
    requires x >= 0.0 && y >= 0.0
    ensures x * y >= 0.0
  {
  }

  lemma Ordered(v: real, a: real, b: real, c: real)
    requires 0.0 <= a <= b <= c <= 1.0
    ensures v >= 0.0 ==> 0.0 <= a * v <= v * b <= v * c <= v
    ensures v <= 0.0 ==> 0.0 >= a * v >= v * b >= v * c >= v
  {
    var w := Abs(v);
    NonNegative(w, a);
    NonNegative(w, b - a);
    NonNegative(w, c - b);
    NonNegative(w, 1.0 - c);
  }

  /** A ramp down ends with K times the start velocity and no acceleration. */
  lemma RampDownEnd(s: Boundary, T: real, factor: real)
    requires T > 0.0
    ensures var p := RampDownFit(s, T, factor);
            && p.Velocity(T) == Saturate(factor, 0.0, 1.0) * s.dAlfa
            && p.Acceleration(T) == 0.0
  {
    RampDownLaw(s, T, factor, 1.0, T);
    hide RampDownFit;
    var p := RampDownFit(s, T, factor);
    NoFactor(p.Acceleration(T), T);
  }

  lemma NoFactor(a: real, T: real)
    requires T > 0.0 && a * T == 0.0
    ensures a == 0.0
  {
  }
}
