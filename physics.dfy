/**
 * The closed-form formulas behind the node and edge quantities: the energy
 * terms of a liquid, the pipe geometry and the friction-loss law (Reynolds
 * number, Haaland friction factor, Darcy-Weisbach in terms of volumetric
 * flow).  All arithmetic is over `real`, which has a single zero; a formula
 * yields `None` where its double evaluation, on a positive zero, leaves the
 * finite numbers (a division by zero, the logarithm of a negative number).
 */
module Physics {
  import opened Units

  /** 8/pi^2, as written in the Darcy-Weisbach loss of a pipe. */
  const LossCoefficient: real := 0.81056946914

  function Abs(x: real): (r: real) {
    if x < 0.0 then -x else x
  }

  function Square(x: real): (r: real) {
    x * x
  }

  function Pow5(x: real): (r: real) {
    x * x * x * x * x
  }

  /** n / d, named so that equal operands give provably equal quotients. */
  function Quotient(n: real, d: real): (q: real)
    requires d != 0.0
  {
    n / d
  }

  // ---------------------------------------------------------------------------
  // Energy terms of a liquid

  /** 1/2 rho |v| v: the kinetic energy per volume, signed by the flow direction. */
  function DynamicPressure(density: real, speed: real): (p: real)
    ensures speed >= 0.0 ==> p == 0.5 * density * Square(speed)
    ensures speed < 0.0 ==> p == -(0.5 * density * Square(speed))
  {
    0.5 * density * Abs(speed) * speed
  }

  /** g h rho: the hydrostatic pressure of a column of the given height. */
  function PotentialPressure(height: real, density: real): (p: real)
    ensures height == 0.0 || density == 0.0 ==> p == 0.0
    ensures height >= 0.0 && density >= 0.0 ==> p >= 0.0
  {
    G * height * density
  }

  /** Static + dynamic + potential pressure. */
  function BernoulliTotal(staticPressure: real, density: real, speed: real, height: real): (b: real)
    ensures speed == 0.0 && height == 0.0 ==> b == staticPressure
    ensures density >= 0.0 && speed >= 0.0 && height >= 0.0 ==> b >= staticPressure
  {
    var dynamic := DynamicPressure(density, speed);
    assert density >= 0.0 && speed >= 0.0 ==> dynamic >= 0.0 by {
      if density >= 0.0 && speed >= 0.0 {
        assert 0.5 * density >= 0.0;
        assert Square(speed) >= 0.0;
      }
    }
    staticPressure + dynamic + PotentialPressure(height, density)
  }

  lemma DynamicPressureIsOdd(density: real, speed: real)
    ensures DynamicPressure(density, -speed) == -DynamicPressure(density, speed)
    ensures DynamicPressure(density, 0.0) == 0.0
  {
  }

  /** With the liquid at rest, the Bernoulli total is static plus potential pressure. */
  lemma BernoulliAtRest(staticPressure: real, density: real, height: real)
    ensures BernoulliTotal(staticPressure, density, 0.0, height)
         == staticPressure + PotentialPressure(height, density)
    ensures BernoulliTotal(staticPressure, density, 0.0, 0.0) == staticPressure
  {
  }

  /** The figures the library's tests expect of standard water. */
  lemma WaterFigures()
    ensures DynamicPressure(1000.0, 1.0) == 500.0
    ensures PotentialPressure(10.0, 1000.0) == 98066.5
    ensures BernoulliTotal(100000.0, 1000.0, 0.0, 0.0) == 100000.0
    ensures BernoulliTotal(100000.0, 1000.0, 1.0, 0.0) == 100500.0
    ensures BernoulliTotal(100000.0, 1000.0, 1.0, 10.0) == 198566.5
  {
  }

  // ---------------------------------------------------------------------------
  // Pipe geometry

  /** pi/4 D^2: the area of a circular cross-section of diameter `d`. */
  function CircleArea(d: real): (a: real)
    ensures a >= 0.0
  {
    PiOver4 * (d * d)
  }

  lemma SquarePositive(x: real)
    requires x != 0.0
    ensures x * x > 0.0
  {
    if x > 0.0 {
      assert x * x > 0.0 * x;
    } else {
      assert (-x) * (-x) > 0.0;
    }
  }

  /** Only a zero diameter has no area. */
  lemma CircleAreaPositive(d: real)
    requires d != 0.0
    ensures CircleArea(d) > 0.0
  {
    SquarePositive(d);
    calc {
      CircleArea(d);
      PiOver4 * (d * d);
    >
      0.0;
    }
  }

  /** A diameter and its negation describe the same circle. */
  lemma CircleAreaIsEven(d: real)
    ensures CircleArea(-d) == CircleArea(d)
  {
    assert (-d) * (-d) == d * d;
  }

  /** The diameter `Set_CrossSection` derives from an area: sqrt(a / (pi/4)). */
  function DiameterOf(math: MathLib, area: real): (d: real)
    ensures SqrtLaw(math) && area >= 0.0 ==> d >= 0.0 && d * d == area / PiOver4
  {
    math.sqrt(area / PiOver4)
  }

  /** Setting a non-negative cross-section and reading it back gives the same area. */
  lemma CrossSectionRoundTrip(math: MathLib, area: real)
    requires SqrtLaw(math)
    requires area >= 0.0
    ensures CircleArea(DiameterOf(math, area)) == area
  {
    var x := area / PiOver4;
    assert math.sqrt(x) * math.sqrt(x) == x;
    calc {
      CircleArea(DiameterOf(math, area));
      PiOver4 * (math.sqrt(x) * math.sqrt(x));
      PiOver4 * x;
      area;
    }
  }

  /** roughness / diameter; undefined for a zero diameter. */
  function RelativeRoughness(roughness: real, diameter: real): (r: Option<real>)
    ensures r.Some? <==> diameter != 0.0
    ensures r.Some? ==> r.value * diameter == roughness
  {
    if diameter == 0.0 then None else Some(roughness / diameter)
  }

  // ---------------------------------------------------------------------------
  // Friction loss

  /** Re = v D rho / mu; undefined for a zero viscosity. */
  function Reynolds(speed: real, diameter: real, density: real, viscosity: real): (r: Option<real>)
    ensures r.Some? <==> viscosity != 0.0
    ensures r.Some? ==> r.value * viscosity == speed * diameter * density
  {
    if viscosity == 0.0 then None else Some(speed * diameter * density / viscosity)
  }

  /** Reversing the flow negates the Reynolds number (it is not taken in magnitude). */
  lemma ReversedFlowReynolds(speed: real, diameter: real, density: real, viscosity: real)
    requires viscosity != 0.0
    ensures Reynolds(-speed, diameter, density, viscosity).Some?
    ensures Reynolds(-speed, diameter, density, viscosity).value
         == -Reynolds(speed, diameter, density, viscosity).value
  {
    var r := Reynolds(speed, diameter, density, viscosity).value;
    var q := Reynolds(-speed, diameter, density, viscosity).value;
    assert (q + r) * viscosity == 0.0;
  }

  /** A + B of the Haaland correlation: (rr/3.7)^1.11 + 6.9/Re. */
  function HaalandSum(math: MathLib, reynolds: real, relativeRoughness: real): (s: real)
    requires reynolds != 0.0
    ensures PowLaw(math) && relativeRoughness >= 0.0 && reynolds > 0.0 ==> s > 0.0
  {
    math.pow(relativeRoughness / 3.7, 1.11) + 6.9 / reynolds
  }

  /**
   * The Haaland friction factor (1 / (-1.8 log10(A + B)))^2.  The cases follow
   * the double evaluation: a negative relative roughness or a negative A + B
   * gives NaN, and a logarithm of exactly 0 gives an infinite factor (None);
   * Re = 0, taken as +0 (B = +inf), and A + B = 0 (log10 = -inf) both give
   * exactly 0.
   */
  function Haaland(math: MathLib, reynolds: real, relativeRoughness: real): (f: Option<real>)
    ensures f.Some? ==> f.value >= 0.0
    ensures f.Some? && reynolds != 0.0 && HaalandSum(math, reynolds, relativeRoughness) > 0.0 ==>
              f.value * Square(1.8 * math.log10(HaalandSum(math, reynolds, relativeRoughness))) == 1.0
    ensures PowLaw(math) && relativeRoughness >= 0.0 && reynolds > 0.0 ==>
              (f.None? <==> math.log10(HaalandSum(math, reynolds, relativeRoughness)) == 0.0)
  {
    if relativeRoughness < 0.0 then None
    else if reynolds == 0.0 then Some(0.0)
    else
      var s := HaalandSum(math, reynolds, relativeRoughness);
      if s < 0.0 then None
      else if s == 0.0 then Some(0.0)
      else
        var l := math.log10(s);
        if l == 0.0 then None
        else
          var h := 1.0 / (-1.8 * l);
          assert h * (-1.8 * l) == 1.0;
          Some(Square(h))
  }

  /** K f L Q^2 rho / D^5; undefined for a zero diameter. */
  function PipeLoss(friction: real, length: real, flow: real, density: real, diameter: real): (r: Option<real>)
    ensures r.Some? <==> diameter != 0.0
    ensures r.Some? ==> r.value * Pow5(diameter) == LossCoefficient * friction * length * Square(flow) * density
  {
    if diameter == 0.0 then None
    else Some(Quotient(LossCoefficient * friction * length * Square(flow) * density, Pow5(diameter)))
  }

  /** The loss depends on the flow only through its square. */
  lemma PipeLossEvenInFlow(friction: real, length: real, flow: real, density: real, diameter: real)
    ensures PipeLoss(friction, length, -flow, density, diameter) == PipeLoss(friction, length, flow, density, diameter)
  {
    if diameter != 0.0 {
      var back := -flow;
      var n := LossCoefficient * friction * length * Square(back) * density;
      assert n == LossCoefficient * friction * length * Square(flow) * density;
      assert PipeLoss(friction, length, back, density, diameter) == Some(Quotient(n, Pow5(diameter)));
    }
  }

  /** No length or no flow, no loss. */
  lemma PipeLossVanishes(friction: real, length: real, flow: real, density: real, diameter: real)
    requires diameter != 0.0
    requires length == 0.0 || flow == 0.0
    ensures PipeLoss(friction, length, flow, density, diameter) == Some(0.0)
  {
  }

  /** A physical pipe (non-negative factor, length and density) never gains pressure. */
  lemma PipeLossNonNegative(friction: real, length: real, flow: real, density: real, diameter: real)
    requires friction >= 0.0 && length >= 0.0 && density >= 0.0 && diameter > 0.0
    ensures PipeLoss(friction, length, flow, density, diameter).Some?
    ensures PipeLoss(friction, length, flow, density, diameter).value >= 0.0
  {
    var n := LossCoefficient * friction * length * Square(flow) * density;
    assert n >= 0.0 by {
      assert friction * length >= 0.0;
      assert friction * length * Square(flow) >= 0.0;
    }
    assert Pow5(diameter) > 0.0 by {
      assert diameter * diameter > 0.0;
      assert diameter * diameter * diameter > 0.0;
      assert diameter * diameter * diameter * diameter > 0.0;
    }
  }

  /** The classical Darcy-Weisbach form f (L/D) (rho v^2 / 2). */
  function DarcyWeisbach(friction: real, length: real, diameter: real, density: real, speed: real): (loss: real)
    requires diameter != 0.0
  {
    friction * (length / diameter) * (density * Square(speed) / 2.0)
  }

  /** The coefficient that substituting v = Q / (pi/4 D^2) gives: 1 / (2 (pi/4)^2). */
  const ExactLossCoefficient: real := 1.0 / (2.0 * PiOver4 * PiOver4)

  /**
   * Substituting v = Q / A with A = pi/4 D^2 into the classical form gives
   * the flow form with coefficient 1 / (2 (pi/4)^2), which the literal
   * LossCoefficient matches to ten decimal places.
   */
  lemma LossCoefficientDerivation(friction: real, length: real, flow: real, density: real, diameter: real, v: real)
    requires diameter != 0.0
    requires flow == CircleArea(diameter) * v
    ensures DarcyWeisbach(friction, length, diameter, density, v) * Pow5(diameter)
         == ExactLossCoefficient * friction * length * Square(flow) * density
    ensures Abs(ExactLossCoefficient - LossCoefficient) < 0.0000000001
  {
    var a := CircleArea(diameter);
    var d2 := diameter * diameter;
    assert a == PiOver4 * d2;
    assert Pow5(diameter) == d2 * d2 * diameter;
    calc {
      DarcyWeisbach(friction, length, diameter, density, v) * Pow5(diameter);
      friction * (length / diameter) * (density * (v * v) / 2.0) * (d2 * d2 * diameter);
      { assert (length / diameter) * diameter == length; }
      friction * length * density * (v * v) * d2 * d2 / 2.0;
      { assert (v * d2) * PiOver4 == flow; }
      friction * length * density * (flow * flow) / (2.0 * PiOver4 * PiOver4);
      ExactLossCoefficient * friction * length * Square(flow) * density;
    }
  }

  /**
   * The pressure loss of a pipe as `Get_DeltaPressure` composes it: the
   * Reynolds number and relative roughness of the upstream liquid, the Haaland
   * factor, then the loss for the flow (pi/4 D^2) v.
   */
  function FrictionLoss(math: MathLib, speed: real, diameter: real, length: real, roughness: real,
                        density: real, viscosity: real): (r: Option<real>)
    ensures r.Some? ==> diameter != 0.0 && viscosity != 0.0
    ensures length == 0.0 && r.Some? ==> r.value == 0.0
  {
    match (Reynolds(speed, diameter, density, viscosity), RelativeRoughness(roughness, diameter))
    case (Some(re), Some(rr)) =>
      (match Haaland(math, re, rr)
       case Some(f) => PipeLoss(f, length, CircleArea(diameter) * speed, density, diameter)
       case None => None)
    case _ => None
  }

  /**
   * A pipe whose upstream liquid is at rest loses nothing, when the diameter,
   * density and viscosity have the signs that make Re a positive zero.
   */
  lemma ZeroSpeedNoLoss(math: MathLib, diameter: real, length: real, roughness: real, density: real, viscosity: real)
    requires diameter > 0.0 && density >= 0.0 && viscosity > 0.0
    requires roughness >= 0.0
    ensures FrictionLoss(math, 0.0, diameter, length, roughness, density, viscosity) == Some(0.0)
  {
    assert Reynolds(0.0, diameter, density, viscosity) == Some(0.0);
    assert Haaland(math, 0.0, roughness / diameter) == Some(0.0);
    PipeLossVanishes(0.0, length, CircleArea(diameter) * 0.0, density, diameter);
  }

  /** The figures the library's tests expect of a 0.2 m pipe carrying water at 10 m/s. */
  lemma PipeFigures()
    ensures Abs(CircleArea(0.2) - 0.0314159) < 0.000001
    ensures RelativeRoughness(0.000046, 0.2) == Some(0.00023)
    ensures Abs(CircleArea(0.2) * 10.0 - 0.314159) < 0.000001
    ensures Abs(CircleArea(0.2) * 10.0 * 1000.0 - 314.1589999) < 0.001
    ensures Reynolds(10.0, 0.2, 1000.0, 0.00115).Some?
    ensures Abs(Reynolds(10.0, 0.2, 1000.0, 0.00115).value - 1739130.434783) < 0.000001
  {
    assert Reynolds(10.0, 0.2, 1000.0, 0.00115) == Some(40000000.0 / 23.0);
  }
}
