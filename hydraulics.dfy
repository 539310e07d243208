/**
 * The per-pipe hydraulics of the pipe network: velocity, Reynolds number,
 * friction factor and Darcy-Weisbach head loss, over real numbers.
 *
 * The constant pi is not fixed here: every member that computes an area, a
 * velocity, a Reynolds number or a head loss takes it as a parameter and
 * only asks that it be positive.
 */
module Hydraulics {

  /** Acceleration due to gravity (ft/s^2). */
  const G: real := 32.2
  /** Density of water (lb/ft^3). */
  const Rho: real := 62.3
  /** Viscosity of water (lb/(ft*s)). */
  const Mu: real := 0.0000205
  /** Inches to feet. */
  const InchToFt: real := 1.0 / 12.0
  /** Below this Reynolds number the flow counts as laminar. */
  const LaminarLimit: real := 2000.0
  /** The fixed friction factor used for turbulent flow (no Colebrook iteration). */
  const TurbulentFriction: real := 0.02

  /** Cross-section area (ft^2) of a pipe of the given diameter (inches). */
  function CrossSection(pi: real, diameter: real): (a: real)
    requires pi > 0.0 && diameter != 0.0
    ensures a > 0.0
  {
    SquarePositive(diameter * InchToFt / 2.0);
    ProductSign(pi, Square(diameter * InchToFt / 2.0));
    pi * Square(diameter * InchToFt / 2.0)
  }

  /** Mean velocity of a flow rate through a pipe of the given diameter (inches). */
  function Velocity(pi: real, diameter: real, flowRate: real): (v: real)
    requires pi > 0.0 && diameter != 0.0
    ensures v > 0.0 <==> flowRate > 0.0
    ensures v < 0.0 <==> flowRate < 0.0
  {
    QuotientSign(flowRate, CrossSection(pi, diameter));
    flowRate / CrossSection(pi, diameter)
  }

  lemma QuotientSign(x: real, y: real)
    requires y > 0.0
    ensures x / y > 0.0 <==> x > 0.0
    ensures x / y < 0.0 <==> x < 0.0
  {
    NegativeProduct(x / y, y);
    assert x / y * y == x;
  }

  /** Reynolds number of a flow rate through a pipe of the given diameter (inches). */
  function Reynolds(pi: real, diameter: real, flowRate: real): (re: real)
    requires pi > 0.0 && diameter != 0.0
    ensures re == 0.0 <==> flowRate == 0.0
    ensures diameter > 0.0 ==> (re > 0.0 <==> flowRate > 0.0) && (re < 0.0 <==> flowRate < 0.0)
  {
    var v := Velocity(pi, diameter, flowRate);
    ProductSign(v, diameter * InchToFt);
    (v * diameter * InchToFt) / Mu
  }

  function Square(x: real): real { x * x }

  lemma SquarePositive(x: real)
    requires x != 0.0
    ensures Square(x) > 0.0
  {
    if x < 0.0 {
      ProductSign(-x, -x);
      assert x * x == (-x) * (-x);
    } else {
      ProductSign(x, x);
    }
  }

  lemma ProductSign(x: real, y: real)
    ensures x * y == 0.0 <==> x == 0.0 || y == 0.0
    ensures x > 0.0 && y > 0.0 ==> x * y > 0.0
    ensures x < 0.0 && y > 0.0 ==> x * y < 0.0
  {
  }

  /**
   * The friction factor: 64 / Re for laminar flow (which includes every
   * negative Re, i.e. every reverse flow) and a fixed value otherwise.
   */
  function FrictionFactor(re: real): (f: real)
    requires re != 0.0
    ensures f == TurbulentFriction <==> re >= LaminarLimit
    ensures f > 0.0 <==> re > 0.0
    ensures re > 0.0 ==> f >= TurbulentFriction
  {
    if re < LaminarLimit then 64.0 / re else TurbulentFriction
  }

  /**
   * Darcy-Weisbach head loss through a pipe of the given diameter and length
   * (inches) carrying the given flow rate (cfs). A zero flow rate makes the
   * Reynolds number zero and the laminar friction factor a division by zero,
   * so it is excluded; so is a zero diameter, which divides by zero first.
   */
  function HeadLoss(pi: real, diameter: real, length: real, flowRate: real): (h: real)
    requires pi > 0.0 && diameter != 0.0 && flowRate != 0.0
  {
    var v := Velocity(pi, diameter, flowRate);
    var f := FrictionFactor(Reynolds(pi, diameter, flowRate));
    f * (length * InchToFt) / (diameter * InchToFt) * (Rho * (v * v)) / (2.0 * G)
  }

  /** The Reynolds number is linear in the flow rate: Re = 4 Q / (pi d mu). */
  lemma ReynoldsClosedForm(pi: real, diameter: real, flowRate: real)
    requires pi > 0.0 && diameter != 0.0
    ensures Reynolds(pi, diameter, flowRate) == 4.0 * flowRate / (pi * (diameter * InchToFt) * Mu)
  {
    var d := diameter * InchToFt;
    assert CrossSection(pi, diameter) == pi * (d * d) / 4.0;
    var v := Velocity(pi, diameter, flowRate);
    assert v == 4.0 * flowRate / (pi * (d * d));
    assert v * d == 4.0 * flowRate / (pi * d);
  }

  /** Reverse flow (negative Q) always takes the laminar branch. */
  lemma ReverseFlowIsLaminar(pi: real, diameter: real, flowRate: real)
    requires pi > 0.0 && diameter > 0.0 && flowRate < 0.0
    ensures Reynolds(pi, diameter, flowRate) < LaminarLimit
    ensures FrictionFactor(Reynolds(pi, diameter, flowRate)) == 64.0 / Reynolds(pi, diameter, flowRate)
    ensures FrictionFactor(Reynolds(pi, diameter, flowRate)) < 0.0
  {
  }

  /** In the turbulent branch the head loss is never negative. */
  lemma TurbulentHeadLossNonNegative(pi: real, diameter: real, length: real, flowRate: real)
    requires pi > 0.0 && diameter > 0.0 && length >= 0.0 && flowRate != 0.0
    requires Reynolds(pi, diameter, flowRate) >= LaminarLimit
    ensures HeadLoss(pi, diameter, length, flowRate) >= 0.0
  {
    var v := Velocity(pi, diameter, flowRate);
    var ratio := (length * InchToFt) / (diameter * InchToFt);
    assert ratio >= 0.0;
    assert TurbulentFriction * (length * InchToFt) / (diameter * InchToFt) == TurbulentFriction * ratio;
    assert Rho * (v * v) >= 0.0;
    NonNegativeProduct(TurbulentFriction * ratio, Rho * (v * v));
  }

  lemma NonNegativeProduct(x: real, y: real)
    requires x >= 0.0 && y >= 0.0
    ensures x * y >= 0.0 && x * y / (2.0 * G) >= 0.0
  {
  }

  /**
   * For a pipe of positive size the head loss has the direction of the flow:
   * positive exactly for forward flow, negative exactly for reverse flow.
   */
  lemma HeadLossFollowsFlow(pi: real, diameter: real, length: real, flowRate: real)
    requires pi > 0.0 && diameter > 0.0 && length > 0.0 && flowRate != 0.0
    ensures HeadLoss(pi, diameter, length, flowRate) > 0.0 <==> flowRate > 0.0
    ensures HeadLoss(pi, diameter, length, flowRate) < 0.0 <==> flowRate < 0.0
  {
    var v := Velocity(pi, diameter, flowRate);
    var f := FrictionFactor(Reynolds(pi, diameter, flowRate));
    Regroup(f, length, diameter, InchToFt, Rho * (v * v));
    QuotientSign(length, diameter);
    SquarePositive(v);
    var kinetic := Rho * Square(v) / (2.0 * G);
    assert kinetic > 0.0;
    ProductSign(length / diameter, kinetic);
    NegativeProduct(f, length / diameter * kinetic);
  }

  /** Regrouping of the Darcy-Weisbach product: the unit factor cancels. */
  lemma Regroup(f: real, l: real, d: real, k: real, e: real)
    requires d != 0.0 && k != 0.0
    ensures f * (l * k) / (d * k) * e / (2.0 * G) == f * (l / d * (e / (2.0 * G)))
  {
    assert (l * k) / (d * k) == l / d;
  }

  lemma NegativeProduct(x: real, y: real)
    requires y > 0.0
    ensures x * y < 0.0 <==> x < 0.0
    ensures x * y > 0.0 <==> x > 0.0
  {
    if x < 0.0 {
      assert (-x) * y > 0.0;
    }
  }

  /**
   * In the laminar branch the head loss is the Hagen-Poiseuille value,
   * proportional to the velocity: h = 32 mu L rho v / (g d^2), with L and d in feet.
   */
  lemma LaminarHeadLossIsPoiseuille(pi: real, diameter: real, length: real, flowRate: real)
    requires pi > 0.0 && diameter != 0.0 && flowRate != 0.0
    requires Reynolds(pi, diameter, flowRate) < LaminarLimit
    ensures var d := diameter * InchToFt;
            HeadLoss(pi, diameter, length, flowRate)
            == 32.0 * Mu * (length * InchToFt) * Rho * Velocity(pi, diameter, flowRate) / (G * (d * d))
  {
    var d := diameter * InchToFt;
    var l := length * InchToFt;
    var v := Velocity(pi, diameter, flowRate);
    var re := Reynolds(pi, diameter, flowRate);
    assert re == v * d / Mu;
    assert v != 0.0;
    var f := 64.0 / re;
    assert f == 64.0 * Mu / (v * d);
    assert f * l / d == 64.0 * Mu * l / (v * d * d);
    assert f * l / d * (Rho * (v * v)) == 64.0 * Mu * l * Rho * v / (d * d);
  }
}
