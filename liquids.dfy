/**
 * The node state of the network: a liquid with its speed, static pressure,
 * height, density and viscosity, and three cache cells that the pressure
 * getters overwrite on every read.  Every quantity is a separately allocated
 * cell, so a liquid can share cells with whoever was handed them.
 */
module Liquids {
  import opened Units
  import Physics

  /** The values held by the eight cells of a liquid, read at one moment. */
  datatype LiquidState = LiquidState(
    speed: real,
    staticPressure: real,
    height: real,
    density: real,
    dynamicViscosity: real,
    dynamicPressure: real,
    potentialPressure: real,
    bernoulli: real)

  /** Standard water at rest at atmospheric pressure, as a default liquid starts. */
  const StandardWater: LiquidState :=
    LiquidState(0.0, 100000.0, 0.0, 1000.0, 0.00115, 0.0, 0.0, 0.0)

  class Liquid {
    // Held by the `State` base class of the source.
    var speed: Cell<Velocity>
    var staticPressure: Cell<Pressure>
    // Held by `Liquid` itself.
    var height: Cell<Length>
    var density: Cell<MassDensity>
    var dynamicViscosity: Cell<DynamicViscosity>
    // Cache cells written by the pressure getters.
    var dynamicPressure: Cell<Pressure>
    var potentialPressure: Cell<Pressure>
    var bernoulli: Cell<Pressure>

    /** The three cache cells are never shared with one another. */
    ghost predicate Valid()
      reads this
    {
      dynamicPressure != potentialPressure && dynamicPressure != bernoulli && potentialPressure != bernoulli
    }

    /** Every cell of this liquid was allocated since the pre-state. */
    twostate predicate Renewed()
      reads this
    {
      fresh(speed) && fresh(staticPressure) && fresh(height) && fresh(density) &&
      fresh(dynamicViscosity) && fresh(dynamicPressure) && fresh(potentialPressure) && fresh(bernoulli)
    }

    /** The four pressure cells. */
    ghost function PressureCells(): set<Cell<Pressure>>
      reads this
    {
      {staticPressure, dynamicPressure, potentialPressure, bernoulli}
    }

    function State(): (s: LiquidState)
      reads this, speed, staticPressure, height, density, dynamicViscosity,
            dynamicPressure, potentialPressure, bernoulli
    {
      LiquidState(speed.val, staticPressure.val, height.val, density.val, dynamicViscosity.val,
                  dynamicPressure.val, potentialPressure.val, bernoulli.val)
    }

    /** `Liquid()`: standard water, every quantity in a cell of its own. */
    constructor ()
      ensures State() == StandardWater
      ensures fresh(speed) && fresh(staticPressure) && fresh(height) && fresh(density)
      ensures fresh(dynamicViscosity) && fresh(dynamicPressure) && fresh(potentialPressure) && fresh(bernoulli)
      ensures Valid()
    {
      speed := new Cell(0.0);
      staticPressure := new Cell(100000.0);
      height := new Cell(0.0);
      density := new Cell(1000.0);
      dynamicViscosity := new Cell(0.00115);
      dynamicPressure := new Cell(0.0);
      potentialPressure := new Cell(0.0);
      bernoulli := new Cell(0.0);
    }

    /** `Liquid(const Liquid &)`: equal values in freshly allocated cells. */
    constructor Copy(other: Liquid)
      ensures State() == other.State()
      ensures fresh(speed) && fresh(staticPressure) && fresh(height) && fresh(density)
      ensures fresh(dynamicViscosity) && fresh(dynamicPressure) && fresh(potentialPressure) && fresh(bernoulli)
      ensures Valid()
    {
      speed := new Cell(other.speed.val);
      staticPressure := new Cell(other.staticPressure.val);
      height := new Cell(other.height.val);
      density := new Cell(other.density.val);
      dynamicViscosity := new Cell(other.dynamicViscosity.val);
      dynamicPressure := new Cell(other.dynamicPressure.val);
      potentialPressure := new Cell(other.potentialPressure.val);
      bernoulli := new Cell(other.bernoulli.val);
    }

    /**
     * `operator=`: self-assignment changes nothing; otherwise every cell is
     * replaced by a fresh one holding the other liquid's value, so later
     * writes to either liquid no longer reach the other.
     */
    method Assign(other: Liquid)
      requires Valid()
      modifies this
      ensures Valid()
      ensures State() == old(other.State())
      ensures this == other ==> unchanged(this)
      ensures this != other ==> Renewed()
    {
      if this == other {
        return;
      }
      var copy := new Liquid.Copy(other);
      speed, staticPressure, height, density := copy.speed, copy.staticPressure, copy.height, copy.density;
      dynamicViscosity, dynamicPressure := copy.dynamicViscosity, copy.dynamicPressure;
      potentialPressure, bernoulli := copy.potentialPressure, copy.bernoulli;
    }

    // The setters rebind a pointer; they copy nothing.

    method SetSpeed(c: Cell<Velocity>)
      modifies this
      ensures speed == c
      ensures staticPressure == old(staticPressure) && height == old(height) && density == old(density)
      ensures dynamicViscosity == old(dynamicViscosity)
      ensures dynamicPressure == old(dynamicPressure) && potentialPressure == old(potentialPressure)
      ensures bernoulli == old(bernoulli)
    {
      speed := c;
    }

    method SetStaticPressure(c: Cell<Pressure>)
      modifies this
      ensures staticPressure == c
      ensures speed == old(speed) && height == old(height) && density == old(density)
      ensures dynamicViscosity == old(dynamicViscosity)
      ensures dynamicPressure == old(dynamicPressure) && potentialPressure == old(potentialPressure)
      ensures bernoulli == old(bernoulli)
    {
      staticPressure := c;
    }

    method SetHeight(c: Cell<Length>)
      modifies this
      ensures height == c
      ensures speed == old(speed) && staticPressure == old(staticPressure) && density == old(density)
      ensures dynamicViscosity == old(dynamicViscosity)
      ensures dynamicPressure == old(dynamicPressure) && potentialPressure == old(potentialPressure)
      ensures bernoulli == old(bernoulli)
    {
      height := c;
    }

    method SetDensity(c: Cell<MassDensity>)
      modifies this
      ensures density == c
      ensures speed == old(speed) && staticPressure == old(staticPressure) && height == old(height)
      ensures dynamicViscosity == old(dynamicViscosity)
      ensures dynamicPressure == old(dynamicPressure) && potentialPressure == old(potentialPressure)
      ensures bernoulli == old(bernoulli)
    {
      density := c;
    }

    method SetDynamicViscosity(c: Cell<DynamicViscosity>)
      modifies this
      ensures dynamicViscosity == c
      ensures speed == old(speed) && staticPressure == old(staticPressure) && height == old(height)
      ensures density == old(density)
      ensures dynamicPressure == old(dynamicPressure) && potentialPressure == old(potentialPressure)
      ensures bernoulli == old(bernoulli)
    {
      dynamicViscosity := c;
    }

    /** `Get_Dynamic_pressure`: recomputes 1/2 rho |v| v into its cache cell and returns that cell. */
    method GetDynamicPressure() returns (c: Cell<Pressure>)
      modifies dynamicPressure
      ensures c == dynamicPressure
      ensures c.val == Physics.DynamicPressure(density.val, speed.val)
    {
      dynamicPressure.val := Physics.DynamicPressure(density.val, speed.val);
      c := dynamicPressure;
    }

    /** `Get_Potential_pressure`: recomputes g h rho into its cache cell and returns that cell. */
    method GetPotentialPressure() returns (c: Cell<Pressure>)
      modifies potentialPressure
      ensures c == potentialPressure
      ensures c.val == Physics.PotentialPressure(height.val, density.val)
    {
      potentialPressure.val := Physics.PotentialPressure(height.val, density.val);
      c := potentialPressure;
    }

    /**
     * `Get_Bernoulli`: static + dynamic + potential pressure, refreshing the
     * two other caches on the way.  The static pressure is read before the
     * other caches are written.
     */
    method GetBernoulli() returns (c: Cell<Pressure>)
      requires Valid()
      modifies dynamicPressure, potentialPressure, bernoulli
      ensures c == bernoulli
      ensures c.val == Physics.BernoulliTotal(old(staticPressure.val), density.val, speed.val, height.val)
      ensures dynamicPressure.val == Physics.DynamicPressure(density.val, speed.val)
      ensures potentialPressure.val == Physics.PotentialPressure(height.val, density.val)
    {
      var s := staticPressure.val;
      var d := GetDynamicPressure();
      var p := GetPotentialPressure();
      bernoulli.val := s + d.val + p.val;
      c := bernoulli;
    }
  }

  /**
   * `l` and its eight cells were all allocated since the pre-state, and its
   * caches are distinct: a liquid that shares nothing with what existed before.
   */
  twostate predicate Independent(new l: Liquid)
    reads l
  {
    fresh(l) && fresh(l.speed) && fresh(l.staticPressure) && fresh(l.height) && fresh(l.density) &&
    fresh(l.dynamicViscosity) && fresh(l.dynamicPressure) && fresh(l.potentialPressure) &&
    fresh(l.bernoulli) && l.Valid()
  }

  /** No cell of `a` is a cell of `b`. */
  ghost predicate Apart(a: Liquid, b: Liquid)
    reads a, b
  {
    a.speed != b.speed && a.height != b.height && a.density != b.density &&
    a.dynamicViscosity != b.dynamicViscosity && a.PressureCells() !! b.PressureCells()
  }

  /** A liquid independent of the pre-state shares no cell with one that existed there unchanged. */
  twostate lemma IndependentIsApart(a: Liquid, new b: Liquid)
    requires unchanged(a)
    requires Independent(b)
    ensures Apart(a, b)
  {
  }

  /**
   * The standard-water scenario the library's tests walk through: at rest the
   * total is the static pressure, at 1 m/s the dynamic pressure is 500 Pa, and
   * raised by 10 m the total is 198566.5 Pa.
   */
  method StandardWaterScenario() returns (restTotal: real, dynamic: real, movingTotal: real, raisedTotal: real)
    ensures restTotal == 100000.0
    ensures dynamic == 500.0
    ensures movingTotal == 100500.0
    ensures raisedTotal == 198566.5
  {
    var water := new Liquid();
    var b := water.GetBernoulli();
    restTotal := b.val;
    water.speed.val := 1.0;
    var d := water.GetDynamicPressure();
    dynamic := d.val;
    b := water.GetBernoulli();
    movingTotal := b.val;
    water.height.val := 10.0;
    b := water.GetBernoulli();
    raisedTotal := b.val;
  }

  /**
   * A copy does not share cells with its original: writing the copy's
   * density leaves the original's density as it was.
   */
  method CopyIsIndependent(water: Liquid, density: real) returns (original: real, copied: real)
    ensures original == old(water.density.val)
    ensures copied == density
  {
    var water2 := new Liquid.Copy(water);
    water2.density.val := density;
    original := water.density.val;
    copied := water2.density.val;
  }
}
