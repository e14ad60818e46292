/**
 * The edges of the network.  `FluidComponents` is the abstract edge with a
 * cross-section, mass flow, volumetric flow, pressure drop and the liquid of
 * its upstream node; `Pipes` adds a diameter, length and roughness and the
 * friction-loss law; `TransportEdge` is a loss-free boundary edge whose
 * volumetric flow is a stored value.  One class stands for the hierarchy:
 * `kind` says which concrete edge an object is, and the virtual methods
 * branch on it.  Pipe geometry cells exist on both kinds; only pipes read them.
 */
module Components {
  import opened Units
  import Physics
  import opened Liquids

  datatype Kind = PipeEdge | TransportEdge

  /** The values held by the cells of the `FluidComponents` base. */
  datatype FlowState = FlowState(crossSection: real, massFlow: real, volumetricFlow: real, deltaPressure: real)

  /** The values held by the geometry cells of a pipe. */
  datatype Geometry = Geometry(diameter: real, length: real, roughness: real, relativeRoughness: real)

  const NoFlow: FlowState := FlowState(0.0, 0.0, 0.0, 0.0)
  const NoGeometry: Geometry := Geometry(0.0, 0.0, 0.0, 0.0)

  /** Four freshly allocated cells holding the given flow values. */
  method NewFlowCells(f: FlowState)
    returns (cs: Cell<Area>, mf: Cell<MassFlow>, vf: Cell<VolumetricFlow>, dp: Cell<Pressure>)
    ensures fresh(cs) && fresh(mf) && fresh(vf) && fresh(dp)
    ensures FlowState(cs.val, mf.val, vf.val, dp.val) == f
  {
    cs := new Cell(f.crossSection);
    mf := new Cell(f.massFlow);
    vf := new Cell(f.volumetricFlow);
    dp := new Cell(f.deltaPressure);
  }

  class Component {
    const kind: Kind
    // `FluidComponents`
    var crossSection: Cell<Area>
    var massFlow: Cell<MassFlow>
    var volumetricFlow: Cell<VolumetricFlow>
    var deltaPressure: Cell<Pressure>
    var liquid: Liquid
    // `Pipes`
    var diameter: Cell<Length>
    var length: Cell<Length>
    var roughness: Cell<Length>
    var relativeRoughness: Cell<Dimensionless>

    function Flows(): (f: FlowState)
      reads this, crossSection, massFlow, volumetricFlow, deltaPressure
    {
      FlowState(crossSection.val, massFlow.val, volumetricFlow.val, deltaPressure.val)
    }

    function Shape(): (g: Geometry)
      reads this, diameter, length, roughness, relativeRoughness
    {
      Geometry(diameter.val, length.val, roughness.val, relativeRoughness.val)
    }

    /**
     * The volumetric flow a read yields: a pipe recomputes cross-section times
     * the upstream speed, a transport edge hands out its stored value.
     */
    function FlowOnRead(): (q: real)
      reads this, liquid, liquid.speed, diameter, volumetricFlow
    {
      match kind
      case PipeEdge => Physics.CircleArea(diameter.val) * liquid.speed.val
      case TransportEdge => volumetricFlow.val
    }

    /** The pressure drop a read yields, `None` where the double result is not finite. */
    function LossOnRead(math: MathLib): (loss: Option<real>)
      reads this, liquid, liquid.speed, liquid.density, liquid.dynamicViscosity
      reads diameter, length, roughness, deltaPressure
    {
      match kind
      case PipeEdge =>
        Physics.FrictionLoss(math, liquid.speed.val, diameter.val, length.val, roughness.val,
                             liquid.density.val, liquid.dynamicViscosity.val)
      case TransportEdge => Some(deltaPressure.val)
    }

    /**
     * The three length cells of a pipe are three different cells, so that
     * writing one of them leaves the others as they were.
     */
    predicate SeparateLengths()
      reads this
    {
      diameter != length && diameter != roughness && length != roughness
    }

    /** Every geometry cell was allocated since the pre-state. */
    twostate predicate FreshGeometry()
      reads this
    {
      fresh(diameter) && fresh(length) && fresh(roughness) && fresh(relativeRoughness)
    }

    /** Every cell of the base part was allocated since the pre-state. */
    twostate predicate FreshFlows()
      reads this
    {
      fresh(crossSection) && fresh(massFlow) && fresh(volumetricFlow) && fresh(deltaPressure)
    }

    /** `TransportEdge()`: a zero edge on a liquid of its own. */
    constructor Transport()
      ensures kind == TransportEdge
      ensures SeparateLengths()
      ensures Flows() == NoFlow && Shape() == NoGeometry
      ensures fresh(crossSection) && fresh(massFlow) && fresh(volumetricFlow) && fresh(deltaPressure)
      ensures Independent(liquid) && liquid.State() == StandardWater
    {
      liquid := new Liquid();
      kind := TransportEdge;
      crossSection := new Cell(0.0);
      massFlow := new Cell(0.0);
      volumetricFlow := new Cell(0.0);
      deltaPressure := new Cell(0.0);
      diameter := new Cell(0.0);
      length := new Cell(0.0);
      roughness := new Cell(0.0);
      relativeRoughness := new Cell(0.0);
    }

    /** `TransportEdge(u, v)`: a zero edge that shares the upstream liquid `u`. */
    constructor TransportBetween(u: Liquid)
      ensures kind == TransportEdge
      ensures SeparateLengths()
      ensures Flows() == NoFlow && Shape() == NoGeometry
      ensures fresh(crossSection) && fresh(massFlow) && fresh(volumetricFlow) && fresh(deltaPressure)
      ensures liquid == u
    {
      kind := TransportEdge;
      crossSection := new Cell(0.0);
      massFlow := new Cell(0.0);
      volumetricFlow := new Cell(0.0);
      deltaPressure := new Cell(0.0);
      liquid := u;
      diameter := new Cell(0.0);
      length := new Cell(0.0);
      roughness := new Cell(0.0);
      relativeRoughness := new Cell(0.0);
    }

    /**
     * `TransportEdge(const FluidComponents &)`: the base part of any edge,
     * copied into fresh cells, with a fresh copy of its liquid.
     */
    constructor TransportCopy(other: Component)
      ensures kind == TransportEdge
      ensures SeparateLengths()
      ensures Flows() == other.Flows() && Shape() == NoGeometry
      ensures fresh(crossSection) && fresh(massFlow) && fresh(volumetricFlow) && fresh(deltaPressure)
      ensures Independent(liquid) && liquid.State() == other.liquid.State()
    {
      liquid := new Liquid.Copy(other.liquid);
      kind := TransportEdge;
      crossSection := new Cell(other.crossSection.val);
      massFlow := new Cell(other.massFlow.val);
      volumetricFlow := new Cell(other.volumetricFlow.val);
      deltaPressure := new Cell(other.deltaPressure.val);
      diameter := new Cell(0.0);
      length := new Cell(0.0);
      roughness := new Cell(0.0);
      relativeRoughness := new Cell(0.0);
    }

    /** `Pipes()`: a pipe of zero size on a liquid of its own. */
    constructor Pipe()
      ensures kind == PipeEdge
      ensures SeparateLengths()
      ensures Flows() == NoFlow && Shape() == NoGeometry
      ensures fresh(crossSection) && fresh(massFlow) && fresh(volumetricFlow) && fresh(deltaPressure)
      ensures fresh(diameter) && fresh(length) && fresh(roughness) && fresh(relativeRoughness)
      ensures Independent(liquid) && liquid.State() == StandardWater
    {
      liquid := new Liquid();
      kind := PipeEdge;
      crossSection := new Cell(0.0);
      massFlow := new Cell(0.0);
      volumetricFlow := new Cell(0.0);
      deltaPressure := new Cell(0.0);
      diameter := new Cell(0.0);
      length := new Cell(0.0);
      roughness := new Cell(0.0);
      relativeRoughness := new Cell(0.0);
    }

    /** `Pipes(u, v)`: a pipe of zero size that shares the upstream liquid `u`. */
    constructor PipeBetween(u: Liquid)
      ensures kind == PipeEdge
      ensures SeparateLengths()
      ensures Flows() == NoFlow && Shape() == NoGeometry
      ensures fresh(crossSection) && fresh(massFlow) && fresh(volumetricFlow) && fresh(deltaPressure)
      ensures fresh(diameter) && fresh(length) && fresh(roughness) && fresh(relativeRoughness)
      ensures liquid == u
    {
      kind := PipeEdge;
      crossSection := new Cell(0.0);
      massFlow := new Cell(0.0);
      volumetricFlow := new Cell(0.0);
      deltaPressure := new Cell(0.0);
      liquid := u;
      diameter := new Cell(0.0);
      length := new Cell(0.0);
      roughness := new Cell(0.0);
      relativeRoughness := new Cell(0.0);
    }

    /** `Pipes(const Pipes &)`: every cell and the liquid copied afresh. */
    constructor PipeCopy(other: Component)
      requires other.kind == PipeEdge
      ensures kind == PipeEdge
      ensures SeparateLengths()
      ensures Flows() == other.Flows() && Shape() == other.Shape()
      ensures fresh(crossSection) && fresh(massFlow) && fresh(volumetricFlow) && fresh(deltaPressure)
      ensures fresh(diameter) && fresh(length) && fresh(roughness) && fresh(relativeRoughness)
      ensures Independent(liquid) && liquid.State() == other.liquid.State()
    {
      liquid := new Liquid.Copy(other.liquid);
      kind := PipeEdge;
      crossSection := new Cell(other.crossSection.val);
      massFlow := new Cell(other.massFlow.val);
      volumetricFlow := new Cell(other.volumetricFlow.val);
      deltaPressure := new Cell(other.deltaPressure.val);
      diameter := new Cell(other.diameter.val);
      length := new Cell(other.length.val);
      roughness := new Cell(other.roughness.val);
      relativeRoughness := new Cell(other.relativeRoughness.val);
    }

    /** `Pipes(diameter, length, roughness)`: exactly those dimensions, on a liquid of its own. */
    constructor PipeSized(d: real, l: real, r: real)
      ensures kind == PipeEdge
      ensures SeparateLengths()
      ensures Flows() == NoFlow && Shape() == Geometry(d, l, r, 0.0)
      ensures fresh(crossSection) && fresh(massFlow) && fresh(volumetricFlow) && fresh(deltaPressure)
      ensures fresh(diameter) && fresh(length) && fresh(roughness) && fresh(relativeRoughness)
      ensures Independent(liquid) && liquid.State() == StandardWater
    {
      liquid := new Liquid();
      kind := PipeEdge;
      crossSection := new Cell(0.0);
      massFlow := new Cell(0.0);
      volumetricFlow := new Cell(0.0);
      deltaPressure := new Cell(0.0);
      diameter := new Cell(d);
      length := new Cell(l);
      roughness := new Cell(r);
      relativeRoughness := new Cell(0.0);
    }

    /**
     * `FluidComponents::operator=`, which `TransportEdge::operator=` calls
     * unchanged: self-assignment is a no-op; otherwise the base cells and the
     * liquid are replaced by fresh copies of the other edge's.
     */
    method AssignBase(other: Component)
      modifies this
      ensures Flows() == old(other.Flows())
      ensures liquid.State() == old(other.liquid.State())
      ensures this == other ==> unchanged(this)
      ensures this != other ==> FreshFlows() && Independent(liquid)
      ensures diameter == old(diameter) && length == old(length) && roughness == old(roughness)
      ensures relativeRoughness == old(relativeRoughness)
    {
      if this != other {
        var copied := new Liquid.Copy(other.liquid);
        var cs, mf, vf, dp := NewFlowCells(other.Flows());
        crossSection, massFlow, volumetricFlow, deltaPressure, liquid := cs, mf, vf, dp, copied;
      }
    }

    /** `Pipes::operator=`: the base assignment, then fresh copies of the geometry cells. */
    method AssignPipe(other: Component)
      requires kind == PipeEdge && other.kind == PipeEdge
      modifies this
      ensures Flows() == old(other.Flows()) && Shape() == old(other.Shape())
      ensures liquid.State() == old(other.liquid.State())
      ensures this == other ==> unchanged(this)
      ensures this != other ==> FreshFlows() && FreshGeometry() && Independent(liquid)
    {
      if this != other {
        var d := new Cell(other.diameter.val);
        var l := new Cell(other.length.val);
        var r := new Cell(other.roughness.val);
        var rr := new Cell(other.relativeRoughness.val);
        diameter, length, roughness, relativeRoughness := d, l, r, rr;
        AssignBase(other);
      }
    }

    /** `Set_Liquid`: binds the edge to the given liquid, shared and not copied. */
    method SetLiquid(l: Liquid)
      modifies this
      ensures liquid == l
      ensures crossSection == old(crossSection) && massFlow == old(massFlow)
      ensures volumetricFlow == old(volumetricFlow) && deltaPressure == old(deltaPressure)
      ensures diameter == old(diameter) && length == old(length) && roughness == old(roughness)
      ensures relativeRoughness == old(relativeRoughness)
    {
      liquid := l;
    }

    /** `isTransportEdge`, which only `TransportEdge` defines, and as `true`. */
    predicate IsTransportEdge()
      reads this, liquid, liquid.speed, diameter, volumetricFlow, length, roughness
      reads liquid.density, liquid.dynamicViscosity, deltaPressure
      ensures IsTransportEdge() <==> kind == TransportEdge
      ensures IsTransportEdge() ==> FlowOnRead() == volumetricFlow.val
      ensures IsTransportEdge() ==> forall math: MathLib :: LossOnRead(math) == Some(deltaPressure.val)
    {
      kind == TransportEdge
    }

    /**
     * `Get_CrossSection`: a pipe recomputes pi/4 D^2 into its cross-section
     * cell; a transport edge returns the cell as it is.
     */
    method GetCrossSection() returns (c: Cell<Area>)
      modifies crossSection
      ensures c == crossSection
      ensures kind == PipeEdge ==> c.val == Physics.CircleArea(diameter.val)
      ensures kind == TransportEdge ==> c.val == old(c.val)
    {
      if kind == PipeEdge {
        crossSection.val := Physics.CircleArea(diameter.val);
      }
      c := crossSection;
    }

    /**
     * `Set_CrossSection`: binds the given area cell; a pipe first sets its
     * diameter to sqrt(a / (pi/4)).
     */
    method SetCrossSection(math: MathLib, area: Cell<Area>)
      modifies this, diameter
      ensures crossSection == area
      ensures diameter == old(diameter)
      ensures kind == PipeEdge ==> diameter.val == Physics.DiameterOf(math, area.val)
      ensures kind == TransportEdge ==> diameter.val == old(diameter.val)
      ensures massFlow == old(massFlow) && volumetricFlow == old(volumetricFlow)
      ensures deltaPressure == old(deltaPressure) && liquid == old(liquid)
      ensures length == old(length) && roughness == old(roughness)
      ensures relativeRoughness == old(relativeRoughness)
    {
      if kind == PipeEdge {
        diameter.val := Physics.DiameterOf(math, area.val);
      }
      crossSection := area;
    }

    /**
     * `Get_Volumetricflow`: a pipe refreshes its cross-section and writes
     * cross-section times upstream speed into the flow cell; a transport edge
     * returns the flow cell untouched.
     */
    method GetVolumetricFlow() returns (c: Cell<VolumetricFlow>)
      modifies crossSection, volumetricFlow
      ensures c == volumetricFlow
      ensures c.val == old(FlowOnRead())
      ensures kind == PipeEdge ==> crossSection.val == Physics.CircleArea(diameter.val)
      ensures kind == TransportEdge ==> crossSection.val == old(crossSection.val)
    {
      if kind == PipeEdge {
        var a := GetCrossSection();
        volumetricFlow.val := a.val * liquid.speed.val;
      }
      c := volumetricFlow;
    }

    /** `Get_Massflow`: the flow a read yields times the upstream density. */
    method GetMassFlow() returns (c: Cell<MassFlow>)
      modifies crossSection, volumetricFlow, massFlow
      ensures c == massFlow
      ensures c.val == old(FlowOnRead()) * liquid.density.val
      ensures volumetricFlow.val == old(FlowOnRead())
      ensures kind == PipeEdge ==> crossSection.val == Physics.CircleArea(diameter.val)
      ensures kind == TransportEdge ==> crossSection.val == old(crossSection.val)
    {
      var q := GetVolumetricFlow();
      massFlow.val := q.val * liquid.density.val;
      c := massFlow;
    }

    /** `Get_Relative_roughness`: roughness / diameter into its cache cell, when the diameter is not 0. */
    method GetRelativeRoughness() returns (c: Cell<Dimensionless>, ok: bool)
      requires kind == PipeEdge
      modifies relativeRoughness
      ensures c == relativeRoughness
      ensures ok <==> Physics.RelativeRoughness(roughness.val, diameter.val).Some?
      ensures ok ==> c.val == Physics.RelativeRoughness(roughness.val, diameter.val).value
      ensures !ok ==> c.val == old(c.val)
    {
      var r := Physics.RelativeRoughness(roughness.val, diameter.val);
      c := relativeRoughness;
      ok := r.Some?;
      if ok {
        relativeRoughness.val := r.value;
      }
    }

    /**
     * `Get_DeltaPressure`: a pipe evaluates Reynolds number, relative
     * roughness, Haaland factor and volumetric flow of its upstream liquid and
     * writes the friction loss into its pressure-drop cell; a transport edge
     * returns the stored pressure drop.  `ok` is false where the loss is not a
     * finite number.
     */
    method GetDeltaPressure(math: MathLib) returns (c: Cell<Pressure>, ok: bool)
      modifies relativeRoughness, crossSection, volumetricFlow, deltaPressure
      ensures c == deltaPressure
      ensures ok <==> old(LossOnRead(math)).Some?
      ensures ok ==> c.val == old(LossOnRead(math)).value
      ensures !ok ==> c.val == old(c.val)
      ensures kind == PipeEdge ==> volumetricFlow.val == old(FlowOnRead())
      ensures kind == PipeEdge ==> crossSection.val == Physics.CircleArea(diameter.val)
      ensures kind == PipeEdge && Physics.RelativeRoughness(roughness.val, diameter.val).Some? ==>
                relativeRoughness.val == Physics.RelativeRoughness(roughness.val, diameter.val).value
      ensures kind == PipeEdge && Physics.RelativeRoughness(roughness.val, diameter.val).None? ==>
                relativeRoughness.val == old(relativeRoughness.val)
      ensures kind == TransportEdge ==> unchanged(relativeRoughness, crossSection, volumetricFlow, deltaPressure)
    {
      c := deltaPressure;
      if kind == TransportEdge {
        ok := true;
        return;
      }
      var speed, density, viscosity := liquid.speed.val, liquid.density.val, liquid.dynamicViscosity.val;
      var re := Physics.Reynolds(speed, diameter.val, density, viscosity);
      var rr, rrOk := GetRelativeRoughness();
      var q := GetVolumetricFlow();
      assert q.val == Physics.CircleArea(diameter.val) * speed;
      ok := false;
      if re.Some? && rrOk {
        var f := Physics.Haaland(math, re.value, rr.val);
        if f.Some? {
          var loss := Physics.PipeLoss(f.value, length.val, q.val, density, diameter.val);
          if loss.Some? {
            deltaPressure.val := loss.value;
            ok := true;
          }
        }
      }
    }

    method SetDiameter(d: Cell<Length>)
      requires kind == PipeEdge
      modifies this
      ensures diameter == d
      ensures length == old(length) && roughness == old(roughness)
      ensures relativeRoughness == old(relativeRoughness) && liquid == old(liquid)
      ensures crossSection == old(crossSection) && massFlow == old(massFlow)
      ensures volumetricFlow == old(volumetricFlow) && deltaPressure == old(deltaPressure)
    {
      diameter := d;
    }

    method SetLength(l: Cell<Length>)
      requires kind == PipeEdge
      modifies this
      ensures length == l
      ensures diameter == old(diameter) && roughness == old(roughness)
      ensures relativeRoughness == old(relativeRoughness) && liquid == old(liquid)
      ensures crossSection == old(crossSection) && massFlow == old(massFlow)
      ensures volumetricFlow == old(volumetricFlow) && deltaPressure == old(deltaPressure)
    {
      length := l;
    }

    method SetRoughness(r: Cell<Length>)
      requires kind == PipeEdge
      modifies this
      ensures roughness == r
      ensures diameter == old(diameter) && length == old(length)
      ensures relativeRoughness == old(relativeRoughness) && liquid == old(liquid)
      ensures crossSection == old(crossSection) && massFlow == old(massFlow)
      ensures volumetricFlow == old(volumetricFlow) && deltaPressure == old(deltaPressure)
    {
      roughness := r;
    }
  }

  /**
   * The pipe the library's tests build, 0.2 m wide and 46 micrometres rough:
   * its cross-section and relative roughness.
   */
  method PipeGeometryScenario() returns (area: real, relative: real)
    ensures Physics.Abs(area - 0.0314159) < 0.000001
    ensures relative == 0.00023
  {
    var water := new Liquid();
    var pipe := new Component.PipeBetween(water);
    pipe.diameter.val := 0.2;
    var a := pipe.GetCrossSection();
    area := a.val;
    pipe.length.val := 20.0;
    pipe.roughness.val := 46.0 * Micrometre;
    var r, ok := pipe.GetRelativeRoughness();
    relative := r.val;
    Physics.PipeFigures();
  }

  /** The same pipe carrying water at 10 m/s: its volumetric and mass flow. */
  method PipeFlowScenario() returns (flow: real, mass: real)
    ensures Physics.Abs(flow - 0.314159) < 0.000001
    ensures Physics.Abs(mass - 314.1589999) < 0.001
  {
    var water := new Liquid();
    var pipe := new Component.PipeBetween(water);
    pipe.diameter.val := 0.2;
    water.speed.val := 10.0;
    var q := pipe.GetVolumetricFlow();
    flow := q.val;
    var m := pipe.GetMassFlow();
    mass := m.val;
    Physics.PipeFigures();
  }

  /** A copied pipe holds the same length in a cell of its own. */
  method PipeCopyScenario() returns (original: real, copied: real, shared: bool)
    ensures original == 20.0 && copied == 20.0
    ensures !shared
  {
    var pipe := new Component.Pipe();
    pipe.length.val := 20.0;
    var pipe2 := new Component.PipeCopy(pipe);
    original, copied := pipe.length.val, pipe2.length.val;
    shared := pipe.length == pipe2.length;
  }
}
