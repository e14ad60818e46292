/**
 * The pipe network: a directed multigraph whose vertices hold liquids and
 * whose edges hold components, and the four lists of known and unknown node
 * speeds and static pressures that the solver works on.  Vertices are
 * numbered in insertion order; an edge records the numbers of its endpoints.
 */
module Network {
  import opened Units
  import opened Liquids
  import opened Components
  import opened Unknowns

  datatype Edge = Edge(source: nat, target: nat, component: Component)

  /** The position of the first edge from `u` to `v`, the one the graph lookup finds. */
  function FirstEdge(edges: seq<Edge>, u: nat, v: nat): (i: nat)
    requires exists k :: 0 <= k < |edges| && edges[k].source == u && edges[k].target == v
    ensures i < |edges| && edges[i].source == u && edges[i].target == v
    ensures forall k :: 0 <= k < i ==> !(edges[k].source == u && edges[k].target == v)
  {
    if edges[0].source == u && edges[0].target == v then 0
    else
      assert exists k :: 0 <= k < |edges[1..]| && edges[1..][k].source == u && edges[1..][k].target == v by {
        var k :| 0 <= k < |edges| && edges[k].source == u && edges[k].target == v;
        assert edges[1..][k - 1] == edges[k];
      }
      1 + FirstEdge(edges[1..], u, v)
  }

  /** `size_t` subtraction: the difference modulo 2^64. */
  function SizeMinus(a: nat, b: nat): (r: nat)
    ensures r < SizeModulus
    ensures a >= b && a - b < SizeModulus ==> r == a - b
    ensures a < b && b - a <= SizeModulus ==> r == SizeModulus - (b - a)
  {
    (a - b) % SizeModulus
  }

  class System {
    var vertices: seq<Liquid>
    var edges: seq<Edge>
    var knownSpeeds: seq<Cell<Velocity>>
    var unknownSpeeds: seq<Cell<Velocity>>
    var knownStaticPressures: seq<Cell<Pressure>>
    var unknownStaticPressures: seq<Cell<Pressure>>

    /**
     * Every edge joins two existing vertices, no list repeats a cell, and no
     * cell is both known and unknown.
     */
    ghost predicate Valid()
      reads this
    {
      (forall e :: e in edges ==> e.source < |vertices| && e.target < |vertices|) &&
      Distinct(knownSpeeds) && Distinct(unknownSpeeds) && Disjoint(knownSpeeds, unknownSpeeds) &&
      Distinct(knownStaticPressures) && Distinct(unknownStaticPressures) &&
      Disjoint(knownStaticPressures, unknownStaticPressures)
    }

    /** `System()`: no vertices, no edges, nothing known or unknown. */
    constructor ()
      ensures Valid()
      ensures vertices == [] && edges == []
      ensures knownSpeeds == [] && unknownSpeeds == []
      ensures knownStaticPressures == [] && unknownStaticPressures == []
    {
      vertices := [];
      edges := [];
      knownSpeeds := [];
      unknownSpeeds := [];
      knownStaticPressures := [];
      unknownStaticPressures := [];
    }

    /**
     * `System(liquid, n)`: `n` vertices, each holding its own copy of
     * `liquid`, whose speed and static pressure cells are all unknown, in
     * vertex order.
     */
    constructor Uniform(liquid: Liquid, n: nat)
      ensures Valid()
      ensures |vertices| == n && edges == []
      ensures forall i :: 0 <= i < n ==> Independent(vertices[i]) && vertices[i].State() == liquid.State()
      ensures forall i :: 0 <= i < n ==> fresh(vertices[i].speed) && fresh(vertices[i].staticPressure)
      ensures forall i, j :: 0 <= i < j < n ==> vertices[i] != vertices[j] && Apart(vertices[i], vertices[j])
      ensures knownSpeeds == [] && knownStaticPressures == []
      ensures |unknownSpeeds| == n && |unknownStaticPressures| == n
      ensures forall i :: 0 <= i < n ==> unknownSpeeds[i] == vertices[i].speed
      ensures forall i :: 0 <= i < n ==> unknownStaticPressures[i] == vertices[i].staticPressure
    {
      // The vertex list and the unknown lists grow together, one vertex per round.
      var vs: seq<Liquid> := [];
      var speeds: seq<Cell<Velocity>> := [];
      var pressures: seq<Cell<Pressure>> := [];
      var i := 0;
      while i < n
        invariant 0 <= i <= n
        invariant |vs| == i && |speeds| == i && |pressures| == i
        invariant forall k :: 0 <= k < i ==> Independent(vs[k]) && vs[k].State() == liquid.State()
        invariant forall k, j :: 0 <= k < j < i ==> vs[k] != vs[j] && Apart(vs[k], vs[j])
        invariant forall k :: 0 <= k < i ==> speeds[k] == vs[k].speed
        invariant forall k :: 0 <= k < i ==> pressures[k] == vs[k].staticPressure
        invariant Distinct(speeds) && Distinct(pressures)
      {
        label before:
        var copy := new Liquid.Copy(liquid);
        forall k | 0 <= k < i
          ensures Apart(vs[k], copy)
        {
          IndependentIsApart@before(vs[k], copy);
        }
        vs := vs + [copy];
        speeds := speeds + [copy.speed];
        pressures := pressures + [copy.staticPressure];
        i := i + 1;
      }
      vertices := vs;
      edges := [];
      knownSpeeds := [];
      unknownSpeeds := speeds;
      knownStaticPressures := [];
      unknownStaticPressures := pressures;
    }

    /**
     * `add_FluidComponent(c, u, v)`: one more edge from `u` to `v` carrying
     * `c`, and `c` now reads the liquid of vertex `u`, shared and not copied.
     */
    method AddFluidComponent(c: Component, u: nat, v: nat)
      requires Valid()
      requires u < |vertices| && v < |vertices|
      modifies this, c
      ensures Valid()
      ensures edges == old(edges) + [Edge(u, v, c)]
      ensures c.liquid == vertices[u]
      ensures vertices == old(vertices)
      ensures knownSpeeds == old(knownSpeeds) && unknownSpeeds == old(unknownSpeeds)
      ensures knownStaticPressures == old(knownStaticPressures)
      ensures unknownStaticPressures == old(unknownStaticPressures)
      ensures c.crossSection == old(c.crossSection) && c.massFlow == old(c.massFlow)
      ensures c.volumetricFlow == old(c.volumetricFlow) && c.deltaPressure == old(c.deltaPressure)
      ensures c.diameter == old(c.diameter) && c.length == old(c.length) && c.roughness == old(c.roughness)
      ensures c.relativeRoughness == old(c.relativeRoughness)
    {
      c.SetLiquid(vertices[u]);
      edges := edges + [Edge(u, v, c)];
    }

    /** `Get_Liquid(u)`: the liquid held by vertex `u`. */
    method GetLiquid(u: nat) returns (l: Liquid)
      requires u < |vertices|
      ensures l == vertices[u]
    {
      l := vertices[u];
    }

    /** `Get_Component(u, v)`: the component on the first edge from `u` to `v`. */
    method GetComponent(u: nat, v: nat) returns (c: Component)
      requires exists k :: 0 <= k < |edges| && edges[k].source == u && edges[k].target == v
      ensures c == edges[FirstEdge(edges, u, v)].component
    {
      var i := 0;
      while !(edges[i].source == u && edges[i].target == v)
        invariant 0 <= i <= FirstEdge(edges, u, v)
        decreases FirstEdge(edges, u, v) - i
      {
        i := i + 1;
      }
      c := edges[i].component;
    }

    /**
     * `Set_Known_Speed(u, s)`: vertex `u`'s speed becomes `s` and its cell
     * moves from the unknown to the known speeds; the pressure lists stay.
     */
    method SetKnownSpeed(u: nat, s: real)
      requires Valid()
      requires u < |vertices|
      modifies this, vertices[u].speed
      ensures Valid()
      ensures vertices == old(vertices) && edges == old(edges)
      ensures vertices[u].speed.val == s
      ensures Lists(knownSpeeds, unknownSpeeds)
           == Reclassified(old(knownSpeeds), old(unknownSpeeds), vertices[u].speed)
      ensures knownStaticPressures == old(knownStaticPressures)
      ensures unknownStaticPressures == old(unknownStaticPressures)
    {
      var l := GetLiquid(u);
      ReclassifiedDistinct(knownSpeeds, unknownSpeeds, l.speed);
      ReclassifiedDisjoint(knownSpeeds, unknownSpeeds, l.speed);
      knownSpeeds, unknownSpeeds := SetKnown(l.speed, s, knownSpeeds, unknownSpeeds);
    }

    /**
     * `Set_Known_Static_Pressure(u, p)`: vertex `u`'s static pressure becomes
     * `p` and its cell moves from the unknown to the known pressures; the
     * speed lists stay.
     */
    method SetKnownStaticPressure(u: nat, p: real)
      requires Valid()
      requires u < |vertices|
      modifies this, vertices[u].staticPressure
      ensures Valid()
      ensures vertices == old(vertices) && edges == old(edges)
      ensures vertices[u].staticPressure.val == p
      ensures Lists(knownStaticPressures, unknownStaticPressures)
           == Reclassified(old(knownStaticPressures), old(unknownStaticPressures), vertices[u].staticPressure)
      ensures knownSpeeds == old(knownSpeeds) && unknownSpeeds == old(unknownSpeeds)
    {
      var l := GetLiquid(u);
      ReclassifiedDistinct(knownStaticPressures, unknownStaticPressures, l.staticPressure);
      ReclassifiedDisjoint(knownStaticPressures, unknownStaticPressures, l.staticPressure);
      knownStaticPressures, unknownStaticPressures :=
        SetKnown(l.staticPressure, p, knownStaticPressures, unknownStaticPressures);
    }

    /**
     * `n_unknowns`: the number of unknown speeds plus unknown pressures,
     * minus two, in `size_t` arithmetic.
     */
    function NUnknowns(): (n: nat)
      reads this
      ensures n < SizeModulus
      ensures 2 <= |unknownSpeeds| + |unknownStaticPressures| < SizeModulus ==>
                n + 2 == |unknownSpeeds| + |unknownStaticPressures|
      ensures |unknownSpeeds| + |unknownStaticPressures| < 2 ==>
                n == SizeModulus - 2 + |unknownSpeeds| + |unknownStaticPressures|
    {
      SizeMinus(|unknownSpeeds| + |unknownStaticPressures|, 2)
    }
  }

  /** Two different unknowns becoming known one after the other. */
  lemma ReclassifyPair<T>(a: T, b: T)
    requires a != b
    ensures Reclassified([], [a, b], a) == Lists([a], [b])
    ensures Reclassified([a], [b], b) == Lists([a, b], [])
  {
    assert [a, b][1..] == [b] && [b][1..] == [];
    assert RemoveAll([b], a) == [b] + RemoveAll([], a);
    assert RemoveAll([a, b], a) == RemoveAll([b], a);
    assert RemoveAll([b], b) == RemoveAll([], b);
  }

  /** The speeds of both nodes of a two-node network become known, the first node first. */
  method KnowBothSpeeds(sys: System, s: real)
    requires sys.Valid() && |sys.vertices| == 2
    requires sys.knownSpeeds == [] && sys.unknownSpeeds == [sys.vertices[0].speed, sys.vertices[1].speed]
    modifies sys, sys.vertices[0].speed, sys.vertices[1].speed
    ensures sys.Valid() && sys.vertices == old(sys.vertices) && sys.edges == old(sys.edges)
    ensures sys.knownSpeeds == old(sys.unknownSpeeds) && sys.unknownSpeeds == []
    ensures sys.vertices[0].speed.val == s && sys.vertices[1].speed.val == s
    ensures sys.knownStaticPressures == old(sys.knownStaticPressures)
    ensures sys.unknownStaticPressures == old(sys.unknownStaticPressures)
  {
    ghost var s0, s1 := sys.vertices[0].speed, sys.vertices[1].speed;
    assert sys.unknownSpeeds[0] != sys.unknownSpeeds[1];
    ReclassifyPair(s0, s1);
    sys.SetKnownSpeed(0, s);
    sys.SetKnownSpeed(1, s);
  }

  /** The static pressures of both nodes of a two-node network become known, the first node first. */
  method KnowBothStaticPressures(sys: System, p0: real, p1: real)
    requires sys.Valid() && |sys.vertices| == 2
    requires sys.knownStaticPressures == []
    requires sys.unknownStaticPressures == [sys.vertices[0].staticPressure, sys.vertices[1].staticPressure]
    modifies sys, sys.vertices[0].staticPressure, sys.vertices[1].staticPressure
    ensures sys.Valid() && sys.vertices == old(sys.vertices) && sys.edges == old(sys.edges)
    ensures sys.knownStaticPressures == old(sys.unknownStaticPressures) && sys.unknownStaticPressures == []
    ensures sys.vertices[0].staticPressure.val == p0 && sys.vertices[1].staticPressure.val == p1
    ensures sys.knownSpeeds == old(sys.knownSpeeds) && sys.unknownSpeeds == old(sys.unknownSpeeds)
  {
    ghost var q0, q1 := sys.vertices[0].staticPressure, sys.vertices[1].staticPressure;
    assert sys.unknownStaticPressures[0] != sys.unknownStaticPressures[1];
    ReclassifyPair(q0, q1);
    sys.SetKnownStaticPressure(0, p0);
    sys.SetKnownStaticPressure(1, p1);
  }

  /** Two nodes holding copies of standard water, every node quantity still unknown. */
  method TwoWaterNodes() returns (sys: System)
    ensures fresh(sys) && sys.Valid()
    ensures |sys.vertices| == 2 && sys.edges == []
    ensures sys.vertices[0].State() == StandardWater && sys.vertices[1].State() == StandardWater
    ensures fresh(sys.vertices[0].speed) && fresh(sys.vertices[1].speed)
    ensures fresh(sys.vertices[0].staticPressure) && fresh(sys.vertices[1].staticPressure)
    ensures sys.knownSpeeds == [] && sys.unknownSpeeds == [sys.vertices[0].speed, sys.vertices[1].speed]
    ensures sys.knownStaticPressures == []
    ensures sys.unknownStaticPressures == [sys.vertices[0].staticPressure, sys.vertices[1].staticPressure]
  {
    var water := new Liquid();
    sys := new System.Uniform(water, 2);
  }

  /** Node 0 and node 1 joined by a pipe of 0.2 m diameter, 10 m length and 46 um roughness. */
  method JoinByPipe(sys: System) returns (p0: Component)
    requires sys.Valid() && |sys.vertices| == 2
    modifies sys
    ensures sys.vertices == old(sys.vertices)
    ensures fresh(p0) && p0.kind == PipeEdge && p0.liquid == sys.vertices[0]
    ensures p0.Shape() == Geometry(0.2, 10.0, 46.0 * Micrometre, 0.0)
    ensures sys.Valid() && sys.edges == old(sys.edges) + [Edge(0, 1, p0)]
    ensures sys.knownSpeeds == old(sys.knownSpeeds) && sys.unknownSpeeds == old(sys.unknownSpeeds)
    ensures sys.knownStaticPressures == old(sys.knownStaticPressures)
    ensures sys.unknownStaticPressures == old(sys.unknownStaticPressures)
  {
    p0 := new Component.PipeSized(0.2, 10.0, 46.0 * Micrometre);
    sys.AddFluidComponent(p0, 0, 1);
  }

  /**
   * The two-node network of the library's tests: once both speeds and both
   * static pressures are known, nothing is unknown and the count of unknowns
   * wraps round to 2^64 - 2.
   */
  method SimpleSystemScenario() returns (known: nat, unknown: nat, count: nat)
    ensures known == 4 && unknown == 0
    ensures count == SizeModulus - 2
  {
    var sys := TwoWaterNodes();
    var p0 := JoinByPipe(sys);
    KnowBothSpeeds(sys, 2.0);
    KnowBothStaticPressures(sys, 200000.0, 198300.0);
    known := |sys.knownSpeeds| + |sys.knownStaticPressures|;
    unknown := |sys.unknownSpeeds| + |sys.unknownStaticPressures|;
    count := sys.NUnknowns();
  }
}
