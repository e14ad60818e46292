/**
 * The functor the nonlinear solver evaluates: it is sized by its numbers of
 * inputs and values, and writes a candidate solution vector back into the
 * unknown cells of a network.
 */
module Solving {
  import opened Units
  import opened Network

  /** `Eigen::Dynamic`, the size of a vector whose length is only known at run time. */
  const Dynamic: int := -1

  /** `Functor<Scalar, NX, NY>`: the input and value counts the solver asks for. */
  class Functor {
    const inputs: int
    const values: int

    /** `Functor()`: the compile-time sizes, dynamic for the network functor. */
    constructor Default()
      ensures Inputs() == Dynamic && Values() == Dynamic
    {
      inputs := Dynamic;
      values := Dynamic;
    }

    /** `Functor(inputs, values)`. */
    constructor Sized(inputs: int, values: int)
      ensures Inputs() == inputs && Values() == values
    {
      this.inputs := inputs;
      this.values := values;
    }

    /** `inputs()`. */
    function Inputs(): (n: int) {
      inputs
    }

    /** `values()`. */
    function Values(): (n: int) {
      values
    }
  }

  /**
   * The pressure index as `operator()` computes it: `n_speed - j` in
   * `size_t` arithmetic, for `j` running from `n_speed` upwards.
   */
  function WrittenPressureIndex(nSpeed: nat, j: nat): (r: nat)
    requires j >= nSpeed
    requires j - nSpeed < SizeModulus
    ensures r < SizeModulus
    ensures j == nSpeed ==> r == 0
    ensures j > nSpeed ==> r == SizeModulus - (j - nSpeed)
  {
    SizeMinus(nSpeed, j)
  }

  /**
   * The written index stays inside the pressure list for every round of the
   * loop exactly when there is at most one unknown pressure.
   */
  lemma WrittenIndexInBounds(nSpeed: nat, nPressure: nat)
    requires nPressure < SizeModulus
    ensures (forall j :: nSpeed <= j < nSpeed + nPressure ==> WrittenPressureIndex(nSpeed, j) < nPressure)
        <==> nPressure <= 1
  {
    if nPressure > 1 {
      var j := nSpeed + 1;
      assert WrittenPressureIndex(nSpeed, j) == SizeModulus - 1;
    }
  }

  /** With two unknown pressures the second round writes at index 2^64 - 1. */
  lemma SecondPressureOutOfRange()
    ensures WrittenPressureIndex(3, 4) == SizeModulus - 1
    ensures WrittenPressureIndex(3, 4) >= 2
  {
  }

  /** `System_Functor_Base`: a functor over a shared network. */
  class SystemFunctor {
    const functor: Functor
    var system: System

    /** `System_Functor_Base()`: dynamic sizes over an empty network of its own. */
    constructor Default()
      ensures functor.inputs == Dynamic && functor.values == Dynamic
      ensures fresh(system)
      ensures system.Valid() && system.vertices == [] && system.edges == []
      ensures system.unknownSpeeds == [] && system.unknownStaticPressures == []
    {
      functor := new Functor.Default();
      system := new System();
    }

    /** `System_Functor_Base(system)`: dynamic sizes over the given network, shared and not copied. */
    constructor Over(s: System)
      ensures functor.inputs == Dynamic && functor.values == Dynamic
      ensures system == s
    {
      functor := new Functor.Default();
      system := s;
    }

    method SetSystem(s: System)
      modifies this
      ensures system == s
    {
      system := s;
    }

    /**
     * `operator()` as the index is evidently meant, `j - n_speed`: the first
     * `n_speed` entries of `x` go to the unknown speeds and the next
     * `n_pressure` to the unknown pressures, in list order.  The lists
     * themselves are left as they are, and the result is 0.
     */
    method Evaluate(x: seq<real>) returns (r: int)
      requires system.Valid()
      requires |x| >= |system.unknownSpeeds| + |system.unknownStaticPressures|
      modifies system.unknownSpeeds, system.unknownStaticPressures
      ensures r == 0
      ensures forall i :: 0 <= i < |system.unknownSpeeds| ==> system.unknownSpeeds[i].val == x[i]
      ensures forall i :: 0 <= i < |system.unknownStaticPressures| ==>
                system.unknownStaticPressures[i].val == x[|system.unknownSpeeds| + i]
    {
      var speed := system.unknownSpeeds;
      var pressure := system.unknownStaticPressures;
      var nSpeed := |speed|;
      var nPressure := |pressure|;
      var i := 0;
      while i < nSpeed
        invariant 0 <= i <= nSpeed
        invariant forall k :: 0 <= k < i ==> speed[k].val == x[k]
      {
        speed[i].val := x[i];
        i := i + 1;
      }
      var j := nSpeed;
      while j < nSpeed + nPressure
        invariant nSpeed <= j <= nSpeed + nPressure
        invariant forall k :: 0 <= k < nSpeed ==> speed[k].val == x[k]
        invariant forall k :: 0 <= k < j - nSpeed ==> pressure[k].val == x[nSpeed + k]
      {
        pressure[j - nSpeed].val := x[j];
        j := j + 1;
      }
      r := 0;
    }

    /**
     * `operator()` as written, with the pressure index `n_speed - j`: defined
     * only while that index stays in range, that is for at most one unknown
     * pressure, where it agrees with `Evaluate`.
     */
    method EvaluateAsWritten(x: seq<real>) returns (r: int)
      requires system.Valid()
      requires |x| >= |system.unknownSpeeds| + |system.unknownStaticPressures|
      requires |system.unknownStaticPressures| <= 1
      modifies system.unknownSpeeds, system.unknownStaticPressures
      ensures r == 0
      ensures forall i :: 0 <= i < |system.unknownSpeeds| ==> system.unknownSpeeds[i].val == x[i]
      ensures forall i :: 0 <= i < |system.unknownStaticPressures| ==>
                system.unknownStaticPressures[i].val == x[|system.unknownSpeeds| + i]
    {
      var speed := system.unknownSpeeds;
      var pressure := system.unknownStaticPressures;
      var nSpeed := |speed|;
      var nPressure := |pressure|;
      var i := 0;
      while i < nSpeed
        invariant 0 <= i <= nSpeed
        invariant forall k :: 0 <= k < i ==> speed[k].val == x[k]
      {
        speed[i].val := x[i];
        i := i + 1;
      }
      var j := nSpeed;
      while j < nSpeed + nPressure
        invariant nSpeed <= j <= nSpeed + nPressure
        invariant forall k :: 0 <= k < nSpeed ==> speed[k].val == x[k]
        invariant j > nSpeed ==> pressure[0].val == x[nSpeed]
      {
        pressure[WrittenPressureIndex(nSpeed, j)].val := x[j];
        j := j + 1;
      }
      r := 0;
    }
  }
}
