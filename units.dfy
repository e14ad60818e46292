/**
 * Physical quantities as the library stores them: every quantity lives in its
 * own heap cell, shared by pointer.  The type parameter of `Cell` is a
 * dimension tag, the counterpart of the Boost.Units `quantity<si::...>` types,
 * so two cells of different dimensions are never the same cell.
 */
module Units {

  // Dimension tags (the `si::` units the library uses).
  datatype Length = Length
  datatype Area = Area
  datatype Velocity = Velocity
  datatype Pressure = Pressure
  datatype MassDensity = MassDensity
  datatype DynamicViscosity = DynamicViscosity
  datatype MassFlow = MassFlow
  datatype VolumetricFlow = VolumetricFlow
  datatype Dimensionless = Dimensionless

  /** A separately allocated quantity (`std::shared_ptr<quantity<D>>`). */
  class Cell<D> {
    var val: real

    constructor (v: real)
      ensures val == v
    {
      val := v;
    }
  }

  /** Standard gravity, `si::constants::g`, in m/s^2. */
  const G: real := 9.80665

  /** One micrometre in metres (`si::micrometers`). */
  const Micrometre: real := 0.000001

  /** The C macro `M_PI_4`, pi/4, as written in the C headers. */
  const PiOver4: real := 0.78539816339744830962

  /** Modulus of the 64-bit `size_t` arithmetic. */
  const SizeModulus: int := 0x1_0000_0000_0000_0000

  /**
   * The C math library functions the formulas call.  Their numerical
   * behaviour is not modelled; only the laws below are assumed, and only by
   * the members that state them in a `requires`.
   */
  datatype MathLib = MathLib(sqrt: real -> real, log10: real -> real, pow: (real, real) -> real)

  /** `sqrt(x)` is the non-negative square root for non-negative `x`. */
  ghost predicate SqrtLaw(math: MathLib) {
    forall x: real :: x >= 0.0 ==> math.sqrt(x) >= 0.0 && math.sqrt(x) * math.sqrt(x) == x
  }

  /** `pow(x, y)` is non-negative for a non-negative base. */
  ghost predicate PowLaw(math: MathLib) {
    forall x: real, y: real :: x >= 0.0 ==> math.pow(x, y) >= 0.0
  }

  datatype Option<T> = None | Some(value: T)
}
