/** Host-engine vectors (FVector, FRotator) as the wrapper sees them.

    A component is either a finite value, modelled exactly as a mathematical
    real, or NaN. NaN propagates through arithmetic, and every ordered
    comparison with NaN is false, as in IEEE-754; that is what makes a NaN
    pose "invisible" to the trace threshold test. Rounding and infinities are
    not modelled. */
module HostGeometry {

  /** One host coordinate. */
  datatype Scalar = Num(value: real) | NaN

  function Plus(a: Scalar, b: Scalar): Scalar
  {
    if a.Num? && b.Num? then Num(a.value + b.value) else NaN
  }

  function Minus(a: Scalar, b: Scalar): Scalar
  {
    if a.Num? && b.Num? then Num(a.value - b.value) else NaN
  }

  function Times(a: Scalar, b: Scalar): Scalar
  {
    if a.Num? && b.Num? then Num(a.value * b.value) else NaN
  }

  /** `a > bound` as the host evaluates it: false whenever `a` is NaN. */
  predicate GreaterThan(a: Scalar, bound: real)
  {
    a.Num? && a.value > bound
  }

  /** A position, displacement or extent in host scene units (centimetres). */
  datatype Vector = Vector(x: Scalar, y: Scalar, z: Scalar)

  /** An orientation in the host frame, opaque to the wrapper: the rotator
      read from the pawn at initialize, or the quaternion a pose is converted
      to before it is committed. The wrapper never computes with it; it only
      stores it and hands it back to the host. Its three components stand for
      whichever representation the host uses. */
  datatype Rotation = Rotation(pitch: Scalar, yaw: Scalar, roll: Scalar)

  const ZeroVector: Vector := Vector(Num(0.0), Num(0.0), Num(0.0))

  function Add(a: Vector, b: Vector): Vector
  {
    Vector(Plus(a.x, b.x), Plus(a.y, b.y), Plus(a.z, b.z))
  }

  function Sub(a: Vector, b: Vector): Vector
  {
    Vector(Minus(a.x, b.x), Minus(a.y, b.y), Minus(a.z, b.z))
  }

  function SizeSquared(v: Vector): Scalar
  {
    Plus(Plus(Times(v.x, v.x), Times(v.y, v.y)), Times(v.z, v.z))
  }

  predicate HasNan(v: Vector)
  {
    v.x.NaN? || v.y.NaN? || v.z.NaN?
  }

  /** The squared distance, in host units, a trail must grow by before the
      wrapper draws another trace segment. */
  const TraceStepSquared: real := 0.25

  /** The wrapper's trace test `(from - to).SizeSquared() > 0.25`. */
  predicate MovedBeyondTraceStep(from: Vector, to: Vector)
  {
    GreaterThan(SizeSquared(Sub(from, to)), TraceStepSquared)
  }

  /** Squared Euclidean distance between two finite points, as a real. */
  function DistanceSquared(a: Vector, b: Vector): (d: real)
    requires !HasNan(a) && !HasNan(b)
    ensures d >= 0.0
    ensures a == b ==> d == 0.0
  {
    var dx := a.x.value - b.x.value;
    var dy := a.y.value - b.y.value;
    var dz := a.z.value - b.z.value;
    assert dx * dx >= 0.0 && dy * dy >= 0.0 && dz * dz >= 0.0;
    dx * dx + dy * dy + dz * dz
  }

  /** For finite points the trace test is exactly "the points are more than
      half a host unit apart"; a NaN on either side fails the test. */
  lemma TraceStepMeaning(from: Vector, to: Vector)
    ensures HasNan(from) || HasNan(to) ==> !MovedBeyondTraceStep(from, to)
    ensures !HasNan(from) && !HasNan(to) ==>
              (MovedBeyondTraceStep(from, to) <==> DistanceSquared(from, to) > TraceStepSquared)
  {
  }

  /** A point never moves beyond the trace step from itself. */
  lemma NoTraceStepInPlace(p: Vector)
    ensures !MovedBeyondTraceStep(p, p)
  {
    if !HasNan(p) {
      TraceStepMeaning(p, p);
    }
  }

  /** Subtracting an offset taken as `a - b` from `a` lands on `b`: the
      identity that aligns the debug overlay with the primary trail. */
  lemma SubtractDifference(a: Vector, b: Vector)
    requires !HasNan(a) && !HasNan(b)
    ensures Sub(a, Sub(a, b)) == b
  {
  }
}
