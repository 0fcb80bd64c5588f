/** A multi-dimensional capacity (demand) vector: one integer quantity per resource axis.
    Axes past the end of a vector read as zero, so the empty vector is the zero (default)
    capacity and vectors of different lengths combine as if padded with zeros. */
module Capacity {

  type Load = seq<int>

  /** The quantity on axis `k`; zero past the end of the vector. */
  function Component(c: Load, k: nat): int
  {
    if k < |c| then c[k] else 0
  }

  function MaxLen(a: Load, b: Load): nat
  {
    if |a| < |b| then |b| else |a|
  }

  /** The default capacity. */
  function Zero(): (z: Load)
    ensures forall k: nat :: Component(z, k) == 0
  {
    []
  }

  /** Componentwise addition. */
  function Add(a: Load, b: Load): (r: Load)
    ensures forall k: nat :: Component(r, k) == Component(a, k) + Component(b, k)
  {
    seq(MaxLen(a, b), k requires 0 <= k < MaxLen(a, b) => Component(a, k) + Component(b, k))
  }

  /** Componentwise subtraction. */
  function Sub(a: Load, b: Load): (r: Load)
    ensures forall k: nat :: Component(r, k) == Component(a, k) - Component(b, k)
  {
    seq(MaxLen(a, b), k requires 0 <= k < MaxLen(a, b) => Component(a, k) - Component(b, k))
  }

  /** Equality with the default capacity. */
  function IsZero(c: Load): (b: bool)
    ensures b <==> forall k: nat :: Component(c, k) == 0
  {
    forall k: nat :: k < |c| ==> Component(c, k) == 0
  }

  /** The total of axis `k` over a list of capacities. */
  ghost function AxisSum(loads: seq<Load>, k: nat): int
  {
    if loads == [] then 0 else Component(loads[0], k) + AxisSum(loads[1..], k)
  }

  /** The sum of a list of capacities, starting from the default. */
  function Sum(loads: seq<Load>): (r: Load)
    ensures forall k: nat :: Component(r, k) == AxisSum(loads, k)
  {
    if loads == [] then Zero() else Add(loads[0], Sum(loads[1..]))
  }
}
