/** Elementwise arithmetic on states, as NumPy performs it on the rows of the
    state buffer: a state of dimension D is a sequence of D reals (a scalar
    state is a sequence of length one). Arithmetic is exact. */
module Vectors {

  type Vector = seq<real>

  /** The vector of dimension `d` whose every component is `x`. */
  function Fill(d: nat, x: real): (v: Vector)
    ensures |v| == d
    ensures forall i :: 0 <= i < d ==> v[i] == x
  {
    seq(d, _ => x)
  }

  /** The zero vector of dimension `d`, what `np.zeros` puts in every row. */
  function Zeros(d: nat): (z: Vector)
    ensures |z| == d
    ensures forall i :: 0 <= i < d ==> z[i] == 0.0
  {
    Fill(d, 0.0)
  }

  /** Componentwise sum `u + v` of two vectors of the same dimension. */
  function Add(u: Vector, v: Vector): (w: Vector)
    requires |u| == |v|
    ensures |w| == |u|
    ensures forall i :: 0 <= i < |w| ==> w[i] == u[i] + v[i]
  {
    seq(|u|, i requires 0 <= i < |u| => u[i] + v[i])
  }

  /** The product `c * v` of a scalar and a vector. */
  function Scale(c: real, v: Vector): (w: Vector)
    ensures |w| == |v|
    ensures forall i :: 0 <= i < |w| ==> w[i] == c * v[i]
  {
    seq(|v|, i requires 0 <= i < |v| => c * v[i])
  }
}
