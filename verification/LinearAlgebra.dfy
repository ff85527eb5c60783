/** Vectors and matrices over exact reals: the meaning of the tensor kernels the models are built from. */
module LinearAlgebra {
  import opened Arithmetic
  import opened Sequences

  type Vec = seq<real>
  type Matrix = seq<Vec>  // a weight [out, in] is the sequence of its rows

  function Min(a: nat, b: nat): nat { if a < b then a else b }

  function Dot(a: Vec, b: Vec): real {
    if a == [] || b == [] then 0.0 else a[0] * b[0] + Dot(a[1..], b[1..])
  }

  /** A bias-free linear layer: row `o` of the weight gives output feature `o`. */
  function Linear(weight: Matrix, x: Vec): (y: Vec)
    ensures |y| == |weight|
  {
    seq(|weight|, o requires 0 <= o < |weight| => Dot(weight[o], x))
  }

  function Add(a: Vec, b: Vec): (c: Vec)
    ensures |c| == Min(|a|, |b|)
  {
    seq(Min(|a|, |b|), i requires 0 <= i < Min(|a|, |b|) => a[i] + b[i])
  }

  function Times(a: Vec, b: Vec): (c: Vec)
    ensures |c| == Min(|a|, |b|)
  {
    seq(Min(|a|, |b|), i requires 0 <= i < Min(|a|, |b|) => a[i] * b[i])
  }

  function Map(f: real -> real, a: Vec): (b: Vec)
    ensures |b| == |a|
  {
    seq(|a|, i requires 0 <= i < |a| => f(a[i]))
  }

  lemma {:induction false} DotAppend(a: Vec, b: Vec, c: Vec, d: Vec)
    requires |a| == |c|
    ensures Dot(a + b, c + d) == Dot(a, c) + Dot(b, d)
  {
    if a == [] {
      assert a + b == b && c + d == d;
    } else {
      assert (a + b)[1..] == a[1..] + b && (c + d)[1..] == c[1..] + d;
      DotAppend(a[1..], b, c[1..], d);
    }
  }

  lemma LinearOfPiece(weight: Matrix, x: Vec, r: nat, n: nat)
    requires (r + 1) * n <= |weight|
    ensures Linear(Piece(weight, r, n), x) == Piece(Linear(weight, x), r, n)
  {
    MulSucc(r, n);
  }
}
