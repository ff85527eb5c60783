/** Sequences cut into equal pieces and joined again. */
module Sequences {
  import opened Arithmetic

  /** All entries but entry `i`. */
  function Without<X>(s: seq<X>, i: nat): (rest: seq<X>)
    requires i < |s|
    ensures |rest| == |s| - 1
  {
    s[..i] + s[i + 1..]
  }

  /** Entry `i` of the sequence cut into pieces of length `n`: `narrow(0, i * n, n)`. */
  function Piece<X>(x: seq<X>, i: nat, n: nat): (p: seq<X>)
    ensures (i + 1) * n <= |x| ==> |p| == n
  {
    MulSucc(i, n);
    if (i + 1) * n <= |x| then x[i * n..(i + 1) * n] else []
  }

  function Join<X>(parts: seq<seq<X>>): seq<X> {
    if parts == [] then [] else parts[0] + Join(parts[1..])
  }

  lemma PieceAt<X>(x: seq<X>, i: nat, n: nat, j: nat)
    requires (i + 1) * n <= |x| && j < n
    ensures i * n + j < |x| && Piece(x, i, n)[j] == x[i * n + j]
  {
    MulSucc(i, n);
  }

  /** Piece `i` of `parts` pieces is inside the sequence. */
  lemma PieceFits(i: nat, parts: nat, n: nat)
    requires i < parts
    ensures (i + 1) * n <= parts * n
  {
    MulLe(i + 1, parts, n);
  }

  lemma SliceOfSlice<X>(x: seq<X>, a: nat, b: nat, c: nat, d: nat)
    requires a <= b <= |x| && c <= d <= b - a
    ensures x[a..b][c..d] == x[a + c..a + d]
  {
    var y := x[a..b];
    assert |y[c..d]| == d - c == |x[a + c..a + d]|;
    assert forall k :: 0 <= k < d - c ==> y[c..d][k] == y[c + k] == x[a + c + k] == x[a + c..a + d][k];
  }

  lemma PieceIndex(r: nat, m: nat, j: nat, n: nat)
    requires j < m
    ensures (r * m + j) * n == r * (m * n) + j * n && j * n + n <= m * n
  {
    MulSucc(j, n);
    PieceFits(j, m, n);
    MulAssoc(r, m, n);
    MulDistribute(r * m, j, n);
  }

  /** `Piece` spelled out with the product named, so that it can be used without multiplying. */
  lemma PieceIs<X>(x: seq<X>, i: nat, n: nat, lo: nat)
    requires lo == i * n && lo + n <= |x|
    ensures Piece(x, i, n) == x[lo..lo + n]
  {
    MulSucc(i, n);
  }

  /** The same with every product named. */
  lemma PieceOfPieceAt<X>(x: seq<X>, r: nat, w: nat, lo: nat, j: nat, n: nat, at: nat, k: nat)
    requires lo == r * w && at == j * n && lo + at == k * n && lo + w <= |x| && at + n <= w
    ensures Piece(Piece(x, r, w), j, n) == Piece(x, k, n)
  {
    PieceIs(x, r, w, lo);
    PieceIs(x, k, n, lo + at);
    var y := x[lo..lo + w];
    PieceIs(y, j, n, at);
    hide Piece;
    SliceOfSlice(x, lo, lo + w, at, at + n);
  }

  /** Cutting into pieces of `m * n` and each of those into `m` pieces is cutting into pieces of `n`. */
  lemma PieceOfPiece<X>(x: seq<X>, r: nat, m: nat, j: nat, n: nat)
    requires (r + 1) * (m * n) <= |x| && j < m
    ensures Piece(Piece(x, r, m * n), j, n) == Piece(x, r * m + j, n)
  {
    hide Piece;
    MulSucc(r, m * n);
    PieceIndex(r, m, j, n);
    PieceOfPieceAt(x, r, m * n, r * (m * n), j, n, j * n, r * m + j);
  }

  lemma {:induction false} JoinLength<X>(parts: seq<seq<X>>, n: nat)
    requires forall c :: 0 <= c < |parts| ==> |parts[c]| == n
    ensures |Join(parts)| == |parts| * n
  {
    if parts != [] {
      JoinLength(parts[1..], n);
      MulSucc(|parts| - 1, n);
    }
  }

  lemma {:induction false} JoinSplit<X>(a: seq<seq<X>>, b: seq<seq<X>>)
    ensures Join(a + b) == Join(a) + Join(b)
  {
    if a == [] {
      assert a + b == b;
    } else {
      assert (a + b)[1..] == a[1..] + b;
      JoinSplit(a[1..], b);
    }
  }

  lemma JoinMiddle<X>(a: seq<seq<X>>, b: seq<seq<X>>, c: seq<seq<X>>)
    ensures |Join(a + (b + c))| >= |Join(a)| + |Join(b)|
    ensures Join(a + (b + c))[|Join(a)|..|Join(a)| + |Join(b)|] == Join(b)
  {
    JoinSplit(a, b + c);
    JoinSplit(b, c);
  }

  /** The parts `lo..hi` of equal length `n` sit at `at..at + w` of the join. */
  lemma JoinPart<X>(parts: seq<seq<X>>, n: nat, lo: nat, hi: nat, at: nat, w: nat)
    requires (forall c :: 0 <= c < |parts| ==> |parts[c]| == n) && lo <= hi <= |parts| && at == lo * n && w == (hi - lo) * n
    ensures at + w <= |Join(parts)| && |Join(parts[lo..hi])| == w && Join(parts)[at..at + w] == Join(parts[lo..hi])
  {
    hide Join;
    var a, b, c := parts[..lo], parts[lo..hi], parts[hi..];
    assert parts == a + (b + c);
    JoinMiddle(a, b, c);
    JoinLength(a, n);
    JoinLength(b, n);
  }

  /** Joining equal parts and cutting a piece of `m` of them gives those parts joined. */
  lemma PieceOfJoin<X>(parts: seq<seq<X>>, n: nat, r: nat, m: nat)
    requires (forall c :: 0 <= c < |parts| ==> |parts[c]| == n) && (r + 1) * m <= |parts|
    ensures Piece(Join(parts), r, m * n) == Join(Piece(parts, r, m))
    ensures |Join(Piece(parts, r, m))| == m * n
  {
    hide Join, Piece;
    MulSucc(r, m);
    MulAssoc(r, m, n);
    var lo, w := r * m, m * n;
    JoinPart(parts, n, lo, lo + m, lo * n, w);
    PieceIs(parts, r, m, lo);
    PieceIs(Join(parts), r, w, lo * n);
  }

  /** Element `o` of part `c` sits at `c * n + o`. */
  lemma {:induction false} JoinAt<X>(parts: seq<seq<X>>, n: nat, c: nat, o: nat)
    requires (forall c :: 0 <= c < |parts| ==> |parts[c]| == n) && c < |parts| && o < n
    ensures c * n + o < |Join(parts)| && Join(parts)[c * n + o] == parts[c][o]
  {
    JoinLength(parts, n);
    MulLe(c + 1, |parts|, n);
    MulSucc(c, n);
    if c > 0 {
      JoinAt(parts[1..], n, c - 1, o);
      MulSucc(c - 1, n);
    }
  }
}
