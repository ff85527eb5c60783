/** A checkpoint that passes the check holds exactly the matrices the forward needs.

The manifest gives names and shapes; the forward applies matrices to vectors. `LoadsExactly` says that a
block has the manifest's shapes if and only if every one of its matrices is as wide as the vector it is applied
to and as high as the vector it has to put out. */
module CheckpointFits {
  import opened Options
  import opened Arithmetic
  import opened LinearAlgebra
  import opened Llama
  import opened BlockFormula
  import opened Planning
  import opened TensorShards
  import opened ModelForward

  /** A weight read from a tensor of this shape. */
  ghost predicate ReadsAs(m: Matrix, shape: seq<nat>) {
    |shape| == 2 && IsMatrix(m, shape[0], shape[1])
  }

  ghost predicate ReadsAsVector(v: Vec, shape: seq<nat>) {
    |shape| == 1 && |v| == shape[0]
  }

  /** All weights of a block have the shapes that `shape` gives for their names. */
  ghost predicate BlockReads(b: Block, shape: Part -> seq<nat>) {
    && ReadsAs(b.q, shape(Query)) && ReadsAs(b.k, shape(Key)) && ReadsAs(b.v, shape(Value)) && ReadsAs(b.o, shape(Output))
    && ReadsAs(b.gate, shape(Gate)) && ReadsAs(b.up, shape(Up)) && ReadsAs(b.down, shape(Down))
    && ReadsAsVector(b.inputNorm, shape(InputNorm)) && ReadsAsVector(b.postNorm, shape(PostNorm))
  }

  function ManifestShapes(c: Config, d: nat): Part -> seq<nat> {
    (part: Part) => PartShape(c, d, part)
  }

  /** The attention shape of a configuration. */
  function ShapeFor(c: Config, d: nat, scale: real): Shape {
    Shape(c.queryHeads, c.kvHeads, d, scale)
  }

  /** The head width exists exactly when the query heads cut the hidden width and the compact heads the
  query heads into equal parts. */
  lemma HeadDimExact(c: Config, d: nat)
    ensures HeadDim(c) == Some(d) <==>
              && c.queryHeads > 0 && c.kvHeads > 0 && c.hidden == c.queryHeads * d && exists n: nat :: c.queryHeads == c.kvHeads * n
  {
    if HeadDim(c) == Some(d) {
      DivExact(c.hidden, c.queryHeads);
      DivExact(c.queryHeads, c.kvHeads);
      assert c.queryHeads == c.kvHeads * (c.queryHeads / c.kvHeads);
    }
    if n: nat :| c.queryHeads > 0 && c.kvHeads > 0 && c.hidden == c.queryHeads * d && c.queryHeads == c.kvHeads * n {
      MulAssoc(1, d, c.queryHeads);
      DivModUnique(c.hidden, d, 0, c.queryHeads);
      DivModUnique(c.queryHeads, n, 0, c.kvHeads);
    }
  }

  /** The shapes of the manifest are exactly those that the forward of a block needs. */
  lemma LoadsExactly(c: Config, d: nat, scale: real, b: Block)
    requires HeadDim(c) == Some(d)
    ensures BlockReads(b, ManifestShapes(c, d)) <==> BlockFits(ShapeFor(c, d, scale), b, c.hidden, c.intermediate)
    ensures BlockFits(ShapeFor(c, d, scale), b, c.hidden, c.intermediate) ==>
              BlockShapes(ShapeFor(c, d, scale), b, c.hidden, c.intermediate) && KvShaped(ShapeFor(c, d, scale), b)
  {
    HeadDimExact(c, d);
    var n: nat :| c.queryHeads == c.kvHeads * n;
    assert n > 0;
    MulLe(1, n, c.kvHeads);
    hide IsMatrix;
    assert BlockFits(ShapeFor(c, d, scale), b, c.hidden, c.intermediate) ==>
             BlockShapes(ShapeFor(c, d, scale), b, c.hidden, c.intermediate) && KvShaped(ShapeFor(c, d, scale), b) by {
      FitsMeansShapes(ShapeFor(c, d, scale), b, c.hidden, c.intermediate);
    }
  }

  lemma FitsMeansShapes(s: Shape, b: Block, width: nat, inner: nat)
    ensures BlockFits(s, b, width, inner) ==> BlockShapes(s, b, width, inner) && KvShaped(s, b)
  {}

  // ---- whole checkpoints ----

  /** A model whose weights were read from the tensors of a header; with tied embeddings the output head is
  the embedding matrix. */
  ghost predicate ModelReads(c: Config, m: Model, tensors: map<TensorName, TensorInfo>) {
    && |m.blocks| == c.layers
    && Embeddings in tensors && ReadsAs(m.embeddings, tensors[Embeddings].shape)
    && FinalNorm in tensors && ReadsAsVector(m.finalNorm, tensors[FinalNorm].shape)
    && (if c.tied then m.head == m.embeddings else Head in tensors && ReadsAs(m.head, tensors[Head].shape))
    && (forall l, part :: 0 <= l < c.layers ==> Layer(l, part) in tensors)
    && forall l :: 0 <= l < c.layers ==>
         BlockReads(m.blocks[l], (part: Part) => if Layer(l, part) in tensors then tensors[Layer(l, part)].shape else [])
  }

  lemma SameShapes(b: Block, f: Part -> seq<nat>, g: Part -> seq<nat>)
    requires (forall part: Part :: f(part) == g(part)) && BlockReads(b, f)
    ensures BlockReads(b, g)
  {
    hide ReadsAs, ReadsAsVector;
  }

  lemma HeaderGivesShape(c: Config, d: nat, tensors: map<TensorName, TensorInfo>, dtype: nat, l: nat, part: Part)
    requires Matches(c, d, tensors, dtype) && l < c.layers
    ensures Layer(l, part) in tensors && tensors[Layer(l, part)].shape == PartShape(c, d, part)
  {
    assert Named(c, Layer(l, part));
  }

  /** A model that is read from an accepted checkpoint can run: all its matrices fit together, embeddings and
  output head have one row per vocabulary entry, and the formulas of `BlockFormula` apply to it. */
  lemma AcceptedModelRuns(c: Config, d: nat, scale: real, tensors: map<TensorName, TensorInfo>, dtype: nat, m: Model)
    requires HeadDim(c) == Some(d) && Matches(c, d, tensors, dtype) && ModelReads(c, m, tensors)
    ensures ModelFits(ShapeFor(c, d, scale), m, c.hidden) && AllKvShaped(ShapeFor(c, d, scale), m.blocks)
    ensures |m.blocks| == c.layers && |m.embeddings| == |m.head| == c.vocabulary
    ensures forall l :: 0 <= l < c.layers ==> |m.blocks[l].gate| == c.intermediate
  {
    var s := ShapeFor(c, d, scale);
    forall l | 0 <= l < c.layers
      ensures BlockFits(s, m.blocks[l], c.hidden, c.intermediate) && KvShaped(s, m.blocks[l]) && |m.blocks[l].gate| == c.intermediate
    {
      hide Named, ShapeOf, Matches, BlockFits, BlockShapes, KvShaped;
      var f := (part: Part) => if Layer(l, part) in tensors then tensors[Layer(l, part)].shape else [];
      forall part: Part ensures f(part) == ManifestShapes(c, d)(part) {
        HeaderGivesShape(c, d, tensors, dtype, l, part);
      }
      SameShapes(m.blocks[l], f, ManifestShapes(c, d));
      LoadsExactly(c, d, scale, m.blocks[l]);
      GateHigh(s, m.blocks[l], c.hidden, c.intermediate);
    }
    hide BlockFits, KvShaped;
    assert Named(c, Embeddings) && Named(c, FinalNorm) && (!c.tied ==> Named(c, Head));
  }

  lemma GateHigh(s: Shape, b: Block, width: nat, inner: nat)
    requires BlockFits(s, b, width, inner)
    ensures |b.gate| == inner
  {}
}
