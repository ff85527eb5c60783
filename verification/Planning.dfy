/** Parameter and cache-byte counts. The checkpoint manifest, the component breakdown, the pipeline
stages and the tensor shards each count the same model with their own formulas; the lemmas say how
the counts agree. Counts are unbounded here; only the manifest fold reports u64 overflow. */
module Planning {
  import opened Options
  import opened Arithmetic
  import opened Tags
  import opened Partition
  import opened KvCaches

  datatype Config = Config(vocabulary: nat, hidden: nat, intermediate: nat, layers: nat, queryHeads: nat, kvHeads: nat, tied: bool)

  datatype PlanError = InvalidHeads | RankOutside | Indivisible | WrongDtype | ManifestMismatch | CountOverflow | CountMismatch

  /** `head_dim`: the width of a head when query heads divide the hidden width and KV heads divide query heads. */
  function HeadDim(c: Config): Option<nat> {
    if c.queryHeads == 0 || c.hidden % c.queryHeads != 0 then None
    else if c.kvHeads == 0 || c.queryHeads % c.kvHeads != 0 then None
    else Some(c.hidden / c.queryHeads)
  }

  // ---- the checkpoint manifest ----

  datatype Part = Query | Key | Value | Output | Gate | Up | Down | InputNorm | PostNorm

  /** The names a checkpoint can list; `Other` stands for every name the model does not have. */
  datatype TensorName = Embeddings | FinalNorm | Head | Layer(layer: nat, part: Part) | Other(name: string)

  const PARTS: seq<Part> := [Query, Key, Value, Output, Gate, Up, Down, InputNorm, PostNorm]

  function PartShape(c: Config, d: nat, part: Part): seq<nat> {
    match part
    case Query => [c.hidden, c.hidden]
    case Key => [c.kvHeads * d, c.hidden]
    case Value => [c.kvHeads * d, c.hidden]
    case Output => [c.hidden, c.hidden]
    case Gate => [c.intermediate, c.hidden]
    case Up => [c.intermediate, c.hidden]
    case Down => [c.hidden, c.intermediate]
    case InputNorm => [c.hidden]
    case PostNorm => [c.hidden]
  }

  predicate Named(c: Config, name: TensorName) {
    match name
    case Embeddings => true
    case FinalNorm => true
    case Head => !c.tied
    case Layer(layer, _) => layer < c.layers
    case Other(_) => false
  }

  function ShapeOf(c: Config, d: nat, name: TensorName): seq<nat> {
    match name
    case Embeddings => [c.vocabulary, c.hidden]
    case FinalNorm => [c.hidden]
    case Head => [c.vocabulary, c.hidden]
    case Layer(_, part) => PartShape(c, d, part)
    case Other(_) => []
  }

  /** `expected_tensor_shapes`: exactly the named tensors, with their shapes. */
  method ExpectedTensorShapes(c: Config) returns (result: Result<map<TensorName, seq<nat>>, PlanError>)
    ensures HeadDim(c).None? <==> result == Err(InvalidHeads)
    ensures HeadDim(c).Some? ==>
              && result.Ok? && (forall name :: name in result.value <==> Named(c, name))
              && (forall name :: name in result.value ==> result.value[name] == ShapeOf(c, HeadDim(c).value, name))
  {
    var headDim := HeadDim(c);
    if headDim.None? {
      return Err(InvalidHeads);
    }
    var d := headDim.value;
    var tensors: map<TensorName, seq<nat>> := map[Embeddings := [c.vocabulary, c.hidden], FinalNorm := [c.hidden]];
    if !c.tied {
      tensors := tensors[Head := [c.vocabulary, c.hidden]];
    }
    for layer := 0 to c.layers
      invariant forall name: TensorName :: name in tensors <==> Named(c, name) && (name.Layer? ==> name.layer < layer)
      invariant forall name :: name in tensors ==> tensors[name] == ShapeOf(c, d, name)
    {
      for p := 0 to |PARTS|
        invariant forall name: TensorName :: name in tensors <==>
                    Named(c, name) && (name.Layer? ==> name.layer < layer || (name.layer == layer && name.part in PARTS[..p]))
        invariant forall name :: name in tensors ==> tensors[name] == ShapeOf(c, d, name)
      {
        assert PARTS[..p + 1] == PARTS[..p] + [PARTS[p]];
        tensors := tensors[Layer(layer, PARTS[p]) := PartShape(c, d, PARTS[p])];
      }
      AllParts();
    }
    return Ok(tensors);
  }

  function PartIndex(part: Part): (p: nat)
    ensures p < |PARTS| && PARTS[p] == part
  {
    match part
    case Query => 0
    case Key => 1
    case Value => 2
    case Output => 3
    case Gate => 4
    case Up => 5
    case Down => 6
    case InputNorm => 7
    case PostNorm => 8
  }

  lemma AllParts()
    ensures forall part: Part :: part in PARTS[..|PARTS|]
  {
    assert PARTS[..|PARTS|] == PARTS;
    forall part: Part ensures part in PARTS {
      assert PARTS[PartIndex(part)] == part;
    }
  }

  // ---- counting a manifest ----

  function Volume(shape: seq<nat>): nat {
    if shape == [] then 1 else Volume(shape[..|shape| - 1]) * shape[|shape| - 1]
  }

  function Volumes(c: Config, d: nat, names: seq<TensorName>): nat {
    if names == [] then 0 else Volume(ShapeOf(c, d, names[0])) + Volumes(c, d, names[1..])
  }

  lemma {:induction false} VolumesSplit(c: Config, d: nat, a: seq<TensorName>, b: seq<TensorName>)
    ensures Volumes(c, d, a + b) == Volumes(c, d, a) + Volumes(c, d, b)
  {
    if a == [] {
      assert a + b == b;
    } else {
      assert (a + b)[1..] == a[1..] + b;
      VolumesSplit(c, d, a[1..], b);
    }
  }

  ghost predicate NoRepeats(names: seq<TensorName>) {
    forall i, j :: 0 <= i < j < |names| ==> names[i] != names[j]
  }

  lemma WithoutOne(c: Config, d: nat, b: seq<TensorName>, i: nat)
    requires i < |b|
    ensures Volumes(c, d, b) == Volume(ShapeOf(c, d, b[i])) + Volumes(c, d, b[..i] + b[i + 1..])
  {
    var before, after := b[..i], b[i + 1..];
    assert b == before + ([b[i]] + after);
    VolumesSplit(c, d, before, [b[i]] + after);
    VolumesSplit(c, d, before, after);
    assert ([b[i]] + after)[1..] == after;
    hide Volumes, Volume;
  }

  lemma NamesWithoutOne(b: seq<TensorName>, i: nat)
    requires NoRepeats(b) && i < |b|
    ensures NoRepeats(b[..i] + b[i + 1..])
    ensures forall name :: name in b[..i] + b[i + 1..] <==> name in b && name != b[i]
  {
    var rest := b[..i] + b[i + 1..];
    assert forall j :: 0 <= j < |rest| ==> rest[j] == if j < i then b[j] else b[j + 1];
    forall name | name in b && name != b[i] ensures name in rest {
      var j :| 0 <= j < |b| && b[j] == name;
      assert rest[if j < i then j else j - 1] == name;
    }
  }

  lemma HeadIn(names: seq<TensorName>)
    ensures names == [] || names[0] in names
  {}

  /** The order in which the tensors are visited does not matter. */
  lemma {:induction false} AnyOrder(c: Config, d: nat, a: seq<TensorName>, b: seq<TensorName>)
    requires NoRepeats(a) && NoRepeats(b) && forall name :: name in a <==> name in b
    ensures Volumes(c, d, a) == Volumes(c, d, b)
  {
    hide ShapeOf, Volume, Volumes, NoRepeats;
    HeadIn(b);
    if a != [] {
      assert a[0] in b;
      var i :| 0 <= i < |b| && b[i] == a[0];
      WithoutOne(c, d, a, 0);
      WithoutOne(c, d, b, i);
      NamesWithoutOne(a, 0);
      NamesWithoutOne(b, i);
      var restA, restB := a[..0] + a[1..], b[..i] + b[i + 1..];
      forall name ensures name in restA <==> name in restB {
        assert name in a <==> name in b;
      }
      AnyOrder(c, d, restA, restB);
    }
  }

  /** All names, layer by layer. */
  function LayerNames(layers: nat): (names: seq<TensorName>)
    ensures |names| == layers * |PARTS|
  {
    if layers == 0 then [] else LayerNames(layers - 1) + OneLayer(layers - 1)
  }

  function OneLayer(layer: nat): seq<TensorName> {
    seq(|PARTS|, p requires 0 <= p < |PARTS| => Layer(layer, PARTS[p]))
  }

  function AllNames(c: Config): seq<TensorName> {
    [Embeddings, FinalNorm] + (if c.tied then [] else [Head]) + LayerNames(c.layers)
  }

  lemma NoRepeatsJoin(a: seq<TensorName>, b: seq<TensorName>)
    requires NoRepeats(a) && NoRepeats(b) && forall name :: name in a ==> name !in b
    ensures NoRepeats(a + b)
  {
    var all := a + b;
    forall i, j | 0 <= i < j < |all| ensures all[i] != all[j] {
      if i < |a| <= j {
        assert all[i] == a[i] && a[i] in a && all[j] == b[j - |a|] && b[j - |a|] in b;
      }
    }
  }

  lemma OneLayerIs(layer: nat)
    ensures NoRepeats(OneLayer(layer))
    ensures forall name :: name in OneLayer(layer) <==> name.Layer? && name.layer == layer
  {
    var names := OneLayer(layer);
    forall name: TensorName | name.Layer? && name.layer == layer ensures name in names {
      assert names[PartIndex(name.part)] == name;
    }
    forall i, j | 0 <= i < j < |names| ensures names[i] != names[j] {
      assert names[i] == Layer(layer, PARTS[i]) && names[j] == Layer(layer, PARTS[j]);
    }
  }

  lemma {:induction false} LayerNamesAre(layers: nat)
    ensures NoRepeats(LayerNames(layers))
    ensures forall name :: name in LayerNames(layers) <==> name.Layer? && name.layer < layers
  {
    if layers > 0 {
      LayerNamesAre(layers - 1);
      OneLayerIs(layers - 1);
      hide NoRepeats, OneLayer;
      NoRepeatsJoin(LayerNames(layers - 1), OneLayer(layers - 1));
    }
  }

  lemma AllNamesAre(c: Config)
    ensures NoRepeats(AllNames(c))
    ensures forall name :: name in AllNames(c) <==> Named(c, name)
  {
    LayerNamesAre(c.layers);
    hide LayerNames;
    var top := [Embeddings, FinalNorm] + (if c.tied then [] else [Head]);
    assert NoRepeats(top);
    NoRepeatsJoin(top, LayerNames(c.layers));
  }

  // ---- four formulas for one number ----

  datatype Breakdown = Breakdown(embeddings: int, attention: int, mlp: int, layerNorms: int, finalNorm: int, head: int) {
    function Total(): int { embeddings + attention + mlp + layerNorms + finalNorm + head }
  }

  function OutputHead(c: Config): int {
    if c.tied then 0 else c.vocabulary * c.hidden
  }

  /** `parameter_breakdown`. */
  function ComponentBreakdown(c: Config, d: nat): Breakdown {
    var h, i, l, v, kv := c.hidden, c.intermediate, c.layers, c.vocabulary, c.kvHeads * d;
    Breakdown(v * h, l * (2 * h * h + 2 * h * kv), l * 3 * h * i, l * 2 * h, h, OutputHead(c))
  }

  /** The architectural count of `plan_tensor_shard`. */
  function Architectural(c: Config, d: nat): int {
    var h, i, l, v, k := c.hidden, c.intermediate, c.layers, c.vocabulary, c.kvHeads;
    v * h + l * ((h * h + 2 * k * d * h + h * h) + 3 * h * i + 2 * h) + h + OutputHead(c)
  }

  /** The parameters of one block, as `StageMemoryPlan::for_stage` counts them. */
  function PerBlock(c: Config, d: nat): int {
    var h, i, kv := c.hidden, c.intermediate, c.kvHeads * d;
    2 * h * h + 2 * h * kv + 3 * h * i + 2 * h
  }

  lemma MatrixVolume(a: nat, b: nat)
    ensures Volume([a, b]) == a * b && Volume([a]) == a
  {
    assert [a, b][..1] == [a] && [a][..0] == [];
    assert Volume([]) == 1 && Volume([a]) == Volume([]) * a;
  }

  lemma NineParts(c: Config, d: nat, layer: nat)
    ensures var n := OneLayer(layer);
            Volumes(c, d, n) == Volume(ShapeOf(c, d, n[0])) + Volume(ShapeOf(c, d, n[1])) + Volume(ShapeOf(c, d, n[2]))
                                + Volume(ShapeOf(c, d, n[3])) + Volume(ShapeOf(c, d, n[4])) + Volume(ShapeOf(c, d, n[5]))
                                + Volume(ShapeOf(c, d, n[6])) + Volume(ShapeOf(c, d, n[7])) + Volume(ShapeOf(c, d, n[8]))
  {
    hide Volume, ShapeOf;
    var n := OneLayer(layer);
    assert n[9..] == [] && n[0..] == n;
    forall k | 0 <= k < 9 ensures Volumes(c, d, n[k..]) == Volume(ShapeOf(c, d, n[k])) + Volumes(c, d, n[k + 1..]) {
      assert n[k..][1..] == n[k + 1..];
    }
  }

  lemma BlockSum(h: int, i: int, kv: int)
    ensures h * h + kv * h + kv * h + h * h + i * h + i * h + h * i + h + h == 2 * h * h + 2 * h * kv + 3 * h * i + 2 * h
  {}

  lemma LayerVolumes(c: Config, d: nat, layer: nat)
    ensures Volumes(c, d, OneLayer(layer)) == PerBlock(c, d)
  {
    NineParts(c, d, layer);
    MatrixVolume(c.hidden, c.hidden);
    MatrixVolume(c.kvHeads * d, c.hidden);
    MatrixVolume(c.intermediate, c.hidden);
    MatrixVolume(c.hidden, c.intermediate);
    BlockSum(c.hidden, c.intermediate, c.kvHeads * d);
    hide Volume, Volumes;
  }

  lemma {:induction false} LayersVolume(c: Config, d: nat, layers: nat)
    ensures Volumes(c, d, LayerNames(layers)) == layers * PerBlock(c, d)
  {
    hide PerBlock;
    if layers > 0 {
      LayersVolume(c, d, layers - 1);
      LayerVolumes(c, d, layers - 1);
      VolumesSplit(c, d, LayerNames(layers - 1), OneLayer(layers - 1));
      var per := PerBlock(c, d);
      assert (layers - 1) * per + per == layers * per;
    }
  }

  /** The manifest, summed in the order in which it is built. */
  lemma ManifestVolume(c: Config, d: nat)
    ensures Volumes(c, d, AllNames(c)) == c.vocabulary * c.hidden + c.hidden + OutputHead(c) + c.layers * PerBlock(c, d)
  {
    hide PerBlock;
    LayersVolume(c, d, c.layers);
    MatrixVolume(c.vocabulary, c.hidden);
    MatrixVolume(c.hidden, c.hidden);
    var top, head := [Embeddings, FinalNorm], if c.tied then [] else [Head];
    VolumesSplit(c, d, top + head, LayerNames(c.layers));
    VolumesSplit(c, d, top, head);
    hide Volume;
    assert top[1..] == [FinalNorm] && [FinalNorm][1..] == [] && [Head][1..] == [];
    assert Volumes(c, d, [FinalNorm]) == Volume([c.hidden]) + Volumes(c, d, []);
    assert Volumes(c, d, [Head]) == Volume([c.vocabulary, c.hidden]) + Volumes(c, d, []);
  }

  lemma FormulaSum(v: int, h: int, i: int, l: int, k: int, d: int, head: int)
    ensures v * h + l * (2 * h * h + 2 * h * (k * d)) + l * 3 * h * i + l * 2 * h + h + head
            == v * h + h + head + l * (2 * h * h + 2 * h * (k * d) + 3 * h * i + 2 * h)
    ensures v * h + l * ((h * h + 2 * k * d * h + h * h) + 3 * h * i + 2 * h) + h + head
            == v * h + h + head + l * (2 * h * h + 2 * h * (k * d) + 3 * h * i + 2 * h)
  {
    assert 2 * k * d * h == 2 * h * (k * d);
  }

  /** Summing the manifest in any order, adding up the component breakdown and evaluating the shard
  planner's formula give the same number for every configuration. */
  lemma CountsAgree(c: Config, d: nat, order: seq<TensorName>)
    requires NoRepeats(order) && forall name :: name in order <==> Named(c, name)
    ensures Volumes(c, d, order) == ComponentBreakdown(c, d).Total() == Architectural(c, d)
  {
    AllNamesAre(c);
    hide NoRepeats, Named, AllNames, Volumes;
    AnyOrder(c, d, order, AllNames(c));
    ManifestVolume(c, d);
    FormulaSum(c.vocabulary, c.hidden, c.intermediate, c.layers, c.kvHeads, d, OutputHead(c));
  }

  // ---- the components of the breakdown ----

  /** The given parts of the first `layers` layers. */
  function PartNames(parts: seq<Part>, layers: nat): seq<TensorName> {
    if layers == 0 then [] else PartNames(parts, layers - 1) + seq(|parts|, p requires 0 <= p < |parts| => Layer(layers - 1, parts[p]))
  }

  function PartVolumes(c: Config, d: nat, parts: seq<Part>): nat {
    if parts == [] then 0 else Volume(PartShape(c, d, parts[0])) + PartVolumes(c, d, parts[1..])
  }

  lemma {:induction false} OneLayerVolumes(c: Config, d: nat, parts: seq<Part>, layer: nat)
    ensures Volumes(c, d, seq(|parts|, p requires 0 <= p < |parts| => Layer(layer, parts[p]))) == PartVolumes(c, d, parts)
  {
    hide Volume, PartShape;
    if parts != [] {
      var names := seq(|parts|, p requires 0 <= p < |parts| => Layer(layer, parts[p]));
      OneLayerVolumes(c, d, parts[1..], layer);
      assert names[1..] == seq(|parts[1..]|, p requires 0 <= p < |parts[1..]| => Layer(layer, parts[1..][p]));
    }
  }

  lemma {:induction false} PartNamesVolume(c: Config, d: nat, parts: seq<Part>, layers: nat)
    ensures Volumes(c, d, PartNames(parts, layers)) == layers * PartVolumes(c, d, parts)
  {
    hide PartVolumes, Volumes;
    if layers > 0 {
      var names := seq(|parts|, p requires 0 <= p < |parts| => Layer(layers - 1, parts[p]));
      PartNamesVolume(c, d, parts, layers - 1);
      OneLayerVolumes(c, d, parts, layers - 1);
      VolumesSplit(c, d, PartNames(parts, layers - 1), names);
      MulSucc(layers - 1, PartVolumes(c, d, parts));
    } else {
      NoVolumes(c, d);
    }
  }

  lemma NoVolumes(c: Config, d: nat)
    ensures Volumes(c, d, []) == 0
  {}

  lemma OneMorePart(c: Config, d: nat, part: Part, rest: seq<Part>)
    ensures PartVolumes(c, d, [part] + rest) == Volume(PartShape(c, d, part)) + PartVolumes(c, d, rest)
  {
    assert ([part] + rest)[1..] == rest;
  }

  lemma AttentionVolume(c: Config, d: nat)
    ensures PartVolumes(c, d, [Query, Key, Value, Output]) == 2 * c.hidden * c.hidden + 2 * c.hidden * (c.kvHeads * d)
  {
    MatrixVolume(c.hidden, c.hidden);
    MatrixVolume(c.kvHeads * d, c.hidden);
    assert PartVolumes(c, d, []) == 0;
    hide Volume, PartVolumes;
    OneMorePart(c, d, Output, []);
    OneMorePart(c, d, Value, [Output]);
    OneMorePart(c, d, Key, [Value, Output]);
    OneMorePart(c, d, Query, [Key, Value, Output]);
    assert [Query] + [Key, Value, Output] == [Query, Key, Value, Output] && [Key] + [Value, Output] == [Key, Value, Output];
    assert [Value] + [Output] == [Value, Output] && [Output] + [] == [Output];
    BlockSum(c.hidden, 0, c.kvHeads * d);
  }

  lemma ThreeTimes(h: int, i: int)
    ensures i * h + i * h + h * i == 3 * h * i
  {}

  lemma MlpVolume(c: Config, d: nat)
    ensures PartVolumes(c, d, [Gate, Up, Down]) == 3 * c.hidden * c.intermediate
    ensures PartVolumes(c, d, [InputNorm, PostNorm]) == 2 * c.hidden
  {
    MatrixVolume(c.intermediate, c.hidden);
    MatrixVolume(c.hidden, c.intermediate);
    assert PartVolumes(c, d, []) == 0;
    hide Volume, PartVolumes;
    OneMorePart(c, d, Down, []);
    OneMorePart(c, d, Up, [Down]);
    OneMorePart(c, d, Gate, [Up, Down]);
    OneMorePart(c, d, PostNorm, []);
    OneMorePart(c, d, InputNorm, [PostNorm]);
    assert [Gate] + [Up, Down] == [Gate, Up, Down] && [Up] + [Down] == [Up, Down] && [Down] + [] == [Down];
    assert [InputNorm] + [PostNorm] == [InputNorm, PostNorm] && [PostNorm] + [] == [PostNorm];
    ThreeTimes(c.hidden, c.intermediate);
  }

  /** Every component of the breakdown counts the tensors that belong to it. */
  lemma BreakdownIs(c: Config, d: nat)
    ensures var parts := ComponentBreakdown(c, d);
            && parts.attention == Volumes(c, d, PartNames([Query, Key, Value, Output], c.layers))
            && parts.mlp == Volumes(c, d, PartNames([Gate, Up, Down], c.layers))
            && parts.layerNorms == Volumes(c, d, PartNames([InputNorm, PostNorm], c.layers))
            && parts.embeddings == Volumes(c, d, [Embeddings]) && parts.finalNorm == Volumes(c, d, [FinalNorm])
            && parts.head == if c.tied then 0 else Volumes(c, d, [Head])
  {
    PartNamesVolume(c, d, [Query, Key, Value, Output], c.layers);
    PartNamesVolume(c, d, [Gate, Up, Down], c.layers);
    PartNamesVolume(c, d, [InputNorm, PostNorm], c.layers);
    AttentionVolume(c, d);
    MlpVolume(c, d);
    TopVolumes(c, d);
    hide PartVolumes, Volumes, PartNames;
    Assoc(c.layers, 3, c.hidden * c.intermediate);
    Assoc(c.layers * 3, c.hidden, c.intermediate);
    Assoc(3, c.hidden, c.intermediate);
    Assoc(c.layers, 2, c.hidden);
  }

  lemma TopVolumes(c: Config, d: nat)
    ensures Volumes(c, d, [Embeddings]) == Volumes(c, d, [Head]) == c.vocabulary * c.hidden && Volumes(c, d, [FinalNorm]) == c.hidden
  {
    MatrixVolume(c.vocabulary, c.hidden);
    MatrixVolume(c.hidden, c.hidden);
    hide Volume;
    assert [Embeddings][1..] == [] && [Head][1..] == [] && [FinalNorm][1..] == [];
  }

  // ---- the checkpoint check ----

  /** `try_fold` over the sizes of one shape; `None` is u64 overflow. */
  function CheckedVolume(shape: seq<nat>): Option<nat> {
    if shape == [] then Some(1)
    else
      var rest := CheckedVolume(shape[..|shape| - 1]);
      if rest.None? then None else CheckedMul(rest.value, shape[|shape| - 1])
  }

  lemma CheckedVolumeIs(shape: seq<nat>)
    requires |shape| in {1, 2} && forall i :: 0 <= i < |shape| ==> shape[i] < U64_LIMIT
    ensures CheckedVolume(shape) == if Volume(shape) < U64_LIMIT then Some(Volume(shape)) else None
  {
    assert shape[..0] == [] && shape[..1] == [shape[0]] && CheckedVolume([]) == Some(1) && Volume([]) == 1;
    assert CheckedVolume(shape[..1]) == Some(shape[0]) && Volume(shape[..1]) == shape[0];
    assert shape[..|shape|] == shape;
  }

  predicate FitsU64(c: Config, d: nat) {
    c.vocabulary < U64_LIMIT && c.hidden < U64_LIMIT && c.intermediate < U64_LIMIT && c.kvHeads * d < U64_LIMIT
  }

  /** The counting half of `validate_tensor_metadata`, for a checkpoint whose names and shapes are the
  expected ones: it accepts exactly when the total fits u64 and is the registered count. */
  method CountParameters(c: Config, d: nat, order: seq<TensorName>, registered: nat) returns (result: Result<nat, PlanError>)
    requires FitsU64(c, d) && registered < U64_LIMIT && forall name :: name in order ==> Named(c, name)
    ensures Volumes(c, d, order) >= U64_LIMIT <==> result == Err(CountOverflow)
    ensures result.Ok? <==> Volumes(c, d, order) == registered
    ensures if result.Ok? then result.value == registered else result.error == CountOverflow || result.error == CountMismatch
  {
    hide Volume, CheckedVolume;
    var total: nat := 0;
    assert order[0..] == order;
    for n := 0 to |order|
      invariant total < U64_LIMIT && total + Volumes(c, d, order[n..]) == Volumes(c, d, order)
    {
      var shape := ShapeOf(c, d, order[n]);
      assert order[n] in order;
      CheckedVolumeIs(shape);
      assert order[n..][1..] == order[n + 1..];
      var count := CheckedVolume(shape);
      if count.None? {
        return Err(CountOverflow);
      }
      var next := CheckedAdd(Some(total), count.value);
      if next.None? {
        return Err(CountOverflow);
      }
      total := next.value;
    }
    if total != registered {
      return Err(CountMismatch);
    }
    return Ok(total);
  }

  /** What a checkpoint header says about one tensor. */
  datatype TensorInfo = TensorInfo(shape: seq<nat>, dtype: nat)

  /** The header lists exactly the model's tensors, with their shapes and the registered dtype. */
  ghost predicate Matches(c: Config, d: nat, tensors: map<TensorName, TensorInfo>, dtype: nat) {
    && (forall name :: name in tensors <==> Named(c, name))
    && (forall name :: name in tensors ==> tensors[name] == TensorInfo(ShapeOf(c, d, name), dtype))
  }

  /** `validate_tensor_metadata`: a checkpoint is accepted exactly when its header matches the model and the
  model's architectural count is the registered one. `order` is the order in which the header is visited. */
  method ValidateCheckpoint(c: Config, tensors: map<TensorName, TensorInfo>, order: seq<TensorName>, dtype: nat, registered: nat)
    returns (result: Result<nat, PlanError>)
    requires NoRepeats(order) && forall name :: name in order <==> name in tensors
    requires registered < U64_LIMIT && (HeadDim(c).Some? ==> FitsU64(c, HeadDim(c).value))
    ensures HeadDim(c).None? <==> result == Err(InvalidHeads)
    ensures HeadDim(c).Some? ==>
              && (result.Ok? <==> Matches(c, HeadDim(c).value, tensors, dtype) && Architectural(c, HeadDim(c).value) == registered)
              && (result == Err(WrongDtype) <==> exists name :: name in tensors && tensors[name].dtype != dtype)
  {
    hide Matches, Named, ShapeOf, Volumes, Architectural, NoRepeats, HeadDim;
    var expected := ExpectedTensorShapes(c);
    if expected.Err? {
      return Err(expected.error);
    }
    ghost var d := HeadDim(c).value;
    HeaderMatches(c, d, tensors, dtype, expected.value);
    if exists name :: name in tensors && tensors[name].dtype != dtype {
      return Err(WrongDtype);
    }
    if Shapes(tensors) != expected.value {
      return Err(ManifestMismatch);
    }
    CountsAgree(c, d, order);
    result := CountParameters(c, HeadDim(c).value, order, registered);
  }

  function Shapes(tensors: map<TensorName, TensorInfo>): map<TensorName, seq<nat>> {
    map name | name in tensors :: tensors[name].shape
  }

  lemma HeaderMatches(c: Config, d: nat, tensors: map<TensorName, TensorInfo>, dtype: nat, expected: map<TensorName, seq<nat>>)
    requires forall name :: name in expected <==> Named(c, name)
    requires forall name :: name in expected ==> expected[name] == ShapeOf(c, d, name)
    ensures Matches(c, d, tensors, dtype) <==>
              Shapes(tensors) == expected && forall name :: name in tensors ==> tensors[name].dtype == dtype
    ensures Matches(c, d, tensors, dtype) ==> forall name :: name in tensors <==> Named(c, name)
  {
    hide Named, ShapeOf;
    if Shapes(tensors) == expected {
      forall name ensures name in tensors <==> name in expected {
        assert name in Shapes(tensors) <==> name in expected;
      }
      assert forall name :: name in tensors ==> Shapes(tensors)[name] == tensors[name].shape;
    }
  }

  // ---- pipeline stages ----

  /** Materialized parameters of one stage. */
  function StageParameters(c: Config, d: nat, stage: StageAssignment): int {
    var embeddings := if stage.ownsEmbeddings then c.vocabulary * c.hidden else 0;
    var norm, head := if stage.ownsLmHead then c.hidden else 0, if stage.ownsLmHead then c.vocabulary * c.hidden else 0;
    PerBlock(c, d) * Size(stage) + embeddings + norm + head
  }

  /** `kv_cache_capacity_bytes` as `RankMemoryPlan::for_model` computes it. */
  function ModelKvBytes(c: Config, d: nat, context: nat, bytes: nat): int {
    2 * c.layers * context * c.kvHeads * d * bytes
  }

  /** As `StageMemoryPlan::for_stage` computes it. */
  function StageKvBytes(c: Config, d: nat, stage: StageAssignment, context: nat, bytes: nat): int {
    2 * Size(stage) * context * c.kvHeads * d * bytes
  }

  /** As the tensor-parallel plan computes it for each rank, with four bytes. */
  function RankKvBytes(c: Config, d: nat, tp: nat, context: nat, bytes: nat): int
    requires tp > 0
  {
    2 * c.layers * context * (c.kvHeads / tp) * d * bytes
  }

  /** The tensors a stage materializes: its layers, and on the first and last stage the embeddings, and the final
  norm with an output head, which is a copy of the embeddings when those are tied. */
  function StageNames(stage: StageAssignment): seq<TensorName>
    requires stage.layerStart <= stage.layerEnd
  {
    (if stage.ownsEmbeddings then [Embeddings] else [])
    + ((if stage.ownsLmHead then [FinalNorm] + [Head] else []) + RangeNames(stage.layerStart, stage.layerEnd))
  }

  function RangeNames(from: nat, until: nat): seq<TensorName>
    decreases until - from
  {
    if from >= until then [] else OneLayer(from) + RangeNames(from + 1, until)
  }

  lemma {:induction false} RangeVolume(c: Config, d: nat, from: nat, until: nat)
    requires from <= until
    ensures Volumes(c, d, RangeNames(from, until)) == PerBlock(c, d) * (until - from)
    decreases until - from
  {
    hide PerBlock;
    if from < until {
      RangeVolume(c, d, from + 1, until);
      LayerVolumes(c, d, from);
      VolumesSplit(c, d, OneLayer(from), RangeNames(from + 1, until));
      Together(PerBlock(c, d), 1, until - from - 1);
    }
  }

  /** The planned parameters of a stage are the sizes of exactly those tensors. */
  lemma StageHolds(c: Config, d: nat, stage: StageAssignment)
    requires stage.layerStart <= stage.layerEnd
    ensures StageParameters(c, d, stage) == Volumes(c, d, StageNames(stage))
  {
    var table := if stage.ownsEmbeddings then [Embeddings] else [];
    var head := if stage.ownsLmHead then [FinalNorm] + [Head] else [];
    RangeVolume(c, d, stage.layerStart, stage.layerEnd);
    TopVolumes(c, d);
    NoVolumes(c, d);
    hide PerBlock, Volumes, RangeNames;
    VolumesSplit(c, d, table, head + RangeNames(stage.layerStart, stage.layerEnd));
    VolumesSplit(c, d, head, RangeNames(stage.layerStart, stage.layerEnd));
    VolumesSplit(c, d, [FinalNorm], [Head]);
  }

  function StagesParameters(c: Config, d: nat, stages: seq<StageAssignment>, from: nat): int
    decreases |stages| - from
  {
    if from >= |stages| then 0 else StageParameters(c, d, stages[from]) + StagesParameters(c, d, stages, from + 1)
  }

  function StagesKvBytes(c: Config, d: nat, stages: seq<StageAssignment>, context: nat, bytes: nat, from: nat): int
    decreases |stages| - from
  {
    if from >= |stages| then 0
    else StageKvBytes(c, d, stages[from], context, bytes) + StagesKvBytes(c, d, stages, context, bytes, from + 1)
  }

  lemma KvBytesAdd(a: int, b: int, context: nat, kvHeads: nat, d: nat, bytes: nat)
    ensures 2 * a * context * kvHeads * d * bytes + 2 * b * context * kvHeads * d * bytes == 2 * (a + b) * context * kvHeads * d * bytes
  {
    TwiceSum(a, b, context);
    SumTimes(2 * a * context, 2 * b * context, kvHeads);
    SumTimes(2 * a * context * kvHeads, 2 * b * context * kvHeads, d);
    SumTimes(2 * a * context * kvHeads * d, 2 * b * context * kvHeads * d, bytes);
  }

  lemma SumTimes(x: int, y: int, z: int)
    ensures x * z + y * z == (x + y) * z
  {}

  lemma TwiceSum(a: int, b: int, context: nat)
    ensures 2 * a * context + 2 * b * context == 2 * (a + b) * context
  {
    SumTimes(2 * a, 2 * b, context);
  }

  lemma Together(per: int, a: int, b: int)
    ensures per * a + per * b == per * (a + b)
  {}

  lemma {:induction false} StagesFrom(c: Config, d: nat, stages: seq<StageAssignment>, from: nat)
    requires BalancedStages(stages, c.layers, |stages|, c.tied) && from < |stages|
    ensures StagesParameters(c, d, stages, from)
            == PerBlock(c, d) * (c.layers - stages[from].layerStart) + c.hidden + c.vocabulary * c.hidden
               + (if from == 0 then c.vocabulary * c.hidden else 0)
    decreases |stages| - from
  {
    hide PerBlock;
    var next, table := from + 1, c.vocabulary * c.hidden;
    if next < |stages| {
      StagesFrom(c, d, stages, next);
      assert stages[from].layerEnd == stages[next].layerStart;
      Together(PerBlock(c, d), Size(stages[from]), c.layers - stages[next].layerStart);
    }
  }

  lemma {:induction false} StagesKvFrom(c: Config, d: nat, stages: seq<StageAssignment>, context: nat, bytes: nat, from: nat)
    requires BalancedStages(stages, c.layers, |stages|, c.tied) && from < |stages|
    ensures StagesKvBytes(c, d, stages, context, bytes, from) == 2 * (c.layers - stages[from].layerStart) * context * c.kvHeads * d * bytes
    decreases |stages| - from
  {
    var next := from + 1;
    if next < |stages| {
      StagesKvFrom(c, d, stages, context, bytes, next);
      assert stages[from].layerEnd == stages[next].layerStart;
      KvBytesAdd(Size(stages[from]), c.layers - stages[next].layerStart, context, c.kvHeads, d, bytes);
    }
  }

  /** The stages of a balanced partition hold the whole model once, plus one more embedding matrix
  exactly when the embeddings are tied; their caches add up to the cache of the whole model. */
  lemma StagesConserve(c: Config, d: nat, stages: seq<StageAssignment>, context: nat, bytes: nat)
    requires BalancedStages(stages, c.layers, |stages|, c.tied)
    ensures StagesParameters(c, d, stages, 0) == Architectural(c, d) + (if c.tied then c.vocabulary * c.hidden else 0)
    ensures StagesKvBytes(c, d, stages, context, bytes, 0) == ModelKvBytes(c, d, context, bytes)
  {
    StagesFrom(c, d, stages, 0);
    StagesKvFrom(c, d, stages, context, bytes, 0);
    FormulaSum(c.vocabulary, c.hidden, c.intermediate, c.layers, c.kvHeads, d, OutputHead(c));
    Commuted(PerBlock(c, d), c.layers);
  }

  lemma Commuted(a: int, b: int)
    ensures a * b == b * a
  {}

  // ---- tensor shards ----

  /** The divisibility checks of `plan_tensor_shard`. */
  predicate Shardable(c: Config, tp: nat) {
    tp > 0 && c.vocabulary % tp == 0 && c.hidden % tp == 0 && c.intermediate % tp == 0 && c.queryHeads % tp == 0 && c.kvHeads % tp == 0
  }

  function Replicated(c: Config): int {
    2 * c.layers * c.hidden + c.hidden
  }

  /** `local_parameters`: the sharded parameters divided by the number of ranks, plus the norms. */
  function LocalParameters(c: Config, d: nat, tp: nat): int
    requires tp > 0
  {
    (Architectural(c, d) - Replicated(c)) / tp + Replicated(c)
  }

  /** What a rank really holds: its rows or columns of every matrix, and all norms. */
  function ShardVolume(c: Config, d: nat, tp: nat): int
    requires tp > 0
  {
    var v, h, i, k := c.vocabulary / tp, c.hidden / tp, c.intermediate / tp, c.kvHeads / tp;
    var table := v * c.hidden;
    table + c.layers * (2 * h * c.hidden + 2 * (k * d) * c.hidden + 3 * i * c.hidden) + (if c.tied then 0 else table) + Replicated(c)
  }

  lemma Assoc(a: int, b: int, c: int)
    ensures a * (b * c) == (a * b) * c
  {}

  lemma SquareShard(tp: int, h: int)
    ensures tp * (2 * h * (tp * h)) == 2 * (tp * h) * (tp * h)
  {}

  lemma KvShard(tp: int, k: int, d: int, w: int)
    ensures tp * (2 * (k * d) * w) == 2 * w * ((tp * k) * d)
  {
    Assoc(tp, k, d);
    Assoc(tp, k * d, w);
    Commuted(w, (tp * k) * d);
  }

  lemma MlpShard(tp: int, i: int, w: int)
    ensures tp * (3 * i * w) == 3 * w * (tp * i)
  {
    Assoc(tp, i, w);
    Commuted(w, tp * i);
  }

  /** Pulling a factor into a sum of three under another factor. */
  lemma PullIn(tp: int, l: int, a: int, b: int, e: int)
    ensures tp * (l * (a + b + e)) == l * (tp * a + tp * b + tp * e)
  {
    Assoc(tp, l, a + b + e);
    Commuted(tp, l);
    Assoc(l, tp, a + b + e);
  }

  /** The sharded matrices of one block, as one rank holds them and as the model has them. */
  function ShardMatrices(h: int, i: int, kv: int, width: int): int {
    2 * h * width + 2 * kv * width + 3 * i * width
  }

  function FullMatrices(i: int, kv: int, width: int): int {
    2 * width * width + 2 * width * kv + 3 * width * i
  }

  lemma MatricesScale(tp: int, l: int, h: int, i: int, k: int, d: int)
    ensures tp * (l * ShardMatrices(h, i, k * d, tp * h)) == l * FullMatrices(tp * i, (tp * k) * d, tp * h)
  {
    PullIn(tp, l, 2 * h * (tp * h), 2 * (k * d) * (tp * h), 3 * i * (tp * h));
    SquareShard(tp, h);
    KvShard(tp, k, d, tp * h);
    MlpShard(tp, i, tp * h);
  }

  lemma Negated(n: int, t: int)
    ensures n * (-t) == -(n * t)
  {}

  lemma SmallMultiple(n: nat, t: int, r: int)
    requires n * t == r && 0 <= r < n
    ensures t == 0
  {
    if t >= 1 {
      MulLe(1, t, n);
      Commuted(n, t);
    } else if t <= -1 {
      MulLe(1, -t, n);
      Commuted(n, -t);
      Negated(n, t);
    }
  }

  lemma ExactQuotient(x: int, n: nat, q: int)
    requires n > 0 && x == n * q
    ensures x / n == q
  {
    var quotient, r := x / n, x % n;
    assert x == n * quotient + r;
    assert n * (q - quotient) == n * q - n * quotient;
    SmallMultiple(n, q - quotient, r);
  }

  lemma WithoutNorms(c: Config, d: nat)
    ensures Architectural(c, d) - Replicated(c)
            == c.vocabulary * c.hidden + OutputHead(c) + c.layers * FullMatrices(c.intermediate, c.kvHeads * d, c.hidden)
  {
    FormulaSum(c.vocabulary, c.hidden, c.intermediate, c.layers, c.kvHeads, d, OutputHead(c));
    SplitNorms(c.layers, FullMatrices(c.intermediate, c.kvHeads * d, c.hidden), c.hidden);
  }

  lemma SplitNorms(l: int, matrices: int, h: int)
    ensures l * (matrices + 2 * h) == l * matrices + 2 * l * h
  {}

  lemma TakeIn(tp: int, a: int, b: int, e: int)
    ensures tp * (a + b + e) == tp * a + tp * b + tp * e
  {}

  /** The sharded parameters divide evenly, and the planned local count is what the shards hold. */
  lemma LocalIsExact(c: Config, d: nat, tp: nat)
    requires Shardable(c, tp)
    ensures Architectural(c, d) - Replicated(c) == tp * (ShardVolume(c, d, tp) - Replicated(c))
    ensures LocalParameters(c, d, tp) == ShardVolume(c, d, tp)
  {
    var v, h, i, k := c.vocabulary / tp, c.hidden / tp, c.intermediate / tp, c.kvHeads / tp;
    DivExact(c.vocabulary, tp);
    DivExact(c.hidden, tp);
    DivExact(c.intermediate, tp);
    DivExact(c.kvHeads, tp);
    WithoutNorms(c, d);
    MatricesScale(tp, c.layers, h, i, k, d);
    Assoc(tp, v, c.hidden);
    var table, matrices := v * c.hidden, c.layers * ShardMatrices(h, i, k * d, c.hidden);
    TakeIn(tp, table, matrices, if c.tied then 0 else table);
    ShardVolumeIs(c, d, tp);
    hide Architectural, ShardVolume, Replicated, ShardMatrices, FullMatrices;
    ExactQuotient(Architectural(c, d) - Replicated(c), tp, ShardVolume(c, d, tp) - Replicated(c));
  }

  lemma ShardVolumeIs(c: Config, d: nat, tp: nat)
    requires tp > 0
    ensures var v, h, i, k := c.vocabulary / tp, c.hidden / tp, c.intermediate / tp, c.kvHeads / tp;
            ShardVolume(c, d, tp) - Replicated(c)
            == v * c.hidden + c.layers * ShardMatrices(h, i, k * d, c.hidden) + (if c.tied then 0 else v * c.hidden)
  {}

  lemma KvScale(tp: nat, layers: nat, context: nat, heads: nat, d: nat, bytes: nat)
    ensures tp * (2 * layers * context * heads * d * bytes) == 2 * layers * context * (tp * heads) * d * bytes
  {
    var a := 2 * layers * context;
    Commuted(tp, a);
    Assoc(tp, a, heads);
    Assoc(a, tp, heads);
    Assoc(tp, a * heads, d);
    Assoc(tp, a * heads * d, bytes);
  }

  // ---- the bytes are those of the storage ----

  lemma {:induction false} AllocatedIs(cache: KvCache, n: nat)
    requires cache.Valid() && n <= |cache.layers|
    ensures cache.Allocated(n) == n * (2 * (cache.capacity * (cache.heads * cache.width)))
  {
    if n > 0 {
      AllocatedIs(cache, n - 1);
      EntriesAre(cache.capacity, cache.heads, cache.width);
      MulSucc(n - 1, 2 * (cache.capacity * (cache.heads * cache.width)));
    }
  }

  /** A cache of so many layers, heads and positions occupies, entry by entry, the bytes that all three plans
  compute. */
  lemma StorageIs(cache: KvCache, bytes: nat)
    requires cache.Valid()
    ensures cache.Allocated(|cache.layers|) * bytes == 2 * |cache.layers| * cache.capacity * cache.heads * cache.width * bytes
  {
    AllocatedIs(cache, |cache.layers|);
    Flattened(|cache.layers|, cache.capacity, cache.heads, cache.width, bytes);
  }

  /** What the plans call the cache capacity are the bytes of the storage that the model, a stage and a
  tensor-parallel rank allocate: all layers and heads, the layers of the stage, the heads of the rank. */
  lemma KvBytesAreStorage(c: Config, d: nat, stage: StageAssignment, tp: nat, context: nat, bytes: nat, cache: KvCache)
    requires cache.Valid() && cache.width == d && cache.capacity == context && tp > 0
    ensures |cache.layers| == c.layers && cache.heads == c.kvHeads ==> ModelKvBytes(c, d, context, bytes) == cache.Allocated(|cache.layers|) * bytes
    ensures |cache.layers| == Size(stage) && cache.heads == c.kvHeads ==> StageKvBytes(c, d, stage, context, bytes) == cache.Allocated(|cache.layers|) * bytes
    ensures |cache.layers| == c.layers && cache.heads == c.kvHeads / tp ==> RankKvBytes(c, d, tp, context, bytes) == cache.Allocated(|cache.layers|) * bytes
  {
    StorageIs(cache, bytes);
  }

  lemma SumOfRanks(tp: int, shard: int, norms: int, total: int)
    requires total - norms == tp * (shard - norms)
    ensures tp * shard == total + (tp - 1) * norms
  {}

  /** The ranks together hold the whole model, with the norms once more for every rank but one, and no
  remainder is lost; their caches add up to the cache of the whole model. */
  lemma RanksConserve(c: Config, d: nat, tp: nat, context: nat, bytes: nat)
    requires Shardable(c, tp)
    ensures tp * LocalParameters(c, d, tp) == Architectural(c, d) + (tp - 1) * Replicated(c)
    ensures tp * RankKvBytes(c, d, tp, context, bytes) == ModelKvBytes(c, d, context, bytes)
  {
    DivExact(c.kvHeads, tp);
    KvScale(tp, c.layers, context, c.kvHeads / tp, d, bytes);
    LocalIsExact(c, d, tp);
    hide Architectural, ShardVolume, Replicated, LocalParameters;
    SumOfRanks(tp, ShardVolume(c, d, tp), Replicated(c), Architectural(c, d));
  }

  datatype ShardRange = ShardRange(start: nat, end: nat)

  datatype ShardPlan = ShardPlan(vocabulary: ShardRange, queryHeads: ShardRange, kvHeads: ShardRange, intermediate: ShardRange,
                                 architectural: int, local: int, replicated: int, aggregate: int)

  /** The ranges of all ranks cut `total` into equal consecutive parts; this is the one of `rank`. */
  ghost predicate Tiles(range: ShardRange, total: nat, rank: nat, size: nat) {
    && range.start <= range.end && range.start == rank * (range.end - range.start)
    && size * (range.end - range.start) == total
  }

  method EqualRange(total: nat, rank: nat, size: nat) returns (range: ShardRange)
    requires rank < size && total % size == 0
    ensures Tiles(range, total, rank, size)
  {
    var local := total / size;
    DivExact(total, size);
    MulSucc(rank, local);
    range := ShardRange(rank * local, (rank + 1) * local);
  }

  /** `plan_tensor_shard`: succeeds exactly when the rank is in its group, all dimensions divide and the heads
  are valid; the ranges tile their dimensions and the counts are those of the shards. */
  method PlanTensorShard(c: Config, rank: nat, size: nat) returns (result: Result<ShardPlan, PlanError>)
    ensures result.Ok? <==> rank < size && Shardable(c, size) && HeadDim(c).Some?
    ensures result.Ok? ==>
              var plan, d := result.value, HeadDim(c).value;
              && Tiles(plan.vocabulary, c.vocabulary, rank, size) && Tiles(plan.queryHeads, c.queryHeads, rank, size)
              && Tiles(plan.kvHeads, c.kvHeads, rank, size) && Tiles(plan.intermediate, c.intermediate, rank, size)
              && plan.local == ShardVolume(c, d, size) && plan.architectural == ComponentBreakdown(c, d).Total()
              && plan.aggregate == plan.architectural + (size - 1) * plan.replicated
  {
    if rank >= size {
      return Err(RankOutside);
    }
    var dimensions := [c.vocabulary, c.hidden, c.intermediate, c.queryHeads, c.kvHeads];
    for n := 0 to |dimensions|
      invariant forall i :: 0 <= i < n ==> dimensions[i] % size == 0
    {
      if dimensions[n] % size != 0 {
        return Err(Indivisible);
      }
    }
    assert dimensions[0] % size == dimensions[1] % size == dimensions[2] % size == dimensions[3] % size == dimensions[4] % size == 0;
    var headDim := HeadDim(c);
    if headDim.None? {
      return Err(InvalidHeads);
    }
    var d := headDim.value;
    var vocabulary := EqualRange(c.vocabulary, rank, size);
    var queryHeads := EqualRange(c.queryHeads, rank, size);
    var kvHeads := EqualRange(c.kvHeads, rank, size);
    var intermediate := EqualRange(c.intermediate, rank, size);
    var local := LocalParameters(c, d, size);
    PlanCounts(c, d, size);
    return Ok(ShardPlan(vocabulary, queryHeads, kvHeads, intermediate, Architectural(c, d), local, Replicated(c), local * size));
  }

  lemma PlanCounts(c: Config, d: nat, tp: nat)
    requires Shardable(c, tp)
    ensures LocalParameters(c, d, tp) == ShardVolume(c, d, tp) && Architectural(c, d) == ComponentBreakdown(c, d).Total()
    ensures LocalParameters(c, d, tp) * tp == Architectural(c, d) + (tp - 1) * Replicated(c)
  {
    LocalIsExact(c, d, tp);
    RanksConserve(c, d, tp, 0, 0);
    FormulaSum(c.vocabulary, c.hidden, c.intermediate, c.layers, c.kvHeads, d, OutputHead(c));
    Commuted(LocalParameters(c, d, tp), tp);
  }
}
