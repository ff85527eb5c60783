/** The preallocated key/value cache, appended in place, and the model's forward loop over it. */
module KvCaches {
  import opened Options
  import opened Arithmetic
  import opened LinearAlgebra
  import opened Llama

  datatype CacheError = ShapesDiffer | CapacityExceeded | WrongShape | NoSuchLayer | NoLayers | NoCapacity

  /** New keys or values, a tensor `[1, heads, positions, width]` held position by position. */
  datatype Chunk = Chunk(heads: nat, width: nat, rows: seq<Row>)

  predicate RowShaped(row: Row, heads: nat, width: nat) {
    |row| == heads && forall h :: 0 <= h < heads ==> |row[h]| == width
  }

  /** The rows have the dimensions that the tensor declares. */
  predicate WellShaped(c: Chunk) {
    forall i :: 0 <= i < |c.rows| ==> RowShaped(c.rows[i], c.heads, c.width)
  }

  /** `keys.dims() == values.dims()`. */
  predicate SameDims(a: Chunk, b: Chunk) {
    a.heads == b.heads && |a.rows| == |b.rows| && a.width == b.width
  }

  /** One layer: rows are written behind the populated prefix, and only the prefix is visible. */
  class LayerKvCache {
    const keys: array<Row>
    const values: array<Row>
    const heads: nat
    const width: nat
    const capacity: nat
    var length: nat

    /** The populated rows have the shape that the storage was allocated for. */
    ghost predicate Valid()
      reads this, keys, values
    {
      && keys != values && keys.Length == values.Length == capacity && length <= capacity
      && forall i :: 0 <= i < length ==> RowShaped(keys[i], heads, width) && RowShaped(values[i], heads, width)
    }

    /** Whether a chunk goes into the storage, and with what error if not: the two shapes are compared first,
    then the room, and the write compares the other axes with the storage. */
    function AppendError(newKeys: Chunk, newValues: Chunk): Option<CacheError>
      reads this
    {
      if !SameDims(newKeys, newValues) then Some(ShapesDiffer)
      else if length + |newKeys.rows| > capacity then Some(CapacityExceeded)
      else if newKeys.heads != heads || newKeys.width != width then Some(WrongShape)
      else None
    }

    ghost function Contents(): (c: LayerCache)
      requires Valid()
      reads this, keys, values
      ensures |c.keys| == |c.values| == length
    {
      LayerCache(keys[..length], values[..length])
    }

    constructor (heads: nat, width: nat, capacity: nat)
      ensures Valid() && this.heads == heads && this.width == width && this.capacity == capacity && Contents() == LayerCache([], [])
      ensures fresh(keys) && fresh(values)
    {
      this.heads, this.width, this.capacity := heads, width, capacity;
      keys, values := new Row[capacity](_ => []), new Row[capacity](_ => []);
      length := 0;
    }

    /** `slice_set`: writes `rows` into `target` from position `at`. */
    static method WriteRows(target: array<Row>, rows: seq<Row>, at: nat)
      requires at + |rows| <= target.Length
      modifies target
      ensures target[..at + |rows|] == old(target[..at]) + rows
    {
      for i := 0 to |rows|
        invariant target[..at] == old(target[..at])
        invariant forall j :: 0 <= j < i ==> target[at + j] == rows[j]
      {
        target[at + i] := rows[i];
      }
    }

    /** Appends or changes nothing. */
    method Append(newKeys: Chunk, newValues: Chunk) returns (result: Result<LayerCache, CacheError>)
      requires Valid() && WellShaped(newKeys) && WellShaped(newValues)
      modifies this`length, keys, values
      ensures Valid()
      ensures old(AppendError(newKeys, newValues)).Some? ==> result == Err(old(AppendError(newKeys, newValues)).value) && Contents() == old(Contents())
      ensures old(AppendError(newKeys, newValues)).None? ==>
                && result == Ok(Contents())
                && Contents() == LayerCache(old(Contents()).keys + newKeys.rows, old(Contents()).values + newValues.rows)
    {
      if !SameDims(newKeys, newValues) {
        return Err(ShapesDiffer);
      }
      var attempted := length + |newKeys.rows|;
      if attempted > capacity {
        return Err(CapacityExceeded);
      }
      if newKeys.heads != heads || newKeys.width != width {
        return Err(WrongShape);
      }
      ghost var before := Contents();
      WriteRows(keys, newKeys.rows, length);
      WriteRows(values, newValues.rows, length);
      length := attempted;
      ShapedTogether(before.keys, newKeys.rows, heads, width);
      ShapedTogether(before.values, newValues.rows, heads, width);
      assert Contents() == LayerCache(before.keys + newKeys.rows, before.values + newValues.rows);
      return Ok(LayerCache(keys[..length], values[..length]));
    }
  }

  lemma ShapedTogether(before: seq<Row>, rows: seq<Row>, heads: nat, width: nat)
    requires forall i :: 0 <= i < |before| ==> RowShaped(before[i], heads, width)
    requires forall i :: 0 <= i < |rows| ==> RowShaped(rows[i], heads, width)
    ensures forall i :: 0 <= i < |before + rows| ==> RowShaped((before + rows)[i], heads, width)
  {}

  /** Entries of so many rows of heads of so many values. */
  function Entries(rows: nat, heads: nat, width: nat): nat {
    if rows == 0 then 0 else Entries(rows - 1, heads, width) + heads * width
  }

  lemma {:induction false} EntriesAre(rows: nat, heads: nat, width: nat)
    ensures Entries(rows, heads, width) == rows * (heads * width)
  {
    if rows > 0 {
      EntriesAre(rows - 1, heads, width);
      MulSucc(rows - 1, heads * width);
    }
  }

  /** Entries of rows that all have so many heads of so many values, counted one by one. */
  function RowEntries(row: Row): nat {
    if row == [] then 0 else |row[0]| + RowEntries(row[1..])
  }

  lemma {:induction false} RowEntriesAre(row: Row, heads: nat, width: nat)
    requires RowShaped(row, heads, width)
    ensures RowEntries(row) == heads * width
  {
    if row != [] {
      RowEntriesAre(row[1..], heads - 1, width);
      MulSucc(heads - 1, width);
    }
  }

  function RowsEntries(rows: seq<Row>): nat {
    if rows == [] then 0 else RowsEntries(rows[..|rows| - 1]) + RowEntries(rows[|rows| - 1])
  }

  lemma {:induction false} RowsEntriesAre(rows: seq<Row>, heads: nat, width: nat)
    requires forall t :: 0 <= t < |rows| ==> RowShaped(rows[t], heads, width)
    ensures RowsEntries(rows) == Entries(|rows|, heads, width)
  {
    if rows != [] {
      RowsEntriesAre(rows[..|rows| - 1], heads, width);
      RowEntriesAre(rows[|rows| - 1], heads, width);
    }
  }

  /** Entries of the populated rows of all layers. */
  function Populated(layers: seq<LayerCache>): nat {
    if layers == [] then 0
    else Populated(layers[..|layers| - 1]) + RowsEntries(layers[|layers| - 1].keys) + RowsEntries(layers[|layers| - 1].values)
  }

  lemma {:induction false} PopulatedIs(layers: seq<LayerCache>, length: nat, heads: nat, width: nat)
    requires Aligned(layers, length)
    requires forall l, t :: 0 <= l < |layers| && 0 <= t < length ==> RowShaped(layers[l].keys[t], heads, width) && RowShaped(layers[l].values[t], heads, width)
    ensures Populated(layers) == |layers| * (2 * (length * (heads * width)))
  {
    hide RowShaped;
    if layers != [] {
      var last := layers[|layers| - 1];
      PopulatedIs(layers[..|layers| - 1], length, heads, width);
      RowsEntriesAre(last.keys, heads, width);
      RowsEntriesAre(last.values, heads, width);
      EntriesAre(length, heads, width);
      MulSucc(|layers| - 1, 2 * (length * (heads * width)));
    }
  }

  lemma Flattened(n: nat, length: nat, heads: nat, width: nat, bytes: nat)
    ensures n * (2 * (length * (heads * width))) * bytes == 2 * n * length * heads * width * bytes
  {
    MulAssoc(length, heads, width);
    MulAssoc(n, 2, length * heads * width);
    MulAssoc(2 * n, length * heads, width);
    MulAssoc(2 * n, length, heads);
  }

  class KvCache {
    const layers: seq<LayerKvCache>
    const heads: nat
    const width: nat
    const capacity: nat

    /** The objects and arrays of the layers. */
    ghost function Repr(): set<object>
      reads this
    {
      (set l | 0 <= l < |layers| :: layers[l] as object) + (set l | 0 <= l < |layers| :: layers[l].keys as object)
      + (set l | 0 <= l < |layers| :: layers[l].values as object)
    }

    /** Every layer is valid and has storage of its own. */
    ghost predicate Valid()
      reads this, Repr()
    {
      && (forall l :: 0 <= l < |layers| ==> layers[l].Valid() && layers[l].heads == heads && layers[l].width == width && layers[l].capacity == capacity)
      && (forall l, m :: 0 <= l < m < |layers| ==>
            && layers[l] != layers[m] && layers[l].keys != layers[m].keys && layers[l].values != layers[m].values
            && layers[l].keys != layers[m].values && layers[l].values != layers[m].keys)
    }

    /** Entries of the storage of the first `n` layers: an array of key rows and one of value rows each. */
    ghost function Allocated(n: nat): nat
      requires n <= |layers|
    {
      if n == 0 then 0
      else Allocated(n - 1) + Entries(layers[n - 1].keys.Length, heads, width) + Entries(layers[n - 1].values.Length, heads, width)
    }

    ghost function Contents(): (c: Cache)
      requires Valid()
      reads this, Repr()
      ensures |c.layers| == |layers| && c.capacity == capacity
    {
      Cache(seq(|layers|, l requires 0 <= l < |layers| && Valid() reads this, Repr() => layers[l].Contents()), capacity)
    }

    /** `new_for_layers`. */
    static method Create(heads: nat, width: nat, layerCount: nat, capacity: nat, maxLayers: nat, maxPositions: nat) returns (result: Result<KvCache, CacheError>)
      ensures result.Ok? <==> 1 <= layerCount <= maxLayers && 1 <= capacity <= maxPositions
      ensures result.Ok? ==>
                && result.value.Valid() && fresh(result.value) && fresh(result.value.Repr())
                && result.value.heads == heads && result.value.width == width
                && result.value.Contents() == Cache(seq(layerCount, _ => LayerCache([], [])), capacity)
    {
      if layerCount == 0 || layerCount > maxLayers {
        return Err(NoLayers);
      }
      if capacity == 0 || capacity > maxPositions {
        return Err(NoCapacity);
      }
      var cache := new KvCache(heads, width, layerCount, capacity);
      return Ok(cache);
    }

    constructor (heads: nat, width: nat, layerCount: nat, capacity: nat)
      ensures Valid() && fresh(Repr()) && this.heads == heads && this.width == width && this.capacity == capacity
      ensures Contents() == Cache(seq(layerCount, _ => LayerCache([], [])), capacity)
    {
      var made: seq<LayerKvCache> := [];
      for l := 0 to layerCount
        invariant |made| == l
        invariant forall i :: 0 <= i < l ==>
                    && fresh(made[i]) && fresh(made[i].keys) && fresh(made[i].values)
                    && made[i].Valid() && made[i].heads == heads && made[i].width == width && made[i].capacity == capacity
                    && made[i].Contents() == LayerCache([], [])
        invariant forall i, j :: 0 <= i < j < l ==>
                    && made[i] != made[j] && made[i].keys != made[j].keys && made[i].values != made[j].values
                    && made[i].keys != made[j].values && made[i].values != made[j].keys
      {
        var layer := new LayerKvCache(heads, width, capacity);
        made := made + [layer];
      }
      layers, this.heads, this.width, this.capacity := made, heads, width, capacity;
    }

    /** `len`: the populated positions of the first layer. */
    method Len() returns (n: nat)
      requires Valid()
      ensures n == Length(Contents())
    {
      n := if |layers| == 0 then 0 else layers[0].length;
    }

    /** Whether an append to layer `layer` fails, and with what error. */
    function AppendError(layer: nat, newKeys: Chunk, newValues: Chunk): Option<CacheError>
      reads this, Repr()
    {
      if layer >= |layers| then Some(NoSuchLayer) else layers[layer].AppendError(newKeys, newValues)
    }

    /** `used_bytes`: the bytes of all populated keys and values, once every layer has the same positions. */
    method UsedBytes(bytes: nat) returns (used: nat)
      requires Valid()
      ensures Aligned(Contents().layers, Length(Contents())) ==> used == Populated(Contents().layers) * bytes
    {
      var length := Len();
      used := 2 * |layers| * length * heads * width * bytes;
      ghost var all := Contents().layers;
      if Aligned(all, length) {
        forall l, t | 0 <= l < |all| && 0 <= t < length ensures RowShaped(all[l].keys[t], heads, width) && RowShaped(all[l].values[t], heads, width) {
          assert all[l] == layers[l].Contents();
        }
        PopulatedIs(all, length, heads, width);
        Flattened(|layers|, length, heads, width, bytes);
      }
    }

    /** Appends to one layer, or changes nothing; every other layer keeps its contents. */
    method Append(layer: nat, newKeys: Chunk, newValues: Chunk) returns (result: Result<LayerCache, CacheError>)
      requires Valid() && WellShaped(newKeys) && WellShaped(newValues)
      modifies Repr()
      ensures Valid()
      ensures old(AppendError(layer, newKeys, newValues)).Some? ==>
                result == Err(old(AppendError(layer, newKeys, newValues)).value) && Contents() == old(Contents())
      ensures old(AppendError(layer, newKeys, newValues)).None? ==>
                && layer < |layers|
                && result == Ok(LayerCache(old(Contents()).layers[layer].keys + newKeys.rows, old(Contents()).layers[layer].values + newValues.rows))
                && Contents() == old(Contents()).(layers := old(Contents()).layers[layer := result.value])
    {
      if layer >= |layers| {
        return Err(NoSuchLayer);
      }
      ghost var before := Contents();
      result := layers[layer].Append(newKeys, newValues);
      forall l | 0 <= l < |layers| && l != layer ensures layers[l].Contents() == before.layers[l] {
      }
      assert Contents().layers == before.layers[layer := layers[layer].Contents()];
      assert result.Err? ==> Contents().layers == before.layers;
    }
  }
}
