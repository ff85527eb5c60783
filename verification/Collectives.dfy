/** The native collectives as rank programs.

A tensor is the sequence of its slices along the axis of the collective (its elements, for the
elementwise collectives), so concatenation is `+`, `narrow` is a slice, and `plus` adds two
slices. `plus` is arbitrary: nothing here assumes that it is associative or commutative. So is `fits`, the
comparison of two tensors on all other axes. */
module Collectives {
  import opened Options
  import opened Arithmetic
  import opened Sequences
  import opened Network
  import opened Tags

  /** One communication world: its size, the slice addition, the payload bytes of a tensor of so many
  slices, and whether two tensors agree on every axis but the one of the collective. */
  datatype World<!E> = World(size: nat, plus: (E, E) -> E, bytes: nat -> nat, fits: (seq<E>, seq<E>) -> bool)

  /** What a collective gives back on one rank, with the payload bytes its trace records. */
  datatype Output<E> = Output(tensor: Option<seq<E>>, sent: nat, received: nat)

  datatype Call =
    | BroadcastCall(root: nat)
    | ReduceCall(root: nat)
    | AllGatherCall
    | CentralizedAllReduceCall
    | RingAllReduceCall
    | ReduceScatterCall
    | AllToAllCall

  /** A group of ranks can only use the ring and the pairwise exchange while every step fits the
  eight step bits of a tag, that is up to 257 ranks. */
  const MAX_EXCHANGE_WORLD: nat := 257

  /** Payload bytes of F32 elements. */
  function FourBytes(elements: nat): nat { 4 * elements }

  function Bytes<E>(w: World<E>, x: seq<E>): nat {
    w.bytes(|x|)
  }

  function Zip<E>(plus: (E, E) -> E, a: seq<E>, b: seq<E>): (c: seq<E>)
    requires |a| == |b|
    ensures |c| == |a|
  {
    seq(|a|, i requires 0 <= i < |a| => plus(a[i], b[i]))
  }

  /** `reduced + incoming` after the shape check; `None` is the shape error. */
  function AddIncoming<E>(w: World<E>, reduced: seq<E>, incoming: seq<E>): Option<seq<E>> {
    if |reduced| == |incoming| then Some(Zip(w.plus, reduced, incoming)) else None
  }

  /** Shards in the order in which they were received, each compared with the root's own tensor `x`;
  `None` is the shape error. */
  function PushShard<E>(w: World<E>, x: seq<E>, gathered: seq<E>, incoming: seq<E>): Option<seq<E>> {
    if w.fits(x, incoming) then Some(gathered + incoming) else None
  }

  /** Slice number `index` of `parts` equal ones, as `narrow` cuts it. */
  function Chunk<E>(x: seq<E>, parts: nat, index: nat): (c: seq<E>)
    requires index < parts && |x| % parts == 0
    ensures |c| == |x| / parts
  {
    ChunkBounds(|x|, parts, index);
    x[index * (|x| / parts)..(index + 1) * (|x| / parts)]
  }

  lemma ChunkBounds(length: nat, parts: nat, index: nat)
    requires index < parts && length % parts == 0
    ensures 0 <= index * (length / parts) <= (index + 1) * (length / parts) <= length
    ensures (index + 1) * (length / parts) == index * (length / parts) + length / parts
  {
    DivExact(length, parts);
    MulLe(index + 1, parts, length / parts);
    MulSucc(index, length / parts);
  }

  // ---- the loops ----

  /** `for source in .. { reduced = absorb(reduced, recv(source)) }` on the root. The loops of the
  source that start at rank 1 have root 0, which this loop skips in the same way. */
  function GatherLoop<E, C, R>(w: World<E>, source: nat, root: nat, tag: nat, acc: seq<E>, received: nat,
                               absorb: (seq<E>, seq<E>) -> Option<seq<E>>,
                               k: (seq<E>, nat) -> Proc<seq<E>, C, R>): Proc<seq<E>, C, R>
    decreases w.size - source
  {
    if source >= w.size then k(acc, received)
    else if source == root then GatherLoop(w, source + 1, root, tag, acc, received, absorb, k)
    else Recv(source, WantTensor(tag), (f: Frame<seq<E>, C>) =>
      if !f.Tensor? then Failed else
      match absorb(acc, f.tensor)
      case None => Failed
      case Some(next) =>
        GatherLoop(w, source + 1, root, tag, next, received + Bytes(w, f.tensor), absorb, k))
  }

  /** `for destination in .. { send(destination, pick(destination)) }` on the root. */
  function ScatterLoop<E, C, R>(w: World<E>, destination: nat, root: nat, tag: nat, pick: nat -> seq<E>, sent: nat,
                                k: nat -> Proc<seq<E>, C, R>): Proc<seq<E>, C, R>
    decreases w.size - destination
  {
    if destination >= w.size then k(sent)
    else if destination == root then ScatterLoop(w, destination + 1, root, tag, pick, sent, k)
    else Send(destination, Tensor(tag, pick(destination)),
              ScatterLoop(w, destination + 1, root, tag, pick, sent + Bytes(w, pick(destination)), k))
  }

  /** One receive of a tensor from `root`. */
  function TakeFrom<E, C, R>(root: nat, tag: nat, k: seq<E> -> Proc<seq<E>, C, R>): Proc<seq<E>, C, R> {
    Recv(root, WantTensor(tag), (f: Frame<seq<E>, C>) => if f.Tensor? then k(f.tensor) else Failed)
  }

  function Next(rank: nat, size: nat): nat requires rank < size { Wrap(rank + 1, size) }
  function Previous(rank: nat, size: nat): nat requires rank < size { Wrap(rank + size - 1, size) }

  /** First phase of the ring: every step adds the incoming chunk to the local one, and the second
  phase follows. */
  function RingReduce<E, C, R>(w: World<E>, rank: nat, sequence: nat, step: nat, chunks: seq<seq<E>>, sent: nat, received: nat,
                               k: (seq<seq<E>>, nat, nat) -> Proc<seq<E>, C, R>): Proc<seq<E>, C, R>
    requires rank < w.size == |chunks|
    decreases w.size - step
  {
    if step >= w.size - 1 then RingShare(w, rank, sequence, 0, chunks, sent, received, k) else
    var sendIndex, receiveIndex := Wrap(rank + w.size - step, w.size), Wrap(rank + w.size - step - 1, w.size);
    match CollectiveTag(sequence, AllReduce, 1, step)
    case None => Failed
    case Some(tag) =>
      Exchange(Next(rank, w.size), Tensor(tag, chunks[sendIndex]), Previous(rank, w.size), tag, (f: Frame<seq<E>, C>) =>
        if !f.Tensor? then Failed else
        match AddIncoming(w, chunks[receiveIndex], f.tensor)
        case None => Failed
        case Some(sum) =>
          RingReduce(w, rank, sequence, step + 1, chunks[receiveIndex := sum],
                     sent + Bytes(w, chunks[sendIndex]), received + Bytes(w, f.tensor), k))
  }

  /** Second phase of the ring: every step replaces the local chunk by the incoming one. */
  function RingShare<E, C, R>(w: World<E>, rank: nat, sequence: nat, step: nat, chunks: seq<seq<E>>, sent: nat, received: nat,
                              k: (seq<seq<E>>, nat, nat) -> Proc<seq<E>, C, R>): Proc<seq<E>, C, R>
    requires rank < w.size == |chunks|
    decreases w.size - step
  {
    if step >= w.size - 1 then k(chunks, sent, received) else
    var sendIndex, receiveIndex := Wrap(rank + 1 + w.size - step, w.size), Wrap(rank + w.size - step, w.size);
    match CollectiveTag(sequence, AllReduce, 2, step)
    case None => Failed
    case Some(tag) =>
      Exchange(Next(rank, w.size), Tensor(tag, chunks[sendIndex]), Previous(rank, w.size), tag, (f: Frame<seq<E>, C>) =>
        if !f.Tensor? || |f.tensor| != |chunks[receiveIndex]| then Failed else
        RingShare(w, rank, sequence, step + 1, chunks[receiveIndex := f.tensor],
                  sent + Bytes(w, chunks[sendIndex]), received + Bytes(w, f.tensor), k))
  }

  predicate AllArrived<E>(shards: seq<Option<seq<E>>>) {
    forall i :: 0 <= i < |shards| ==> shards[i].Some?
  }

  function Arrived<E>(shards: seq<Option<seq<E>>>): seq<seq<E>>
    requires AllArrived(shards)
  {
    seq(|shards|, i requires 0 <= i < |shards| => shards[i].value)
  }

  /** The pairwise rounds of all-to-all; round `step` talks to the ranks `step` away on either side. */
  function PairwiseLoop<E, C, R>(w: World<E>, rank: nat, sequence: nat, step: nat, shards: seq<seq<E>>,
                                 got: seq<Option<seq<E>>>, sent: nat, received: nat,
                                 k: Output<E> -> Proc<seq<E>, C, R>): Proc<seq<E>, C, R>
    requires rank < w.size == |shards| == |got| && step >= 1
    decreases w.size - step
  {
    if step >= w.size then
      if AllArrived(got) then k(Output(Some(Join(Arrived(got))), sent, received)) else Failed
    else
    var destination, source := Wrap(rank + step, w.size), Wrap(rank + w.size - step, w.size);
    match CollectiveTag(sequence, AllToAll, 0, step - 1)
    case None => Failed
    case Some(tag) =>
      Exchange(destination, Tensor(tag, shards[destination]), source, tag, (f: Frame<seq<E>, C>) =>
        if !f.Tensor? || !w.fits(shards[destination], f.tensor) then Failed else
        PairwiseLoop(w, rank, sequence, step + 1, shards, got[source := Some(f.tensor)],
                     sent + Bytes(w, shards[destination]), received + Bytes(w, f.tensor), k))
  }

  // ---- the collectives ----

  /** Gather onto rank 0 with `absorb`, then hand every other rank its `pick` of the result: the
  shape shared by the centralized all-reduce, all-gather and reduce-scatter. */
  function GatherScatter<E, C, R>(w: World<E>, rank: nat, gatherTag: nat, scatterTag: nat, x: seq<E>,
                                  absorb: (seq<E>, seq<E>) -> Option<seq<E>>,
                                  pick: (seq<E>, nat) -> seq<E>, check: seq<E> -> bool,
                                  k: Output<E> -> Proc<seq<E>, C, R>): Proc<seq<E>, C, R>
  {
    if rank == 0 then GatherLoop(w, 0, 0, gatherTag, x, 0, absorb, ThenScatter(w, scatterTag, pick, k))
    else Send(0, Tensor(gatherTag, x), TakeFrom(0, scatterTag, y =>
        if check(y) then k(Output(Some(y), Bytes(w, x), Bytes(w, y))) else Failed))
  }

  function ThenScatter<E, C, R>(w: World<E>, tag: nat, pick: (seq<E>, nat) -> seq<E>,
                                k: Output<E> -> Proc<seq<E>, C, R>): (seq<E>, nat) -> Proc<seq<E>, C, R>
  {
    (acc: seq<E>, received: nat) =>
      ScatterLoop(w, 0, 0, tag, ShareOf(pick, acc), 0, ThenFinish(Some(pick(acc, 0)), received, k))
  }

  function ShareOf<E>(pick: (seq<E>, nat) -> seq<E>, acc: seq<E>): nat -> seq<E> {
    (d: nat) => pick(acc, d)
  }

  function ThenFinish<E, C, R>(result: Option<seq<E>>, received: nat, k: Output<E> -> Proc<seq<E>, C, R>): nat -> Proc<seq<E>, C, R> {
    (sent: nat) => k(Output(result, sent, received))
  }

  function BroadcastProc<E, C, R>(w: World<E>, rank: nat, root: nat, tag: nat, x: seq<E>,
                                  k: Output<E> -> Proc<seq<E>, C, R>): Proc<seq<E>, C, R>
  {
    if rank == root then ScatterLoop(w, 0, root, tag, ShareOf(Whole(), x), 0, ThenFinish(Some(x), 0, k))
    else TakeFrom(root, tag, y => k(Output(Some(y), 0, Bytes(w, y))))
  }

  function ReduceProc<E, C, R>(w: World<E>, rank: nat, root: nat, tag: nat, x: seq<E>,
                               k: Output<E> -> Proc<seq<E>, C, R>): Proc<seq<E>, C, R>
  {
    if rank == root then GatherLoop(w, 0, root, tag, x, 0, Adding(w), ThenKeep(k))
    else Send(root, Tensor(tag, x), k(Output(None, Bytes(w, x), 0)))
  }

  function ThenKeep<E, C, R>(k: Output<E> -> Proc<seq<E>, C, R>): (seq<E>, nat) -> Proc<seq<E>, C, R> {
    (acc: seq<E>, received: nat) => k(Output(Some(acc), 0, received))
  }

  function RingProc<E, C, R>(w: World<E>, rank: nat, sequence: nat, x: seq<E>,
                             k: Output<E> -> Proc<seq<E>, C, R>): Proc<seq<E>, C, R>
    requires rank < w.size
  {
    if w.size == 1 then k(Output(Some(x), 0, 0))
    else if |x| % w.size != 0 then Failed
    else
      RingReduce(w, rank, sequence, 0, Chunks(w, x), 0, 0, ThenConcat(k))
  }

  function ThenConcat<E, C, R>(k: Output<E> -> Proc<seq<E>, C, R>): (seq<seq<E>>, nat, nat) -> Proc<seq<E>, C, R> {
    (chunks: seq<seq<E>>, sent: nat, received: nat) => k(Output(Some(Join(chunks)), sent, received))
  }

  function Chunks<E>(w: World<E>, x: seq<E>): (chunks: seq<seq<E>>)
    requires w.size > 0 && |x| % w.size == 0
    ensures |chunks| == w.size
  {
    seq(w.size, c requires 0 <= c < w.size => Chunk(x, w.size, c))
  }

  function KindOf(call: Call): CollectiveKind {
    match call
    case BroadcastCall(_) => Broadcast
    case ReduceCall(_) => Reduce
    case AllGatherCall => AllGather
    case CentralizedAllReduceCall => AllReduce
    case RingAllReduceCall => AllReduce
    case ReduceScatterCall => ReduceScatter
    case AllToAllCall => AllToAll
  }

  predicate RootFits(call: Call, size: nat) {
    (call.BroadcastCall? || call.ReduceCall?) ==> call.root < size
  }

  // What a root does with an incoming tensor, what it hands out, and what a receiver checks.

  function Adding<E>(w: World<E>): (seq<E>, seq<E>) -> Option<seq<E>> { (acc, y) => AddIncoming(w, acc, y) }
  function Pushing<E>(w: World<E>, x: seq<E>): (seq<E>, seq<E>) -> Option<seq<E>> { (acc, y) => PushShard(w, x, acc, y) }
  function Whole<E>(): (seq<E>, nat) -> seq<E> { (acc, _) => acc }
  function ShardFor<E>(w: World<E>): (seq<E>, nat) -> seq<E> {
    (acc: seq<E>, d: nat) => if d < w.size && |acc| % w.size == 0 then Chunk(acc, w.size, d) else []
  }
  function SameShape<E>(x: seq<E>): seq<E> -> bool { y => |y| == |x| }
  function AnyShape<E>(): seq<E> -> bool { _ => true }

  /** One collective call on one rank: `begin`, the algorithm, and the rest of the program `k`. */
  function CallProc<E, C, R>(w: World<E>, call: Call, rank: nat, sequence: nat, x: seq<E>,
                             k: Output<E> -> Proc<seq<E>, C, R>): Proc<seq<E>, C, R>
    requires rank < w.size
  {
    var kind := KindOf(call);
    var tag0, tag1, tag2 := CollectiveTag(sequence, kind, 0, 0), CollectiveTag(sequence, kind, 1, 0), CollectiveTag(sequence, kind, 2, 0);
    if tag0.None? || tag1.None? || tag2.None? || !RootFits(call, w.size) then Failed
    else
      match call
      case BroadcastCall(root) => BroadcastProc(w, rank, root, tag0.value, x, k)
      case ReduceCall(root) => ReduceProc(w, rank, root, tag0.value, x, k)
      case AllGatherCall => GatherScatter(w, rank, tag1.value, tag2.value, x, Pushing(w, x), Whole(), AnyShape(), k)
      case CentralizedAllReduceCall =>
        GatherScatter(w, rank, tag1.value, tag2.value, x, Adding(w), Whole(), SameShape(x), k)
      case RingAllReduceCall => RingProc(w, rank, sequence, x, k)
      case ReduceScatterCall =>
        if |x| % w.size != 0 then Failed
        else GatherScatter(w, rank, tag1.value, tag2.value, x, Adding(w), ShardFor(w), AnyShape(), k)
      case AllToAllCall =>
        if |x| % w.size != 0 then Failed
        else PairwiseLoop(w, rank, sequence, 1, Chunks(w, x), OwnShard(Chunks(w, x), rank), 0, 0, k)
  }

  /** Before the first round a rank has only the shard it keeps for itself. */
  function OwnShard<E>(shards: seq<seq<E>>, rank: nat): (got: seq<Option<seq<E>>>)
    ensures |got| == |shards|
  {
    seq(|shards|, i requires 0 <= i < |shards| => if i == rank then Some(shards[i]) else None)
  }
}
