/** What the collectives add up to: the ring sum is the centralized sum when addition is commutative
and associative, and the bytes recorded as sent and as received balance. */
module CollectiveAlgebra {
  import opened Options
  import opened Arithmetic
  import opened Sequences
  import opened Network
  import opened Tags
  import opened Collectives
  import opened CollectiveRuns
  import opened RingRuns
  import opened PairwiseRuns
  import opened CollectiveSpecs

  // ---- the two orders of summation, one element at a time ----

  /** v[c+j] + (.. + (v[c+1] + v[c])), indices modulo |v|. */
  ghost function RingFold<E>(plus: (E, E) -> E, v: seq<E>, c: nat, j: nat): E
    requires c < |v| && j < |v|
  {
    if j == 0 then v[c] else plus(v[Wrap(c + j, |v|)], RingFold(plus, v, c, j - 1))
  }

  /** ((v[a] + v[a+1]) + ..) + v[b-1]. */
  ghost function LeftFold<E>(plus: (E, E) -> E, v: seq<E>, a: nat, b: nat): E
    requires a < b <= |v|
  {
    if b == a + 1 then v[a] else plus(LeftFold(plus, v, a, b - 1), v[b - 1])
  }

  ghost predicate Commutative<E(!new)>(plus: (E, E) -> E) {
    forall a, b :: plus(a, b) == plus(b, a)
  }

  ghost predicate Associative<E(!new)>(plus: (E, E) -> E) {
    forall a, b, c :: plus(plus(a, b), c) == plus(a, plus(b, c))
  }

  lemma Swap<E(!new)>(plus: (E, E) -> E, a: E, b: E)
    requires Commutative(plus)
    ensures plus(a, b) == plus(b, a)
  {}

  lemma Regroup<E(!new)>(plus: (E, E) -> E, a: E, b: E, c: E)
    requires Associative(plus)
    ensures plus(plus(a, b), c) == plus(a, plus(b, c))
  {}

  lemma {:induction false} FoldsJoin<E(!new)>(plus: (E, E) -> E, v: seq<E>, a: nat, b: nat, c: nat)
    requires Associative(plus) && a < b < c <= |v|
    ensures plus(LeftFold(plus, v, a, b), LeftFold(plus, v, b, c)) == LeftFold(plus, v, a, c)
  {
    hide Associative;
    if c > b + 1 {
      FoldsJoin(plus, v, a, b, c - 1);
      Regroup(plus, LeftFold(plus, v, a, b), LeftFold(plus, v, b, c - 1), v[c - 1]);
    }
  }

  /** The ring's order of summation, before and after it wraps around. */
  lemma {:induction false} RingFoldIs<E(!new)>(plus: (E, E) -> E, v: seq<E>, c: nat, j: nat)
    requires Commutative(plus) && Associative(plus) && c < |v| && j < |v|
    ensures RingFold(plus, v, c, j) ==
            if c + j < |v| then LeftFold(plus, v, c, c + j + 1)
            else plus(LeftFold(plus, v, c, |v|), LeftFold(plus, v, 0, c + j - |v| + 1))
  {
    hide Associative, Commutative;
    if j > 0 {
      RingFoldIs(plus, v, c, j - 1);
      var x := v[Wrap(c + j, |v|)];
      Swap(plus, x, RingFold(plus, v, c, j - 1));
      if c + j > |v| {
        Regroup(plus, LeftFold(plus, v, c, |v|), LeftFold(plus, v, 0, c + j - |v|), x);
      }
    }
  }

  lemma RingFoldIsLeftFold<E(!new)>(plus: (E, E) -> E, v: seq<E>, c: nat)
    requires Commutative(plus) && Associative(plus) && c < |v|
    ensures RingFold(plus, v, c, |v| - 1) == LeftFold(plus, v, 0, |v|)
  {
    RingFoldIs(plus, v, c, |v| - 1);
    if c > 0 {
      FoldsJoin(plus, v, 0, c, |v|);
      Swap(plus, LeftFold(plus, v, c, |v|), LeftFold(plus, v, 0, c));
    }
  }

  // ---- from elements to tensors ----

  /** Element `i` of every rank's tensor. */
  ghost function Column<E>(xs: seq<seq<E>>, i: nat): (v: seq<E>)
    requires forall r :: 0 <= r < |xs| ==> i < |xs[r]|
    ensures |v| == |xs|
  {
    seq(|xs|, r requires 0 <= r < |xs| => xs[r][i])
  }

  lemma {:induction false} PartialAt<E>(w: World<E>, cs: seq<seq<seq<E>>>, n: nat, c: nat, j: nat, o: nat, v: seq<E>)
    requires Grid(w, cs, n) && c < w.size && j < w.size && o < n
    requires |v| == w.size && forall r :: 0 <= r < w.size ==> v[r] == cs[r][c][o]
    ensures Partial(w, cs, n, c, j)[o] == RingFold(w.plus, v, c, j)
  {
    if j > 0 {
      PartialAt(w, cs, n, c, j - 1, o, v);
    }
  }

  lemma {:induction false} SumAt<E>(w: World<E>, source: nat, acc: seq<E>, xs: seq<seq<E>>, i: nat)
    requires |xs| == w.size && (forall q :: 0 <= q < w.size ==> |xs[q]| == |acc|) && i < |acc| && 0 < source <= w.size
    requires acc[i] == LeftFold(w.plus, Column(xs, i), 0, source)
    ensures SumOnto(w, source, 0, acc, xs)[i] == LeftFold(w.plus, Column(xs, i), 0, w.size)
    decreases w.size - source
  {
    if source < w.size {
      SumAt(w, source + 1, Zip(w.plus, acc, xs[source]), xs, i);
    }
  }

  lemma ChunkAt<E>(x: seq<E>, parts: nat, c: nat, o: nat)
    requires c < parts && |x| % parts == 0 && o < |x| / parts
    ensures c * (|x| / parts) + o < |x| && Chunk(x, parts, c)[o] == x[c * (|x| / parts) + o]
  {
    ChunkBounds(|x|, parts, c);
  }

  /** Element `o` of chunk `c` of the ring sum is the ring's fold of that element over the ranks. */
  lemma RingSumIsFold<E>(w: World<E>, xs: seq<seq<E>>, n: nat, c: nat, o: nat, i: nat)
    requires |xs| == w.size > 0 && SameLength(xs) && |xs[0]| % w.size == 0 && n == |xs[0]| / w.size
    requires c < w.size && o < n && i == c * n + o
    ensures forall r :: 0 <= r < w.size ==> i < |xs[r]|
    ensures i < |RingSum(w, xs)| && RingSum(w, xs)[i] == RingFold(w.plus, Column(xs, i), c, w.size - 1)
  {
    hide Partial, RingFold, Join;
    forall r | 0 <= r < w.size ensures i < |xs[r]| && Grids(w, xs)[r][c][o] == xs[r][i] {
      assert |xs[r]| == |xs[0]|;
      ChunkAt(xs[r], w.size, c, o);
    }
    JoinAt(CompleteChunks(w, Grids(w, xs), n), n, c, o);
    PartialAt(w, Grids(w, xs), n, c, w.size - 1, o, Column(xs, i));
  }

  lemma RootSumIsFold<E>(w: World<E>, xs: seq<seq<E>>, i: nat)
    requires |xs| == w.size > 0 && SameLength(xs) && i < |xs[0]|
    ensures forall r :: 0 <= r < w.size ==> i < |xs[r]|
    ensures Sum(w, 0, xs)[i] == LeftFold(w.plus, Column(xs, i), 0, w.size)
  {
    assert forall r :: 0 <= r < w.size ==> |xs[r]| == |xs[0]|;
    assert SumOnto(w, 0, 0, xs[0], xs) == SumOnto(w, 1, 0, xs[0], xs);
    SumAt(w, 1, xs[0], xs, i);
  }

  lemma RingSumAt<E(!new)>(w: World<E>, xs: seq<seq<E>>, n: nat, c: nat, o: nat, i: nat)
    requires Commutative(w.plus) && Associative(w.plus)
    requires |xs| == w.size > 0 && SameLength(xs) && |xs[0]| % w.size == 0 && n == |xs[0]| / w.size
    requires c < w.size && o < n && i == c * n + o
    ensures i < |xs[0]| && i < |RingSum(w, xs)| && RingSum(w, xs)[i] == Sum(w, 0, xs)[i]
  {
    hide RingSum, Sum, SameLength, LeftFold, RingFold, Commutative, Associative;
    RingSumIsFold(w, xs, n, c, o, i);
    RootSumIsFold(w, xs, i);
    RingFoldIsLeftFold(w.plus, Column(xs, i), c);
  }

  /** Every index below `parts * n` lies in one of the parts. */
  lemma IndexOf(i: nat, parts: nat, n: nat) returns (c: nat, o: nat)
    requires i < parts * n
    ensures c < parts && o < n && i == c * n + o
  {
    assert n > 0;
    c, o := i / n, i % n;
    if c >= parts {
      MulLe(parts, c, n);
    }
  }

  /** The ring all-reduce computes the centralized sum when addition is commutative and associative. */
  lemma RingIsCentralized<E(!new)>(w: World<E>, xs: seq<seq<E>>)
    requires Commutative(w.plus) && Associative(w.plus)
    requires |xs| == w.size > 0 && SameLength(xs) && |xs[0]| % w.size == 0
    ensures RingSum(w, xs) == Sum(w, 0, xs)
  {
    var n, length := |xs[0]| / w.size, |xs[0]|;
    DivExact(length, w.size);
    JoinLength(CompleteChunks(w, Grids(w, xs), n), n);
    assert |RingSum(w, xs)| == length == |Sum(w, 0, xs)|;
    hide RingSum, Sum, Commutative, Associative;
    forall i | 0 <= i < length ensures RingSum(w, xs)[i] == Sum(w, 0, xs)[i] {
      var c, o := IndexOf(i, w.size, n);
      RingSumAt(w, xs, n, c, o, i);
    }
  }

  // ---- which slice a rank gets ----

  /** `x[lo..hi]` for the equal parts of a sequence, part `r` of `parts`. */
  function Slice<E>(x: seq<E>, parts: nat, r: nat): seq<E>
    requires r < parts && |x| % parts == 0
  {
    ChunkBounds(|x|, parts, r);
    var n := |x| / parts;
    x[r * n..(r + 1) * n]
  }

  lemma {:induction false} SlicesJoin<E>(x: seq<E>, parts: nat, n: nat, slices: seq<seq<E>>)
    requires |slices| == parts && |x| == parts * n
    requires forall r :: 0 <= r < parts ==> |slices[r]| == n && forall o :: 0 <= o < n && r * n + o < |x| ==> slices[r][o] == x[r * n + o]
    ensures Join(slices) == x
  {
    JoinLength(slices, n);
    hide Join;
    forall i | 0 <= i < |x| ensures Join(slices)[i] == x[i] {
      var c, o := IndexOf(i, parts, n);
      JoinAt(slices, n, c, o);
    }
  }

  lemma SliceIs<E>(x: seq<E>, parts: nat, r: nat)
    requires r < parts && |x| % parts == 0
    ensures var n := |x| / parts; |Slice(x, parts, r)| == n && forall o :: 0 <= o < n && r * n + o < |x| ==> Slice(x, parts, r)[o] == x[r * n + o]
  {
    ChunkBounds(|x|, parts, r);
  }

  /** Reduce-scatter gives rank `r` the elements `r * n/p .. (r + 1) * n/p` of the sum. */
  lemma ReduceScatterSlice<E>(w: World<E>, sequence: nat, xs: seq<seq<E>>, r: nat)
    requires Valid(w, ReduceScatterCall, sequence, xs) && r < w.size
    ensures |Sum(w, 0, xs)| % w.size == 0
    ensures Spec(w, ReduceScatterCall, sequence, xs, r).tensor == Some(Slice(Sum(w, 0, xs), w.size, r))
  {}

  /** In rank order the shards of a reduce-scatter are the tensor of the centralized all-reduce. */
  lemma ReduceScatterJoins<E>(w: World<E>, sequence: nat, xs: seq<seq<E>>, shards: seq<seq<E>>)
    requires Valid(w, ReduceScatterCall, sequence, xs) && |shards| == w.size
    requires forall r :: 0 <= r < w.size ==> Spec(w, ReduceScatterCall, sequence, xs, r).tensor == Some(shards[r])
    ensures Valid(w, CentralizedAllReduceCall, sequence, xs)
    ensures forall r :: 0 <= r < w.size ==> Spec(w, CentralizedAllReduceCall, sequence, xs, r).tensor == Some(Join(shards))
  {
    var sum, n := Sum(w, 0, xs), |Sum(w, 0, xs)| / w.size;
    DivExact(|sum|, w.size);
    hide Slice;
    forall r | 0 <= r < w.size
      ensures |shards[r]| == n && forall o :: 0 <= o < n && r * n + o < |sum| ==> shards[r][o] == sum[r * n + o]
    {
      ReduceScatterSlice(w, sequence, xs, r);
      SliceIs(sum, w.size, r);
    }
    hide Sum;
    SlicesJoin(sum, w.size, n, shards);
  }

  /** All-to-all gives rank `r` the slices number `r` of all ranks' tensors, in rank order. */
  lemma AllToAllSlices<E>(w: World<E>, sequence: nat, xs: seq<seq<E>>, r: nat, slices: seq<seq<E>>)
    requires Valid(w, AllToAllCall, sequence, xs) && r < w.size && |slices| == w.size
    requires forall s :: 0 <= s < w.size ==> |xs[s]| % w.size == 0 && slices[s] == Slice(xs[s], w.size, r)
    ensures Spec(w, AllToAllCall, sequence, xs, r).tensor == Some(Join(slices))
  {
    hide Join;
    var cs := Cut(w, xs);
    assert seq(w.size, s requires 0 <= s < w.size => cs[s][r]) == slices;
  }

  // ---- the sum of a reduce ----

  /** The order in which a root adds: its own element first, then those of the others by rank. */
  function RootFirst<E>(v: seq<E>, root: nat): (order: seq<E>)
    requires root < |v|
    ensures |order| == |v|
  {
    [v[root]] + Without(v, root)
  }

  lemma {:induction false} ReduceSumAt<E>(w: World<E>, source: nat, root: nat, acc: seq<E>, xs: seq<seq<E>>, i: nat)
    requires |xs| == w.size && (forall q :: 0 <= q < w.size ==> |xs[q]| == |acc|) && i < |acc| && root < w.size && source <= w.size
    requires acc[i] == LeftFold(w.plus, RootFirst(Column(xs, i), root), 0, if source <= root then source + 1 else source)
    ensures SumOnto(w, source, root, acc, xs)[i] == LeftFold(w.plus, RootFirst(Column(xs, i), root), 0, w.size)
    decreases w.size - source
  {
    if source < w.size {
      ReduceSumAt(w, source + 1, root, if source == root then acc else Zip(w.plus, acc, xs[source]), xs, i);
    }
  }

  /** Element by element, reduce adds from the left in that order, whatever the operation. */
  lemma ReduceIsFold<E>(w: World<E>, sequence: nat, xs: seq<seq<E>>, root: nat, i: nat)
    requires Valid(w, ReduceCall(root), sequence, xs) && i < |xs[root]|
    ensures forall r :: 0 <= r < w.size ==> i < |xs[r]|
    ensures var o := Spec(w, ReduceCall(root), sequence, xs, root);
            o.tensor.Some? && |o.tensor.value| == |xs[root]| && o.tensor.value[i] == LeftFold(w.plus, RootFirst(Column(xs, i), root), 0, w.size)
  {
    assert forall r :: 0 <= r < w.size ==> |xs[r]| == |xs[root]|;
    ReduceSumAt(w, 0, root, xs[root], xs, i);
  }

  // ---- traffic ----

  lemma {:induction false} StepBytesIs(chunkBytes: nat, steps: nat)
    ensures StepBytes(chunkBytes, steps) == steps * chunkBytes
  {
    if steps > 0 {
      StepBytesIs(chunkBytes, steps - 1);
      MulSucc(steps - 1, chunkBytes);
    }
  }

  /** Every rank of a ring of p ranks over N elements of four bytes records 2 (p-1) (N/p) 4 bytes each way. */
  lemma RingTraffic<E>(w: World<E>, sequence: nat, xs: seq<seq<E>>, r: nat)
    requires Valid(w, RingAllReduceCall, sequence, xs) && r < w.size && w.size > 1
    requires forall m: nat :: w.bytes(m) == 4 * m
    ensures var o := Spec(w, RingAllReduceCall, sequence, xs, r);
            o.sent == o.received == 2 * ((w.size - 1) * (4 * (|xs[0]| / w.size)))
  {
    StepBytesIs(4 * (|xs[0]| / w.size), w.size - 1);
  }

  /** Bytes sent minus bytes received over all the calls a rank has completed. */
  ghost function NetFlow<E>(outs: seq<Output<E>>): int {
    if outs == [] then 0
    else NetFlow(outs[..|outs| - 1]) + outs[|outs| - 1].sent - outs[|outs| - 1].received
  }

  /** The net flow of the ranks `from..` together. */
  ghost function WorldFlow<E>(all: seq<seq<Output<E>>>, from: nat): int
    decreases |all| - from
  {
    if from >= |all| then 0 else NetFlow(all[from]) + WorldFlow(all, from + 1)
  }

  /** The net flow of one call over the ranks `from..`. */
  ghost function CallFlow<E>(w: World<E>, call: Call, sequence: nat, xs: seq<seq<E>>, from: nat): int
    requires Valid(w, call, sequence, xs)
    decreases w.size - from
  {
    if from >= w.size then 0
    else Spec(w, call, sequence, xs, from).sent - Spec(w, call, sequence, xs, from).received + CallFlow(w, call, sequence, xs, from + 1)
  }

  /** The net flow of the ranks `from..` before round `step` of all-to-all. */
  ghost function PairFlow<E>(w: World<E>, cs: seq<seq<seq<E>>>, step: nat, from: nat): int
    requires Shards(w, cs) && 1 <= step <= w.size
    decreases w.size - from
  {
    if from >= w.size then 0
    else SentBefore(w, cs, from, step) - ReceivedBefore(w, cs, from, step) + PairFlow(w, cs, step, from + 1)
  }

  /** What rank `r` sends in round `step`. */
  ghost function Given<E>(w: World<E>, cs: seq<seq<seq<E>>>, step: nat, r: nat): nat
    requires Shards(w, cs) && 1 <= step < w.size && r < w.size
  {
    Bytes(w, cs[r][Ahead(r, step, w.size)])
  }

  /** What the ranks `from..until` send in round `step`. */
  ghost function GivenBy<E>(w: World<E>, cs: seq<seq<seq<E>>>, step: nat, from: nat, until: nat): nat
    requires Shards(w, cs) && 1 <= step < w.size && from <= until <= w.size
    decreases until - from
  {
    if from == until then 0 else Given(w, cs, step, from) + GivenBy(w, cs, step, from + 1, until)
  }

  /** What the ranks `from..` receive in round `step`, by way of the ranks behind them. */
  ghost function TakenFrom<E>(w: World<E>, cs: seq<seq<seq<E>>>, step: nat, from: nat): nat
    requires Shards(w, cs) && 1 <= step < w.size
    decreases w.size - from
  {
    if from >= w.size then 0 else Given(w, cs, step, Behind(from, step, w.size)) + TakenFrom(w, cs, step, from + 1)
  }

  lemma {:induction false} OneMoreRound<E>(w: World<E>, cs: seq<seq<seq<E>>>, step: nat, from: nat)
    requires Shards(w, cs) && 1 <= step < w.size && from <= w.size
    ensures PairFlow(w, cs, step + 1, from) == PairFlow(w, cs, step, from) + GivenBy(w, cs, step, from, w.size) - TakenFrom(w, cs, step, from)
    decreases w.size - from
  {
    if from < w.size {
      OneMoreRound(w, cs, step, from + 1);
      assert Ahead(Behind(from, step, w.size), step, w.size) == from;
    }
  }

  lemma {:induction false} GivenSplits<E>(w: World<E>, cs: seq<seq<seq<E>>>, step: nat, from: nat, mid: nat, until: nat)
    requires Shards(w, cs) && 1 <= step < w.size && from <= mid <= until <= w.size
    ensures GivenBy(w, cs, step, from, until) == GivenBy(w, cs, step, from, mid) + GivenBy(w, cs, step, mid, until)
    decreases mid - from
  {
    if from < mid {
      GivenSplits(w, cs, step, from + 1, mid, until);
    }
  }

  /** The ranks below `step` take from the last `step` ranks, the others from the ranks before those. */
  lemma {:induction false} TakenIsGiven<E>(w: World<E>, cs: seq<seq<seq<E>>>, step: nat, from: nat)
    requires Shards(w, cs) && 1 <= step < w.size && from <= w.size
    ensures TakenFrom(w, cs, step, from)
            == if from >= step then GivenBy(w, cs, step, from - step, w.size - step)
               else GivenBy(w, cs, step, from + w.size - step, w.size) + GivenBy(w, cs, step, 0, w.size - step)
    decreases w.size - from
  {
    if from < w.size {
      TakenIsGiven(w, cs, step, from + 1);
    }
  }

  /** Every shard that one rank sends another one receives. */
  lemma {:induction false} PairFlowIsZero<E>(w: World<E>, cs: seq<seq<seq<E>>>, step: nat)
    requires Shards(w, cs) && 1 <= step <= w.size
    ensures PairFlow(w, cs, step, 0) == 0
  {
    if step == 1 {
      NothingSent(w, cs, 0);
    } else {
      PairFlowIsZero(w, cs, step - 1);
      OneMoreRound(w, cs, step - 1, 0);
      TakenIsGiven(w, cs, step - 1, 0);
      GivenSplits(w, cs, step - 1, 0, w.size - (step - 1), w.size);
    }
  }

  lemma {:induction false} NothingSent<E>(w: World<E>, cs: seq<seq<seq<E>>>, from: nat)
    requires Shards(w, cs)
    ensures PairFlow(w, cs, 1, from) == 0
    decreases w.size - from
  {
    if from < w.size {
      NothingSent(w, cs, from + 1);
    }
  }

  /** The flow of the ranks `from..` but the root, which is what the root's loop moves for them. */
  ghost function PeerFlow<E>(w: World<E>, call: Call, sequence: nat, xs: seq<seq<E>>, from: nat): int
    requires Valid(w, call, sequence, xs)
  {
    match call
    case BroadcastCall(root) => -(BytesOf(w, from, root, ShareOf(Whole(), xs[root])) as int)
    case ReduceCall(root) => BytesOf(w, from, root, Nth(xs))
    case AllGatherCall => BytesOf(w, from, 0, Nth(xs)) - BytesOf(w, from, 0, ShareOf(Whole(), Join(xs)))
    case CentralizedAllReduceCall => BytesOf(w, from, 0, Nth(xs)) - BytesOf(w, from, 0, ShareOf(Whole(), Sum(w, 0, xs)))
    case ReduceScatterCall => BytesOf(w, from, 0, Nth(xs)) - BytesOf(w, from, 0, ShareOf(ShardFor(w), Sum(w, 0, xs)))
    case RingAllReduceCall => 0
    case AllToAllCall => PairFlow(w, Cut(w, xs), w.size, from)
  }

  /** The root's own flow cancels what flows to and from its peers. */
  ghost function RootFlow<E>(w: World<E>, call: Call, sequence: nat, xs: seq<seq<E>>, from: nat): int
    requires Valid(w, call, sequence, xs)
  {
    var root := if call.BroadcastCall? || call.ReduceCall? then call.root else 0;
    if from <= root then -PeerFlow(w, call, sequence, xs, 0) else 0
  }

  lemma {:induction false} CallFlowIs<E>(w: World<E>, call: Call, sequence: nat, xs: seq<seq<E>>, from: nat)
    requires Valid(w, call, sequence, xs) && from <= w.size
    ensures CallFlow(w, call, sequence, xs, from) == PeerFlow(w, call, sequence, xs, from) + RootFlow(w, call, sequence, xs, from)
    decreases w.size - from
  {
    if call.AllToAllCall? {
      PairFlowIsZero(w, Cut(w, xs), w.size);
    }
    if from < w.size {
      CallFlowIs(w, call, sequence, xs, from + 1);
    }
  }

  lemma {:induction false} OneMoreFlow<E>(w: World<E>, m: Program<E>, i: nat, outs: seq<seq<Output<E>>>, from: nat)
    requires |outs| == w.size && i < |m.calls| && Valid(w, m.calls[i], i, Inputs(w, m, outs)) && from <= w.size
    ensures WorldFlow(OneMore(w, m, i, outs), from) == WorldFlow(outs, from) + CallFlow(w, m.calls[i], i, Inputs(w, m, outs), from)
    decreases w.size - from
  {
    hide Valid, Spec;
    if from < w.size {
      OneMoreFlow(w, m, i, outs, from + 1);
      var o := Spec(w, m.calls[i], i, Inputs(w, m, outs), from);
      assert (outs[from] + [o])[..|outs[from]|] == outs[from];
    }
  }

  /** Over any completed program of collectives the ranks together record as many bytes sent as received. */
  lemma {:induction false} TrafficBalances<E>(w: World<E>, m: Program<E>, i: nat, outs: seq<seq<Output<E>>>)
    requires |outs| == w.size && i <= |m.calls| && ValidFrom(w, m, i, outs)
    ensures WorldFlow(SpecFrom(w, m, i, outs), 0) == WorldFlow(outs, 0)
    decreases |m.calls| - i
  {
    hide Spec;
    if i < |m.calls| {
      TrafficBalances(w, m, i + 1, OneMore(w, m, i, outs));
      OneMoreFlow(w, m, i, outs, 0);
      CallFlowIs(w, m.calls[i], i, Inputs(w, m, outs), 0);
    }
  }

  lemma {:induction false} NothingFlowed<E>(size: nat, outs: seq<seq<Output<E>>>, from: nat)
    requires |outs| == size && forall r :: 0 <= r < size ==> outs[r] == []
    ensures WorldFlow(outs, from) == 0
    decreases size - from
  {
    if from < size {
      NothingFlowed(size, outs, from + 1);
    }
  }

  /** So a whole program records exactly as many bytes sent as received. */
  lemma ProgramTraffic<E>(w: World<E>, m: Program<E>)
    requires ValidFrom(w, m, 0, seq(w.size, _ => []))
    ensures WorldFlow(SpecFrom(w, m, 0, seq(w.size, _ => [])), 0) == 0
  {
    var none: seq<seq<Output<E>>> := seq(w.size, _ => []);
    TrafficBalances(w, m, 0, none);
    NothingFlowed(w.size, none, 0);
  }

  // ---- exactly when the two all-reduces agree ----

  /** On every world with this addition, and for every tensors that the ring accepts, the ring returns the
  centralized sum. */
  ghost predicate RingAlwaysAgrees<E(!new)>(plus: (E, E) -> E) {
    forall w: World<E>, xs: seq<seq<E>> ::
      w.plus == plus && |xs| == w.size > 0 && SameLength(xs) && |xs[0]| % w.size == 0 ==> RingSum(w, xs) == Sum(w, 0, xs)
  }

  /** One element of one chunk on which ring and root agree. */
  lemma AgreeAt<E(!new)>(w: World<E>, xs: seq<seq<E>>, n: nat, c: nat, o: nat, i: nat)
    requires RingAlwaysAgrees(w.plus)
    requires |xs| == w.size > 0 && SameLength(xs) && |xs[0]| % w.size == 0 && n == |xs[0]| / w.size
    requires c < w.size && o < n && i == c * n + o && i < |xs[0]|
    ensures forall r :: 0 <= r < w.size ==> i < |xs[r]|
    ensures RingFold(w.plus, Column(xs, i), c, w.size - 1) == LeftFold(w.plus, Column(xs, i), 0, w.size)
  {
    RingSumIsFold(w, xs, n, c, o, i);
    RootSumIsFold(w, xs, i);
  }

  /** Chunk 0 of a ring of two adds in the opposite order. */
  lemma AgreeingCommutes<E(!new)>(plus: (E, E) -> E, a: E, b: E)
    requires RingAlwaysAgrees(plus)
    ensures plus(a, b) == plus(b, a)
  {
    var w, xs, v := World(2, plus, FourBytes, (_, _) => true), [[a, a], [b, b]], [a, b];
    assert xs[0] == [a, a] && xs[1] == [b, b];
    AgreeAt(w, xs, 1, 0, 0, 0);
    assert Column(xs, 0) == v;
    assert RingFold(plus, v, 0, 0) == a && LeftFold(plus, v, 0, 1) == a && Wrap(1, 2) == 1;
  }

  /** Chunk 1 of a ring of three groups the other way round. */
  lemma AgreeingAssociates<E(!new)>(plus: (E, E) -> E, a: E, b: E, c: E)
    requires RingAlwaysAgrees(plus)
    ensures plus(plus(a, b), c) == plus(a, plus(b, c))
  {
    var w, xs, v := World(3, plus, FourBytes, (_, _) => true), [[a, a, a], [b, b, b], [c, c, c]], [a, b, c];
    assert xs[0] == [a, a, a] && xs[1] == [b, b, b] && xs[2] == [c, c, c];
    AgreeAt(w, xs, 1, 1, 0, 1);
    assert Column(xs, 1) == v;
    assert RingFold(plus, v, 1, 0) == b && RingFold(plus, v, 1, 1) == plus(c, b) && RingFold(plus, v, 1, 2) == plus(a, plus(c, b));
    assert LeftFold(plus, v, 0, 1) == a && LeftFold(plus, v, 0, 2) == plus(a, b);
    AgreeingCommutes(plus, b, c);
  }

  /** The ring returns the centralized sum on all worlds and tensors if and only if addition is commutative
  and associative. */
  lemma RingAgreesExactly<E(!new)>(plus: (E, E) -> E)
    ensures RingAlwaysAgrees(plus) <==> Commutative(plus) && Associative(plus)
  {
    hide RingSum, Sum;
    if RingAlwaysAgrees(plus) {
      forall a, b ensures plus(a, b) == plus(b, a) {
        AgreeingCommutes(plus, a, b);
      }
      forall a, b, c ensures plus(plus(a, b), c) == plus(a, plus(b, c)) {
        AgreeingAssociates(plus, a, b, c);
      }
    }
    if Commutative(plus) && Associative(plus) {
      forall w: World<E>, xs: seq<seq<E>> | w.plus == plus && |xs| == w.size > 0 && SameLength(xs) && |xs[0]| % w.size == 0
        ensures RingSum(w, xs) == Sum(w, 0, xs)
      {
        RingIsCentralized(w, xs);
      }
    }
  }

  /** Addition whose result is rounded down to an even number: commutative like F32 addition, and like it not
  associative. */
  function RoundedAdd(a: nat, b: nat): nat { a + b - (a + b) % 2 }

  lemma RoundedFolds(v: seq<nat>)
    requires v == [2, 1, 1]
    ensures RingFold(RoundedAdd, v, 1, 2) == 4 && LeftFold(RoundedAdd, v, 0, 3) == 2
  {
    assert RingFold(RoundedAdd, v, 1, 0) == 1 && RingFold(RoundedAdd, v, 1, 1) == 2;
    assert LeftFold(RoundedAdd, v, 0, 1) == 2 && LeftFold(RoundedAdd, v, 0, 2) == 2;
  }

  /** Rounding is enough for the two all-reduces to differ: three ranks that bring 2, 1 and 1. */
  lemma RingOrderMatters(w: World<nat>, xs: seq<seq<nat>>)
    requires w.size == 3 && w.plus == RoundedAdd && xs == [[2, 2, 2], [1, 1, 1], [1, 1, 1]]
    ensures Commutative(w.plus) && SameLength(xs) && |xs[0]| % w.size == 0
    ensures |RingSum(w, xs)| == |Sum(w, 0, xs)| == 3 && RingSum(w, xs)[1] == 4 && Sum(w, 0, xs)[1] == 2
  {
    assert |xs[0]| == 3 && |xs[1]| == 3 && |xs[2]| == 3;
    hide RoundedAdd, RingFold, LeftFold, SumOnto, CompleteChunks, Grids;
    JoinLength(CompleteChunks(w, Grids(w, xs), 1), 1);
    RingSumIsFold(w, xs, 1, 1, 0, 1);
    RootSumIsFold(w, xs, 1);
    assert Column(xs, 1) == [2, 1, 1];
    RoundedFolds(Column(xs, 1));
    RoundedCommutes();
  }

  lemma RoundedCommutes()
    ensures Commutative(RoundedAdd)
  {}
}
