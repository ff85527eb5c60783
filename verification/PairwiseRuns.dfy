/** All-to-all by pairwise rounds: which shards every rank holds after every round. */
module PairwiseRuns {
  import opened Options
  import opened Arithmetic
  import opened Sequences
  import opened Network
  import opened Tags
  import opened Collectives
  import opened CollectiveRuns
  import opened RingRuns

  /** `cs[r][d]` is the shard of rank `r` for rank `d`; ranks may bring tensors of different lengths. */
  ghost predicate Shards<E>(w: World<E>, cs: seq<seq<seq<E>>>) {
    |cs| == w.size > 0 && forall r :: 0 <= r < w.size ==> |cs[r]| == w.size
  }

  /** In every round the shard that arrives agrees on the other axes with the one that was sent. */
  ghost predicate ShardsFit<E>(w: World<E>, cs: seq<seq<seq<E>>>)
    requires Shards(w, cs)
  {
    forall r, step :: 0 <= r < w.size && 1 <= step < w.size ==> RoundFits(w, cs, r, step)
  }

  ghost predicate RoundFits<E>(w: World<E>, cs: seq<seq<seq<E>>>, r: nat, step: nat)
    requires Shards(w, cs) && r < w.size && 1 <= step < w.size
  {
    w.fits(cs[r][Ahead(r, step, w.size)], cs[Behind(r, step, w.size)][r])
  }

  /** The shards rank `r` holds before round `step`: those of the ranks fewer than `step` behind it. */
  ghost function GotBefore<E>(w: World<E>, cs: seq<seq<seq<E>>>, r: nat, step: nat): (got: seq<Option<seq<E>>>)
    requires Shards(w, cs) && r < w.size
    ensures |got| == w.size
  {
    seq(w.size, s requires 0 <= s < w.size => if Distance(r, s, w.size) < step then Some(cs[s][r]) else None)
  }

  /** Bytes rank `r` has sent before round `step`. */
  ghost function SentBefore<E>(w: World<E>, cs: seq<seq<seq<E>>>, r: nat, step: nat): nat
    requires Shards(w, cs) && r < w.size && 1 <= step <= w.size
  {
    if step == 1 then 0 else SentBefore(w, cs, r, step - 1) + Bytes(w, cs[r][Ahead(r, step - 1, w.size)])
  }

  /** Bytes rank `r` has received before round `step`. */
  ghost function ReceivedBefore<E>(w: World<E>, cs: seq<seq<seq<E>>>, r: nat, step: nat): nat
    requires Shards(w, cs) && r < w.size && 1 <= step <= w.size
  {
    if step == 1 then 0 else ReceivedBefore(w, cs, r, step - 1) + Bytes(w, cs[Behind(r, step - 1, w.size)][r])
  }

  /** What every source rank has for rank `r`, in source order. */
  ghost function Transposed<E>(w: World<E>, cs: seq<seq<seq<E>>>, r: nat): seq<E>
    requires Shards(w, cs) && r < w.size
  {
    Join(seq(w.size, s requires 0 <= s < w.size => cs[s][r]))
  }

  /** Rank `r` at the top of round `step`. */
  ghost function AtRound<E, C, R>(w: World<E>, sequence: nat, step: nat, cs: seq<seq<seq<E>>>, r: nat, k: Output<E> -> Proc<seq<E>, C, R>): Proc<seq<E>, C, R>
    requires Shards(w, cs) && r < w.size && 1 <= step <= w.size
  {
    PairwiseLoop(w, r, sequence, step, cs[r], GotBefore(w, cs, r, step), SentBefore(w, cs, r, step), ReceivedBefore(w, cs, r, step), k)
  }

  ghost predicate Pairing<E, C, R>(w: World<E>, procs: seq<Proc<seq<E>, C, R>>, sequence: nat, step: nat,
                                   cs: seq<seq<seq<E>>>, ks: seq<Output<E> -> Proc<seq<E>, C, R>>)
    requires Shards(w, cs) && 1 <= step <= w.size
  {
    && |procs| == |ks| == w.size
    && forall r :: 0 <= r < w.size ==> procs[r] == AtRound(w, sequence, step, cs, r, ks[r])
  }

  lemma PairStore<E>(w: World<E>, cs: seq<seq<seq<E>>>, r: nat, step: nat)
    requires Shards(w, cs) && r < w.size && 1 <= step < w.size
    ensures var b := Behind(r, step, w.size);
            && Wrap(b + step, w.size) == r
            && GotBefore(w, cs, r, step)[b := Some(cs[b][r])] == GotBefore(w, cs, r, step + 1)
  {
    var b := Behind(r, step, w.size);
    assert GotBefore(w, cs, r, step)[b := Some(cs[b][r])] == GotBefore(w, cs, r, step + 1);
  }

  lemma PairReply<E, C, R>(w: World<E>, p: Proc<seq<E>, C, R>, sequence: nat, step: nat, cs: seq<seq<seq<E>>>,
                           r: nat, k: Output<E> -> Proc<seq<E>, C, R>)
    requires Shards(w, cs) && r < w.size && 1 <= step < w.size && step <= 256 && sequence < MAX_SEQUENCES
    requires RoundFits(w, cs, r, step) && p == AtRound(w, sequence, step, cs, r, k)
    ensures CollectiveTag(sequence, AllToAll, 0, step - 1).Some?
    ensures var tag := CollectiveTag(sequence, AllToAll, 0, step - 1).value;
            && p.Exchange? && p.destination == Ahead(r, step, w.size) && p.source == Behind(r, step, w.size) && p.tag == tag
            && p.frame == Tensor(tag, cs[r][Ahead(r, step, w.size)])
            && p.resume(Tensor(tag, cs[Behind(r, step, w.size)][r])) == AtRound(w, sequence, step + 1, cs, r, k)
  {
    hide GotBefore, CollectiveTag;
    CollectiveTagExact(sequence, AllToAll, 0, step - 1);
    PairStore(w, cs, r, step);
  }

  lemma PairRound<E, C, R>(w: World<E>, procs: seq<Proc<seq<E>, C, R>>, sequence: nat, step: nat, cs: seq<seq<seq<E>>>,
                           ks: seq<Output<E> -> Proc<seq<E>, C, R>>) returns (end: seq<Proc<seq<E>, C, R>>)
    requires Shards(w, cs) && ShardsFit(w, cs) && 1 <= step < w.size && step <= 256 && sequence < MAX_SEQUENCES
    requires Pairing(w, procs, sequence, step, cs, ks)
    ensures ReachesWith(procs, end, w.size) && Pairing(w, end, sequence, step + 1, cs, ks)
  {
    hide AtRound, RoundFits, ReachesWith, Wrap, CollectiveTag;
    CollectiveTagExact(sequence, AllToAll, 0, step - 1);
    var tag := CollectiveTag(sequence, AllToAll, 0, step - 1).value;
    forall r | 0 <= r < w.size
      ensures procs[r].Exchange? && procs[r].destination == Ahead(r, step, w.size) && procs[r].source == Behind(r, step, w.size)
      ensures procs[r].tag == tag && procs[r].frame.Tensor? && procs[r].frame.tag == tag
    {
      PairReply(w, procs[r], sequence, step, cs, r, ks[r]);
    }
    end := RoundRuns(procs, step, tag);
    forall r | 0 <= r < w.size ensures end[r] == AtRound(w, sequence, step + 1, cs, r, ks[r]) {
      var b := Behind(r, step, w.size);
      PairReply(w, procs[r], sequence, step, cs, r, ks[r]);
      PairReply(w, procs[b], sequence, step, cs, b, ks[b]);
      PairStore(w, cs, r, step);
    }
  }

  lemma {:induction false} PairRuns<E, C, R>(w: World<E>, procs: seq<Proc<seq<E>, C, R>>, sequence: nat, step: nat,
                                             cs: seq<seq<seq<E>>>, ks: seq<Output<E> -> Proc<seq<E>, C, R>>) returns (end: seq<Proc<seq<E>, C, R>>)
    requires Shards(w, cs) && ShardsFit(w, cs) && step < w.size && step <= 256 && sequence < MAX_SEQUENCES
    requires Pairing(w, procs, sequence, 1, cs, ks)
    ensures ReachesWith(procs, end, RoundFrames(w.size, step)) && Pairing(w, end, sequence, step + 1, cs, ks)
  {
    hide AtRound, ReachesWith, ShardsFit;
    if step == 0 {
      end := procs;
      WithNone(procs);
    } else {
      var mid := PairRuns(w, procs, sequence, step - 1, cs, ks);
      end := PairRound(w, mid, sequence, step, cs, ks);
      ThenWith(procs, mid, end, RoundFrames(w.size, step - 1), w.size);
    }
  }

  /** Before the first round a rank holds its own shard; after the last round it holds every shard and returns
  them in source order. */
  lemma PairEnds<E, C, R>(w: World<E>, r: nat, sequence: nat, cs: seq<seq<seq<E>>>, k: Output<E> -> Proc<seq<E>, C, R>)
    requires Shards(w, cs) && r < w.size
    ensures PairwiseLoop(w, r, sequence, 1, cs[r], OwnShard(cs[r], r), 0, 0, k) == AtRound(w, sequence, 1, cs, r, k)
    ensures AtRound(w, sequence, w.size, cs, r, k)
            == k(Output(Some(Transposed(w, cs, r)), SentBefore(w, cs, r, w.size), ReceivedBefore(w, cs, r, w.size)))
  {
    hide SentBefore, ReceivedBefore;
    assert OwnShard(cs[r], r) == GotBefore(w, cs, r, 1);
    assert Arrived(GotBefore(w, cs, r, w.size)) == seq(w.size, s requires 0 <= s < w.size => cs[s][r]);
    NoBytesYet(w, cs, r);
  }

  lemma NoBytesYet<E>(w: World<E>, cs: seq<seq<seq<E>>>, r: nat)
    requires Shards(w, cs) && r < w.size
    ensures SentBefore(w, cs, r, 1) == ReceivedBefore(w, cs, r, 1) == 0
  {}

  /** All rounds: every rank goes on with the shards the ranks have for it. */
  lemma PairwiseRunsAll<E, C, R>(w: World<E>, procs: seq<Proc<seq<E>, C, R>>, sequence: nat, cs: seq<seq<seq<E>>>,
                                 ks: seq<Output<E> -> Proc<seq<E>, C, R>>) returns (end: seq<Proc<seq<E>, C, R>>)
    requires Shards(w, cs) && ShardsFit(w, cs) && |procs| == |ks| == w.size <= MAX_EXCHANGE_WORLD && sequence < MAX_SEQUENCES
    requires forall r :: 0 <= r < w.size ==>
               procs[r] == PairwiseLoop(w, r, sequence, 1, cs[r], OwnShard(cs[r], r), 0, 0, ks[r])
    ensures ReachesWith(procs, end, RoundFrames(w.size, w.size - 1)) && |end| == w.size
    ensures forall r :: 0 <= r < w.size ==>
              end[r] == ks[r](Output(Some(Transposed(w, cs, r)), SentBefore(w, cs, r, w.size), ReceivedBefore(w, cs, r, w.size)))
  {
    hide PairwiseLoop, AtRound, ReachesWith, Transposed, SentBefore, ReceivedBefore, ShardsFit;
    forall r | 0 <= r < w.size ensures procs[r] == AtRound(w, sequence, 1, cs, r, ks[r]) {
      PairEnds(w, r, sequence, cs, ks[r]);
    }
    end := PairRuns(w, procs, sequence, w.size - 1, cs, ks);
    forall r | 0 <= r < w.size
      ensures end[r] == ks[r](Output(Some(Transposed(w, cs, r)), SentBefore(w, cs, r, w.size), ReceivedBefore(w, cs, r, w.size)))
    {
      PairEnds(w, r, sequence, cs, ks[r]);
    }
  }

  /** With more than 257 ranks round 257 has no tag: every rank gets through 256 rounds and then fails. */
  lemma PairwiseTooLarge<E, C, R>(w: World<E>, procs: seq<Proc<seq<E>, C, R>>, sequence: nat, cs: seq<seq<seq<E>>>,
                                  ks: seq<Output<E> -> Proc<seq<E>, C, R>>) returns (end: seq<Proc<seq<E>, C, R>>)
    requires Shards(w, cs) && ShardsFit(w, cs) && |procs| == |ks| == w.size > MAX_EXCHANGE_WORLD && sequence < MAX_SEQUENCES
    requires forall r :: 0 <= r < w.size ==>
               procs[r] == PairwiseLoop(w, r, sequence, 1, cs[r], OwnShard(cs[r], r), 0, 0, ks[r])
    ensures ReachesWith(procs, end, RoundFrames(w.size, 256)) && |end| == w.size
    ensures forall r :: 0 <= r < w.size ==> end[r] == Failed
  {
    hide PairwiseLoop, AtRound, ReachesWith, ShardsFit;
    forall r | 0 <= r < w.size ensures procs[r] == AtRound(w, sequence, 1, cs, r, ks[r]) {
      PairEnds(w, r, sequence, cs, ks[r]);
    }
    end := PairRuns(w, procs, sequence, 256, cs, ks);
    forall r | 0 <= r < w.size ensures end[r] == Failed {
      NoRound(w, sequence, cs, r, ks[r]);
    }
  }

  lemma NoRound<E, C, R>(w: World<E>, sequence: nat, cs: seq<seq<seq<E>>>, r: nat, k: Output<E> -> Proc<seq<E>, C, R>)
    requires Shards(w, cs) && r < w.size && w.size > MAX_EXCHANGE_WORLD
    ensures AtRound(w, sequence, 257, cs, r, k) == Failed
  {
    CollectiveTagExact(sequence, AllToAll, 0, 256);
  }
}
