/** The ring all-reduce: which partial sum every chunk holds after every step, for an addition
that need not be associative or commutative. */
module RingRuns {
  import opened Options
  import opened Arithmetic
  import opened Sequences
  import opened Network
  import opened Tags
  import opened Collectives
  import opened CollectiveRuns

  /** `cs[r][c]` is chunk `c` of rank `r`'s tensor; all chunks have length `n`. */
  ghost predicate Grid<E>(w: World<E>, cs: seq<seq<seq<E>>>, n: nat) {
    && |cs| == w.size > 0
    && (forall r :: 0 <= r < w.size ==> |cs[r]| == w.size)
    && (forall r, c :: 0 <= r < w.size && 0 <= c < w.size ==> |cs[r][c]| == n)
  }

  /** Chunk `c` summed over ranks c, c+1, .., c+j (modulo the world), the newest rank on the left:
  x[c+j] + (.. + (x[c+1] + x[c])). */
  ghost function Partial<E>(w: World<E>, cs: seq<seq<seq<E>>>, n: nat, c: nat, j: nat): (p: seq<E>)
    requires Grid(w, cs, n) && c < w.size && j < w.size
    ensures |p| == n
  {
    if j == 0 then cs[c][c]
    else Zip(w.plus, cs[Wrap(c + j, w.size)][c], Partial(w, cs, n, c, j - 1))
  }

  /** Chunk `c` summed over the whole ring. */
  ghost function Complete<E>(w: World<E>, cs: seq<seq<seq<E>>>, n: nat, c: nat): seq<E>
    requires Grid(w, cs, n) && c < w.size
  {
    Partial(w, cs, n, c, w.size - 1)
  }

  /** How far rank `r` is after rank `c` on a ring of `p` ranks. */
  function Distance(r: nat, c: nat, p: nat): nat
    requires r < p && c < p
  {
    Wrap(r + p - c, p)
  }

  /** The chunks rank `r` holds after `steps` steps of the first phase. */
  ghost function ReduceChunks<E>(w: World<E>, cs: seq<seq<seq<E>>>, n: nat, r: nat, steps: nat): (chunks: seq<seq<E>>)
    requires Grid(w, cs, n) && r < w.size
    ensures |chunks| == w.size && forall c :: 0 <= c < w.size ==> |chunks[c]| == n
  {
    seq(w.size, c requires 0 <= c < w.size =>
      if Distance(r, c, w.size) <= steps then Partial(w, cs, n, c, Distance(r, c, w.size)) else cs[r][c])
  }

  /** The chunks rank `r` holds after `steps` steps of the second phase: chunk r+1 and the `steps`
  chunks before it are complete. */
  ghost function ShareChunks<E>(w: World<E>, cs: seq<seq<seq<E>>>, n: nat, r: nat, steps: nat): (chunks: seq<seq<E>>)
    requires Grid(w, cs, n) && r < w.size
    ensures |chunks| == w.size && forall c :: 0 <= c < w.size ==> |chunks[c]| == n
  {
    seq(w.size, c requires 0 <= c < w.size =>
      if Distance(Next(r, w.size), c, w.size) <= steps then Complete(w, cs, n, c)
      else Partial(w, cs, n, c, Distance(r, c, w.size)))
  }

  ghost function CompleteChunks<E>(w: World<E>, cs: seq<seq<seq<E>>>, n: nat): (chunks: seq<seq<E>>)
    requires Grid(w, cs, n)
    ensures |chunks| == w.size
  {
    seq(w.size, c requires 0 <= c < w.size => Complete(w, cs, n, c))
  }

  /** Bytes recorded after `steps` steps that each move one chunk. */
  function StepBytes(chunkBytes: nat, steps: nat): nat {
    if steps == 0 then 0 else StepBytes(chunkBytes, steps - 1) + chunkBytes
  }

  /** The chunk received in a step is the one the rank behind sends, one rank further from its origin. */
  lemma ReduceStep<E>(w: World<E>, cs: seq<seq<seq<E>>>, n: nat, r: nat, step: nat)
    requires Grid(w, cs, n) && r < w.size && step + 1 < w.size
    ensures var c, b := Wrap(r + w.size - step - 1, w.size), Behind(r, 1, w.size);
            && Wrap(b + w.size - step, w.size) == c
            && ReduceChunks(w, cs, n, r, step)[c] == cs[r][c]
            && ReduceChunks(w, cs, n, b, step)[c] == Partial(w, cs, n, c, step)
  {
  }

  lemma ReduceStore<E>(w: World<E>, cs: seq<seq<seq<E>>>, n: nat, r: nat, step: nat)
    requires Grid(w, cs, n) && r < w.size && step + 1 < w.size
    ensures var c := Wrap(r + w.size - step - 1, w.size);
            var sum := Zip(w.plus, cs[r][c], Partial(w, cs, n, c, step));
            ReduceChunks(w, cs, n, r, step)[c := sum] == ReduceChunks(w, cs, n, r, step + 1)
  {
    var c := Wrap(r + w.size - step - 1, w.size);
    assert Wrap(c + (step + 1), w.size) == r && Distance(r, c, w.size) == step + 1;
    assert Partial(w, cs, n, c, step + 1) == Zip(w.plus, cs[r][c], Partial(w, cs, n, c, step));
    assert ReduceChunks(w, cs, n, r, step)[c := Partial(w, cs, n, c, step + 1)] == ReduceChunks(w, cs, n, r, step + 1);
  }

  lemma ShareStep<E>(w: World<E>, cs: seq<seq<seq<E>>>, n: nat, r: nat, step: nat)
    requires Grid(w, cs, n) && r < w.size && step + 1 < w.size
    ensures var c, b := Wrap(r + w.size - step, w.size), Behind(r, 1, w.size);
            && Wrap(b + 1 + w.size - step, w.size) == c
            && |ShareChunks(w, cs, n, r, step)[c]| == n
            && ShareChunks(w, cs, n, b, step)[c] == Complete(w, cs, n, c)
            && ShareChunks(w, cs, n, r, step)[c := Complete(w, cs, n, c)] == ShareChunks(w, cs, n, r, step + 1)
  {
    var c := Wrap(r + w.size - step, w.size);
    assert Distance(Next(r, w.size), c, w.size) == step + 1;
    assert ShareChunks(w, cs, n, r, step)[c := Complete(w, cs, n, c)] == ShareChunks(w, cs, n, r, step + 1);
  }

  /** The first phase starts from the rank's own chunks, the second one where the first one stops,
  and after it every chunk is complete. */
  lemma PhasesMeet<E>(w: World<E>, cs: seq<seq<seq<E>>>, n: nat, r: nat)
    requires Grid(w, cs, n) && r < w.size && w.size > 1
    ensures ReduceChunks(w, cs, n, r, 0) == cs[r]
    ensures ReduceChunks(w, cs, n, r, w.size - 1) == ShareChunks(w, cs, n, r, 0)
    ensures ShareChunks(w, cs, n, r, w.size - 1) == CompleteChunks(w, cs, n)
  {
    assert ReduceChunks(w, cs, n, r, 0) == cs[r];
    assert ReduceChunks(w, cs, n, r, w.size - 1) == ShareChunks(w, cs, n, r, 0);
    assert ShareChunks(w, cs, n, r, w.size - 1) == CompleteChunks(w, cs, n);
  }

  /** Every rank is about to take step `step` of the first phase, having moved `moved` bytes each way. */
  ghost predicate Reducing<E, C, R>(w: World<E>, procs: seq<Proc<seq<E>, C, R>>, sequence: nat, step: nat,
                                    cs: seq<seq<seq<E>>>, n: nat, moved: nat,
                                    ks: seq<(seq<seq<E>>, nat, nat) -> Proc<seq<E>, C, R>>)
    requires Grid(w, cs, n)
  {
    && |procs| == |ks| == w.size
    && forall r :: 0 <= r < w.size ==>
         procs[r] == RingReduce(w, r, sequence, step, ReduceChunks(w, cs, n, r, step), moved, moved, ks[r])
  }

  /** What one rank does with the frame of one step of the first phase. */
  lemma ReduceReply<E, C, R>(w: World<E>, p: Proc<seq<E>, C, R>, sequence: nat, step: nat,
                             cs: seq<seq<seq<E>>>, n: nat, moved: nat, r: nat,
                             k: (seq<seq<E>>, nat, nat) -> Proc<seq<E>, C, R>)
    requires Grid(w, cs, n) && r < w.size && step + 1 < w.size && step <= 255 && sequence < MAX_SEQUENCES
    requires p == RingReduce(w, r, sequence, step, ReduceChunks(w, cs, n, r, step), moved, moved, k)
    ensures CollectiveTag(sequence, AllReduce, 1, step).Some?
    ensures var tag, moved' := CollectiveTag(sequence, AllReduce, 1, step).value, moved + w.bytes(n);
            var c := Wrap(r + w.size - step - 1, w.size);
            && p.Exchange? && p.destination == Next(r, w.size) && p.source == Previous(r, w.size) && p.tag == tag
            && p.frame == Tensor(tag, ReduceChunks(w, cs, n, r, step)[Wrap(r + w.size - step, w.size)])
            && p.resume(Tensor(tag, Partial(w, cs, n, c, step)))
               == RingReduce(w, r, sequence, step + 1, ReduceChunks(w, cs, n, r, step + 1), moved', moved', k)
  {
    hide ReduceChunks, CollectiveTag;
    CollectiveTagExact(sequence, AllReduce, 1, step);
    ReduceStep(w, cs, n, r, step);
    ReduceStore(w, cs, n, r, step);
  }

  /** A rank takes the frame of the rank behind it. */
  lemma ReducePair<E, C, R>(w: World<E>, p: Proc<seq<E>, C, R>, q: Proc<seq<E>, C, R>, sequence: nat, step: nat,
                            cs: seq<seq<seq<E>>>, n: nat, moved: nat, r: nat,
                            kp: (seq<seq<E>>, nat, nat) -> Proc<seq<E>, C, R>, kq: (seq<seq<E>>, nat, nat) -> Proc<seq<E>, C, R>)
    requires Grid(w, cs, n) && r < w.size && step + 1 < w.size && step <= 255 && sequence < MAX_SEQUENCES
    requires p == RingReduce(w, r, sequence, step, ReduceChunks(w, cs, n, r, step), moved, moved, kp)
    requires var b := Behind(r, 1, w.size); q == RingReduce(w, b, sequence, step, ReduceChunks(w, cs, n, b, step), moved, moved, kq)
    ensures p.Exchange? && q.Exchange?
    ensures p.resume(q.frame)
            == RingReduce(w, r, sequence, step + 1, ReduceChunks(w, cs, n, r, step + 1), moved + w.bytes(n), moved + w.bytes(n), kp)
  {
    hide RingReduce, ReduceChunks, Wrap, CollectiveTag, Grid;
    ReduceReply(w, p, sequence, step, cs, n, moved, r, kp);
    ReduceReply(w, q, sequence, step, cs, n, moved, Behind(r, 1, w.size), kq);
    ReduceStep(w, cs, n, r, step);
  }

  /** One step of the first phase, all ranks together. */
  lemma ReduceRound<E, C, R>(w: World<E>, procs: seq<Proc<seq<E>, C, R>>, sequence: nat, step: nat,
                             cs: seq<seq<seq<E>>>, n: nat, moved: nat,
                             ks: seq<(seq<seq<E>>, nat, nat) -> Proc<seq<E>, C, R>>) returns (end: seq<Proc<seq<E>, C, R>>)
    requires Grid(w, cs, n) && Reducing(w, procs, sequence, step, cs, n, moved, ks)
    requires step + 1 < w.size && step <= 255 && sequence < MAX_SEQUENCES
    ensures ReachesWith(procs, end, w.size) && Reducing(w, end, sequence, step + 1, cs, n, moved + w.bytes(n), ks)
  {
    hide RingReduce, ReduceChunks, ReachesWith, Wrap, CollectiveTag;
    CollectiveTagExact(sequence, AllReduce, 1, step);
    var tag := CollectiveTag(sequence, AllReduce, 1, step).value;
    forall r | 0 <= r < w.size
      ensures procs[r].Exchange? && procs[r].destination == Ahead(r, 1, w.size) && procs[r].source == Behind(r, 1, w.size)
      ensures procs[r].tag == tag && procs[r].frame.Tensor? && procs[r].frame.tag == tag
    {
      ReduceReply(w, procs[r], sequence, step, cs, n, moved, r, ks[r]);
    }
    end := RoundRuns(procs, 1, tag);
    forall r | 0 <= r < w.size
      ensures end[r] == RingReduce(w, r, sequence, step + 1, ReduceChunks(w, cs, n, r, step + 1),
                                   moved + w.bytes(n), moved + w.bytes(n), ks[r])
    {
      var b := Behind(r, 1, w.size);
      ReducePair(w, procs[r], procs[b], sequence, step, cs, n, moved, r, ks[r], ks[b]);
    }
  }

  /** The first phase runs up to any step whose predecessors fit a tag. */
  lemma {:induction false} ReduceRuns<E, C, R>(w: World<E>, procs: seq<Proc<seq<E>, C, R>>, sequence: nat, step: nat,
                                               cs: seq<seq<seq<E>>>, n: nat,
                                               ks: seq<(seq<seq<E>>, nat, nat) -> Proc<seq<E>, C, R>>) returns (end: seq<Proc<seq<E>, C, R>>)
    requires Grid(w, cs, n) && Reducing(w, procs, sequence, 0, cs, n, 0, ks)
    requires step < w.size && step <= 256 && sequence < MAX_SEQUENCES
    ensures ReachesWith(procs, end, RoundFrames(w.size, step)) && Reducing(w, end, sequence, step, cs, n, StepBytes(w.bytes(n), step), ks)
  {
    hide RingReduce, RingShare, ReduceChunks, ReachesWith;
    if step == 0 {
      end := procs;
      WithNone(procs);
    } else {
      var mid := ReduceRuns(w, procs, sequence, step - 1, cs, n, ks);
      end := ReduceRound(w, mid, sequence, step - 1, cs, n, StepBytes(w.bytes(n), step - 1), ks);
      ThenWith(procs, mid, end, RoundFrames(w.size, step - 1), w.size);
    }
  }

  /** Every rank is about to take step `step` of the second phase, having moved `moved` bytes each way. */
  ghost predicate Sharing<E, C, R>(w: World<E>, procs: seq<Proc<seq<E>, C, R>>, sequence: nat, step: nat,
                                   cs: seq<seq<seq<E>>>, n: nat, moved: nat,
                                   ks: seq<(seq<seq<E>>, nat, nat) -> Proc<seq<E>, C, R>>)
    requires Grid(w, cs, n)
  {
    && |procs| == |ks| == w.size
    && forall r :: 0 <= r < w.size ==>
         procs[r] == RingShare(w, r, sequence, step, ShareChunks(w, cs, n, r, step), moved, moved, ks[r])
  }

  /** What one rank does with the frame of one step of the second phase. */
  lemma ShareReply<E, C, R>(w: World<E>, p: Proc<seq<E>, C, R>, sequence: nat, step: nat,
                            cs: seq<seq<seq<E>>>, n: nat, moved: nat, r: nat,
                            k: (seq<seq<E>>, nat, nat) -> Proc<seq<E>, C, R>)
    requires Grid(w, cs, n) && r < w.size && step + 1 < w.size && step <= 255 && sequence < MAX_SEQUENCES
    requires p == RingShare(w, r, sequence, step, ShareChunks(w, cs, n, r, step), moved, moved, k)
    ensures CollectiveTag(sequence, AllReduce, 2, step).Some?
    ensures var tag, moved' := CollectiveTag(sequence, AllReduce, 2, step).value, moved + w.bytes(n);
            var c := Wrap(r + w.size - step, w.size);
            && p.Exchange? && p.destination == Next(r, w.size) && p.source == Previous(r, w.size) && p.tag == tag
            && p.frame == Tensor(tag, ShareChunks(w, cs, n, r, step)[Wrap(r + 1 + w.size - step, w.size)])
            && p.resume(Tensor(tag, Complete(w, cs, n, c)))
               == RingShare(w, r, sequence, step + 1, ShareChunks(w, cs, n, r, step + 1), moved', moved', k)
  {
    hide ShareChunks, CollectiveTag;
    CollectiveTagExact(sequence, AllReduce, 2, step);
    ShareStep(w, cs, n, r, step);
  }

  lemma SharePair<E, C, R>(w: World<E>, p: Proc<seq<E>, C, R>, q: Proc<seq<E>, C, R>, sequence: nat, step: nat,
                           cs: seq<seq<seq<E>>>, n: nat, moved: nat, r: nat,
                           kp: (seq<seq<E>>, nat, nat) -> Proc<seq<E>, C, R>, kq: (seq<seq<E>>, nat, nat) -> Proc<seq<E>, C, R>)
    requires Grid(w, cs, n) && r < w.size && step + 1 < w.size && step <= 255 && sequence < MAX_SEQUENCES
    requires p == RingShare(w, r, sequence, step, ShareChunks(w, cs, n, r, step), moved, moved, kp)
    requires var b := Behind(r, 1, w.size); q == RingShare(w, b, sequence, step, ShareChunks(w, cs, n, b, step), moved, moved, kq)
    ensures p.Exchange? && q.Exchange?
    ensures p.resume(q.frame)
            == RingShare(w, r, sequence, step + 1, ShareChunks(w, cs, n, r, step + 1), moved + w.bytes(n), moved + w.bytes(n), kp)
  {
    hide RingShare, ShareChunks, Wrap, CollectiveTag, Grid;
    ShareReply(w, p, sequence, step, cs, n, moved, r, kp);
    ShareReply(w, q, sequence, step, cs, n, moved, Behind(r, 1, w.size), kq);
    ShareStep(w, cs, n, r, step);
  }

  /** One step of the second phase, all ranks together. */
  lemma ShareRound<E, C, R>(w: World<E>, procs: seq<Proc<seq<E>, C, R>>, sequence: nat, step: nat,
                            cs: seq<seq<seq<E>>>, n: nat, moved: nat,
                            ks: seq<(seq<seq<E>>, nat, nat) -> Proc<seq<E>, C, R>>) returns (end: seq<Proc<seq<E>, C, R>>)
    requires Grid(w, cs, n) && Sharing(w, procs, sequence, step, cs, n, moved, ks)
    requires step + 1 < w.size && step <= 255 && sequence < MAX_SEQUENCES
    ensures ReachesWith(procs, end, w.size) && Sharing(w, end, sequence, step + 1, cs, n, moved + w.bytes(n), ks)
  {
    hide RingShare, ShareChunks, ReachesWith, Wrap, CollectiveTag;
    CollectiveTagExact(sequence, AllReduce, 2, step);
    var tag := CollectiveTag(sequence, AllReduce, 2, step).value;
    forall r | 0 <= r < w.size
      ensures procs[r].Exchange? && procs[r].destination == Ahead(r, 1, w.size) && procs[r].source == Behind(r, 1, w.size)
      ensures procs[r].tag == tag && procs[r].frame.Tensor? && procs[r].frame.tag == tag
    {
      ShareReply(w, procs[r], sequence, step, cs, n, moved, r, ks[r]);
    }
    end := RoundRuns(procs, 1, tag);
    forall r | 0 <= r < w.size
      ensures end[r] == RingShare(w, r, sequence, step + 1, ShareChunks(w, cs, n, r, step + 1),
                                  moved + w.bytes(n), moved + w.bytes(n), ks[r])
    {
      var b := Behind(r, 1, w.size);
      SharePair(w, procs[r], procs[b], sequence, step, cs, n, moved, r, ks[r], ks[b]);
    }
  }

  lemma {:induction false} ShareRuns<E, C, R>(w: World<E>, procs: seq<Proc<seq<E>, C, R>>, sequence: nat, step: nat,
                                              cs: seq<seq<seq<E>>>, n: nat, moved: nat,
                                              ks: seq<(seq<seq<E>>, nat, nat) -> Proc<seq<E>, C, R>>) returns (end: seq<Proc<seq<E>, C, R>>)
    requires Grid(w, cs, n) && Sharing(w, procs, sequence, 0, cs, n, moved, ks)
    requires step < w.size && step <= 256 && sequence < MAX_SEQUENCES
    ensures ReachesWith(procs, end, RoundFrames(w.size, step)) && Sharing(w, end, sequence, step, cs, n, moved + StepBytes(w.bytes(n), step), ks)
  {
    hide RingReduce, RingShare, ShareChunks, ReachesWith;
    if step == 0 {
      end := procs;
      WithNone(procs);
    } else {
      var mid := ShareRuns(w, procs, sequence, step - 1, cs, n, moved, ks);
      end := ShareRound(w, mid, sequence, step - 1, cs, n, moved + StepBytes(w.bytes(n), step - 1), ks);
      ThenWith(procs, mid, end, RoundFrames(w.size, step - 1), w.size);
    }
  }

  /** A phase whose steps are over hands on to what follows it. */
  lemma PhaseEnds<E, C, R>(w: World<E>, r: nat, sequence: nat, chunks: seq<seq<E>>, moved: nat,
                           k: (seq<seq<E>>, nat, nat) -> Proc<seq<E>, C, R>)
    requires r < w.size == |chunks|
    ensures RingReduce(w, r, sequence, w.size - 1, chunks, moved, moved, k) == RingShare(w, r, sequence, 0, chunks, moved, moved, k)
    ensures RingShare(w, r, sequence, w.size - 1, chunks, moved, moved, k) == k(chunks, moved, moved)
  {
  }

  /** Both phases: every rank goes on with the same complete chunks, having moved 2(p-1) chunks each way. */
  lemma RingRunsAll<E, C, R>(w: World<E>, procs: seq<Proc<seq<E>, C, R>>, sequence: nat,
                             cs: seq<seq<seq<E>>>, n: nat,
                             ks: seq<(seq<seq<E>>, nat, nat) -> Proc<seq<E>, C, R>>) returns (end: seq<Proc<seq<E>, C, R>>)
    requires Grid(w, cs, n) && |procs| == |ks| == w.size
    requires 1 < w.size <= MAX_EXCHANGE_WORLD && sequence < MAX_SEQUENCES
    requires forall r :: 0 <= r < w.size ==> procs[r] == RingReduce(w, r, sequence, 0, cs[r], 0, 0, ks[r])
    ensures ReachesWith(procs, end, 2 * RoundFrames(w.size, w.size - 1)) && |end| == w.size
    ensures var moved := 2 * StepBytes(w.bytes(n), w.size - 1);
            forall r :: 0 <= r < w.size ==> end[r] == ks[r](CompleteChunks(w, cs, n), moved, moved)
  {
    hide RingReduce, RingShare, ReduceChunks, ShareChunks, CompleteChunks, ReachesWith;
    forall r | 0 <= r < w.size ensures ReduceChunks(w, cs, n, r, 0) == cs[r] {
      PhasesMeet(w, cs, n, r);
    }
    var mid := ReduceRuns(w, procs, sequence, w.size - 1, cs, n, ks);
    var moved := StepBytes(w.bytes(n), w.size - 1);
    forall r | 0 <= r < w.size
      ensures mid[r] == RingShare(w, r, sequence, 0, ShareChunks(w, cs, n, r, 0), moved, moved, ks[r])
    {
      PhasesMeet(w, cs, n, r);
      PhaseEnds(w, r, sequence, ReduceChunks(w, cs, n, r, w.size - 1), moved, ks[r]);
    }
    end := ShareRuns(w, mid, sequence, w.size - 1, cs, n, moved, ks);
    ThenWith(procs, mid, end, RoundFrames(w.size, w.size - 1), RoundFrames(w.size, w.size - 1));
    forall r | 0 <= r < w.size ensures end[r] == ks[r](CompleteChunks(w, cs, n), 2 * moved, 2 * moved) {
      PhasesMeet(w, cs, n, r);
      PhaseEnds(w, r, sequence, CompleteChunks(w, cs, n), 2 * moved, ks[r]);
    }
  }

  /** With more than 257 ranks the step number outgrows the eight bits of the tag: every rank gets
  through 256 steps and then fails, so no schedule lets any rank return. */
  lemma RingTooLarge<E, C, R>(w: World<E>, procs: seq<Proc<seq<E>, C, R>>, sequence: nat,
                              cs: seq<seq<seq<E>>>, n: nat,
                              ks: seq<(seq<seq<E>>, nat, nat) -> Proc<seq<E>, C, R>>) returns (end: seq<Proc<seq<E>, C, R>>)
    requires Grid(w, cs, n) && |procs| == |ks| == w.size > MAX_EXCHANGE_WORLD && sequence < MAX_SEQUENCES
    requires forall r :: 0 <= r < w.size ==> procs[r] == RingReduce(w, r, sequence, 0, cs[r], 0, 0, ks[r])
    ensures ReachesWith(procs, end, RoundFrames(w.size, 256)) && |end| == w.size
    ensures forall r :: 0 <= r < w.size ==> end[r] == Failed
  {
    forall r | 0 <= r < w.size ensures ReduceChunks(w, cs, n, r, 0) == cs[r] {
      PhasesMeet(w, cs, n, r);
    }
    end := ReduceRuns(w, procs, sequence, 256, cs, n, ks);
    CollectiveTagExact(sequence, AllReduce, 1, 256);
  }
}
