/** What each collective returns, and that the ranks get there.

`CallCompletes` is the main result for one call: if every rank makes the same valid call, handing
frames over one at a time takes every rank from its call to its continuation, applied to exactly
the value `Spec` gives. `Network.EverySchedule` then extends this to every asynchronous schedule. */
module CollectiveRuns {
  import opened Options
  import opened Arithmetic
  import opened Sequences
  import opened Network
  import opened Tags
  import opened Collectives

  // ---- gather and scatter loops ----

  /** The value the root has after absorbing the tensors of ranks `source..` other than itself. */
  function Gathered<E>(w: World<E>, source: nat, root: nat, acc: seq<E>, xs: seq<seq<E>>,
                       absorb: (seq<E>, seq<E>) -> Option<seq<E>>): Option<seq<E>>
    requires |xs| == w.size
    decreases w.size - source
  {
    if source >= w.size then Some(acc)
    else if source == root then Gathered(w, source + 1, root, acc, xs, absorb)
    else
      match absorb(acc, xs[source])
      case None => None
      case Some(next) => Gathered(w, source + 1, root, next, xs, absorb)
  }

  /** Bytes of `pick(d)` summed over the ranks `from..` other than `root`. */
  function BytesOf<E>(w: World<E>, from: nat, root: nat, pick: nat -> seq<E>): nat
    decreases w.size - from
  {
    if from >= w.size then 0
    else (if from == root then 0 else Bytes(w, pick(from))) + BytesOf(w, from + 1, root, pick)
  }

  function Nth<E>(xs: seq<seq<E>>): nat -> seq<E> {
    (q: nat) => if q < |xs| then xs[q] else []
  }

  /** How many ranks from `from` on are not the root. */
  function Peers(size: nat, from: nat, root: nat): nat
    decreases size - from
  {
    if from >= size then 0 else (if from == root then 0 else 1) + Peers(size, from + 1, root)
  }

  lemma {:induction false} PeersAre(size: nat, from: nat, root: nat)
    requires from <= size && root < size
    ensures Peers(size, from, root) == size - from - (if from <= root then 1 else 0)
    decreases size - from
  {
    if from < size {
      PeersAre(size, from + 1, root);
    }
  }

  /** Frames handed over in so many rounds in which every rank sends one. */
  function RoundFrames(size: nat, rounds: nat): nat {
    if rounds == 0 then 0 else RoundFrames(size, rounds - 1) + size
  }

  lemma {:induction false} GatherRuns<E, C, R>(w: World<E>, procs: seq<Proc<seq<E>, C, R>>, source: nat, root: nat, tag: nat,
                             acc: seq<E>, received: nat, absorb: (seq<E>, seq<E>) -> Option<seq<E>>,
                             k: (seq<E>, nat) -> Proc<seq<E>, C, R>, xs: seq<seq<E>>) returns (end: seq<Proc<seq<E>, C, R>>)
    requires |procs| == |xs| == w.size && root < w.size
    requires procs[root] == GatherLoop(w, source, root, tag, acc, received, absorb, k)
    requires forall q :: source <= q < w.size && q != root ==>
               procs[q].Send? && procs[q].destination == root && procs[q].frame == Tensor(tag, xs[q])
    requires Gathered(w, source, root, acc, xs, absorb).Some?
    ensures ReachesWith(procs, end, Peers(w.size, source, root)) && |end| == w.size
    ensures end[root] == k(Gathered(w, source, root, acc, xs, absorb).value, received + BytesOf(w, source, root, Nth(xs)))
    ensures forall q :: source <= q < w.size && q != root ==> end[q] == procs[q].next
    ensures forall q :: 0 <= q < source && q < w.size && q != root ==> end[q] == procs[q]
    decreases w.size - source
  {
    hide ReachesWith;
    if source >= w.size {
      end := procs;
      WithNone(procs);
    } else if source == root {
      end := GatherRuns(w, procs, source + 1, root, tag, acc, received, absorb, k, xs);
    } else {
      var next := absorb(acc, xs[source]).value;
      var procs' := Hand(procs, source, root);
      end := GatherRuns(w, procs', source + 1, root, tag, next, received + Bytes(w, xs[source]), absorb, k, xs);
      OneMoreWith(procs, source, root, end, Peers(w.size, source + 1, root));
    }
  }

  lemma {:induction false} ScatterRuns<E, C, R>(w: World<E>, procs: seq<Proc<seq<E>, C, R>>, d: nat, root: nat, tag: nat,
                              pick: nat -> seq<E>, sent: nat, k: nat -> Proc<seq<E>, C, R>) returns (end: seq<Proc<seq<E>, C, R>>)
    requires |procs| == w.size && root < w.size
    requires procs[root] == ScatterLoop(w, d, root, tag, pick, sent, k)
    requires forall q :: d <= q < w.size && q != root ==>
               procs[q].Recv? && procs[q].source == root && procs[q].want == WantTensor(tag)
    ensures ReachesWith(procs, end, Peers(w.size, d, root)) && |end| == w.size
    ensures end[root] == k(sent + BytesOf(w, d, root, pick))
    ensures forall q :: d <= q < w.size && q != root ==> end[q] == procs[q].resume(Tensor(tag, pick(q)))
    ensures forall q :: 0 <= q < d && q < w.size && q != root ==> end[q] == procs[q]
    decreases w.size - d
  {
    hide ReachesWith;
    if d >= w.size {
      end := procs;
      WithNone(procs);
    } else if d == root {
      end := ScatterRuns(w, procs, d + 1, root, tag, pick, sent, k);
    } else {
      var procs' := Hand(procs, root, d);
      end := ScatterRuns(w, procs', d + 1, root, tag, pick, sent + Bytes(w, pick(d)), k);
      OneMoreWith(procs, root, d, end, Peers(w.size, d + 1, root));
    }
  }

  lemma GatherScatterRuns<E, C, R>(w: World<E>, procs: seq<Proc<seq<E>, C, R>>, t1: nat, t2: nat, xs: seq<seq<E>>,
                                   absorb: (seq<E>, seq<E>) -> Option<seq<E>>, pick: (seq<E>, nat) -> seq<E>,
                                   checks: seq<seq<E> -> bool>,
                                   ks: seq<Output<E> -> Proc<seq<E>, C, R>>) returns (end: seq<Proc<seq<E>, C, R>>)
    requires |procs| == |xs| == |checks| == |ks| == w.size > 0
    requires forall q :: 0 <= q < w.size ==> procs[q] == GatherScatter(w, q, t1, t2, xs[q], absorb, pick, checks[q], ks[q])
    requires Gathered(w, 0, 0, xs[0], xs, absorb).Some?
    requires forall q :: 0 < q < w.size ==> checks[q](pick(Gathered(w, 0, 0, xs[0], xs, absorb).value, q))
    ensures ReachesWith(procs, end, 2 * (w.size - 1)) && |end| == w.size
    ensures var acc := Gathered(w, 0, 0, xs[0], xs, absorb).value;
            && end[0] == ks[0](Output(Some(pick(acc, 0)), BytesOf(w, 0, 0, ShareOf(pick, acc)), BytesOf(w, 0, 0, Nth(xs))))
            && forall q :: 0 < q < w.size ==> end[q] == ks[q](Output(Some(pick(acc, q)), Bytes(w, xs[q]), Bytes(w, pick(acc, q))))
  {
    hide ReachesWith;
    var acc := Gathered(w, 0, 0, xs[0], xs, absorb).value;
    var mid := GatherRuns(w, procs, 0, 0, t1, xs[0], 0, absorb, ThenScatter(w, t2, pick, ks[0]), xs);
    var received := BytesOf(w, 0, 0, Nth(xs));
    end := ScatterRuns(w, mid, 0, 0, t2, ShareOf(pick, acc), 0, ThenFinish(Some(pick(acc, 0)), received, ks[0]));
    PeersAre(w.size, 0, 0);
    ThenWith(procs, mid, end, w.size - 1, w.size - 1);
  }

  // ---- one round of exchanges ----

  function Ahead(r: nat, shift: nat, n: nat): nat requires r < n && shift <= n { Wrap(r + shift, n) }
  function Behind(r: nat, shift: nat, n: nat): nat requires r < n && shift <= n { Wrap(r + n - shift, n) }

  /** Every rank exchanges with the rank `shift` ahead and the rank `shift` behind. */
  ghost predicate RoundReady<E, C, R>(procs: seq<Proc<seq<E>, C, R>>, shift: nat, tag: nat) {
    && 0 < shift < |procs|
    && forall r :: 0 <= r < |procs| ==>
         && procs[r].Exchange?
         && procs[r].destination == Ahead(r, shift, |procs|)
         && procs[r].source == Behind(r, shift, |procs|)
         && procs[r].tag == tag
         && procs[r].frame.Tensor? && procs[r].frame.tag == tag
  }

  /** Rank `r` in the middle of a round, when ranks below `done` have handed over their frame. */
  ghost function MidRound<E, C, R>(start: seq<Proc<seq<E>, C, R>>, shift: nat, done: nat, r: nat): Proc<seq<E>, C, R>
    requires r < |start| && 0 < shift < |start| && start[r].Exchange?
  {
    var b := Behind(r, shift, |start|);
    var got := b < done && b < |start| && start[b].Exchange?;
    if r < done then (if got then start[r].resume(start[b].frame) else AfterSend(start[r]))
    else (if got then AfterTake(start[r], start[b].frame) else start[r])
  }

  /** Every rank stands where it does when ranks below `done` have handed over their frame. */
  ghost predicate AtMidRound<E, C, R>(start: seq<Proc<seq<E>, C, R>>, procs: seq<Proc<seq<E>, C, R>>, shift: nat, tag: nat, done: nat) {
    && RoundReady(start, shift, tag) && |procs| == |start| && done <= |start|
    && forall r :: 0 <= r < |start| ==> procs[r] == MidRound(start, shift, done, r)
  }

  lemma RoundHand<E, C, R>(start: seq<Proc<seq<E>, C, R>>, procs: seq<Proc<seq<E>, C, R>>, shift: nat, tag: nat, done: nat)
    requires AtMidRound(start, procs, shift, tag, done) && done < |start|
    ensures var d := Ahead(done, shift, |start|);
            CanHand(procs, done, d) && AtMidRound(start, Hand(procs, done, d), shift, tag, done + 1)
  {}

  lemma {:induction false} RoundRunsFrom<E, C, R>(start: seq<Proc<seq<E>, C, R>>, procs: seq<Proc<seq<E>, C, R>>,
                                                  shift: nat, tag: nat, done: nat) returns (end: seq<Proc<seq<E>, C, R>>)
    requires AtMidRound(start, procs, shift, tag, done)
    ensures ReachesWith(procs, end, |start| - done) && AtMidRound(start, end, shift, tag, |start|)
    decreases |start| - done
  {
    var n := |start|;
    if done == n {
      end := procs;
      WithNone(procs);
    } else {
      RoundHand(start, procs, shift, tag, done);
      hide ReachesWith, AtMidRound, CanHand, Hand;
      var d := Ahead(done, shift, n);
      end := RoundRunsFrom(start, Hand(procs, done, d), shift, tag, done + 1);
      OneMoreWith(procs, done, d, end, n - done - 1);
    }
  }

  lemma RoundRuns<E, C, R>(start: seq<Proc<seq<E>, C, R>>, shift: nat, tag: nat) returns (end: seq<Proc<seq<E>, C, R>>)
    requires RoundReady(start, shift, tag)
    ensures ReachesWith(start, end, |start|) && |end| == |start|
    ensures forall r :: 0 <= r < |start| ==> end[r] == start[r].resume(start[Behind(r, shift, |start|)].frame)
  {
    end := RoundRunsFrom(start, start, shift, tag, 0);
  }
}
