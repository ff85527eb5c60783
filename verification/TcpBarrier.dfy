/** The barrier of the TCP transport: every rank reports to rank 0, which then releases all of them. */
module TcpBarrier {
  import opened Network

  /** Rank 0 waits for the arrival of ranks `source..` and then releases everyone. */
  function CollectArrivals<T, C, R>(size: nat, generation: nat, source: nat, next: Proc<T, C, R>): Proc<T, C, R>
    decreases size - source
  {
    if source >= size then SendReleases(size, generation, 1, next)
    else Recv(source, WantArrive(generation), _ => CollectArrivals(size, generation, source + 1, next))
  }

  function SendReleases<T, C, R>(size: nat, generation: nat, destination: nat, next: Proc<T, C, R>): Proc<T, C, R>
    decreases size - destination
  {
    if destination >= size then next
    else Send(destination, Release(generation), SendReleases(size, generation, destination + 1, next))
  }

  /** One barrier on one rank, then the rest of its program. */
  function BarrierProc<T, C, R>(size: nat, rank: nat, generation: nat, next: Proc<T, C, R>): Proc<T, C, R> {
    if rank == 0 then CollectArrivals(size, generation, 1, next)
    else Send(0, Arrive(generation), Recv(0, WantRelease(generation), _ => next))
  }

  lemma {:induction false} ArrivalsRun<T, C, R>(procs: seq<Proc<T, C, R>>, generation: nat, source: nat, next: Proc<T, C, R>) returns (end: seq<Proc<T, C, R>>)
    requires 1 <= source <= |procs| && procs[0] == CollectArrivals(|procs|, generation, source, next)
    requires forall r :: source <= r < |procs| ==> procs[r].Send? && procs[r].destination == 0 && procs[r].frame == Arrive(generation)
    ensures ReachesWith(procs, end, |procs| - source) && |end| == |procs|
    ensures end[0] == SendReleases(|procs|, generation, 1, next)
    ensures forall r :: source <= r < |procs| ==> end[r] == procs[r].next
    ensures forall r :: 0 < r < source ==> end[r] == procs[r]
    decreases |procs| - source
  {
    if source == |procs| {
      end := procs;
      WithNone(procs);
    } else {
      end := ArrivalsRun(Hand(procs, source, 0), generation, source + 1, next);
      OneMoreWith(procs, source, 0, end, |procs| - source - 1);
    }
  }

  lemma {:induction false} ReleasesRun<T, C, R>(procs: seq<Proc<T, C, R>>, generation: nat, d: nat, next: Proc<T, C, R>) returns (end: seq<Proc<T, C, R>>)
    requires 1 <= d <= |procs| && procs[0] == SendReleases(|procs|, generation, d, next)
    requires forall r :: d <= r < |procs| ==> procs[r].Recv? && procs[r].source == 0 && procs[r].want == WantRelease(generation)
    ensures ReachesWith(procs, end, |procs| - d) && |end| == |procs|
    ensures end[0] == next
    ensures forall r :: d <= r < |procs| ==> end[r] == procs[r].resume(Release(generation))
    ensures forall r :: 0 < r < d ==> end[r] == procs[r]
    decreases |procs| - d
  {
    if d == |procs| {
      end := procs;
      WithNone(procs);
    } else {
      end := ReleasesRun(Hand(procs, 0, d), generation, d + 1, next);
      OneMoreWith(procs, 0, d, end, |procs| - d - 1);
    }
  }

  /** When every rank is at the same barrier, all of them get past it, with two frames for every rank but one. */
  lemma BarrierRuns<T, C, R>(procs: seq<Proc<T, C, R>>, generation: nat, nexts: seq<Proc<T, C, R>>)
    requires |procs| == |nexts| > 0
    requires forall r :: 0 <= r < |procs| ==> procs[r] == BarrierProc(|procs|, r, generation, nexts[r])
    ensures Reaches(procs, nexts) && ReachesWith(procs, nexts, 2 * (|procs| - 1))
  {
    var mid := ArrivalsRun(procs, generation, 1, nexts[0]);
    var end := ReleasesRun(mid, generation, 1, nexts[0]);
    assert end == nexts;
    ThenWith(procs, mid, nexts, |procs| - 1, |procs| - 1);
    WithReaches(procs, nexts, 2 * (|procs| - 1));
  }
}
