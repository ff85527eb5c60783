/** The pipeline ranks stay within one step of each other, under every schedule.

A rank enters step `s + 1` only with the decision of step `s`; rank 0 decides only with the token of step
`s`; the last rank selects that token only after an activation of step `s` has come through every
other rank. The invariant records this evidence: what a frame in flight or set aside, or a place
reached in the loop, proves about its sender. */
module PipelineLockstep {
  import opened Options
  import opened Network
  import opened Tags
  import opened LinearAlgebra
  import opened Llama
  import opened Generation
  import opened TcpBarrier
  import opened Pipeline
  import opened PipelineRuns

  type RankFrame = Frame<Activation, PipelineControl>
  type RankNet = Net<Activation, PipelineControl, RankReport>

  /** A place in the loop. Phase 0 is the top of step `step`; 1: the activation is about to be passed on;
  2: waiting for the agreement; 2 + d, on rank 0: the decision is about to be sent to rank d. */
  datatype Point = Point(step: nat, phase: nat)

  predicate Past(a: Point, step: nat, phase: nat) {
    a.step > step || (a.step == step && a.phase > phase)
  }

  predicate NotBefore(b: Point, a: Point) {
    b.step > a.step || (b.step == a.step && b.phase >= a.phase)
  }

  predicate Runnable(su: Setup) {
    World(su) >= 2 && su.request.effective >= 1
  }

  // ---- which programs are at which place ----

  /** Inside a barrier that is followed by `next`. */
  ghost predicate InBarrier(size: nat, r: nat, generation: nat, p: RankProc, next: RankProc) {
    || (r == 0 && exists source :: 1 <= source <= size && p == CollectArrivals(size, generation, source, next))
    || (r == 0 && exists destination :: 1 <= destination <= size && p == SendReleases(size, generation, destination, next))
    || (r != 0 && (p == BarrierProc(size, r, generation, next) || p == AfterSend(BarrierProc(size, r, generation, next))))
  }

  /** Returned, failed, or in the barrier after the loop. */
  ghost predicate Over(su: Setup, r: nat, p: RankProc) {
    p.Done? || p.Failed? || exists report: RankReport :: InBarrier(World(su), r, 1, p, Done(report))
  }

  /** Rank 0 has one token for every step behind it. */
  predicate Kept(r: nat, step: nat, st: RankState) {
    r == 0 ==> |st.tokens| == step
  }

  /** The loop goes on only while there are tokens left to generate. */
  predicate GoesOn(su: Setup, r: nat, step: nat, decision: Decision, st: RankState) {
    decision == Continue ==> step + 1 < su.request.effective && Kept(r, step + 1, st)
  }

  ghost predicate AtTop(su: Setup, r: nat, p: RankProc, step: nat) {
    step < su.request.effective && exists st: RankState :: Kept(r, step, st) && p == StepProc(su, r, step, st)
  }

  ghost predicate AtPass(su: Setup, r: nat, p: RankProc, step: nat) {
    step < STEP_SPAN && step < su.request.effective
    && exists hidden: Activation, st: RankState :: Kept(r, step, st) && p == PassOn(su, r, step, hidden, st)
  }

  ghost predicate AtAgree(su: Setup, r: nat, p: RankProc, step: nat) {
    step < STEP_SPAN && step < su.request.effective
    && exists st: RankState :: Kept(r, step, st) && p == Agree(su, r, step, st)
  }

  ghost predicate AtAnnounce(su: Setup, p: RankProc, step: nat, destination: nat) {
    step < STEP_SPAN && step < su.request.effective && destination < World(su)
    && exists decision: Decision, st: RankState :: GoesOn(su, 0, step, decision, st) && p == Announce(su, step, destination, decision, st)
  }

  ghost predicate BeforeLoop(su: Setup, r: nat, p: RankProc) {
    InBarrier(World(su), r, 0, p, StepProc(su, r, 0, FirstState(su, r)))
  }

  ghost predicate IsAt(su: Setup, r: nat, p: RankProc, a: Point) {
    || Over(su, r, p)
    || (a == Point(0, 0) && BeforeLoop(su, r, p))
    || (a.phase == 0 && AtTop(su, r, p, a.step))
    || (a.phase == 1 && AtPass(su, r, p, a.step))
    || (a.phase == 2 && AtAgree(su, r, p, a.step))
    || (a.phase >= 3 && r == 0 && AtAnnounce(su, p, a.step, a.phase - 2))
  }

  // ---- one step of one rank ----

  predicate IsActivation(f: RankFrame, step: nat) { f.Tensor? && ActivationTag(step) == Some(f.tag) }
  predicate IsToken(f: RankFrame, step: nat) { f.Control? && TokenTag(step) == Some(f.tag) }
  predicate IsDecision(f: RankFrame, step: nat) { f.Control? && DecisionTag(step) == Some(f.tag) }

  /** A send leads from `a` to `b`: it needs no evidence. */
  predicate SendLeads(r: nat, a: Point, b: Point) {
    || b == a
    || (b == Point(a.step, 2) && (a.phase == 1 || (a.phase == 0 && r == 0)))
    || (r == 0 && a.phase >= 3 && (b == Point(a.step, a.phase + 1) || b == Point(a.step + 1, 0)))
  }

  /** A receive of `f` from `source` leads from `a` to `b`. */
  predicate TakeLeads(su: Setup, r: nat, a: Point, b: Point, source: nat, f: RankFrame) {
    || b == a
    || (r > 0 && a.phase == 0 && b == Point(a.step, 1) && source == r - 1 && IsActivation(f, a.step))
    || (r == 0 && a.phase == 2 && b == Point(a.step, 3) && source == LastRank(su) && IsToken(f, a.step))
    || (r > 0 && a.phase == 2 && b == Point(a.step + 1, 0) && source == 0 && IsDecision(f, a.step))
  }

  /** A decision to go on leaves a token to generate. */
  ghost predicate LeavesSome(su: Setup, f: RankFrame) {
    forall s: nat :: IsDecision(f, s) && f.control.DecisionMessage? && f.control.decision == Continue ==> s + 1 < su.request.effective
  }

  /** What a frame for rank `to` proves about the place of its sender. */
  ghost predicate Proves(su: Setup, f: RankFrame, to: nat, sender: Point) {
    && LeavesSome(su, f)
    && (forall s: nat :: IsActivation(f, s) ==> Past(sender, s, 1))
    && (forall s: nat :: IsToken(f, s) ==> Past(sender, s, 1))
    && (forall s: nat :: IsDecision(f, s) ==> Past(sender, s, 2 + to))
  }

  lemma BarrierMoves(size: nat, r: nat, generation: nat, p: RankProc, next: RankProc, f: RankFrame)
    requires InBarrier(size, r, generation, p, next) && size >= 2
    ensures p == next || ((p.Send? && (p.frame.Arrive? || p.frame.Release?)) || (p.Recv? && (p.want.WantArrive? || p.want.WantRelease?)))
    ensures p.Send? && p != next ==> AfterSend(p) == next || InBarrier(size, r, generation, AfterSend(p), next)
    ensures p.Recv? && p != next ==> var q := AfterTake(p, f); q == Failed || q == next || InBarrier(size, r, generation, q, next)
  {
    if r == 0 && p != next {
      if source: nat :| 1 <= source < size && p == CollectArrivals(size, generation, source, next) {
        var q: RankProc := CollectArrivals(size, generation, source + 1, next);
        assert AfterTake(p, f) == Failed || AfterTake(p, f) == q;
        assert 1 <= source + 1 <= size && InBarrier(size, r, generation, q, next);
      } else {
        assert CollectArrivals(size, generation, size, next) == SendReleases(size, generation, 1, next);
        assert SendReleases(size, generation, size, next) == next;
        var d: nat :| 1 <= d <= size && p == SendReleases(size, generation, d, next);
        var q: RankProc := SendReleases(size, generation, d + 1, next);
        assert d < size;
        assert SendReleases(size, generation, d, next) == Send(d, Release(generation), q);
        assert d + 1 <= size ==> InBarrier(size, r, generation, q, next);
      }
    }
  }

  lemma OverMoves(su: Setup, r: nat, p: RankProc, f: RankFrame)
    requires Over(su, r, p) && World(su) >= 2
    ensures !p.Exchange?
    ensures p.Send? ==> !p.frame.Tensor? && !p.frame.Control? && Over(su, r, AfterSend(p))
    ensures p.Recv? ==> (p.want.WantArrive? || p.want.WantRelease?) && Over(su, r, AfterTake(p, f))
  {
    if p.Send? || p.Recv? || p.Exchange? {
      var report: RankReport :| InBarrier(World(su), r, 1, p, Done(report));
      BarrierMoves(World(su), r, 1, p, Done(report), f);
    }
  }

  /** The end of the loop body is the top of the next step, or past the loop. */
  lemma ConcludeIsAt(su: Setup, r: nat, step: nat, decision: Decision, st: RankState)
    requires r < World(su) && step < STEP_SPAN && GoesOn(su, r, step, decision, st)
    ensures IsAt(su, r, Conclude(su, r, step, decision, st), Point(step + 1, 0))
  {
    if decision.Stop? {
      var report := RankReport(st.tokens, decision.reason, st.cache);
      assert InBarrier(World(su), r, 1, Conclude(su, r, step, decision, st), Done(report));
    }
  }

  lemma AnnounceIsAt(su: Setup, step: nat, destination: nat, decision: Decision, st: RankState)
    requires 1 <= destination <= World(su) && World(su) >= 2 && step < STEP_SPAN && step < su.request.effective && GoesOn(su, 0, step, decision, st)
    ensures var p := Announce(su, step, destination, decision, st);
            if destination < World(su) then IsAt(su, 0, p, Point(step, 2 + destination)) else IsAt(su, 0, p, Point(step + 1, 0))
  {
    ConcludeIsAt(su, 0, step, decision, st);
  }

  /** Passing on, with what the sent frame proves. */
  lemma PassMoves(su: Setup, r: nat, p: RankProc, step: nat)
    requires r < World(su) && World(su) >= 2 && AtPass(su, r, p, step)
    ensures p.Send? || p.Failed?
    ensures p.Send? ==> AtAgree(su, r, AfterSend(p), step) && LeavesSome(su, p.frame) && (IsActivation(p.frame, step) || IsToken(p.frame, step))
  {
    hide Agree;
    NamespacesDisjoint(step, step, 0, AllReduce, 0, 0);
    var hidden: Activation, st: RankState :| Kept(r, step, st) && p == PassOn(su, r, step, hidden, st);
    assert p.Send? ==> AfterSend(p) == Agree(su, r, step, st);
  }

  lemma OneStepOnly(su: Setup, f: RankFrame, to: nat, step: nat, b: Point)
    requires step < STEP_SPAN && LeavesSome(su, f)
    requires ((IsActivation(f, step) || IsToken(f, step)) && Past(b, step, 1)) || (IsDecision(f, step) && Past(b, step, 2 + to))
    ensures Proves(su, f, to, b)
  {}

  /** On rank 0 the top of a step is the passing-on itself; every other rank waits for an activation. */
  lemma TopMoves(su: Setup, r: nat, p: RankProc, step: nat, f: RankFrame)
    requires r < World(su) && World(su) >= 2 && AtTop(su, r, p, step)
    ensures r == 0 ==> p == Failed || AtPass(su, r, p, step)
    ensures r > 0 ==> p == Failed || (step < STEP_SPAN && p.Recv? && p.source == r - 1 && p.want == WantTensor(ActivationTag(step).value))
    ensures p.Recv? ==> AfterTake(p, f) == Failed || AtPass(su, r, AfterTake(p, f), step)
  {
    hide Agree, StageForward, StageTokens;
    var st: RankState :| Kept(r, step, st) && p == StepProc(su, r, step, st);
    if r == 0 && p != Failed {
      var input := if step == 0 then su.request.prompt else [st.previous.value];
      var out := StageTokens(su, input, st.cache).value;
      assert p == PassOn(su, r, step, out.0, st.(cache := out.1));
    } else if r > 0 && p.Recv? && AfterTake(p, f) != Failed {
      var out := StageForward(su, r, f.tensor, st.cache).value;
      assert AfterTake(p, f) == PassOn(su, r, step, out.0, st.(cache := out.1));
    }
  }

  lemma AgreeMoves(su: Setup, r: nat, p: RankProc, step: nat, f: RankFrame)
    requires r < World(su) && World(su) >= 2 && AtAgree(su, r, p, step)
    requires r > 0 && p.Recv? && p.source < World(su) ==> LeavesSome(su, f)
    ensures p.Recv? && p.source == (if r == 0 then LastRank(su) else 0)
    ensures p.want == WantControl(if r == 0 then TokenTag(step).value else DecisionTag(step).value)
    ensures AfterTake(p, f) == Failed || IsAt(su, r, AfterTake(p, f), if r == 0 then Point(step, 3) else Point(step + 1, 0))
  {
    hide Announce, Conclude, IsAt;
    var st: RankState :| Kept(r, step, st) && p == Agree(su, r, step, st);
    if Exact(p.want, f) && f.Control? {
      if r == 0 && f.control.TokenMessage? {
        var decided := Decide(su.request, f.control.token, st);
        AnnounceIsAt(su, step, 1, decided.0, decided.1);
      } else if r > 0 && f.control.DecisionMessage? {
        NamespacesDisjoint(step, step, 0, AllReduce, 0, 0);
        assert IsDecision(f, step);
        ConcludeIsAt(su, r, step, f.control.decision, st);
      }
    }
  }

  lemma AnnounceMoves(su: Setup, p: RankProc, step: nat, destination: nat)
    requires World(su) >= 2 && destination >= 1 && AtAnnounce(su, p, step, destination)
    ensures p.Send? && p.destination == destination && IsDecision(p.frame, step) && LeavesSome(su, p.frame)
    ensures IsAt(su, 0, AfterSend(p), if destination + 1 < World(su) then Point(step, 3 + destination) else Point(step + 1, 0))
  {
    hide IsAt;
    var decision: Decision, st: RankState :| GoesOn(su, 0, step, decision, st) && p == Announce(su, step, destination, decision, st);
    AnnounceIsAt(su, step, destination + 1, decision, st);
  }

  lemma SendMoves(su: Setup, r: nat, p: RankProc, a: Point) returns (b: Point)
    requires r < World(su) && Runnable(su) && IsAt(su, r, p, a) && (p.Send? || p.Exchange?)
    ensures p.Send? && IsAt(su, r, AfterSend(p), b) && SendLeads(r, a, b) && Proves(su, p.frame, p.destination, b)
  {
    hide StepProc, PassOn, Agree, Announce;
    b := a;
    var f := Release(0);
    if Over(su, r, p) {
      OverMoves(su, r, p, f);
    } else if a == Point(0, 0) && BeforeLoop(su, r, p) && !AtTop(su, r, p, 0) {
      BarrierMoves(World(su), r, 0, p, StepProc(su, r, 0, FirstState(su, r)), f);
    } else if a.phase <= 1 {
      if a.phase == 0 {
        TopMoves(su, r, p, a.step, f);
      }
      PassMoves(su, r, p, a.step);
      b := Point(a.step, 2);
      OneStepOnly(su, p.frame, p.destination, a.step, b);
    } else if a.phase == 2 {
      AgreeMoves(su, r, p, a.step, f);
    } else {
      AnnounceMoves(su, p, a.step, a.phase - 2);
      b := if a.phase - 1 < World(su) then Point(a.step, a.phase + 1) else Point(a.step + 1, 0);
      OneStepOnly(su, p.frame, p.destination, a.step, b);
    }
  }

  lemma TakeMoves(su: Setup, r: nat, p: RankProc, a: Point, f: RankFrame) returns (b: Point)
    requires r < World(su) && Runnable(su) && IsAt(su, r, p, a) && (p.Recv? || p.Exchange?)
    requires p.source < World(su) ==> LeavesSome(su, f)
    ensures p.Recv? && IsAt(su, r, AfterTake(p, f), b) && TakeLeads(su, r, a, b, p.source, f)
  {
    hide StepProc, PassOn, Agree, Announce;
    b := a;
    if Over(su, r, p) {
      OverMoves(su, r, p, f);
    } else if a == Point(0, 0) && BeforeLoop(su, r, p) && !AtTop(su, r, p, 0) {
      BarrierMoves(World(su), r, 0, p, StepProc(su, r, 0, FirstState(su, r)), f);
    } else if a.phase == 0 {
      TopMoves(su, r, p, a.step, f);
      if r == 0 {
        PassMoves(su, r, p, a.step);
      } else if AfterTake(p, f) != Failed {
        b := Point(a.step, 1);
      }
    } else if a.phase == 1 {
      PassMoves(su, r, p, a.step);
    } else if a.phase == 2 {
      AgreeMoves(su, r, p, a.step, f);
      if AfterTake(p, f) != Failed {
        b := if r == 0 then Point(a.step, 3) else Point(a.step + 1, 0);
      }
    } else {
      AnnounceMoves(su, p, a.step, a.phase - 2);
    }
  }

  // ---- all ranks ----

  /** The rank that hands rank `r` its activation, or the token on rank 0. */
  function Behind(su: Setup, r: nat): (b: nat)
    requires r < World(su)
    ensures b < World(su)
  {
    if r == 0 then LastRank(su) else r - 1
  }

  /** Whatever rank `r` is past, the evidence for it is where it has to come from. */
  ghost predicate Evidence(r: nat, mine: Point, behind: Point, first: Point) {
    forall s: nat ::
      && (Past(mine, s, if r == 0 then 2 else 0) ==> Past(behind, s, 1))
      && (r > 0 && Past(mine, s, 2) ==> Past(first, s, 2 + r))
  }

  ghost predicate Backed(su: Setup, points: seq<Point>, r: nat)
    requires |points| == World(su) >= 2 && r < World(su)
  {
    Evidence(r, points[r], points[Behind(su, r)], points[0])
  }

  lemma EvidenceGrows(r: nat, mine: Point, behind: Point, first: Point, behind': Point, first': Point)
    requires Evidence(r, mine, behind, first) && NotBefore(behind', behind) && NotBefore(first', first)
    ensures Evidence(r, mine, behind', first')
  {
    forall s: nat ensures Past(mine, s, if r == 0 then 2 else 0) ==> Past(behind', s, 1) {
      assert Past(mine, s, if r == 0 then 2 else 0) ==> Past(behind, s, 1);
    }
    forall s: nat ensures r > 0 && Past(mine, s, 2) ==> Past(first', s, 2 + r) {
      assert r > 0 && Past(mine, s, 2) ==> Past(first, s, 2 + r);
    }
  }

  lemma SendNeedsNone(r: nat, a: Point, b: Point, behind: Point, first: Point)
    requires SendLeads(r, a, b) && Evidence(r, a, behind, first)
    ensures NotBefore(b, a) && Evidence(r, b, behind, first)
  {
    forall s: nat ensures Past(b, s, if r == 0 then 2 else 0) ==> Past(behind, s, 1) {
      assert Past(a, s, if r == 0 then 2 else 0) ==> Past(behind, s, 1);
    }
    forall s: nat ensures r > 0 && Past(b, s, 2) ==> Past(first, s, 2 + r) {
      assert r > 0 && Past(a, s, 2) ==> Past(first, s, 2 + r);
    }
  }

  lemma TakeBringsIt(su: Setup, r: nat, a: Point, b: Point, source: nat, f: RankFrame, behind: Point, first: Point)
    requires r < World(su) && TakeLeads(su, r, a, b, source, f) && Evidence(r, a, behind, first)
    requires source == Behind(su, r) ==> Proves(su, f, r, behind)
    requires source == 0 && r > 0 ==> Proves(su, f, r, first)
    ensures NotBefore(b, a) && Evidence(r, b, behind, first)
  {
    forall s: nat ensures Past(b, s, if r == 0 then 2 else 0) ==> Past(behind, s, 1) {
      assert Past(a, s, if r == 0 then 2 else 0) ==> Past(behind, s, 1);
    }
    forall s: nat ensures r > 0 && Past(b, s, 2) ==> Past(first, s, 2 + r) {
      assert r > 0 && Past(a, s, 2) ==> Past(first, s, 2 + r);
    }
  }

  ghost predicate Placed(su: Setup, procs: seq<RankProc>, points: seq<Point>) {
    && Runnable(su) && |procs| == |points| == World(su)
    && forall r :: 0 <= r < World(su) ==> IsAt(su, r, procs[r], points[r]) && Backed(su, points, r)
  }

  ghost predicate Grown(before: seq<Point>, after: seq<Point>) {
    |before| == |after| && forall r :: 0 <= r < |before| ==> NotBefore(after[r], before[r])
  }

  ghost predicate Proven(su: Setup, points: seq<Point>, k: Link, frames: seq<RankFrame>) {
    k.from < |points| ==> forall f :: f in frames ==> Proves(su, f, k.to, points[k.from])
  }

  ghost predicate AllProven(su: Setup, points: seq<Point>, q: Queues<Activation, PipelineControl>) {
    forall k: Link :: Proven(su, points, k, Get(q, k))
  }

  ghost predicate Lockstep(su: Setup, c: RankNet, points: seq<Point>) {
    Placed(su, c.procs, points) && AllProven(su, points, c.links) && AllProven(su, points, c.pending)
  }

  lemma ProvenGrows(su: Setup, before: seq<Point>, after: seq<Point>, q: Queues<Activation, PipelineControl>)
    requires Grown(before, after) && AllProven(su, before, q)
    ensures AllProven(su, after, q)
  {
    forall k: Link ensures Proven(su, after, k, Get(q, k)) {
      assert Proven(su, before, k, Get(q, k));
    }
  }

  lemma BackedStays(su: Setup, points: seq<Point>, r: nat, b: Point, q: nat)
    requires |points| == World(su) >= 2 && r < World(su) && q < World(su) && q != r
    requires Backed(su, points, q) && NotBefore(b, points[r])
    ensures Backed(su, points[r := b], q)
  {
    hide Evidence;
    var after := points[r := b];
    EvidenceGrows(q, points[q], points[Behind(su, q)], points[0], after[Behind(su, q)], after[0]);
  }

  lemma OwnMove(su: Setup, points: seq<Point>, r: nat, b: Point)
    requires |points| == World(su) >= 2 && r < World(su)
    requires NotBefore(b, points[r]) && Evidence(r, b, points[Behind(su, r)], points[0])
    ensures Backed(su, points[r := b], r)
  {
    hide Evidence;
    EvidenceGrows(r, b, points[Behind(su, r)], points[0], points[Behind(su, r)], if r == 0 then b else points[0]);
  }

  /** One rank has moved on to a place that is backed. */
  lemma MovedOn(su: Setup, procs: seq<RankProc>, points: seq<Point>, r: nat, p: RankProc, b: Point)
    requires Placed(su, procs, points) && r < World(su)
    requires IsAt(su, r, p, b) && NotBefore(b, points[r]) && Backed(su, points[r := b], r)
    ensures Placed(su, procs[r := p], points[r := b]) && Grown(points, points[r := b])
  {
    hide IsAt, Backed;
    var after := points[r := b];
    forall q | 0 <= q < World(su) ensures IsAt(su, q, procs[r := p][q], after[q]) && Backed(su, after, q) {
      if q != r {
        BackedStays(su, points, r, b, q);
      }
    }
  }

  lemma SendPlaces(su: Setup, procs: seq<RankProc>, points: seq<Point>, r: nat) returns (after: seq<Point>)
    requires Placed(su, procs, points) && r < World(su) && (procs[r].Send? || procs[r].Exchange?)
    ensures Placed(su, procs[r := AfterSend(procs[r])], after) && Grown(points, after)
    ensures Proves(su, procs[r].frame, procs[r].destination, after[r])
  {
    hide IsAt, Evidence;
    var b := SendMoves(su, r, procs[r], points[r]);
    SendNeedsNone(r, points[r], b, points[Behind(su, r)], points[0]);
    OwnMove(su, points, r, b);
    MovedOn(su, procs, points, r, AfterSend(procs[r]), b);
    after := points[r := b];
  }

  lemma TakePlaces(su: Setup, procs: seq<RankProc>, points: seq<Point>, r: nat, f: RankFrame) returns (after: seq<Point>)
    requires Placed(su, procs, points) && r < World(su) && (procs[r].Recv? || procs[r].Exchange?)
    requires procs[r].source < World(su) ==> Proves(su, f, r, points[procs[r].source])
    ensures Placed(su, procs[r := AfterTake(procs[r], f)], after) && Grown(points, after)
  {
    hide IsAt, Evidence;
    var b := TakeMoves(su, r, procs[r], points[r], f);
    TakeBringsIt(su, r, points[r], b, procs[r].source, f, points[Behind(su, r)], points[0]);
    OwnMove(su, points, r, b);
    MovedOn(su, procs, points, r, AfterTake(procs[r], f), b);
    after := points[r := b];
  }

  lemma PlacedSize(su: Setup, procs: seq<RankProc>, points: seq<Point>)
    requires Placed(su, procs, points)
    ensures |procs| == |points| == World(su) >= 2
  {}

  /** Replacing one queue by proven frames. */
  lemma PutKeeps(su: Setup, points: seq<Point>, q: Queues<Activation, PipelineControl>, k: Link, frames: seq<RankFrame>)
    requires AllProven(su, points, q) && Proven(su, points, k, frames)
    ensures AllProven(su, points, Put(q, k, frames))
  {
    hide Proves;
    forall l: Link ensures Proven(su, points, l, Get(Put(q, k, frames), l)) {
      assert l != k ==> Get(Put(q, k, frames), l) == Get(q, l);
      assert Proven(su, points, l, Get(q, l));
    }
  }

  lemma SendKeeps(su: Setup, cap: Capacity, c: RankNet, points: seq<Point>, r: nat) returns (after: seq<Point>)
    requires Lockstep(su, c, points) && CanSend(cap, c, r)
    ensures Lockstep(su, FireSend(cap, c, r), after)
  {
    hide Placed, Proves, Put, Get, NotBefore;
    PlacedSize(su, c.procs, points);
    after := SendPlaces(su, c.procs, points, r);
    ProvenGrows(su, points, after, c.links);
    ProvenGrows(su, points, after, c.pending);
    var link := Link(r, c.procs[r].destination);
    assert Proven(su, after, link, Get(c.links, link));
    PutKeeps(su, after, c.links, link, Get(c.links, link) + [c.procs[r].frame]);
  }

  /** Every frame a receive loop takes or sets aside was set aside before or on the link. */
  lemma DrawnFrom<T, C>(want: Want, aside: seq<Frame<T, C>>, flying: seq<Frame<T, C>>)
    requires FirstLook(want, aside) < |aside| || flying != []
    ensures var d := Draw(want, aside, flying);
            && (d.taken.Some? ==> d.taken.value in aside || (d.read && d.taken.value in flying))
            && forall f :: f in d.aside ==> f in aside || (d.read && f in flying)
  {}

  /** The sender has moved on when its frame is read directly; whatever can be read is proven. */
  lemma UnblockedPlaces(su: Setup, cap: Capacity, c: RankNet, points: seq<Point>, r: nat) returns (after: seq<Point>)
    requires Lockstep(su, c, points) && CanRecv(cap, c, r)
    ensures Placed(su, Unblocked(cap, c, r), after) && Grown(points, after)
    ensures DrawOf(cap, c, r).read ==> Proven(su, after, Link(c.procs[r].source, r), Readable(cap, c, c.procs[r].source, r))
    ensures Unblocked(cap, c, r)[r] == c.procs[r]
  {
    hide Placed, Proves, NotBefore;
    PlacedSize(su, c.procs, points);
    var s := c.procs[r].source;
    after := points;
    if Direct(cap) && DrawOf(cap, c, r).read {
      after := SendPlaces(su, c.procs, points, s);
    } else {
      SelfGrown(points);
      assert Proven(su, points, Link(s, r), Get(c.links, Link(s, r)));
    }
  }

  lemma SelfGrown(points: seq<Point>)
    ensures Grown(points, points)
  {}

  lemma RecvKeeps(su: Setup, cap: Capacity, c: RankNet, points: seq<Point>, r: nat) returns (after: seq<Point>)
    requires Lockstep(su, c, points) && CanRecv(cap, c, r)
    ensures Lockstep(su, FireRecv(cap, c, r), after)
  {
    hide Placed, Proves, Put, Get, NotBefore, Draw;
    PlacedSize(su, c.procs, points);
    var p, link, d := c.procs[r], Link(c.procs[r].source, r), DrawOf(cap, c, r);
    var flying := Readable(cap, c, p.source, r);
    DrawnFrom(WantOf(p), Get(c.pending, link), flying);
    var mid := UnblockedPlaces(su, cap, c, points, r);
    ProvenGrows(su, points, mid, c.links);
    ProvenGrows(su, points, mid, c.pending);
    assert Proven(su, mid, link, Get(c.links, link)) && Proven(su, mid, link, Get(c.pending, link));
    PutKeeps(su, mid, c.links, link, Drained(cap, c, r));
    PutKeeps(su, mid, c.pending, link, d.aside);
    after := mid;
    if d.taken.Some? {
      after := TakePlaces(su, Unblocked(cap, c, r), mid, r, d.taken.value);
      ProvenGrows(su, mid, after, FireRecv(cap, c, r).links);
      ProvenGrows(su, mid, after, FireRecv(cap, c, r).pending);
    }
  }

  // ---- whole runs ----

  lemma StartIsPlaced(su: Setup) returns (points: seq<Point>)
    requires Runnable(su)
    ensures Lockstep(su, Quiet(Ranks(su)), points)
  {
    points := seq(World(su), _ => Point(0, 0));
    forall r | 0 <= r < World(su) ensures IsAt(su, r, Ranks(su)[r], points[r]) && Backed(su, points, r) {
      assert InBarrier(World(su), r, 0, Ranks(su)[r], StepProc(su, r, 0, FirstState(su, r)));
    }
  }

  lemma {:induction false} RunKeeps(su: Setup, cap: Capacity, c: RankNet, points: seq<Point>, schedule: seq<Act>) returns (after: seq<Point>)
    requires Lockstep(su, c, points) && Legal(cap, c, schedule)
    ensures Lockstep(su, Run(cap, c, schedule), after)
    decreases |schedule|
  {
    hide Lockstep, Fire;
    if schedule == [] {
      after := points;
    } else {
      var next := FireKeeps(su, cap, c, points, schedule[0]);
      after := RunKeeps(su, cap, Fire(cap, c, schedule[0]), next, schedule[1..]);
    }
  }

  lemma FireKeeps(su: Setup, cap: Capacity, c: RankNet, points: seq<Point>, a: Act) returns (after: seq<Point>)
    requires Lockstep(su, c, points) && Enabled(cap, c, a)
    ensures Lockstep(su, Fire(cap, c, a), after)
  {
    hide Lockstep;
    if a.sending {
      after := SendKeeps(su, cap, c, points, a.rank);
    } else {
      after := RecvKeeps(su, cap, c, points, a.rank);
    }
  }

  /** A rank past the agreement of step `s` has every rank's activation of step `s` behind it. */
  lemma {:induction false} AllPassedOn(su: Setup, points: seq<Point>, s: nat, r: nat)
    requires |points| == World(su) >= 2 && r < World(su) && (forall q :: 0 <= q < World(su) ==> Backed(su, points, q))
    requires Past(points[LastRank(su)], s, 1)
    ensures Past(points[r], s, 1)
    decreases World(su) - r
  {
    if r + 1 < World(su) {
      AllPassedOn(su, points, s, r + 1);
      assert Backed(su, points, r + 1) && Behind(su, r + 1) == r;
      assert Past(points[r + 1], s, 0) ==> Past(points[r], s, 1);
    }
  }

  /** The rank is about to send or waits for a message of step `s`. */
  predicate InStep(p: RankProc, s: nat) {
    || (p.Send? && (IsActivation(p.frame, s) || IsToken(p.frame, s) || IsDecision(p.frame, s)))
    || (p.Recv? && ActivationTag(s).Some? && p.want in {WantTensor(ActivationTag(s).value), WantControl(TokenTag(s).value), WantControl(DecisionTag(s).value)})
  }

  lemma InStepIs(su: Setup, r: nat, p: RankProc, a: Point, s: nat)
    requires r < World(su) && Runnable(su) && IsAt(su, r, p, a) && InStep(p, s)
    ensures a.step == s < su.request.effective
  {
    hide StepProc, PassOn, Agree, Announce;
    var f: RankFrame := Release(0);
    if Over(su, r, p) {
      OverMoves(su, r, p, f);
    } else if a == Point(0, 0) && BeforeLoop(su, r, p) && !AtTop(su, r, p, 0) {
      BarrierMoves(World(su), r, 0, p, StepProc(su, r, 0, FirstState(su, r)), f);
    } else if a.phase <= 1 {
      if a.phase == 0 {
        TopMoves(su, r, p, a.step, f);
      }
      if r == 0 || a.phase == 1 {
        PassMoves(su, r, p, a.step);
      }
    } else if a.phase == 2 {
      AgreeMoves(su, r, p, a.step, f);
    } else {
      AnnounceMoves(su, p, a.step, a.phase - 2);
    }
  }

  /** After any schedule, any two ranks that are in the loop are at most one step apart, and the step is below the
  number of tokens to generate. */
  lemma StepsStayTogether(su: Setup, cap: Capacity, schedule: seq<Act>, r: nat, q: nat, s: nat, t: nat)
    requires Runnable(su) && Legal(cap, Quiet(Ranks(su)), schedule) && r < World(su) && q < World(su)
    ensures var procs := Run(cap, Quiet(Ranks(su)), schedule).procs;
            && |procs| == World(su)
            && (InStep(procs[r], s) ==> s < su.request.effective)
            && (InStep(procs[r], s) && InStep(procs[q], t) ==> s <= t + 1)
  {
    hide IsAt, InStep;
    var start := StartIsPlaced(su);
    var points := RunKeeps(su, cap, Quiet(Ranks(su)), start, schedule);
    var procs := Run(cap, Quiet(Ranks(su)), schedule).procs;
    if InStep(procs[r], s) {
      InStepIs(su, r, procs[r], points[r], s);
    }
    if InStep(procs[r], s) && InStep(procs[q], t) {
      InStepIs(su, q, procs[q], points[q], t);
      if s > 0 {
        StepTaken(su, points, r, s - 1);
        AllPassedOn(su, points, s - 1, q);
      }
    }
  }

  lemma StepTaken(su: Setup, points: seq<Point>, r: nat, s: nat)
    requires |points| == World(su) >= 2 && r < World(su) && (forall q :: 0 <= q < World(su) ==> Backed(su, points, q))
    requires Past(points[r], s, 2)
    ensures Past(points[LastRank(su)], s, 1)
  {
    assert Backed(su, points, r) && Backed(su, points, 0);
    if r > 0 {
      assert Past(points[0], s, 2 + r);
    }
    assert Past(points[0], s, 2) ==> Past(points[LastRank(su)], s, 1);
  }
}