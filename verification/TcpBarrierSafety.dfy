/** The TCP barrier over whole runs: ranks enter generation after generation at their own pace, and the
arrival and release frames share their connections with tensor frames.

An inbox holds what one rank has not yet received from another one, set aside or in flight, oldest first. The
barrier receive takes the first barrier frame of an inbox, whatever tensors are before it
(`TcpEndpoints.TcpEndpoint.ReceiveBarrier`); an ordinary receive takes a tensor from anywhere in it
(`TcpEndpoints.TcpEndpoint.Receive`). Tensors may be sent and received at any time. */
module TcpBarrierSafety {
  import opened Sequences

  /** Where a rank is: outside with so many generations completed, or inside generation `generation`. */
  datatype Phase =
    | Outside(completed: nat)
    | Waiting(generation: nat)
    | Collecting(generation: nat, source: nat)
    | Releasing(generation: nat, destination: nat)
    | ProtocolError

  datatype Item = Marker(generation: nat) | Payload(tag: nat)

  type Inbox = seq<Item>

  /** Phases of all ranks, and the inboxes between every rank and rank 0: what rank 0 has from the rank, and what
  the rank has from rank 0. */
  datatype State = State(phases: seq<Phase>, up: seq<Inbox>, down: seq<Inbox>)

  datatype Event =
    | Enter(rank: nat)
    | Collect
    | Release
    | Resume(rank: nat)
    | PostUp(rank: nat, tag: nat)
    | PostDown(rank: nat, tag: nat)
    | FetchUp(rank: nat, index: nat)
    | FetchDown(rank: nat, index: nat)

  // ---- inboxes ----

  /** What one item is among the barrier frames, and among the tensors. */
  function OneMarker(item: Item): seq<nat> {
    if item.Marker? then [item.generation] else []
  }

  function OnePayload(item: Item): seq<nat> {
    if item.Payload? then [item.tag] else []
  }

  /** Generations of the barrier frames, oldest first. */
  function Markers(inbox: Inbox): seq<nat> {
    if inbox == [] then []
    else OneMarker(inbox[0]) + Markers(inbox[1..])
  }

  /** Tags of the tensor frames, oldest first. */
  function Payloads(inbox: Inbox): seq<nat> {
    if inbox == [] then []
    else OnePayload(inbox[0]) + Payloads(inbox[1..])
  }

  /** Position of the oldest barrier frame, or the length when there is none. */
  function FirstMarker(inbox: Inbox): (i: nat)
    ensures i <= |inbox| && (i < |inbox| ==> inbox[i].Marker?)
    ensures forall j :: 0 <= j < i ==> inbox[j].Payload?
  {
    if inbox == [] then 0 else if inbox[0].Marker? then 0 else 1 + FirstMarker(inbox[1..])
  }

  lemma {:induction false} MarkersSplit(a: Inbox, b: Inbox)
    ensures Markers(a + b) == Markers(a) + Markers(b)
  {
    if a == [] {
      assert a + b == b;
    } else {
      var first, rest := OneMarker(a[0]), Markers(a[1..]);
      assert (a + b)[0] == a[0] && (a + b)[1..] == a[1..] + b;
      MarkersSplit(a[1..], b);
      assert Markers(a + b) == first + (rest + Markers(b)) == (first + rest) + Markers(b);
    }
  }

  lemma {:induction false} PayloadsSplit(a: Inbox, b: Inbox)
    ensures Payloads(a + b) == Payloads(a) + Payloads(b)
  {
    if a == [] {
      assert a + b == b;
    } else {
      var first, rest := OnePayload(a[0]), Payloads(a[1..]);
      assert (a + b)[0] == a[0] && (a + b)[1..] == a[1..] + b;
      PayloadsSplit(a[1..], b);
      assert Payloads(a + b) == first + (rest + Payloads(b)) == (first + rest) + Payloads(b);
    }
  }

  lemma AroundItem(inbox: Inbox, i: nat)
    requires i < |inbox|
    ensures inbox == inbox[..i] + ([inbox[i]] + inbox[i + 1..])
    ensures Markers([inbox[i]] + inbox[i + 1..]) == OneMarker(inbox[i]) + Markers(inbox[i + 1..])
    ensures inbox[i].Marker? ==> Payloads([inbox[i]] + inbox[i + 1..]) == Payloads(inbox[i + 1..])
  {
    assert ([inbox[i]] + inbox[i + 1..])[1..] == inbox[i + 1..];
  }

  lemma MarkersAround(inbox: Inbox, i: nat)
    requires i < |inbox|
    ensures Markers(inbox) == Markers(inbox[..i]) + (OneMarker(inbox[i]) + Markers(inbox[i + 1..]))
    ensures Markers(Without(inbox, i)) == Markers(inbox[..i]) + Markers(inbox[i + 1..])
  {
    hide Markers, OneMarker;
    AroundItem(inbox, i);
    MarkersSplit(inbox[..i], [inbox[i]] + inbox[i + 1..]);
    MarkersSplit(inbox[..i], inbox[i + 1..]);
  }

  lemma PayloadsAround(inbox: Inbox, i: nat)
    requires i < |inbox| && inbox[i].Marker?
    ensures Payloads(Without(inbox, i)) == Payloads(inbox)
  {
    hide Payloads;
    AroundItem(inbox, i);
    PayloadsSplit(inbox[..i], [inbox[i]] + inbox[i + 1..]);
    PayloadsSplit(inbox[..i], inbox[i + 1..]);
  }

  lemma {:induction false} OnlyPayloads(inbox: Inbox)
    requires forall i :: 0 <= i < |inbox| ==> inbox[i].Payload?
    ensures Markers(inbox) == []
  {
    if inbox != [] {
      OnlyPayloads(inbox[1..]);
    }
  }

  /** Taking the first barrier frame pops the markers and keeps every tensor in its order. */
  lemma TakesMarker(inbox: Inbox)
    ensures FirstMarker(inbox) < |inbox| <==> Markers(inbox) != []
    ensures var i := FirstMarker(inbox);
            i < |inbox| ==> && Markers(inbox)[0] == inbox[i].generation
                            && Markers(Without(inbox, i)) == Markers(inbox)[1..] && Payloads(Without(inbox, i)) == Payloads(inbox)
  {
    hide Markers, Payloads, FirstMarker, Without;
    var i := FirstMarker(inbox);
    NoneBefore(inbox);
    if i < |inbox| {
      var rest := Markers(inbox[i + 1..]);
      MarkersAround(inbox, i);
      PayloadsAround(inbox, i);
      assert Markers(inbox) == [inbox[i].generation] + rest && Markers(Without(inbox, i)) == rest;
    }
  }

  lemma NoneBefore(inbox: Inbox)
    ensures Markers(inbox[..FirstMarker(inbox)]) == []
    ensures FirstMarker(inbox) == |inbox| ==> Markers(inbox) == []
  {
    hide Markers, FirstMarker;
    var i := FirstMarker(inbox);
    OnlyPayloads(inbox[..i]);
    assert i == |inbox| ==> inbox[..i] == inbox;
  }

  /** Taking a tensor leaves the barrier frames alone, and so does sending one. */
  lemma OneItem(item: Item)
    ensures Markers([item]) == OneMarker(item) && (item.Marker? ==> Payloads([item]) == [])
  {
    assert [item][1..] == [];
  }

  lemma PayloadsPass(inbox: Inbox, i: nat, tag: nat)
    ensures i < |inbox| && inbox[i].Payload? ==> Markers(Without(inbox, i)) == Markers(inbox)
    ensures Markers(inbox + [Payload(tag)]) == Markers(inbox)
  {
    hide Markers;
    MarkersSplit(inbox, [Payload(tag)]);
    OneItem(Payload(tag));
    if i < |inbox| {
      MarkersAround(inbox, i);
    }
  }

  lemma MarkerArrives(inbox: Inbox, g: nat)
    ensures Markers(inbox + [Marker(g)]) == Markers(inbox) + [g] && Payloads(inbox + [Marker(g)]) == Payloads(inbox)
  {
    hide Markers, Payloads;
    MarkersSplit(inbox, [Marker(g)]);
    PayloadsSplit(inbox, [Marker(g)]);
    OneItem(Marker(g));
  }

  // ---- steps ----

  function Size(s: State): nat { |s.phases| }

  predicate Shaped(s: State) {
    |s.phases| == |s.up| == |s.down| > 0
  }

  function Start(size: nat): State {
    State(seq(size, _ => Outside(0)), seq(size, _ => []), seq(size, _ => []))
  }

  predicate Possible(s: State, e: Event) {
    Shaped(s) &&
    match e
    case Enter(rank) => rank < Size(s) && s.phases[rank].Outside?
    case Collect =>
      s.phases[0].Collecting? && (s.phases[0].source < Size(s) ==> FirstMarker(s.up[s.phases[0].source]) < |s.up[s.phases[0].source]|)
    case Release => s.phases[0].Releasing?
    case Resume(rank) => 0 < rank < Size(s) && s.phases[rank].Waiting? && FirstMarker(s.down[rank]) < |s.down[rank]|
    case PostUp(rank, _) => 0 < rank < Size(s)
    case PostDown(rank, _) => 0 < rank < Size(s)
    case FetchUp(rank, i) => 0 < rank < Size(s) && i < |s.up[rank]| && s.up[rank][i].Payload?
    case FetchDown(rank, i) => 0 < rank < Size(s) && i < |s.down[rank]| && s.down[rank][i].Payload?
  }

  /** One step of one rank. A frame of another generation is a protocol error. */
  function Next(s: State, e: Event): (s': State)
    requires Possible(s, e)
    ensures Shaped(s') && Size(s') == Size(s)
  {
    match e
    case Enter(rank) =>
      var g := s.phases[rank].completed;
      if rank == 0 then s.(phases := s.phases[0 := Collecting(g, 1)])
      else s.(phases := s.phases[rank := Waiting(g)], up := s.up[rank := s.up[rank] + [Marker(g)]])
    case Collect =>
      var g, source := s.phases[0].generation, s.phases[0].source;
      if source >= Size(s) then s.(phases := s.phases[0 := Releasing(g, 1)])
      else
        var i := FirstMarker(s.up[source]);
        if s.up[source][i].generation != g then s.(phases := s.phases[0 := ProtocolError])
        else s.(phases := s.phases[0 := Collecting(g, source + 1)], up := s.up[source := Without(s.up[source], i)])
    case Release =>
      var g, destination := s.phases[0].generation, s.phases[0].destination;
      if destination >= Size(s) then s.(phases := s.phases[0 := Outside(g + 1)])
      else s.(phases := s.phases[0 := Releasing(g, destination + 1)],
              down := s.down[destination := s.down[destination] + [Marker(g)]])
    case Resume(rank) =>
      var g, i := s.phases[rank].generation, FirstMarker(s.down[rank]);
      if s.down[rank][i].generation != g then s.(phases := s.phases[rank := ProtocolError])
      else s.(phases := s.phases[rank := Outside(g + 1)], down := s.down[rank := Without(s.down[rank], i)])
    case PostUp(rank, tag) => s.(up := s.up[rank := s.up[rank] + [Payload(tag)]])
    case PostDown(rank, tag) => s.(down := s.down[rank := s.down[rank] + [Payload(tag)]])
    case FetchUp(rank, i) => s.(up := s.up[rank := Without(s.up[rank], i)])
    case FetchDown(rank, i) => s.(down := s.down[rank := Without(s.down[rank], i)])
  }

  predicate Legal(s: State, events: seq<Event>)
    decreases |events|
  {
    events == [] || (Possible(s, events[0]) && Legal(Next(s, events[0]), events[1..]))
  }

  function Run(s: State, events: seq<Event>): (end: State)
    requires Legal(s, events)
    ensures Size(end) == Size(s)
    decreases |events|
  {
    if events == [] then s else Run(Next(s, events[0]), events[1..])
  }

  // ---- the invariant, rank by rank ----

  /** Generation rank 0 works on, and whether it has collected rank `r`'s arrival or sent its release. */
  function Open(p: Phase): nat {
    match p
    case Outside(completed) => completed
    case Waiting(g) => g
    case Collecting(g, _) => g
    case Releasing(g, _) => g
    case ProtocolError => 0
  }

  predicate Collected(root: Phase, r: nat) {
    (root.Collecting? && r < root.source) || root.Releasing?
  }

  predicate Released(root: Phase, r: nat) {
    root.Releasing? && r < root.destination
  }

  /** How rank `r` and the barrier frames between it and rank 0 stand when rank 0 is in phase `root`. */
  ghost predicate InStep(root: Phase, r: nat, p: Phase, arrivals: seq<nat>, releases: seq<nat>) {
    var g := Open(root);
    if Released(root, r) then
      || (p == Waiting(g) && arrivals == [] && releases == [g])
      || (p == Outside(g + 1) && arrivals == [] && releases == [])
      || (p == Waiting(g + 1) && arrivals == [g + 1] && releases == [])
    else if Collected(root, r) then
      p == Waiting(g) && arrivals == [] && releases == []
    else
      || (g > 0 && p == Waiting(g - 1) && arrivals == [] && releases == [g - 1])
      || (p == Outside(g) && arrivals == [] && releases == [])
      || (p == Waiting(g) && arrivals == [g] && releases == [])
  }

  ghost predicate RankInStep(s: State, r: nat)
    requires Shaped(s) && r < Size(s)
  {
    InStep(s.phases[0], r, s.phases[r], Markers(s.up[r]), Markers(s.down[r]))
  }

  ghost predicate Invariant(s: State) {
    && Shaped(s)
    && (s.phases[0].Outside? || (s.phases[0].Collecting? && 1 <= s.phases[0].source <= Size(s))
        || (s.phases[0].Releasing? && 1 <= s.phases[0].destination <= Size(s)))
    && forall r :: 0 < r < Size(s) ==> RankInStep(s, r)
  }

  /** What a step does to the barrier frames of one rank. */
  lemma MarkersAfter(s: State, e: Event, r: nat)
    requires Possible(s, e) && 0 < r < Size(s)
    ensures var up, down, up', down' := Markers(s.up[r]), Markers(s.down[r]), Markers(Next(s, e).up[r]), Markers(Next(s, e).down[r]);
            && up' == (if e == Enter(r) then up + [s.phases[r].completed]
                       else if e == Collect && s.phases[0].source == r && up != [] && up[0] == s.phases[0].generation then up[1..] else up)
            && down' == (if e == Release && s.phases[0].destination == r then down + [s.phases[0].generation]
                         else if e == Resume(r) && down != [] && down[0] == s.phases[r].generation then down[1..] else down)
  {
    hide Markers, Payloads, FirstMarker, Without;
    TakesMarker(s.up[r]);
    TakesMarker(s.down[r]);
    match e
    case Enter(rank) => MarkerArrives(s.up[r], if s.phases[r].Outside? then s.phases[r].completed else 0);
    case Release => MarkerArrives(s.down[r], s.phases[0].generation);
    case PostUp(_, tag) => PayloadsPass(s.up[r], |s.up[r]|, tag);
    case PostDown(_, tag) => PayloadsPass(s.down[r], |s.down[r]|, tag);
    case FetchUp(_, i) => PayloadsPass(s.up[r], i, 0);
    case FetchDown(_, i) => PayloadsPass(s.down[r], i, 0);
    case _ =>
  }

  lemma StepKeeps(s: State, e: Event)
    requires Invariant(s) && Possible(s, e)
    ensures Invariant(Next(s, e))
  {
    hide Markers, FirstMarker, Without;
    if e.Collect? && s.phases[0].source < Size(s) {
      assert RankInStep(s, s.phases[0].source);
      TakesMarker(s.up[s.phases[0].source]);
    }
    if e.Resume? {
      assert RankInStep(s, e.rank);
      TakesMarker(s.down[e.rank]);
    }
    forall r | 0 < r < Size(s) ensures RankInStep(Next(s, e), r) {
      assert RankInStep(s, r);
      MarkersAfter(s, e, r);
    }
  }

  lemma {:induction false} RunKeeps(s: State, events: seq<Event>)
    requires Invariant(s) && Legal(s, events)
    ensures Invariant(Run(s, events)) && Size(Run(s, events)) == Size(s)
    decreases |events|
  {
    hide Invariant, Next;
    if events != [] {
      StepKeeps(s, events[0]);
      RunKeeps(Next(s, events[0]), events[1..]);
    }
  }

  /** The barrier keeps every tensor frame, in its order: only sending and receiving tensors changes them. */
  lemma TensorsStay(s: State, e: Event, r: nat)
    requires Possible(s, e) && BarrierStep(e) && 0 < r < Size(s)
    ensures Payloads(Next(s, e).up[r]) == Payloads(s.up[r]) && Payloads(Next(s, e).down[r]) == Payloads(s.down[r])
  {
    hide Markers, Payloads, FirstMarker, Without;
    TakesMarker(s.up[r]);
    TakesMarker(s.down[r]);
    match e
    case Enter(rank) => MarkerArrives(s.up[r], if s.phases[r].Outside? then s.phases[r].completed else 0);
    case Release => MarkerArrives(s.down[r], s.phases[0].generation);
    case _ =>
  }

  // ---- safety and progress ----

  predicate BarrierStep(e: Event) {
    e.Enter? || InsideStep(e)
  }

  /** A step of a rank that is inside the barrier. */
  predicate InsideStep(e: Event) {
    e.Collect? || e.Release? || e.Resume?
  }

  /** Generations the rank has entered and completed so far. */
  function Entered(p: Phase): nat {
    if p.Outside? then p.completed else Open(p) + 1
  }

  function Completed(p: Phase): nat {
    if p.Outside? then p.completed else Open(p)
  }

  /** The invariant at the end of a run from the start. */
  lemma RunIsInStep(size: nat, events: seq<Event>)
    requires size > 0 && Legal(Start(size), events)
    ensures Invariant(Run(Start(size), events)) && Size(Run(Start(size), events)) == size
  {
    assert forall r :: 0 < r < size ==> RankInStep(Start(size), r);
    RunKeeps(Start(size), events);
  }

  /** After any run: no rank has completed a generation that some rank has not entered, the generation
  counters of any two ranks differ by at most one, and no rank meets a frame of another generation. */
  lemma BarrierSafety(size: nat, events: seq<Event>, r: nat, q: nat)
    requires size > 0 && Legal(Start(size), events) && r < size && q < size
    ensures var s := Run(Start(size), events);
            && Size(s) == size && !s.phases[r].ProtocolError?
            && Completed(s.phases[r]) <= Entered(s.phases[q])
            && Completed(s.phases[r]) <= Completed(s.phases[q]) + 1
  {
    hide Markers;
    RunIsInStep(size, events);
    var s := Run(Start(size), events);
    assert r > 0 ==> RankInStep(s, r);
    assert q > 0 ==> RankInStep(s, q);
  }

  /** Whenever a rank is inside the barrier, some rank inside it can go on, unless there is a rank that has not
  entered that generation yet: nobody waits for anything else. */
  lemma BarrierProgress(size: nat, events: seq<Event>, r: nat) returns (e: Event, late: nat)
    requires size > 0 && Legal(Start(size), events) && r < size && !Run(Start(size), events).phases[r].Outside?
    ensures var s := Run(Start(size), events);
            || (InsideStep(e) && Possible(s, e))
            || (late < size && s.phases[late].Outside? && Entered(s.phases[late]) <= Open(s.phases[r]))
  {
    hide Markers;
    RunIsInStep(size, events);
    var s := Run(Start(size), events);
    var root := s.phases[0];
    e, late := Release, 0;
    if r > 0 {
      assert RankInStep(s, r);
      TakesMarker(s.down[r]);
      e := if Markers(s.down[r]) != [] then Resume(r) else Release;
    }
    if root.Collecting? && e == Release {
      e := Collect;
      if root.source < size {
        var source := root.source;
        assert RankInStep(s, source);
        TakesMarker(s.up[source]);
        TakesMarker(s.down[source]);
        late := source;
        e := if Markers(s.up[source]) != [] then Collect else Resume(source);
      }
    }
  }
}
