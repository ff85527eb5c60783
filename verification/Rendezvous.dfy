/** Joining a TCP world: the registration server of rank 0, and the full mesh in which every rank dials
the higher ranks while a second thread accepts the lower ones.

Connections that arrive before the deadline are a parameter, in the order in which they are accepted. */
module Rendezvous {
  import opened Options
  import opened RankSets

  const PROTOCOL_VERSION: nat := 2

  datatype Registration = Registration(version: nat, runId: string, rank: nat, worldSize: nat, address: string)

  datatype PeerInfo = PeerInfo(rank: nat, address: string)

  datatype Handshake = Handshake(version: nat, runId: string, worldSize: nat, source: nat, destination: nat)

  datatype JoinError =
    | DeadlinePassed | WrongProtocol | WrongRun | WrongWorldSize | WrongDestination | RankOutside | RegisteredTwice
    | EmptyAddress | DuplicateAddress | NotLowerRanked | ConnectedTwice | PeerRefused | MeshIncomplete
    | MalformedTable

  /** What the server answers to one client. */
  datatype Response = Ready(peers: seq<PeerInfo>) | Refused(error: JoinError)

  // ---- registration ----

  /** The White_Space characters of Unicode, which `trim` removes. */
  predicate WhiteSpace(c: char) {
    var code := c as int;
    9 <= code <= 13 || code in {0x20, 0x85, 0xA0, 0x1680, 0x2028, 0x2029, 0x202F, 0x205F, 0x3000} || 0x2000 <= code <= 0x200A
  }

  /** Nothing is left after `trim`. */
  predicate Blank(address: string) {
    forall i :: 0 <= i < |address| ==> WhiteSpace(address[i])
  }

  /** The checks of one registration against those already accepted, in the order in which they are made. */
  function RegistrationError(g: Registration, runId: string, worldSize: nat, slots: seq<Option<Registration>>): (error: Option<JoinError>)
    requires |slots| == worldSize
    ensures error != Some(DeadlinePassed)
  {
    if g.version != PROTOCOL_VERSION then Some(WrongProtocol)
    else if g.runId != runId then Some(WrongRun)
    else if g.worldSize != worldSize then Some(WrongWorldSize)
    else if g.rank >= worldSize then Some(RankOutside)
    else if slots[g.rank].Some? then Some(RegisteredTwice)
    else if Blank(g.address) then Some(EmptyAddress)
    else if exists r :: 0 <= r < worldSize && slots[r].Some? && slots[r].value.address == g.address then Some(DuplicateAddress)
    else None
  }

  /** A registration that is acceptable on its own. */
  predicate Acceptable(g: Registration, runId: string, worldSize: nat) {
    g.version == PROTOCOL_VERSION && g.runId == runId && g.worldSize == worldSize && g.rank < worldSize && !Blank(g.address)
  }

  /** Registrations that fit together: acceptable, with different ranks and different addresses. */
  predicate Compatible(gs: seq<Registration>, runId: string, worldSize: nat) {
    && (forall i :: 0 <= i < |gs| ==> Acceptable(gs[i], runId, worldSize))
    && (forall i, j :: 0 <= i < j < |gs| ==> gs[i].rank != gs[j].rank && gs[i].address != gs[j].address)
  }

  function RanksOf(gs: seq<Registration>): set<nat> {
    set i | 0 <= i < |gs| :: gs[i].rank
  }

  lemma LastIsNew(gs: seq<Registration>, runId: string, worldSize: nat)
    requires Compatible(gs, runId, worldSize) && gs != []
    ensures Compatible(gs[..|gs| - 1], runId, worldSize)
    ensures gs[|gs| - 1].rank < worldSize && gs[|gs| - 1].rank !in RanksOf(gs[..|gs| - 1])
  {}

  lemma RanksOfMore(gs: seq<Registration>)
    requires gs != []
    ensures RanksOf(gs) == RanksOf(gs[..|gs| - 1]) + {gs[|gs| - 1].rank}
  {}

  lemma {:induction false} RanksCount(gs: seq<Registration>, runId: string, worldSize: nat)
    requires Compatible(gs, runId, worldSize)
    ensures |RanksOf(gs)| == |gs| && RanksOf(gs) <= Below(worldSize)
  {
    if gs != [] {
      hide Compatible, RanksOf;
      LastIsNew(gs, runId, worldSize);
      RanksCount(gs[..|gs| - 1], runId, worldSize);
      RanksOfMore(gs);
    }
  }

  /** The accepted registrations sit in the slots of their ranks, and no slot holds anything else. */
  ghost predicate Filed(slots: seq<Option<Registration>>, gs: seq<Registration>) {
    && (forall i :: 0 <= i < |gs| ==> gs[i].rank < |slots| && slots[gs[i].rank] == Some(gs[i]))
    && (forall r :: 0 <= r < |slots| && slots[r].Some? ==> slots[r].value in gs && slots[r].value.rank == r)
  }

  /** The server fills one slot per accepted registration, so it is done after exactly `worldSize` of them. */
  lemma FilledWhenAll(slots: seq<Option<Registration>>, gs: seq<Registration>, runId: string)
    requires Compatible(gs, runId, |slots|) && Filed(slots, gs)
    ensures |gs| <= |slots|
    ensures (forall r :: 0 <= r < |slots| ==> slots[r].Some?) <==> |gs| == |slots|
  {
    RanksCount(gs, runId, |slots|);
    AllOfThem(RanksOf(gs), |slots|);
    if |gs| == |slots| {
      forall r | 0 <= r < |slots| ensures slots[r].Some? {
        assert r in RanksOf(gs);
      }
    } else {
      assert Below(|slots|) - RanksOf(gs) != {};
      var r :| r in Below(|slots|) - RanksOf(gs);
      assert slots[r].None?;
    }
  }

  /** What the server tells every client: the addresses in rank order. */
  ghost predicate PeerTable(peers: seq<PeerInfo>, gs: seq<Registration>, worldSize: nat) {
    && |peers| == worldSize
    && (forall r :: 0 <= r < worldSize ==> peers[r].rank == r)
    && (forall i :: 0 <= i < |gs| ==> gs[i].rank < worldSize && peers[gs[i].rank].address == gs[i].address)
    && (forall r, q :: 0 <= r < q < worldSize ==> peers[r].address != peers[q].address)
  }

  /** The client's check of the answer: a table of the right length with every rank in its place. */
  method ReadTable(response: Response, worldSize: nat) returns (result: Result<seq<PeerInfo>, JoinError>)
    ensures result == Understood(response, worldSize)
    ensures result.Ok? <==> response.Ready? && |response.peers| == worldSize && forall r :: 0 <= r < worldSize ==> response.peers[r].rank == r
    ensures response.Ready? ==> result == Ok(response.peers) || result == Err(MalformedTable)
    ensures response.Refused? ==> result == Err(response.error)
  {
    match response {
      case Refused(error) => return Err(error);
      case Ready(peers) =>
        if |peers| != worldSize {
          return Err(MalformedTable);
        }
        for rank := 0 to |peers|
          invariant forall r :: 0 <= r < rank ==> peers[r].rank == r
        {
          if peers[rank].rank != rank {
            return Err(MalformedTable);
          }
        }
        return Ok(peers);
    }
  }

  function Understood(response: Response, worldSize: nat): Result<seq<PeerInfo>, JoinError> {
    match response
    case Refused(error) => Err(error)
    case Ready(peers) =>
      if |peers| == worldSize && forall r :: 0 <= r < worldSize ==> peers[r].rank == r then Ok(peers) else Err(MalformedTable)
  }

  /** The connections of the registered clients sit in the slots of their ranks. */
  ghost predicate Connected(clients: seq<Option<nat>>, gs: seq<Registration>) {
    && (forall i :: 0 <= i < |gs| ==> gs[i].rank < |clients| && clients[gs[i].rank] == Some(i))
    && (forall r :: 0 <= r < |clients| && clients[r].Some? ==> clients[r].value < |gs|)
  }

  /** The loop that answers all registered clients, rank by rank; connection `i` is that of `gs[i]`. */
  method AnswerAll(clients: seq<Option<nat>>, ghost gs: seq<Registration>, response: Response, before: seq<Option<Response>>) returns (answers: seq<Option<Response>>)
    requires Connected(clients, gs) && |gs| <= |before|
    ensures |answers| == |before|
    ensures forall i :: 0 <= i < |before| ==> answers[i] == if i < |gs| then Some(response) else before[i]
  {
    answers := before;
    for r := 0 to |clients|
      invariant |answers| == |before|
      invariant forall i :: 0 <= i < |gs| && gs[i].rank < r ==> answers[i] == Some(response)
      invariant forall i :: |gs| <= i < |before| ==> answers[i] == before[i]
    {
      if clients[r].Some? {
        answers := answers[clients[r].value := Some(response)];
      }
    }
  }

  /** What the clients hear: the table on success, the error on a refused registration, and nothing when too
  few of them came in time. The first `taken` connections have been read. */
  ghost predicate Answered(answers: seq<Option<Response>>, result: Result<seq<PeerInfo>, JoinError>, taken: nat) {
    && (result != Err(DeadlinePassed) ==>
          forall i :: 0 <= i < |answers| ==>
            answers[i] == if i >= taken then None else Some(if result.Ok? then Ready(result.value) else Refused(result.error)))
    && (result == Err(DeadlinePassed) ==> forall i :: 0 <= i < |answers| ==> answers[i] == None)
  }

  /** The server has filed the registrations `gs` and keeps their connections. */
  ghost predicate Registering(slots: seq<Option<Registration>>, clients: seq<Option<nat>>, gs: seq<Registration>, runId: string, worldSize: nat) {
    && |slots| == |clients| == worldSize && |gs| <= worldSize
    && Compatible(gs, runId, worldSize) && Filed(slots, gs) && Connected(clients, gs)
    && ((forall r :: 0 <= r < worldSize ==> slots[r].Some?) <==> |gs| == worldSize)
  }

  lemma Files(slots: seq<Option<Registration>>, gs: seq<Registration>, g: Registration, runId: string)
    requires Compatible(gs, runId, |slots|) && Filed(slots, gs) && RegistrationError(g, runId, |slots|, slots).None?
    ensures Compatible(gs + [g], runId, |slots|) && Filed(slots[g.rank := Some(g)], gs + [g])
  {
    forall i | 0 <= i < |gs| ensures gs[i].rank != g.rank && gs[i].address != g.address {
      assert slots[gs[i].rank] == Some(gs[i]);
    }
  }

  lemma RegistersOneMore(slots: seq<Option<Registration>>, clients: seq<Option<nat>>, gs: seq<Registration>, g: Registration, runId: string, worldSize: nat)
    requires Registering(slots, clients, gs, runId, worldSize) && RegistrationError(g, runId, worldSize, slots).None?
    ensures Registering(slots[g.rank := Some(g)], clients[g.rank := Some(|gs|)], gs + [g], runId, worldSize)
  {
    Files(slots, gs, g, runId);
    FilledWhenAll(slots[g.rank := Some(g)], gs + [g], runId);
    hide Compatible, Blank;
    forall i | 0 <= i < |gs| ensures gs[i].rank != g.rank {
      assert slots[gs[i].rank] == Some(gs[i]);
    }
  }

  lemma Incompatible(slots: seq<Option<Registration>>, gs: seq<Registration>, g: Registration, runId: string, worldSize: nat)
    requires |slots| == worldSize && Filed(slots, gs) && RegistrationError(g, runId, worldSize, slots).Some?
    ensures !Compatible(gs + [g], runId, worldSize)
  {
    var all := gs + [g];
    assert all[|gs|] == g;
    if Acceptable(g, runId, worldSize) {
      var r := if slots[g.rank].Some? then g.rank else
        (var r :| 0 <= r < worldSize && slots[r].Some? && slots[r].value.address == g.address; r);
      var i :| 0 <= i < |gs| && gs[i] == slots[r].value;
      assert all[i] == gs[i];
    }
  }

  lemma CompatiblePrefix(gs: seq<Registration>, n: nat, runId: string, worldSize: nat)
    requires n <= |gs| && Compatible(gs, runId, worldSize)
    ensures Compatible(gs[..n], runId, worldSize)
  {}

  /** One registration that does not fit spoils every longer list. */
  lemma StaysIncompatible(gs: seq<Registration>, n: nat, runId: string, worldSize: nat)
    requires n <= |gs| && !Compatible(gs[..n], runId, worldSize)
    ensures forall m :: n <= m <= |gs| ==> !Compatible(gs[..m], runId, worldSize)
  {
    forall m | n <= m <= |gs| ensures !Compatible(gs[..m], runId, worldSize) {
      assert gs[..m][..n] == gs[..n];
      if Compatible(gs[..m], runId, worldSize) {
        CompatiblePrefix(gs[..m], n, runId, worldSize);
      }
    }
  }

  lemma TableIsRight(slots: seq<Option<Registration>>, gs: seq<Registration>, peers: seq<PeerInfo>, runId: string)
    requires Compatible(gs, runId, |slots|) && Filed(slots, gs) && |peers| == |slots|
    requires forall r :: 0 <= r < |slots| ==> slots[r].Some? && peers[r] == PeerInfo(r, slots[r].value.address)
    ensures PeerTable(peers, gs, |slots|)
  {
    forall r, q | 0 <= r < q < |slots| ensures peers[r].address != peers[q].address {
      var i :| 0 <= i < |gs| && gs[i] == slots[r].value;
      var j :| 0 <= j < |gs| && gs[j] == slots[q].value;
      assert i != j;
    }
  }

  /** What the server's run means in terms of the registrations that came in time. */
  ghost predicate ServedRightly(incoming: seq<Registration>, runId: string, worldSize: nat, result: Result<seq<PeerInfo>, JoinError>, taken: nat) {
    && (result.Ok? <==> |incoming| >= worldSize && Compatible(incoming[..worldSize], runId, worldSize))
    && (result.Ok? ==> PeerTable(result.value, incoming[..worldSize], worldSize) && taken == worldSize)
    && (result == Err(DeadlinePassed) <==> |incoming| < worldSize && Compatible(incoming, runId, worldSize))
    && (result.Err? && result.error != DeadlinePassed ==>
          && 0 < taken <= |incoming| && taken <= worldSize
          && Compatible(incoming[..taken - 1], runId, worldSize) && !Compatible(incoming[..taken], runId, worldSize))
  }

  lemma NobodyYet(runId: string, worldSize: nat)
    ensures Registering(seq(worldSize, _ => None), seq(worldSize, _ => None), [], runId, worldSize)
  {
    FilledWhenAll(seq(worldSize, _ => None), [], runId);
  }

  lemma TooFew(incoming: seq<Registration>, runId: string, worldSize: nat)
    requires |incoming| < worldSize && Compatible(incoming, runId, worldSize)
    ensures ServedRightly(incoming, runId, worldSize, Err(DeadlinePassed), |incoming|)
  {}

  lemma ServedAll(incoming: seq<Registration>, runId: string, worldSize: nat, peers: seq<PeerInfo>)
    requires |incoming| >= worldSize && Compatible(incoming[..worldSize], runId, worldSize) && PeerTable(peers, incoming[..worldSize], worldSize)
    ensures ServedRightly(incoming, runId, worldSize, Ok(peers), worldSize)
    ensures Understood(Ready(peers), worldSize) == Ok(peers)
  {}

  lemma RefusedRightly(incoming: seq<Registration>, n: nat, runId: string, worldSize: nat, error: JoinError)
    requires 0 < n <= |incoming| && n <= worldSize && error != DeadlinePassed
    requires Compatible(incoming[..n - 1], runId, worldSize) && !Compatible(incoming[..n], runId, worldSize)
    ensures ServedRightly(incoming, runId, worldSize, Err(error), n)
  {
    StaysIncompatible(incoming, n, runId, worldSize);
    hide Compatible;
    assert incoming[..|incoming|] == incoming;
  }

  /** The accept loop of the server: it stops when all slots are filled, at a refused registration, or at the
  deadline, after `taken` connections. */
  method AcceptRegistrations(incoming: seq<Registration>, runId: string, worldSize: nat)
    returns (slots: seq<Option<Registration>>, clients: seq<Option<nat>>, taken: nat, error: Option<JoinError>)
    ensures taken <= |incoming| && Registering(slots, clients, incoming[..taken], runId, worldSize)
    ensures error.None? ==> taken == worldSize
    ensures error == Some(DeadlinePassed) ==> taken == |incoming| < worldSize
    ensures error.Some? && error.value != DeadlinePassed ==>
              taken < |incoming| && taken < worldSize && RegistrationError(incoming[taken], runId, worldSize, slots) == error
  {
    slots, clients, taken := seq(worldSize, _ => None), seq(worldSize, _ => None), 0;
    NobodyYet(runId, worldSize);
    assert incoming[..0] == [];
    hide Compatible, Filed, Connected, RegistrationError;
    while exists r :: 0 <= r < worldSize && slots[r].None?
      invariant taken <= |incoming| && Registering(slots, clients, incoming[..taken], runId, worldSize)
      decreases worldSize - taken
    {
      if taken == |incoming| {
        return slots, clients, taken, Some(DeadlinePassed);
      }
      var g := incoming[taken];
      error := RegistrationError(g, runId, worldSize, slots);
      if error.Some? {
        return;
      }
      assert incoming[..taken + 1] == incoming[..taken] + [g];
      RegistersOneMore(slots, clients, incoming[..taken], g, runId, worldSize);
      slots, clients := slots[g.rank := Some(g)], clients[g.rank := Some(taken)];
      taken := taken + 1;
    }
    error := None;
  }

  /** `run_rendezvous_server`: it succeeds exactly when the first `worldSize` registrations are compatible.
  Then every client is sent the same rank-ordered table of different addresses; if a registration is refused,
  that client and all registered before it are sent the same error. Whoever is answered concludes what the
  server concludes: no client can find the table malformed. */
  method RunServer(incoming: seq<Registration>, runId: string, worldSize: nat)
    returns (result: Result<seq<PeerInfo>, JoinError>, answers: seq<Option<Response>>, ghost read: nat)
    ensures ServedRightly(incoming, runId, worldSize, result, read)
    ensures |answers| == |incoming| && Answered(answers, result, read)
    ensures forall i :: 0 <= i < |answers| && answers[i].Some? ==> Understood(answers[i].value, worldSize) == result
  {
    hide Compatible, Filed, Blank, Acceptable, ServedRightly, RegistrationError;
    answers := seq(|incoming|, _ => None);
    var slots, clients, taken, error := AcceptRegistrations(incoming, runId, worldSize);
    if error == Some(DeadlinePassed) {
      assert incoming[..taken] == incoming;
      TooFew(incoming, runId, worldSize);
      return Err(DeadlinePassed), answers, taken;
    }
    if error.Some? {
      Incompatible(slots, incoming[..taken], incoming[taken], runId, worldSize);
      assert incoming[..taken + 1] == incoming[..taken] + [incoming[taken]];
      RefusedRightly(incoming, taken + 1, runId, worldSize, error.value);
      answers := answers[taken := Some(Refused(error.value))];
      answers := AnswerAll(clients, incoming[..taken], Refused(error.value), answers);
      return Err(error.value), answers, taken + 1;
    }
    var peers := seq(worldSize, r requires 0 <= r < worldSize && slots[r].Some? => PeerInfo(r, slots[r].value.address));
    TableIsRight(slots, incoming[..taken], peers, runId);
    ServedAll(incoming, runId, worldSize, peers);
    hide PeerTable, Understood;
    answers := AnswerAll(clients, incoming[..taken], Ready(peers), answers);
    return Ok(peers), answers, taken;
  }

  // ---- the mesh, one rank ----

  function HandshakeError(h: Handshake, runId: string, worldSize: nat, rank: nat): Option<JoinError> {
    if h.version != PROTOCOL_VERSION then Some(WrongProtocol)
    else if h.runId != runId then Some(WrongRun)
    else if h.worldSize != worldSize then Some(WrongWorldSize)
    else if h.destination != rank then Some(WrongDestination)
    else if h.source >= worldSize || h.source == rank then Some(RankOutside)
    else None
  }

  /** A handshake of this run, from another rank of the world, for this rank. */
  predicate Welcome(h: Handshake, runId: string, worldSize: nat, rank: nat) {
    h.version == 2 && h.runId == runId && h.worldSize == worldSize && h.destination == rank && h.source < worldSize && h.source != rank
  }

  lemma HandshakeIsChecked(h: Handshake, runId: string, worldSize: nat, rank: nat)
    ensures HandshakeError(h, runId, worldSize, rank).None? <==> Welcome(h, runId, worldSize, rank)
  {}

  /** What a rank sends to a peer that it dials. */
  function Dial(runId: string, worldSize: nat, rank: nat, peer: nat): Handshake {
    Handshake(PROTOCOL_VERSION, runId, worldSize, rank, peer)
  }

  /** Between ranks that agree on the run and the world, no dial to a higher rank is refused, and a rank that
  disagrees on either, or reaches another rank than it meant, always is. */
  lemma DialIsAnswered(runId: string, worldSize: nat, rank: nat, peer: nat, peerRun: string, peerWorld: nat, peerRank: nat)
    requires rank < peer < worldSize
    ensures HandshakeError(Dial(runId, worldSize, rank, peer), peerRun, peerWorld, peerRank).None? <==>
              peerRun == runId && peerWorld == worldSize && peerRank == peer
  {}

  ghost predicate Distinct(xs: seq<nat>) {
    forall i, j :: 0 <= i < j < |xs| ==> xs[i] != xs[j]
  }

  function Elements(xs: seq<nat>): set<nat> {
    set i | 0 <= i < |xs| :: xs[i]
  }

  lemma {:induction false} DistinctCount(xs: seq<nat>)
    requires Distinct(xs)
    ensures |Elements(xs)| == |xs|
  {
    if xs != [] {
      var n := |xs| - 1;
      DistinctCount(xs[..n]);
      assert Elements(xs) == Elements(xs[..n]) + {xs[n]};
    }
  }

  /** What the accepting thread takes: correct handshakes from different lower ranks. */
  ghost predicate LowerDialers(hs: seq<Handshake>, runId: string, worldSize: nat, rank: nat) {
    && (forall i :: 0 <= i < |hs| ==> Welcome(hs[i], runId, worldSize, rank) && hs[i].source < rank)
    && (forall i, j :: 0 <= i < j < |hs| ==> hs[i].source != hs[j].source)
  }

  /** The accepting thread: stops after `rank` connections, all from different lower ranks, which are then
  all lower ranks. */
  method AcceptLower(incoming: seq<Handshake>, runId: string, worldSize: nat, rank: nat) returns (result: Result<seq<nat>, JoinError>)
    requires rank < worldSize
    ensures result.Ok? <==> |incoming| >= rank && LowerDialers(incoming[..rank], runId, worldSize, rank)
    ensures result.Ok? ==> |result.value| == rank && Distinct(result.value) && Elements(result.value) == Below(rank)
    ensures result == Err(DeadlinePassed) <==> |incoming| < rank && LowerDialers(incoming, runId, worldSize, rank)
    ensures result != Err(MeshIncomplete)
  {
    var accepted: seq<nat> := [];
    while |accepted| < rank
      invariant |accepted| <= rank && |accepted| <= |incoming|
      invariant Distinct(accepted) && forall i :: 0 <= i < |accepted| ==> accepted[i] < rank
      invariant LowerDialers(incoming[..|accepted|], runId, worldSize, rank)
      invariant forall i :: 0 <= i < |accepted| ==> accepted[i] == incoming[i].source
      decreases rank - |accepted|
    {
      if |accepted| == |incoming| {
        return Err(DeadlinePassed);
      }
      var h := incoming[|accepted|];
      HandshakeIsChecked(h, runId, worldSize, rank);
      var error := HandshakeError(h, runId, worldSize, rank);
      if error.Some? {
        return Err(error.value);
      }
      if h.source >= rank {
        return Err(NotLowerRanked);
      }
      if h.source in accepted {
        return Err(ConnectedTwice);
      }
      accepted := accepted + [h.source];
    }
    DistinctCount(accepted);
    AllOfThem(Elements(accepted), rank);
    return Ok(accepted);
  }

  // ---- sorting by peer ----

  predicate Increasing(xs: seq<nat>) {
    forall i, j :: 0 <= i < j < |xs| ==> xs[i] < xs[j]
  }

  function Insert(x: nat, xs: seq<nat>): (ys: seq<nat>)
    ensures |ys| == |xs| + 1
  {
    if xs == [] || x <= xs[0] then [x] + xs else [xs[0]] + Insert(x, xs[1..])
  }

  function Sort(xs: seq<nat>): (ys: seq<nat>)
    ensures |ys| == |xs|
  {
    if xs == [] then [] else Insert(xs[0], Sort(xs[1..]))
  }

  lemma ElementsSplit(a: seq<nat>, b: seq<nat>)
    ensures Elements(a + b) == Elements(a) + Elements(b)
  {
    var all := a + b;
    forall x | x in Elements(a) + Elements(b) ensures x in Elements(all) {
      if x in Elements(a) {
        var i :| 0 <= i < |a| && a[i] == x;
        assert all[i] == x;
      } else {
        var i :| 0 <= i < |b| && b[i] == x;
        assert all[|a| + i] == x;
      }
    }
  }

  lemma ElementsTail(xs: seq<nat>)
    requires xs != []
    ensures Elements(xs) == Elements(xs[1..]) + {xs[0]}
  {
    assert xs == [xs[0]] + xs[1..];
    ElementsSplit([xs[0]], xs[1..]);
  }

  lemma ElementIn(xs: seq<nat>, i: nat)
    requires i < |xs|
    ensures xs[i] in Elements(xs)
  {}

  lemma ElementAt(xs: seq<nat>, x: nat) returns (i: nat)
    requires x in Elements(xs)
    ensures i < |xs| && xs[i] == x
  {
    i :| i < |xs| && xs[i] == x;
  }

  lemma {:induction false} InsertKeeps(x: nat, xs: seq<nat>)
    requires Increasing(xs) && x !in Elements(xs)
    ensures Elements(Insert(x, xs)) == Elements(xs) + {x} && Increasing(Insert(x, xs))
  {
    hide Elements;
    var ys := Insert(x, xs);
    ElementsTail(ys);
    if xs == [] || x <= xs[0] {
      assert ys[1..] == xs;
      if xs != [] {
        ElementIn(xs, 0);
      }
    } else {
      ElementsTail(xs);
      InsertKeeps(x, xs[1..]);
      assert ys[1..] == Insert(x, xs[1..]);
      forall i | 0 < i < |ys| ensures xs[0] < ys[i] {
        ElementIn(ys[1..], i - 1);
        if ys[i] != x {
          var j := ElementAt(xs[1..], ys[i]);
        }
      }
    }
  }

  lemma {:induction false} SortKeeps(xs: seq<nat>)
    requires Distinct(xs)
    ensures Elements(Sort(xs)) == Elements(xs) && Increasing(Sort(xs))
  {
    if xs != [] {
      ElementsTail(xs);
      SortKeeps(xs[1..]);
      InsertKeeps(xs[0], Sort(xs[1..]));
    }
  }

  /** `establish_full_mesh`: `answers[p]` tells whether peer `p` answered the dial with `Ready`. On success
  there is exactly one stream to every other rank, in rank order, so the final count check never fails. */
  method EstablishMesh(incoming: seq<Handshake>, answers: nat -> bool, runId: string, worldSize: nat, rank: nat) returns (result: Result<seq<nat>, JoinError>)
    requires rank < worldSize
    ensures result != Err(MeshIncomplete)
    ensures result.Ok? <==> |incoming| >= rank && LowerDialers(incoming[..rank], runId, worldSize, rank) && forall p: nat :: rank < p < worldSize ==> answers(p)
    ensures result.Ok? ==> Increasing(result.value) && Elements(result.value) == Below(worldSize) - {rank} && |result.value| == worldSize - 1
  {
    var accepting := AcceptLower(incoming, runId, worldSize, rank);
    var streams: seq<nat> := [];
    for peer := rank + 1 to worldSize
      invariant forall p: nat :: rank < p < peer ==> answers(p)
      invariant |streams| == peer - rank - 1 && forall i :: 0 <= i < |streams| ==> streams[i] == rank + 1 + i
    {
      if !answers(peer) {
        return Err(PeerRefused);
      }
      streams := streams + [peer];
    }
    if accepting.Err? {
      return Err(accepting.error);
    }
    MeshIsComplete(streams, accepting.value, worldSize, rank);
    streams := Sort(streams + accepting.value);
    if |streams| != worldSize - 1 {
      return Err(MeshIncomplete);
    }
    return Ok(streams);
  }

  lemma DialedElements(dialed: seq<nat>, worldSize: nat, rank: nat)
    requires rank < worldSize && |dialed| == worldSize - rank - 1 && (forall i :: 0 <= i < |dialed| ==> dialed[i] == rank + 1 + i)
    ensures Elements(dialed) == Below(worldSize) - Below(rank + 1) && Distinct(dialed)
  {
    forall r: nat | rank < r < worldSize ensures r in Elements(dialed) {
      assert dialed[r - rank - 1] == r;
    }
  }

  lemma DistinctTogether(a: seq<nat>, b: seq<nat>)
    requires Distinct(a) && Distinct(b) && Elements(a) !! Elements(b)
    ensures Distinct(a + b)
  {
    forall i, j | 0 <= i < |a| && 0 <= j < |b| ensures a[i] != b[j] {
      assert a[i] in Elements(a) && b[j] in Elements(b);
    }
  }

  lemma MeshIsComplete(dialed: seq<nat>, accepted: seq<nat>, worldSize: nat, rank: nat)
    requires rank < worldSize && |dialed| == worldSize - rank - 1 && (forall i :: 0 <= i < |dialed| ==> dialed[i] == rank + 1 + i)
    requires |accepted| == rank && Distinct(accepted) && Elements(accepted) == Below(rank)
    ensures Elements(Sort(dialed + accepted)) == Below(worldSize) - {rank} && Increasing(Sort(dialed + accepted))
  {
    DialedElements(dialed, worldSize, rank);
    hide Elements, Distinct, Increasing, Sort;
    ElementsSplit(dialed, accepted);
    DistinctTogether(dialed, accepted);
    SortKeeps(dialed + accepted);
    assert (Below(worldSize) - Below(rank + 1)) + Below(rank) == Below(worldSize) - {rank};
  }

  // ---- the mesh, all ranks ----

  /** `next[r]` is the peer that rank `r` dials next; `accepted[p]` are the ranks that `p` has accepted. */
  datatype Mesh = Mesh(next: seq<nat>, accepted: seq<set<nat>>)

  function StartMesh(worldSize: nat): Mesh {
    Mesh(seq(worldSize, (r: nat) => r + 1), seq(worldSize, _ => {}))
  }

  /** Rank `r` has a peer to dial, and that peer's accepting thread still runs and takes the connection. */
  predicate CanConnect(m: Mesh, r: nat) {
    && r < |m.next| == |m.accepted| && m.next[r] < |m.next|
    && |m.accepted[m.next[r]]| < m.next[r] && r < m.next[r] && r !in m.accepted[m.next[r]]
  }

  function Connect(m: Mesh, r: nat): Mesh
    requires CanConnect(m, r)
  {
    Mesh(m.next[r := m.next[r] + 1], m.accepted[m.next[r] := m.accepted[m.next[r]] + {r}])
  }

  predicate Legal(m: Mesh, dials: seq<nat>)
    decreases |dials|
  {
    dials == [] || (CanConnect(m, dials[0]) && Legal(Connect(m, dials[0]), dials[1..]))
  }

  function Run(m: Mesh, dials: seq<nat>): Mesh
    requires Legal(m, dials)
    decreases |dials|
  {
    if dials == [] then m else Run(Connect(m, dials[0]), dials[1..])
  }

  predicate HasAccepted(m: Mesh, p: nat, r: nat) {
    p < |m.accepted| && r in m.accepted[p]
  }

  predicate HasDialed(m: Mesh, r: nat, p: nat) {
    r < p && r < |m.next| && p < m.next[r]
  }

  /** A rank has been accepted exactly by the peers it has dialed. */
  ghost predicate InOrder(m: Mesh) {
    && |m.next| == |m.accepted|
    && (forall r :: 0 <= r < |m.next| ==> r < m.next[r] <= |m.next|)
    && (forall p: nat, r: nat :: p < |m.next| ==> (HasAccepted(m, p, r) <==> HasDialed(m, r, p)))
  }

  lemma {:induction false} RunInOrder(m: Mesh, dials: seq<nat>)
    requires InOrder(m) && Legal(m, dials)
    ensures InOrder(Run(m, dials)) && |Run(m, dials).next| == |m.next|
    decreases |dials|
  {
    if dials != [] {
      ConnectInOrder(m, dials[0]);
      RunInOrder(Connect(m, dials[0]), dials[1..]);
    }
  }

  lemma ConnectInOrder(m: Mesh, r: nat)
    requires InOrder(m) && CanConnect(m, r)
    ensures InOrder(Connect(m, r))
  {
    var m' := Connect(m, r);
    forall p: nat, q: nat | p < |m'.next| ensures HasAccepted(m', p, q) <==> HasDialed(m', q, p) {
      assert HasAccepted(m, p, q) <==> HasDialed(m, q, p);
    }
  }

  lemma AcceptedAreLower(m: Mesh, p: nat)
    requires InOrder(m) && p < |m.next|
    ensures m.accepted[p] <= Below(p)
    ensures (forall q :: 0 <= q < |m.next| ==> m.next[q] == |m.next|) ==> m.accepted[p] == Below(p)
  {
    forall q: nat | q in m.accepted[p] ensures q in Below(p) {
      assert HasAccepted(m, p, q);
    }
    if forall q :: 0 <= q < |m.next| ==> m.next[q] == |m.next| {
      forall q: nat | q in Below(p) ensures q in m.accepted[p] {
        assert HasDialed(m, q, p);
        assert HasAccepted(m, p, q);
      }
    }
  }

  /** Whatever order the connections were made in, every rank that still has a peer to dial can do so, so
  the mesh cannot deadlock; and once all dials are done every rank has accepted all lower ranks, which
  means one stream between any two ranks. */
  lemma MeshNeverSticks(worldSize: nat, dials: seq<nat>, r: nat)
    requires Legal(StartMesh(worldSize), dials) && r < worldSize
    ensures var m := Run(StartMesh(worldSize), dials);
            && |m.next| == |m.accepted| == worldSize
            && (m.next[r] < worldSize ==> CanConnect(m, r))
            && ((forall q :: 0 <= q < worldSize ==> m.next[q] == worldSize) ==> m.accepted[r] == Below(r))
  {
    RunInOrder(StartMesh(worldSize), dials);
    var m := Run(StartMesh(worldSize), dials);
    AcceptedAreLower(m, r);
    if m.next[r] < worldSize {
      var p := m.next[r];
      AcceptedAreLower(m, p);
      AllOfThem(m.accepted[p], p);
      assert !HasDialed(m, r, p) && !HasAccepted(m, p, r) && r in Below(p);
    }
  }
}
