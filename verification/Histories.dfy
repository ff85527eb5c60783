/** What one rank takes and sends in a run of the whole world, and what its program does when it is fed exactly
those frames one after the other.

`HistoryReplays`: a rank that runs on its own, with the frames it took in a schedule as its input, gets to the
same place and has sent the same frames in the same order, whichever half of its exchanges went first there. */
module Histories {
  import opened Options
  import opened Network

  /** The frames a rank has taken, oldest first, and what it has sent to whom. */
  datatype History<T, C> = History(taken: seq<Frame<T, C>>, sent: seq<(nat, Frame<T, C>)>)

  /** Where a program stands, and what it has sent on the way. */
  datatype Played<!T, !C, R> = Played(proc: Proc<T, C, R>, sent: seq<(nat, Frame<T, C>)>)

  // ---- one rank on its own ----

  /** The program runs for as long as the next incoming frame is one that its receive accepts. The send of an
  exchange goes first. */
  function Play<T, C, R>(p: Proc<T, C, R>, incoming: seq<Frame<T, C>>): Played<T, C, R>
    decreases |incoming|, p
  {
    match p
    case Done(_) => Played(p, [])
    case Failed => Played(p, [])
    case Send(destination, frame, next) => SentFirst([(destination, frame)], Play(next, incoming))
    case Recv(_, want, _) =>
      if Waits(want, incoming) then Played(p, []) else Play(AfterTake(p, incoming[0]), incoming[1..])
    case Exchange(destination, frame, _, tag, resume) =>
      if Waits(WantTensor(tag), incoming) then Played(AfterSend(p), [(destination, frame)])
      else SentFirst([(destination, frame)], Play(resume(incoming[0]), incoming[1..]))
  }

  /** There is no frame for a receive to take. */
  predicate Waits<T, C>(want: Want, incoming: seq<Frame<T, C>>) {
    incoming == [] || SetsAside(want, incoming[0])
  }

  function SentFirst<T, C, R>(sent: seq<(nat, Frame<T, C>)>, played: Played<T, C, R>): Played<T, C, R> {
    Played(played.proc, sent + played.sent)
  }

  // ---- one rank in the world ----

  function Offered<T, C, R>(p: Proc<T, C, R>): seq<(nat, Frame<T, C>)>
    requires p.Send? || p.Exchange?
  {
    [(p.destination, p.frame)]
  }

  /** What one step of the world is for rank `r`. */
  ghost function StepHistory<T, C, R>(cap: Capacity, c: Net<T, C, R>, a: Act, r: nat): History<T, C>
    requires Enabled(cap, c, a) && r < |c.procs|
  {
    if a.sending then History([], if a.rank == r then Offered(c.procs[r]) else [])
    else
      var d := DrawOf(cap, c, a.rank);
      if a.rank == r then History(if d.taken.Some? then [d.taken.value] else [], [])
      else History([], if Direct(cap) && d.read && c.procs[a.rank].source == r then Offered(c.procs[r]) else [])
  }

  ghost function HistoryOf<T, C, R>(cap: Capacity, c: Net<T, C, R>, schedule: seq<Act>, r: nat): History<T, C>
    requires Legal(cap, c, schedule) && r < |c.procs|
    decreases |schedule|
  {
    if schedule == [] then History([], [])
    else
      var h, later := StepHistory(cap, c, schedule[0], r), HistoryOf(cap, Fire(cap, c, schedule[0]), schedule[1..], r);
      History(h.taken + later.taken, h.sent + later.sent)
  }

  /** A frame that a receive loop took is one it accepts. */
  lemma TakenIsAccepted<T, C>(want: Want, aside: seq<Frame<T, C>>, flying: seq<Frame<T, C>>)
    requires FirstLook(want, aside) < |aside| || flying != []
    ensures var d := Draw(want, aside, flying);
            (d.taken.Some? ==> !SetsAside(want, d.taken.value)) && (d.read ==> flying != [])
  {}

  lemma SendReplays<T, C, R>(p: Proc<T, C, R>, incoming: seq<Frame<T, C>>)
    requires p.Send? || p.Exchange?
    ensures Play(p, incoming) == SentFirst(Offered(p), Play(AfterSend(p), incoming))
  {
    if p.Exchange? && Waits(WantTensor(p.tag), incoming) {
      assert Play(AfterSend(p), incoming).sent == [];
    }
  }

  lemma TakeReplays<T, C, R>(p: Proc<T, C, R>, frame: Frame<T, C>, incoming: seq<Frame<T, C>>)
    requires (p.Recv? || p.Exchange?) && !SetsAside(WantOf(p), frame)
    ensures Play(p, [frame] + incoming) == Play(AfterTake(p, frame), incoming)
  {
    assert ([frame] + incoming)[1..] == incoming;
  }

  /** The rank whose receive takes the step. */
  lemma OwnReceiveReplays<T, C, R>(cap: Capacity, c: Net<T, C, R>, r: nat, incoming: seq<Frame<T, C>>)
    requires CanRecv(cap, c, r)
    ensures var h := StepHistory(cap, c, Act(r, false), r);
            |FireRecv(cap, c, r).procs| == |c.procs|
            && Play(c.procs[r], h.taken + incoming) == SentFirst(h.sent, Play(FireRecv(cap, c, r).procs[r], incoming))
  {
    hide Play, Draw;
    var p, d := c.procs[r], DrawOf(cap, c, r);
    NothingFirst(Play(FireRecv(cap, c, r).procs[r], incoming));
    assert [] + incoming == incoming;
    TakenIsAccepted(WantOf(p), Get(c.pending, Link(p.source, r)), Readable(cap, c, p.source, r));
    if d.taken.Some? {
      TakeReplays(p, d.taken.value, incoming);
    }
  }

  lemma NothingFirst<T, C, R>(played: Played<T, C, R>)
    ensures SentFirst([], played) == played
  {}

  /** Any other step: the rank sends, hands over a frame directly, or does nothing. */
  lemma OtherStepReplays<T, C, R>(cap: Capacity, c: Net<T, C, R>, a: Act, r: nat, incoming: seq<Frame<T, C>>)
    requires Enabled(cap, c, a) && r < |c.procs| && (a.sending || a.rank != r)
    ensures var h := StepHistory(cap, c, a, r);
            |Fire(cap, c, a).procs| == |c.procs| && h.taken == []
            && Play(c.procs[r], incoming) == SentFirst(h.sent, Play(Fire(cap, c, a).procs[r], incoming))
  {
    hide Play, Put, Get;
    NothingFirst(Play(c.procs[r], incoming));
    if StepHistory(cap, c, a, r).sent != [] {
      SendReplays(c.procs[r], incoming);
    }
  }

  lemma StepReplays<T, C, R>(cap: Capacity, c: Net<T, C, R>, a: Act, r: nat, incoming: seq<Frame<T, C>>)
    requires Enabled(cap, c, a) && r < |c.procs|
    ensures var h := StepHistory(cap, c, a, r);
            |Fire(cap, c, a).procs| == |c.procs|
            && Play(c.procs[r], h.taken + incoming) == SentFirst(h.sent, Play(Fire(cap, c, a).procs[r], incoming))
  {
    hide Play, FireRecv, FireSend, StepHistory;
    if !a.sending && a.rank == r {
      OwnReceiveReplays(cap, c, r, incoming);
      assert a == Act(r, false);
    } else {
      OtherStepReplays(cap, c, a, r, incoming);
      assert [] + incoming == incoming;
    }
  }

  lemma FireKeepsRanks<T, C, R>(cap: Capacity, c: Net<T, C, R>, a: Act)
    requires Enabled(cap, c, a)
    ensures |Fire(cap, c, a).procs| == |c.procs|
  {}

  lemma SentInTurn<T, C, R>(first: seq<(nat, Frame<T, C>)>, later: seq<(nat, Frame<T, C>)>, end: Played<T, C, R>)
    ensures SentFirst(first, SentFirst(later, end)) == SentFirst(first + later, end)
  {
    assert first + (later + end.sent) == (first + later) + end.sent;
  }

  /** A rank that is fed what it took in a schedule ends where it ended there, having sent what it sent there. */
  lemma {:induction false} HistoryReplays<T, C, R>(cap: Capacity, c: Net<T, C, R>, schedule: seq<Act>, r: nat)
    requires Legal(cap, c, schedule) && r < |c.procs|
    ensures |Run(cap, c, schedule).procs| == |c.procs|
    ensures var h := HistoryOf(cap, c, schedule, r);
            Play(c.procs[r], h.taken) == SentFirst(h.sent, Play(Run(cap, c, schedule).procs[r], []))
    decreases |schedule|
  {
    hide Play, StepHistory, Fire;
    if schedule == [] {
      assert SentFirst([], Play(c.procs[r], [])) == Play(c.procs[r], []);
    } else {
      var c' := Fire(cap, c, schedule[0]);
      FireKeepsRanks(cap, c, schedule[0]);
      var h, later := StepHistory(cap, c, schedule[0], r), HistoryOf(cap, c', schedule[1..], r);
      StepReplays(cap, c, schedule[0], r, later.taken);
      HistoryReplays(cap, c', schedule[1..], r);
      SentInTurn(h.sent, later.sent, Play(Run(cap, c', schedule[1..]).procs[r], []));
    }
  }

  /** The schedule has brought rank `r` to the end of its program. */
  ghost predicate HasFinished<T, C, R>(start: seq<Proc<T, C, R>>, cap: Capacity, schedule: seq<Act>, r: nat) {
    && r < |start| && Legal(cap, Quiet(start), schedule)
    && r < |Run(cap, Quiet(start), schedule).procs| && Finished(Run(cap, Quiet(start), schedule).procs[r])
  }

  lemma PlayedOut<T, C, R>(result: R)
    ensures Play<T, C, R>(Done(result), []) == Played(Done(result), [])
  {}
}
