/** The condition-variable barrier of the in-memory transport.

`wait` runs as critical sections: `Enter` goes from taking the lock to the first sleep, `Wake` is one
wake-up, with `expired` telling whether the deadline has passed by then. A run is any interleaving of
critical sections of any ranks, so the lemmas about runs cover every schedule, wake-up order and
time-out. `Barrier` is the shared state with its two methods; they are proved to be these steps. */
module InMemoryBarrier {
  import opened RankSets

  datatype BarrierError = Broken(generation: nat) | TimedOut(generation: nat)

  /** What one critical section of `wait` ends with. */
  datatype Outcome = Passed | Sleeping | Errored(error: BarrierError)

  /** Rank `rank` took part in generation `generation`. */
  datatype Ticket = Ticket(rank: nat, generation: nat)

  /** The shared state, with the history of who entered which generation and what came of it. */
  datatype State = State(size: nat, generation: nat, arrived: nat, broken: bool,
                         entered: set<Ticket>, sleeping: set<Ticket>, passed: set<Ticket>, failed: set<Ticket>, timedOut: set<Ticket>)

  datatype Event = Entering(rank: nat) | Waking(rank: nat, mine: nat, expired: bool)

  // ---- the critical sections ----

  function Enter(s: State, rank: nat): (State, Outcome) {
    if s.broken then (s, Errored(Broken(s.generation)))
    else
      var ticket := Ticket(rank, s.generation);
      var s' := s.(entered := s.entered + {ticket});
      if s.arrived + 1 == s.size then (s'.(arrived := 0, generation := s.generation + 1, passed := s.passed + {ticket}), Passed)
      else (s'.(arrived := s.arrived + 1, sleeping := s.sleeping + {ticket}), Sleeping)
  }

  /** A new generation wins over everything, and a broken barrier over an expired deadline. */
  function Wake(s: State, rank: nat, mine: nat, expired: bool): (State, Outcome) {
    var ticket := Ticket(rank, mine);
    var s' := s.(sleeping := s.sleeping - {ticket});
    if s.generation != mine then (s'.(passed := s.passed + {ticket}), Passed)
    else if s.broken then (s'.(failed := s.failed + {ticket}), Errored(Broken(mine)))
    else if expired then (s'.(failed := s.failed + {ticket}, timedOut := s.timedOut + {ticket}, broken := true), Errored(TimedOut(mine)))
    else (s, Sleeping)
  }

  /** A rank is in at most one call of `wait`, and only a sleeping rank wakes up. */
  predicate Possible(s: State, e: Event) {
    match e
    case Entering(rank) => rank < s.size && forall t :: t in s.sleeping ==> t.rank != rank
    case Waking(rank, mine, _) => Ticket(rank, mine) in s.sleeping
  }

  function Next(s: State, e: Event): State {
    match e
    case Entering(rank) => Enter(s, rank).0
    case Waking(rank, mine, expired) => Wake(s, rank, mine, expired).0
  }

  /** What the call hears at the end of its critical section, and the ticket it holds. */
  function Answer(s: State, e: Event): Outcome {
    match e
    case Entering(rank) => Enter(s, rank).1
    case Waking(rank, mine, expired) => Wake(s, rank, mine, expired).1
  }

  function TicketOf(s: State, e: Event): Ticket {
    match e
    case Entering(rank) => Ticket(rank, s.generation)
    case Waking(rank, mine, _) => Ticket(rank, mine)
  }

  function Start(size: nat): State {
    State(size, 0, 0, false, {}, {}, {}, {}, {})
  }

  predicate Legal(s: State, events: seq<Event>)
    decreases |events|
  {
    events == [] || (Possible(s, events[0]) && Legal(Next(s, events[0]), events[1..]))
  }

  function Run(s: State, events: seq<Event>): State
    requires Legal(s, events)
    decreases |events|
  {
    if events == [] then s else Run(Next(s, events[0]), events[1..])
  }

  // ---- what every step keeps ----

  ghost function Entrants(entered: set<Ticket>, g: nat): set<nat> {
    set t: Ticket | t in entered && t.generation == g :: t.rank
  }

  /** The counter counts the entrants of the open generation, and completed generations had everyone. */
  ghost predicate Counted(s: State) {
    && s.arrived < s.size
    && (forall t :: t in s.entered ==> t.rank < s.size && t.generation <= s.generation)
    && |Entrants(s.entered, s.generation)| == s.arrived
    && (forall g: nat {:trigger Entrants(s.entered, g)} :: g < s.generation ==> Entrants(s.entered, g) == Below(s.size))
  }

  /** Every entrant sleeps, has passed or has failed; only earlier generations are passed, only the open
  one can fail, and only when the barrier is broken. */
  ghost predicate Accounted(s: State) {
    && s.entered == s.sleeping + s.passed + s.failed && s.timedOut <= s.failed
    && s.sleeping !! s.passed && s.sleeping !! s.failed
    && (forall t :: t in s.passed ==> t.generation < s.generation)
    && (forall t :: t in s.failed ==> t.generation == s.generation && s.broken)
  }

  ghost predicate Invariant(s: State) {
    Counted(s) && Accounted(s)
  }

  lemma EntrantsAdd(entered: set<Ticket>, t: Ticket, g: nat)
    ensures Entrants(entered + {t}, g) == Entrants(entered, g) + (if t.generation == g then {t.rank} else {})
  {
    assert forall r :: r in Entrants(entered + {t}, g) ==> r in Entrants(entered, g) || (t.generation == g && r == t.rank);
    forall r | r in Entrants(entered, g) ensures r in Entrants(entered + {t}, g) {
      var u :| u in entered && u.generation == g && u.rank == r;
      assert u in entered + {t};
    }
    assert t in entered + {t};
  }

  /** The rank is new to the open generation. */
  lemma NotYetIn(s: State, rank: nat)
    requires Invariant(s) && Possible(s, Entering(rank)) && !s.broken
    ensures rank !in Entrants(s.entered, s.generation)
  {}

  /** One more entrant of the open generation: the count goes up, and reaches the world size with everyone. */
  lemma OneMoreEntrant(entered: set<Ticket>, rank: nat, g: nat, size: nat)
    requires rank < size && rank !in Entrants(entered, g) && forall t :: t in entered ==> t.rank < size
    ensures var now := Entrants(entered + {Ticket(rank, g)}, g);
            |now| == |Entrants(entered, g)| + 1 <= size && (|now| == size ==> now == Below(size))
  {
    EntrantsAdd(entered, Ticket(rank, g), g);
    EntrantsAreRanks(entered + {Ticket(rank, g)}, g, size);
    AllOfThem(Entrants(entered + {Ticket(rank, g)}, g), size);
  }

  lemma EarlierStay(entered: set<Ticket>, rank: nat, open: nat, size: nat)
    requires forall g: nat {:trigger Entrants(entered, g)} :: g < open ==> Entrants(entered, g) == Below(size)
    ensures forall g: nat {:trigger Entrants(entered + {Ticket(rank, open)}, g)} ::
              g < open ==> Entrants(entered + {Ticket(rank, open)}, g) == Below(size)
  {
    hide Entrants, Below;
    forall g: nat {:trigger Entrants(entered + {Ticket(rank, open)}, g)} | g < open
      ensures Entrants(entered + {Ticket(rank, open)}, g) == Below(size)
    {
      EntrantsAdd(entered, Ticket(rank, open), g);
    }
  }

  lemma EnterCounts(s: State, rank: nat)
    requires Invariant(s) && Possible(s, Entering(rank)) && !s.broken
    ensures Counted(Enter(s, rank).0)
  {
    hide Entrants, Below, Accounted;
    NotYetIn(s, rank);
    OneMoreEntrant(s.entered, rank, s.generation, s.size);
    EarlierStay(s.entered, rank, s.generation, s.size);
    NoLaterEntrants(s.entered + {Ticket(rank, s.generation)}, s.generation + 1, s.generation);
  }

  lemma EntrantsAreRanks(entered: set<Ticket>, g: nat, size: nat)
    requires forall t :: t in entered ==> t.rank < size
    ensures Entrants(entered, g) <= Below(size)
  {}

  lemma NoLaterEntrants(entered: set<Ticket>, g: nat, last: nat)
    requires last < g && forall t :: t in entered ==> t.generation <= last
    ensures Entrants(entered, g) == {}
  {}

  lemma StepKeeps(s: State, e: Event)
    requires Invariant(s) && Possible(s, e)
    ensures Invariant(Next(s, e)) && Next(s, e).size == s.size
  {
    match e
    case Entering(rank) =>
      if !s.broken {
        EnterCounts(s, rank);
        NotYetIn(s, rank);
      }
    case Waking(_, _, _) =>
  }

  // ---- what the caller hears ----

  /** The answer of a step is what the step did: it is success exactly if the caller's ticket has passed,
  an error exactly if the barrier is broken and nobody has passed, and otherwise the caller sleeps. An error names the
  caller's generation, and is a time-out exactly for the caller whose deadline breaks the barrier. */
  ghost predicate AnswersRightly(s: State, t: Ticket, after: State, answer: Outcome) {
    && (answer.Passed? <==> t !in s.passed && t in after.passed)
    && (answer.Passed? ==> after.passed == s.passed + {t})
    && (answer.Errored? <==> after.broken && after.passed == s.passed)
    && (answer.Sleeping? <==> !after.broken && t in after.sleeping)
    && (answer.Errored? ==>
          answer.error == if s.broken then Broken(t.generation) else TimedOut(t.generation))
    && (answer.Errored? && !s.broken ==> t in after.timedOut)
  }

  lemma AnswerIsRight(s: State, e: Event)
    requires Invariant(s) && Possible(s, e)
    ensures AnswersRightly(s, TicketOf(s, e), Next(s, e), Answer(s, e))
    ensures s.broken && e.Entering? ==> Answer(s, e).Errored?
  {
    hide Counted;
  }

  // ---- the verdict ----

  lemma {:induction false} RunKeeps(s: State, events: seq<Event>)
    requires Invariant(s) && Legal(s, events)
    ensures Invariant(Run(s, events)) && Run(s, events).size == s.size
    decreases |events|
  {
    hide Invariant, Next;
    if events != [] {
      StepKeeps(s, events[0]);
      RunKeeps(Next(s, events[0]), events[1..]);
    }
  }

  /** After any run: nobody has passed a generation that not every rank has entered; in a completed
  generation nobody has failed; and if anyone timed out in a generation, nobody has passed it. */
  lemma AllOrNothing(size: nat, events: seq<Event>, g: nat)
    requires size > 0 && Legal(Start(size), events)
    ensures var s := Run(Start(size), events);
            && ((exists t :: t in s.passed && t.generation == g) ==> Entrants(s.entered, g) == Below(size))
            && (g < s.generation ==> forall t :: t in s.entered && t.generation == g ==> t in s.passed || t in s.sleeping)
            && ((exists t :: t in s.timedOut && t.generation == g) ==>
                  s.broken && forall t :: t in s.entered && t.generation == g ==> t !in s.passed)
  {
    assert Entrants({}, 0) == {};
    RunKeeps(Start(size), events);
  }

  /** Nobody leaves the record, and generations only go up. */
  lemma {:induction false} RunGrows(s: State, events: seq<Event>)
    requires Legal(s, events)
    ensures s.entered <= Run(s, events).entered && s.generation <= Run(s, events).generation && s.passed <= Run(s, events).passed
    decreases |events|
  {
    if events != [] {
      RunGrows(Next(s, events[0]), events[1..]);
    }
  }

  /** Once a generation is complete, everybody who entered it gets through, whatever happens afterwards: after
  any continuation of any run nobody of it has failed or timed out, also when a later generation breaks, and
  whoever of it still sleeps passes at the next wake-up, also when the deadline has expired. */
  lemma CompletedMeansPassed(size: nat, before: seq<Event>, after: seq<Event>, t: Ticket, expired: bool)
    requires size > 0 && Legal(Start(size), before) && Legal(Run(Start(size), before), after)
    requires t in Run(Start(size), before).entered && t.generation < Run(Start(size), before).generation
    ensures var s := Run(Run(Start(size), before), after);
            && t !in s.failed && t !in s.timedOut
            && (t in s.passed || (t in s.sleeping && Wake(s, t.rank, t.generation, expired) == (s.(sleeping := s.sleeping - {t}, passed := s.passed + {t}), Passed)))
  {
    var start, middle := Start(size), Run(Start(size), before);
    assert Entrants({}, 0) == {};
    RunKeeps(start, before);
    RunKeeps(middle, after);
    RunGrows(middle, after);
    hide Counted, Run, Legal;
  }

  /** A broken barrier stays broken: it opens no further generation, and whoever enters or sleeps in the
  open one gets an error. */
  lemma {:induction false} BrokenForever(s: State, events: seq<Event>)
    requires Legal(s, events) && s.broken
    ensures Run(s, events).broken && Run(s, events).generation == s.generation && Run(s, events).entered == s.entered
    ensures forall t :: t in Run(s, events).passed && t !in s.passed ==> t.generation != s.generation
    ensures forall e :: Possible(Run(s, events), e) && TicketOf(Run(s, events), e).generation == s.generation ==>
                          Answer(Run(s, events), e) == Errored(Broken(s.generation))
    decreases |events|
  {
    if events != [] {
      BrokenForever(Next(s, events[0]), events[1..]);
    }
  }

  lemma PassedIsComplete(s: State, t: Ticket)
    requires Invariant(s) && t in s.passed
    ensures Entrants(s.entered, t.generation) == Below(s.size)
  {}

  lemma ErrorIsFinal(s: State, t: Ticket, after: seq<Event>)
    requires Invariant(s) && s.broken && t.generation == s.generation && Legal(s, after)
    ensures Run(s, after).broken && forall u :: u in Run(s, after).passed ==> u.generation != t.generation
  {
    BrokenForever(s, after);
    RunKeeps(s, after);
    hide Counted, Run, Legal;
  }

  lemma StartIsFine(size: nat)
    requires size > 0
    ensures Invariant(Start(size)) && Start(size).size == size
  {
    assert Entrants({}, 0) == {};
  }

  /** What `wait` returns, over whole runs: success means that all ranks have entered the caller's
  generation, an error that nobody passes that generation in any continuation. */
  lemma WaitTellsTheTruth(size: nat, events: seq<Event>, e: Event, after: seq<Event>)
    requires size > 0 && Legal(Start(size), events) && Possible(Run(Start(size), events), e)
    requires Legal(Next(Run(Start(size), events), e), after)
    ensures var s := Run(Start(size), events);
            var t, now, end := TicketOf(s, e), Next(s, e), Run(Next(s, e), after);
            && (Answer(s, e).Passed? ==> Entrants(now.entered, t.generation) == Below(size))
            && (Answer(s, e).Errored? ==> end.broken && forall u :: u in end.passed ==> u.generation != t.generation)
  {
    hide Run, Legal, Invariant, Entrants, Start;
    var s := Run(Start(size), events);
    StartIsFine(size);
    RunKeeps(Start(size), events);
    StepKeeps(s, e);
    TicketAfter(s, e);
    hide Answer, Next, TicketOf;
    if Answer(s, e).Passed? {
      PassedIsComplete(Next(s, e), TicketOf(s, e));
    }
    if Answer(s, e).Errored? {
      ErrorIsFinal(Next(s, e), TicketOf(s, e), after);
    }
  }

  lemma TicketAfter(s: State, e: Event)
    requires Possible(s, e)
    ensures Answer(s, e).Passed? ==> TicketOf(s, e) in Next(s, e).passed
    ensures Answer(s, e).Errored? ==> Next(s, e).broken && TicketOf(s, e).generation == Next(s, e).generation
  {}

  // ---- the shared object ----

  class Barrier {
    const worldSize: nat
    var generation: nat
    var arrived: nat
    var broken: bool
    ghost var history: State

    /** The history agrees with the fields. */
    ghost predicate Valid()
      reads this
    {
      && worldSize > 0 && Invariant(history)
      && history.size == worldSize && history.generation == generation && history.arrived == arrived && history.broken == broken
    }

    constructor (worldSize: nat)
      requires worldSize > 0
      ensures Valid() && history == Start(worldSize)
    {
      this.worldSize := worldSize;
      generation, arrived, broken, history := 0, 0, false, Start(worldSize);
      assert Entrants({}, 0) == {};
    }

    method EnterSection(rank: nat) returns (outcome: Outcome)
      requires Valid() && Possible(history, Entering(rank))
      modifies this
      ensures Valid() && (history, outcome) == Enter(old(history), rank)
      ensures AnswersRightly(old(history), Ticket(rank, old(generation)), history, outcome)
    {
      hide Invariant, AnswersRightly;
      AnswerIsRight(history, Entering(rank));
      StepKeeps(history, Entering(rank));
      history := Next(history, Entering(rank));
      if broken {
        return Errored(Broken(generation));
      }
      arrived := arrived + 1;
      if arrived == worldSize {
        arrived := 0;
        generation := generation + 1;
        return Passed;
      }
      return Sleeping;
    }

    method WakeSection(rank: nat, mine: nat, expired: bool) returns (outcome: Outcome)
      requires Valid() && Possible(history, Waking(rank, mine, expired))
      modifies this
      ensures Valid() && (history, outcome) == Wake(old(history), rank, mine, expired)
      ensures AnswersRightly(old(history), Ticket(rank, mine), history, outcome)
    {
      hide Invariant, AnswersRightly;
      AnswerIsRight(history, Waking(rank, mine, expired));
      StepKeeps(history, Waking(rank, mine, expired));
      history := Next(history, Waking(rank, mine, expired));
      if generation != mine {
        return Passed;
      }
      if broken {
        return Errored(Broken(mine));
      }
      if expired {
        broken := true;
        return Errored(TimedOut(mine));
      }
      return Sleeping;
    }
  }
}
