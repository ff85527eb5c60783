/** The receive side of the two transports: frames that a receive is not looking for wait, in order, in
a pending queue, and the whole behaves as one FIFO queue per (source, tag, payload kind).

The clock is a parameter: `patience` is the number of frames a receive gets to read before its
deadline. Everything that arrives before the deadline is already in the channel at the call. */
module Mailbox {
  import opened Options
  import opened Network
  import opened Sequences

  datatype ReceiveError = UnknownPeer | TimedOut

  /** A message of the in-memory transport, whose pending queue is shared by all sources. */
  datatype Envelope<T, C> = Envelope(source: nat, frame: Frame<T, C>)

  /** Receives for one tag and payload kind, as opposed to barrier receives. */
  predicate Addressed(want: Want) {
    want.WantTensor? || want.WantControl?
  }

  lemma Reassemble<X>(a: seq<X>, b: seq<X>, k: nat)
    requires k <= |b|
    ensures a + b[..k] + b[k..] == a + b
  {}

  lemma WithoutInTail<X>(a: seq<X>, b: seq<X>, k: nat)
    requires k < |b|
    ensures (a + b)[|a| + k] == b[k] && Without(a + b, |a| + k) == a + b[..k] + b[k + 1..]
  {}

  lemma WithoutInHead<X>(a: seq<X>, b: seq<X>, k: nat)
    requires k < |a|
    ensures (a + b)[k] == a[k] && Without(a + b, k) == Without(a, k) + b
  {}

  // ---- one FIFO queue per tag and kind ----

  /** The frames for one tag and kind, oldest first. */
  function Mail<T, C>(box: seq<Frame<T, C>>, want: Want): seq<Frame<T, C>> {
    if box == [] then []
    else if Exact(want, box[0]) then [box[0]] + Mail(box[1..], want)
    else Mail(box[1..], want)
  }

  lemma {:induction false} MailSplits<T, C>(a: seq<Frame<T, C>>, b: seq<Frame<T, C>>, want: Want)
    ensures Mail(a + b, want) == Mail(a, want) + Mail(b, want)
  {
    if a == [] {
      assert a + b == b;
    } else {
      assert (a + b)[1..] == a[1..] + b;
      MailSplits(a[1..], b, want);
    }
  }

  lemma {:induction false} NoMail<T, C>(box: seq<Frame<T, C>>, want: Want)
    requires forall i :: 0 <= i < |box| ==> !Exact(want, box[i])
    ensures Mail(box, want) == []
  {
    if box != [] {
      NoMail(box[1..], want);
    }
  }

  lemma {:induction false} FirstLookSplits<T, C>(want: Want, a: seq<Frame<T, C>>, b: seq<Frame<T, C>>)
    ensures FirstLook(want, a + b) == if FirstLook(want, a) < |a| then FirstLook(want, a) else |a| + FirstLook(want, b)
  {
    if a == [] {
      assert a + b == b;
    } else {
      assert (a + b)[1..] == a[1..] + b;
      FirstLookSplits(want, a[1..], b);
    }
  }

  /** The queue of one tag around one frame. */
  lemma MailAround<T, C>(a: seq<Frame<T, C>>, frame: Frame<T, C>, b: seq<Frame<T, C>>, want: Want)
    ensures Mail(a + ([frame] + b), want) == Mail(a, want) + ((if Exact(want, frame) then [frame] else []) + Mail(b, want))
    ensures Mail(a + b, want) == Mail(a, want) + Mail(b, want)
  {
    MailSplits(a, [frame] + b, want);
    MailSplits(a, b, want);
    assert ([frame] + b)[1..] == b;
  }

  lemma TakesBetween<T, C>(a: seq<Frame<T, C>>, frame: Frame<T, C>, b: seq<Frame<T, C>>, want: Want, other: Want)
    requires Addressed(want) && Addressed(other) && Exact(want, frame) && Mail(a, want) == []
    ensures var box := a + ([frame] + b);
            && Mail(box, want) != [] && frame == Mail(box, want)[0]
            && Mail(a + b, other) == if other == want then Mail(box, want)[1..] else Mail(box, other)
  {
    assert other != want ==> !Exact(other, frame);
    hide Mail, Exact;
    MailAround(a, frame, b, want);
    MailAround(a, frame, b, other);
  }

  /** Taking the first match pops its own queue and leaves every other queue alone. */
  lemma TakesOldest<T, C>(box: seq<Frame<T, C>>, want: Want, other: Want)
    requires Addressed(want) && Addressed(other) && FirstLook(want, box) < |box|
    ensures var i := FirstLook(want, box);
            && Mail(box, want) != [] && box[i] == Mail(box, want)[0]
            && Mail(Without(box, i), other) == if other == want then Mail(box, want)[1..] else Mail(box, other)
  {
    hide Mail, FirstLook;
    var i := FirstLook(want, box);
    var a, frame, b := box[..i], box[i], box[i + 1..];
    assert box == a + ([frame] + b);
    NoMail(a, want);
    TakesBetween(a, frame, b, want, other);
  }

  /** There is a match exactly when the queue is not empty. */
  lemma {:induction false} LooksIsMail<T, C>(box: seq<Frame<T, C>>, want: Want)
    requires Addressed(want)
    ensures FirstLook(want, box) < |box| <==> Mail(box, want) != []
  {
    if FirstLook(want, box) < |box| {
      TakesOldest(box, want, want);
    } else {
      NoMail(box, want);
    }
  }

  // ---- whole histories of one link ----

  /** What can happen to the frames of one source: one more is sent, one is received, or a receive gives up. */
  datatype Event<T, C> = Sent(frame: Frame<T, C>) | Received(want: Want) | GaveUp(want: Want)

  predicate Possible<T, C>(box: seq<Frame<T, C>>, e: Event<T, C>) {
    match e
    case Sent(_) => true
    case Received(want) => Addressed(want) && FirstLook(want, box) < |box|
    case GaveUp(want) => Addressed(want)
  }

  function Step<T, C>(box: seq<Frame<T, C>>, e: Event<T, C>): seq<Frame<T, C>>
    requires Possible(box, e)
  {
    match e
    case Sent(frame) => box + [frame]
    case Received(want) => Without(box, FirstLook(want, box))
    case GaveUp(_) => box
  }

  predicate History<T, C>(box: seq<Frame<T, C>>, events: seq<Event<T, C>>)
    decreases |events|
  {
    events == [] || (Possible(box, events[0]) && History(Step(box, events[0]), events[1..]))
  }

  function Left<T, C>(box: seq<Frame<T, C>>, events: seq<Event<T, C>>): seq<Frame<T, C>>
    requires History(box, events)
    decreases |events|
  {
    if events == [] then box else Left(Step(box, events[0]), events[1..])
  }

  /** What event `e` delivers for `want`, and what it sends. */
  function Delivers<T, C>(box: seq<Frame<T, C>>, e: Event<T, C>, want: Want): seq<Frame<T, C>>
    requires Possible(box, e)
  {
    if e == Received(want) then [box[FirstLook(want, box)]] else []
  }

  function Sends<T, C>(e: Event<T, C>): seq<Frame<T, C>> {
    if e.Sent? then [e.frame] else []
  }

  /** What the receives for `want` returned, in order. */
  function Delivered<T, C>(box: seq<Frame<T, C>>, events: seq<Event<T, C>>, want: Want): seq<Frame<T, C>>
    requires History(box, events)
    decreases |events|
  {
    if events == [] then [] else Delivers(box, events[0], want) + Delivered(Step(box, events[0]), events[1..], want)
  }

  function AllSent<T, C>(events: seq<Event<T, C>>): seq<Frame<T, C>> {
    if events == [] then [] else Sends(events[0]) + AllSent(events[1..])
  }

  lemma StepIsFifo<T, C>(box: seq<Frame<T, C>>, e: Event<T, C>, want: Want)
    requires Possible(box, e) && Addressed(want)
    ensures Delivers(box, e, want) + Mail(Step(box, e), want) == Mail(box, want) + Mail(Sends(e), want)
  {
    match e
    case Sent(frame) => MailSplits(box, [frame], want);
    case Received(other) => TakesOldest(box, other, want);
    case GaveUp(_) =>
  }

  lemma Regroup<X>(now: seq<X>, later: seq<X>, left: seq<X>, middle: seq<X>, rest: seq<X>, box: seq<X>, sent: seq<X>)
    requires later + left == middle + rest && now + middle == box + sent
    ensures now + later + left == box + (sent + rest)
  {
    assert now + later + left == now + (later + left) == (now + middle) + rest == box + (sent + rest);
  }

  /** Over any history, what was delivered for a tag and kind followed by what is still queued for it is
  exactly what was sent for it, in order: nothing is lost, duplicated, reordered or misdelivered. */
  lemma {:induction false} FifoPerTag<T, C>(box: seq<Frame<T, C>>, events: seq<Event<T, C>>, want: Want)
    requires History(box, events) && Addressed(want)
    ensures Delivered(box, events, want) + Mail(Left(box, events), want) == Mail(box + AllSent(events), want)
    decreases |events|
  {
    hide Mail, FirstLook;
    if events == [] {
      assert box + AllSent(events) == box;
    } else {
      var e, rest := events[0], AllSent(events[1..]);
      FifoPerTag(Step(box, e), events[1..], want);
      StepIsFifo(box, e, want);
      MailSplits(Step(box, e), rest, want);
      MailSplits(box, AllSent(events), want);
      MailSplits(Sends(e), rest, want);
      Regroup(Delivers(box, e, want), Delivered(Step(box, e), events[1..], want), Mail(Left(box, events), want),
              Mail(Step(box, e), want), Mail(rest, want), Mail(box, want), Mail(Sends(e), want));
    }
  }

  // ---- the in-memory endpoint: one pending queue for all sources ----

  function FromSource<T, C>(envelopes: seq<Envelope<T, C>>, source: nat): seq<Frame<T, C>> {
    if envelopes == [] then []
    else (if envelopes[0].source == source then [envelopes[0].frame] else []) + FromSource(envelopes[1..], source)
  }

  lemma {:induction false} FromSourceSplits<T, C>(a: seq<Envelope<T, C>>, b: seq<Envelope<T, C>>, source: nat)
    ensures FromSource(a + b, source) == FromSource(a, source) + FromSource(b, source)
  {
    if a == [] {
      assert a + b == b;
    } else {
      var first, rest := if a[0].source == source then [a[0].frame] else [], FromSource(a[1..], source);
      assert (a + b)[0] == a[0] && (a + b)[1..] == a[1..] + b;
      FromSourceSplits(a[1..], b, source);
      assert FromSource(a + b, source) == first + (rest + FromSource(b, source)) == (first + rest) + FromSource(b, source);
    }
  }

  lemma FromSourceAt<T, C>(envelopes: seq<Envelope<T, C>>, i: nat, source: nat)
    requires i < |envelopes|
    ensures FromSource(envelopes, source)
            == FromSource(envelopes[..i], source) + (if envelopes[i].source == source then [envelopes[i].frame] else []) + FromSource(envelopes[i + 1..], source)
    ensures FromSource(Without(envelopes, i), source) == FromSource(envelopes[..i], source) + FromSource(envelopes[i + 1..], source)
  {
    var a, b := envelopes[..i], envelopes[i + 1..];
    assert envelopes == a + ([envelopes[i]] + b);
    FromSourceSplits(a, [envelopes[i]] + b, source);
    FromSourceSplits([envelopes[i]], b, source);
    FromSourceSplits(a, b, source);
  }

  lemma {:induction false} NothingFound<T, C>(envelopes: seq<Envelope<T, C>>, source: nat, want: Want)
    requires forall j :: 0 <= j < |envelopes| ==> !(envelopes[j].source == source && Exact(want, envelopes[j].frame))
    requires Addressed(want)
    ensures FirstLook(want, FromSource(envelopes, source)) == |FromSource(envelopes, source)|
  {
    if envelopes != [] {
      NothingFound(envelopes[1..], source, want);
      FirstLookSplits(want, if envelopes[0].source == source then [envelopes[0].frame] else [], FromSource(envelopes[1..], source));
    }
  }

  /** Removing the first match for `source` from the shared queue. */
  lemma RemovesFirst<T, C>(envelopes: seq<Envelope<T, C>>, i: nat, source: nat, want: Want)
    requires i < |envelopes| && envelopes[i].source == source && Exact(want, envelopes[i].frame) && Addressed(want)
    requires forall j :: 0 <= j < i ==> !(envelopes[j].source == source && Exact(want, envelopes[j].frame))
    ensures var box, k := FromSource(envelopes, source), FirstLook(want, FromSource(envelopes, source));
            && k < |box| && box[k] == envelopes[i].frame && FromSource(Without(envelopes, i), source) == Without(box, k)
    ensures forall s :: s != source ==> FromSource(Without(envelopes, i), s) == FromSource(envelopes, s)
  {
    var a, frame, b := FromSource(envelopes[..i], source), envelopes[i].frame, FromSource(envelopes[i + 1..], source);
    FromSourceAt(envelopes, i, source);
    NothingFound(envelopes[..i], source, want);
    assert FromSource(envelopes, source) == a + ([frame] + b);
    FirstLookSplits(want, a, [frame] + b);
    forall s | s != source ensures FromSource(Without(envelopes, i), s) == FromSource(envelopes, s) {
      FromSourceAt(envelopes, i, s);
    }
  }

  function Envelopes<T, C>(source: nat, frames: seq<Frame<T, C>>): (es: seq<Envelope<T, C>>)
    ensures |es| == |frames|
  {
    seq(|frames|, i requires 0 <= i < |frames| => Envelope(source, frames[i]))
  }

  lemma {:induction false} FromEnvelopes<T, C>(source: nat, frames: seq<Frame<T, C>>, s: nat)
    ensures FromSource(Envelopes(source, frames), s) == if s == source then frames else []
  {
    if frames != [] {
      assert Envelopes(source, frames)[1..] == Envelopes(source, frames[1..]);
      FromEnvelopes(source, frames[1..], s);
    }
  }

  /** Frames moved from the channel to the pending queue stay where they are in the inbox. */
  lemma SetAsideKeepsInbox<T, C>(envelopes: seq<Envelope<T, C>>, source: nat, all: seq<Frame<T, C>>, read: nat)
    requires read <= |all|
    ensures FromSource(envelopes + Envelopes(source, all[..read]), source) == FromSource(envelopes, source) + all[..read]
    ensures forall s :: s != source ==> FromSource(envelopes + Envelopes(source, all[..read]), s) == FromSource(envelopes, s)
  {
    assert all == all[..read] + all[read..];
    FromSourceSplits(envelopes, Envelopes(source, all[..read]), source);
    FromEnvelopes(source, all[..read], source);
    forall s | s != source ensures FromSource(envelopes + Envelopes(source, all[..read]), s) == FromSource(envelopes, s) {
      FromSourceSplits(envelopes, Envelopes(source, all[..read]), s);
      FromEnvelopes(source, all[..read], s);
    }
  }

  /** How many of `available` frames a receive whose match is at `k` reads and sets aside. */
  function ReadBefore(k: nat, available: nat, patience: nat): (n: nat)
    ensures n <= available
  {
    if k < available && k < patience then k else if patience < available then patience else available
  }

  /** The frame after `read` others, none of which matches, is the first match. */
  lemma NextIsFirst<T, C>(all: seq<Frame<T, C>>, read: nat, want: Want)
    requires read < |all| && Addressed(want) && FirstLook(want, all[..read]) == read && Exact(want, all[read])
    ensures FirstLook(want, all) == read
  {
    assert all == all[..read] + ([all[read]] + all[read + 1..]);
    FirstLookSplits(want, all[..read], [all[read]] + all[read + 1..]);
  }

  lemma OneMoreLooked<T, C>(all: seq<Frame<T, C>>, read: nat, want: Want)
    requires read < |all| && FirstLook(want, all[..read]) == read && Addressed(want) && !Exact(want, all[read])
    ensures FirstLook(want, all[..read + 1]) == read + 1
  {
    assert all[..read + 1] == all[..read] + [all[read]];
    FirstLookSplits(want, all[..read], [all[read]]);
  }

  /** Nothing matching was among the frames read before the deadline. */
  lemma GaveUpRightly<T, C>(all: seq<Frame<T, C>>, read: nat, want: Want)
    requires read <= |all| && FirstLook(want, all[..read]) == read
    ensures FirstLook(want, all) >= read
  {
    assert all == all[..read] + all[read..];
    FirstLookSplits(want, all[..read], all[read..]);
  }

  /** A receive over the inbox `box` that reaches its first `reach` frames: it returns the oldest match and
  removes just that, or it times out and changes nothing. */
  ghost predicate Takes<T, C>(box: seq<Frame<T, C>>, after: seq<Frame<T, C>>, want: Want, reach: nat, result: Result<Frame<T, C>, ReceiveError>) {
    var k := FirstLook(want, box);
    if k < |box| && k < reach then result == Ok(box[k]) && after == Without(box, k)
    else result == Err(TimedOut) && after == box
  }

  lemma TakesPending<T, C>(before: seq<Frame<T, C>>, all: seq<Frame<T, C>>, want: Want, patience: nat)
    requires FirstLook(want, before) < |before|
    ensures var i := FirstLook(want, before);
            Takes(before + all, Without(before, i) + all, want, |before| + patience, Ok(before[i]))
  {
    FirstLookSplits(want, before, all);
    hide FirstLook, Without;
    WithoutInHead(before, all, FirstLook(want, before));
  }

  lemma TakesFlying<T, C>(before: seq<Frame<T, C>>, all: seq<Frame<T, C>>, want: Want, patience: nat, k: nat)
    requires FirstLook(want, before) == |before| && k == FirstLook(want, all) < |all| && k < patience
    ensures Takes(before + all, before + all[..k] + all[k + 1..], want, |before| + patience, Ok(all[k]))
  {
    FirstLookSplits(want, before, all);
    hide FirstLook, Without;
    WithoutInTail(before, all, k);
  }

  lemma TakesNothing<T, C>(before: seq<Frame<T, C>>, all: seq<Frame<T, C>>, want: Want, patience: nat, read: nat)
    requires FirstLook(want, before) == |before| && !(FirstLook(want, all) < |all| && FirstLook(want, all) < patience) && read <= |all|
    ensures Takes(before + all, before + all[..read] + all[read..], want, |before| + patience, Err(TimedOut))
  {
    FirstLookSplits(want, before, all);
    hide FirstLook;
    Reassemble(before, all, read);
  }

  class InMemoryEndpoint<T, C> {
    const rank: nat
    const size: nat
    var pending: seq<Envelope<T, C>>
    var channels: seq<seq<Frame<T, C>>>

    ghost predicate Valid()
      reads this
    {
      rank < size == |channels|
    }

    /** Everything from `source` that no receive has returned yet, oldest first. */
    function Inbox(source: nat): seq<Frame<T, C>>
      requires Valid() && source < size
      reads this
    {
      FromSource(pending, source) + channels[source]
    }

    constructor (rank: nat, size: nat)
      requires rank < size
      ensures Valid() && this.rank == rank && this.size == size
      ensures forall s :: 0 <= s < size ==> Inbox(s) == []
    {
      this.rank, this.size := rank, size;
      pending := [];
      channels := seq(size, _ => []);
    }

    /** `take_pending`: the oldest pending frame from `source` for `want`. */
    method TakePending(source: nat, want: Want) returns (taken: Option<Frame<T, C>>)
      requires Valid() && source < size && Addressed(want)
      modifies this`pending
      ensures var box := FromSource(old(pending), source);
              var i := FirstLook(want, box);
              && (taken.Some? <==> i < |box|)
              && (taken.Some? ==> taken.value == box[i] && FromSource(pending, source) == Without(box, i))
              && (taken.None? ==> pending == old(pending))
      ensures forall s :: s != source ==> FromSource(pending, s) == FromSource(old(pending), s)
    {
      var i := 0;
      while i < |pending| && !(pending[i].source == source && Exact(want, pending[i].frame))
        invariant i <= |pending|
        invariant forall j :: 0 <= j < i ==> !(pending[j].source == source && Exact(want, pending[j].frame))
      {
        i := i + 1;
      }
      if i == |pending| {
        NothingFound(pending, source, want);
        return None;
      }
      RemovesFirst(pending, i, source, want);
      taken := Some(pending[i].frame);
      pending := Without(pending, i);
    }

    /** The receive loop: reads the channel until a match, setting other frames aside. */
    method Drain(source: nat, want: Want, patience: nat) returns (result: Option<Frame<T, C>>)
      requires Valid() && source < size && Addressed(want)
      modifies this`pending, this`channels
      ensures var all := old(channels)[source];
              var k := FirstLook(want, all);
              var read := ReadBefore(k, |all|, patience);
              && (result.Some? <==> k < |all| && k < patience)
              && (result.Some? ==> result.value == all[k] && channels == old(channels)[source := all[k + 1..]])
              && (result.None? ==> channels == old(channels)[source := all[read..]])
              && pending == old(pending) + Envelopes(source, all[..read])
    {
      hide FirstLook;
      ghost var all, read := channels[source], 0;
      var budget := patience;
      assert all[0..] == all && pending + Envelopes(source, all[..0]) == pending;
      while budget > 0 && channels[source] != []
        invariant read + budget == patience && read <= |all| && budget >= 0
        invariant channels == old(channels)[source := all[read..]] && pending == old(pending) + Envelopes(source, all[..read])
        invariant FirstLook(want, all[..read]) == read
        decreases budget
      {
        var frame := channels[source][0];
        channels := channels[source := channels[source][1..]];
        budget := budget - 1;
        if Exact(want, frame) {
          NextIsFirst(all, read, want);
          return Some(frame);
        }
        pending := pending + [Envelope(source, frame)];
        OneMoreLooked(all, read, want);
        read := read + 1;
      }
      GaveUpRightly(all, read, want);
      assert read == ReadBefore(FirstLook(want, all), |all|, patience);
      return None;
    }

    /** The same, in terms of what each source has aside. */
    method DrainAside(source: nat, want: Want, patience: nat) returns (result: Option<Frame<T, C>>)
      requires Valid() && source < size && Addressed(want)
      modifies this`pending, this`channels
      ensures var all := old(channels)[source];
              var k := FirstLook(want, all);
              var read := ReadBefore(k, |all|, patience);
              && (result.Some? <==> k < |all| && k < patience)
              && (result.Some? ==> result.value == all[k] && channels == old(channels)[source := all[k + 1..]])
              && (result.None? ==> channels == old(channels)[source := all[read..]])
              && FromSource(pending, source) == FromSource(old(pending), source) + all[..read]
      ensures forall s :: s != source ==> FromSource(pending, s) == FromSource(old(pending), s)
    {
      hide FirstLook, FromSource, Envelopes;
      SetAsideKeepsInbox(pending, source, channels[source], ReadBefore(FirstLook(want, channels[source]), |channels[source]|, patience));
      result := Drain(source, want, patience);
    }

    method ReceiveFrom(source: nat, want: Want, patience: nat) returns (result: Result<Frame<T, C>, ReceiveError>)
      requires Valid() && Addressed(want) && source < size
      modifies this`pending, this`channels
      ensures Valid()
      ensures Takes(old(Inbox(source)), Inbox(source), want, old(|FromSource(pending, source)|) + patience, result)
      ensures forall s :: 0 <= s < size && s != source ==> Inbox(s) == old(Inbox(s))
    {
      hide FirstLook, FromSource, Looks, Exact, Takes, Without;
      ghost var before, all := FromSource(pending, source), channels[source];
      var taken := TakePending(source, want);
      if taken.Some? {
        TakesPending(before, all, want, patience);
        return Ok(taken.value);
      }
      taken := DrainAside(source, want, patience);
      if taken.Some? {
        TakesFlying(before, all, want, patience, FirstLook(want, all));
        return Ok(taken.value);
      }
      TakesNothing(before, all, want, patience, ReadBefore(FirstLook(want, all), |all|, patience));
      return Err(TimedOut);
    }

    /** `recv` and `recv_control`: the oldest matching frame, or a time-out that loses nothing. */
    method Receive(source: nat, want: Want, patience: nat) returns (result: Result<Frame<T, C>, ReceiveError>)
      requires Valid() && Addressed(want)
      modifies this`pending, this`channels
      ensures Valid()
      ensures source >= size || source == rank ==> result == Err(UnknownPeer) && unchanged(this)
      ensures source < size && source != rank ==> Takes(old(Inbox(source)), Inbox(source), want, old(|FromSource(pending, source)|) + patience, result)
      ensures forall s :: 0 <= s < size && s != source ==> Inbox(s) == old(Inbox(s))
    {
      hide FirstLook, FromSource, Looks, Exact, Takes, Without;
      if source >= size || source == rank {
        return Err(UnknownPeer);
      }
      result := ReceiveFrom(source, want, patience);
    }
  }

  // ---- what a receive takes, for every kind of receive ----

  /** Position of the first frame that a receive reading the link does not set aside, or the length. */
  function FirstStop<T, C>(want: Want, frames: seq<Frame<T, C>>): (i: nat)
    ensures i <= |frames|
    ensures forall j :: 0 <= j < i ==> SetsAside(want, frames[j])
    ensures i < |frames| ==> !SetsAside(want, frames[i])
  {
    if frames == [] || !SetsAside(want, frames[0]) then 0 else 1 + FirstStop(want, frames[1..])
  }

  lemma {:induction false} StopIsLook<T, C>(want: Want, frames: seq<Frame<T, C>>)
    requires Addressed(want)
    ensures FirstStop(want, frames) == FirstLook(want, frames)
  {
    if frames != [] {
      StopIsLook(want, frames[1..]);
    }
  }

  /** The frame a receive is going to take: a pending one, else the next that it does not set aside. */
  function TakeIndex<T, C>(want: Want, aside: seq<Frame<T, C>>, flying: seq<Frame<T, C>>): nat {
    if FirstLook(want, aside) < |aside| then FirstLook(want, aside) else |aside| + FirstStop(want, flying)
  }

  lemma TakeIndexIsLook<T, C>(want: Want, aside: seq<Frame<T, C>>, flying: seq<Frame<T, C>>)
    requires Addressed(want)
    ensures TakeIndex(want, aside, flying) == FirstLook(want, aside + flying)
  {
    StopIsLook(want, flying);
    FirstLookSplits(want, aside, flying);
  }

  // ---- the receive turns of a network are such receives ----

  function Repeat(a: Act, n: nat): (u: seq<Act>)
    ensures |u| == n
  {
    if n == 0 then [] else [a] + Repeat(a, n - 1)
  }

  /** Turns of the receive loop until it has its frame or has read the whole link. */
  function Turns<T, C>(want: Want, aside: seq<Frame<T, C>>, flying: seq<Frame<T, C>>): nat {
    if FirstLook(want, aside) < |aside| then 1
    else if FirstStop(want, flying) < |flying| then FirstStop(want, flying) + 1
    else |flying|
  }

  /** What a rank has not received yet from its current source. */
  function InboxOf<T, C, R>(c: Net<T, C, R>, link: Link): seq<Frame<T, C>> {
    Get(c.pending, link) + Get(c.links, link)
  }

  predicate Receiving<T, C, R>(cap: Capacity, c: Net<T, C, R>, r: nat) {
    !Direct(cap) && r < |c.procs| && (c.procs[r].Recv? || c.procs[r].Exchange?)
  }

  /** The network after one whole receive of rank `r`. */
  ghost predicate ReceivedOne<T, C, R>(cap: Capacity, c: Net<T, C, R>, c': Net<T, C, R>, r: nat, k: nat)
    requires Receiving(cap, c, r)
  {
    var p, link := c.procs[r], Link(c.procs[r].source, r);
    var box := InboxOf(c, link);
    && (if k < |box| then c'.procs == c.procs[r := AfterTake(p, box[k])] && InboxOf(c', link) == Without(box, k)
        else c'.procs == c.procs && InboxOf(c', link) == box && !CanRecv(cap, c', r))
    && SameElsewhere(c, c', link)
  }

  /** All queues but those of `link`. */
  ghost predicate SameElsewhere<T, C, R>(c: Net<T, C, R>, c': Net<T, C, R>, link: Link) {
    forall other :: other != link ==> Get(c'.links, other) == Get(c.links, other) && Get(c'.pending, other) == Get(c.pending, other)
  }

  lemma LookedInVain<T, C>(want: Want, aside: seq<Frame<T, C>>, frame: Frame<T, C>)
    requires FirstLook(want, aside) == |aside| && SetsAside(want, frame)
    ensures FirstLook(want, aside + [frame]) == |aside| + 1
  {
    assert forall i :: 0 <= i < |aside| ==> (aside + [frame])[i] == aside[i];
  }

  lemma OneTurn<T, C, R>(cap: Capacity, c: Net<T, C, R>, r: nat)
    requires Receiving(cap, c, r) && CanRecv(cap, c, r)
    ensures var p, link, c1 := c.procs[r], Link(c.procs[r].source, r), FireRecv(cap, c, r);
            var d := Draw(WantOf(p), Get(c.pending, link), Get(c.links, link));
            && c1.procs == (if d.taken.Some? then c.procs[r := AfterTake(p, d.taken.value)] else c.procs)
            && Get(c1.pending, link) == d.aside && Get(c1.links, link) == (if d.read then Get(c.links, link)[1..] else Get(c.links, link))
            && SameElsewhere(c, c1, link)
  {
    hide Draw, AfterTake;
  }

  /** What the receive of rank `r` looks at. */
  function AsideOf<T, C, R>(c: Net<T, C, R>, r: nat): seq<Frame<T, C>>
    requires r < |c.procs| && (c.procs[r].Recv? || c.procs[r].Exchange?)
  {
    Get(c.pending, Link(c.procs[r].source, r))
  }

  function FlyingOf<T, C, R>(c: Net<T, C, R>, r: nat): seq<Frame<T, C>>
    requires r < |c.procs| && (c.procs[r].Recv? || c.procs[r].Exchange?)
  {
    Get(c.links, Link(c.procs[r].source, r))
  }

  /** The next turn only sets a frame aside. */
  predicate GoesOn<T, C, R>(cap: Capacity, c: Net<T, C, R>, r: nat)
    requires Receiving(cap, c, r)
  {
    var want, aside, flying := WantOf(c.procs[r]), AsideOf(c, r), FlyingOf(c, r);
    FirstLook(want, aside) == |aside| && flying != [] && SetsAside(want, flying[0])
  }

  lemma NoTurn<T, C, R>(cap: Capacity, c: Net<T, C, R>, r: nat)
    requires Receiving(cap, c, r) && !CanRecv(cap, c, r)
    ensures ReceivedOne(cap, c, c, r, TakeIndex(WantOf(c.procs[r]), AsideOf(c, r), FlyingOf(c, r)))
    ensures Turns(WantOf(c.procs[r]), AsideOf(c, r), FlyingOf(c, r)) == 0
  {
    hide Get;
  }

  lemma TurnFromAside<T, C, R>(cap: Capacity, c: Net<T, C, R>, r: nat)
    requires Receiving(cap, c, r) && CanRecv(cap, c, r) && FirstLook(WantOf(c.procs[r]), AsideOf(c, r)) < |AsideOf(c, r)|
    ensures ReceivedOne(cap, c, FireRecv(cap, c, r), r, FirstLook(WantOf(c.procs[r]), AsideOf(c, r)))
  {
    var want, aside, flying := WantOf(c.procs[r]), AsideOf(c, r), FlyingOf(c, r);
    OneTurn(cap, c, r);
    WithoutInHead(aside, flying, FirstLook(want, aside));
    hide FireRecv, Get, AfterTake, Looks, SetsAside, SameElsewhere, CanRecv, FirstLook;
  }

  lemma TurnFromLink<T, C, R>(cap: Capacity, c: Net<T, C, R>, r: nat)
    requires Receiving(cap, c, r) && CanRecv(cap, c, r) && FirstLook(WantOf(c.procs[r]), AsideOf(c, r)) == |AsideOf(c, r)|
    requires FlyingOf(c, r) != [] && !SetsAside(WantOf(c.procs[r]), FlyingOf(c, r)[0])
    ensures ReceivedOne(cap, c, FireRecv(cap, c, r), r, |AsideOf(c, r)|)
  {
    var aside, flying := AsideOf(c, r), FlyingOf(c, r);
    OneTurn(cap, c, r);
    WithoutInTail(aside, flying, 0);
    assert aside + flying[..0] == aside;
    hide FireRecv, Get, AfterTake, Looks, SetsAside, SameElsewhere, CanRecv, FirstLook;
  }

  lemma LastTurn<T, C, R>(cap: Capacity, c: Net<T, C, R>, r: nat)
    requires Receiving(cap, c, r) && CanRecv(cap, c, r) && !GoesOn(cap, c, r)
    ensures ReceivedOne(cap, c, FireRecv(cap, c, r), r, TakeIndex(WantOf(c.procs[r]), AsideOf(c, r), FlyingOf(c, r)))
    ensures Turns(WantOf(c.procs[r]), AsideOf(c, r), FlyingOf(c, r)) == 1
  {
    hide FireRecv, ReceivedOne, Get, Looks, SetsAside;
    if FirstLook(WantOf(c.procs[r]), AsideOf(c, r)) < |AsideOf(c, r)| {
      TurnFromAside(cap, c, r);
    } else {
      TurnFromLink(cap, c, r);
    }
  }

  lemma SetAside<T, C, R>(cap: Capacity, c: Net<T, C, R>, r: nat)
    requires Receiving(cap, c, r) && GoesOn(cap, c, r)
    ensures CanRecv(cap, c, r)
    ensures var want, aside, flying, c1 := WantOf(c.procs[r]), AsideOf(c, r), FlyingOf(c, r), FireRecv(cap, c, r);
            && flying != [] && Receiving(cap, c1, r) && c1.procs == c.procs && AsideOf(c1, r) == aside + [flying[0]] && FlyingOf(c1, r) == flying[1..]
            && TakeIndex(want, aside + [flying[0]], flying[1..]) == TakeIndex(want, aside, flying)
            && Turns(want, aside, flying) == 1 + Turns(want, aside + [flying[0]], flying[1..])
    ensures SameElsewhere(c, FireRecv(cap, c, r), Link(c.procs[r].source, r))
  {
    var want, aside, flying := WantOf(c.procs[r]), AsideOf(c, r), FlyingOf(c, r);
    OneTurn(cap, c, r);
    LookedInVain(want, aside, flying[0]);
    hide FireRecv, Get, AfterTake, Looks, SetsAside;
    assert aside + [flying[0]] + flying[1..] == aside + flying;
  }

  /** A receive that begins in `c1` begins in `c`, which has the same inbox. */
  lemma BeginsBefore<T, C, R>(cap: Capacity, c: Net<T, C, R>, c1: Net<T, C, R>, c': Net<T, C, R>, r: nat, k: nat)
    requires Receiving(cap, c, r) && c1.procs == c.procs && InboxOf(c1, Link(c.procs[r].source, r)) == InboxOf(c, Link(c.procs[r].source, r))
    requires SameElsewhere(c, c1, Link(c.procs[r].source, r)) && ReceivedOne(cap, c1, c', r, k)
    ensures ReceivedOne(cap, c, c', r, k)
  {
    hide Get, CanRecv, AfterTake, Without, InboxOf;
  }

  lemma SameInbox<T, C, R>(c: Net<T, C, R>, c1: Net<T, C, R>, r: nat)
    requires r < |c.procs| && (c.procs[r].Recv? || c.procs[r].Exchange?) && c1.procs == c.procs && FlyingOf(c, r) != []
    requires AsideOf(c1, r) == AsideOf(c, r) + [FlyingOf(c, r)[0]] && FlyingOf(c1, r) == FlyingOf(c, r)[1..]
    ensures InboxOf(c1, Link(c.procs[r].source, r)) == InboxOf(c, Link(c.procs[r].source, r))
  {
    hide Get;
    var aside, flying := AsideOf(c, r), FlyingOf(c, r);
    assert aside + [flying[0]] + flying[1..] == aside + flying;
  }

  /** The receive turns of one rank, repeated until it has a frame or the link is empty, are one receive: it
  takes the frame that `TakeIndex` names, or finds nothing and leaves its inbox as it is. */
  lemma {:induction false} TurnsAreOneReceive<T, C, R>(cap: Capacity, c: Net<T, C, R>, r: nat)
    requires Receiving(cap, c, r)
    ensures var want, aside, flying := WantOf(c.procs[r]), AsideOf(c, r), FlyingOf(c, r);
            var u := Repeat(Act(r, false), Turns(want, aside, flying));
            Legal(cap, c, u) && ReceivedOne(cap, c, Run(cap, c, u), r, TakeIndex(want, aside, flying))
    decreases |FlyingOf(c, r)|
  {
    hide FireRecv, ReceivedOne, TakeIndex, Turns, GoesOn, CanRecv, AsideOf, FlyingOf, WantOf;
    if GoesOn(cap, c, r) {
      SetAside(cap, c, r);
      var c1 := FireRecv(cap, c, r);
      TurnsAreOneReceive(cap, c1, r);
      var u := Repeat(Act(r, false), Turns(WantOf(c1.procs[r]), AsideOf(c1, r), FlyingOf(c1, r)));
      SameInbox(c, c1, r);
      BeginsBefore(cap, c, c1, Run(cap, c1, u), r, TakeIndex(WantOf(c1.procs[r]), AsideOf(c1, r), FlyingOf(c1, r)));
    } else if CanRecv(cap, c, r) {
      LastTurn(cap, c, r);
      assert Repeat(Act(r, false), 1)[1..] == [];
    } else {
      NoTurn(cap, c, r);
    }
  }

  /** For a tensor or a control packet this is the receive of the endpoints. */
  lemma TurnsTake<T, C, R>(cap: Capacity, c: Net<T, C, R>, r: nat)
    requires Receiving(cap, c, r) && Addressed(WantOf(c.procs[r]))
    ensures var want, link := WantOf(c.procs[r]), Link(c.procs[r].source, r);
            var u := Repeat(Act(r, false), Turns(want, AsideOf(c, r), FlyingOf(c, r)));
            var box, k := InboxOf(c, link), FirstLook(want, InboxOf(c, link));
            && Legal(cap, c, u)
            && Takes(box, InboxOf(Run(cap, c, u), link), want, |box|, if k < |box| then Ok(box[k]) else Err(TimedOut))
            && Run(cap, c, u).procs == if k < |box| then c.procs[r := AfterTake(c.procs[r], box[k])] else c.procs
  {
    var link := Link(c.procs[r].source, r);
    TurnsAreOneReceive(cap, c, r);
    TakeIndexIsLook(WantOf(c.procs[r]), Get(c.pending, link), Get(c.links, link));
    hide Legal, Run, Turns, TakeIndex, FirstLook, Get, CanRecv, AfterTake, Without;
  }
}
