/** The receiving side of the TCP transport, down to the bytes.

A stream is everything its peer will have written. The clock is a parameter: `budget` is the number of
bytes that the reads of a receive get before its deadline. `DeadlinePassed` stands for both ways of noticing
that: a read that timed out, and a deadline found expired before the next read. `ReceivedTakes` says what a receive does on a stream
that is in step with its frames: it takes the oldest matching frame, or it times out, and the time-out loses
nothing exactly when the deadline falls between two frames. A deadline inside a frame has consumed a part of
it, and the next read starts in its middle (`CutIsLossless`, `CutInLengthField`). */
module TcpEndpoints {
  import opened Options
  import opened Sequences
  import opened Network
  import opened Mailbox
  import Wire = WireCodec

  type Bytes = seq<Wire.Byte>

  datatype Packet = Packet(shape: seq<nat>, values: seq<nat>)

  /** A frame once its addresses have been checked. */
  type Item = Frame<Packet, Bytes>

  datatype TcpError = NoSuchPeer | DeadlinePassed | UnexpectedFrame | WrongRoute | Malformed(error: Wire.WireError)

  /** One connection as its reader knows it. */
  datatype Port = Port(source: nat, rank: nat, maximum: nat)

  function Content(f: Wire.WireFrame): Item {
    match f
    case Tensor(_, _, tag, shape, values) => Frame.Tensor(tag, Packet(shape, values))
    case Control(_, _, tag, payload) => Frame.Control(tag, payload)
    case BarrierArrive(_, _, generation) => Arrive(generation)
    case BarrierRelease(_, _, generation) => Release(generation)
  }

  function Contents(fs: seq<Wire.WireFrame>): (items: seq<Item>)
    ensures |items| == |fs|
  {
    if fs == [] then [] else [Content(fs[0])] + Contents(fs[1..])
  }

  predicate Routed(f: Wire.WireFrame, port: Port) {
    f.source == port.source && f.destination == port.rank
  }

  /** The stream stands at the beginning of a frame and holds whole frames of this connection. */
  predicate InStep(b: Bytes, port: Port) {
    var frames := Wire.ReadStream(b, port.maximum);
    frames.Ok? && forall i :: 0 <= i < |frames.value| ==> Routed(frames.value[i], port)
  }

  function Items(b: Bytes, port: Port): seq<Item> {
    if InStep(b, port) then Contents(Wire.ReadStream(b, port.maximum).value) else []
  }

  /** What the peer writes is in step, and holds the frames it wrote. */
  lemma WrittenIsInStep(fs: seq<Wire.WireFrame>, port: Port)
    requires port.maximum < Wire.U64 && forall i :: 0 <= i < |fs| ==> Wire.Transmittable(fs[i], port.maximum) && Routed(fs[i], port)
    ensures InStep(Wire.WriteStream(fs), port) && Items(Wire.WriteStream(fs), port) == Contents(fs)
  {
    Wire.StreamRoundTrip(fs, port.maximum);
  }

  // ---- frame boundaries ----

  /** The length of the first frame with its length field. */
  function HeadSize(b: Bytes): (n: nat)
    requires |b| >= 8
    ensures n >= 8
  {
    8 + Wire.UnLe(b[..8])
  }

  predicate HasHead(b: Bytes) {
    |b| >= 8 && HeadSize(b) <= |b|
  }

  function Tail(b: Bytes): (rest: Bytes)
    requires HasHead(b)
    ensures |rest| == |b| - HeadSize(b) < |b|
  {
    b[HeadSize(b)..]
  }

  /** How many whole frames are among the first `budget` bytes. */
  function Whole(b: Bytes, budget: nat): nat
    decreases |b|
  {
    if !HasHead(b) || HeadSize(b) > budget then 0 else 1 + Whole(Tail(b), budget - HeadSize(b))
  }

  /** The first `cut` bytes are whole frames. */
  predicate AtBoundary(b: Bytes, cut: nat)
    decreases |b|
  {
    cut == 0 || (HasHead(b) && HeadSize(b) <= cut && AtBoundary(Tail(b), cut - HeadSize(b)))
  }

  function Least(a: nat, b: nat): nat {
    if a < b then a else b
  }

  lemma WrittenHead(fs: seq<Wire.WireFrame>)
    requires fs != [] && |Wire.Encode(fs[0])| < Wire.U64
    ensures var b := Wire.WriteStream(fs);
            HasHead(b) && HeadSize(b) == 8 + |Wire.Encode(fs[0])| && Tail(b) == Wire.WriteStream(fs[1..])
  {
    Wire.Powers();
    Wire.UnLeOfLe(|Wire.Encode(fs[0])|, 8);
    Wire.StreamPieces(Wire.Encode(fs[0]), Wire.WriteStream(fs[1..]));
    hide Wire.Encode, Wire.Le, Wire.UnLe;
  }

  /** The boundaries of what a peer has written are the lengths of the first so many frames. */
  lemma {:induction false} BoundariesOfWritten(fs: seq<Wire.WireFrame>, n: nat)
    requires forall i :: 0 <= i < |fs| ==> |Wire.Encode(fs[i])| < Wire.U64
    ensures AtBoundary(Wire.WriteStream(fs), n) <==> exists k :: 0 <= k <= |fs| && n == |Wire.WriteStream(fs[..k])|
  {
    hide Wire.Encode, Wire.Le, HeadSize;
    assert |Wire.WriteStream(fs[..0])| == 0;
    if fs != [] {
      WrittenHead(fs);
      var size, b := 8 + |Wire.Encode(fs[0])|, Wire.WriteStream(fs);
      forall k | 0 < k <= |fs| ensures |Wire.WriteStream(fs[..k])| == size + |Wire.WriteStream(fs[1..][..k - 1])| {
        assert fs[..k][1..] == fs[1..][..k - 1];
      }
      if n >= size {
        BoundariesOfWritten(fs[1..], n - size);
        if j :| 0 <= j <= |fs[1..]| && n - size == |Wire.WriteStream(fs[1..][..j])| {
          assert n == |Wire.WriteStream(fs[..j + 1])|;
        }
      }
    }
  }

  lemma FirstOf(b: Bytes, port: Port)
    requires InStep(b, port) && b != []
    ensures HasHead(b) && HeadSize(b) <= 8 + port.maximum
    ensures var frame := Wire.Decode(b[8..HeadSize(b)]);
            && frame.Ok? && Routed(frame.value, port)
            && InStep(Tail(b), port) && Items(b, port) == [Content(frame.value)] + Items(Tail(b), port)
  {
    hide Wire.Decode, Wire.UnLe, Routed, Content;
    var frames := Wire.ReadStream(b, port.maximum).value;
    var rest := Wire.ReadStream(Tail(b), port.maximum);
    assert rest.Ok? && frames == [Wire.Decode(b[8..HeadSize(b)]).value] + rest.value;
    assert frames[0] == Wire.Decode(b[8..HeadSize(b)]).value && frames[1..] == rest.value;
    assert forall i :: 0 <= i < |rest.value| ==> rest.value[i] == frames[i + 1];
  }

  /** The length of the frame that carries an item. */
  function Extent(item: Item): nat {
    |Wire.Encode(match item
                 case Tensor(tag, packet) => Wire.Tensor(0, 0, tag, packet.shape, packet.values)
                 case Control(tag, payload) => Wire.Control(0, 0, tag, payload)
                 case Arrive(generation) => Wire.BarrierArrive(0, 0, generation)
                 case Release(generation) => Wire.BarrierRelease(0, 0, generation))|
  }

  function Span(items: seq<Item>): nat {
    if items == [] then 0 else 8 + Extent(items[0]) + Span(items[1..])
  }

  lemma ExtentIs(body: Bytes)
    requires Wire.Decode(body).Ok?
    ensures |body| == Extent(Content(Wire.Decode(body).value))
  {
    Wire.Canonical(body);
    hide Wire.Decode, Wire.Le, Wire.Words;
  }

  lemma {:induction false} SpanIs(b: Bytes, port: Port)
    requires InStep(b, port)
    ensures |b| == Span(Items(b, port))
    decreases |b|
  {
    if b != [] {
      FirstOf(b, port);
      ExtentIs(b[8..HeadSize(b)]);
      hide InStep, Items, Extent, Content, Wire.Decode, Wire.UnLe;
      SpanIs(Tail(b), port);
      var items := Items(b, port);
      assert items[1..] == Items(Tail(b), port);
    }
  }

  lemma {:induction false} SpanShrinks(items: seq<Item>, k: nat)
    requires k <= |items|
    ensures Span(items[k..]) <= Span(items)
  {
    hide Extent;
    if k > 0 {
      SpanShrinks(items[1..], k - 1);
      assert items[1..][k - 1..] == items[k..];
    } else {
      assert items[0..] == items;
    }
  }

  lemma {:induction false} BoundaryKeeps(b: Bytes, cut: nat, port: Port)
    requires InStep(b, port) && cut <= |b| && AtBoundary(b, cut)
    ensures InStep(b[cut..], port) && Whole(b, cut) <= |Items(b, port)| && Items(b[cut..], port) == Items(b, port)[Whole(b, cut)..]
    decreases |b|
  {
    if cut == 0 {
      assert b[0..] == b;
    } else {
      FirstOf(b, port);
      hide InStep, Items, Content, Wire.Decode, Wire.UnLe, Routed;
      var size := HeadSize(b);
      BoundaryKeeps(Tail(b), cut - size, port);
      assert Tail(b)[cut - size..] == b[cut..];
      assert Items(b, port)[1..] == Items(Tail(b), port);
    }
  }

  lemma BehindFirst<X>(all: seq<X>, later: seq<X>, k: nat)
    requires all != [] && all == [all[0]] + later && 0 < k <= |all|
    ensures all[k..] == later[k - 1..]
  {}

  lemma SliceOfTail<X>(b: seq<X>, size: nat, cut: nat)
    requires size <= cut <= |b|
    ensures b[size..][cut - size..] == b[cut..]
  {}

  lemma BoundaryBehind(b: Bytes, cut: nat)
    requires HasHead(b) && HeadSize(b) <= cut && AtBoundary(Tail(b), cut - HeadSize(b))
    ensures AtBoundary(b, cut)
  {
    hide HeadSize;
  }

  lemma {:induction false} KeepsBoundary(b: Bytes, cut: nat, k: nat, port: Port)
    requires InStep(b, port) && cut <= |b| && k <= |Items(b, port)|
    requires InStep(b[cut..], port) && Items(b[cut..], port) == Items(b, port)[k..]
    ensures AtBoundary(b, cut)
    decreases |b|
  {
    SpanIs(b, port);
    SpanIs(b[cut..], port);
    var items := Items(b, port);
    if k == 0 {
      hide InStep, Items, Span;
      assert items[0..] == items;
      assert cut == 0;
    } else {
      assert b != [];
      FirstOf(b, port);
      SpanIs(Tail(b), port);
      hide *;
      var size, later := HeadSize(b), Items(Tail(b), port);
      assert |Tail(b)| == |b| - size;
      BehindFirst(items, later, k);
      SpanShrinks(later, k - 1);
      assert cut >= size;
      SliceOfTail(b, size, cut);
      assert b[cut..] == Tail(b)[cut - size..] by {
        TailIs(b);
      }
      KeepsBoundary(Tail(b), cut - size, k - 1, port);
      BoundaryBehind(b, cut);
    }
  }

  lemma TailIs(b: Bytes)
    requires HasHead(b)
    ensures HeadSize(b) <= |b| && Tail(b) == b[HeadSize(b)..]
  {}

  /** After a read cut off behind `cut` bytes, the stream goes on with the remaining frames, whichever they
  are, exactly when the cut is a frame boundary. */
  lemma CutIsLossless(b: Bytes, cut: nat, port: Port)
    requires InStep(b, port) && cut <= |b|
    ensures AtBoundary(b, cut) <==>
            InStep(b[cut..], port) && exists k :: 0 <= k <= |Items(b, port)| && Items(b[cut..], port) == Items(b, port)[k..]
  {
    if AtBoundary(b, cut) {
      BoundaryKeeps(b, cut, port);
    }
    if k :| 0 <= k <= |Items(b, port)| && InStep(b[cut..], port) && Items(b[cut..], port) == Items(b, port)[k..] {
      KeepsBoundary(b, cut, k, port);
    }
  }

  lemma {:induction false} UnLeAtLeast(b: Bytes, i: nat)
    requires i < |b|
    ensures Wire.UnLe(b) >= b[i] * Wire.Power(i)
  {
    if i > 0 {
      UnLeAtLeast(b[1..], i - 1);
    }
  }

  lemma HeaderBytes(body: Bytes)
    requires Wire.Decode(body).Ok?
    ensures |body| >= 16 && body[..4] == Wire.MAGIC && body[4] == 2 && 1 <= body[6]
  {
    Wire.LeOfUnLe(body[4..6]);
    hide Wire.DecodeTensor, Wire.DecodeControl, Wire.UnLe;
    assert Wire.Le(2, 2)[0] == 2;
    assert body[4] == body[4..6][0];
  }

  lemma ShiftedField(b: Bytes, cut: nat)
    requires |b| >= 24 && 0 < cut < 8 && b[8..12] == Wire.MAGIC && b[12] == 2 && 1 <= b[14]
    ensures Wire.UnLe(b[cut..][..8]) >= 0x2_0000_0000_0000
  {
    var field := b[cut..][..8];
    var at := if cut == 6 then 6 else 7;
    UnLeAtLeast(field, at);
    Wire.Powers();
    assert Wire.Power(7) == 256 * Wire.Power(6) && Wire.Power(8) == 256 * Wire.Power(7);
    hide Wire.UnLe, Wire.Power;
    assert field[at] == b[cut + at];
    if cut <= 4 {
      assert b[7 + cut] == b[8..12][cut - 1];
    }
  }

  /** A deadline inside a length field costs the connection: the next length that is read is larger than any
  frame, because the bytes of the header have moved into its upper half. */
  lemma CutInLengthField(b: Bytes, cut: nat, port: Port)
    requires InStep(b, port) && b != [] && 0 < cut < 8 && port.maximum < 0x2_0000_0000_0000
    ensures Wire.ReadStream(b[cut..], port.maximum) == Err(Wire.FrameTooLong)
  {
    FirstOf(b, port);
    var body := b[8..HeadSize(b)];
    HeaderBytes(body);
    hide Wire.Decode, Wire.UnLe;
    assert |b| >= 24 && b[8..12] == body[..4] && b[12] == body[4] && b[14] == body[6];
    ShiftedField(b, cut);
  }

  // ---- reading ----

  datatype Reading = Reading(result: Result<Item, TcpError>, consumed: nat)

  /** One frame read under a deadline that leaves time for `budget` more bytes. */
  function ReadOne(b: Bytes, budget: nat, port: Port): (r: Reading)
    ensures r.consumed <= |b| && r.consumed <= budget
    ensures r.result.Ok? ==> r.consumed > 0
  {
    var here := Least(budget, |b|);
    if here < 8 then Reading(Err(DeadlinePassed), here)
    else if HeadSize(b) > 8 + port.maximum then Reading(Err(Malformed(Wire.FrameTooLong)), 8)
    else if here < HeadSize(b) then Reading(Err(DeadlinePassed), here)
    else Reading(Checked(Wire.Decode(b[8..HeadSize(b)]), port), HeadSize(b))
  }

  function Checked(frame: Result<Wire.WireFrame, Wire.WireError>, port: Port): Result<Item, TcpError> {
    if frame.Err? then Err(Malformed(frame.error))
    else if Routed(frame.value, port) then Ok(Content(frame.value))
    else Err(WrongRoute)
  }

  /** One read succeeds exactly when a length within the limit and as many bytes arrive in time, which decode to a
  frame from the peer to this rank; it consumes just those. On any bytes and for any deadline. */
  lemma ReadsExactly(b: Bytes, budget: nat, port: Port)
    ensures var r := ReadOne(b, budget, port);
            && (r.result.Ok? <==>
                  && |b| >= 8 && HeadSize(b) <= |b| && HeadSize(b) <= budget && Wire.UnLe(b[..8]) <= port.maximum
                  && var frame := Wire.Decode(b[8..HeadSize(b)]);
                     frame.Ok? && frame.value.source == port.source && frame.value.destination == port.rank)
            && (r.result.Ok? ==> r.result.value == Content(Wire.Decode(b[8..HeadSize(b)]).value) && r.consumed == HeadSize(b))
            && (r.result == Err(DeadlinePassed) ==> r.consumed == Least(budget, |b|) && (|b| < 8 || budget < 8 || Least(budget, |b|) < HeadSize(b)))
  {
    hide Wire.Decode, Wire.UnLe, Content;
  }

  datatype Drain = Drain(result: Result<Item, TcpError>, aside: seq<Item>, rest: Bytes)

  /** Frames read until one that the receive does not set aside, an error, or the deadline. */
  function DrainUntil(want: Want, b: Bytes, budget: nat, port: Port): (d: Drain)
    decreases |b|
  {
    var r := ReadOne(b, budget, port);
    if r.result.Ok? && SetsAside(want, r.result.value) then
      var later := DrainUntil(want, b[r.consumed..], budget - r.consumed, port);
      later.(aside := [r.result.value] + later.aside)
    else Drain(r.result, [], b[r.consumed..])
  }

  /** What a receive returns, and the pending queue and the stream it leaves. */
  datatype Outcome = Outcome(result: Result<Item, TcpError>, pending: seq<Item>, stream: Bytes)

  function OutcomeOf(want: Want, aside: seq<Item>, b: Bytes, budget: nat, port: Port): Outcome {
    var i := FirstLook(want, aside);
    if i < |aside| then Outcome(Ok(aside[i]), Without(aside, i), b)
    else
      var d := DrainUntil(want, b, budget, port);
      Outcome(d.result, aside + d.aside, d.rest)
  }

  // ---- receives on a stream in step ----

  lemma ReadsFirst(b: Bytes, budget: nat, port: Port)
    requires InStep(b, port) && b != []
    ensures HasHead(b) && Items(b, port) != []
    ensures ReadOne(b, budget, port) == if HeadSize(b) <= budget then Reading(Ok(Items(b, port)[0]), HeadSize(b)) else Reading(Err(DeadlinePassed), Least(budget, |b|))
  {
    FirstOf(b, port);
    hide InStep, Items, Content, Wire.Decode, Wire.UnLe, Routed;
  }

  lemma DrainAhead(want: Want, b: Bytes, budget: nat, port: Port)
    ensures var r, d := ReadOne(b, budget, port), DrainUntil(want, b, budget, port);
            if r.result.Ok? && SetsAside(want, r.result.value)
            then d == (var later := DrainUntil(want, b[r.consumed..], budget - r.consumed, port); Drain(later.result, [r.result.value] + later.aside, later.rest))
            else d == Drain(r.result, [], b[r.consumed..])
  {
    hide ReadOne, SetsAside;
  }

  lemma DrainUnfolds(want: Want, b: Bytes, budget: nat, port: Port)
    requires InStep(b, port) && b != []
    ensures HasHead(b) && Items(b, port) != []
    ensures var first, later := Items(b, port)[0], if HeadSize(b) <= budget then DrainUntil(want, Tail(b), budget - HeadSize(b), port) else Drain(Err(DeadlinePassed), [], []);
            DrainUntil(want, b, budget, port)
            == if HeadSize(b) > budget then Drain(Err(DeadlinePassed), [], b[Least(budget, |b|)..])
               else if SetsAside(want, first) then Drain(later.result, [first] + later.aside, later.rest)
               else Drain(Ok(first), [], Tail(b))
  {
    hide InStep, Items, ReadOne, DrainUntil, SetsAside, HeadSize;
    ReadsFirst(b, budget, port);
    DrainAhead(want, b, budget, port);
  }

  /** What draining a stream in step gives, in terms of its frames, of how many of them arrive whole, and of
  what is left when the deadline passes. */
  predicate Drains(want: Want, d: Drain, all: seq<Item>, n: nat, cut: Bytes, port: Port) {
    var k := FirstStop(want, all);
    && n <= |all|
    && (k < n ==> d.result == Ok(all[k]) && d.aside == all[..k] && InStep(d.rest, port) && Items(d.rest, port) == all[k + 1..])
    && (k >= n ==> d == Drain(Err(DeadlinePassed), all[..n], cut))
  }

  lemma DrainsOneMore(want: Want, later: Drain, all: seq<Item>, n: nat, cut: Bytes, port: Port)
    requires all != [] && SetsAside(want, all[0]) && Drains(want, later, all[1..], n, cut, port)
    ensures Drains(want, Drain(later.result, [all[0]] + later.aside, later.rest), all, n + 1, cut, port)
  {
    hide InStep, Items, SetsAside;
    var k, rest := FirstStop(want, all[1..]), all[1..];
    assert all == [all[0]] + rest;
    assert k + 1 == FirstStop(want, all);
    assert all[..k + 1] == [all[0]] + rest[..k] && all[..n + 1] == [all[0]] + rest[..n];
  }

  lemma DrainsFirst(want: Want, rest: Bytes, all: seq<Item>, n: nat, cut: Bytes, port: Port)
    requires all != [] && !SetsAside(want, all[0]) && 0 < n <= |all| && InStep(rest, port) && Items(rest, port) == all[1..]
    ensures Drains(want, Drain(Ok(all[0]), [], rest), all, n, cut, port)
  {
    hide InStep, Items, SetsAside;
    assert all[..0] == [];
  }

  lemma {:induction false} WholeFits(b: Bytes, budget: nat, port: Port)
    requires InStep(b, port)
    ensures Whole(b, budget) <= |Items(b, port)|
    decreases |b|
  {
    if b != [] {
      FirstOf(b, port);
      hide InStep, Items, HeadSize, Content, Wire.Decode, Routed;
      if HeadSize(b) <= budget {
        WholeFits(Tail(b), budget - HeadSize(b), port);
      }
    }
  }

  lemma BehindHead(b: Bytes, budget: nat)
    requires HasHead(b) && HeadSize(b) <= budget
    ensures Whole(b, budget) == 1 + Whole(Tail(b), budget - HeadSize(b))
    ensures Tail(b)[Least(budget - HeadSize(b), |Tail(b)|)..] == b[Least(budget, |b|)..]
  {
    hide Wire.UnLe;
  }

  lemma DrainsNothing(want: Want, b: Bytes, budget: nat, port: Port)
    requires InStep(b, port) && (b == [] || (HasHead(b) && HeadSize(b) > budget))
    ensures Drains(want, DrainUntil(want, b, budget, port), Items(b, port), Whole(b, budget), b[Least(budget, |b|)..], port)
  {
    if b != [] {
      DrainUnfolds(want, b, budget, port);
      hide InStep, Items, DrainUntil, HeadSize, FirstStop;
      assert Items(b, port)[..0] == [];
    }
  }

  lemma {:induction false} DrainsInStep(want: Want, b: Bytes, budget: nat, port: Port)
    requires InStep(b, port)
    ensures Drains(want, DrainUntil(want, b, budget, port), Items(b, port), Whole(b, budget), b[Least(budget, |b|)..], port)
    decreases |b|
  {
    if b != [] {
      FirstOf(b, port);
    }
    if b == [] || HeadSize(b) > budget {
      DrainsNothing(want, b, budget, port);
    } else {
      WholeFits(b, budget, port);
      DrainUnfolds(want, b, budget, port);
      BehindHead(b, budget);
      hide *;
      var size, all, cut := HeadSize(b), Items(b, port), b[Least(budget, |b|)..];
      assert all[1..] == Items(Tail(b), port);
      if SetsAside(want, all[0]) {
        DrainsInStep(want, Tail(b), budget - size, port);
        DrainsOneMore(want, DrainUntil(want, Tail(b), budget - size, port), all, Whole(Tail(b), budget - size), cut, port);
      } else {
        DrainsFirst(want, Tail(b), all, Whole(b, budget), cut, port);
      }
    }
  }

  /** What a receive does on a connection in step. With `box` its pending frames and the frames of the stream,
  it takes frame `k` if that is pending or arrives whole before the deadline, and removes just that frame.
  Otherwise it times out, and then nothing is lost if and only if the deadline is at a frame boundary. */
  predicate TakesInStep(box: seq<Item>, k: nat, reach: nat, boundary: bool, outcome: Outcome, port: Port) {
    var after := outcome.pending + Items(outcome.stream, port);
    if k < |box| && k < reach
    then outcome.result == Ok(box[k]) && InStep(outcome.stream, port) && after == Without(box, k)
    else outcome.result == Err(DeadlinePassed) && (InStep(outcome.stream, port) && after == box <==> boundary)
  }

  lemma {:induction false} ClippedBoundary(b: Bytes, cut: nat, budget: nat)
    requires cut == Least(budget, |b|)
    ensures Whole(b, cut) == Whole(b, budget)
    decreases |b|
  {
    if HasHead(b) && HeadSize(b) <= budget {
      hide HeadSize;
      ClippedBoundary(Tail(b), cut - HeadSize(b), budget - HeadSize(b));
    }
  }

  lemma KeptExactly<X>(aside: seq<X>, all: seq<X>, n: nat, rest: seq<X>)
    requires n <= |all|
    ensures aside + all[..n] + rest == aside + all <==> rest == all[n..]
  {
    var read := aside + all[..n];
    if read + rest == aside + all {
      assert rest == (read + rest)[|read|..] == (aside + all)[|read|..] == all[n..];
    } else {
      assert read + all[n..] == aside + all;
    }
  }

  lemma TakesOnTimeout(aside: seq<Item>, b: Bytes, budget: nat, port: Port, k: nat)
    requires InStep(b, port) && k >= |aside| + Whole(b, budget)
    ensures var n, cut := Whole(b, budget), Least(budget, |b|);
            && n <= |Items(b, port)|
            && TakesInStep(aside + Items(b, port), k, |aside| + n, AtBoundary(b, cut), Outcome(Err(DeadlinePassed), aside + Items(b, port)[..n], b[cut..]), port)
  {
    hide InStep, Items, Whole, AtBoundary, Content, Without;
    var all, n, cut := Items(b, port), Whole(b, budget), Least(budget, |b|);
    WholeFits(b, budget, port);
    ClippedBoundary(b, cut, budget);
    KeptExactly(aside, all, n, Items(b[cut..], port));
    if AtBoundary(b, cut) {
      BoundaryKeeps(b, cut, port);
    }
    if InStep(b[cut..], port) && Items(b[cut..], port) == all[n..] {
      KeepsBoundary(b, cut, n, port);
    }
  }

  /** Every receive on a connection in step, whatever it looks for and whenever its deadline is. */
  lemma ReceivedTakes(want: Want, aside: seq<Item>, b: Bytes, budget: nat, port: Port)
    requires InStep(b, port)
    ensures TakesInStep(aside + Items(b, port), TakeIndex(want, aside, Items(b, port)), |aside| + Whole(b, budget),
                  AtBoundary(b, Least(budget, |b|)), OutcomeOf(want, aside, b, budget, port), port)
  {
    var all, i, k, n := Items(b, port), FirstLook(want, aside), FirstStop(want, Items(b, port)), Whole(b, budget);
    hide InStep, Items, Whole, AtBoundary, DrainUntil, FirstLook, FirstStop, Without;
    if i < |aside| {
      WithoutInHead(aside, all, i);
    } else {
      DrainsInStep(want, b, budget, port);
      if k < n {
        WithoutInTail(aside, all, k);
      } else {
        TakesOnTimeout(aside, b, budget, port, |aside| + k);
      }
    }
  }

  /** The same for a receive of a tensor or a control packet: the frame it takes is the oldest match. */
  predicate OldestInStep(want: Want, aside: seq<Item>, b: Bytes, budget: nat, outcome: Outcome, port: Port) {
    var box := aside + Items(b, port);
    TakesInStep(box, FirstLook(want, box), |aside| + Whole(b, budget), AtBoundary(b, Least(budget, |b|)), outcome, port)
  }

  lemma ReceivedOldest(want: Want, aside: seq<Item>, b: Bytes, budget: nat, port: Port)
    requires InStep(b, port) && Addressed(want)
    ensures OldestInStep(want, aside, b, budget, OutcomeOf(want, aside, b, budget, port), port)
  {
    hide TakesInStep, TakeIndex, FirstLook, OutcomeOf, InStep, Items, Whole, AtBoundary;
    ReceivedTakes(want, aside, b, budget, port);
    TakeIndexIsLook(want, aside, Items(b, port));
  }

  // ---- the endpoint ----

  function BarrierWant(arrive: bool, generation: nat): Want {
    if arrive then WantArrive(generation) else WantRelease(generation)
  }

  /** A barrier receive accepts exactly the frame it waits for. */
  function Verdict(want: Want, taken: Result<Item, TcpError>): Result<(), TcpError> {
    if taken.Err? then Err(taken.error)
    else if Exact(want, taken.value) then Ok(())
    else Err(UnexpectedFrame)
  }

  lemma VerdictIs(arrive: bool, generation: nat, taken: Result<Item, TcpError>)
    ensures var verdict := Verdict(BarrierWant(arrive, generation), taken);
            && (verdict.Ok? <==> taken == Ok(if arrive then Arrive(generation) else Release(generation)))
            && (verdict.Err? ==> verdict.error == if taken.Err? then taken.error else UnexpectedFrame)
  {}

  class TcpEndpoint {
    const rank: nat
    const size: nat
    const maximum: nat
    var pending: seq<seq<Item>>
    var streams: seq<Bytes>

    ghost predicate Valid()
      reads this
    {
      rank < size == |pending| == |streams|
    }

    function PortOf(source: nat): Port {
      Port(source, rank, maximum)
    }

    constructor (rank: nat, size: nat, maximum: nat)
      requires rank < size
      ensures Valid() && this.rank == rank && this.size == size && this.maximum == maximum
      ensures forall s :: 0 <= s < size ==> pending[s] == [] && streams[s] == []
    {
      this.rank, this.size, this.maximum := rank, size, maximum;
      pending, streams := seq(size, _ => []), seq(size, _ => []);
    }

    /** `read_exact`: `n` bytes, or as many as arrive in time. */
    method ReadExact(source: nat, n: nat, budget: nat) returns (bytes: Option<Bytes>, left: nat)
      requires Valid() && source < size
      modifies this`streams
      ensures var b := old(streams)[source];
              if n <= Least(budget, |b|)
              then bytes == Some(b[..n]) && streams == old(streams)[source := b[n..]] && left == budget - n
              else bytes == None && streams == old(streams)[source := b[Least(budget, |b|)..]]
    {
      var b := streams[source];
      var taken := if n <= Least(budget, |b|) then n else Least(budget, |b|);
      streams := streams[source := b[taken..]];
      left := budget - taken;
      bytes := if taken == n then Some(b[..n]) else None;
    }

    /** `read_from` with `read_wire`: the length, the body, and the check of both addresses. */
    method ReadFrom(source: nat, budget: nat) returns (result: Result<Item, TcpError>, left: nat)
      requires Valid() && source < size
      modifies this`streams
      ensures var r := ReadOne(old(streams)[source], budget, PortOf(source));
              && result == r.result && streams == old(streams)[source := old(streams)[source][r.consumed..]]
              && (result.Ok? ==> left == budget - r.consumed)
    {
      hide Wire.Decode, Wire.UnLe, Routed, Content;
      ghost var b := streams[source];
      var field, later := ReadExact(source, 8, budget);
      if field.None? {
        return Err(DeadlinePassed), 0;
      }
      var length := Wire.UnLe(field.value);
      if length > maximum {
        return Err(Malformed(Wire.FrameTooLong)), 0;
      }
      var body;
      body, left := ReadExact(source, length, later);
      if body.None? {
        assert streams[source] == b[Least(budget, |b|)..];
        return Err(DeadlinePassed), 0;
      }
      assert body.value == b[8..8 + length] && b[8..][length..] == b[8 + length..];
      var frame := Wire.DecodeWire(body.value);
      result := Checked(frame, PortOf(source));
    }

    /** The receive loop of `recv` and `recv_control`: reads frames until a match, setting the others aside. */
    method DrainFor(source: nat, want: Want, budget: nat) returns (result: Result<Item, TcpError>)
      requires Valid() && source < size && Addressed(want)
      modifies this`pending, this`streams
      ensures var d := DrainUntil(want, old(streams)[source], budget, PortOf(source));
              && result == d.result && streams == old(streams)[source := d.rest]
              && pending == old(pending)[source := old(pending)[source] + d.aside]
    {
      hide ReadOne, DrainUntil;
      ghost var d, before, aside := DrainUntil(want, streams[source], budget, PortOf(source)), pending[source], [];
      var left := budget;
      assert before + aside == before;
      while true
        invariant Valid() && streams == old(streams)[source := streams[source]] && pending == old(pending)[source := before + aside]
        invariant var rest := DrainUntil(want, streams[source], left, PortOf(source));
                  d.result == rest.result && d.aside == aside + rest.aside && d.rest == rest.rest
        decreases |streams[source]|
      {
        DrainAhead(want, streams[source], left, PortOf(source));
        var item;
        item, left := ReadFrom(source, left);
        if item.Err? || Exact(want, item.value) {
          assert aside + [] == aside;
          return item;
        }
        assert before + aside + [item.value] == before + (aside + [item.value]);
        pending := pending[source := pending[source] + [item.value]];
        aside := aside + [item.value];
      }
    }

    /** The loop of `recv_barrier`: sets tensors aside until another frame turns up. */
    method DrainBarrier(source: nat, want: Want, budget: nat) returns (result: Result<Item, TcpError>)
      requires Valid() && source < size && !Addressed(want)
      modifies this`pending, this`streams
      ensures var d := DrainUntil(want, old(streams)[source], budget, PortOf(source));
              && result == d.result && streams == old(streams)[source := d.rest]
              && pending == old(pending)[source := old(pending)[source] + d.aside]
    {
      hide ReadOne, DrainUntil;
      ghost var d, before, aside := DrainUntil(want, streams[source], budget, PortOf(source)), pending[source], [];
      var left := budget;
      assert before + aside == before;
      while true
        invariant Valid() && streams == old(streams)[source := streams[source]] && pending == old(pending)[source := before + aside]
        invariant var rest := DrainUntil(want, streams[source], left, PortOf(source));
                  d.result == rest.result && d.aside == aside + rest.aside && d.rest == rest.rest
        decreases |streams[source]|
      {
        DrainAhead(want, streams[source], left, PortOf(source));
        var item;
        item, left := ReadFrom(source, left);
        if item.Err? || !item.value.Tensor? {
          assert aside + [] == aside;
          return item;
        }
        assert before + aside + [item.value] == before + (aside + [item.value]);
        pending := pending[source := pending[source] + [item.value]];
        aside := aside + [item.value];
      }
    }

    /** The oldest pending frame that a receive may take. */
    method TakePending(source: nat, want: Want) returns (taken: Option<Item>)
      requires Valid() && source < size
      modifies this`pending
      ensures var i := FirstLook(want, old(pending)[source]);
              && (taken.Some? <==> i < |old(pending)[source]|)
              && (taken.Some? ==> taken.value == old(pending)[source][i] && pending == old(pending)[source := Without(old(pending)[source], i)])
              && (taken.None? ==> pending == old(pending))
    {
      hide FirstLook, Without;
      var i := FirstLook(want, pending[source]);
      if i == |pending[source]| {
        return None;
      }
      taken := Some(pending[source][i]);
      pending := pending[source := Without(pending[source], i)];
    }

    /** `recv` and `recv_control`: on a connection in step the oldest matching frame, wherever it is, or a
    time-out that loses nothing exactly when the deadline is at a frame boundary. */
    method Receive(source: nat, want: Want, budget: nat) returns (result: Result<Item, TcpError>)
      requires Valid() && Addressed(want)
      modifies this`pending, this`streams
      ensures Valid()
      ensures source >= size || source == rank ==> result == Err(NoSuchPeer) && unchanged(this)
      ensures source < size && source != rank ==>
                var before, b, port := old(pending)[source], old(streams)[source], PortOf(source);
                var outcome := OutcomeOf(want, before, b, budget, port);
                && result == outcome.result
                && pending == old(pending)[source := outcome.pending] && streams == old(streams)[source := outcome.stream]
                && (InStep(b, port) ==> OldestInStep(want, before, b, budget, outcome, port))
    {
      if source >= size || source == rank {
        return Err(NoSuchPeer);
      }
      hide FirstLook, DrainUntil, InStep, OldestInStep, Without;
      if InStep(streams[source], PortOf(source)) {
        ReceivedOldest(want, pending[source], streams[source], budget, PortOf(source));
      }
      var taken := TakePending(source, want);
      if taken.Some? {
        return Ok(taken.value);
      }
      result := DrainFor(source, want, budget);
    }

    /** `recv_barrier`: takes one barrier frame, setting tensors aside in order; a control frame that gets in
    the way and a frame of another generation are consumed and reported. */
    method ReceiveBarrier(source: nat, arrive: bool, generation: nat, budget: nat) returns (result: Result<(), TcpError>)
      requires Valid() && source < size && source != rank
      modifies this`pending, this`streams
      ensures Valid()
      ensures var want, before, b, port := BarrierWant(arrive, generation), old(pending)[source], old(streams)[source], PortOf(source);
              var outcome, all := OutcomeOf(want, before, b, budget, port), Items(b, port);
              && (result.Ok? <==> outcome.result == Ok(if arrive then Arrive(generation) else Release(generation)))
              && (result.Err? ==> result.error == if outcome.result.Err? then outcome.result.error else UnexpectedFrame)
              && pending == old(pending)[source := outcome.pending] && streams == old(streams)[source := outcome.stream]
              && (InStep(b, port) ==>
                    TakesInStep(before + all, TakeIndex(want, before, all), |before| + Whole(b, budget), AtBoundary(b, Least(budget, |b|)), outcome, port))
    {
      hide FirstLook, DrainUntil, InStep, Items, Whole, AtBoundary, Without, TakesInStep, TakeIndex, Verdict;
      var want := BarrierWant(arrive, generation);
      if InStep(streams[source], PortOf(source)) {
        ReceivedTakes(want, pending[source], streams[source], budget, PortOf(source));
      }
      var taken := TakePending(source, want);
      if taken.Some? {
        VerdictIs(arrive, generation, Ok(taken.value));
        return Verdict(want, Ok(taken.value));
      }
      var drained := DrainBarrier(source, want, budget);
      VerdictIs(arrive, generation, drained);
      return Verdict(want, drained);
    }
  }
}
