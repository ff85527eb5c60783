/** Ranks that exchange tagged frames over FIFO links, as the transports do.

A rank is a deterministic program (`Proc`) whose only effects are sends and receives. A link
is one direction of one connection; it keeps frames in order and holds at most `Capacity`
frames. A receive that meets a frame it is not looking for puts it aside, in order, in the
pending queue of that source, exactly as the receive loops of `in_memory.rs` and `tcp.rs` do.

Main results. `EverySchedule`: when the ranks can finish by handing frames over one at a
time, every schedule of the asynchronous system, whatever the capacity of its links,
can be continued to that same end, has exactly the steps those frames take, and cannot get stuck before it.
*/
module Network {
  import opened Options

  /** One frame on the wire: tensor, application control, or one half of the TCP barrier. */
  datatype Frame<T, C> =
    | Tensor(tag: nat, tensor: T)
    | Control(tag: nat, control: C)
    | Arrive(generation: nat)
    | Release(generation: nat)

  /** What a receive is looking for. */
  datatype Want =
    | WantTensor(tag: nat)
    | WantControl(tag: nat)
    | WantArrive(generation: nat)
    | WantRelease(generation: nat)

  /** A rank program. `Exchange` is one send and one tensor receive running side by side. */
  datatype Proc<!T, !C, R> =
    | Done(result: R)
    | Failed
    | Send(destination: nat, frame: Frame<T, C>, next: Proc<T, C, R>)
    | Recv(source: nat, want: Want, resume: Frame<T, C> -> Proc<T, C, R>)
    | Exchange(destination: nat, frame: Frame<T, C>, source: nat, tag: nat, resume: Frame<T, C> -> Proc<T, C, R>)

  datatype Link = Link(from: nat, to: nat)

  /** Room on a link. `AtMost(0)` is a link whose sender waits until the receiver reads, as with a
  payload larger than the socket buffers. */
  datatype Capacity = Unbounded | AtMost(frames: nat)

  type Queues<T, C> = map<Link, seq<Frame<T, C>>>

  /** The whole world: one program per rank, the frames in flight, and the frames put aside. */
  datatype Net<!T, !C, R> = Net(procs: seq<Proc<T, C, R>>, links: Queues<T, C>, pending: Queues<T, C>)

  /** One half of a rank: its sending side or its receiving side takes a step. */
  datatype Act = Act(rank: nat, sending: bool)

  /** What one turn of a receive loop did: the frame it accepted, if any, the frames set aside after
  it, and whether it read a frame off the link. */
  datatype Drawn<T, C> = Drawn(taken: Option<Frame<T, C>>, aside: seq<Frame<T, C>>, read: bool)

  // ---- queues ----

  function Get<T, C>(q: Queues<T, C>, link: Link): seq<Frame<T, C>> {
    if link in q then q[link] else []
  }

  /** Empty queues are not stored, so a quiet network is the empty map. */
  function Put<T, C>(q: Queues<T, C>, link: Link, frames: seq<Frame<T, C>>): Queues<T, C> {
    if frames == [] then q - {link} else q[link := frames]
  }

  // ---- matching ----

  /** The frame a receive may take out of the pending queue. */
  predicate Looks<T, C>(want: Want, frame: Frame<T, C>) {
    match want
    case WantTensor(tag) => frame.Tensor? && frame.tag == tag
    case WantControl(tag) => frame.Control? && frame.tag == tag
    case _ => frame.Arrive? || frame.Release?
  }

  /** The frame is the one the receive was waiting for. */
  predicate Exact<T, C>(want: Want, frame: Frame<T, C>) {
    match want
    case WantTensor(tag) => frame.Tensor? && frame.tag == tag
    case WantControl(tag) => frame.Control? && frame.tag == tag
    case WantArrive(g) => frame == Arrive(g)
    case WantRelease(g) => frame == Release(g)
  }

  /** A frame read off the link that the receive keeps for later instead of failing. */
  predicate SetsAside<T, C>(want: Want, frame: Frame<T, C>) {
    match want
    case WantTensor(tag) => !Exact(want, frame)
    case WantControl(tag) => !Exact(want, frame)
    case _ => frame.Tensor?
  }

  /** Position of the oldest pending frame the receive may take, or the length when there is none. */
  function FirstLook<T, C>(want: Want, frames: seq<Frame<T, C>>): (i: nat)
    ensures i <= |frames|
    ensures i < |frames| ==> Looks(want, frames[i])
    ensures forall j :: 0 <= j < i ==> !Looks(want, frames[j])
  {
    if frames == [] then 0
    else if Looks(want, frames[0]) then 0
    else 1 + FirstLook(want, frames[1..])
  }

  // ---- steps ----

  predicate Room(cap: Capacity, used: nat) {
    cap.Unbounded? || used < cap.frames
  }

  predicate CanSend<T, C, R>(cap: Capacity, c: Net<T, C, R>, rank: nat) {
    && rank < |c.procs|
    && (c.procs[rank].Send? || c.procs[rank].Exchange?)
    && Room(cap, |Get(c.links, Link(rank, c.procs[rank].destination))|)
  }

  function WantOf<T, C, R>(p: Proc<T, C, R>): Want
    requires p.Recv? || p.Exchange?
  {
    if p.Recv? then p.want else WantTensor(p.tag)
  }

  predicate Direct(cap: Capacity) {
    cap == AtMost(0)
  }

  /** The frame rank `s` is waiting to hand to rank `d`, if it is. */
  function Offer<T, C, R>(procs: seq<Proc<T, C, R>>, s: nat, d: nat): seq<Frame<T, C>> {
    if s < |procs| && s != d && (procs[s].Send? || procs[s].Exchange?) && procs[s].destination == d then [procs[s].frame] else []
  }

  /** What rank `d` can read from rank `s` now, oldest frame first. */
  function Readable<T, C, R>(cap: Capacity, c: Net<T, C, R>, s: nat, d: nat): seq<Frame<T, C>> {
    if Direct(cap) then Offer(c.procs, s, d) else Get(c.links, Link(s, d))
  }

  predicate CanRecv<T, C, R>(cap: Capacity, c: Net<T, C, R>, rank: nat) {
    && rank < |c.procs|
    && (c.procs[rank].Recv? || c.procs[rank].Exchange?)
    && var p, aside := c.procs[rank], Get(c.pending, Link(c.procs[rank].source, rank));
       || FirstLook(WantOf(p), aside) < |aside|
       || Readable(cap, c, p.source, rank) != []
  }

  predicate Enabled<T, C, R>(cap: Capacity, c: Net<T, C, R>, a: Act) {
    if a.sending then CanSend(cap, c, a.rank) else CanRecv(cap, c, a.rank)
  }

  /** The program after its send has gone out. */
  function AfterSend<T, C, R>(p: Proc<T, C, R>): Proc<T, C, R>
    requires p.Send? || p.Exchange?
  {
    if p.Send? then p.next else Recv(p.source, WantTensor(p.tag), p.resume)
  }

  /** The program after its receive has taken `frame` as the frame it looks for. */
  function AfterTake<T, C, R>(p: Proc<T, C, R>, frame: Frame<T, C>): Proc<T, C, R>
    requires p.Recv? || p.Exchange?
  {
    if p.Exchange? then Send(p.destination, p.frame, p.resume(frame))
    else if Exact(p.want, frame) then p.resume(frame)
    else Failed
  }

  function FireSend<T, C, R>(cap: Capacity, c: Net<T, C, R>, rank: nat): Net<T, C, R>
    requires CanSend(cap, c, rank)
  {
    var p := c.procs[rank];
    var link := Link(rank, p.destination);
    Net(c.procs[rank := AfterSend(p)], Put(c.links, link, Get(c.links, link) + [p.frame]), c.pending)
  }

  /** One turn of the receive loop: take from pending, else read one frame off the link. */
  function Draw<T, C>(want: Want, aside: seq<Frame<T, C>>, flying: seq<Frame<T, C>>): (d: Drawn<T, C>)
    requires FirstLook(want, aside) < |aside| || flying != []
    ensures want.WantTensor? && d.taken.Some? ==> Exact(want, d.taken.value)
  {
    var i := FirstLook(want, aside);
    if i < |aside| then Drawn(Some(aside[i]), aside[..i] + aside[i + 1..], false)
    else if SetsAside(want, flying[0]) then Drawn(None, aside + [flying[0]], true)
    else Drawn(Some(flying[0]), aside, true)
  }

  function DrawOf<T, C, R>(cap: Capacity, c: Net<T, C, R>, rank: nat): (d: Drawn<T, C>)
    requires CanRecv(cap, c, rank)
    ensures WantOf(c.procs[rank]).WantTensor? && d.taken.Some? ==> Exact(WantOf(c.procs[rank]), d.taken.value)
  {
    var p := c.procs[rank];
    Draw(WantOf(p), Get(c.pending, Link(p.source, rank)), Readable(cap, c, p.source, rank))
  }

  /** The programs once the frame read has left its sender: on a direct link that completes the send. */
  function Unblocked<T, C, R>(cap: Capacity, c: Net<T, C, R>, rank: nat): (procs: seq<Proc<T, C, R>>)
    requires CanRecv(cap, c, rank)
    ensures |procs| == |c.procs|
  {
    var s := c.procs[rank].source;
    if Direct(cap) && DrawOf(cap, c, rank).read then c.procs[s := AfterSend(c.procs[s])] else c.procs
  }

  /** The link once the frame read has left it. */
  function Drained<T, C, R>(cap: Capacity, c: Net<T, C, R>, rank: nat): seq<Frame<T, C>>
    requires CanRecv(cap, c, rank)
  {
    var flying := Get(c.links, Link(c.procs[rank].source, rank));
    if DrawOf(cap, c, rank).read && !Direct(cap) then flying[1..] else flying
  }

  function FireRecv<T, C, R>(cap: Capacity, c: Net<T, C, R>, rank: nat): Net<T, C, R>
    requires CanRecv(cap, c, rank)
  {
    var p := c.procs[rank];
    var link := Link(p.source, rank);
    var d := DrawOf(cap, c, rank);
    var procs := Unblocked(cap, c, rank);
    Net(if d.taken.Some? then procs[rank := AfterTake(p, d.taken.value)] else procs,
        Put(c.links, link, Drained(cap, c, rank)),
        Put(c.pending, link, d.aside))
  }

  function Fire<T, C, R>(cap: Capacity, c: Net<T, C, R>, a: Act): Net<T, C, R>
    requires Enabled(cap, c, a)
  {
    if a.sending then FireSend(cap, c, a.rank) else FireRecv(cap, c, a.rank)
  }

  // ---- schedules ----

  predicate Legal<T, C, R>(cap: Capacity, c: Net<T, C, R>, schedule: seq<Act>)
    decreases |schedule|
  {
    schedule == [] || (Enabled(cap, c, schedule[0]) && Legal(cap, Fire(cap, c, schedule[0]), schedule[1..]))
  }

  function Run<T, C, R>(cap: Capacity, c: Net<T, C, R>, schedule: seq<Act>): Net<T, C, R>
    requires Legal(cap, c, schedule)
    decreases |schedule|
  {
    if schedule == [] then c else Run(cap, Fire(cap, c, schedule[0]), schedule[1..])
  }

  predicate Finished<T, C, R>(p: Proc<T, C, R>) {
    p.Done? || p.Failed?
  }

  predicate AllFinished<T, C, R>(procs: seq<Proc<T, C, R>>) {
    forall r :: 0 <= r < |procs| ==> Finished(procs[r])
  }

  // ---- two steps of different sides commute ----

  lemma QueueFacts<T, C>(q: Queues<T, C>, k: Link, l: Link, s: seq<Frame<T, C>>, t: seq<Frame<T, C>>)
    ensures Get(Put(q, k, s), k) == s
    ensures k != l ==> Get(Put(q, k, s), l) == Get(q, l)
    ensures k != l ==> Put(Put(q, k, s), l, t) == Put(Put(q, l, t), k, s)
    ensures Put(Put(q, k, s), k, t) == Put(q, k, t)
  {}

  lemma SendsCommute<T, C, R>(cap: Capacity, c: Net<T, C, R>, r: nat, q: nat)
    requires r != q && CanSend(cap, c, r) && CanSend(cap, c, q)
    ensures CanSend(cap, FireSend(cap, c, r), q) && CanSend(cap, FireSend(cap, c, q), r)
    ensures FireSend(cap, FireSend(cap, c, r), q) == FireSend(cap, FireSend(cap, c, q), r)
  {
    var lr, lq := Link(r, c.procs[r].destination), Link(q, c.procs[q].destination);
    var sr, sq := Get(c.links, lr) + [c.procs[r].frame], Get(c.links, lq) + [c.procs[q].frame];
    QueueFacts(c.links, lr, lq, sr, sq);
    QueueFacts(c.links, lq, lr, sq, sr);
  }

  lemma ReadsWhatIsThere<T, C, R>(cap: Capacity, c: Net<T, C, R>, r: nat)
    requires CanRecv(cap, c, r)
    ensures DrawOf(cap, c, r).read ==> Readable(cap, c, c.procs[r].source, r) != []
  {
    hide Readable, Get;
  }

  /** A receive on another rank leaves the receiving half of rank `q` as it is, and on a direct link also
  the frame that somebody offers to it. */
  lemma RecvKeepsProc<T, C, R>(cap: Capacity, c: Net<T, C, R>, r: nat, q: nat)
    requires r != q && CanRecv(cap, c, r) && CanRecv(cap, c, q)
    ensures var p, p1, s := c.procs[q], FireRecv(cap, c, r).procs[q], c.procs[q].source;
            && (p1.Recv? || p1.Exchange?) && p1.source == s && WantOf(p1) == WantOf(p)
            && (Offer(c.procs, s, q) != [] ==> Offer(FireRecv(cap, c, r).procs, s, q) == Offer(c.procs, s, q))
  {
    ReadsWhatIsThere(cap, c, r);
    hide DrawOf, Get, Put, FirstLook, Exact;
  }

  /** A receive on another rank leaves the queues towards rank `q` alone. */
  lemma RecvKeepsQueues<T, C, R>(cap: Capacity, c: Net<T, C, R>, r: nat, link: Link)
    requires CanRecv(cap, c, r) && link.to != r
    ensures var c1 := FireRecv(cap, c, r);
            Get(c1.links, link) == Get(c.links, link) && Get(c1.pending, link) == Get(c.pending, link)
  {
    hide DrawOf, Get, Put, Drained, Unblocked;
    var lr := Link(c.procs[r].source, r);
    QueueFacts(c.links, lr, link, Drained(cap, c, r), []);
    QueueFacts(c.pending, lr, link, DrawOf(cap, c, r).aside, []);
  }

  /** A receive on another rank leaves alone what rank `q` draws and where it draws it from. */
  lemma RecvUnaffected<T, C, R>(cap: Capacity, c: Net<T, C, R>, r: nat, q: nat)
    requires r != q && CanRecv(cap, c, r) && CanRecv(cap, c, q)
    ensures var c1, s := FireRecv(cap, c, r), c.procs[q].source;
            && CanRecv(cap, c1, q) && DrawOf(cap, c1, q) == DrawOf(cap, c, q)
            && c1.procs[q].source == s && Get(c1.links, Link(s, q)) == Get(c.links, Link(s, q))
            && (Direct(cap) && DrawOf(cap, c, q).read ==> Offer(c1.procs, s, q) == Offer(c.procs, s, q) != [])
  {
    RecvKeepsProc(cap, c, r, q);
    RecvKeepsQueues(cap, c, r, Link(c.procs[q].source, q));
    FireRecvProcs(cap, c, r);
    hide FireRecv, Get, Put, WantOf, Offer, FirstLook;
  }

  lemma RecvsCommute<T, C, R>(cap: Capacity, c: Net<T, C, R>, r: nat, q: nat)
    requires r != q && CanRecv(cap, c, r) && CanRecv(cap, c, q)
    ensures CanRecv(cap, FireRecv(cap, c, r), q) && CanRecv(cap, FireRecv(cap, c, q), r)
    ensures FireRecv(cap, FireRecv(cap, c, r), q) == FireRecv(cap, FireRecv(cap, c, q), r)
  {
    RecvUnaffected(cap, c, r, q);
    RecvUnaffected(cap, c, q, r);
    RecvsCommuteQueues(cap, c, r, q);
    RecvsCommuteProcs(cap, c, r, q);
  }

  lemma RecvsCommuteQueues<T, C, R>(cap: Capacity, c: Net<T, C, R>, r: nat, q: nat)
    requires r != q && CanRecv(cap, c, r) && CanRecv(cap, c, q)
    requires CanRecv(cap, FireRecv(cap, c, r), q) && CanRecv(cap, FireRecv(cap, c, q), r)
    ensures var c1, c2 := FireRecv(cap, FireRecv(cap, c, r), q), FireRecv(cap, FireRecv(cap, c, q), r);
            c1.links == c2.links && c1.pending == c2.pending
  {
    RecvUnaffected(cap, c, r, q);
    RecvUnaffected(cap, c, q, r);
    hide DrawOf, Unblocked, AfterTake, AfterSend, CanRecv, Offer;
    var lr, lq := Link(c.procs[r].source, r), Link(c.procs[q].source, q);
    QueueFacts(c.links, lr, lq, Drained(cap, c, r), Drained(cap, c, q));
    QueueFacts(c.pending, lr, lq, DrawOf(cap, c, r).aside, DrawOf(cap, c, q).aside);
  }

  /** What a receive on rank `r` does to the program of rank `i`. */
  function Received<T, C, R>(cap: Capacity, c: Net<T, C, R>, r: nat, i: nat, p: Proc<T, C, R>): Proc<T, C, R>
    requires CanRecv(cap, c, r) && i < |c.procs|
    requires i == r ==> p.Recv? || p.Exchange?
    requires i != r && i == c.procs[r].source && Direct(cap) && DrawOf(cap, c, r).read ==> p.Send? || p.Exchange?
  {
    var d := DrawOf(cap, c, r);
    if i == r then (if d.taken.Some? then AfterTake(p, d.taken.value) else p)
    else if i == c.procs[r].source && Direct(cap) && d.read then AfterSend(p)
    else p
  }

  lemma FireRecvProcs<T, C, R>(cap: Capacity, c: Net<T, C, R>, r: nat)
    requires CanRecv(cap, c, r)
    ensures |FireRecv(cap, c, r).procs| == |c.procs|
    ensures forall i :: 0 <= i < |c.procs| ==> FireRecv(cap, c, r).procs[i] == Received(cap, c, r, i, c.procs[i])
  {
  }

  lemma RecvsCommuteAt<T, C, R>(cap: Capacity, c: Net<T, C, R>, r: nat, q: nat, i: nat)
    requires r != q && CanRecv(cap, c, r) && CanRecv(cap, c, q) && i < |c.procs|
    requires CanRecv(cap, FireRecv(cap, c, r), q) && CanRecv(cap, FireRecv(cap, c, q), r)
    ensures FireRecv(cap, FireRecv(cap, c, r), q).procs[i] == FireRecv(cap, FireRecv(cap, c, q), r).procs[i]
  {
    var cr, cq := FireRecv(cap, c, r), FireRecv(cap, c, q);
    RecvUnaffected(cap, c, r, q);
    RecvUnaffected(cap, c, q, r);
    FireRecvProcs(cap, c, r);
    FireRecvProcs(cap, c, q);
    FireRecvProcs(cap, cr, q);
    FireRecvProcs(cap, cq, r);
    hide FireRecv, DrawOf, Readable, FirstLook, Drained, Unblocked, Put, Get;
    assert FireRecv(cap, cr, q).procs[i] == Received(cap, cr, q, i, cr.procs[i]);
    assert FireRecv(cap, cq, r).procs[i] == Received(cap, cq, r, i, cq.procs[i]);
  }

  lemma RecvsCommuteProcs<T, C, R>(cap: Capacity, c: Net<T, C, R>, r: nat, q: nat)
    requires r != q && CanRecv(cap, c, r) && CanRecv(cap, c, q)
    requires CanRecv(cap, FireRecv(cap, c, r), q) && CanRecv(cap, FireRecv(cap, c, q), r)
    ensures FireRecv(cap, FireRecv(cap, c, r), q).procs == FireRecv(cap, FireRecv(cap, c, q), r).procs
  {
    FireRecvProcs(cap, c, r);
    FireRecvProcs(cap, c, q);
    FireRecvProcs(cap, FireRecv(cap, c, r), q);
    FireRecvProcs(cap, FireRecv(cap, c, q), r);
    hide FireRecv, CanRecv;
    forall i | 0 <= i < |c.procs|
      ensures FireRecv(cap, FireRecv(cap, c, r), q).procs[i] == FireRecv(cap, FireRecv(cap, c, q), r).procs[i]
    {
      RecvsCommuteAt(cap, c, r, q, i);
    }
  }

  /** A frame appended to the link does not change what the receive loop does with its head. */
  lemma DrawIgnoresTail<T, C>(want: Want, aside: seq<Frame<T, C>>, flying: seq<Frame<T, C>>, f: Frame<T, C>)
    requires FirstLook(want, aside) < |aside| || flying != []
    ensures Draw(want, aside, flying + [f]) == Draw(want, aside, flying)
  {
  }

  /** A send leaves alone what rank `q` draws; at most it makes the link longer. */
  lemma SendUnaffecting<T, C, R>(cap: Capacity, c: Net<T, C, R>, r: nat, q: nat)
    requires CanSend(cap, c, r) && CanRecv(cap, c, q)
    ensures var c1, ls, lq := FireSend(cap, c, r), Link(r, c.procs[r].destination), Link(c.procs[q].source, q);
            && CanRecv(cap, c1, q) && c1.procs[q].source == c.procs[q].source
            && DrawOf(cap, c1, q) == DrawOf(cap, c, q) && c1.pending == c.pending
            && Drained(cap, c1, q) == Drained(cap, c, q) + (if ls == lq then [c.procs[r].frame] else [])
  {
    assert !Direct(cap);
    var f, want := c.procs[r].frame, WantOf(c.procs[q]);
    var ls, lq := Link(r, c.procs[r].destination), Link(c.procs[q].source, q);
    var c1, flying := FireSend(cap, c, r), Get(c.links, lq);
    QueueFacts(c.links, ls, lq, Get(c.links, ls) + [f], []);
    assert WantOf(c1.procs[q]) == want && c1.procs[q].source == c.procs[q].source;
    if ls == lq {
      DrawIgnoresTail(want, Get(c.pending, lq), flying, f);
      assert flying != [] ==> (flying + [f])[1..] == flying[1..] + [f];
    }
  }

  /** A receive leaves alone what rank `r` sends; at most it makes the link shorter. */
  lemma RecvUnaffecting<T, C, R>(cap: Capacity, c: Net<T, C, R>, r: nat, q: nat)
    requires CanSend(cap, c, r) && CanRecv(cap, c, q)
    ensures var c2, ls, lq := FireRecv(cap, c, q), Link(r, c.procs[r].destination), Link(c.procs[q].source, q);
            && CanSend(cap, c2, r) && c2.procs[r].frame == c.procs[r].frame && c2.procs[r].destination == c.procs[r].destination
            && Get(c2.links, ls) == if ls == lq then Drained(cap, c, q) else Get(c.links, ls)
  {
    assert !Direct(cap);
    var ls, lq := Link(r, c.procs[r].destination), Link(c.procs[q].source, q);
    QueueFacts(c.links, lq, ls, Drained(cap, c, q), []);
  }

  /** Appending at the tail of one link and dropping the head of another, or of the same, commute. */
  lemma QueuesSwap<T, C>(q: Queues<T, C>, ls: Link, lq: Link, rest: seq<Frame<T, C>>, f: Frame<T, C>)
    ensures var longer := Get(q, ls) + [f];
            if ls == lq then Put(Put(q, ls, longer), lq, rest + [f]) == Put(Put(q, lq, rest), ls, rest + [f])
            else Put(Put(q, ls, longer), lq, rest) == Put(Put(q, lq, rest), ls, longer)
  {
    QueueFacts(q, ls, lq, Get(q, ls) + [f], rest);
    QueueFacts(q, lq, ls, rest, rest + [f]);
    QueueFacts(q, ls, lq, Get(q, ls) + [f], rest + [f]);
  }

  lemma SendRecvQueues<T, C, R>(cap: Capacity, c: Net<T, C, R>, r: nat, q: nat)
    requires CanSend(cap, c, r) && CanRecv(cap, c, q)
    requires CanRecv(cap, FireSend(cap, c, r), q) && CanSend(cap, FireRecv(cap, c, q), r)
    ensures var c1, c2 := FireRecv(cap, FireSend(cap, c, r), q), FireSend(cap, FireRecv(cap, c, q), r);
            c1.links == c2.links && c1.pending == c2.pending
  {
    hide DrawOf, Drained, FirstLook, Readable, Room, AfterTake, Get, Put;
    SendUnaffecting(cap, c, r, q);
    RecvUnaffecting(cap, c, r, q);
    var ls, lq, rest, f := Link(r, c.procs[r].destination), Link(c.procs[q].source, q), Drained(cap, c, q), c.procs[r].frame;
    var c1, c2 := FireSend(cap, c, r), FireRecv(cap, c, q);
    hide CanSend, CanRecv;
    assert c1.links == Put(c.links, ls, Get(c.links, ls) + [f]) && c2.links == Put(c.links, lq, rest);
    assert FireRecv(cap, c1, q).links == Put(c1.links, lq, Drained(cap, c1, q));
    assert FireSend(cap, c2, r).links == Put(c2.links, ls, Get(c2.links, ls) + [f]);
    assert rest + [] == rest;
    QueuesSwap(c.links, ls, lq, rest, f);
  }

  lemma SendRecvCommute<T, C, R>(cap: Capacity, c: Net<T, C, R>, r: nat, q: nat)
    requires CanSend(cap, c, r) && CanRecv(cap, c, q)
    ensures CanRecv(cap, FireSend(cap, c, r), q) && CanSend(cap, FireRecv(cap, c, q), r)
    ensures FireRecv(cap, FireSend(cap, c, r), q) == FireSend(cap, FireRecv(cap, c, q), r)
  {
    assert !Direct(cap);
    SendUnaffecting(cap, c, r, q);
    RecvUnaffecting(cap, c, r, q);
    SendRecvQueues(cap, c, r, q);
    hide DrawOf, Drained, FirstLook, Readable, Room, Put, Get;
    var c1, c2 := FireRecv(cap, FireSend(cap, c, r), q), FireSend(cap, FireRecv(cap, c, q), r);
    assert c1.procs == c2.procs;
  }

  lemma Diamond<T, C, R>(cap: Capacity, c: Net<T, C, R>, a: Act, b: Act)
    requires a != b && Enabled(cap, c, a) && Enabled(cap, c, b)
    ensures Enabled(cap, Fire(cap, c, a), b) && Enabled(cap, Fire(cap, c, b), a)
    ensures Fire(cap, Fire(cap, c, a), b) == Fire(cap, Fire(cap, c, b), a)
  {
    match (a.sending, b.sending)
    case (true, true) => SendsCommute(cap, c, a.rank, b.rank);
    case (true, false) => SendRecvCommute(cap, c, a.rank, b.rank);
    case (false, true) => SendRecvCommute(cap, c, b.rank, a.rank);
    case (false, false) => RecvsCommute(cap, c, a.rank, b.rank);
  }

  // ---- every schedule ends where one does ----

  /** Any enabled step can be moved to the front of a schedule that finishes every rank. */
  lemma {:induction false} MoveToFront<T, C, R>(cap: Capacity, c: Net<T, C, R>, a: Act, w: seq<Act>) returns (v: seq<Act>)
    requires Legal(cap, c, w) && AllFinished(Run(cap, c, w).procs) && Enabled(cap, c, a)
    ensures |v| + 1 == |w| && Legal(cap, Fire(cap, c, a), v)
    ensures Run(cap, Fire(cap, c, a), v) == Run(cap, c, w)
    decreases |w|
  {
    if w[0] == a {
      v := w[1..];
    } else {
      Diamond(cap, c, a, w[0]);
      var u := MoveToFront(cap, Fire(cap, c, w[0]), a, w[1..]);
      v := [w[0]] + u;
    }
  }

  /** Kahn's determinacy for this network: whatever schedule `u` was followed so far, it continues
  to the end that `w` reaches, and it never takes more steps than `w`. */
  lemma {:induction false} Determinacy<T, C, R>(cap: Capacity, c: Net<T, C, R>, w: seq<Act>, u: seq<Act>) returns (v: seq<Act>)
    requires Legal(cap, c, w) && AllFinished(Run(cap, c, w).procs) && Legal(cap, c, u)
    ensures |u| + |v| == |w| && Legal(cap, Run(cap, c, u), v)
    ensures Run(cap, Run(cap, c, u), v) == Run(cap, c, w)
    decreases |u|
  {
    if u == [] {
      v := w;
    } else {
      var w' := MoveToFront(cap, c, u[0], w);
      v := Determinacy(cap, Fire(cap, c, u[0]), w', u[1..]);
    }
  }

  /** A finished rank takes no further step. */
  lemma {:induction false} FinishedStays<T, C, R>(cap: Capacity, c: Net<T, C, R>, u: seq<Act>, r: nat)
    requires Legal(cap, c, u) && r < |c.procs| && Finished(c.procs[r])
    ensures |Run(cap, c, u).procs| == |c.procs| && Run(cap, c, u).procs[r] == c.procs[r]
    decreases |u|
  {
    if u != [] {
      FinishedStays(cap, Fire(cap, c, u[0]), u[1..], r);
    }
  }

  lemma {:induction false} RanksStay<T, C, R>(cap: Capacity, c: Net<T, C, R>, u: seq<Act>)
    requires Legal(cap, c, u)
    ensures |Run(cap, c, u).procs| == |c.procs|
    decreases |u|
  {
    if u != [] {
      RanksStay(cap, Fire(cap, c, u[0]), u[1..]);
    }
  }

  // ---- handing frames over one at a time ----

  /** Nothing in flight and nothing put aside. */
  function Quiet<T, C, R>(procs: seq<Proc<T, C, R>>): Net<T, C, R> {
    Net(procs, map[], map[])
  }

  /** Rank `s` is ready to send to rank `d`, and `d` is waiting for exactly that frame. */
  predicate CanHand<T, C, R>(procs: seq<Proc<T, C, R>>, s: nat, d: nat) {
    && s < |procs| && d < |procs| && s != d
    && (procs[s].Send? || procs[s].Exchange?) && procs[s].destination == d
    && (procs[d].Recv? || procs[d].Exchange?) && procs[d].source == s
    && Exact(WantOf(procs[d]), procs[s].frame)
  }

  function Hand<T, C, R>(procs: seq<Proc<T, C, R>>, s: nat, d: nat): (next: seq<Proc<T, C, R>>)
    requires CanHand(procs, s, d)
    ensures |next| == |procs|
  {
    procs[s := AfterSend(procs[s])][d := AfterTake(procs[d], procs[s].frame)]
  }

  datatype Pair = Pair(from: nat, to: nat)

  predicate Meets<T, C, R>(procs: seq<Proc<T, C, R>>, hands: seq<Pair>)
    decreases |hands|
  {
    hands == [] || (CanHand(procs, hands[0].from, hands[0].to)
                    && Meets(Hand(procs, hands[0].from, hands[0].to), hands[1..]))
  }

  function After<T, C, R>(procs: seq<Proc<T, C, R>>, hands: seq<Pair>): (end: seq<Proc<T, C, R>>)
    requires Meets(procs, hands)
    ensures |end| == |procs|
    decreases |hands|
  {
    if hands == [] then procs else After(Hand(procs, hands[0].from, hands[0].to), hands[1..])
  }

  /** The ranks can get from `start` to `end` by handing over frames one at a time. */
  ghost predicate Reaches<T, C, R>(start: seq<Proc<T, C, R>>, end: seq<Proc<T, C, R>>) {
    exists hands :: Meets(start, hands) && After(start, hands) == end
  }

  lemma ReachesSelf<T, C, R>(procs: seq<Proc<T, C, R>>)
    ensures Reaches(procs, procs)
  {
    assert Meets(procs, []) && After(procs, []) == procs;
  }

  lemma ReachesStep<T, C, R>(procs: seq<Proc<T, C, R>>, s: nat, d: nat, end: seq<Proc<T, C, R>>)
    requires CanHand(procs, s, d) && Reaches(Hand(procs, s, d), end)
    ensures Reaches(procs, end)
  {
    var hands :| Meets(Hand(procs, s, d), hands) && After(Hand(procs, s, d), hands) == end;
    var all := [Pair(s, d)] + hands;
    assert all[1..] == hands;
    assert Meets(procs, all) && After(procs, all) == end;
  }

  /** The ranks get from `start` to `end` with so many frames. */
  ghost predicate ReachesWith<T, C, R>(start: seq<Proc<T, C, R>>, end: seq<Proc<T, C, R>>, frames: nat) {
    exists hands :: Meets(start, hands) && After(start, hands) == end && |hands| == frames
  }

  lemma {:induction false} MeetsThen<T, C, R>(a: seq<Proc<T, C, R>>, u: seq<Pair>, v: seq<Pair>)
    requires Meets(a, u) && Meets(After(a, u), v)
    ensures Meets(a, u + v) && After(a, u + v) == After(After(a, u), v)
    decreases |u|
  {
    if u == [] {
      assert u + v == v;
    } else {
      MeetsThen(Hand(a, u[0].from, u[0].to), u[1..], v);
      assert (u + v)[1..] == u[1..] + v;
    }
  }

  lemma ReachesThen<T, C, R>(a: seq<Proc<T, C, R>>, b: seq<Proc<T, C, R>>, c: seq<Proc<T, C, R>>)
    requires Reaches(a, b) && Reaches(b, c)
    ensures Reaches(a, c)
  {
    var u :| Meets(a, u) && After(a, u) == b;
    var v :| Meets(b, v) && After(b, v) == c;
    MeetsThen(a, u, v);
  }

  // The same, with the number of frames.

  lemma WithNone<T, C, R>(procs: seq<Proc<T, C, R>>)
    ensures ReachesWith(procs, procs, 0)
  {
    assert Meets(procs, []) && After(procs, []) == procs;
  }

  lemma OneMoreWith<T, C, R>(procs: seq<Proc<T, C, R>>, s: nat, d: nat, end: seq<Proc<T, C, R>>, frames: nat)
    requires CanHand(procs, s, d) && ReachesWith(Hand(procs, s, d), end, frames)
    ensures ReachesWith(procs, end, frames + 1)
  {
    var hands :| Meets(Hand(procs, s, d), hands) && After(Hand(procs, s, d), hands) == end && |hands| == frames;
    var all := [Pair(s, d)] + hands;
    assert all[1..] == hands;
    assert Meets(procs, all) && After(procs, all) == end;
  }

  lemma ThenWith<T, C, R>(a: seq<Proc<T, C, R>>, b: seq<Proc<T, C, R>>, c: seq<Proc<T, C, R>>, m: nat, n: nat)
    requires ReachesWith(a, b, m) && ReachesWith(b, c, n)
    ensures ReachesWith(a, c, m + n)
  {
    var u :| Meets(a, u) && After(a, u) == b && |u| == m;
    var v :| Meets(b, v) && After(b, v) == c && |v| == n;
    MeetsThen(a, u, v);
  }

  lemma WithReaches<T, C, R>(start: seq<Proc<T, C, R>>, end: seq<Proc<T, C, R>>, frames: nat)
    requires ReachesWith(start, end, frames)
    ensures Reaches(start, end)
  {}

  lemma ReachesWithSome<T, C, R>(start: seq<Proc<T, C, R>>, end: seq<Proc<T, C, R>>) returns (frames: nat)
    requires Reaches(start, end)
    ensures ReachesWith(start, end, frames)
  {
    var hands :| Meets(start, hands) && After(start, hands) == end;
    frames := |hands|;
  }

  /** One hand-over is a send followed by a receive, or the receive alone on a direct link. */
  lemma HandSteps<T, C, R>(cap: Capacity, procs: seq<Proc<T, C, R>>, s: nat, d: nat)
    requires CanHand(procs, s, d)
    ensures !Direct(cap) ==> Enabled(cap, Quiet(procs), Act(s, true))
    ensures var c := if Direct(cap) then Quiet(procs) else FireSend(cap, Quiet(procs), s);
            Enabled(cap, c, Act(d, false)) && FireRecv(cap, c, d) == Quiet(Hand(procs, s, d))
  {
    var c := if Direct(cap) then Quiet(procs) else FireSend(cap, Quiet(procs), s);
    var link := Link(s, d);
    assert Get(map[], link) + [procs[s].frame] == [procs[s].frame];
    assert Readable(cap, c, s, d) == [procs[s].frame];
    assert DrawOf(cap, c, d) == Drawn(Some(procs[s].frame), [], true);
    assert Put(c.links, link, []) == map[];
  }

  lemma {:induction false} HandsAreASchedule<T, C, R>(cap: Capacity, procs: seq<Proc<T, C, R>>, hands: seq<Pair>) returns (w: seq<Act>)
    requires Meets(procs, hands)
    ensures |w| == (if Direct(cap) then |hands| else 2 * |hands|) && Legal(cap, Quiet(procs), w)
    ensures Run(cap, Quiet(procs), w) == Quiet(After(procs, hands))
    decreases |hands|
  {
    w := [];
    if hands != [] {
      var s, d := hands[0].from, hands[0].to;
      HandSteps(cap, procs, s, d);
      var rest := HandsAreASchedule(cap, Hand(procs, s, d), hands[1..]);
      var c := if Direct(cap) then Quiet(procs) else FireSend(cap, Quiet(procs), s);
      var tail := [Act(d, false)] + rest;
      assert tail[1..] == rest;
      assert Legal(cap, c, tail) && Run(cap, c, tail) == Run(cap, Quiet(Hand(procs, s, d)), rest);
      w := if Direct(cap) then tail else [Act(s, true)] + tail;
      assert !Direct(cap) ==> w[1..] == tail;
    }
  }

  /** What a maintainer may rely on in the middle of a run with `left` steps to go: ranks that returned hold
  their result in `end`; if no step is possible the whole world is `end`, every queue is empty and none is left. */
  ghost predicate OnCourse<T, C, R>(cap: Capacity, end: seq<Proc<T, C, R>>, c: Net<T, C, R>, left: int) {
    && |c.procs| == |end| && left >= 0
    && (forall r :: 0 <= r < |end| && Finished(c.procs[r]) ==> c.procs[r] == end[r])
    && ((forall a: Act :: !Enabled(cap, c, a)) ==> c == Quiet(end) && left == 0)
  }

  /** Every schedule from `start` is on course for `end`, which it reaches after exactly `steps` steps if it
  goes on for as long as a step is possible. */
  ghost predicate Settles<T, C, R>(cap: Capacity, start: seq<Proc<T, C, R>>, end: seq<Proc<T, C, R>>, steps: nat) {
    forall u: seq<Act> :: Legal(cap, Quiet(start), u) ==> OnCourse(cap, end, Run(cap, Quiet(start), u), steps - |u|)
  }

  /** Steps that handing over so many frames takes: a send and a receive each, or one step on direct links. */
  function StepsFor(cap: Capacity, frames: nat): nat {
    if Direct(cap) then frames else 2 * frames
  }

  /** When the schedule `w` takes a world to its end, any other schedule is on course for that end. */
  lemma OnItsWay<T, C, R>(cap: Capacity, start: Net<T, C, R>, end: seq<Proc<T, C, R>>, w: seq<Act>, u: seq<Act>)
    requires Legal(cap, start, w) && Run(cap, start, w) == Quiet(end) && AllFinished(end) && Legal(cap, start, u)
    ensures OnCourse(cap, end, Run(cap, start, u), |w| - |u|)
  {
    var v := Determinacy(cap, start, w, u);
    var c := Run(cap, start, u);
    RanksStay(cap, c, v);
    forall r | 0 <= r < |end| && Finished(c.procs[r]) ensures c.procs[r] == end[r] {
      FinishedStays(cap, c, v, r);
    }
  }

  /** If handing frames over one at a time finishes every rank, every asynchronous schedule settles
  on the same end, whatever the capacity of the links, after exactly the steps that those frames take. */
  lemma EverySchedule<T, C, R>(cap: Capacity, start: seq<Proc<T, C, R>>, end: seq<Proc<T, C, R>>, frames: nat)
    requires ReachesWith(start, end, frames) && AllFinished(end)
    ensures Settles(cap, start, end, StepsFor(cap, frames))
  {
    var hands :| Meets(start, hands) && After(start, hands) == end && |hands| == frames;
    var w := HandsAreASchedule(cap, start, hands);
    hide OnCourse, Run, Legal, AllFinished, Meets, After;
    forall u: seq<Act> | Legal(cap, Quiet(start), u)
      ensures OnCourse(cap, end, Run(cap, Quiet(start), u), StepsFor(cap, frames) - |u|)
    {
      OnItsWay(cap, Quiet(start), end, w, u);
    }
  }

  /** A schedule after which no step is left has exactly the steps of every other: there is one number of frames. */
  lemma SameFrames<T, C, R>(start: seq<Proc<T, C, R>>, end: seq<Proc<T, C, R>>, m: nat, n: nat)
    requires AllFinished(end) && ReachesWith(start, end, m) && ReachesWith(start, end, n)
    ensures m == n
  {
    var a :| Meets(start, a) && After(start, a) == end && |a| == m;
    var b :| Meets(start, b) && After(start, b) == end && |b| == n;
    var u := HandsAreASchedule(Unbounded, start, a);
    var v := HandsAreASchedule(Unbounded, start, b);
    var u' := Determinacy(Unbounded, Quiet(start), v, u);
    var v' := Determinacy(Unbounded, Quiet(start), u, v);
  }

  /** Ranks that can finish can finish in one way only. */
  lemma UniqueEnd<T, C, R>(start: seq<Proc<T, C, R>>, a: seq<Proc<T, C, R>>, b: seq<Proc<T, C, R>>)
    requires Reaches(start, a) && Reaches(start, b) && AllFinished(a) && AllFinished(b)
    ensures a == b
  {
    var hands :| Meets(start, hands) && After(start, hands) == a;
    var u := HandsAreASchedule(Unbounded, start, hands);
    var frames := ReachesWithSome(start, b);
    EverySchedule(Unbounded, start, b, frames);
    assert OnCourse(Unbounded, b, Run(Unbounded, Quiet(start), u), StepsFor(Unbounded, frames) - |u|);
  }
}
