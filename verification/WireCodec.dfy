/** The binary frame codec of the TCP transport: encoder, decoder, and length-prefixed streams.

f32 values are their 32-bit patterns; `usize` has 64 bits. `Encode` and `Decode` are the
specification, `EncodeWire` and `DecodeWire` build and walk the byte buffer as the code does. */
module WireCodec {
  import opened Options
  import opened Arithmetic
  import opened Sequences

  type Byte = b: nat | b < 256

  datatype WireFrame =
    | Tensor(source: nat, destination: nat, tag: nat, shape: seq<nat>, values: seq<nat>)
    | Control(source: nat, destination: nat, tag: nat, payload: seq<Byte>)
    | BarrierArrive(source: nat, destination: nat, generation: nat)
    | BarrierRelease(source: nat, destination: nat, generation: nat)

  datatype WireError =
    | Truncated | InvalidMagic | VersionMismatch | UnknownKind | TooManyDimensions | PayloadOverflow
    | PayloadMismatch | InvalidPacket | ControlTooLong | TrailingBytes | RankOverflow | DimensionOverflow | FrameTooLong

  const MAGIC: seq<Byte> := [68, 76, 73, 82]
  const PROTOCOL_VERSION: nat := 2
  const MAX_DIMENSIONS: nat := 64
  const MAX_CONTROL_BYTES: nat := 65536
  const U32: nat := 0x1_0000_0000
  const U64: nat := 0x1_0000_0000_0000_0000

  // ---- little-endian integers ----

  function Power(n: nat): (p: nat)
    ensures p > 0
  {
    if n == 0 then 1 else 256 * Power(n - 1)
  }

  function Le(x: nat, n: nat): (bytes: seq<Byte>)
    ensures |bytes| == n
  {
    if n == 0 then [] else [x % 256] + Le(x / 256, n - 1)
  }

  function UnLe(bytes: seq<Byte>): nat {
    if bytes == [] then 0 else bytes[0] + 256 * UnLe(bytes[1..])
  }

  lemma {:induction false} UnLeOfLe(x: nat, n: nat)
    requires x < Power(n)
    ensures UnLe(Le(x, n)) == x
  {
    if n > 0 {
      assert x / 256 < Power(n - 1);
      UnLeOfLe(x / 256, n - 1);
      assert Le(x, n)[1..] == Le(x / 256, n - 1);
    }
  }

  lemma DigitsSplit(low: nat, rest: nat, power: nat)
    requires low < 256 && rest < power
    ensures (low + 256 * rest) % 256 == low && (low + 256 * rest) / 256 == rest && low + 256 * rest < 256 * power
  {}

  lemma {:induction false} LeOfUnLe(bytes: seq<Byte>)
    ensures UnLe(bytes) < Power(|bytes|) && Le(UnLe(bytes), |bytes|) == bytes
  {
    if bytes != [] {
      LeOfUnLe(bytes[1..]);
      DigitsSplit(bytes[0], UnLe(bytes[1..]), Power(|bytes| - 1));
      assert bytes == [bytes[0]] + bytes[1..];
    }
  }

  lemma Powers()
    ensures Power(1) == 256 && Power(2) == 0x1_0000 && Power(4) == U32 && Power(8) == U64
  {
    assert Power(2) == 256 * Power(1) && Power(3) == 256 * Power(2) && Power(4) == 256 * Power(3);
    assert Power(5) == 256 * Power(4) && Power(6) == 256 * Power(5) && Power(7) == 256 * Power(6) && Power(8) == 256 * Power(7);
  }

  /** Consecutive integers of `n` bytes each. */
  function Words(xs: seq<nat>, n: nat): seq<Byte> {
    if xs == [] then [] else Le(xs[0], n) + Words(xs[1..], n)
  }

  function First(bytes: seq<Byte>, n: nat): seq<Byte> {
    if n <= |bytes| then bytes[..n] else bytes
  }

  function Rest(bytes: seq<Byte>, n: nat): seq<Byte> {
    if n <= |bytes| then bytes[n..] else []
  }

  function Unwords(bytes: seq<Byte>, n: nat, count: nat): (xs: seq<nat>)
    ensures |xs| == count
    decreases count
  {
    if count == 0 then [] else [UnLe(First(bytes, n))] + Unwords(Rest(bytes, n), n, count - 1)
  }

  lemma {:induction false} WordsLength(xs: seq<nat>, n: nat)
    ensures |Words(xs, n)| == n * |xs|
  {
    if xs != [] {
      WordsLength(xs[1..], n);
      MulSucc(|xs| - 1, n);
    }
  }

  lemma {:induction false} UnwordsOfWords(xs: seq<nat>, n: nat)
    requires forall i :: 0 <= i < |xs| ==> xs[i] < Power(n)
    ensures |Words(xs, n)| == n * |xs| && Unwords(Words(xs, n), n, |xs|) == xs
  {
    WordsLength(xs, n);
    if xs != [] {
      UnwordsOfWords(xs[1..], n);
      UnLeOfLe(xs[0], n);
      assert Words(xs, n)[..n] == Le(xs[0], n) && Words(xs, n)[n..] == Words(xs[1..], n);
    }
  }

  lemma {:induction false} WordsOfUnwords(bytes: seq<Byte>, n: nat, count: nat)
    requires |bytes| == n * count
    ensures Words(Unwords(bytes, n, count), n) == bytes
    ensures forall i :: 0 <= i < count ==> Unwords(bytes, n, count)[i] < Power(n)
    decreases count
  {
    hide Le, UnLe, Power;
    if count > 0 {
      MulSucc(count - 1, n);
      LeOfUnLe(bytes[..n]);
      WordsOfUnwords(bytes[n..], n, count - 1);
      assert bytes == bytes[..n] + bytes[n..];
      assert Unwords(bytes, n, count)[1..] == Unwords(bytes[n..], n, count - 1);
    }
  }

  lemma {:induction false} WordsAppend(xs: seq<nat>, x: nat, n: nat)
    ensures Words(xs + [x], n) == Words(xs, n) + Le(x, n)
  {
    if xs == [] {
      assert [x][1..] == [];
      assert Words([x], n) == Le(x, n) + [];
    } else {
      assert (xs + [x])[1..] == xs[1..] + [x];
      WordsAppend(xs[1..], x, n);
    }
  }

  // ---- frames ----

  /** Product of the dimensions, multiplied from the left; `None` when it overflows on the way. */
  function ElementCount(count: nat, shape: seq<nat>): Option<nat>
    decreases |shape|
  {
    if shape == [] then Some(count)
    else if count * shape[0] >= U64 then None
    else ElementCount(count * shape[0], shape[1..])
  }

  /** The packet check of `TensorPacket::new`. */
  predicate ValidPacket(shape: seq<nat>, values: seq<nat>) {
    ElementCount(1, shape) == Some(|values|)
  }

  /** What the types of the fields guarantee. */
  predicate WellFormed(f: WireFrame) {
    f.source < U64 && f.destination < U64 &&
    match f
    case Tensor(_, _, tag, shape, values) =>
      && tag < U64 && ValidPacket(shape, values) && 4 * |values| < U64
      && (forall i :: 0 <= i < |shape| ==> shape[i] < U64) && (forall i :: 0 <= i < |values| ==> values[i] < U32)
    case Control(_, _, tag, payload) => tag < U64 && |payload| <= MAX_CONTROL_BYTES
    case BarrierArrive(_, _, generation) => generation < U64
    case BarrierRelease(_, _, generation) => generation < U64
  }

  function KindOf(f: WireFrame): Byte {
    match f
    case Tensor(_, _, _, _, _) => 1
    case BarrierArrive(_, _, _) => 2
    case BarrierRelease(_, _, _) => 3
    case Control(_, _, _, _) => 4
  }

  function Header(kind: Byte, reserved: Byte, source: nat, destination: nat): (h: seq<Byte>)
    ensures |h| == 16
  {
    MAGIC + Le(PROTOCOL_VERSION, 2) + [kind] + [reserved] + Le(source, 4) + Le(destination, 4)
  }

  function Payload(f: WireFrame): seq<Byte> {
    match f
    case Tensor(_, _, tag, shape, values) => Le(tag, 8) + Le(|shape|, 4) + Le(|values|, 8) + Words(shape, 8) + Words(values, 4)
    case Control(_, _, tag, payload) => Le(tag, 8) + Le(|payload|, 4) + payload
    case BarrierArrive(_, _, generation) => Le(generation, 8)
    case BarrierRelease(_, _, generation) => Le(generation, 8)
  }

  function Encode(f: WireFrame): seq<Byte> {
    Header(KindOf(f), 0, f.source, f.destination) + Payload(f)
  }

  /** The encoder's own checks, in order. */
  function EncodeError(f: WireFrame, maximum: nat): Option<WireError> {
    if f.source >= U32 || f.destination >= U32 then Some(RankOverflow)
    else if f.Tensor? && |f.shape| >= U32 then Some(DimensionOverflow)
    else if |Encode(f)| > maximum then Some(FrameTooLong)
    else None
  }

  // ---- decoding ----

  function Decode(b: seq<Byte>): Result<WireFrame, WireError> {
    if |b| < 4 then Err(Truncated)
    else if b[..4] != MAGIC then Err(InvalidMagic)
    else if |b| < 6 then Err(Truncated)
    else if UnLe(b[4..6]) != PROTOCOL_VERSION then Err(VersionMismatch)
    else if |b| < 16 then Err(Truncated)
    else DecodePayload(b[6], UnLe(b[8..12]), UnLe(b[12..16]), b[16..])
  }

  function DecodePayload(kind: Byte, source: nat, destination: nat, p: seq<Byte>): Result<WireFrame, WireError> {
    if kind == 1 then DecodeTensor(source, destination, p)
    else if kind == 4 then DecodeControl(source, destination, p)
    else if kind != 2 && kind != 3 then Err(UnknownKind)
    else if |p| < 8 then Err(Truncated)
    else if |p| != 8 then Err(TrailingBytes)
    else if kind == 2 then Ok(BarrierArrive(source, destination, UnLe(p)))
    else Ok(BarrierRelease(source, destination, UnLe(p)))
  }

  function DecodeTensor(source: nat, destination: nat, p: seq<Byte>): Result<WireFrame, WireError> {
    if |p| < 12 then Err(Truncated)
    else
      var tag, dimensions := UnLe(p[..8]), UnLe(p[8..12]);
      if dimensions > MAX_DIMENSIONS then Err(TooManyDimensions)
      else if |p| < 20 + 8 * dimensions then Err(Truncated)
      else
        var elements, rest := UnLe(p[12..20]), p[20 + 8 * dimensions..];
        if 4 * elements >= U64 then Err(PayloadOverflow)
        else if |rest| != 4 * elements then Err(PayloadMismatch)
        else
          var shape, values := Unwords(p[20..20 + 8 * dimensions], 8, dimensions), Unwords(rest, 4, elements);
          if ValidPacket(shape, values) then Ok(Tensor(source, destination, tag, shape, values)) else Err(InvalidPacket)
  }

  function DecodeControl(source: nat, destination: nat, p: seq<Byte>): Result<WireFrame, WireError> {
    if |p| < 12 then Err(Truncated)
    else if |p| - 12 != UnLe(p[8..12]) then Err(PayloadMismatch)
    else if |p| - 12 > MAX_CONTROL_BYTES then Err(ControlTooLong)
    else Ok(Control(source, destination, UnLe(p[..8]), p[12..]))
  }

  // ---- the bytes on the wire ----

  /** Byte `k` of a little-endian number. */
  function Digit(x: nat, k: nat): nat {
    (x / Power(k)) % 256
  }

  lemma DivideTwice(x: nat, power: nat)
    requires power > 0
    ensures (x / 256) / power == x / (256 * power)
  {
    var q, r := x / 256, x % 256;
    var q2, r2 := q / power, q % power;
    assert x == 256 * (power * q2 + r2) + r;
    MulAssoc(256, power, q2);
    assert 256 * r2 + r < 256 * power;
    DivModUnique(x, q2, 256 * r2 + r, 256 * power);
  }

  lemma {:induction false} LeAt(x: nat, n: nat, k: nat)
    requires k < n
    ensures Le(x, n)[k] == Digit(x, k)
  {
    if k > 0 {
      LeAt(x / 256, n - 1, k - 1);
      DivideTwice(x, Power(k - 1));
    }
  }

  lemma LeAll(x: nat, n: nat)
    ensures forall k :: 0 <= k < n ==> Le(x, n)[k] == Digit(x, k)
  {
    forall k | 0 <= k < n ensures Le(x, n)[k] == Digit(x, k) {
      LeAt(x, n, k);
    }
  }

  lemma {:induction false} WordsAt(xs: seq<nat>, n: nat, i: nat, k: nat)
    requires i < |xs| && k < n
    ensures i * n + k < |Words(xs, n)| && Words(xs, n)[i * n + k] == Digit(xs[i], k)
  {
    hide Le;
    WordsLength(xs, n);
    MulLe(i + 1, |xs|, n);
    MulSucc(i, n);
    if i > 0 {
      WordsAt(xs[1..], n, i - 1, k);
      MulSucc(i - 1, n);
    } else {
      LeAt(xs[0], n, k);
    }
  }

  /** The `n` bytes from `at` on are the little-endian number `x`. */
  predicate NumberAt(b: seq<Byte>, at: nat, n: nat, x: nat) {
    at + n <= |b| && forall k :: at <= k < at + n ==> b[k] == Digit(x, k - at)
  }

  lemma NumberIs(b: seq<Byte>, at: nat, n: nat, x: nat)
    requires at + n <= |b| && b[at..at + n] == Le(x, n)
    ensures NumberAt(b, at, n, x)
  {
    LeAll(x, n);
    hide Le, Digit;
    forall k | at <= k < at + n ensures b[k] == Digit(x, k - at) {
      assert b[k] == b[at..at + n][k - at];
    }
  }

  lemma VersionBytes()
    ensures Le(PROTOCOL_VERSION, 2) == [2, 0]
  {
    assert Le(0, 1) == [0] + Le(0, 0);
  }

  /** Every frame begins with the four letters DLIR, version 2, the number of its kind and a zero byte, followed by both
  ranks in four bytes each. */
  lemma HeaderLayout(f: WireFrame)
    ensures |Encode(f)| == 16 + |Payload(f)| && Encode(f)[16..] == Payload(f)
    ensures Encode(f)[..8] == [68, 76, 73, 82, 2, 0, if f.Tensor? then 1 else if f.BarrierArrive? then 2 else if f.BarrierRelease? then 3 else 4, 0]
    ensures NumberAt(Encode(f), 8, 4, f.source) && NumberAt(Encode(f), 12, 4, f.destination)
  {
    VersionBytes();
    hide Le, Payload, NumberAt;
    var b, h := Encode(f), Header(KindOf(f), 0, f.source, f.destination);
    assert b == h + Payload(f);
    assert h[..8] == [68, 76, 73, 82, 2, 0, KindOf(f), 0] && h[8..12] == Le(f.source, 4) && h[12..16] == Le(f.destination, 4);
    HeadSlices(h, Payload(f));
    NumberIs(b, 8, 4, f.source);
    NumberIs(b, 12, 4, f.destination);
  }

  lemma HeadSlices(h: seq<Byte>, p: seq<Byte>)
    requires |h| == 16
    ensures var b := h + p; b[..8] == h[..8] && b[8..12] == h[8..12] && b[12..16] == h[12..16] && b[16..] == p
  {}

  /** A barrier frame goes on with its generation in eight bytes. */
  lemma BarrierLayout(f: WireFrame)
    requires f.BarrierArrive? || f.BarrierRelease?
    ensures |Encode(f)| == 24 && NumberAt(Encode(f), 16, 8, f.generation)
  {
    HeaderLayout(f);
    hide Encode, Le, NumberAt;
    var b := Encode(f);
    assert b[16..24] == b[16..];
    NumberIs(b, 16, 8, f.generation);
  }

  /** A control frame goes on with its tag in eight bytes, the length of its payload in four, and the payload. */
  lemma ControlLayout(f: WireFrame)
    requires f.Control?
    ensures |Encode(f)| == 28 + |f.payload| && Encode(f)[28..] == f.payload
    ensures NumberAt(Encode(f), 16, 8, f.tag) && NumberAt(Encode(f), 24, 4, |f.payload|)
  {
    HeaderLayout(f);
    hide Encode, Le, NumberAt;
    var b, p := Encode(f), Payload(f);
    assert p[..8] == Le(f.tag, 8) && p[8..12] == Le(|f.payload|, 4) && p[12..] == f.payload;
    TailSlice(b, 16, 0, 8);
    TailSlice(b, 16, 8, 12);
    TailSlice(b, 16, 12, |p|);
    NumberIs(b, 16, 8, f.tag);
    NumberIs(b, 24, 4, |f.payload|);
  }

  lemma TailSlice(b: seq<Byte>, at: nat, lo: nat, hi: nat)
    requires at <= |b| && lo <= hi <= |b| - at
    ensures b[at..][lo..hi] == b[at + lo..at + hi]
    ensures hi == |b| - at ==> b[at..][lo..] == b[at + lo..]
  {}

  /** A tensor frame goes on with its tag in eight bytes, the numbers of its dimensions in four and of its
  values in eight, the dimensions in eight bytes each (`WordsAt`), and the values in four. */
  lemma TensorLayout(f: WireFrame)
    requires f.Tensor?
    ensures |Encode(f)| == 36 + 8 * |f.shape| + 4 * |f.values|
    ensures NumberAt(Encode(f), 16, 8, f.tag) && NumberAt(Encode(f), 24, 4, |f.shape|) && NumberAt(Encode(f), 28, 8, |f.values|)
    ensures Encode(f)[36..36 + 8 * |f.shape|] == Words(f.shape, 8) && Encode(f)[36 + 8 * |f.shape|..] == Words(f.values, 4)
  {
    HeaderLayout(f);
    WordsLength(f.shape, 8);
    WordsLength(f.values, 4);
    var n := 8 * |f.shape|;
    hide Encode, Le, NumberAt, Words;
    var b, p := Encode(f), Payload(f);
    PayloadPieces(Le(f.tag, 8), Le(|f.shape|, 4), Le(|f.values|, 8), Words(f.shape, 8), Words(f.values, 4));
    TailSlice(b, 16, 0, 8);
    TailSlice(b, 16, 8, 12);
    TailSlice(b, 16, 12, 20);
    TailSlice(b, 16, 20, 20 + n);
    TailSlice(b, 16, 20 + n, |p|);
    NumberIs(b, 16, 8, f.tag);
    NumberIs(b, 24, 4, |f.shape|);
    NumberIs(b, 28, 8, |f.values|);
  }

  // ---- decode after encode ----

  lemma PayloadPieces(a: seq<Byte>, b: seq<Byte>, c: seq<Byte>, d: seq<Byte>, e: seq<Byte>)
    requires |a| == 8 && |b| == 4 && |c| == 8
    ensures var p := a + b + c + d + e;
            p[..8] == a && p[8..12] == b && p[12..20] == c && p[20..20 + |d|] == d && p[20 + |d|..] == e
  {}

  lemma TensorRoundTrip(f: WireFrame)
    requires WellFormed(f) && f.Tensor? && |f.shape| < U32
    ensures DecodeTensor(f.source, f.destination, Payload(f)) == if |f.shape| <= MAX_DIMENSIONS then Ok(f) else Err(TooManyDimensions)
  {
    hide Words, Unwords, Le, UnLe, ElementCount, Power;
    Powers();
    UnLeOfLe(f.tag, 8);
    UnLeOfLe(|f.shape|, 4);
    UnLeOfLe(|f.values|, 8);
    UnwordsOfWords(f.shape, 8);
    UnwordsOfWords(f.values, 4);
    PayloadPieces(Le(f.tag, 8), Le(|f.shape|, 4), Le(|f.values|, 8), Words(f.shape, 8), Words(f.values, 4));
  }

  lemma ControlRoundTrip(f: WireFrame)
    requires WellFormed(f) && f.Control?
    ensures DecodeControl(f.source, f.destination, Payload(f)) == Ok(f)
  {
    var p := Payload(f);
    Powers();
    UnLeOfLe(f.tag, 8);
    UnLeOfLe(|f.payload|, 4);
    hide Le, UnLe;
    assert p[..8] == Le(f.tag, 8) && p[8..12] == Le(|f.payload|, 4) && p[12..] == f.payload;
  }

  lemma HeaderRoundTrip(kind: Byte, reserved: Byte, source: nat, destination: nat, p: seq<Byte>)
    requires source < U32 && destination < U32
    ensures Decode(Header(kind, reserved, source, destination) + p) == DecodePayload(kind, source, destination, p)
  {
    var b := Header(kind, reserved, source, destination) + p;
    Powers();
    UnLeOfLe(source, 4);
    UnLeOfLe(destination, 4);
    UnLeOfLe(PROTOCOL_VERSION, 2);
    hide Le, UnLe, DecodePayload;
    assert b[..4] == MAGIC && b[4..6] == Le(PROTOCOL_VERSION, 2) && b[6] == kind;
    assert b[8..12] == Le(source, 4) && b[12..16] == Le(destination, 4) && b[16..] == p;
  }

  /** Decoding an encoded frame gives the frame back exactly when it is not a tensor of more than 64
  dimensions, which the encoder accepts and the decoder refuses. */
  lemma RoundTrip(f: WireFrame)
    requires WellFormed(f) && f.source < U32 && f.destination < U32 && (f.Tensor? ==> |f.shape| < U32)
    ensures Decode(Encode(f)) == Ok(f) <==> (f.Tensor? ==> |f.shape| <= MAX_DIMENSIONS)
    ensures f.Tensor? && |f.shape| > MAX_DIMENSIONS ==> Decode(Encode(f)) == Err(TooManyDimensions)
  {
    HeaderRoundTrip(KindOf(f), 0, f.source, f.destination, Payload(f));
    match f
    case Tensor(_, _, _, _, _) => TensorRoundTrip(f);
    case Control(_, _, _, _) => ControlRoundTrip(f);
    case BarrierArrive(_, _, generation) => Powers(); UnLeOfLe(generation, 8);
    case BarrierRelease(_, _, generation) => Powers(); UnLeOfLe(generation, 8);
  }

  // ---- encode after decode ----

  lemma TensorPieces(f: WireFrame, p: seq<Byte>, d: nat)
    requires f.Tensor? && |p| >= 20 + 8 * d
    requires Le(f.tag, 8) == p[..8] && Le(|f.shape|, 4) == p[8..12] && Le(|f.values|, 8) == p[12..20]
    requires Words(f.shape, 8) == p[20..20 + 8 * d] && Words(f.values, 4) == p[20 + 8 * d..]
    ensures Payload(f) == p
  {
    hide Words, Le;
    assert p == p[..8] + p[8..12] + p[12..20] + p[20..20 + 8 * d] + p[20 + 8 * d..];
  }

  lemma TensorCanonical(source: nat, destination: nat, p: seq<Byte>)
    requires source < U32 && destination < U32 && DecodeTensor(source, destination, p).Ok?
    ensures var f := DecodeTensor(source, destination, p).value;
            f.Tensor? && WellFormed(f) && |f.shape| <= MAX_DIMENSIONS && Payload(f) == p
  {
    hide Words, Unwords, Le, UnLe, ElementCount, Payload;
    var f := DecodeTensor(source, destination, p).value;
    var d := |f.shape|;
    Powers();
    LeOfUnLe(p[..8]);
    LeOfUnLe(p[8..12]);
    LeOfUnLe(p[12..20]);
    WordsOfUnwords(p[20..20 + 8 * d], 8, d);
    WordsOfUnwords(p[20 + 8 * d..], 4, |f.values|);
    TensorPieces(f, p, d);
  }

  lemma ControlCanonical(source: nat, destination: nat, p: seq<Byte>)
    requires source < U32 && destination < U32 && DecodeControl(source, destination, p).Ok?
    ensures var f := DecodeControl(source, destination, p).value;
            f.Control? && WellFormed(f) && Payload(f) == p
  {
    Powers();
    LeOfUnLe(p[..8]);
    LeOfUnLe(p[8..12]);
    assert p == p[..8] + p[8..12] + p[12..];
  }

  lemma PayloadCanonical(kind: Byte, source: nat, destination: nat, p: seq<Byte>)
    requires source < U32 && destination < U32 && DecodePayload(kind, source, destination, p).Ok?
    ensures var f := DecodePayload(kind, source, destination, p).value;
            && WellFormed(f) && KindOf(f) == kind && f.source == source && f.destination == destination
            && (f.Tensor? ==> |f.shape| <= MAX_DIMENSIONS) && Payload(f) == p
  {
    hide DecodeTensor, DecodeControl, UnLe, Le;
    if kind == 1 {
      TensorCanonical(source, destination, p);
      DecodedFields(source, destination, p);
    } else if kind == 4 {
      ControlCanonical(source, destination, p);
      DecodedFields(source, destination, p);
    } else {
      Powers();
      LeOfUnLe(p);
    }
  }

  lemma DecodedFields(source: nat, destination: nat, p: seq<Byte>)
    ensures DecodeTensor(source, destination, p).Ok? ==>
              var f := DecodeTensor(source, destination, p).value; f.source == source && f.destination == destination
    ensures DecodeControl(source, destination, p).Ok? ==>
              var f := DecodeControl(source, destination, p).value; f.source == source && f.destination == destination
  {}

  lemma HeaderCanonical(b: seq<Byte>)
    requires |b| >= 16 && b[..4] == MAGIC && UnLe(b[4..6]) == PROTOCOL_VERSION
    ensures UnLe(b[8..12]) < U32 && UnLe(b[12..16]) < U32
    ensures Header(b[6], 0, UnLe(b[8..12]), UnLe(b[12..16])) + b[16..] == b[7 := 0]
  {
    Powers();
    LeOfUnLe(b[4..6]);
    LeOfUnLe(b[8..12]);
    LeOfUnLe(b[12..16]);
    hide Le, UnLe, Power;
    assert b[7 := 0] == b[..4] + b[4..6] + [b[6]] + [0] + b[8..12] + b[12..16] + b[16..];
  }

  /** Whatever the decoder accepts is what the encoder writes for the decoded frame, but for the reserved byte. */
  lemma Canonical(b: seq<Byte>)
    requires Decode(b).Ok?
    ensures var f := Decode(b).value;
            && WellFormed(f) && f.source < U32 && f.destination < U32 && (f.Tensor? ==> |f.shape| <= MAX_DIMENSIONS)
            && |b| >= 16 && Encode(f) == b[7 := 0]
  {
    hide Le, UnLe, DecodePayload, Payload, Header, WellFormed;
    HeaderCanonical(b);
    PayloadCanonical(b[6], UnLe(b[8..12]), UnLe(b[12..16]), b[16..]);
  }

  // ---- no frame is a prefix of another ----

  /** The length a frame announces in its first bytes. */
  function Announced(b: seq<Byte>): nat
    requires |b| >= 24 && ((b[6] == 1 || b[6] == 4) ==> |b| >= 28) && (b[6] == 1 ==> |b| >= 36)
  {
    if b[6] == 1 then 36 + 8 * UnLe(b[24..28]) + 4 * UnLe(b[28..36])
    else if b[6] == 4 then 28 + UnLe(b[24..28])
    else 24
  }

  lemma AcceptedLength(b: seq<Byte>)
    requires Decode(b).Ok?
    ensures |b| >= 24 && ((b[6] == 1 || b[6] == 4) ==> |b| >= 28) && (b[6] == 1 ==> |b| >= 36)
    ensures |b| == Announced(b)
  {
    var p := b[16..];
    if b[6] == 1 || b[6] == 4 {
      assert p[8..12] == b[24..28];
    }
    if b[6] == 1 {
      assert |p| >= 20;
      assert p[12..20] == b[28..36];
    }
  }

  /** The announced length is read from bytes that a prefix shares. */
  lemma SameAnnounced(a: seq<Byte>, b: seq<Byte>)
    requires a <= b && |a| >= 24 && ((a[6] == 1 || a[6] == 4) ==> |a| >= 28) && (a[6] == 1 ==> |a| >= 36)
    ensures Announced(a) == Announced(b)
  {
    assert a == b[..|a|] && a[6] == b[6];
    if a[6] == 1 || a[6] == 4 {
      assert a[24..28] == b[24..28];
    }
    if a[6] == 1 {
      assert a[28..36] == b[28..36];
    }
  }

  /** No strict prefix and no strict extension of an accepted frame is accepted. */
  lemma PrefixFree(a: seq<Byte>, b: seq<Byte>)
    requires Decode(a).Ok? && a < b
    ensures Decode(b).Err?
  {
    AcceptedLength(a);
    SameAnnounced(a, b);
    if Decode(b).Ok? {
      AcceptedLength(b);
    }
  }

  // ---- length-prefixed streams ----

  function WriteStream(fs: seq<WireFrame>): seq<Byte> {
    if fs == [] then [] else Le(|Encode(fs[0])|, 8) + Encode(fs[0]) + WriteStream(fs[1..])
  }

  function ReadStream(b: seq<Byte>, maximum: nat): Result<seq<WireFrame>, WireError>
    decreases |b|
  {
    if b == [] then Ok([])
    else if |b| < 8 then Err(Truncated)
    else
      var length := UnLe(b[..8]);
      if length > maximum then Err(FrameTooLong)
      else if |b| < 8 + length then Err(Truncated)
      else
        var frame := Decode(b[8..8 + length]);
        if frame.Err? then Err(frame.error)
        else
          var rest := ReadStream(b[8 + length..], maximum);
          if rest.Err? then rest else Ok([frame.value] + rest.value)
  }

  /** The frames that both ends accept: ranks fit four bytes, tensors have at most 64 dimensions, and the
  frame is no longer than the limit. */
  ghost predicate Transmittable(f: WireFrame, maximum: nat) {
    && WellFormed(f) && f.source < U32 && f.destination < U32
    && (f.Tensor? ==> |f.shape| <= 64) && |Encode(f)| <= maximum
  }

  /** The encoder refuses exactly frames whose ranks or dimensions do not fit four bytes, and too long ones. */
  lemma EncoderAccepts(f: WireFrame, maximum: nat)
    ensures EncodeError(f, maximum).None? <==>
              f.source < U32 && f.destination < U32 && (f.Tensor? ==> |f.shape| < U32) && |Encode(f)| <= maximum
    ensures Transmittable(f, maximum) ==> EncodeError(f, maximum).None?
  {
    hide Encode, WellFormed;
  }

  lemma TransmittableDecodes(f: WireFrame, maximum: nat)
    requires Transmittable(f, maximum)
    ensures |Encode(f)| <= maximum && Decode(Encode(f)) == Ok(f)
  {
    hide Encode, Decode, WellFormed;
    assert f.Tensor? ==> |f.shape| < U32;
    RoundTrip(f);
  }

  lemma StreamPieces(body: seq<Byte>, rest: seq<Byte>)
    ensures var b := Le(|body|, 8) + body + rest;
            b[..8] == Le(|body|, 8) && b[8..8 + |body|] == body && b[8 + |body|..] == rest
  {
    hide Le;
  }

  lemma ReadsOneMore(body: seq<Byte>, rest: seq<Byte>, maximum: nat)
    requires |body| <= maximum < U64 && Decode(body).Ok? && ReadStream(rest, maximum).Ok?
    ensures ReadStream(Le(|body|, 8) + body + rest, maximum) == Ok([Decode(body).value] + ReadStream(rest, maximum).value)
  {
    Powers();
    UnLeOfLe(|body|, 8);
    StreamPieces(body, rest);
    hide Decode, Le, UnLe;
  }

  /** A stream of frames reads back as the same frames in the same order. */
  lemma {:induction false} StreamRoundTrip(fs: seq<WireFrame>, maximum: nat)
    requires maximum < U64 && forall i :: 0 <= i < |fs| ==> Transmittable(fs[i], maximum)
    ensures ReadStream(WriteStream(fs), maximum) == Ok(fs)
  {
    if fs != [] {
      hide Encode, Decode, ReadStream, Le, Transmittable;
      TransmittableDecodes(fs[0], maximum);
      StreamRoundTrip(fs[1..], maximum);
      ReadsOneMore(Encode(fs[0]), WriteStream(fs[1..]), maximum);
      assert fs == [fs[0]] + fs[1..];
    }
  }

  // ---- the encoder and the decoder as they run ----

  /** The loops that push the dimensions and the values. */
  method PushWords(body: seq<Byte>, xs: seq<nat>, n: nat) returns (longer: seq<Byte>)
    ensures longer == body + Words(xs, n)
  {
    longer := body;
    for i := 0 to |xs|
      invariant longer == body + Words(xs[..i], n)
    {
      assert xs[..i + 1] == xs[..i] + [xs[i]];
      WordsAppend(xs[..i], xs[i], n);
      longer := longer + Le(xs[i], n);
    }
    assert xs[..|xs|] == xs;
  }

  /** `encode_wire`: pushes the fields into a growing buffer. */
  method EncodeWire(f: WireFrame, maximum: nat) returns (result: Result<seq<Byte>, WireError>)
    requires WellFormed(f)
    ensures result == if EncodeError(f, maximum).Some? then Err(EncodeError(f, maximum).value) else Ok(Encode(f))
  {
    hide Words, Le, WellFormed;
    if f.source >= U32 || f.destination >= U32 {
      return Err(RankOverflow);
    }
    var body := Header(KindOf(f), 0, f.source, f.destination);
    ghost var header := body;
    hide Header;
    match f {
      case Tensor(_, _, tag, shape, values) =>
        if |shape| >= U32 {
          return Err(DimensionOverflow);
        }
        body := body + Le(tag, 8) + Le(|shape|, 4) + Le(|values|, 8);
        body := PushWords(body, shape, 8);
        body := PushWords(body, values, 4);
        assert body == header + (Le(tag, 8) + Le(|shape|, 4) + Le(|values|, 8) + Words(shape, 8) + Words(values, 4));
      case Control(_, _, tag, payload) =>
        body := body + Le(tag, 8) + Le(|payload|, 4) + payload;
        assert body == header + (Le(tag, 8) + Le(|payload|, 4) + payload);
      case BarrierArrive(_, _, generation) =>
        body := body + Le(generation, 8);
      case BarrierRelease(_, _, generation) =>
        body := body + Le(generation, 8);
    }
    if |body| > maximum {
      return Err(FrameTooLong);
    }
    return Ok(body);
  }

  /** `i * n`, by repeated addition. */
  function Offset(n: nat, i: nat): nat {
    if i == 0 then 0 else n + Offset(n, i - 1)
  }

  lemma {:induction false} OffsetIs(n: nat, i: nat)
    ensures Offset(n, i) == n * i
  {
    if i > 0 {
      OffsetIs(n, i - 1);
      MulSucc(i - 1, n);
    }
  }

  lemma SliceOfTail(bytes: seq<Byte>, n: nat, lo: nat, hi: nat)
    requires n <= |bytes| && lo <= hi <= |bytes| - n
    ensures bytes[n..][lo..hi] == bytes[n + lo..n + hi]
  {}

  lemma UnwordsTail(bytes: seq<Byte>, n: nat, count: nat, i: nat)
    requires 0 < i < count && n <= |bytes|
    ensures Unwords(bytes, n, count)[i] == Unwords(bytes[n..], n, count - 1)[i - 1]
  {}

  lemma {:induction false} UnwordsAt(bytes: seq<Byte>, n: nat, count: nat, i: nat, at: nat)
    requires i < count && at == Offset(n, i) && at + n <= |bytes|
    ensures Unwords(bytes, n, count)[i] == UnLe(bytes[at..at + n])
    decreases count
  {
    hide UnLe, Unwords;
    if i == 0 {
      UnwordsHead(bytes, n, count);
    } else {
      var rest := bytes[n..];
      assert at == n + Offset(n, i - 1);
      hide Offset;
      UnwordsTail(bytes, n, count, i);
      UnwordsAt(rest, n, count - 1, i - 1, at - n);
      SliceOfTail(bytes, n, at - n, at);
    }
  }

  lemma UnwordsHead(bytes: seq<Byte>, n: nat, count: nat)
    requires 0 < count && n <= |bytes|
    ensures Unwords(bytes, n, count)[0] == UnLe(bytes[0..0 + n])
  {
    assert bytes[0..0 + n] == First(bytes, n);
  }

  /** The tensor part of `decode_wire`: a cursor runs over counts, dimensions and values. */
  method DecodeTensorWire(source: nat, destination: nat, p: seq<Byte>) returns (result: Result<WireFrame, WireError>)
    ensures result == DecodeTensor(source, destination, p)
  {
    hide Le, UnLe, Unwords, ElementCount;
    if |p| < 12 {
      return Err(Truncated);
    }
    var tag, dimensions := UnLe(p[..8]), UnLe(p[8..12]);
    var cursor := 12;
    if dimensions > MAX_DIMENSIONS {
      return Err(TooManyDimensions);
    }
    if |p| < cursor + 8 {
      return Err(Truncated);
    }
    var elements := UnLe(p[cursor..cursor + 8]);
    cursor := cursor + 8;
    var shape: seq<nat> := [];
    for i := 0 to dimensions
      invariant cursor == 20 + 8 * i <= |p| && |shape| == i
      invariant forall j :: 0 <= j < i ==> shape[j] == UnLe(p[20 + 8 * j..20 + 8 * j + 8])
    {
      if |p| < cursor + 8 {
        return Err(Truncated);
      }
      shape := shape + [UnLe(p[cursor..cursor + 8])];
      cursor := cursor + 8;
    }
    ShapeIs(p, dimensions, shape);
    var remaining := |p| - cursor;
    if 4 * elements >= U64 {
      return Err(PayloadOverflow);
    }
    if remaining != 4 * elements {
      return Err(PayloadMismatch);
    }
    ghost var rest := p[cursor..];
    ghost var start := cursor;
    var values: seq<nat> := [];
    for i := 0 to elements
      invariant cursor == start + 4 * i <= |p| && |values| == i
      invariant forall j :: 0 <= j < i ==> values[j] == UnLe(rest[4 * j..4 * j + 4])
    {
      assert rest[4 * i..4 * i + 4] == p[cursor..cursor + 4];
      values := values + [UnLe(p[cursor..cursor + 4])];
      cursor := cursor + 4;
    }
    ValuesAre(rest, elements, values);
    return if ValidPacket(shape, values) then Ok(Tensor(source, destination, tag, shape, values)) else Err(InvalidPacket);
  }

  lemma ShapeIs(p: seq<Byte>, dimensions: nat, shape: seq<nat>)
    requires |p| >= 20 + 8 * dimensions && |shape| == dimensions
    requires forall j :: 0 <= j < dimensions ==> shape[j] == UnLe(p[20 + 8 * j..20 + 8 * j + 8])
    ensures shape == Unwords(p[20..20 + 8 * dimensions], 8, dimensions)
  {
    hide UnLe, Unwords;
    var bytes := p[20..20 + 8 * dimensions];
    forall j | 0 <= j < dimensions ensures shape[j] == Unwords(bytes, 8, dimensions)[j] {
      OffsetIs(8, j);
      UnwordsAt(bytes, 8, dimensions, j, 8 * j);
      SliceOfSlice(p, 20, 20 + 8 * dimensions, 8 * j, 8 * j + 8);
    }
  }

  lemma ValuesAre(rest: seq<Byte>, elements: nat, values: seq<nat>)
    requires |rest| == 4 * elements && |values| == elements
    requires forall j :: 0 <= j < elements ==> values[j] == UnLe(rest[4 * j..4 * j + 4])
    ensures values == Unwords(rest, 4, elements)
  {
    hide UnLe, Unwords;
    forall j | 0 <= j < elements ensures values[j] == Unwords(rest, 4, elements)[j] {
      OffsetIs(4, j);
      UnwordsAt(rest, 4, elements, j, 4 * j);
    }
  }

  /** `decode_wire`. */
  method DecodeWire(body: seq<Byte>) returns (result: Result<WireFrame, WireError>)
    ensures result == Decode(body)
  {
    hide UnLe, DecodeTensor, ValidPacket;
    if |body| < 4 {
      return Err(Truncated);
    }
    if body[..4] != MAGIC {
      return Err(InvalidMagic);
    }
    if |body| < 6 {
      return Err(Truncated);
    }
    if UnLe(body[4..6]) != PROTOCOL_VERSION {
      return Err(VersionMismatch);
    }
    if |body| < 16 {
      return Err(Truncated);
    }
    var kind, source, destination := body[6], UnLe(body[8..12]), UnLe(body[12..16]);
    var rest := body[16..];
    if kind == 1 {
      result := DecodeTensorWire(source, destination, rest);
      return;
    }
    if kind == 4 {
      if |rest| < 12 {
        return Err(Truncated);
      }
      var tag, length := UnLe(rest[..8]), UnLe(rest[8..12]);
      if |rest| - 12 != length {
        return Err(PayloadMismatch);
      }
      var payload := rest[12..];
      if |payload| > MAX_CONTROL_BYTES {
        return Err(ControlTooLong);
      }
      return Ok(Control(source, destination, tag, payload));
    }
    if kind != 2 && kind != 3 {
      return Err(UnknownKind);
    }
    if |rest| < 8 {
      return Err(Truncated);
    }
    if |rest| != 8 {
      return Err(TrailingBytes);
    }
    assert rest[..8] == rest;
    var generation := UnLe(rest[..8]);
    return Ok(if kind == 2 then BarrierArrive(source, destination, generation) else BarrierRelease(source, destination, generation));
  }
}
