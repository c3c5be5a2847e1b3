/** Length-prefixed framing: the streaming decoder of the VS Code extension, the encoders of both sides and the
    blocking reader of the daemon (extensions/vscode/src/uds.ts, packages/fubun-protocol-ts, crates/fubun-protocol). */
module Framing {
  import opened Wrappers

  type Byte = b: int | 0 <= b < 256 witness 0
  type Bytes = seq<Byte>

  const MAX_MESSAGE_SIZE: nat := 256 * 1024

  // The 4-byte little-endian header.

  function U32(b: Bytes): nat
    requires |b| == 4
  {
    (b[0] as nat) + 0x100 * (b[1] as nat) + 0x1_0000 * (b[2] as nat) + 0x100_0000 * (b[3] as nat)
  }

  function Header(n: nat): (b: Bytes)
    requires n < 0x1_0000_0000
    ensures |b| == 4
  {
    [n % 0x100, n / 0x100 % 0x100, n / 0x1_0000 % 0x100, n / 0x100_0000]
  }

  lemma DivideBy256(q: nat, r: nat)
    requires r < 0x100
    ensures (0x100 * q + r) / 0x100 == q && (0x100 * q + r) % 0x100 == r
  {}

  /** The number that bytes of any count stand for, the least significant byte first. */
  function LittleEndian(b: Bytes): nat {
    if b == [] then 0 else (b[0] as nat) + 0x100 * LittleEndian(b[1..])
  }

  /** Digit i of a number in base 256, counted from the least significant one. */
  function Digit(n: nat, i: nat): nat { if i == 0 then n % 0x100 else Digit(n / 0x100, i - 1) }

  /** Byte i is digit i of the number. */
  lemma {:induction false} LittleEndianDigit(b: Bytes, i: nat)
    requires i < |b|
    ensures b[i] == Digit(LittleEndian(b), i)
  {
    DivideBy256(LittleEndian(b[1..]), b[0] as nat);
    if i > 0 { LittleEndianDigit(b[1..], i - 1); }
  }

  lemma U32IsLittleEndian(b: Bytes)
    requires |b| == 4
    ensures U32(b) == LittleEndian(b)
  {
    assert b == [b[0], b[1], b[2], b[3]];
    assert LittleEndian(b[3..]) == b[3] as nat;
    assert LittleEndian(b[2..]) == b[2] as nat + 0x100 * LittleEndian(b[2..][1..]);
    assert LittleEndian(b[1..]) == b[1] as nat + 0x100 * LittleEndian(b[1..][1..]);
    assert b[1..][1..] == b[2..] && b[2..][1..] == b[3..];
  }

  lemma HeaderRoundTrip(n: nat)
    requires n < 0x1_0000_0000
    ensures U32(Header(n)) == n && LittleEndian(Header(n)) == n
  {
    U32IsLittleEndian(Header(n));
    var a, b, c := n / 0x100, n / 0x1_0000, n / 0x100_0000;
    assert n == 0x100 * a + n % 0x100;
    assert b == a / 0x100 && c == b / 0x100;
    assert a == 0x100 * b + a % 0x100 && b == 0x100 * c + b % 0x100;
  }

  lemma HeaderIsInjective(b: Bytes)
    requires |b| == 4
    ensures LittleEndian(b) == U32(b) < 0x1_0000_0000 && Header(U32(b)) == b
  {
    U32IsLittleEndian(b);
    var n := U32(b);
    var b0, b1, b2, b3 := b[0] as nat, b[1] as nat, b[2] as nat, b[3] as nat;
    DivideBy256(b1 + 0x100 * b2 + 0x1_0000 * b3, b0);
    DivideBy256(b2 + 0x100 * b3, b1);
    DivideBy256(b3, b2);
    assert n / 0x100 == b1 + 0x100 * (b2 + 0x100 * b3);
    assert n / 0x1_0000 == n / 0x100 / 0x100 && n / 0x100_0000 == n / 0x1_0000 / 0x100;
  }

  function Encode(payload: Bytes): Bytes
    requires |payload| < 0x1_0000_0000
  {
    Header(|payload|) + payload
  }

  function EncodeAll(payloads: seq<Bytes>): Bytes
    requires forall p <- payloads :: |p| <= MAX_MESSAGE_SIZE
  {
    if payloads == [] then [] else Encode(payloads[0]) + EncodeAll(payloads[1..])
  }

  datatype FrameError = Oversized | UnexpectedEnd

  /** The wire format: four bytes with the payload's length, the least significant first, and then the payload. */
  predicate IsFrameOf(frame: Bytes, payload: Bytes) {
    && |frame| == |payload| + 4 && frame[4..] == payload && LittleEndian(frame[..4]) == |payload|
    && (forall i :: 0 <= i < 4 ==> frame[i] == Digit(|payload|, i))
    && (|payload| < 0x100 ==> frame[0] == |payload| && frame[1] == 0 && frame[2] == 0 && frame[3] == 0)
  }

  lemma EncodedIsFrame(payload: Bytes)
    requires |payload| < 0x1_0000_0000
    ensures IsFrameOf(Encode(payload), payload)
  {
    var frame := Encode(payload);
    var header := Header(|payload|);
    HeaderRoundTrip(|payload|);
    assert frame[..4] == header && frame[4..] == payload;
    forall i | 0 <= i < 4 ensures frame[i] == Digit(|payload|, i) { LittleEndianDigit(header, i); }
    if |payload| < 0x100 { DigitsOfByte(|payload|); }
  }

  lemma DigitsOfByte(n: nat)
    requires n < 0x100
    ensures Header(n) == [n, 0, 0, 0]
  {}

  /** And a frame is nothing else: these are the only bytes of that form. */
  lemma FrameIsEncoded(frame: Bytes, payload: Bytes)
    requires |frame| == |payload| + 4 && frame[4..] == payload && LittleEndian(frame[..4]) == |payload|
    ensures |payload| < 0x1_0000_0000 && frame == Encode(payload)
  {
    HeaderIsInjective(frame[..4]);
    assert frame == frame[..4] + frame[4..];
  }

  /** encodeUdsFrame: a buffer of the right size, the header written first, then the payload. */
  method EncodeUdsFrame(payload: Bytes) returns (r: Result<array<Byte>, FrameError>)
    ensures r.Ok? <==> |payload| <= 262_144
    ensures r.Ok? ==> fresh(r.value) && r.value[..] == Encode(payload) && IsFrameOf(r.value[..], payload)
  {
    if |payload| > MAX_MESSAGE_SIZE { return Err(Oversized); }
    var frame := new Byte[|payload| + 4];
    var header := Header(|payload|);
    frame[0], frame[1], frame[2], frame[3] := header[0], header[1], header[2], header[3];
    for i := 0 to |payload|
      invariant frame[..4] == header
      invariant frame[4..4 + i] == payload[..i]
    {
      frame[4 + i] := payload[i];
    }
    assert frame[..] == frame[..4] + frame[4..4 + |payload|];
    EncodedIsFrame(payload);
    return Ok(frame);
  }

  /** encode_json_frame: the vector grows by the header and then by the payload. */
  method EncodeJsonFrame(payload: Bytes) returns (r: Result<Bytes, FrameError>)
    ensures r == if |payload| <= 262_144 then Ok(Encode(payload)) else Err(Oversized)
    ensures r.Ok? ==> IsFrameOf(r.value, payload)
  {
    if |payload| > MAX_MESSAGE_SIZE { return Err(Oversized); }
    var frame: Bytes := [];
    frame := frame + Header(|payload|);
    frame := frame + payload;
    assert frame == Encode(payload);
    EncodedIsFrame(payload);
    return Ok(frame);
  }

  // What a whole stream means to the extension. `json` stands for UTF-8 decoding and JSON parsing.

  datatype Reading<V> =
    | Clean(values: seq<V>, rest: Bytes)       // all frames so far, and the bytes of an unfinished one
    | Broken(before: seq<V>, rest: Bytes)      // a bad header or payload after these frames

  function Prepend<V>(v: V, r: Reading<V>): Reading<V> {
    match r
    case Clean(values, rest) => Clean([v] + values, rest)
    case Broken(before, rest) => Broken([v] + before, rest)
  }

  function Parse<V>(stream: Bytes, json: Bytes -> Option<V>): Reading<V> {
    if |stream| < 4 then Clean([], stream) else
      var n := U32(stream[..4]);
      if n == 0 || n > MAX_MESSAGE_SIZE then Broken([], stream)
      else if |stream| < n + 4 then Clean([], stream)
      else match json(stream[4..n + 4])
        case None => Broken([], stream[n + 4..])
        case Some(v) => Prepend(v, Parse(stream[n + 4..], json))
  }

  function PrependAll<V>(values: seq<V>, r: Reading<V>): Reading<V> {
    match r
    case Clean(more, rest) => Clean(values + more, rest)
    case Broken(more, rest) => Broken(values + more, rest)
  }

  /** The decoder object. */
  class UdsFrameDecoder<V> {
    var buffer: Bytes
    const json: Bytes -> Option<V>

    constructor (json: Bytes -> Option<V>)
      ensures buffer == [] && this.json == json
    {
      buffer := [];
      this.json := json;
    }

    /** One turn of the loop: a value was read off, or the loop is over. */
    method TakeFrame() returns (turn: Turn<V>)
      requires |buffer| >= 4
      modifies this
      ensures Parse(old(buffer), json) == AfterTurn(turn, buffer, json)
      ensures turn.Value? ==> |buffer| < |old(buffer)|
    {
      var length := U32(buffer[..4]);
      if length == 0 || length > MAX_MESSAGE_SIZE { return Bad; }
      if |buffer| < length + 4 { return Waits; }
      var payload := buffer[4..length + 4];
      buffer := buffer[length + 4..];
      var value := json(payload);
      turn := if value == None then Bad else Value(value.value);
    }

    /** One push reads off every finished frame; when it throws, the values it had collected are lost. */
    method Push(chunk: Bytes) returns (r: Option<seq<V>>)
      modifies this
      ensures (r, buffer) == Pushed(Parse(old(buffer) + chunk, json))
      ensures FirstFrameDecides(old(buffer) + chunk, json, r, buffer)
    {
      ReadsFirstFrame(buffer + chunk, json);
      buffer := buffer + chunk;
      var values: seq<V> := [];
      ghost var whole := Parse(buffer, json);
      PrependNothing(whole);
      while |buffer| >= 4
        invariant whole == PrependAll(values, Parse(buffer, json))
        decreases |buffer|
      {
        var turn := TakeFrame();
        TurnExtends(values, turn, buffer, json);
        match turn {
          case Bad => return None;
          case Waits => return Some(values);
          case Value(v) => values := values + [v];
        }
      }
      ShortIsRest(values, buffer, json);
      return Some(values);
    }
  }

  datatype Turn<V> = Bad | Waits | Value(value: V)

  /** The reading of what was in the buffer before a turn, from its result and what the buffer holds after it. */
  function AfterTurn<V>(turn: Turn<V>, buffer: Bytes, json: Bytes -> Option<V>): Reading<V> {
    match turn
    case Bad => Broken([], buffer)
    case Waits => Clean([], buffer)
    case Value(v) => Prepend(v, Parse(buffer, json))
  }

  /** What a push returns and keeps. */
  function Pushed<V>(r: Reading<V>): (Option<seq<V>>, Bytes) {
    match r
    case Clean(values, rest) => (Some(values), rest)
    case Broken(_, rest) => (None, rest)
  }

  /** What the first four bytes decide about a push: nothing before they are there; a length outside 1 to 262144 is
      refused; an unfinished frame waits; and one whole frame is decoded as the bytes behind its header. */
  predicate FirstFrameDecides<V(==)>(stream: Bytes, json: Bytes -> Option<V>, r: Option<seq<V>>, buffer: Bytes) {
    if |stream| < 4 then r == Some([]) && buffer == stream else
      var n := LittleEndian(stream[..4]);
      if n == 0 || n > 262_144 then r == None
      else if |stream| < n + 4 then r == Some([]) && buffer == stream
      else match json(stream[4..n + 4])
        case None => r == None
        case Some(v) =>
          && (r.Some? ==> r.value != [] && r.value[0] == v)
          && (|stream| == n + 4 ==> r == Some([v]) && buffer == [])
  }

  lemma ReadsFirstFrame<V>(stream: Bytes, json: Bytes -> Option<V>)
    ensures var (r, buffer) := Pushed(Parse(stream, json)); FirstFrameDecides(stream, json, r, buffer)
  {
    if |stream| >= 4 {
      U32IsLittleEndian(stream[..4]);
      var n := U32(stream[..4]);
      if |stream| == n + 4 && 0 < n <= MAX_MESSAGE_SIZE && json(stream[4..n + 4]).Some? {
        assert stream[n + 4..] == [] && Parse(stream[n + 4..], json) == Clean([], []);
        var v := json(stream[4..n + 4]).value;
        assert [v] + [] == [v];
        assert Parse(stream, json) == Clean([v], []);
      }
    }
  }

  lemma TurnExtends<V>(values: seq<V>, turn: Turn<V>, buffer: Bytes, json: Bytes -> Option<V>)
    ensures var r := PrependAll(values, AfterTurn(turn, buffer, json));
      && (turn == Bad ==> r == Broken(values, buffer)) && (turn == Waits ==> r == Clean(values, buffer))
      && (turn.Value? ==> r == PrependAll(values + [turn.value], Parse(buffer, json)))
  {
    assert values + [] == values;
    if turn.Value? { AppendOne(values, turn.value, Parse(buffer, json)); }
  }

  lemma ShortIsRest<V>(values: seq<V>, buffer: Bytes, json: Bytes -> Option<V>)
    requires |buffer| < 4
    ensures PrependAll(values, Parse(buffer, json)) == Clean(values, buffer)
  {
    assert values + [] == values;
  }

  lemma AppendOne<V>(values: seq<V>, v: V, r: Reading<V>)
    ensures PrependAll(values, Prepend(v, r)) == PrependAll(values + [v], r)
  {
    match r
    case Clean(more, _) => assert values + ([v] + more) == values + [v] + more;
    case Broken(more, _) => assert values + ([v] + more) == values + [v] + more;
  }

  // Feeding a stream in chunks; the session closes at the first throw.

  datatype Feeding<V> = Fed(delivered: seq<V>, buffer: Bytes, open: bool)

  function Feed<V>(buffer: Bytes, chunks: seq<Bytes>, json: Bytes -> Option<V>): Feeding<V>
    decreases |chunks|
  {
    if chunks == [] then Fed([], buffer, true) else
      match Parse(buffer + chunks[0], json)
      case Broken(_, rest) => Fed([], rest, false)
      case Clean(values, rest) =>
        var more := Feed(rest, chunks[1..], json);
        more.(delivered := values + more.delivered)
  }

  function Join(chunks: seq<Bytes>): Bytes {
    if chunks == [] then [] else chunks[0] + Join(chunks[1..])
  }

  lemma FrontOfStream(a: Bytes, b: Bytes, n: nat)
    requires n + 4 <= |a|
    ensures (a + b)[..4] == a[..4] && (a + b)[4..n + 4] == a[4..n + 4] && (a + b)[n + 4..] == a[n + 4..] + b
  {
  }

  /** Reading on after a first part: what it left over is carried into the bytes b. */
  function ReadOn<V>(first: Reading<V>, b: Bytes, json: Bytes -> Option<V>): Reading<V> {
    match first
    case Clean(values, rest) => PrependAll(values, Parse(rest + b, json))
    case Broken(before, rest) => Broken(before, rest + b)
  }

  predicate StartsWithFrame<V>(a: Bytes, json: Bytes -> Option<V>) {
    |a| >= 4 && var n := U32(a[..4]); 0 < n <= MAX_MESSAGE_SIZE && n + 4 <= |a| && json(a[4..n + 4]).Some?
  }

  lemma FrameInFront<V>(a: Bytes, b: Bytes, json: Bytes -> Option<V>)
    requires StartsWithFrame(a, json)
    ensures var n := U32(a[..4]); var v := json(a[4..n + 4]).value;
      && Parse(a, json) == Prepend(v, Parse(a[n + 4..], json))
      && Parse(a + b, json) == Prepend(v, Parse(a[n + 4..] + b, json))
  {
    FrontOfStream(a, b, U32(a[..4]));
  }

  lemma PrependNothing<V>(r: Reading<V>)
    ensures PrependAll([], r) == r
  {
    match r
    case Clean(values, _) => assert [] + values == values;
    case Broken(before, _) => assert [] + before == before;
  }

  lemma BadFrameInFront<V>(a: Bytes, b: Bytes, json: Bytes -> Option<V>)
    requires Parse(a, json).Broken? && !StartsWithFrame(a, json)
    ensures Parse(a + b, json) == Broken([], Parse(a, json).rest + b) && Parse(a, json).before == []
  {
    assert (a + b)[..4] == a[..4];
    var n := U32(a[..4]);
    if 0 < n <= MAX_MESSAGE_SIZE { FrontOfStream(a, b, n); }
  }

  lemma NoFrameInFront<V>(a: Bytes, b: Bytes, json: Bytes -> Option<V>)
    requires !StartsWithFrame(a, json)
    ensures Parse(a + b, json) == ReadOn(Parse(a, json), b, json)
  {
    if Parse(a, json).Broken? {
      BadFrameInFront(a, b, json);
    } else {
      assert Parse(a, json) == Clean([], a);
      PrependNothing(Parse(a + b, json));
    }
  }

  /** A stream may be parsed in two parts. */
  lemma {:induction false} ParseInParts<V>(a: Bytes, b: Bytes, json: Bytes -> Option<V>)
    ensures Parse(a + b, json) == ReadOn(Parse(a, json), b, json)
    decreases |a|
  {
    if StartsWithFrame(a, json) {
      var n := U32(a[..4]);
      FrameInFront(a, b, json);
      ParseInParts(a[n + 4..], b, json);
      ReadOnAfterOne(json(a[4..n + 4]).value, Parse(a[n + 4..], json), b, json);
    } else {
      NoFrameInFront(a, b, json);
    }
  }

  lemma ReadOnAfterOne<V>(v: V, first: Reading<V>, b: Bytes, json: Bytes -> Option<V>)
    ensures ReadOn(Prepend(v, first), b, json) == Prepend(v, ReadOn(first, b, json))
  {
    match first
    case Clean(values, rest) => PrependOnce(v, values, Parse(rest + b, json));
    case Broken(_, _) =>
  }

  lemma PrependOnce<V>(v: V, values: seq<V>, r: Reading<V>)
    ensures Prepend(v, PrependAll(values, r)) == PrependAll([v] + values, r)
  {
    match r
    case Clean(more, _) => assert [v] + (values + more) == [v] + values + more;
    case Broken(more, _) => assert [v] + (values + more) == [v] + values + more;
  }

  /** Chunking invariance: however a stream without a bad frame is cut, the pushes together deliver the frames of the
      whole stream and leave its leftover; a stream with a bad frame closes the session whatever the cut, and delivers
      a prefix of the frames before the bad one. */
  lemma {:induction false} ChunkingInvariance<V>(buffer: Bytes, chunks: seq<Bytes>, json: Bytes -> Option<V>)
    requires Parse(buffer, json) == Clean([], buffer)
    ensures var fed := Feed(buffer, chunks, json);
      match Parse(buffer + Join(chunks), json)
      case Clean(values, rest) => fed == Fed(values, rest, true)
      case Broken(before, _) => !fed.open && fed.delivered <= before
    decreases |chunks|
  {
    if chunks == [] {
      assert buffer + Join(chunks) == buffer;
    } else {
      var first, rest := buffer + chunks[0], Join(chunks[1..]);
      assert buffer + Join(chunks) == first + rest;
      ParseInParts(first, rest, json);
      match Parse(first, json) {
        case Clean(values, left) =>
          LeftoverIsQuiet(first, json);
          ChunkingInvariance(left, chunks[1..], json);
        case Broken(_, _) =>
      }
    }
  }

  lemma {:induction false} LeftoverIsQuiet<V>(stream: Bytes, json: Bytes -> Option<V>)
    requires Parse(stream, json).Clean?
    ensures Parse(Parse(stream, json).rest, json) == Clean([], Parse(stream, json).rest)
    decreases |stream|
  {
    if |stream| >= 4 {
      var n := U32(stream[..4]);
      if n + 4 <= |stream| { LeftoverIsQuiet(stream[n + 4..], json); }
    }
  }

  function OneByOne(stream: Bytes): seq<Bytes> {
    if stream == [] then [] else [[stream[0]]] + OneByOne(stream[1..])
  }

  lemma {:induction false} JoinOneByOne(stream: Bytes)
    ensures Join(OneByOne(stream)) == stream
  {
    if stream != [] { JoinOneByOne(stream[1..]); }
  }

  /** One more byte finishes at most one frame. */
  lemma OneMoreByte<V>(buffer: Bytes, b: Byte, json: Bytes -> Option<V>)
    requires Parse(buffer, json) == Clean([], buffer)
    ensures Parse(buffer + [b], json).Broken? ==> Parse(buffer + [b], json).before == []
  {
    var next := buffer + [b];
    if |next| >= 4 {
      var n := U32(next[..4]);
      if 0 < n <= MAX_MESSAGE_SIZE && n + 4 <= |next| {
        if |buffer| >= 4 {
          assert next[..4] == buffer[..4];
          assert Parse(buffer, json) != Clean([], buffer) || |buffer| < n + 4;
        }
        assert n + 4 == |next|;
        assert next[n + 4..] == [];
      }
    }
  }

  lemma {:induction false} ByteByByteDeliversAll<V>(buffer: Bytes, stream: Bytes, json: Bytes -> Option<V>)
    requires Parse(buffer, json) == Clean([], buffer) && Parse(buffer + stream, json).Broken?
    ensures Feed(buffer, OneByOne(stream), json).delivered == Parse(buffer + stream, json).before
    decreases |stream|
  {
    assert buffer + [] == buffer;
    if stream != [] {
      var next, tail := buffer + [stream[0]], stream[1..];
      assert buffer + stream == next + tail;
      ParseInParts(next, tail, json);
      OneMoreByte(buffer, stream[0], json);
      assert OneByOne(stream)[0] == [stream[0]] && OneByOne(stream)[1..] == OneByOne(tail);
      match Parse(next, json) {
        case Clean(values, left) =>
          LeftoverIsQuiet(next, json);
          ByteByByteDeliversAll(left, tail, json);
        case Broken(_, _) =>
      }
    }
  }

  /** With a bad frame, the delivery depends on the cut exactly when a good frame comes before the bad one. */
  lemma DeliveryDependsOnTheCutIff<V>(stream: Bytes, json: Bytes -> Option<V>)
    requires Parse(stream, json).Broken?
    ensures Parse(stream, json).before == []
      <==> forall chunks, chunks' :: Join(chunks) == stream && Join(chunks') == stream ==>
             Feed([], chunks, json).delivered == Feed([], chunks', json).delivered
  {
    assert [] + stream == stream;
    if Parse(stream, json).before == [] {
      forall chunks | Join(chunks) == stream ensures Feed([], chunks, json).delivered == [] {
        ChunkingInvariance([], chunks, json);
      }
    } else {
      ByteByByteDeliversAll([], stream, json);
      JoinOneByOne(stream);
      assert Join([stream]) == stream;
      assert Feed([], [stream], json).delivered == [];
      assert Feed([], OneByOne(stream), json).delivered != Feed([], [stream], json).delivered;
    }
  }

  // Round trip.

  function Decoded<V>(payloads: seq<Bytes>, json: Bytes -> Option<V>): seq<V>
    requires forall p <- payloads :: json(p).Some?
  {
    if payloads == [] then [] else [json(payloads[0]).value] + Decoded(payloads[1..], json)
  }

  lemma FirstFrame(p: Bytes, rest: Bytes)
    requires |p| <= MAX_MESSAGE_SIZE
    ensures var stream := Encode(p) + rest;
      |stream| == |p| + 4 + |rest| && U32(stream[..4]) == |p| && stream[4..|p| + 4] == p && stream[|p| + 4..] == rest
  {
    HeaderRoundTrip(|p|);
    var stream := Encode(p) + rest;
    assert stream == Header(|p|) + p + rest;
    assert stream[..4] == Header(|p|);
  }

  lemma {:induction false} ParseEncoded<V>(payloads: seq<Bytes>, json: Bytes -> Option<V>)
    requires (forall p <- payloads :: 0 < |p| <= 262_144) && forall p <- payloads :: json(p).Some?
    ensures Parse(EncodeAll(payloads), json) == Clean(Decoded(payloads, json), [])
  {
    if payloads != [] {
      ParseEncoded(payloads[1..], json);
      assert 0 < |payloads[0]| <= 262_144;
      FirstFrame(payloads[0], EncodeAll(payloads[1..]));
    }
  }

  /** Whatever way encoded payloads are cut into chunks, exactly what they decode to comes out, and nothing is left. */
  lemma EncodedFramesAreFed<V>(payloads: seq<Bytes>, chunks: seq<Bytes>, json: Bytes -> Option<V>)
    requires (forall p <- payloads :: 0 < |p| <= 262_144) && forall p <- payloads :: json(p).Some?
    requires Join(chunks) == EncodeAll(payloads)
    ensures Feed([], chunks, json) == Fed(Decoded(payloads, json), [], true)
  {
    ParseEncoded(payloads, json);
    assert [] + Join(chunks) == EncodeAll(payloads);
    ChunkingInvariance([], chunks, json);
  }

  /** Payloads taken as they are, without looking into them. */
  function Raw(payload: Bytes): Option<Bytes> { Some(payload) }

  lemma {:induction false} DecodedRaw(payloads: seq<Bytes>)
    ensures Decoded(payloads, Raw) == payloads
  {
    if payloads != [] { DecodedRaw(payloads[1..]); }
  }

  /** Round trip: so the payloads themselves come out when they are taken as they are. */
  lemma FramesRoundTrip(payloads: seq<Bytes>, chunks: seq<Bytes>)
    requires (forall p <- payloads :: 0 < |p| <= 262_144) && Join(chunks) == EncodeAll(payloads)
    ensures Feed([], chunks, Raw) == Fed(payloads, [], true)
  {
    EncodedFramesAreFed(payloads, chunks, Raw);
    DecodedRaw(payloads);
  }

  // The daemon's reader.

  datatype ReadEnd = CleanEnd | Failed(error: FrameError)
  datatype Frames = Frames(payloads: seq<Bytes>, end: ReadEnd)

  /** All that read_frame yields on a stream, until it stops. */
  function ReadAll(stream: Bytes): Frames {
    if stream == [] then Frames([], CleanEnd)
    else if |stream| < 4 then Frames([], Failed(UnexpectedEnd)) else
      var n := U32(stream[..4]);
      if n > MAX_MESSAGE_SIZE then Frames([], Failed(Oversized))
      else if |stream| < n + 4 then Frames([], Failed(UnexpectedEnd))
      else var more := ReadAll(stream[n + 4..]); more.(payloads := [stream[4..n + 4]] + more.payloads)
  }

  /** What the first four bytes decide about a read: it fails exactly on a length above 262144 or on a stream that ends
      inside the frame, and otherwise yields the bytes behind the header and leaves the rest. */
  predicate FirstFrameRead(stream: Bytes, r: Result<Option<Bytes>, FrameError>, rest: Bytes) {
    if stream == [] then r == Ok(None)
    else if |stream| < 4 then r == Err(UnexpectedEnd) else
      var n := LittleEndian(stream[..4]);
      if n > 262_144 then r == Err(Oversized)
      else if |stream| < n + 4 then r == Err(UnexpectedEnd)
      else r == Ok(Some(stream[4..n + 4])) && rest == stream[n + 4..]
  }

  class FrameReader {
    var stream: Bytes

    constructor (stream: Bytes)
      ensures this.stream == stream
    {
      this.stream := stream;
    }

    /** Fills a buffer of n bytes or fails at the end of the stream. */
    method ReadExact(n: nat) returns (r: Result<Bytes, FrameError>)
      modifies this
      ensures n <= |old(stream)| ==> r == Ok(old(stream)[..n]) && stream == old(stream)[n..]
      ensures n > |old(stream)| ==> r == Err(UnexpectedEnd) && stream == []
    {
      if |stream| < n {
        stream := [];
        return Err(UnexpectedEnd);
      }
      r := Ok(stream[..n]);
      stream := stream[n..];
    }

    /** read_frame: None is the clean end, seen only where a frame would begin. */
    method ReadFrame() returns (r: Result<Option<Bytes>, FrameError>)
      modifies this
      ensures r == Ok(None) <==> old(stream) == []
      ensures r.Ok? && r.value.Some? ==>
        && |r.value.value| <= MAX_MESSAGE_SIZE && old(stream) == Encode(r.value.value) + stream
        && ReadAll(old(stream)) == Frames([r.value.value] + ReadAll(stream).payloads, ReadAll(stream).end)
      ensures r.Err? ==> ReadAll(old(stream)) == Frames([], Failed(r.error))
      ensures FirstFrameRead(old(stream), r, stream)
    {
      ghost var was := stream;
      if |was| >= 4 { U32IsLittleEndian(was[..4]); }
      if |stream| == 0 { return Ok(None); }
      var first := stream[..1];
      stream := stream[1..];
      var others := ReadExact(3);
      if others.Err? { return Err(others.error); }
      var header := first + others.value;
      assert header == was[..4] && stream == was[4..];
      var length := U32(header);
      if length > MAX_MESSAGE_SIZE { return Err(Oversized); }
      var payload := ReadExact(length);
      if payload.Err? { return Err(payload.error); }
      HeaderIsInjective(header);
      assert payload.value == was[4..length + 4] && stream == was[length + 4..];
      assert was == header + payload.value + stream;
      return Ok(Some(payload.value));
    }
  }

  lemma EncodeOneMore(payload: Bytes, payloads: seq<Bytes>)
    requires |payload| <= MAX_MESSAGE_SIZE && forall p <- payloads :: |p| <= MAX_MESSAGE_SIZE
    ensures forall p <- [payload] + payloads :: |p| <= MAX_MESSAGE_SIZE
    ensures EncodeAll([payload] + payloads) == Encode(payload) + EncodeAll(payloads)
  {
    assert ([payload] + payloads)[1..] == payloads;
  }

  /** The reader ends cleanly exactly on a sequence of whole frames. */
  lemma {:induction false} CleanEndIsFrameBoundary(stream: Bytes)
    ensures ReadAll(stream).end == CleanEnd ==>
      (forall p <- ReadAll(stream).payloads :: |p| <= MAX_MESSAGE_SIZE) && EncodeAll(ReadAll(stream).payloads) == stream
    decreases |stream|
  {
    if |stream| >= 4 {
      var n := U32(stream[..4]);
      if n <= MAX_MESSAGE_SIZE && n + 4 <= |stream| {
        var payload, tail := stream[4..n + 4], stream[n + 4..];
        CleanEndIsFrameBoundary(tail);
        HeaderIsInjective(stream[..4]);
        assert stream == Encode(payload) + tail;
        assert ReadAll(stream).payloads == [payload] + ReadAll(tail).payloads;
        if ReadAll(tail).end == CleanEnd { EncodeOneMore(payload, ReadAll(tail).payloads); }
      }
    }
  }

  lemma {:induction false} ReadEncoded(payloads: seq<Bytes>)
    requires forall p <- payloads :: |p| <= MAX_MESSAGE_SIZE
    ensures ReadAll(EncodeAll(payloads)) == Frames(payloads, CleanEnd)
  {
    if payloads != [] {
      var p, rest := payloads[0], payloads[1..];
      ReadEncoded(rest);
      FirstFrame(p, EncodeAll(rest));
      assert payloads == [p] + rest;
    }
  }

  /** Both readers agree on a stream the extension reads without a throw: the daemon yields the same payloads, and it
      ends cleanly exactly when the extension has nothing left over. */
  lemma {:induction false} ReadersAgree(stream: Bytes)
    requires Parse(stream, Raw).Clean?
    ensures var values, rest := Parse(stream, Raw).values, Parse(stream, Raw).rest;
      ReadAll(stream) == Frames(values, if rest == [] then CleanEnd else Failed(UnexpectedEnd))
    decreases |stream|
  {
    if |stream| >= 4 {
      var n := U32(stream[..4]);
      if n + 4 <= |stream| { ReadersAgree(stream[n + 4..]); }
    }
  }

  /** On a stream the extension throws on, they differ exactly when the bad header announces an empty frame: the daemon
      reads an empty payload there and goes on. On any other bad header both stop after the same frames. */
  lemma {:induction false} ReadersSplitIff(stream: Bytes)
    requires Parse(stream, Raw).Broken?
    ensures var before, rest := Parse(stream, Raw).before, Parse(stream, Raw).rest;
      && |rest| >= 4
      && (ReadAll(stream).payloads != before <==> U32(rest[..4]) == 0)
      && (if U32(rest[..4]) == 0
          then ReadAll(stream) == Frames(before + [[]] + ReadAll(rest[4..]).payloads, ReadAll(rest[4..]).end)
          else ReadAll(stream) == Frames(before, Failed(Oversized)))
    decreases |stream|
  {
    var n := U32(stream[..4]);
    if n == 0 {
      assert stream[4..4] == [];
    } else if n <= MAX_MESSAGE_SIZE {
      var tail := stream[n + 4..];
      ReadersSplitIff(tail);
      BehindOneMore(stream[4..n + 4], Parse(tail, Raw).before, ReadAll(Parse(tail, Raw).rest[4..]).payloads);
    }
  }

  lemma BehindOneMore(payload: Bytes, before: seq<Bytes>, more: seq<Bytes>)
    ensures [payload] + (before + [[]] + more) == [payload] + before + [[]] + more
    ensures [payload] + before + [[]] + more != [payload] + before
  {
    assert |[payload] + before + [[]] + more| > |[payload] + before|;
  }

  /** The shortest stream that splits them. */
  lemma EmptyFrameSplitsReaders()
    ensures Parse(Encode([]), Raw).Broken? && ReadAll(Encode([])) == Frames([[]], CleanEnd)
  {
    HeaderRoundTrip(0);
    var stream := Encode([]);
    assert stream[..4] == Header(0) && stream[4..4] == [] && stream[4..] == [];
  }

  /** A stream whose delivery depends on the cut: a good frame and then a bad header. */
  lemma GoodFrameBeforeBadHeader()
    ensures Parse(Encode([1]) + [0, 0, 0, 0], Raw) == Broken([[1]], [0, 0, 0, 0])
  {
    var bad: Bytes := [0, 0, 0, 0];
    FirstFrame([1], bad);
    assert bad[..4] == bad && U32(bad) == 0;
    assert Parse(bad, Raw) == Broken([], bad);
  }

  /** decodeUdsFrame: exactly one whole frame. */
  function DecodeUdsFrame<V>(frame: Bytes, json: Bytes -> Option<V>): Option<V> {
    if |frame| < 4 then None else
      var n := U32(frame[..4]);
      if n == 0 || n > MAX_MESSAGE_SIZE || |frame| != n + 4 then None else json(frame[4..])
  }

  /** It accepts exactly the frames that the streaming decoder reads as a single value with nothing left. */
  lemma DecodeIsParseOfOne<V>(frame: Bytes, json: Bytes -> Option<V>, v: V)
    ensures DecodeUdsFrame(frame, json) == Some(v) <==> Parse(frame, json) == Clean([v], [])
  {
    if |frame| >= 4 {
      var n := U32(frame[..4]);
      if 0 < n <= MAX_MESSAGE_SIZE && n + 4 <= |frame| {
        var rest := frame[n + 4..];
        if rest == [] {
          assert frame[4..] == frame[4..n + 4];
          if json(frame[4..]).Some? {
            var w := json(frame[4..]).value;
            assert Parse(rest, json) == Clean([], []);
            assert Parse(frame, json) == Clean([w], []);
            assert [w][0] == w && [v][0] == v;
          }
        } else if json(frame[4..n + 4]).Some? {
          var w := json(frame[4..n + 4]).value;
          assert Parse(frame, json) == Prepend(w, Parse(rest, json));
          if Parse(rest, json).Clean? {
            assert Parse(rest, json).values == ([w] + Parse(rest, json).values)[1..];
            assert Parse(rest, json).values != [] || Parse(rest, json).rest == rest;
          }
        }
      }
    }
  }
}
