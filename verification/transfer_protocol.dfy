/** Binary messages of the file transfer: src/protocol/transfer.rs. */
module TransferProtocol {
  import opened Wrappers
  import ChunkPlan

  type Byte = b: int | 0 <= b < 256

  type U32 = x: int | 0 <= x < 0x1_0000_0000

  type U64 = x: int | 0 <= x < 0x1_0000_0000_0000_0000

  // ---------- big-endian integers ----------

  function Pow256(width: nat): (p: nat)
    ensures p > 0
  {
    if width == 0 then 1 else 256 * Pow256(width - 1)
  }

  /** The low `width` bytes of v, most significant first. */
  function PutUint(v: nat, width: nat): (s: seq<Byte>)
    ensures |s| == width
  {
    if width == 0 then [] else PutUint(v / 256, width - 1) + [v % 256]
  }

  function GetUint(s: seq<Byte>): (v: nat)
    ensures v < Pow256(|s|)
  {
    if s == [] then 0 else 256 * GetUint(s[..|s| - 1]) + s[|s| - 1]
  }

  lemma {:induction false} GetAfterPut(v: nat, width: nat)
    requires v < Pow256(width)
    ensures GetUint(PutUint(v, width)) == v
  {
    if width > 0 {
      GetAfterPut(v / 256, width - 1);
      assert PutUint(v, width)[..width - 1] == PutUint(v / 256, width - 1);
    }
  }

  lemma {:induction false} PutAfterGet(s: seq<Byte>)
    ensures PutUint(GetUint(s), |s|) == s
  {
    if s != [] {
      PutAfterGet(s[..|s| - 1]);
    }
  }

  lemma QuotientOf(p: nat, m: nat, rem: nat)
    requires rem < m
    ensures (p * m + rem) / m == p
  {
    var n := p * m + rem;
    var q := n / m;
    assert n == q * m + n % m;
    assert (q + 1) * m == q * m + m && (p + 1) * m == p * m + m;
    if q < p { MulMonotone(q + 1, p, m); }
    if p < q { MulMonotone(p + 1, q, m); }
  }

  lemma QuotientTwice(v: nat, a: nat, b: nat)
    requires a > 0 && b > 0
    ensures a * b > 0 && (v / a) / b == v / (a * b)
  {
    var q := v / a;
    var p, t, r := q / b, q % b, v % a;
    assert v == q * a + r && q == p * b + t;
    assert (p * b + t) * a == p * (a * b) + t * a;
    assert (t + 1) * a == t * a + a;
    MulMonotone(t + 1, b, a);
    MulMonotone(1, b, a);
    assert b * a == a * b;
    QuotientOf(p, a * b, t * a + r);
  }

  /** Network order: the byte at place `i` counts in units of 256 to the number of places behind it. */
  lemma {:induction false} ByteAt(v: nat, width: nat, i: nat)
    requires i < width
    ensures PutUint(v, width)[i] == v / Pow256(width - 1 - i) % 256
    decreases width
  {
    if i < width - 1 {
      ByteAt(v / 256, width - 1, i);
      QuotientTwice(v, 256, Pow256(width - 2 - i));
    }
  }

  lemma Widths()
    ensures Pow256(4) == 0x1_0000_0000
    ensures Pow256(8) == 0x1_0000_0000_0000_0000
  {
    assert Pow256(1) == 256;
    assert Pow256(2) == 0x1_0000;
    assert Pow256(3) == 0x100_0000;
    assert Pow256(5) == 0x100_0000_0000;
    assert Pow256(6) == 0x1_0000_0000_0000;
    assert Pow256(7) == 0x100_0000_0000_0000;
  }

  function GetU32(s: seq<Byte>): U32
    requires |s| == 4
  {
    Widths();
    GetUint(s)
  }

  function GetU64(s: seq<Byte>): U64
    requires |s| == 8
  {
    Widths();
    GetUint(s)
  }

  // ---------- message types ----------

  datatype MessageType =
    | Hello | FileInfo | FileInfoAck | Done | Ack
    | StreamInfo | StreamInfoAck | ChunkAck | ChunkHeader | ChunkNack

  function Code(t: MessageType): Byte {
    match t
    case Hello => 1
    case FileInfo => 2
    case FileInfoAck => 3
    case Done => 5
    case Ack => 6
    case StreamInfo => 8
    case StreamInfoAck => 9
    case ChunkAck => 10
    case ChunkHeader => 13
    case ChunkNack => 15
  }

  /** The source's `from_u8`. Its contract makes it the exact inverse of `Code`. */
  function FromCode(v: Byte): (r: Option<MessageType>)
    ensures r.Some? ==> Code(r.value) == v
    ensures r.None? ==> forall t: MessageType :: Code(t) != v
  {
    match v
    case 1 => Some(Hello)
    case 2 => Some(FileInfo)
    case 3 => Some(FileInfoAck)
    case 5 => Some(Done)
    case 6 => Some(Ack)
    case 8 => Some(StreamInfo)
    case 9 => Some(StreamInfoAck)
    case 10 => Some(ChunkAck)
    case 13 => Some(ChunkHeader)
    case 15 => Some(ChunkNack)
    case _ => None
  }

  // ---------- acknowledgements ----------

  datatype AckMessage = AckMessage(chunkId: U32, isNack: bool)

  function EncodeAck(m: AckMessage): (s: seq<Byte>)
    ensures |s| == 5
  {
    [Code(if m.isNack then ChunkNack else ChunkAck)] + PutUint(m.chunkId, 4)
  }

  function DecodeAck(data: seq<Byte>): (r: Option<AckMessage>)
  {
    if |data| < 5 then None
    else
      match FromCode(data[0])
      case Some(ChunkAck) => Some(AckMessage(GetU32(data[1..5]), false))
      case Some(ChunkNack) => Some(AckMessage(GetU32(data[1..5]), true))
      case _ => None
  }

  /** An acknowledgement decodes to what was encoded, and every accepted five
      bytes are the encoding of the decoded message: neither side invents one. */
  lemma {:induction false} AckRoundTrip(m: AckMessage, data: seq<Byte>)
    ensures DecodeAck(EncodeAck(m)) == Some(m)
    ensures |data| == 5 && DecodeAck(data).Some? ==> EncodeAck(DecodeAck(data).value) == data
  {
    Widths();
    GetAfterPut(m.chunkId, 4);
    assert EncodeAck(m)[1..5] == PutUint(m.chunkId, 4);
    if |data| == 5 {
      PutAfterGet(data[1..5]);
      assert data == [data[0]] + data[1..5];
    }
  }

  // ---------- chunk headers ----------

  datatype Header = Header(chunkId: U32, offset: U64, len: U32, hash32: U32)

  const HEADER_SIZE: nat := 21

  function EncodeHeader(h: Header): (s: seq<Byte>)
    ensures |s| == HEADER_SIZE && s[0] == Code(ChunkHeader)
  {
    [Code(ChunkHeader)] + PutUint(h.chunkId, 4) + PutUint(h.offset, 8) + PutUint(h.len, 4) + PutUint(h.hash32, 4)
  }

  /** As in the source, the type byte is skipped, not checked. */
  function DecodeHeader(data: seq<Byte>): (r: Option<Header>)
    ensures r.Some? <==> |data| >= HEADER_SIZE
  {
    if |data| < HEADER_SIZE then None
    else Some(Header(GetU32(data[1..5]), GetU64(data[5..13]), GetU32(data[13..17]), GetU32(data[17..21])))
  }

  lemma {:induction false} HeaderRoundTrip(h: Header)
    ensures DecodeHeader(EncodeHeader(h)) == Some(h)
  {
    var s := EncodeHeader(h);
    Widths();
    GetAfterPut(h.chunkId, 4);
    GetAfterPut(h.offset, 8);
    GetAfterPut(h.len, 4);
    GetAfterPut(h.hash32, 4);
    assert s[1..5] == PutUint(h.chunkId, 4);
    assert s[5..13] == PutUint(h.offset, 8);
    assert s[13..17] == PutUint(h.len, 4);
    assert s[17..21] == PutUint(h.hash32, 4);
  }

  // ---------- a stream of chunks ----------

  datatype Chunk = Chunk(header: Header, payload: seq<Byte>)

  /** A chunk as the sender writes it: the length field describes the payload. */
  predicate WellFormed(c: Chunk) {
    c.header.len == |c.payload|
  }

  function EncodeChunk(c: Chunk): seq<Byte> {
    EncodeHeader(c.header) + c.payload
  }

  function EncodeChunks(cs: seq<Chunk>): seq<Byte> {
    if cs == [] then [] else EncodeChunk(cs[0]) + EncodeChunks(cs[1..])
  }

  /** What the receiver knows when it checks a header. */
  datatype Limits = Limits(totalChunks: nat, fileSize: nat)

  predicate InBounds(lim: Limits, h: Header) {
    ChunkPlan.HeaderInBounds(h.chunkId, h.offset, h.len, lim.totalChunks, lim.fileSize)
  }

  datatype StreamEnd = DoneReceived | ReadError | UnknownType | UnexpectedType | BadHeader

  /** What the receiver's read loop makes of the bytes of one stream. */
  datatype Parsed = Parsed(chunks: seq<Chunk>, end: StreamEnd, rest: seq<Byte>)

  function Prepend(c: Chunk, p: Parsed): Parsed {
    p.(chunks := [c] + p.chunks)
  }

  /** One iteration of the read loop: the next message at the head of `input`. */
  datatype Message = Data(chunk: Chunk) | Stop(end: StreamEnd, consumed: nat)

  function NextMessage(lim: Limits, input: seq<Byte>): (m: Message)
    ensures m.Data? ==> HEADER_SIZE + |m.chunk.payload| <= |input| && WellFormed(m.chunk)
    ensures m.Stop? ==> m.consumed <= |input|
  {
    if input == [] then Stop(ReadError, 0)
    else
      match FromCode(input[0])
      case None => Stop(UnknownType, 1)
      case Some(Done) => Stop(DoneReceived, 1)
      case Some(ChunkHeader) =>
        if |input| < HEADER_SIZE then Stop(ReadError, |input|)
        else
          var h := DecodeHeader(input[..HEADER_SIZE]).value;
          if !InBounds(lim, h) then Stop(BadHeader, HEADER_SIZE)
          else if |input| < HEADER_SIZE + h.len then Stop(ReadError, |input|)
          else Data(Chunk(h, input[HEADER_SIZE..HEADER_SIZE + h.len]))
      case Some(_) => Stop(UnexpectedType, 1)
  }

  function ParseStream(lim: Limits, input: seq<Byte>): Parsed
    decreases |input|
  {
    match NextMessage(lim, input)
    case Stop(end, n) => Parsed([], end, input[n..])
    case Data(c) => Prepend(c, ParseStream(lim, input[HEADER_SIZE + |c.payload|..]))
  }

  lemma {:induction false} NextOfEncodedChunk(lim: Limits, c: Chunk, tail: seq<Byte>)
    requires WellFormed(c) && InBounds(lim, c.header)
    ensures NextMessage(lim, EncodeChunk(c) + tail) == Data(c)
    ensures (EncodeChunk(c) + tail)[HEADER_SIZE + |c.payload|..] == tail
  {
    var input := EncodeChunk(c) + tail;
    HeaderRoundTrip(c.header);
    assert input[0] == Code(ChunkHeader);
    assert FromCode(input[0]) == Some(ChunkHeader);
    assert input[..HEADER_SIZE] == EncodeHeader(c.header);
    assert input[HEADER_SIZE..HEADER_SIZE + c.header.len] == c.payload;
  }

  /** Framing: the receiver's read loop takes a stream of encoded chunks followed
      by DONE apart into exactly the chunks that were put in, stops at DONE and
      leaves everything behind it unread. */
  lemma {:induction false} FramingRoundTrip(lim: Limits, cs: seq<Chunk>, tail: seq<Byte>)
    requires forall c :: c in cs ==> WellFormed(c) && InBounds(lim, c.header)
    ensures ParseStream(lim, EncodeChunks(cs) + [Code(Done)] + tail) == Parsed(cs, DoneReceived, tail)
  {
    var input := EncodeChunks(cs) + [Code(Done)] + tail;
    if cs == [] {
      assert input == [Code(Done)] + tail;
      assert input[1..] == tail;
    } else {
      var after := EncodeChunks(cs[1..]) + [Code(Done)] + tail;
      assert input == EncodeChunk(cs[0]) + after;
      NextOfEncodedChunk(lim, cs[0], after);
      FramingRoundTrip(lim, cs[1..], tail);
      assert cs == [cs[0]] + cs[1..];
    }
  }

  lemma NextIsPrefix(lim: Limits, input: seq<Byte>)
    requires NextMessage(lim, input).Data?
    ensures var c := NextMessage(lim, input).chunk;
            && InBounds(lim, c.header)
            && EncodeChunk(c) == input[..HEADER_SIZE + |c.payload|]
  {
    var c := NextMessage(lim, input).chunk;
    var head := input[..HEADER_SIZE];
    PutAfterGet(head[1..5]);
    PutAfterGet(head[5..13]);
    PutAfterGet(head[13..17]);
    PutAfterGet(head[17..21]);
    assert head == [head[0]] + head[1..5] + head[5..13] + head[13..17] + head[17..21];
    assert EncodeHeader(c.header) == head;
  }

  /** Nothing parsed is invented: whatever bytes arrive, the chunks found satisfy
      the receiver's bounds, and encoding them again gives the bytes they came from. */
  lemma {:induction false} ParsedIsPrefix(lim: Limits, input: seq<Byte>)
    ensures forall c :: c in ParseStream(lim, input).chunks ==> WellFormed(c) && InBounds(lim, c.header)
    ensures EncodeChunks(ParseStream(lim, input).chunks) <= input
    decreases |input|
  {
    var m := NextMessage(lim, input);
    if m.Data? {
      var n := HEADER_SIZE + |m.chunk.payload|;
      NextIsPrefix(lim, input);
      ParsedIsPrefix(lim, input[n..]);
      var rest := ParseStream(lim, input[n..]).chunks;
      assert ([m.chunk] + rest)[1..] == rest;
      assert input == input[..n] + input[n..];
    }
  }
}
