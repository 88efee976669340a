/** Length-prefixed packets over a byte stream: the printer, the incremental parser, and why
  * the way the stream is cut into reads does not matter.
  */
module PacketStream {
  import opened Bits

  const MAX_PAYLOAD: nat := 65536
  const HEADER: nat := 6                  // a 32-bit length and a 16-bit id

  datatype Packet = Packet(id: nat, payload: seq<Byte>)

  // ---- Network byte order ----

  function Encode32(n: nat): (r: seq<Byte>)
    requires n < 0x1_0000_0000
  {
    [n / 0x100_0000, n / 0x1_0000 % 256, n / 256 % 256, n % 256]
  }

  function Decode32(s: seq<Byte>): nat
    requires |s| == 4
  {
    (((s[0] as nat) * 256 + s[1]) * 256 + s[2]) * 256 + s[3]
  }

  function Encode16(n: nat): (r: seq<Byte>)
    requires n < 0x1_0000
  {
    [n / 256, n % 256]
  }

  function Decode16(s: seq<Byte>): (n: nat)
    requires |s| == 2
    ensures n < 0x1_0000
  {
    (s[0] as nat) * 256 + s[1]
  }

  lemma RoundTrip32(n: nat)
    requires n < 0x1_0000_0000
    ensures Decode32(Encode32(n)) == n
  {
    var a, b := n / 256, n / 0x1_0000;
    assert b == a / 256 && n / 0x100_0000 == b / 256;
    assert n == 256 * a + n % 256 && a == 256 * b + a % 256 && b == 256 * (b / 256) + b % 256;
  }

  // ---- The printer ----

  // Empty when the length does not fit its 32 bits.
  function MakePacket(id: nat, payload: seq<Byte>): (r: seq<Byte>)
    requires id < 0x1_0000
  {
    if |payload| > 0xFFFF_FFFF - 2 then [] else Encode32(2 + |payload|) + Encode16(id) + payload
  }

  // ---- What a byte stream means ----

  datatype Parsed = Parsed(packets: seq<Packet>, rest: seq<Byte>, error: bool)

  function Length(s: seq<Byte>): nat
    requires |s| >= HEADER
  {
    Decode32(s[..4])
  }

  predicate BadLength(s: seq<Byte>)
    requires |s| >= HEADER
  {
    Length(s) < 2 || Length(s) > 2 + MAX_PAYLOAD
  }

  // A whole packet is at the front.
  predicate HasPacket(s: seq<Byte>) {
    |s| >= HEADER && !BadLength(s) && |s| >= 4 + Length(s)
  }

  function Front(s: seq<Byte>): Packet
    requires HasPacket(s)
  {
    Packet(Decode16(s[4..6]), s[HEADER..4 + Length(s)])
  }

  function Rest(s: seq<Byte>): (r: seq<Byte>)
    requires HasPacket(s)
    ensures |r| < |s|
  {
    s[4 + Length(s)..]
  }

  predicate Bad(s: seq<Byte>) {
    |s| >= HEADER && BadLength(s)
  }

  function Parse(s: seq<Byte>): Parsed
    decreases |s|
  {
    if HasPacket(s) then After([Front(s)], Parse(Rest(s)))
    else if Bad(s) then Parsed([], [], true)
    else Parsed([], s, false)
  }

  // The same outcome, with these packets delivered before.
  function After(packets: seq<Packet>, p: Parsed): Parsed {
    p.(packets := packets + p.packets)
  }

  // ---- The parser ----

  datatype FeedResult = Ok | ProtocolError | OutOfMemory

  class StreamParser {
    var buffered: seq<Byte>

    constructor ()
      ensures buffered == []
    {
      buffered := [];
    }

    /** Appends a chunk and hands over every whole packet; `memory` says whether growing the
      * buffer succeeds.
      */
    method Feed(bytes: seq<Byte>, memory: bool) returns (result: FeedResult, packets: seq<Packet>)
      modifies this
      ensures !memory ==> result == OutOfMemory && packets == [] && buffered == old(buffered)
      ensures memory ==> result != OutOfMemory
      ensures memory ==> Parse(old(buffered) + bytes) == Parsed(packets, buffered, result == ProtocolError)
    {
      packets := [];
      if !memory {
        return OutOfMemory, packets;
      }
      buffered := buffered + bytes;
      var error, offset;
      packets, error, offset := Scan(buffered);
      if error {
        buffered := [];
        return ProtocolError, packets;
      }
      buffered := buffered[offset..];
      return Ok, packets;
    }
  }

  datatype Look = Short | Wrong | Whole(packet: Packet, size: nat)

  ghost predicate Sees(s: seq<Byte>, look: Look) {
    match look
    case Short => !HasPacket(s) && !Bad(s)
    case Wrong => Bad(s)
    case Whole(p, n) => HasPacket(s) && p == Front(s) && n <= |s| && s[n..] == Rest(s) && n > 0
  }

  // Looks at the bytes from `offset` on.
  method LookAt(data: seq<Byte>, offset: nat) returns (look: Look)
    requires offset <= |data|
    ensures Sees(data[offset..], look)
  {
    if |data| - offset < HEADER {
      return Short;
    }
    LengthAt(data, offset);
    var length := Decode32(data[offset..offset + 4]);
    if length < 2 || length > 2 + MAX_PAYLOAD {
      return Wrong;
    }
    if |data| - offset < 4 + length {
      return Short;
    }
    FrontAt(data, offset);
    var id := Decode16(data[offset + 4..offset + 6]);
    return Whole(Packet(id, data[offset + HEADER..offset + 4 + length]), 4 + length);
  }

  // The packets in front of `offset` are `packets`, and this is what follows.
  ghost predicate Follows(data: seq<Byte>, offset: nat, packets: seq<Packet>, look: Look) {
    && offset <= |data|
    && match look
       case Short => Parse(data) == Parsed(packets, data[offset..], false)
       case Wrong => Parse(data) == Parsed(packets, [], true)
       case Whole(p, n) => 0 < n <= |data| - offset && Found(data, offset + n, packets + [p])
  }

  ghost predicate Found(data: seq<Byte>, offset: nat, packets: seq<Packet>) {
    offset <= |data| && Parse(data) == After(packets, Parse(data[offset..]))
  }

  // One round of the loop, after `packets` have been found in front of `offset`.
  method Round(data: seq<Byte>, offset: nat, ghost packets: seq<Packet>) returns (look: Look)
    requires Found(data, offset, packets)
    ensures Follows(data, offset, packets, look)
  {
    look := LookAt(data, offset);
    match look {
      case Short => ShortEnds(data, offset, packets);
      case Wrong => BadEnds(data, offset, packets);
      case Whole(p, n) => OnePacket(data, offset, packets, p, n);
    }
  }

  // The loop over the buffered bytes: the packets found, and where it stopped.
  method Scan(data: seq<Byte>) returns (packets: seq<Packet>, error: bool, offset: nat)
    ensures offset <= |data|
    ensures Parse(data) == Parsed(packets, if error then [] else data[offset..], error)
  {
    packets, offset := [], 0;
    FoundNothing(data);
    var look := Round(data, 0, []);
    while look.Whole?
      invariant Follows(data, offset, packets, look)
      decreases |data| - offset
    {
      packets := packets + [look.packet];
      offset := offset + look.size;
      look := Round(data, offset, packets);
    }
    error := look == Wrong;
  }

  lemma FoundNothing(data: seq<Byte>)
    ensures Found(data, 0, [])
  {
    assert data[0..] == data;
  }

  lemma BadEnds(data: seq<Byte>, offset: nat, packets: seq<Packet>)
    requires offset <= |data| && Bad(data[offset..]) && Parse(data) == After(packets, Parse(data[offset..]))
    ensures Parse(data) == Parsed(packets, [], true)
  {
  }

  lemma ShortEnds(data: seq<Byte>, offset: nat, packets: seq<Packet>)
    requires offset <= |data| && !HasPacket(data[offset..]) && !Bad(data[offset..])
    requires Parse(data) == After(packets, Parse(data[offset..]))
    ensures Parse(data) == Parsed(packets, data[offset..], false)
  {
  }

  lemma OnePacket(data: seq<Byte>, offset: nat, packets: seq<Packet>, p: Packet, n: nat)
    requires offset <= |data| && Sees(data[offset..], Whole(p, n))
    requires Parse(data) == After(packets, Parse(data[offset..]))
    ensures Parse(data) == After(packets + [p], Parse(data[offset + n..]))
  {
    assert data[offset..][n..] == data[offset + n..];
  }

  lemma LengthAt(stream: seq<Byte>, offset: nat)
    requires offset + HEADER <= |stream|
    ensures Length(stream[offset..]) == Decode32(stream[offset..offset + 4])
  {
    assert stream[offset..][..4] == stream[offset..offset + 4];
  }

  lemma FrontAt(stream: seq<Byte>, offset: nat)
    requires offset <= |stream| && HasPacket(stream[offset..])
    ensures var full := 4 + Length(stream[offset..]);
            && Front(stream[offset..]) == Packet(Decode16(stream[offset + 4..offset + 6]), stream[offset + HEADER..offset + full])
            && Rest(stream[offset..]) == stream[offset + full..]
  {
    var here := stream[offset..];
    var full := 4 + Length(here);
    assert here[4..6] == stream[offset + 4..offset + 6];
    assert here[HEADER..full] == stream[offset + HEADER..offset + full];
  }

  // ---- Chunking ----

  lemma FrontOnly(s: seq<Byte>, t: seq<Byte>)
    requires |s| >= HEADER
    ensures Length(s + t) == Length(s)
    ensures HasPacket(s) ==> HasPacket(s + t) && Front(s + t) == Front(s) && Rest(s + t) == Rest(s) + t
  {
    assert (s + t)[..4] == s[..4];
    if HasPacket(s) {
      assert (s + t)[4..6] == s[4..6];
      assert (s + t)[HEADER..4 + Length(s)] == s[HEADER..4 + Length(s)];
    }
  }

  lemma AfterTwice(p: Packet, packets: seq<Packet>, outcome: Parsed)
    ensures After([p], After(packets, outcome)) == After([p] + packets, outcome)
  {
    assert [p] + (packets + outcome.packets) == [p] + packets + outcome.packets;
  }

  // What follows is parsed from where the first part stopped, and an error stands.
  lemma {:induction false} ParseMore(s: seq<Byte>, t: seq<Byte>)
    ensures Parse(s + t) == if Parse(s).error then Parse(s) else After(Parse(s).packets, Parse(Parse(s).rest + t))
    decreases |s|
  {
    if HasPacket(s) {
      FrontOnly(s, t);
      ParseMore(Rest(s), t);
      var rest := Parse(Rest(s));
      AfterTwice(Front(s), rest.packets, Parse(rest.rest + t));
    } else if Bad(s) {
      FrontOnly(s, t);
    }
  }

  function Flatten(chunks: seq<seq<Byte>>): seq<Byte> {
    if chunks == [] then [] else Flatten(chunks[..|chunks| - 1]) + chunks[|chunks| - 1]
  }

  // A connection feeds its reads one by one and stops at the first protocol error.
  function FeedAll(chunks: seq<seq<Byte>>): Parsed {
    if chunks == [] then Parsed([], [], false)
    else
      var before := FeedAll(chunks[..|chunks| - 1]);
      if before.error then before else After(before.packets, Parse(before.rest + chunks[|chunks| - 1]))
  }

  /** However a stream is cut into chunks, the parser delivers the packets of the whole
    * stream up to the first protocol error, and keeps the same unfinished tail.
    */
  lemma {:induction false} ChunkingDoesNotMatter(chunks: seq<seq<Byte>>)
    ensures FeedAll(chunks) == Parse(Flatten(chunks))
  {
    if chunks != [] {
      var before := chunks[..|chunks| - 1];
      ChunkingDoesNotMatter(before);
      ParseMore(Flatten(before), chunks[|chunks| - 1]);
    }
  }

  // ---- The parser undoes the printer ----

  predicate ValidPacket(p: Packet) {
    p.id < 0x1_0000 && |p.payload| <= MAX_PAYLOAD
  }

  predicate AllValid(packets: seq<Packet>) {
    forall i: nat | i < |packets| :: ValidPacket(packets[i])
  }

  function Print(packets: seq<Packet>): seq<Byte>
    requires AllValid(packets)
  {
    if packets == [] then [] else MakePacket(packets[0].id, packets[0].payload) + Print(packets[1..])
  }

  lemma PrintedHeader(p: Packet, tail: seq<Byte>)
    requires p.id < 0x1_0000 && |p.payload| <= 0xFFFF_FFFF - 2
    ensures var s := MakePacket(p.id, p.payload) + tail;
            |s| >= HEADER && Length(s) == 2 + |p.payload|
  {
    var s := MakePacket(p.id, p.payload) + tail;
    assert s[..4] == Encode32(2 + |p.payload|);
    RoundTrip32(2 + |p.payload|);
  }

  lemma PrintedPacket(p: Packet, tail: seq<Byte>)
    requires ValidPacket(p)
    ensures var s := MakePacket(p.id, p.payload) + tail;
            HasPacket(s) && Front(s) == p && Rest(s) == tail
  {
    var s := MakePacket(p.id, p.payload) + tail;
    PrintedHeader(p, tail);
    assert s[4..6] == Encode16(p.id);
    assert s[HEADER..4 + Length(s)] == p.payload;
  }

  lemma ParseOne(p: Packet, tail: seq<Byte>)
    requires ValidPacket(p)
    ensures Parse(MakePacket(p.id, p.payload) + tail) == After([p], Parse(tail))
  {
    PrintedPacket(p, tail);
  }

  lemma PrintSplits(packets: seq<Packet>, tail: seq<Byte>)
    requires AllValid(packets) && packets != []
    ensures Print(packets) + tail
         == MakePacket(packets[0].id, packets[0].payload) + (Print(packets[1..]) + tail)
  {
  }

  lemma {:induction false} ParsePrinted(packets: seq<Packet>, tail: seq<Byte>, printed: seq<Byte>)
    requires AllValid(packets) && printed == Print(packets) + tail
    ensures Parse(printed) == After(packets, Parse(tail))
  {
    if packets == [] {
      assert printed == tail;
    } else {
      var rest := Print(packets[1..]) + tail;
      ParsePrinted(packets[1..], tail, rest);
      ParseFirst(packets, tail, printed, rest);
      AfterFirst(packets, Parse(tail));
    }
  }

  lemma AfterFirst(packets: seq<Packet>, outcome: Parsed)
    requires packets != []
    ensures After([packets[0]], After(packets[1..], outcome)) == After(packets, outcome)
  {
    AfterTwice(packets[0], packets[1..], outcome);
    assert [packets[0]] + packets[1..] == packets;
  }

  lemma ParseFirst(packets: seq<Packet>, tail: seq<Byte>, printed: seq<Byte>, rest: seq<Byte>)
    requires AllValid(packets) && packets != []
    requires printed == Print(packets) + tail && rest == Print(packets[1..]) + tail
    ensures Parse(printed) == After([packets[0]], Parse(rest))
  {
    PrintSplits(packets, tail);
    ParseOne(packets[0], rest);
  }

  /** Any list of packets with payloads of at most 64 KiB, printed and then cut into chunks in
    * any way, is recovered exactly and leaves nothing behind; a partial packet that follows
    * stays buffered.
    */
  lemma PrintedPacketsAreRecovered(packets: seq<Packet>, tail: seq<Byte>, chunks: seq<seq<Byte>>)
    requires AllValid(packets)
    requires Flatten(chunks) == Print(packets) + tail && !HasPacket(tail) && !Bad(tail)
    ensures FeedAll(chunks) == Parsed(packets, tail, false)
  {
    ChunkingDoesNotMatter(chunks);
    ParsePrinted(packets, tail, Flatten(chunks));
  }

  /** One printed packet is recovered if and only if its payload is at most 64 KiB: a longer
    * one is a protocol error, and one whose length overflows is not printed at all.
    */
  lemma RecoveredExactlyUpToLimit(p: Packet)
    requires p.id < 0x1_0000
    ensures Parse(MakePacket(p.id, p.payload)) == Parsed([p], [], false) <==> |p.payload| <= MAX_PAYLOAD
    ensures MAX_PAYLOAD < |p.payload| <= 0xFFFF_FFFF - 2 ==> Parse(MakePacket(p.id, p.payload)).error
  {
    var s := MakePacket(p.id, p.payload);
    assert s + [] == s;
    if |p.payload| <= 0xFFFF_FFFF - 2 {
      PrintedHeader(p, []);
    }
    if ValidPacket(p) {
      ParseOne(p, []);
    }
  }

  // A declared length below two, or above the limit, byte by byte.
  predicate RejectedHeader(s: seq<Byte>)
    requires |s| >= HEADER
  {
    || (s[0] == 0 && s[1] == 0 && s[2] == 0 && s[3] < 2)
    || s[0] > 0 || s[1] > 1
    || (s[1] == 1 && (s[2] > 0 || s[3] > 2))
  }

  /** Bytes that begin with a header are an error at once if and only if the header declares a
    * length below two or above 65538; fewer than six bytes never are.
    */
  lemma RejectedExactly(s: seq<Byte>)
    ensures |s| < HEADER ==> Parse(s) == Parsed([], s, false)
    ensures |s| >= HEADER ==> (Parse(s) == Parsed([], [], true) <==> RejectedHeader(s))
  {
    if |s| >= HEADER {
      var a, b, c, d := s[0] as nat, s[1] as nat, s[2] as nat, s[3] as nat;
      assert Length(s) == ((a * 256 + b) * 256 + c) * 256 + d;
    }
  }
}
