/** The DATA_CHANNEL_OPEN and DATA_CHANNEL_ACK messages at byte level
    (sections 5.1 and 5.2 of RFC 8832). */
module DceCodec {

  type Byte = n: nat | n < 256
  type Bytes = seq<Byte>

  /** Partial reliability: none, limited lifetime, limited retransmissions, or a value
      the engine does not know. */
  datatype Policy = PrNone | PrTtl | PrRtx | PrOther

  /** What an open request asks for. */
  datatype Params = Params(unordered: bool, policy: Policy, value: nat, labelText: Bytes, protocol: Bytes)

  const OPEN_REQUEST: Byte := 0x03
  const OPEN_ACK: Byte := 0x02
  const MAX_TEXT: nat := 128
  const FIXED_SIZE: nat := 12

  /** The channel type octet. */
  function ChannelType(unordered: bool, policy: Policy): Byte {
    (match policy
     case PrNone => 0x00
     case PrRtx => 0x01
     case PrTtl => 0x02
     case PrOther => 0x00) + if unordered then 0x80 else 0
  }

  /** Its reading; an unknown octet is taken as ordered and reliable. */
  function ReadChannelType(t: Byte): (bool, Policy) {
    match t
    case 0x00 => (false, PrNone)
    case 0x80 => (true, PrNone)
    case 0x01 => (false, PrRtx)
    case 0x81 => (true, PrRtx)
    case 0x02 => (false, PrTtl)
    case 0x82 => (true, PrTtl)
    case _ => (false, PrNone)
  }

  /** htons and htonl */
  function Be16(n: nat): Bytes
    requires n < 0x1_0000
  {
    [n / 0x100, n % 0x100]
  }

  function Be32(n: nat): Bytes
    requires n < 0x1_0000_0000
  {
    Be16(n / 0x1_0000) + Be16(n % 0x1_0000)
  }

  function ReadBe16(b: Bytes): nat
    requires |b| == 2
  {
    b[0] as nat * 0x100 + b[1] as nat
  }

  function ReadBe32(b: Bytes): nat
    requires |b| == 4
  {
    ReadBe16(b[..2]) * 0x1_0000 + ReadBe16(b[2..])
  }

  /** What a send accepts: a known policy, a 32-bit value and texts that fit. */
  predicate Sendable(p: Params) {
    p.policy != PrOther && p.value < 0x1_0000_0000 && |p.labelText| <= MAX_TEXT && |p.protocol| <= MAX_TEXT
  }

  /** send_open_request_message, as far as the bytes go: type, channel type, priority 0,
      reliability, the two lengths, then both texts. */
  function Encode(p: Params): Bytes
    requires Sendable(p)
  {
    [OPEN_REQUEST, ChannelType(p.unordered, p.policy)] + Be16(0) + Be32(p.value)
    + Be16(|p.labelText|) + Be16(|p.protocol|) + p.labelText + p.protocol
  }

  /** The text of `len` bytes at `from`, or nothing when it is over-long; a text cut short
      by the end of the message is read as far as the message goes. */
  function Text(b: Bytes, from: nat, len: nat): Bytes
    requires from <= |b|
  {
    if len > MAX_TEXT then [] else if from + len <= |b| then b[from..from + len] else b[from..]
  }

  /** The reading half of handle_open_request_message. */
  function Decode(b: Bytes): Params
    requires |b| >= FIXED_SIZE
  {
    var (unordered, policy) := ReadChannelType(b[1]);
    var text := Text(b, FIXED_SIZE, ReadBe16(b[8..10]));
    Params(unordered, policy, ReadBe32(b[4..8]), text, Text(b, FIXED_SIZE + |text|, ReadBe16(b[10..12])))
  }

  lemma Be32RoundTrip(n: nat)
    requires n < 0x1_0000_0000
    ensures ReadBe32(Be32(n)) == n
  {
    assert Be32(n)[..2] == Be16(n / 0x1_0000) && Be32(n)[2..] == Be16(n % 0x1_0000);
  }

  // ---- The octets on the wire ----------------------------------------------

  /** The number in two octets, the most significant one first. */
  function Number16(b: Bytes, i: nat): nat
    requires i + 2 <= |b|
  {
    256 * b[i] as nat + b[i + 1] as nat
  }

  /** The number in four octets, the most significant one first. */
  function Number32(b: Bytes, i: nat): nat
    requires i + 4 <= |b|
  {
    16777216 * b[i] as nat + 65536 * b[i + 1] as nat + 256 * b[i + 2] as nat + b[i + 3] as nat
  }

  /** The channel types of section 5.1 of RFC 8832: reliable, partially reliable by
      retransmissions and by time, with the high bit for unordered delivery. */
  predicate TypeOctet(b: Byte, unordered: bool, policy: Policy) {
    && (b >= 128 <==> unordered)
    && b as nat % 128 == match policy { case PrNone => 0 case PrRtx => 1 case PrTtl => 2 case PrOther => 127 }
  }

  /** A DATA_CHANNEL_OPEN message octet by octet: type 3, channel type, priority, reliability,
      label length, protocol length, label, protocol. */
  predicate OpenLayout(b: Bytes, p: Params) {
    && |b| == 12 + |p.labelText| + |p.protocol|
    && b[0] == 3 && TypeOctet(b[1], p.unordered, p.policy) && b[2] == b[3] == 0
    && Number32(b, 4) == p.value
    && Number16(b, 8) == |p.labelText| && Number16(b, 10) == |p.protocol|
    && b[12..12 + |p.labelText|] == p.labelText && b[12 + |p.labelText|..] == p.protocol
  }

  lemma Be32Octets(n: nat, b: Bytes)
    requires n < 0x1_0000_0000 && b == Be32(n)
    ensures |b| == 4 && Number32(b, 0) == n
  {
  }

  /** What is sent has that layout. */
  lemma OpenRequestOctets(p: Params)
    requires Sendable(p)
    ensures OpenLayout(Encode(p), p)
  {
    var b := Encode(p);
    Be32Octets(p.value, Be32(p.value));
    assert b[4..8] == Be32(p.value) && b[8..10] == Be16(|p.labelText|) && b[10..12] == Be16(|p.protocol|);
    assert b[4] == b[4..8][0] && b[5] == b[4..8][1] && b[6] == b[4..8][2] && b[7] == b[4..8][3];
    assert b[8] == b[8..10][0] && b[9] == b[8..10][1] && b[10] == b[10..12][0] && b[11] == b[10..12][1];
  }

  lemma ReadOctets(b: Bytes)
    requires |b| >= 12
    ensures ReadBe32(b[4..8]) == Number32(b, 4)
    ensures ReadBe16(b[8..10]) == Number16(b, 8) && ReadBe16(b[10..12]) == Number16(b, 10)
  {
    assert b[4..8][..2] == b[4..6] && b[4..8][2..] == b[6..8];
  }

  lemma TypeReading(b: Byte, unordered: bool, policy: Policy)
    requires TypeOctet(b, unordered, policy) && policy != PrOther
    ensures ReadChannelType(b) == (unordered, policy)
  {
  }

  lemma TextsReading(b: Bytes, p: Params)
    requires OpenLayout(b, p) && Sendable(p)
    ensures Text(b, 12, |p.labelText|) == p.labelText
    ensures Text(b, 12 + |p.labelText|, |p.protocol|) == p.protocol
  {
    assert b[12 + |p.labelText|..12 + |p.labelText| + |p.protocol|] == b[12 + |p.labelText|..];
  }

  /** Whatever has that layout, whoever sent it, is read as those parameters. */
  lemma OpenRequestReading(b: Bytes, p: Params)
    requires OpenLayout(b, p) && Sendable(p)
    ensures Decode(b) == p
  {
    TypeReading(b[1], p.unordered, p.policy);
    ReadOctets(b);
    TextsReading(b, p);
  }

  /** DATA_CHANNEL_OPEN round trip: ordering, policy, value, label and protocol all survive. */
  lemma OpenRequestRoundTrip(p: Params)
    requires Sendable(p)
    ensures |Encode(p)| == FIXED_SIZE + |p.labelText| + |p.protocol|
    ensures Encode(p)[0] == OPEN_REQUEST
    ensures Decode(Encode(p)) == p
  {
    OpenRequestOctets(p);
    OpenRequestReading(Encode(p), p);
  }

  /** What is read of any message: a known channel type, else ordered and reliable; the value;
      and the two texts by their lengths, an over-long one as empty and one that the message
      cuts short as far as it goes. */
  lemma AnyRequestReading(b: Bytes, k: nat)
    requires |b| >= 12
    ensures var p, n, n' := Decode(b), Number16(b, 8), Number16(b, 10);
            && (if b[1] as nat % 128 <= 2 then TypeOctet(b[1], p.unordered, p.policy)
                else !p.unordered && p.policy == PrNone)
            && p.value == Number32(b, 4)
            && |p.labelText| == (if n > 128 then 0 else if 12 + n <= |b| then n else |b| - 12)
            && (k < |p.labelText| ==> p.labelText[k] == b[12 + k])
            && (var from := 12 + |p.labelText|;
                && |p.protocol| == (if n' > 128 then 0 else if from + n' <= |b| then n' else |b| - from)
                && (k < |p.protocol| ==> p.protocol[k] == b[from + k]))
  {
    ReadOctets(b);
  }
}
