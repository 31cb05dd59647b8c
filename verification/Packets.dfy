/** WireGuard packets as bytes: building, recognising and parsing them. */
module Packets {
  import opened Options
  import opened Bytes
  import opened Sessions
  import Noise
  import Handshakes

  const INITIATION_SIZE: nat := 148
  const RESPONSE_SIZE: nat := 92
  const COOKIE_REPLY_SIZE: nat := 64

  /** `Invalid` is the error the parsers return; `Panic` an out-of-range slice. */
  datatype Parsed<T> = Ok(value: T) | Invalid | Panic

  datatype InitiationPacket = InitiationPacket(
    senderIndex: nat, ephemeral: seq<byte>, staticKey: seq<byte>, timestamp: seq<byte>,
    mac1: seq<byte>, mac2: seq<byte>)

  datatype ResponsePacket = ResponsePacket(
    senderIndex: nat, receiverIndex: nat, ephemeral: seq<byte>, empty: seq<byte>, mac1: seq<byte>, mac2: seq<byte>)

  datatype CookiePacket = CookiePacket(receiverIndex: nat, nonce: seq<byte>, cookie: seq<byte>)

  type TransportPacket = TransportData<seq<byte>>

  datatype Message =
    | HandshakeInitiation(i: InitiationPacket) | HandshakeResponse(r: ResponsePacket)
    | CookieReply(c: CookiePacket) | Transport(t: TransportPacket)

  function Prefix(kind: byte): seq<byte> {
    [kind, 0, 0, 0]
  }

  predicate HasPrefix(b: seq<byte>, kind: byte) {
    |b| >= 4 && b[0..4] == Prefix(kind)
  }

  function ParseInitiation(b: seq<byte>): Parsed<InitiationPacket> {
    if |b| != INITIATION_SIZE || !HasPrefix(b, 1) then Invalid
    else Ok(InitiationPacket(FromLe(b[4..8]), b[8..40], b[40..88], b[88..116], b[116..132], b[132..148]))
  }

  function ParseResponse(b: seq<byte>): Parsed<ResponsePacket> {
    if |b| != RESPONSE_SIZE || !HasPrefix(b, 2) then Invalid
    else Ok(ResponsePacket(FromLe(b[4..8]), FromLe(b[8..12]), b[12..44], b[44..60], b[60..76], b[76..92]))
  }

  function ParseCookie(b: seq<byte>): Parsed<CookiePacket> {
    if |b| != COOKIE_REPLY_SIZE || !HasPrefix(b, 3) then Invalid
    else Ok(CookiePacket(FromLe(b[4..8]), b[8..32], b[32..64]))
  }

  /** The parser asks for 4 bytes only and slices up to 16. */
  function ParseTransport(b: seq<byte>): Parsed<TransportPacket> {
    if !HasPrefix(b, 4) then Invalid
    else if |b| < 16 then Panic
    else Ok(TransportData(FromLe(b[4..8]), FromLe(b[8..16]), b[16..]))
  }

  function Lift<T>(p: Parsed<T>, f: T -> Message): Parsed<Message> {
    match p
    case Ok(v) => Ok(f(v))
    case Invalid => Invalid
    case Panic => Panic
  }

  function ParseMessage(b: seq<byte>): Parsed<Message> {
    if |b| < 4 then Invalid
    else if b[0] == 1 then Lift(ParseInitiation(b), x => HandshakeInitiation(x))
    else if b[0] == 2 then Lift(ParseResponse(b), x => HandshakeResponse(x))
    else if b[0] == 3 then Lift(ParseCookie(b), x => CookieReply(x))
    else if b[0] == 4 then Lift(ParseTransport(b), x => Transport(x))
    else Invalid
  }

  predicate IsHandshake(b: seq<byte>)
    requires b != []
  {
    (b[0] == 1 && |b| == INITIATION_SIZE) || (b[0] == 2 && |b| == RESPONSE_SIZE)
  }

  function ToBytes(p: TransportPacket): seq<byte> {
    Prefix(4) + ToLe(p.receiverIndex, 4) + ToLe(p.counter, 8) + p.payload
  }

  predicate InRange(p: TransportPacket) {
    p.receiverIndex < 0x1_0000_0000 && p.counter < 0x1_0000_0000_0000_0000
  }

  /** Serialised transport data parses to itself. */
  lemma TransportReadsBack(p: TransportPacket)
    requires InRange(p)
    ensures ParseMessage(ToBytes(p)) == Ok(Transport(p))
  {
    hide ToLe, FromLe;
    var b := ToBytes(p);
    Widths();
    LeRoundTrip(p.receiverIndex, 4);
    LeRoundTrip(p.counter, 8);
    assert b[0..4] == Prefix(4) && b[4..8] == ToLe(p.receiverIndex, 4);
    assert b[8..16] == ToLe(p.counter, 8) && b[16..] == p.payload;
  }

  /** What parses as transport data serialises to the same bytes; of all strings
      with the prefix, exactly those of 4 to 15 bytes make the parser panic. */
  lemma TransportWritesBack(b: seq<byte>)
    ensures ParseTransport(b).Ok? <==> HasPrefix(b, 4) && |b| >= 16
    ensures ParseTransport(b).Ok? ==> ToBytes(ParseTransport(b).value) == b && InRange(ParseTransport(b).value)
    ensures ParseTransport(b).Panic? <==> HasPrefix(b, 4) && |b| < 16
  {
    hide ToLe, FromLe;
    if HasPrefix(b, 4) && |b| >= 16 {
      Widths();
      LeBytesBack(b[4..8]);
      LeBytesBack(b[8..16]);
      assert b == b[0..4] + b[4..8] + b[8..16] + b[16..];
    }
  }

  // ---------- handshake packets ----------

  type MacFunction = (seq<byte>, seq<byte>) -> seq<byte>

  ghost predicate SixteenBytes(mac: MacFunction) {
    forall k, m :: |mac(k, m)| == 16
  }

  function ZeroMac(): (z: seq<byte>)
    ensures |z| == 16
  {
    seq(16, _ => 0)
  }

  /** Appending mac1 over everything before it, and a zero mac2. */
  function WithMacs(mac: MacFunction, key: seq<byte>, msg: seq<byte>): seq<byte> {
    msg + mac(key, msg) + ZeroMac()
  }

  function BuildInitiation(
    mac: MacFunction, key: seq<byte>, index: nat, ephemeral: seq<byte>, staticKey: seq<byte>,
    timestamp: seq<byte>): seq<byte> {
    WithMacs(mac, key, Prefix(1) + ToLe(index, 4) + ephemeral + staticKey + timestamp)
  }

  function BuildResponse(
    mac: MacFunction, key: seq<byte>, index: nat, receiver: nat, ephemeral: seq<byte>, empty: seq<byte>): seq<byte> {
    WithMacs(mac, key, Prefix(2) + ToLe(index, 4) + ToLe(receiver, 4) + ephemeral + empty)
  }

  predicate ValidateMac1(mac: MacFunction, key: seq<byte>, b: seq<byte>)
    requires |b| >= 32
  {
    b[|b| - 32..][..16] == mac(key, b[..|b| - 32])
  }

  lemma MacsSplit(mac: MacFunction, key: seq<byte>, msg: seq<byte>)
    requires SixteenBytes(mac)
    ensures var b := WithMacs(mac, key, msg);
      && |b| == |msg| + 32 && b[..|msg|] == msg
      && b[|msg|..|msg| + 16] == mac(key, msg) && b[|msg| + 16..] == ZeroMac()
      && forall key' :: ValidateMac1(mac, key', b) <==> mac(key', msg) == mac(key, msg)
  {
    var b := WithMacs(mac, key, msg);
    assert b[|b| - 32..][..16] == mac(key, msg);
    assert b[..|b| - 32] == msg;
  }

  /** An emitted initiation parses to its fields, is recognised as a handshake,
      and passes the mac1 check of a device exactly when that device's key gives
      the same mac. */
  lemma InitiationReadsBack(
    mac: MacFunction, key: seq<byte>, index: nat, ephemeral: seq<byte>, staticKey: seq<byte>,
    timestamp: seq<byte>, key': seq<byte>)
    requires SixteenBytes(mac) && index < 0x1_0000_0000
    requires |ephemeral| == 32 && |staticKey| == 48 && |timestamp| == 28
    ensures var msg := Prefix(1) + ToLe(index, 4) + ephemeral + staticKey + timestamp;
      var b := BuildInitiation(mac, key, index, ephemeral, staticKey, timestamp);
      && |b| == INITIATION_SIZE && IsHandshake(b)
      && ParseMessage(b) == Ok(HandshakeInitiation(InitiationPacket(
           index, ephemeral, staticKey, timestamp, mac(key, msg), ZeroMac())))
      && (ValidateMac1(mac, key', b) <==> mac(key', msg) == mac(key, msg))
  {
    hide ToLe, FromLe;
    var msg := Prefix(1) + ToLe(index, 4) + ephemeral + staticKey + timestamp;
    var b := BuildInitiation(mac, key, index, ephemeral, staticKey, timestamp);
    MacsSplit(mac, key, msg);
    Widths();
    LeRoundTrip(index, 4);
    assert b[0..4] == msg[0..4] == Prefix(1);
    assert b[4..8] == msg[4..8] == ToLe(index, 4);
    assert b[8..40] == msg[8..40] == ephemeral;
    assert b[40..88] == msg[40..88] == staticKey;
    assert b[88..116] == msg[88..116] == timestamp;
    assert b[116..132] == mac(key, msg) && b[132..148] == ZeroMac();
  }

  lemma ResponseReadsBack(
    mac: MacFunction, key: seq<byte>, index: nat, receiver: nat, ephemeral: seq<byte>, empty: seq<byte>,
    key': seq<byte>)
    requires SixteenBytes(mac) && index < 0x1_0000_0000 && receiver < 0x1_0000_0000
    requires |ephemeral| == 32 && |empty| == 16
    ensures var msg := Prefix(2) + ToLe(index, 4) + ToLe(receiver, 4) + ephemeral + empty;
      var b := BuildResponse(mac, key, index, receiver, ephemeral, empty);
      && |b| == RESPONSE_SIZE && IsHandshake(b)
      && ParseMessage(b) == Ok(HandshakeResponse(ResponsePacket(
           index, receiver, ephemeral, empty, mac(key, msg), ZeroMac())))
      && (ValidateMac1(mac, key', b) <==> mac(key', msg) == mac(key, msg))
  {
    hide ToLe, FromLe;
    var msg := Prefix(2) + ToLe(index, 4) + ToLe(receiver, 4) + ephemeral + empty;
    var b := BuildResponse(mac, key, index, receiver, ephemeral, empty);
    MacsSplit(mac, key, msg);
    Widths();
    LeRoundTrip(index, 4);
    LeRoundTrip(receiver, 4);
    assert b[0..4] == msg[0..4] == Prefix(2);
    assert b[4..8] == msg[4..8] == ToLe(index, 4);
    assert b[8..12] == msg[8..12] == ToLe(receiver, 4);
    assert b[12..44] == msg[12..44] == ephemeral;
    assert b[44..60] == msg[44..60] == empty;
    assert b[60..76] == mac(key, msg) && b[76..92] == ZeroMac();
  }

  // ---------- data between two ends ----------

  /** An authenticated cipher on bytes: what is sealed under a key and counter opens under them. */
  datatype Aead = Aead(
    seal: (Noise.Term, nat, seq<byte>) -> seq<byte>, open: (Noise.Term, nat, seq<byte>) -> Option<seq<byte>>)

  ghost predicate Correct(a: Aead) {
    forall k, n, m :: a.open(k, n, a.seal(k, n, m)) == Some(m)
  }

  function Encrypt(a: Aead, s: Session, counter: nat, data: seq<byte>): TransportPacket {
    TransportData(s.receiverIndex, counter, a.seal(s.senderKey, counter, data))
  }

  function Decrypt(a: Aead, s: Session, p: TransportPacket): Option<seq<byte>> {
    if s.senderIndex != p.receiverIndex then None else a.open(s.receiverKey, p.counter, p.payload)
  }

  /** Between mirrored sessions: encrypt, serialise, parse, decrypt gives the data
      back. The packet is sealed with the counter it carries as nonce, and no
      session with another index reads it. */
  lemma MirroredSessionsConverse(a: Aead, s: Session, t: Session, counter: nat, data: seq<byte>)
    requires Correct(a) && Handshakes.Mirror(s, t)
    requires s.receiverIndex < INDEXES && counter < 0x1_0000_0000_0000_0000
    ensures var p := Encrypt(a, s, counter, data);
      var m := ParseMessage(ToBytes(p));
      && p.receiverIndex == s.receiverIndex && p.counter == counter
      && a.open(s.senderKey, p.counter, p.payload) == Some(data)
      && m == Ok(Transport(p)) && Decrypt(a, t, p) == Some(data)
      && (forall u: Session :: u.senderIndex != s.receiverIndex ==> Decrypt(a, u, p) == None)
  {
    TransportReadsBack(Encrypt(a, s, counter, data));
    hide ParseMessage, ToBytes;
  }

  // ---------- all messages ----------

  /** The wire format, field by field. */
  function ToWire(m: Message): seq<byte> {
    match m
    case HandshakeInitiation(i) =>
      [1, 0, 0, 0] + ToLe(i.senderIndex, 4) + i.ephemeral + i.staticKey + i.timestamp + i.mac1 + i.mac2
    case HandshakeResponse(r) =>
      [2, 0, 0, 0] + ToLe(r.senderIndex, 4) + ToLe(r.receiverIndex, 4) + r.ephemeral + r.empty + r.mac1 + r.mac2
    case CookieReply(c) => [3, 0, 0, 0] + ToLe(c.receiverIndex, 4) + c.nonce + c.cookie
    case Transport(t) => [4, 0, 0, 0] + ToLe(t.receiverIndex, 4) + ToLe(t.counter, 8) + t.payload
  }

  predicate Index32(i: nat) {
    i < 0x1_0000_0000
  }

  predicate Sized(m: Message) {
    match m
    case HandshakeInitiation(i) =>
      && Index32(i.senderIndex) && |i.ephemeral| == 32 && |i.staticKey| == 48 && |i.timestamp| == 28
      && |i.mac1| == 16 && |i.mac2| == 16
    case HandshakeResponse(r) =>
      && Index32(r.senderIndex) && Index32(r.receiverIndex) && |r.ephemeral| == 32 && |r.empty| == 16
      && |r.mac1| == 16 && |r.mac2| == 16
    case CookieReply(c) => Index32(c.receiverIndex) && |c.nonce| == 24 && |c.cookie| == 32
    case Transport(t) => Index32(t.receiverIndex) && t.counter < 0x1_0000_0000_0000_0000
  }

  lemma InitiationParses(i: InitiationPacket)
    requires Sized(HandshakeInitiation(i))
    ensures ParseMessage(ToWire(HandshakeInitiation(i))) == Ok(HandshakeInitiation(i))
    ensures IsHandshake(ToWire(HandshakeInitiation(i)))
  {
    hide ToLe, FromLe;
    Widths();
    LeRoundTrip(i.senderIndex, 4);
    var b := ToWire(HandshakeInitiation(i));
    assert b[0..4] == Prefix(1) && b[4..8] == ToLe(i.senderIndex, 4) && b[8..40] == i.ephemeral;
    assert b[40..88] == i.staticKey && b[88..116] == i.timestamp;
    assert b[116..132] == i.mac1 && b[132..148] == i.mac2;
  }

  lemma ResponseParses(r: ResponsePacket)
    requires Sized(HandshakeResponse(r))
    ensures ParseMessage(ToWire(HandshakeResponse(r))) == Ok(HandshakeResponse(r))
    ensures IsHandshake(ToWire(HandshakeResponse(r)))
  {
    hide ToLe, FromLe;
    Widths();
    LeRoundTrip(r.senderIndex, 4);
    LeRoundTrip(r.receiverIndex, 4);
    var b := ToWire(HandshakeResponse(r));
    assert b[0..4] == Prefix(2) && b[4..8] == ToLe(r.senderIndex, 4) && b[8..12] == ToLe(r.receiverIndex, 4);
    assert b[12..44] == r.ephemeral && b[44..60] == r.empty && b[60..76] == r.mac1 && b[76..92] == r.mac2;
  }

  lemma CookieParses(c: CookiePacket)
    requires Sized(CookieReply(c))
    ensures ParseMessage(ToWire(CookieReply(c))) == Ok(CookieReply(c))
    ensures !IsHandshake(ToWire(CookieReply(c)))
  {
    hide ToLe, FromLe;
    Widths();
    LeRoundTrip(c.receiverIndex, 4);
    var b := ToWire(CookieReply(c));
    assert b[0..4] == Prefix(3) && b[4..8] == ToLe(c.receiverIndex, 4) && b[8..32] == c.nonce && b[32..64] == c.cookie;
  }

  lemma InitiationUnique(b: seq<byte>)
    requires ParseInitiation(b).Ok?
    ensures var m := HandshakeInitiation(ParseInitiation(b).value); Sized(m) && b == ToWire(m)
  {
    hide ToLe, FromLe;
    Widths();
    LeBytesBack(b[4..8]);
    assert b == b[0..4] + b[4..8] + b[8..40] + b[40..88] + b[88..116] + b[116..132] + b[132..148];
  }

  lemma ResponseUnique(b: seq<byte>)
    requires ParseResponse(b).Ok?
    ensures var m := HandshakeResponse(ParseResponse(b).value); Sized(m) && b == ToWire(m)
  {
    hide ToLe, FromLe;
    Widths();
    LeBytesBack(b[4..8]);
    LeBytesBack(b[8..12]);
    assert b == b[0..4] + b[4..8] + b[8..12] + b[12..44] + b[44..60] + b[60..76] + b[76..92];
  }

  lemma CookieUnique(b: seq<byte>)
    requires ParseCookie(b).Ok?
    ensures var m := CookieReply(ParseCookie(b).value); Sized(m) && b == ToWire(m)
  {
    hide ToLe, FromLe;
    Widths();
    LeBytesBack(b[4..8]);
    assert b == b[0..4] + b[4..8] + b[8..32] + b[32..64];
  }

  lemma WireParses(m: Message)
    requires Sized(m)
    ensures ParseMessage(ToWire(m)) == Ok(m) && ToWire(m) != []
    ensures IsHandshake(ToWire(m)) <==> m.HandshakeInitiation? || m.HandshakeResponse?
  {
    match m
    case HandshakeInitiation(i) => InitiationParses(i);
    case HandshakeResponse(r) => ResponseParses(r);
    case CookieReply(c) => CookieParses(c);
    case Transport(t) =>
      hide ParseMessage, ToLe;
      TransportReadsBack(t);
      assert ToWire(m) == ToBytes(t);
  }

  lemma ParsedIsWire(b: seq<byte>)
    requires ParseMessage(b).Ok?
    ensures Sized(ParseMessage(b).value) && b == ToWire(ParseMessage(b).value)
  {
    hide ToWire, Sized, ParseInitiation, ParseResponse, ParseCookie, ParseTransport, ToBytes;
    if b[0] == 1 {
      InitiationUnique(b);
    } else if b[0] == 2 {
      ResponseUnique(b);
    } else if b[0] == 3 {
      CookieUnique(b);
    } else {
      TransportWritesBack(b);
      TransportIsWire(ParseTransport(b).value);
    }
  }

  lemma TransportIsWire(t: TransportPacket)
    requires InRange(t)
    ensures Sized(Transport(t)) && ToWire(Transport(t)) == ToBytes(t)
  {}

  /** Parsing is exact: a byte string parses to a message if and only if it is that
      message on the wire, and is routed as a handshake if and only if it is one. */
  lemma ParsesExactly(b: seq<byte>, m: Message)
    ensures ParseMessage(b) == Ok(m) <==> Sized(m) && b == ToWire(m)
    ensures ParseMessage(b) == Ok(m) ==>
      b != [] && (IsHandshake(b) <==> m.HandshakeInitiation? || m.HandshakeResponse?)
  {
    hide ParseMessage, ToWire, Sized, IsHandshake;
    if ParseMessage(b) == Ok(m) {
      ParsedIsWire(b);
    }
    if Sized(m) {
      WireParses(m);
    }
  }

  /** The parser panics on transport packets of 4 to 15 bytes and on nothing else. */
  lemma PanicsExactly(b: seq<byte>)
    ensures ParseMessage(b).Panic? <==> 4 <= |b| < 16 && b[0..4] == [4, 0, 0, 0]
  {
    TransportWritesBack(b);
  }
}
