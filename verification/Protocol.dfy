/** The control and data channel messages of src/protocol.rs and their bincode form. */
module Protocol {
  import opened Wrappers
  import opened Bincode
  import opened Framing

  const HASH_WIDTH_IN_BYTES: nat := 32
  const CURRENT_PROTO_VERSION: byte := 1

  type Digest = s: Bytes | |s| == HASH_WIDTH_IN_BYTES witness seq(HASH_WIDTH_IN_BYTES, _ => 0)

  /** SHA-256 is a parameter of the model. */
  type HashFn = Bytes -> Digest

  /** No two of the strings in `inputs` have the same digest. Injectivity on all strings is
      out of reach for a 32-byte digest; every use names the finite set a run really hashes. */
  ghost predicate NoCollision<K>(h: Bytes -> K, inputs: set<Bytes>) {
    forall x, y :: x in inputs && y in inputs && h(x) == h(y) ==> x == y
  }

  /** A nonce has a fixed width, so `token ++ nonce` determines both halves. */
  lemma ConcatDetermines(t1: Bytes, n1: Digest, t2: Bytes, n2: Digest)
    requires t1 + n1 == t2 + n2
    ensures t1 == t2 && n1 == n2
  {
    assert |t1| == |t2|;
    assert (t1 + n1)[..|t1|] == t1 && (t2 + n2)[..|t2|] == t2;
    assert (t1 + n1)[|t1|..] == n1 && (t2 + n2)[|t2|..] == n2;
  }

  datatype Hello =
    | ControlChannelHello(version: byte, digest: Digest)
    | DataChannelHello(version: byte, digest: Digest)

  datatype Ack = AckOk | ServiceNotExist | AuthFailed

  datatype ControlChannelCmd = CreateDataChannel | HeartBeat

  datatype DataChannelCmd = StartForwardTcp | StartForwardUdp

  /** Everything that travels on a control or a data channel before raw forwarding starts. */
  datatype Message =
    | HelloMsg(hello: Hello)
    | AuthMsg(auth: Digest)
    | AckMsg(ack: Ack)
    | ControlMsg(controlCmd: ControlChannelCmd)
    | DataMsg(dataCmd: DataChannelCmd)

  /** Which `read_*` function the reader calls next. */
  datatype Kind = HelloKind | AuthKind | AckKind | ControlKind | DataKind

  function KindOf(m: Message): Kind {
    match m
    case HelloMsg(_) => HelloKind
    case AuthMsg(_) => AuthKind
    case AckMsg(_) => AckKind
    case ControlMsg(_) => ControlKind
    case DataMsg(_) => DataKind
  }

  /** bincode::serialize: a u32 variant index, then the fields. `Auth` is a struct, so no index. */
  function Encode(m: Message): Bytes {
    match m
    case HelloMsg(ControlChannelHello(v, d)) => U32(0) + [v] + d
    case HelloMsg(DataChannelHello(v, d)) => U32(1) + [v] + d
    case AuthMsg(d) => d
    case AckMsg(a) => U32(match a case AckOk => 0 case ServiceNotExist => 1 case AuthFailed => 2)
    case ControlMsg(c) => U32(match c case CreateDataChannel => 0 case HeartBeat => 1)
    case DataMsg(c) => U32(match c case StartForwardTcp => 0 case StartForwardUdp => 1)
  }

  /** bincode::deserialize of a buffer of the length that `read_*` allocated. */
  function Decode(k: Kind, buf: Bytes): Result<Message, WireError>
    requires |buf| == PacketLen(k)
  {
    match k
    case AuthKind => Ok(AuthMsg(buf))
    case HelloKind =>
      (match FromU32(buf[..4])
       case 0 => Ok(HelloMsg(ControlChannelHello(buf[4], buf[5..])))
       case 1 => Ok(HelloMsg(DataChannelHello(buf[4], buf[5..])))
       case _ => Err(Malformed))
    case AckKind =>
      (match FromU32(buf)
       case 0 => Ok(AckMsg(AckOk))
       case 1 => Ok(AckMsg(ServiceNotExist))
       case 2 => Ok(AckMsg(AuthFailed))
       case _ => Err(Malformed))
    case ControlKind =>
      (match FromU32(buf)
       case 0 => Ok(ControlMsg(CreateDataChannel))
       case 1 => Ok(ControlMsg(HeartBeat))
       case _ => Err(Malformed))
    case DataKind =>
      (match FromU32(buf)
       case 0 => Ok(DataMsg(StartForwardTcp))
       case 1 => Ok(DataMsg(StartForwardUdp))
       case _ => Err(Malformed))
  }

  /** PACKET_LEN measures one sample message of each kind, as `PacketLength::new` does. */
  function PacketLen(k: Kind): (n: nat)
    ensures n == match k case HelloKind => 37 case AuthKind => 32 case _ => 4
  {
    var d := seq(HASH_WIDTH_IN_BYTES, _ => 0);
    match k
    case HelloKind => |Encode(HelloMsg(ControlChannelHello(CURRENT_PROTO_VERSION, d)))|
    case AuthKind => |Encode(AuthMsg(d))|
    case AckKind => |Encode(AckMsg(AckOk))|
    case ControlKind => |Encode(ControlMsg(CreateDataChannel))|
    case DataKind => |Encode(DataMsg(StartForwardTcp))|
  }

  /** `read_exact` on a stream: all or nothing, and a short stream is lost. */
  function ReadExact(s: Bytes, n: nat): Result<(Bytes, Bytes), WireError> {
    if n <= |s| then Ok((s[..n], s[n..])) else Err(UnexpectedEof)
  }

  predicate CurrentVersion(m: Message) {
    m.HelloMsg? ==> m.hello.version == CURRENT_PROTO_VERSION
  }

  /** The five `read_*` functions: PACKET_LEN bytes, decoded; a hello must carry our version. */
  function Read(k: Kind, s: Bytes): Result<(Message, Bytes), WireError> {
    match ReadExact(s, PacketLen(k))
    case Err(e) => Err(e)
    case Ok((buf, rest)) =>
      match Decode(k, buf)
      case Err(e) => Err(e)
      case Ok(m) => if CurrentVersion(m) then Ok((m, rest)) else Err(VersionMismatch)
  }

  function EncodeAll(ms: seq<Message>): Bytes {
    StreamOf(Encode, ms)
  }

  /** Reads messages of the given kinds one after another. */
  function ReadAll(ks: seq<Kind>, s: Bytes): Result<(seq<Message>, Bytes), WireError> {
    if ks == [] then Ok(([], s))
    else
      match Read(ks[0], s)
      case Err(e) => Err(e)
      case Ok((m, rest)) =>
        match ReadAll(ks[1..], rest)
        case Err(e) => Err(e)
        case Ok((ms, rest')) => Ok(([m] + ms, rest'))
  }

  function KindsOf(ms: seq<Message>): (ks: seq<Kind>)
    ensures |ks| == |ms| && forall i :: 0 <= i < |ms| ==> ks[i] == KindOf(ms[i])
  {
    if ms == [] then [] else [KindOf(ms[0])] + KindsOf(ms[1..])
  }

  /** Every variant has the length of the sample that PACKET_LEN measured. */
  lemma EncodingFillsPacket(m: Message)
    ensures |Encode(m)| == PacketLen(KindOf(m))
  {
  }

  lemma DecodeEncode(m: Message)
    ensures Decode(KindOf(m), Encode(m)) == Ok(m)
  {
    U32RoundTrip(0);
    U32RoundTrip(1);
    U32RoundTrip(2);
    if m.HelloMsg? {
      var tag := U32(if m.hello.ControlChannelHello? then 0 else 1);
      Split3(tag, [m.hello.version], m.hello.digest);
      assert Encode(m) == tag + [m.hello.version] + m.hello.digest;
    }
  }

  /** The bytes of every message on the wire: four for the index of the variant, least significant
      first, then the fields; an auth is the digest alone. */
  lemma Layout(m: Message)
    ensures Encode(m) == match m
                         case HelloMsg(ControlChannelHello(v, d)) => [0, 0, 0, 0, v] + d
                         case HelloMsg(DataChannelHello(v, d)) => [1, 0, 0, 0, v] + d
                         case AuthMsg(d) => d
                         case AckMsg(AckOk) => [0, 0, 0, 0]
                         case AckMsg(ServiceNotExist) => [1, 0, 0, 0]
                         case AckMsg(AuthFailed) => [2, 0, 0, 0]
                         case ControlMsg(CreateDataChannel) => [0, 0, 0, 0]
                         case ControlMsg(HeartBeat) => [1, 0, 0, 0]
                         case DataMsg(StartForwardTcp) => [0, 0, 0, 0]
                         case DataMsg(StartForwardUdp) => [1, 0, 0, 0]
  {
    U32Bytes(0);
    U32Bytes(1);
    U32Bytes(2);
  }

  lemma DecodesTo(k: Kind, buf: Bytes)
    requires |buf| == PacketLen(k)
    ensures Decode(k, buf).Ok? ==> KindOf(Decode(k, buf).value) == k && Encode(Decode(k, buf).value) == buf
  {
    if k.HelloKind? {
      FromU32Inverts(buf[..4]);
      assert buf == buf[..4] + [buf[4]] + buf[5..];
    } else if !k.AuthKind? {
      FromU32Inverts(buf);
    }
  }

  /** A reader succeeds on exactly the streams that start with a message of its kind, of the
      current version if it is a hello, and leaves what is behind it. */
  lemma ReadIff(k: Kind, s: Bytes, m: Message, rest: Bytes)
    ensures Read(k, s) == Ok((m, rest)) <==> s == Encode(m) + rest && KindOf(m) == k && CurrentVersion(m)
  {
    if Read(k, s) == Ok((m, rest)) {
      DecodesTo(k, s[..PacketLen(k)]);
      assert s == s[..PacketLen(k)] + s[PacketLen(k)..];
    }
    if s == Encode(m) + rest {
      ReadEncode(m, rest);
    }
  }

  /** A message is read back with everything behind it left on the stream; a hello only if it
      carries the current version, whatever follows it. */
  lemma ReadEncode(m: Message, tail: Bytes)
    ensures Read(KindOf(m), Encode(m) + tail)
         == if CurrentVersion(m) then Ok((m, tail)) else Err(VersionMismatch)
  {
    EncodingFillsPacket(m);
    DecodeEncode(m);
    var s := Encode(m) + tail;
    assert s[..|Encode(m)|] == Encode(m) && s[|Encode(m)|..] == tail;
  }

  /** Alignment: any sequence of messages, read by kind, comes back as sent and nothing is
      left over. A control channel is the case hello, ack, commands. */
  lemma {:induction false} StreamAlignment(ms: seq<Message>, tail: Bytes)
    requires forall m :: m in ms ==> CurrentVersion(m)
    ensures ReadAll(KindsOf(ms), EncodeAll(ms) + tail) == Ok((ms, tail))
  {
    if ms == [] {
      assert EncodeAll(ms) + tail == tail;
    } else {
      assert EncodeAll(ms) + tail == Encode(ms[0]) + (EncodeAll(ms[1..]) + tail);
      ReadEncode(ms[0], EncodeAll(ms[1..]) + tail);
      StreamAlignment(ms[1..], tail);
      assert KindsOf(ms)[1..] == KindsOf(ms[1..]);
      assert [ms[0]] + ms[1..] == ms;
    }
  }
}
