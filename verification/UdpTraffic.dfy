/** UDP packets framed on a byte stream (src/protocol.rs, `UdpTraffic`). */
module UdpTraffic {
  import opened Wrappers
  import opened Bincode
  import opened Protocol
  import opened ByteStream
  import opened Framing

  /** serde keeps the address and the port, and nothing else of an IPv6 address. */
  datatype SocketAddr =
    | V4(ip4: Ip4, port: u16)
    | V6(ip6: Ip6, port: u16)

  type Ip4 = s: Bytes | |s| == 4 witness [0, 0, 0, 0]
  type Ip6 = s: Bytes | |s| == 16 witness seq(16, _ => 0)

  datatype Packet = Packet(from: SocketAddr, data: Bytes)

  function AddrBytes(a: SocketAddr): Bytes {
    match a
    case V4(ip, port) => U32(0) + ip + U16(port)
    case V6(ip, port) => U32(1) + ip + U16(port)
  }

  function HeaderLen(a: SocketAddr): nat {
    if a.V4? then 12 else 24
  }

  /** bincode::serialize of `UdpHeader`. */
  function Header(from: SocketAddr, len: u16): (hdr: Bytes)
    ensures |hdr| == HeaderLen(from)
  {
    AddrBytes(from) + U16(len)
  }

  /** bincode::deserialize of `UdpHeader`: trailing bytes are tolerated, missing ones are not. */
  function DecodeHeader(buf: Bytes): Result<(SocketAddr, u16), WireError> {
    if |buf| < 4 then Err(Malformed)
    else
      match FromU32(buf[..4])
      case 0 =>
        if |buf| < 12 then Err(Malformed)
        else Ok((V4(buf[4..8], FromU16(buf[8..10])), FromU16(buf[10..12])))
      case 1 =>
        if |buf| < 24 then Err(Malformed)
        else Ok((V6(buf[4..20], FromU16(buf[20..22])), FromU16(buf[22..24])))
      case _ => Err(Malformed)
  }

  /** The `as u16` cast: a longer payload keeps only its length modulo 2^16. */
  function WireLen(data: Bytes): u16 {
    |data| % 0x1_0000
  }

  /** What one packet looks like on the stream. */
  function Frame(p: Packet): Bytes {
    [HeaderLen(p.from)] + Header(p.from, WireLen(p.data)) + p.data
  }

  /** `UdpTraffic::read` on the bytes behind the length octet. */
  function ReadPacket(s: Bytes, hdrLen: byte): (r: Result<(Packet, Bytes), WireError>)
    ensures r.Ok? ==> |r.value.1| <= |s|
  {
    match ReadExact(s, hdrLen)
    case Err(e) => Err(e)
    case Ok((buf, s1)) =>
      match DecodeHeader(buf)
      case Err(e) => Err(e)
      case Ok((from, len)) =>
        match ReadExact(s1, len)
        case Err(e) => Err(e)
        case Ok((data, s2)) => Ok((Packet(from, data), s2))
  }

  /** One turn of a reader: the length octet, then `UdpTraffic::read`. */
  function ReadFrame(s: Bytes): (r: Result<(Packet, Bytes), WireError>)
    ensures r.Ok? ==> |r.value.1| < |s|
  {
    if s == [] then Err(UnexpectedEof) else ReadPacket(s[1..], s[0])
  }

  predicate Short(p: Packet) {
    |p.data| < 0x1_0000
  }

  // ---- one frame ----

  /** The bytes of a packet on the stream: the length of the header; address family, address, port
      and length of the payload, each least significant byte first; and the payload. */
  lemma FrameLayout(p: Packet)
    ensures var (n, port) := (|p.data| % 0x1_0000, p.from.port);
            Frame(p) == match p.from
                        case V4(ip, _) =>
                          [12, 0, 0, 0, 0] + ip + [port % 0x100, port / 0x100] + [n % 0x100, n / 0x100] + p.data
                        case V6(ip, _) =>
                          [24, 1, 0, 0, 0] + ip + [port % 0x100, port / 0x100] + [n % 0x100, n / 0x100] + p.data
  {
    U32Bytes(0);
    U32Bytes(1);
  }

  /** A header is accepted exactly when its address family is known and nothing is missing; and
      then it starts with the bytes of what was read. */
  lemma HeaderAccepted(buf: Bytes)
    ensures DecodeHeader(buf).Ok? <==>
              (|buf| >= 12 && buf[..4] == [0, 0, 0, 0]) || (|buf| >= 24 && buf[..4] == [1, 0, 0, 0])
    ensures DecodeHeader(buf).Ok? ==>
              var (from, len) := DecodeHeader(buf).value;
              HeaderLen(from) <= |buf| && buf[..HeaderLen(from)] == Header(from, len)
  {
    U32Bytes(0);
    U32Bytes(1);
    U32RoundTrip(0);
    U32RoundTrip(1);
    if |buf| >= 4 {
      FromU32Inverts(buf[..4]);
    }
    if DecodeHeader(buf).Ok? {
      HeaderIsPrefix(buf);
    }
  }

  lemma HeaderIsPrefix(buf: Bytes)
    requires DecodeHeader(buf).Ok?
    ensures var (from, len) := DecodeHeader(buf).value;
            HeaderLen(from) <= |buf| && buf[..HeaderLen(from)] == Header(from, len)
  {
    FromU32Inverts(buf[..4]);
    var n := if FromU32(buf[..4]) == 0 then 4 else 16;
    assert buf[..8 + n] == buf[..4] + buf[4..4 + n] + buf[4 + n..6 + n] + buf[6 + n..8 + n];
    FromU16Inverts(buf[4 + n..6 + n]);
    FromU16Inverts(buf[6 + n..8 + n]);
  }

  lemma HeaderRoundTrip(from: SocketAddr, len: u16)
    ensures DecodeHeader(Header(from, len)) == Ok((from, len))
  {
    var tag := U32(if from.V4? then 0 else 1);
    U32RoundTrip(0);
    U32RoundTrip(1);
    U16RoundTrip(from.port);
    U16RoundTrip(len);
    var h := Header(from, len);
    var ip: Bytes := if from.V4? then from.ip4 else from.ip6;
    assert h == tag + ip + U16(from.port) + U16(len);
    assert h[..4] == tag;
    assert h[4..4 + |ip|] == ip;
    assert h[4 + |ip|..6 + |ip|] == U16(from.port);
    assert h[6 + |ip|..8 + |ip|] == U16(len);
  }

  lemma HeaderEndsFrame(p: Packet, tail: Bytes)
    ensures var s := Frame(p) + tail;
            && s[0] == HeaderLen(p.from)
            && ReadExact(s[1..], HeaderLen(p.from)) == Ok((Header(p.from, WireLen(p.data)), p.data + tail))
  {
    var h := Header(p.from, WireLen(p.data));
    assert Frame(p) + tail == [HeaderLen(p.from)] + (h + (p.data + tail));
    var s1 := h + (p.data + tail);
    assert s1[..|h|] == h && s1[|h|..] == p.data + tail;
  }

  /** What any written packet reads back as, of any length: the payload is cut at the length
      the u16 cast left, and the rest of it stays on the stream as if it were frames. */
  lemma FrameReadsBack(p: Packet, tail: Bytes)
    ensures var n := WireLen(p.data);
            ReadFrame(Frame(p) + tail) == Ok((Packet(p.from, p.data[..n]), p.data[n..] + tail))
  {
    HeaderEndsFrame(p, tail);
    HeaderRoundTrip(p.from, WireLen(p.data));
    var n := WireLen(p.data);
    assert (p.data + tail)[..n] == p.data[..n] && (p.data + tail)[n..] == p.data[n..] + tail;
  }

  lemma CutPayload(p: Packet, tail: Bytes)
    ensures var n := WireLen(p.data);
            if Short(p) then Packet(p.from, p.data[..n]) == p && p.data[n..] + tail == tail
            else Packet(p.from, p.data[..n]) != p
  {
    if !Short(p) {
      assert |p.data[..WireLen(p.data)]| < |p.data|;
    }
  }

  /** A packet comes back, and nothing more is consumed or left, exactly when it is short. */
  lemma FrameRoundTripIffShort(p: Packet, tail: Bytes)
    ensures ReadFrame(Frame(p) + tail) == Ok((p, tail)) <==> Short(p)
  {
    FrameReadsBack(p, tail);
    CutPayload(p, tail);
  }

  /** Behind the length octet, a frame is its header and its payload. */
  lemma CutBody(p: Packet, n: nat)
    requires 0 < n < |Frame(p)|
    ensures Frame(p)[..n][0] == HeaderLen(p.from)
    ensures Frame(p)[..n][1..] == (Header(p.from, WireLen(p.data)) + p.data)[..n - 1]
  {
    assert Frame(p) == [HeaderLen(p.from)] + (Header(p.from, WireLen(p.data)) + p.data);
  }

  lemma CutInHeader(p: Packet, n: nat)
    requires n <= HeaderLen(p.from) && n < |Frame(p)|
    ensures ReadFrame(Frame(p)[..n]) == Err(UnexpectedEof)
  {
    if n > 0 {
      CutBody(p, n);
    }
  }

  lemma CutInPayload(p: Packet, n: nat)
    requires Short(p) && HeaderLen(p.from) < n < |Frame(p)|
    ensures ReadFrame(Frame(p)[..n]) == Err(UnexpectedEof)
  {
    var h, rest := Header(p.from, WireLen(p.data)), Frame(p)[..n][1..];
    CutBody(p, n);
    assert rest[..|h|] == h;
    HeaderRoundTrip(p.from, WireLen(p.data));
  }

  /** A proper prefix of a frame is never mistaken for a packet. */
  lemma CutFrame(p: Packet, n: nat)
    requires Short(p) && n < |Frame(p)|
    ensures ReadFrame(Frame(p)[..n]) == Err(UnexpectedEof)
  {
    if n <= HeaderLen(p.from) {
      CutInHeader(p, n);
    } else {
      CutInPayload(p, n);
    }
  }

  predicate Framed(s: Bytes, hdr: Bytes, p: Packet, rest: Bytes) {
    && |hdr| < 0x100 && |p.data| < 0x1_0000
    && s == [|hdr|] + hdr + p.data + rest
    && DecodeHeader(hdr) == Ok((p.from, |p.data|))
  }

  lemma FramedReads(s: Bytes, hdr: Bytes, p: Packet, rest: Bytes)
    requires Framed(s, hdr, p, rest)
    ensures ReadFrame(s) == Ok((p, rest))
  {
    assert s[1..] == hdr + (p.data + rest);
    assert s[1..][..|hdr|] == hdr && s[1..][|hdr|..] == p.data + rest;
    assert (p.data + rest)[..|p.data|] == p.data && (p.data + rest)[|p.data|..] == rest;
  }

  lemma ReadIsFramed(s: Bytes, p: Packet, rest: Bytes) returns (hdr: Bytes)
    requires ReadFrame(s) == Ok((p, rest))
    ensures Framed(s, hdr, p, rest)
  {
    hdr := s[1..][..s[0]];
    var behind := s[1..][s[0]..];
    assert s == [s[0]] + hdr + behind && behind == p.data + rest;
    assert [s[0]] + hdr + behind == [s[0]] + hdr + p.data + rest;
  }

  /** Any sender's bytes: a reader succeeds exactly on a length octet, a header of that length that
      says how much follows, that much payload, and then anything. */
  lemma ReadFrameIff(s: Bytes, p: Packet, rest: Bytes)
    ensures ReadFrame(s) == Ok((p, rest)) <==> exists hdr :: Framed(s, hdr, p, rest)
  {
    if ReadFrame(s) == Ok((p, rest)) {
      var hdr := ReadIsFramed(s, p, rest);
    }
    forall hdr | Framed(s, hdr, p, rest) ensures ReadFrame(s) == Ok((p, rest)) {
      FramedReads(s, hdr, p, rest);
    }
  }

  // ---- whole streams ----

  lemma UdpFramesFit()
    ensures Fits(Frame, ReadFrame, Short) && ReadFrame([]).Err?
  {
    forall p, tail | Short(p) ensures ReadFrame(Frame(p) + tail) == Ok((p, tail)) {
      FrameRoundTripIffShort(p, tail);
    }
    forall p, n | Short(p) && 0 <= n < |Frame(p)| ensures ReadFrame(Frame(p)[..n]).Err? {
      CutFrame(p, n);
    }
  }

  /** Cut a stream of UDP packets anywhere: the reader gets exactly the packets that lie wholly
      in the first part, and what it has not consumed starts with the first byte of the next. */
  lemma CutUdpStream(ps: seq<Packet>, part: Bytes, lack: Bytes)
    requires forall p :: p in ps ==> Short(p)
    requires part + lack == StreamOf(Frame, ps)
    ensures Shrinks(ReadFrame)
    ensures var (got, used) := WholeBefore(Frame, ps, |part|);
            && got == ps[..|got|] && used == |StreamOf(Frame, got)|
            && (|got| < |ps| ==> |part| < used + |Frame(ps[|got|])|)
            && ReadUntilError(ReadFrame, part) == (got, part[used..])
  {
    UdpFramesFit();
    CutStream(Frame, ReadFrame, Short, ps, part, lack);
    WholeBeforeIsMaximal(Frame, ps, |part|);
  }

  /** The round trip of any sequence of packets: all of them, and every byte. */
  lemma UdpStreamRoundTrip(ps: seq<Packet>)
    requires forall p :: p in ps ==> Short(p)
    ensures Shrinks(ReadFrame)
    ensures ReadUntilError(ReadFrame, StreamOf(Frame, ps)) == (ps, [])
  {
    UdpFramesFit();
    StreamRoundTrip(Frame, ReadFrame, Short, ps);
  }

  // ---- the writers and the reader over a stream object ----

  lemma ThroughFrame(left: nat, n: byte, v: Bytes, data: Bytes)
    ensures Through(left, [n] + v + data) ==
      if left == 0 then []
      else [n] + if |v| <= left - 1 then v + Through(left - 1 - |v|, data) else Through(left - 1, v)
  {
    assert [n] + v + data == [n] + (v + data);
    ThroughConcat(left, [n], v + data);
    if left > 0 {
      ThroughConcat(left - 1, v, data);
    }
  }

  /** The three writes of a frame, each of which may find the connection lost: what is on the
      stream afterwards is the frame, or the part of it that got through. */
  method WriteParts(w: Stream, v: Bytes, data: Bytes) returns (r: Result<(), WireError>)
    requires |v| < 0x100
    modifies w
    ensures var frame := [|v|] + v + data;
            && w.unread == old(w.unread) + Through(old(w.left), frame)
            && w.left == old(w.left) - |Through(old(w.left), frame)|
            && r == if |frame| <= old(w.left) then Ok(()) else Err(ConnectionLost)
  {
    ThroughFrame(w.left, |v|, v, data);
    r := w.WriteU8(|v|);
    if r.Ok? {
      r := w.WriteAll(v);
      if r.Ok? {
        r := w.WriteAll(data);
      }
    }
  }

  method Write(p: Packet, w: Stream) returns (r: Result<(), WireError>)
    modifies w
    ensures w.unread == old(w.unread) + Through(old(w.left), Frame(p))
    ensures w.left == old(w.left) - |Through(old(w.left), Frame(p))|
    ensures r == if |Frame(p)| <= old(w.left) then Ok(()) else Err(ConnectionLost)
  {
    r := WriteParts(w, Header(p.from, WireLen(p.data)), p.data);
  }

  /** Writes the same bytes as `Write` of the packet made of its arguments. */
  method WriteSlice(w: Stream, from: SocketAddr, data: Bytes) returns (r: Result<(), WireError>)
    modifies w
    ensures var frame := Frame(Packet(from, data));
            && w.unread == old(w.unread) + Through(old(w.left), frame)
            && w.left == old(w.left) - |Through(old(w.left), frame)|
            && r == if |frame| <= old(w.left) then Ok(()) else Err(ConnectionLost)
  {
    r := WriteParts(w, Header(from, WireLen(data)), data);
  }

  method ReadFrom(r: Stream, hdrLen: byte) returns (p: Result<Packet, WireError>)
    modifies r`unread
    ensures match ReadPacket(old(r.unread), hdrLen)
            case Ok((packet, rest)) => p == Ok(packet) && r.unread == rest
            case Err(e) => p == Err(e)
  {
    var buf := r.Take(hdrLen);
    if buf.Err? {
      return Err(buf.error);
    }
    var hdr := DecodeHeader(buf.value);
    if hdr.Err? {
      return Err(hdr.error);
    }
    var data := r.Take(hdr.value.1);
    if data.Err? {
      return Err(data.error);
    }
    p := Ok(Packet(hdr.value.0, data.value));
  }
}
