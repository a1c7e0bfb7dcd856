/** The control channel handshake and command stream of one connection, both parties and the
    bytes between them (src/client/control_channel.rs, src/server/control_channel.rs). What the
    services table answers is left open. */
module Handshake {
  import opened Wrappers
  import opened Bincode
  import opened Protocol
  import opened Runs

  /** The client's side of the configuration. */
  datatype Env = Env(h: HashFn, service: Digest, token: Bytes)

  datatype Client =
    | CStart
    | CHelloSent
    | CNonceRead(nonce: Digest)
    | CAuthSent(key: Digest)
    | CLoop(key: Digest)
    | CRefused(ack: Ack)
    | CFailed

  datatype Server =
    | SStart
    | SHelloRead(service: Digest)
    | SNonceSent(service: Digest)
    | SLookedUp(found: Option<Bytes>)      // the token of the service, if there is one
    | SJudged(ok: bool)
    | SRunning                             // ack written, handle inserted
    | SFailed

  /** A write that failed half-way: of this message only so many bytes got out. */
  datatype Cut = Cut(msg: Message, bytes: nat)

  datatype State = State(
    c2s: Bytes,
    s2c: Bytes,
    client: Client,
    server: Server,
    // what happened, for the claims to speak about
    asked: bool,                           // the client wrote its hello
    auth: Option<Digest>,                  // the client wrote its auth
    nonce: Option<Digest>,                 // the server wrote its nonce
    found: Option<Option<Bytes>>,          // what the lookup gave
    verdict: Option<Ack>,                  // the ack that the server wrote
    commands: seq<ControlChannelCmd>,      // the commands that it wrote
    heard: seq<ControlChannelCmd>,         // the commands that the client read
    clientRead: nat,                       // messages read by either party
    serverRead: nat,
    clientCut: Option<Cut>,                // what the client's last write left behind
    serverCut: Option<Cut>,
    misread: bool)                         // some read gave an error or another message

  datatype Action =
    | ClientHello
    | ServerReadHello
    | ServerNonce(n: Digest)
    | ClientReadHello
    | ClientAuth
    | ServerLookup(found: Option<Bytes>)
    | ServerRefuse
    | ServerReadAuth
    | ServerJudge
    | ServerCommand(cmd: ControlChannelCmd)
    | ClientReadAck
    | ClientReadCommand
    | ClientFails
    | ServerFails
    | ClientWriteFails(cut: Cut)
    | ServerWriteFails(cut: Cut)

  function Init(): State {
    State([], [], CStart, SStart, false, None, None, None, None, [], [], 0, 0, None, None, false)
  }

  function ClientHelloMsg(e: Env): Message {
    HelloMsg(ControlChannelHello(CURRENT_PROTO_VERSION, e.service))
  }

  /** The message that the client writes next, if it is about to write one. */
  predicate ClientWrites(e: Env, s: State, m: Message) {
    match s.client
    case CStart => m == ClientHelloMsg(e)
    case CNonceRead(n) => m == AuthMsg(e.h(e.token + n))
    case _ => false
  }

  predicate ServerWrites(s: State, m: Message) {
    match s.server
    case SHelloRead(_) => m.HelloMsg? && m.hello.ControlChannelHello? && m.hello.version == CURRENT_PROTO_VERSION
    case SLookedUp(found) => found.None? && m == AckMsg(ServiceNotExist)
    case SJudged(ok) => m == AckMsg(if ok then AckOk else AuthFailed)
    case SRunning => m.ControlMsg?
    case _ => false
  }

  function Part(c: Cut): Bytes {
    if c.bytes < |Encode(c.msg)| then Encode(c.msg)[..c.bytes] else Encode(c.msg)
  }

  predicate Enabled(e: Env, s: State, a: Action) {
    match a
    case ClientHello => s.client.CStart?
    case ServerReadHello => s.server.SStart? && |s.c2s| >= PacketLen(HelloKind)
    case ServerNonce(_) => s.server.SHelloRead?
    case ClientReadHello => s.client.CHelloSent? && |s.s2c| >= PacketLen(HelloKind)
    case ClientAuth => s.client.CNonceRead?
    case ServerLookup(_) => s.server.SNonceSent?
    case ServerRefuse => s.server.SLookedUp? && s.server.found.None?
    case ServerReadAuth =>
      s.server.SLookedUp? && s.server.found.Some? && s.nonce.Some? && |s.c2s| >= PacketLen(AuthKind)
    case ServerJudge => s.server.SJudged?
    case ServerCommand(_) => s.server.SRunning?
    case ClientReadAck => s.client.CAuthSent? && |s.s2c| >= PacketLen(AckKind)
    case ClientReadCommand => s.client.CLoop? && |s.s2c| >= PacketLen(ControlKind)
    case ClientFails => true
    case ServerFails => true
    case ClientWriteFails(c) => ClientWrites(e, s, c.msg) && c.bytes < |Encode(c.msg)|
    case ServerWriteFails(c) => ServerWrites(s, c.msg) && c.bytes < |Encode(c.msg)|
  }

  function Step(e: Env, s: State, a: Action): State
    requires Enabled(e, s, a)
  {
    match a
    case ClientHello =>
      s.(client := CHelloSent, asked := true,
         c2s := s.c2s + Encode(HelloMsg(ControlChannelHello(CURRENT_PROTO_VERSION, e.service))))
    case ServerReadHello =>
      (match Read(HelloKind, s.c2s)
       case Ok((HelloMsg(ControlChannelHello(_, d)), rest)) =>
         s.(server := SHelloRead(d), c2s := rest, serverRead := s.serverRead + 1)
       case _ => s.(server := SFailed, misread := true))
    case ServerNonce(n) =>
      s.(server := SNonceSent(s.server.service), nonce := Some(n),
         s2c := s.s2c + Encode(HelloMsg(ControlChannelHello(CURRENT_PROTO_VERSION, n))))
    case ClientReadHello =>
      (match Read(HelloKind, s.s2c)
       case Ok((HelloMsg(ControlChannelHello(_, n)), rest)) =>
         s.(client := CNonceRead(n), s2c := rest, clientRead := s.clientRead + 1)
       case _ => s.(client := CFailed, misread := true))
    case ClientAuth =>
      var key := e.h(e.token + s.client.nonce);
      s.(client := CAuthSent(key), auth := Some(key), c2s := s.c2s + Encode(AuthMsg(key)))
    case ServerLookup(found) => s.(server := SLookedUp(found), found := Some(found))
    case ServerRefuse =>
      s.(server := SFailed, verdict := Some(ServiceNotExist), s2c := s.s2c + Encode(AckMsg(ServiceNotExist)))
    case ServerReadAuth =>
      (match Read(AuthKind, s.c2s)
       case Ok((AuthMsg(d), rest)) =>
         s.(server := SJudged(e.h(s.server.found.value + s.nonce.value) == d),
            c2s := rest, serverRead := s.serverRead + 1)
       case _ => s.(server := SFailed, misread := true))
    case ServerJudge =>
      var ack := if s.server.ok then AckOk else AuthFailed;
      s.(server := if s.server.ok then SRunning else SFailed, verdict := Some(ack), s2c := s.s2c + Encode(AckMsg(ack)))
    case ServerCommand(cmd) =>
      s.(commands := s.commands + [cmd], s2c := s.s2c + Encode(ControlMsg(cmd)))
    case ClientReadAck =>
      (match Read(AckKind, s.s2c)
       case Ok((AckMsg(AckOk), rest)) =>
         s.(client := CLoop(s.client.key), s2c := rest, clientRead := s.clientRead + 1)
       case Ok((AckMsg(ack), rest)) =>
         s.(client := CRefused(ack), s2c := rest, clientRead := s.clientRead + 1)
       case _ => s.(client := CFailed, misread := true))
    case ClientReadCommand =>
      (match Read(ControlKind, s.s2c)
       case Ok((ControlMsg(cmd), rest)) =>
         s.(heard := s.heard + [cmd], s2c := rest, clientRead := s.clientRead + 1)
       case _ => s.(client := CFailed, misread := true))
    case ClientFails => s.(client := CFailed)
    case ServerFails => s.(server := SFailed)
    case ClientWriteFails(c) => s.(client := CFailed, clientCut := Some(c), c2s := s.c2s + Part(c))
    case ServerWriteFails(c) => s.(server := SFailed, serverCut := Some(c), s2c := s.s2c + Part(c))
  }

  function Moves(e: Env): Machine<State, Action> {
    (s: State, a: Action) => if Enabled(e, s, a) then Some(Step(e, s, a)) else None
  }

  // ---- what was sent, and what of it is still on the way ----

  function NonceMsg(n: Digest): Message {
    HelloMsg(ControlChannelHello(CURRENT_PROTO_VERSION, n))
  }

  function CommandMsgs(cs: seq<ControlChannelCmd>): seq<Message> {
    seq(|cs|, i requires 0 <= i < |cs| => ControlMsg(cs[i]))
  }

  function SentByClient(e: Env, s: State): seq<Message> {
    (if s.asked then [ClientHelloMsg(e)] else []) + (if s.auth.Some? then [AuthMsg(s.auth.value)] else [])
  }

  function SentByServer(s: State): seq<Message> {
    (if s.nonce.Some? then [NonceMsg(s.nonce.value)] else [])
    + (if s.verdict.Some? then [AckMsg(s.verdict.value)] else [])
    + CommandMsgs(s.commands)
  }

  /** What kind of message comes at this place of what the client sends. */
  function ClientSlot(i: nat): Kind {
    if i == 0 then HelloKind else AuthKind
  }

  function ServerSlot(i: nat): Kind {
    if i == 0 then HelloKind else if i == 1 then AckKind else ControlKind
  }

  predicate InSlots(slot: nat -> Kind, sent: seq<Message>) {
    forall i :: 0 <= i < |sent| ==> KindOf(sent[i]) == slot(i) && CurrentVersion(sent[i])
  }

  /** The part of a message that a failed write left at the end of a stream. */
  function Rest(cut: Option<Cut>): Bytes {
    if cut.Some? then Part(cut.value) else []
  }

  /** Such a part is a proper one, of the message that would have come next. */
  predicate CutOk(slot: nat -> Kind, sent: seq<Message>, cut: Option<Cut>) {
    cut.Some? ==> cut.value.bytes < |Encode(cut.value.msg)| && KindOf(cut.value.msg) == slot(|sent|)
  }

  /** A stream holds the whole messages not yet read, and then the part of one at most. */
  predicate Aligned(slot: nat -> Kind, stream: Bytes, sent: seq<Message>, read: nat, cut: Option<Cut>) {
    && read <= |sent| && InSlots(slot, sent) && CutOk(slot, sent, cut)
    && stream == EncodeAll(sent[read..]) + Rest(cut)
  }

  lemma {:induction false} EncodeAllSnoc(ms: seq<Message>, m: Message)
    ensures EncodeAll(ms + [m]) == EncodeAll(ms) + Encode(m)
  {
    if ms == [] {
      assert EncodeAll([m][1..]) == [];
    } else {
      assert (ms + [m])[1..] == ms[1..] + [m];
      EncodeAllSnoc(ms[1..], m);
    }
  }

  lemma SendKeepsAligned(slot: nat -> Kind, stream: Bytes, sent: seq<Message>, read: nat, m: Message)
    requires Aligned(slot, stream, sent, read, None) && CurrentVersion(m) && KindOf(m) == slot(|sent|)
    ensures Aligned(slot, stream + Encode(m), sent + [m], read, None)
  {
    assert (sent + [m])[read..] == sent[read..] + [m];
    EncodeAllSnoc(sent[read..], m);
  }

  lemma CutKeepsAligned(slot: nat -> Kind, stream: Bytes, sent: seq<Message>, read: nat, c: Cut)
    requires Aligned(slot, stream, sent, read, None)
    requires c.bytes < |Encode(c.msg)| && KindOf(c.msg) == slot(|sent|)
    ensures Aligned(slot, stream + Part(c), sent, read, Some(c))
  {
  }

  /** If there are bytes enough for the message that is due, it is whole and reads as what was
      sent: the part that a failed write left is shorter than the message it belongs to. */
  lemma ReadAligned(slot: nat -> Kind, stream: Bytes, sent: seq<Message>, read: nat, cut: Option<Cut>)
    returns (rest: Bytes)
    requires Aligned(slot, stream, sent, read, cut) && |stream| >= PacketLen(slot(read))
    ensures read < |sent|
    ensures Read(slot(read), stream) == Ok((sent[read], rest)) && Aligned(slot, rest, sent, read + 1, cut)
  {
    PartIsTooShort(slot, stream, sent, read, cut);
    rest := ReadNext(slot, stream, sent, read, cut);
  }

  lemma PartIsTooShort(slot: nat -> Kind, stream: Bytes, sent: seq<Message>, read: nat, cut: Option<Cut>)
    requires Aligned(slot, stream, sent, read, cut) && |stream| >= PacketLen(slot(read))
    ensures read < |sent|
  {
    if read == |sent| {
      assert stream == Rest(cut);
      if cut.Some? {
        EncodingFillsPacket(cut.value.msg);
      }
      assert false;
    }
  }

  lemma EncodeAllHead(ms: seq<Message>, i: nat)
    requires i < |ms|
    ensures EncodeAll(ms[i..]) == Encode(ms[i]) + EncodeAll(ms[i + 1..])
  {
    assert ms[i..][0] == ms[i] && ms[i..][1..] == ms[i + 1..];
  }

  lemma ReadFront(stream: Bytes, m: Message, a: Bytes, b: Bytes)
    requires stream == Encode(m) + a + b && CurrentVersion(m)
    ensures Read(KindOf(m), stream) == Ok((m, a + b))
  {
    assert stream == Encode(m) + (a + b);
    ReadEncode(m, a + b);
  }

  lemma ReadNext(slot: nat -> Kind, stream: Bytes, sent: seq<Message>, read: nat, cut: Option<Cut>)
    returns (rest: Bytes)
    requires Aligned(slot, stream, sent, read, cut) && read < |sent|
    ensures Read(slot(read), stream) == Ok((sent[read], rest)) && Aligned(slot, rest, sent, read + 1, cut)
  {
    rest := EncodeAll(sent[read + 1..]) + Rest(cut);
    EncodeAllHead(sent, read);
    ReadFront(stream, sent[read], EncodeAll(sent[read + 1..]), Rest(cut));
  }

  // ---- what every state keeps ----

  predicate ClientOk(e: Env, s: State) {
    && (match s.client
        case CStart => !s.asked && s.auth.None? && s.clientRead == 0 && s.heard == []
        case CHelloSent => s.asked && s.auth.None? && s.clientRead == 0 && s.heard == []
        case CNonceRead(n) => s.asked && s.auth.None? && s.nonce == Some(n) && s.clientRead == 1 && s.heard == []
        case CAuthSent(k) => s.auth == Some(k) && s.clientRead == 1 && s.heard == []
        case CLoop(k) => s.auth == Some(k) && s.verdict == Some(AckOk) && s.heard <= s.commands
                         && s.clientRead == 2 + |s.heard|
        case CRefused(a) => s.auth.Some? && s.verdict == Some(a) && !a.AckOk? && s.clientRead == 2
        case CFailed => true)
    && (s.auth.Some? ==> s.asked && s.nonce.Some? && s.auth.value == e.h(e.token + s.nonce.value))
  }

  /** The session key as the server computes it. */
  function ServerKey(e: Env, s: State): Digest
    requires s.nonce.Some? && s.found.Some? && s.found.value.Some?
  {
    e.h(s.found.value.value + s.nonce.value)
  }

  predicate VerdictOk(e: Env, s: State) {
    && (s.verdict.Some? ==>
          s.nonce.Some? && s.found.Some? && (s.verdict.value.ServiceNotExist? <==> s.found.value.None?))
    && (s.verdict.Some? && s.verdict.value.ServiceNotExist? ==> s.serverRead == 1)
    && (s.verdict.Some? && !s.verdict.value.ServiceNotExist? ==>
          && s.auth.Some? && s.serverRead == 2
          && (s.verdict.value.AckOk? <==> ServerKey(e, s) == s.auth.value))
    && (s.commands != [] ==> s.verdict == Some(AckOk))
  }

  predicate ServerOk(e: Env, s: State) {
    match s.server
    case SStart => s.nonce.None? && s.found.None? && s.verdict.None? && s.serverRead == 0
    case SHelloRead(d) =>
      s.asked && d == e.service && s.nonce.None? && s.found.None? && s.verdict.None? && s.serverRead == 1
    case SNonceSent(d) =>
      s.asked && d == e.service && s.nonce.Some? && s.found.None? && s.verdict.None? && s.serverRead == 1
    case SLookedUp(f) => s.asked && s.nonce.Some? && s.found == Some(f) && s.verdict.None? && s.serverRead == 1
    case SJudged(ok) =>
      && s.nonce.Some? && s.found.Some? && s.found.value.Some? && s.auth.Some?
      && (ok <==> ServerKey(e, s) == s.auth.value) && s.verdict.None? && s.serverRead == 2
    case SRunning => s.verdict == Some(AckOk)
    case SFailed => true
  }

  /** What each party knows is what happened, and only a failed party left a part behind. */
  predicate Told(e: Env, s: State) {
    && ClientOk(e, s) && ServerOk(e, s) && VerdictOk(e, s)
    && (s.clientCut.Some? ==> s.client.CFailed?)
    && (s.serverCut.Some? ==> s.server.SFailed? && (s.verdict.Some? ==> s.verdict == Some(AckOk)))
    && !s.misread
  }

  predicate FromServer(s: State) {
    Aligned(ServerSlot, s.s2c, SentByServer(s), s.clientRead, s.serverCut)
  }

  predicate FromClient(e: Env, s: State) {
    Aligned(ClientSlot, s.c2s, SentByClient(e, s), s.serverRead, s.clientCut)
  }

  predicate Inv(e: Env, s: State) {
    Told(e, s) && FromServer(s) && FromClient(e, s)
  }

  // ---- one step: what comes from the server ----

  predicate ClientReads(a: Action) {
    a.ClientReadHello? || a.ClientReadAck? || a.ClientReadCommand?
  }

  predicate ServerSends(a: Action) {
    a.ServerNonce? || a.ServerRefuse? || a.ServerJudge? || a.ServerCommand?
  }

  function ServerSays(s: State, a: Action): Message
    requires ServerSends(a) && (a.ServerJudge? ==> s.server.SJudged?)
  {
    match a
    case ServerNonce(n) => NonceMsg(n)
    case ServerRefuse => AckMsg(ServiceNotExist)
    case ServerJudge => AckMsg(if s.server.ok then AckOk else AuthFailed)
    case ServerCommand(cmd) => ControlMsg(cmd)
  }

  lemma ServerSendStep(e: Env, s: State, a: Action)
    requires Told(e, s) && FromServer(s) && Enabled(e, s, a) && ServerSends(a)
    ensures FromServer(Step(e, s, a))
  {
    ServerAppends(e, s, a);
    SendKeepsAligned(ServerSlot, s.s2c, SentByServer(s), s.clientRead, ServerSays(s, a));
  }

  lemma ServerAppends(e: Env, s: State, a: Action)
    requires Told(e, s) && Enabled(e, s, a) && ServerSends(a)
    ensures var (s', m) := (Step(e, s, a), ServerSays(s, a));
            && SentByServer(s') == SentByServer(s) + [m] && s'.s2c == s.s2c + Encode(m)
            && KindOf(m) == ServerSlot(|SentByServer(s)|) && CurrentVersion(m)
            && s'.clientRead == s.clientRead && s.serverCut.None? && s'.serverCut.None?
  {
  }

  lemma ServerCutStep(e: Env, s: State, a: Action)
    requires Told(e, s) && FromServer(s) && Enabled(e, s, a) && a.ServerWriteFails?
    ensures FromServer(Step(e, s, a))
  {
    CutKeepsAligned(ServerSlot, s.s2c, SentByServer(s), s.clientRead, a.cut);
    assert SentByServer(Step(e, s, a)) == SentByServer(s);
  }

  /** What the client reads next is what it expects. */
  predicate ClientDue(s: State, a: Action, m: Message) {
    match a
    case ClientReadHello => s.nonce.Some? && m == NonceMsg(s.nonce.value)
    case ClientReadAck => s.verdict.Some? && m == AckMsg(s.verdict.value)
    case ClientReadCommand => |s.heard| < |s.commands| && m == ControlMsg(s.commands[|s.heard|])
    case _ => false
  }

  lemma ClientFinds(e: Env, s: State, a: Action) returns (m: Message, rest: Bytes)
    requires Told(e, s) && FromServer(s) && Enabled(e, s, a) && ClientReads(a)
    ensures ClientDue(s, a, m) && Read(KindOf(m), s.s2c) == Ok((m, rest))
    ensures FromServer(s.(s2c := rest, clientRead := s.clientRead + 1))
  {
    rest := ReadAligned(ServerSlot, s.s2c, SentByServer(s), s.clientRead, s.serverCut);
    m := SentByServer(s)[s.clientRead];
    assert SentByServer(s.(s2c := rest, clientRead := s.clientRead + 1)) == SentByServer(s);
  }

  lemma ClientReadStep(e: Env, s: State, a: Action)
    requires Told(e, s) && FromServer(s) && Enabled(e, s, a) && ClientReads(a)
    ensures FromServer(Step(e, s, a)) && Told(e, Step(e, s, a))
  {
    var m, rest := ClientFinds(e, s, a);
    ClientReadTold(e, s, a, m, rest);
    ServerSideSame(s.(s2c := rest, clientRead := s.clientRead + 1), Step(e, s, a));
  }

  lemma ClientReadTold(e: Env, s: State, a: Action, m: Message, rest: Bytes)
    requires Told(e, s) && Enabled(e, s, a) && ClientReads(a)
    requires ClientDue(s, a, m) && Read(KindOf(m), s.s2c) == Ok((m, rest))
    ensures Told(e, Step(e, s, a))
    ensures SameServerSide(s.(s2c := rest, clientRead := s.clientRead + 1), Step(e, s, a))
  {
    if a.ClientReadCommand? {
      assert s.heard + [s.commands[|s.heard|]] <= s.commands;
    }
  }

  predicate SameServerSide(s: State, s': State) {
    && s'.s2c == s.s2c && s'.clientRead == s.clientRead && s'.serverCut == s.serverCut
    && s'.nonce == s.nonce && s'.verdict == s.verdict && s'.commands == s.commands
  }

  lemma ServerSideSame(s: State, s': State)
    requires FromServer(s) && SameServerSide(s, s')
    ensures FromServer(s')
  {
    assert SentByServer(s') == SentByServer(s);
  }

  // ---- one step: what comes from the client ----

  predicate ServerReads(a: Action) {
    a.ServerReadHello? || a.ServerReadAuth?
  }

  predicate ClientSends(a: Action) {
    a.ClientHello? || a.ClientAuth?
  }

  lemma ClientSendStep(e: Env, s: State, a: Action)
    requires Told(e, s) && FromClient(e, s) && Enabled(e, s, a) && ClientSends(a)
    ensures FromClient(e, Step(e, s, a))
  {
    var s', sent := Step(e, s, a), SentByClient(e, s);
    var m := if a.ClientHello? then ClientHelloMsg(e) else AuthMsg(e.h(e.token + s.client.nonce));
    assert SentByClient(e, s') == sent + [m];
    SendKeepsAligned(ClientSlot, s.c2s, sent, s.serverRead, m);
  }

  lemma ClientCutStep(e: Env, s: State, a: Action)
    requires Told(e, s) && FromClient(e, s) && Enabled(e, s, a) && a.ClientWriteFails?
    ensures FromClient(e, Step(e, s, a))
  {
    CutKeepsAligned(ClientSlot, s.c2s, SentByClient(e, s), s.serverRead, a.cut);
    assert SentByClient(e, Step(e, s, a)) == SentByClient(e, s);
  }

  predicate ServerDue(e: Env, s: State, a: Action, m: Message) {
    match a
    case ServerReadHello => s.asked && m == ClientHelloMsg(e)
    case ServerReadAuth => s.auth.Some? && m == AuthMsg(s.auth.value)
    case _ => false
  }

  lemma ServerFinds(e: Env, s: State, a: Action) returns (m: Message, rest: Bytes)
    requires Told(e, s) && FromClient(e, s) && Enabled(e, s, a) && ServerReads(a)
    ensures ServerDue(e, s, a, m) && Read(KindOf(m), s.c2s) == Ok((m, rest))
    ensures FromClient(e, s.(c2s := rest, serverRead := s.serverRead + 1))
  {
    rest := ReadAligned(ClientSlot, s.c2s, SentByClient(e, s), s.serverRead, s.clientCut);
    m := SentByClient(e, s)[s.serverRead];
    assert SentByClient(e, s.(c2s := rest, serverRead := s.serverRead + 1)) == SentByClient(e, s);
  }

  lemma ServerReadStep(e: Env, s: State, a: Action)
    requires Told(e, s) && FromClient(e, s) && Enabled(e, s, a) && ServerReads(a)
    ensures FromClient(e, Step(e, s, a)) && Told(e, Step(e, s, a))
  {
    var m, rest := ServerFinds(e, s, a);
    ServerReadTold(e, s, a, m, rest);
    ClientSideSame(e, s.(c2s := rest, serverRead := s.serverRead + 1), Step(e, s, a));
  }

  lemma ServerReadTold(e: Env, s: State, a: Action, m: Message, rest: Bytes)
    requires Told(e, s) && Enabled(e, s, a) && ServerReads(a)
    requires ServerDue(e, s, a, m) && Read(KindOf(m), s.c2s) == Ok((m, rest))
    ensures Told(e, Step(e, s, a))
    ensures SameClientSide(s.(c2s := rest, serverRead := s.serverRead + 1), Step(e, s, a))
  {
  }

  predicate SameClientSide(s: State, s': State) {
    && s'.c2s == s.c2s && s'.serverRead == s.serverRead && s'.clientCut == s.clientCut
    && s'.asked == s.asked && s'.auth == s.auth
  }

  lemma ClientSideSame(e: Env, s: State, s': State)
    requires FromClient(e, s) && SameClientSide(s, s')
    ensures FromClient(e, s')
  {
    assert SentByClient(e, s') == SentByClient(e, s);
  }

  // ---- one step: all of it ----

  lemma OtherTold(e: Env, s: State, a: Action)
    requires Told(e, s) && Enabled(e, s, a) && !ClientReads(a) && !ServerReads(a)
    ensures Told(e, Step(e, s, a))
  {
  }

  lemma ToldStep(e: Env, s: State, a: Action)
    requires Inv(e, s) && Enabled(e, s, a)
    ensures Told(e, Step(e, s, a))
  {
    if ClientReads(a) {
      ClientReadStep(e, s, a);
    } else if ServerReads(a) {
      ServerReadStep(e, s, a);
    } else {
      OtherTold(e, s, a);
    }
  }

  lemma OtherServerSide(e: Env, s: State, a: Action)
    requires Enabled(e, s, a) && !ServerSends(a) && !a.ServerWriteFails? && !ClientReads(a)
    ensures SameServerSide(s, Step(e, s, a))
  {
  }

  lemma FromServerStep(e: Env, s: State, a: Action)
    requires Told(e, s) && FromServer(s) && Enabled(e, s, a)
    ensures FromServer(Step(e, s, a))
  {
    if ServerSends(a) {
      ServerSendStep(e, s, a);
    } else if a.ServerWriteFails? {
      ServerCutStep(e, s, a);
    } else if ClientReads(a) {
      ClientReadStep(e, s, a);
    } else {
      OtherServerSide(e, s, a);
      ServerSideSame(s, Step(e, s, a));
    }
  }

  lemma OtherClientSide(e: Env, s: State, a: Action)
    requires Enabled(e, s, a) && !ClientSends(a) && !a.ClientWriteFails? && !ServerReads(a)
    ensures SameClientSide(s, Step(e, s, a))
  {
  }

  lemma FromClientStep(e: Env, s: State, a: Action)
    requires Told(e, s) && FromClient(e, s) && Enabled(e, s, a)
    ensures FromClient(e, Step(e, s, a))
  {
    if ClientSends(a) {
      ClientSendStep(e, s, a);
    } else if a.ClientWriteFails? {
      ClientCutStep(e, s, a);
    } else if ServerReads(a) {
      ServerReadStep(e, s, a);
    } else {
      OtherClientSide(e, s, a);
      ClientSideSame(e, s, Step(e, s, a));
    }
  }

  lemma StepKeepsInv(e: Env, s: State, a: Action)
    requires Inv(e, s) && Enabled(e, s, a)
    ensures Inv(e, Step(e, s, a))
  {
    ToldStep(e, s, a);
    FromServerStep(e, s, a);
    FromClientStep(e, s, a);
  }

  lemma RunKeepsInv(e: Env, s: State, run: seq<Action>)
    requires Inv(e, s) && IsRun(Moves(e), s, run)
    ensures Inv(e, RunFrom(Moves(e), s, run))
  {
    forall s, a | Inv(e, s) && Enabled(e, s, a) ensures Inv(e, Step(e, s, a)) {
      StepKeepsInv(e, s, a);
    }
    RunKeeps(Moves(e), s => Inv(e, s), s, run);
  }

  // ---- every run ----

  /** No read ever gives an error or a message other than the one that was sent: the bytes on
      either stream are always the whole messages that were written and not yet read, and after
      them, if the writer failed half-way, a proper part of the message that would have come
      next. Such a part is never long enough for the read that comes to it. */
  lemma StreamsStayAligned(e: Env, run: seq<Action>)
    requires IsRun(Moves(e), Init(), run)
    ensures var s := RunFrom(Moves(e), Init(), run);
            && !s.misread
            && s.clientRead <= |SentByServer(s)|
            && s.s2c == EncodeAll(SentByServer(s)[s.clientRead..]) + Rest(s.serverCut)
            && s.serverRead <= |SentByClient(e, s)|
            && s.c2s == EncodeAll(SentByClient(e, s)[s.serverRead..]) + Rest(s.clientCut)
            && CutOk(ServerSlot, SentByServer(s), s.serverCut) && CutOk(ClientSlot, SentByClient(e, s), s.clientCut)
            && (s.serverCut.Some? ==> s.server.SFailed?) && (s.clientCut.Some? ==> s.client.CFailed?)
  {
    RunKeepsInv(e, Init(), run);
  }

  lemma LoopStreams(e: Env, s: State)
    requires Inv(e, s) && s.client.CLoop?
    ensures s.heard <= s.commands
    ensures s.s2c == EncodeAll(CommandMsgs(s.commands[|s.heard|..])) + Rest(s.serverCut) && s.c2s == []
  {
    assert SentByServer(s)[s.clientRead..] == CommandMsgs(s.commands[|s.heard|..]);
    assert SentByClient(e, s)[2..] == [];
  }

  /** Agreement. A client in its command loop was accepted by the server on this connection;
      both hold the same session key; their tokens are equal, unless SHA-256 collided on the
      two challenges; the commands it has read are the first that the server wrote, the rest
      is what its stream holds, with at most a part of one more behind it, and the server has
      nothing left to read. */
  lemma Agreement(e: Env, run: seq<Action>)
    requires IsRun(Moves(e), Init(), run)
    ensures var s := RunFrom(Moves(e), Init(), run);
            s.client.CLoop? ==>
              && s.verdict == Some(AckOk) && s.nonce.Some? && s.found.Some? && s.found.value.Some?
              && s.client.key == ServerKey(e, s) == e.h(e.token + s.nonce.value)
              && (NoCollision(e.h, {e.token + s.nonce.value, s.found.value.value + s.nonce.value}) ==>
                    s.found.value.value == e.token)
              && s.heard <= s.commands && s.s2c == EncodeAll(CommandMsgs(s.commands[|s.heard|..])) + Rest(s.serverCut)
              && s.c2s == []
  {
    RunKeepsInv(e, Init(), run);
    var s := RunFrom(Moves(e), Init(), run);
    if s.client.CLoop? {
      LoopStreams(e, s);
      if NoCollision(e.h, {e.token + s.nonce.value, s.found.value.value + s.nonce.value}) {
        ConcatDetermines(e.token, s.nonce.value, s.found.value.value, s.nonce.value);
      }
    }
  }

  /** A refusal is justified and leaves the streams aligned: an unknown service is refused
      before the auth is read, a wrong auth after, and nothing follows the ack. */
  lemma Refusal(e: Env, run: seq<Action>)
    requires IsRun(Moves(e), Init(), run)
    ensures var s := RunFrom(Moves(e), Init(), run);
            s.client.CRefused? ==>
              && s.verdict == Some(s.client.ack) && s.s2c == [] && s.auth.Some? && s.found.Some?
              && (s.client.ack.ServiceNotExist? ==> s.found.value.None? && s.c2s == Encode(AuthMsg(s.auth.value)))
              && (s.client.ack.AuthFailed? ==> s.found.value.Some? && s.found.value.value != e.token && s.c2s == [])
              && !s.client.ack.AckOk?
  {
    RunKeepsInv(e, Init(), run);
    var s := RunFrom(Moves(e), Init(), run);
    if s.client.CRefused? {
      assert SentByServer(s)[2..] == [];
      var rest := SentByClient(e, s)[s.serverRead..];
      assert rest == if s.client.ack.ServiceNotExist? then [AuthMsg(s.auth.value)] else [];
      assert [AuthMsg(s.auth.value)][1..] == [];
    }
  }

  /** The server's verdict is right: it accepts, without collisions, exactly the token of the
      service. */
  lemma VerdictIsRight(e: Env, run: seq<Action>)
    requires IsRun(Moves(e), Init(), run)
    ensures var s := RunFrom(Moves(e), Init(), run);
            s.verdict.Some? && s.found.Some? && s.found.value.Some? && s.nonce.Some?
            && NoCollision(e.h, {e.token + s.nonce.value, s.found.value.value + s.nonce.value}) ==>
              (s.verdict.value.AckOk? <==> s.found.value.value == e.token)
  {
    RunKeepsInv(e, Init(), run);
    var s := RunFrom(Moves(e), Init(), run);
    if s.verdict == Some(AckOk) && NoCollision(e.h, {e.token + s.nonce.value, s.found.value.value + s.nonce.value}) {
      ConcatDetermines(e.token, s.nonce.value, s.found.value.value, s.nonce.value);
    }
  }
}
