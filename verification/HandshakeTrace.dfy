/** The handshake of Handshake from the actions of the run: what each party wrote and heard, why it
    failed, and how a handshake goes that nothing disturbs. */
module HandshakeTrace {
  import opened Wrappers
  import opened Bincode
  import opened Protocol
  import opened Runs
  import opened Handshake

  function Commanding(): Action -> Option<ControlChannelCmd> {
    (a: Action) => if a.ServerCommand? then Some(a.cmd) else None
  }

  function Hearing(): Action -> Option<()> {
    (a: Action) => if a.ClientReadCommand? then Some(()) else None
  }

  /** The client's side, from the actions alone; a client fails only through its own failure. */
  ghost predicate ClientTraced(run: seq<Action>, s: State) {
    && (s.asked <==> ClientHello in run)
    && (s.auth.Some? <==> ClientAuth in run)
    && (s.clientRead >= 1 <==> ClientReadHello in run)
    && (s.clientRead >= 2 <==> ClientReadAck in run)
    && |s.heard| == |Collect(Hearing(), run)|
    && (s.client.CFailed? ==> ClientFails in run || exists c :: ClientWriteFails(c) in run)
    && (ClientFails in run ==> s.client.CFailed?)
  }

  ghost predicate ServerTraced(run: seq<Action>, s: State) {
    && (forall n :: s.nonce == Some(n) <==> ServerNonce(n) in run)
    && (forall f :: s.found == Some(f) <==> ServerLookup(f) in run)
    && (s.verdict.Some? <==> ServerRefuse in run || ServerJudge in run)
    && s.commands == Collect(Commanding(), run)
    && (s.server.SFailed? ==>
          || ServerFails in run || (exists c :: ServerWriteFails(c) in run)
          || (s.verdict.Some? && !s.verdict.value.AckOk?))
    && (ServerFails in run ==> s.server.SFailed?)
  }

  lemma InSnoc<T>(run: seq<T>, a: T)
    ensures forall x :: x in run + [a] <==> x in run || x == a
  {
  }

  /** What an action does to the client's fields. */
  predicate ClientEffect(s: State, s': State, a: Action) {
    && s'.asked == (s.asked || a.ClientHello?)
    && s'.auth.Some? == (s.auth.Some? || a.ClientAuth?)
    && s'.clientRead == s.clientRead + (if ClientReads(a) then 1 else 0)
    && (a.ClientReadHello? ==> s.clientRead == 0) && (a.ClientReadAck? ==> s.clientRead == 1)
    && (a.ClientReadCommand? ==> s.clientRead >= 2)
    && |s'.heard| == |s.heard| + (if a.ClientReadCommand? then 1 else 0)
    && (a.ClientFails? || a.ClientWriteFails? ==> s'.client.CFailed?)
    && (!a.ClientFails? && !a.ClientWriteFails? ==> (s'.client.CFailed? <==> s.client.CFailed?))
  }

  lemma ClientFieldsStep(e: Env, s: State, a: Action)
    requires Told(e, s) && Enabled(e, s, a) && !Step(e, s, a).misread
    ensures ClientEffect(s, Step(e, s, a), a)
  {
    if ClientReads(a) {
      ClientReadFields(e, s, a);
    } else if ServerReads(a) || ServerSends(a) || a.ServerLookup? || a.ServerFails? || a.ServerWriteFails? {
      ServerActionFields(e, s, a);
    } else {
      ClientOwnFields(e, s, a);
    }
  }

  lemma ClientReadFields(e: Env, s: State, a: Action)
    requires ClientOk(e, s) && Enabled(e, s, a) && ClientReads(a) && !Step(e, s, a).misread
    ensures ClientEffect(s, Step(e, s, a), a)
  {
  }

  lemma ServerActionFields(e: Env, s: State, a: Action)
    requires Enabled(e, s, a)
    requires ServerReads(a) || ServerSends(a) || a.ServerLookup? || a.ServerFails? || a.ServerWriteFails?
    ensures ClientEffect(s, Step(e, s, a), a)
  {
  }

  lemma ClientOwnFields(e: Env, s: State, a: Action)
    requires Enabled(e, s, a) && (ClientSends(a) || a.ClientFails? || a.ClientWriteFails?)
    ensures ClientEffect(s, Step(e, s, a), a)
  {
  }

  lemma ClientTraceGrows(run: seq<Action>, s: State, s': State, a: Action)
    requires ClientTraced(run, s) && ClientEffect(s, s', a)
    ensures ClientTraced(run + [a], s')
  {
    InSnoc(run, a);
    CollectSnoc(Hearing(), run, a);
    if a.ClientWriteFails? {
      assert ClientWriteFails(a.cut) in run + [a];
    }
  }

  predicate ServerEffect(s: State, s': State, a: Action) {
    && s'.nonce == (if a.ServerNonce? then Some(a.n) else s.nonce) && (a.ServerNonce? ==> s.nonce.None?)
    && s'.found == (if a.ServerLookup? then Some(a.found) else s.found) && (a.ServerLookup? ==> s.found.None?)
    && (s'.verdict.Some? <==> s.verdict.Some? || a.ServerRefuse? || a.ServerJudge?)
    && (s.verdict.Some? ==> s'.verdict == s.verdict)
    && s'.commands == s.commands + One(Commanding()(a))
    && (s.server.SFailed? || a.ServerFails? || a.ServerWriteFails? ==> s'.server.SFailed?)
    && (s'.server.SFailed? ==>
          || s.server.SFailed? || a.ServerFails? || a.ServerWriteFails?
          || (s'.verdict.Some? && !s'.verdict.value.AckOk?))
  }

  lemma ServerActsOnce(e: Env, s: State, a: Action)
    requires Told(e, s) && Enabled(e, s, a)
    ensures a.ServerNonce? ==> s.nonce.None?
    ensures a.ServerLookup? ==> s.found.None?
    ensures a.ServerRefuse? || a.ServerJudge? ==> s.verdict.None?
  {
  }

  lemma ServerFieldsStep(e: Env, s: State, a: Action)
    requires Told(e, s) && Enabled(e, s, a) && !Step(e, s, a).misread
    ensures ServerEffect(s, Step(e, s, a), a)
  {
    ServerActsOnce(e, s, a);
    if ServerSends(a) {
      ServerSendFields(e, s, a);
    } else {
      ServerOtherFields(e, s, a);
    }
  }

  lemma ServerSendFields(e: Env, s: State, a: Action)
    requires Enabled(e, s, a) && ServerSends(a)
    requires (a.ServerNonce? ==> s.nonce.None?) && (a.ServerRefuse? || a.ServerJudge? ==> s.verdict.None?)
    ensures ServerEffect(s, Step(e, s, a), a)
  {
  }

  lemma ServerOtherFields(e: Env, s: State, a: Action)
    requires Enabled(e, s, a) && !ServerSends(a) && !Step(e, s, a).misread
    requires a.ServerLookup? ==> s.found.None?
    ensures ServerEffect(s, Step(e, s, a), a)
  {
    if ServerReads(a) {
      ServerReadFields(e, s, a);
    } else if ClientReads(a) {
      ClientReadLeavesServer(e, s, a);
    }
  }

  lemma ServerReadFields(e: Env, s: State, a: Action)
    requires Enabled(e, s, a) && ServerReads(a) && !Step(e, s, a).misread
    ensures ServerEffect(s, Step(e, s, a), a)
  {
  }

  lemma ClientReadLeavesServer(e: Env, s: State, a: Action)
    requires Enabled(e, s, a) && ClientReads(a)
    ensures ServerEffect(s, Step(e, s, a), a)
  {
  }

  lemma ServerTraceGrows(run: seq<Action>, s: State, s': State, a: Action)
    requires ServerTraced(run, s) && ServerEffect(s, s', a)
    ensures ServerTraced(run + [a], s')
  {
    InSnoc(run, a);
    CollectSnoc(Commanding(), run, a);
    if a.ServerWriteFails? {
      assert ServerWriteFails(a.cut) in run + [a];
    }
  }

  ghost predicate Traced(e: Env, run: seq<Action>, s: State) {
    ClientTraced(run, s) && ServerTraced(run, s) && Inv(e, s)
  }

  lemma StepTraces(e: Env, run: seq<Action>, s: State, a: Action)
    requires Traced(e, run, s) && Enabled(e, s, a)
    ensures Traced(e, run + [a], Step(e, s, a))
  {
    StepKeepsInv(e, s, a);
    ClientFieldsStep(e, s, a);
    ServerFieldsStep(e, s, a);
    ClientTraceGrows(run, s, Step(e, s, a), a);
    ServerTraceGrows(run, s, Step(e, s, a), a);
  }

  lemma RunTraces(e: Env, run: seq<Action>)
    requires IsRun(Moves(e), Init(), run)
    ensures Traced(e, run, RunFrom(Moves(e), Init(), run))
  {
    forall past, s, a | Traced(e, past, s) && Enabled(e, s, a) ensures Traced(e, past + [a], Step(e, s, a)) {
      StepTraces(e, past, s, a);
    }
    RunKeepsTrace(Moves(e), (past, s) => Traced(e, past, s), Init(), run);
  }

  /** A client in which nothing failed is where the ack put it, and has heard what was written. */
  ghost predicate Obeyed(run: seq<Action>, s: State) {
    && (ClientReadAck in run && !s.client.CFailed? ==>
          && s.verdict.Some?
          && (s.verdict == Some(AckOk) <==> s.client.CLoop?)
          && (s.verdict != Some(AckOk) <==> s.client == CRefused(s.verdict.value)))
    && (s.client.CLoop? ==>
          && |Collect(Hearing(), run)| <= |Collect(Commanding(), run)|
          && s.heard == Collect(Commanding(), run)[..|Collect(Hearing(), run)|])
    && (s.client.CFailed? ==> ClientFails in run || exists c :: ClientWriteFails(c) in run)
    && (s.server.SFailed? ==>
          || ServerFails in run || (exists c :: ServerWriteFails(c) in run)
          || (s.verdict.Some? && !s.verdict.value.AckOk?))
  }

  /** A client that has read its ack and did not fail is where the ack puts it: in its command loop
      if it was accepted, refused with the reason if not; it then hears the commands that the
      server wrote, one for each that it reads. And neither party fails for a reason other than
      its own connection, or, on the server, its own refusal. */
  lemma AckIsObeyed(e: Env, run: seq<Action>)
    requires IsRun(Moves(e), Init(), run)
    ensures Obeyed(run, RunFrom(Moves(e), Init(), run))
  {
    RunTraces(e, run);
    TraceMeans(e, run, RunFrom(Moves(e), Init(), run));
  }

  lemma TraceMeans(e: Env, run: seq<Action>, s: State)
    requires Traced(e, run, s)
    ensures Obeyed(run, s)
  {
    ReadAckPhase(e, s);
    if s.client.CLoop? {
      assert s.heard == s.commands[..|s.heard|];
    }
  }

  lemma ReadAckPhase(e: Env, s: State)
    requires Told(e, s)
    ensures s.clientRead >= 2 && !s.client.CFailed? ==>
              && s.verdict.Some?
              && (s.verdict == Some(AckOk) <==> s.client.CLoop?)
              && (s.verdict != Some(AckOk) <==> s.client == CRefused(s.verdict.value))
    ensures s.client.CLoop? ==> s.heard <= s.commands
  {
  }

  // ---- without interleaving ----

  lemma OneMore(e: Env, run: seq<Action>, s: State, a: Action) returns (run': seq<Action>, s': State)
    requires Leads(Moves(e), Init(), run, s) && Inv(e, s) && Enabled(e, s, a)
    ensures Leads(Moves(e), Init(), run', s') && run' == run + [a] && s' == Step(e, s, a) && Inv(e, s')
  {
    StepKeepsInv(e, s, a);
    Then(Moves(e), Init(), run, s, a);
    run', s' := run + [a], Step(e, s, a);
  }

  /** How a handshake ends that nothing disturbs. */
  function Ending(e: Env, n: Digest, found: Option<Bytes>): Client {
    match found
    case None => CRefused(ServiceNotExist)
    case Some(token) =>
      if e.h(token + n) == e.h(e.token + n) then CLoop(e.h(e.token + n)) else CRefused(AuthFailed)
  }

  /** Nothing left on the way, and room to read: the next read finds the whole message. */
  lemma WholeMessage(slot: nat -> Kind, stream: Bytes, sent: seq<Message>, read: nat)
    requires Aligned(slot, stream, sent, read, None) && read < |sent|
    ensures |stream| >= PacketLen(slot(read))
  {
    EncodeAllHead(sent, read);
    EncodingFillsPacket(sent[read]);
  }

  lemma UntilAuthSent(e: Env, n: Digest) returns (run: seq<Action>, s: State)
    ensures Leads(Moves(e), Init(), run, s) && Inv(e, s)
    ensures s.client == CAuthSent(e.h(e.token + n)) && s.server.SNonceSent? && s.nonce == Some(n)
    ensures s.clientRead == 1 && s.serverRead == 1 && s.clientCut == None && s.serverCut == None && s.verdict == None
  {
    run, s := OneMore(e, [], Init(), ClientHello);
    WholeMessage(ClientSlot, s.c2s, SentByClient(e, s), s.serverRead);
    run, s := OneMore(e, run, s, ServerReadHello);
    run, s := OneMore(e, run, s, ServerNonce(n));
    WholeMessage(ServerSlot, s.s2c, SentByServer(s), s.clientRead);
    run, s := OneMore(e, run, s, ClientReadHello);
    run, s := OneMore(e, run, s, ClientAuth);
  }

  lemma UntilVerdict(e: Env, n: Digest, found: Option<Bytes>) returns (run: seq<Action>, s: State)
    ensures Leads(Moves(e), Init(), run, s) && Inv(e, s)
    ensures s.client == CAuthSent(e.h(e.token + n)) && s.clientRead == 1 && s.serverCut == None
    ensures s.verdict == Some(match found
                              case None => ServiceNotExist
                              case Some(token) => if e.h(token + n) == e.h(e.token + n) then AckOk else AuthFailed)
    ensures s.verdict == Some(AckOk) ==> s.server.SRunning?
  {
    run, s := UntilAuthSent(e, n);
    run, s := OneMore(e, run, s, ServerLookup(found));
    if found.None? {
      run, s := OneMore(e, run, s, ServerRefuse);
    } else {
      WholeMessage(ClientSlot, s.c2s, SentByClient(e, s), s.serverRead);
      run, s := OneMore(e, run, s, ServerReadAuth);
      run, s := OneMore(e, run, s, ServerJudge);
    }
  }

  /** A handshake that nothing disturbs ends as it should: an unknown service is refused, a wrong
      token is refused, and the right one leaves both parties in their command loops. */
  lemma HandshakeAlone(e: Env, n: Digest, found: Option<Bytes>) returns (run: seq<Action>, s: State)
    ensures Leads(Moves(e), Init(), run, s)
    ensures s.client == Ending(e, n, found) && (s.client.CLoop? ==> s.server.SRunning?)
  {
    run, s := UntilVerdict(e, n, found);
    AckIsThere(e, s);
    run, s := OneMore(e, run, s, ClientReadAck);
    ReadAckPhase(e, s);
  }

  lemma AckIsThere(e: Env, s: State)
    requires Inv(e, s) && s.client.CAuthSent? && s.verdict.Some? && s.serverCut == None
    ensures Enabled(e, s, ClientReadAck)
    ensures var s' := Step(e, s, ClientReadAck);
            && !s'.client.CFailed? && s'.clientRead == 2 && s'.verdict == s.verdict && s'.server == s.server
            && (s'.client.CLoop? ==> s'.client.key == s.client.key)
  {
    WholeMessage(ServerSlot, s.s2c, SentByServer(s), s.clientRead);
    ToldStep(e, s, ClientReadAck);
    ClientReadFields(e, s, ClientReadAck);
  }

  /** And a command that is written when everything before it has been read is the next one that
      the client hears. */
  lemma CommandAlone(e: Env, s: State, cmd: ControlChannelCmd)
    requires s.client.CLoop? && s.server.SRunning? && s.s2c == []
    ensures IsRun(Moves(e), s, [ServerCommand(cmd), ClientReadCommand])
    ensures var s' := RunFrom(Moves(e), s, [ServerCommand(cmd), ClientReadCommand]);
            s'.heard == s.heard + [cmd] && s'.client == s.client && s'.server == s.server && s'.s2c == []
  {
    Then(Moves(e), s, [], s, ServerCommand(cmd));
    var s1 := Step(e, s, ServerCommand(cmd));
    assert s1.s2c == Encode(ControlMsg(cmd)) + [];
    EncodingFillsPacket(ControlMsg(cmd));
    ReadEncode(ControlMsg(cmd), []);
    assert [] + [ServerCommand(cmd)] == [ServerCommand(cmd)];
    Then(Moves(e), s, [ServerCommand(cmd)], s1, ClientReadCommand);
    assert [ServerCommand(cmd)] + [ClientReadCommand] == [ServerCommand(cmd), ClientReadCommand];
  }
}
