/** What the forwarders of UdpForwarding are given, pass on to the service and send back, from the
    actions of the run. */
module UdpPayloads {
  import opened Constants
  import opened Wrappers
  import opened Bincode
  import opened Runs
  import opened Subsequences
  import opened UdpTraffic
  import opened UdpForwarding

  // ---- what is read off ----

  function Arriving(): Action -> Option<Packet> {
    (a: Action) => if a.Datagram? then Some(a.p) else None
  }

  function Answering(): Action -> Option<(Id, Bytes)> {
    (a: Action) => if a.FromService? then Some((a.id, a.data)) else None
  }

  function PacketOf(): ((Id, Packet)) -> Option<Packet> {
    (x: (Id, Packet)) => Some(x.1)
  }

  function AnswerOf(): ((Id, Packet)) -> Option<(Id, Bytes)> {
    (x: (Id, Packet)) => Some((x.0, x.1.data))
  }

  function DataFrom(a: SocketAddr): Packet -> Option<Bytes> {
    (p: Packet) => if p.from == a then Some(p.data) else None
  }

  function DataHandedFrom(a: SocketAddr): ((Id, Packet)) -> Option<Bytes> {
    (x: (Id, Packet)) => if x.1.from == a then Some(x.1.data) else None
  }

  function DataHandedTo(id: Id): ((Id, Packet)) -> Option<Bytes> {
    (x: (Id, Packet)) => if x.0 == id then Some(x.1.data) else None
  }

  function DataPassedBy(id: Id): ((Id, Bytes)) -> Option<Bytes> {
    (x: (Id, Bytes)) => if x.0 == id then Some(x.1) else None
  }

  // ---- from the server to the forwarders ----

  /** The packet that the reading loop has in its hands. */
  function InHand(s: State): seq<Packet> {
    if s.main.Reading? || s.main.Ended? then [] else [s.main.p]
  }

  /** The last of what arrived is left, and what was given is a part of the rest, in its order. */
  predicate Ordered(arrived: seq<Packet>, left: seq<Packet>, given: seq<Packet>) {
    && |left| <= |arrived| && arrived[|arrived| - |left|..] == left
    && Sub(given, arrived[..|arrived| - |left|])
  }

  lemma OrderedArrives(arrived: seq<Packet>, left: seq<Packet>, given: seq<Packet>, p: Packet)
    requires Ordered(arrived, left, given)
    ensures Ordered(arrived + [p], left + [p], given)
  {
    assert (arrived + [p])[..|arrived| - |left|] == arrived[..|arrived| - |left|];
  }

  /** One packet fewer is left, whether it was given or not. */
  lemma OrderedLetsGo(arrived: seq<Packet>, hand: Packet, rest: seq<Packet>, given: seq<Packet>)
    requires Ordered(arrived, [hand] + rest, given)
    ensures Ordered(arrived, rest, given) && Ordered(arrived, rest, given + [hand])
  {
    var k := |arrived| - |rest| - 1;
    assert arrived[k] == arrived[k..][0] == hand && arrived[k + 1..] == arrived[k..][1..] == rest;
    assert arrived[..k + 1] == arrived[..k] + [hand];
    SubGrows(given, arrived[..k], hand);
  }

  /** Of the datagrams that arrived, the last ones are on the stream and in hand; those that the
      loop gave to forwarders are a part of the others. */
  predicate InOrder(run: seq<Action>, s: State) {
    Ordered(Collect(Arriving(), run), InHand(s) + s.inbound, Collect(PacketOf(), s.handed))
  }

  lemma ArrivalInOrder(run: seq<Action>, s: State, p: Packet)
    requires InOrder(run, s) && Enabled(s, Datagram(p))
    ensures InOrder(run + [Datagram(p)], Step(s, Datagram(p)))
  {
    CollectSnoc(Arriving(), run, Datagram(p));
    OrderedArrives(Collect(Arriving(), run), InHand(s) + s.inbound, Collect(PacketOf(), s.handed), p);
    assert InHand(s) + (s.inbound + [p]) == InHand(s) + s.inbound + [p];
  }

  predicate LetsGo(s: State, a: Action) {
    a.Hand? || a.HandToNobody? || (a.Find? && s.main.Finding? && s.main.p.from !in s.portMap)
  }

  lemma LetGoEffect(s: State, a: Action)
    requires Enabled(s, a) && LetsGo(s, a)
    ensures InHand(s) + s.inbound == [s.main.p] + s.inbound
    ensures InHand(Step(s, a)) + Step(s, a).inbound == s.inbound
    ensures Step(s, a).handed == if a.Hand? then s.handed + [(s.main.id, s.main.p)] else s.handed
  {
  }

  lemma LetGoInOrder(run: seq<Action>, s: State, a: Action)
    requires InOrder(run, s) && Enabled(s, a) && LetsGo(s, a)
    ensures InOrder(run + [a], Step(s, a))
  {
    LetGoEffect(s, a);
    NoArrival(run, a);
    OrderedLetsGo(Collect(Arriving(), run), s.main.p, s.inbound, Collect(PacketOf(), s.handed));
    if a.Hand? {
      CollectSnoc(PacketOf(), s.handed, (s.main.id, s.main.p));
    }
  }

  lemma NoArrival(run: seq<Action>, a: Action)
    requires !a.Datagram?
    ensures Collect(Arriving(), run + [a]) == Collect(Arriving(), run)
  {
    CollectSnoc(Arriving(), run, a);
  }

  lemma OtherLeft(s: State, a: Action)
    requires Enabled(s, a) && !a.Datagram? && !LetsGo(s, a)
    ensures InHand(Step(s, a)) + Step(s, a).inbound == InHand(s) + s.inbound && Step(s, a).handed == s.handed
  {
  }

  lemma StepInOrder(run: seq<Action>, s: State, a: Action)
    requires InOrder(run, s) && Enabled(s, a)
    ensures InOrder(run + [a], Step(s, a))
  {
    if a.Datagram? {
      ArrivalInOrder(run, s, a.p);
    } else if LetsGo(s, a) {
      LetGoInOrder(run, s, a);
    } else {
      NoArrival(run, a);
      OtherLeft(s, a);
    }
  }

  lemma RunInOrder(run: seq<Action>)
    requires IsRun(Moves, Init(), run)
    ensures InOrder(run, RunFrom(Moves, Init(), run))
  {
    forall past, s, a | InOrder(past, s) && Enabled(s, a) ensures InOrder(past + [a], Step(s, a)) {
      StepInOrder(past, s, a);
    }
    RunKeepsTrace(Moves, InOrder, Init(), run);
  }

  // ---- from the forwarders to the service ----

  predicate Balanced(handed: seq<(Id, Packet)>, passed: seq<(Id, Bytes)>, id: Id, inbox: seq<Bytes>) {
    Collect(DataHandedTo(id), handed) == Collect(DataPassedBy(id), passed) + inbox
  }

  /** What a forwarder was given, it has passed on or still has; and all of it came from its
      address. */
  ghost predicate Accounted(s: State) {
    && (forall id :: id in s.forwarders ==> Balanced(s.handed, s.passed, id, s.forwarders[id].inbox))
    && (forall x :: x in s.handed ==> x.0 in s.forwarders && s.forwarders[x.0].addr == x.1.from)
    && (forall x :: x in s.passed ==> x.0 in s.forwarders)
  }

  lemma ConnectedAccounted(s: State)
    requires Accounted(s) && TableOk(s) && Enabled(s, Connected)
    ensures Accounted(Step(s, Connected))
  {
    assert s.next !in s.forwarders;
    CollectNothing(DataHandedTo(s.next), s.handed);
    CollectNothing(DataPassedBy(s.next), s.passed);
  }

  lemma BalancedAfterHand(handed: seq<(Id, Packet)>, passed: seq<(Id, Bytes)>, id: Id, inbox: seq<Bytes>,
                          x: (Id, Packet))
    requires Balanced(handed, passed, id, inbox)
    ensures Balanced(handed + [x], passed, id, if x.0 == id then inbox + [x.1.data] else inbox)
  {
    CollectSnoc(DataHandedTo(id), handed, x);
  }

  lemma HandAccounted(s: State)
    requires Accounted(s) && TableOk(s) && MainOk(s) && Enabled(s, Hand)
    ensures Accounted(Step(s, Hand))
  {
    var s', x := Step(s, Hand), (s.main.id, s.main.p);
    forall id | id in s'.forwarders ensures Balanced(s'.handed, s'.passed, id, s'.forwarders[id].inbox) {
      BalancedAfterHand(s.handed, s.passed, id, s.forwarders[id].inbox, x);
    }
    assert s.forwarders[s.main.id].addr == s.main.p.from;
  }

  lemma BalancedAfterPass(handed: seq<(Id, Packet)>, passed: seq<(Id, Bytes)>, id: Id, inbox: seq<Bytes>,
                          x: (Id, Bytes))
    requires Balanced(handed, passed, id, inbox) && (x.0 == id ==> inbox != [] && inbox[0] == x.1)
    ensures Balanced(handed, passed + [x], id, if x.0 == id then inbox[1..] else inbox)
  {
    CollectSnoc(DataPassedBy(id), passed, x);
    var before := Collect(DataPassedBy(id), passed);
    if x.0 == id {
      assert before + [x.1] + inbox[1..] == before + inbox;
    } else {
      assert before + [] == before;
    }
  }

  lemma ToServiceAccounted(s: State, id0: Id)
    requires Accounted(s) && Enabled(s, ToService(id0))
    ensures Accounted(Step(s, ToService(id0)))
  {
    var s', x := Step(s, ToService(id0)), (id0, s.forwarders[id0].inbox[0]);
    forall id | id in s'.forwarders ensures Balanced(s'.handed, s'.passed, id, s'.forwarders[id].inbox) {
      BalancedAfterPass(s.handed, s.passed, id, s.forwarders[id].inbox, x);
    }
  }

  /** Nothing else touches what a forwarder was given. */
  lemma OtherKeepsInboxes(s: State, a: Action)
    requires Enabled(s, a) && !a.Connected? && !a.Hand? && !a.ToService?
    ensures var s' := Step(s, a);
            && s'.handed == s.handed && s'.passed == s.passed && s'.forwarders.Keys == s.forwarders.Keys
            && forall id :: id in s.forwarders ==>
                 s'.forwarders[id].inbox == s.forwarders[id].inbox && s'.forwarders[id].addr == s.forwarders[id].addr
  {
  }

  lemma OtherAccounted(s: State, a: Action)
    requires Accounted(s) && Enabled(s, a) && !a.Connected? && !a.Hand? && !a.ToService?
    ensures Accounted(Step(s, a))
  {
    OtherKeepsInboxes(s, a);
  }

  lemma StepAccounted(s: State, a: Action)
    requires Accounted(s) && TableOk(s) && MainOk(s) && Enabled(s, a)
    ensures Accounted(Step(s, a))
  {
    match a {
      case Connected => ConnectedAccounted(s);
      case Hand => HandAccounted(s);
      case ToService(id) => ToServiceAccounted(s, id);
      case _ => OtherAccounted(s, a);
    }
  }

  lemma RunAccounted(run: seq<Action>)
    requires IsRun(Moves, Init(), run)
    ensures Accounted(RunFrom(Moves, Init(), run))
  {
    forall s, a | Accounted(s) && TableOk(s) && MainOk(s) && Enabled(s, a)
      ensures Accounted(Step(s, a)) && TableOk(Step(s, a)) && MainOk(Step(s, a))
    {
      StepAccounted(s, a);
      StepKeepsTable(s, a);
    }
    RunKeeps(Moves, s => Accounted(s) && TableOk(s) && MainOk(s), Init(), run);
  }

  lemma {:induction false} HandedFromIs(a: SocketAddr, handed: seq<(Id, Packet)>)
    ensures Collect(DataHandedFrom(a), handed) == Collect(DataFrom(a), Collect(PacketOf(), handed))
  {
    if handed == [] {
    } else {
      var rest, x := handed[..|handed| - 1], handed[|handed| - 1];
      HandedFromIs(a, rest);
      CollectSnoc(DataFrom(a), Collect(PacketOf(), rest), x.1);
    }
  }

  /** Of the payloads that arrived from an address, its forwarders are given a part, in order and
      unchanged; and what one of them passed on to the service, followed by what is still in its
      inbox, is what that one was given. */
  lemma PayloadsReachTheService(run: seq<Action>, a: SocketAddr, id: Id)
    requires IsRun(Moves, Init(), run)
    ensures var s := RunFrom(Moves, Init(), run);
            var arrived := Collect(DataFrom(a), Collect(Arriving(), run));
            && Sub(Collect(DataHandedFrom(a), s.handed), arrived)
            && (id in s.forwarders && s.forwarders[id].addr == a ==>
                  Sub(Collect(DataPassedBy(id), s.passed) + s.forwarders[id].inbox, arrived))
  {
    var s, arrived := RunFrom(Moves, Init(), run), Collect(Arriving(), run);
    RunInOrder(run);
    RunAccounted(run);
    HandedIsPart(run, s, a);
    if id in s.forwarders && s.forwarders[id].addr == a {
      SubLess(DataHandedTo(id), DataHandedFrom(a), s.handed);
      SubTrans(Collect(DataHandedTo(id), s.handed), Collect(DataHandedFrom(a), s.handed),
               Collect(DataFrom(a), arrived));
    }
  }

  lemma HandedIsPart(run: seq<Action>, s: State, a: SocketAddr)
    requires InOrder(run, s)
    ensures Sub(Collect(DataHandedFrom(a), s.handed), Collect(DataFrom(a), Collect(Arriving(), run)))
  {
    var arrived, left := Collect(Arriving(), run), InHand(s) + s.inbound;
    var before := arrived[..|arrived| - |left|];
    assert arrived == before + left;
    SubPrefix(Collect(PacketOf(), s.handed), before, left);
    SubCollect(DataFrom(a), Collect(PacketOf(), s.handed), arrived);
    HandedFromIs(a, s.handed);
  }

  lemma {:induction false} SubPrefix(a: seq<Packet>, b: seq<Packet>, c: seq<Packet>)
    requires Sub(a, b)
    ensures Sub(a, b + c)
    decreases |c|
  {
    if c == [] {
      assert b + c == b;
    } else {
      SubPrefix(a, b, c[..|c| - 1]);
      SubGrows(a, b + c[..|c| - 1], c[|c| - 1]);
      assert b + c[..|c| - 1] + [c[|c| - 1]] == b + c;
    }
  }

  // ---- and back ----

  predicate AnswersKept(run: seq<Action>, s: State) {
    Collect(AnswerOf(), s.replies + s.outbound) == Collect(Answering(), run)
  }

  lemma StepKeepsAnswers(run: seq<Action>, s: State, a: Action)
    requires AnswersKept(run, s) && Enabled(s, a)
    ensures AnswersKept(run + [a], Step(s, a))
  {
    var s' := Step(s, a);
    CollectSnoc(Answering(), run, a);
    match a {
      case FromService(id, data) =>
        var x := (id, Packet(s.forwarders[id].addr, data));
        CollectSnoc(AnswerOf(), s.replies + s.outbound, x);
        assert s'.replies + s'.outbound == s.replies + s.outbound + [x];
      case Reply =>
        assert s'.replies + s'.outbound == s.replies + s.outbound;
      case _ =>
        assert s'.replies == s.replies && s'.outbound == s.outbound;
    }
  }

  /** The answers of the services come back in order and unchanged: those that the server sent,
      followed by those under way, are the ones that the forwarders received, each under the
      address of the forwarder that received it. */
  lemma AnswersComeBack(run: seq<Action>)
    requires IsRun(Moves, Init(), run)
    ensures var s := RunFrom(Moves, Init(), run);
            && Collect(AnswerOf(), s.replies + s.outbound) == Collect(Answering(), run)
            && forall x :: x in s.replies + s.outbound ==>
                 && x.0 in s.forwarders && s.forwarders[x.0].addr == x.1.from
                 && FromService(x.0, x.1.data) in run
                 && exists p :: Datagram(p) in run && p.from == x.1.from
  {
    forall past, s, a | AnswersKept(past, s) && Enabled(s, a) ensures AnswersKept(past + [a], Step(s, a)) {
      StepKeepsAnswers(past, s, a);
    }
    RunKeepsTrace(Moves, AnswersKept, Init(), run);
    var s := RunFrom(Moves, Init(), run);
    RepliesAreOwned(run);
    SeenIsArrived(run);
    forall x | x in s.replies + s.outbound
      ensures x.0 in s.forwarders && s.forwarders[x.0].addr == x.1.from && FromService(x.0, x.1.data) in run
      ensures exists p :: Datagram(p) in run && p.from == x.1.from
    {
      assert FromItsForwarder(s, x) && x.1.from in s.seen;
      AnswerIsIn(run, s, x);
    }
  }

  lemma AnswerIsIn(run: seq<Action>, s: State, x: (Id, Packet))
    requires AnswersKept(run, s) && x in s.replies + s.outbound
    ensures FromService(x.0, x.1.data) in run
  {
    CollectMembers(AnswerOf(), s.replies + s.outbound);
    CollectMembers(Answering(), run);
    assert AnswerOf()(x) == Some((x.0, x.1.data));
    var a :| a in run && Answering()(a) == Some((x.0, x.1.data));
    assert a == FromService(x.0, x.1.data);
  }

  lemma RepliesAreOwned(run: seq<Action>)
    requires IsRun(Moves, Init(), run)
    ensures var s := RunFrom(Moves, Init(), run);
            forall x :: x in s.replies + s.outbound ==> FromItsForwarder(s, x) && x.1.from in s.seen
  {
    RunKeepsInv(Init(), run);
  }

  ghost predicate SeenArrived(run: seq<Action>, s: State) {
    forall a :: a in s.seen <==> exists p :: Datagram(p) in run && p.from == a
  }

  lemma StepSees(run: seq<Action>, s: State, a: Action)
    requires SeenArrived(run, s) && Enabled(s, a)
    ensures SeenArrived(run + [a], Step(s, a))
  {
    var s' := Step(s, a);
    assert forall x :: x in run + [a] <==> x in run || x == a;
    if a.Datagram? {
      forall b ensures b in s'.seen <==> exists p :: Datagram(p) in run + [a] && p.from == b {
        if b == a.p.from {
          assert Datagram(a.p) in run + [a];
        }
      }
    } else {
      assert s'.seen == s.seen;
      assert forall p :: Datagram(p) in run + [a] <==> Datagram(p) in run;
    }
  }

  lemma SeenIsArrived(run: seq<Action>)
    requires IsRun(Moves, Init(), run)
    ensures SeenArrived(run, RunFrom(Moves, Init(), run))
  {
    forall past, s, a | SeenArrived(past, s) && Enabled(s, a) ensures SeenArrived(past + [a], Step(s, a)) {
      StepSees(past, s, a);
    }
    RunKeepsTrace(Moves, SeenArrived, Init(), run);
  }

  // ---- without interleaving ----

  /** From here the loop can give a packet from this address to a forwarder. */
  ghost predicate CanTake(s: State, a: SocketAddr) {
    && s.main.Reading? && s.inbound == []
    && (a in s.portMap ==>
          && IsRunning(s, s.portMap[a]) && |s.forwarders[s.portMap[a]].inbox| < UDP_SEND_Q_SIZE)
  }

  /** What waits for the service of this address. */
  function InboxFor(s: State, a: SocketAddr): seq<Bytes> {
    if a in s.portMap && s.portMap[a] in s.forwarders then s.forwarders[s.portMap[a]].inbox else []
  }

  lemma OneMore(s0: State, run: seq<Action>, s: State, a: Action) returns (run': seq<Action>, s': State)
    requires Leads(Moves, s0, run, s) && Enabled(s, a)
    ensures Leads(Moves, s0, run', s') && run' == run + [a] && s' == Step(s, a)
  {
    Then(Moves, s0, run, s, a);
    run', s' := run + [a], Step(s, a);
  }

  lemma UntilFinding(s: State, p: Packet) returns (run: seq<Action>, s': State)
    requires TableOk(s) && CanTake(s, p.from) && |p.data| <= UDP_BUFFER_SIZE
    ensures Leads(Moves, s, run, s') && s'.main.Finding? && s'.main.p == p && s'.inbound == []
    ensures p.from in s'.portMap && IsRunning(s', s'.portMap[p.from])
    ensures var f := s'.forwarders[s'.portMap[p.from]];
            f.inbox == InboxFor(s, p.from) && |f.inbox| < UDP_SEND_Q_SIZE && f.addr == p.from
    ensures s'.handed == s.handed && s'.passed == s.passed
  {
    run, s' := OneMore(s, [], s, Datagram(p));
    run, s' := OneMore(s, run, s', ReadPacket);
    run, s' := OneMore(s, run, s', Check);
    if s'.main.Missing? {
      run, s' := OneMore(s, run, s', TakeWriteGuard);
      run, s' := OneMore(s, run, s', Connected);
    }
  }

  /** A datagram that nothing disturbs ends in the inbox of the forwarder of its address, which is
      made for it if there is none. */
  lemma DatagramAlone(s: State, p: Packet) returns (run: seq<Action>, s': State)
    requires TableOk(s) && CanTake(s, p.from) && |p.data| <= UDP_BUFFER_SIZE
    ensures Leads(Moves, s, run, s') && s'.main.Reading? && s'.inbound == []
    ensures p.from in s'.portMap && s'.portMap[p.from] in s'.forwarders
    ensures s'.forwarders[s'.portMap[p.from]].inbox == InboxFor(s, p.from) + [p.data]
    ensures s'.passed == s.passed
  {
    run, s' := UntilFinding(s, p);
    run, s' := OneMore(s, run, s', Find);
    run, s' := OneMore(s, run, s', Hand);
  }

  lemma PassesFirst(s: State, id: Id) returns (run: seq<Action>, s': State)
    requires IsRunning(s, id) && s.forwarders[id].inbox != []
    ensures Leads(Moves, s, run, s')
    ensures var inbox := s.forwarders[id].inbox;
            && IsRunning(s', id) && s'.forwarders[id].inbox == inbox[1..]
            && Collect(DataPassedBy(id), s'.passed) == Collect(DataPassedBy(id), s.passed) + [inbox[0]]
  {
    run, s' := OneMore(s, [], s, ToService(id));
    CollectSnoc(DataPassedBy(id), s.passed, (id, s.forwarders[id].inbox[0]));
  }

  /** A running forwarder can pass on all that it has. */
  lemma {:induction false} InboxDrains(s: State, id: Id) returns (run: seq<Action>, s': State)
    requires IsRunning(s, id)
    ensures Leads(Moves, s, run, s') && IsRunning(s', id) && s'.forwarders[id].inbox == []
    ensures Collect(DataPassedBy(id), s'.passed) == Collect(DataPassedBy(id), s.passed) + s.forwarders[id].inbox
    decreases |s.forwarders[id].inbox|
  {
    var inbox := s.forwarders[id].inbox;
    if inbox == [] {
      run, s' := [], s;
    } else {
      var run1, s1 := PassesFirst(s, id);
      var rest;
      rest, s' := InboxDrains(s1, id);
      LeadsConcat(Moves, s, run1, s1, rest, s');
      run := run1 + rest;
      assert inbox == [inbox[0]] + inbox[1..];
    }
  }

  /** And an answer that nothing disturbs goes back to the address of its forwarder. */
  lemma AnswerAlone(s: State, id: Id, data: Bytes) returns (run: seq<Action>, s': State)
    requires IsRunning(s, id) && s.outbound == [] && |data| <= UDP_BUFFER_SIZE
    ensures Leads(Moves, s, run, s')
    ensures s'.replies == s.replies + [(id, Packet(s.forwarders[id].addr, data))] && s'.outbound == []
  {
    run, s' := OneMore(s, [], s, FromService(id, data));
    run, s' := OneMore(s, run, s', Reply);
  }

  /** A forwarder that stops takes its entry along, so that the next datagram gets a new one. */
  lemma StoppedForwarderLeaves(s: State, id: Id) returns (run: seq<Action>, s': State)
    requires TableOk(s) && IsRunning(s, id) && s.main.Reading?
    ensures Leads(Moves, s, run, s') && s'.main.Reading? && s'.inbound == s.inbound
    ensures s'.portMap == s.portMap - {s.forwarders[id].addr}
  {
    run, s' := OneMore(s, [], s, ForwarderStops(id));
    run, s' := OneMore(s, run, s', CleanUp(id));
  }
}
