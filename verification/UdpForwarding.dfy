/** One UDP data channel: the server's forwarding loop (src/server/pool.rs), the client's reading
    loop with its forwarding table, and the forwarders (src/client/data_channel.rs), interleaved.
    Packets travel whole, which PacketsTravelWhole justifies. */
module UdpForwarding {
  import opened Constants
  import opened Wrappers
  import opened Bincode
  import opened Framing
  import opened Runs
  import opened UdpTraffic

  type Id = nat

  /** `Failed` is the exit through `?`, which skips the clean-up. */
  datatype Phase = Running | Cleaning | Gone | Failed

  datatype Forwarder = Forwarder(addr: SocketAddr, inbox: seq<Bytes>, phase: Phase)

  /** Where the client's reading loop stands. It holds the write guard while it connects, and a
      read guard while it looks up an address that it had found, or sends. */
  datatype Main =
    | Reading
    | Checking(p: Packet)
    | Missing(p: Packet)                // not in the table; read guard dropped, write guard wanted
    | Connecting(p: Packet)
    | Finding(p: Packet, held: bool)
    | Handing(p: Packet, id: Id)
    | Ended

  datatype State = State(
    portMap: map<SocketAddr, Id>,
    forwarders: map<Id, Forwarder>,
    next: Id,
    main: Main,
    inbound: seq<Packet>,               // from the server to the client
    outbound: seq<(Id, Packet)>,        // from the client to the server, with the forwarder that sent it
    seen: set<SocketAddr>,              // sources the server received a datagram from
    replies: seq<(Id, Packet)>,         // what the server sent back
    handed: seq<(Id, Packet)>,          // what the loop gave to which forwarder
    passed: seq<(Id, Bytes)>)           // what a forwarder sent to its service

  datatype Action =
    | Datagram(p: Packet)
    | Reply
    | ReadPacket
    | Check
    | TakeWriteGuard
    | Connected
    | ConnectFailed
    | Find
    | Hand
    | HandToNobody
    | ReadFailed
    | ToService(id: Id)
    | FromService(id: Id, data: Bytes)
    | ForwarderFails(id: Id)
    | ForwarderStops(id: Id)
    | InboxCloses(id: Id)
    | CleanUp(id: Id)

  function Init(): State {
    State(map[], map[], 0, Reading, [], [], {}, [], [], [])
  }

  predicate NoReader(s: State) {
    !s.main.Handing? && !(s.main.Finding? && s.main.held)
  }

  predicate NoWriter(s: State) {
    !s.main.Connecting?
  }

  predicate IsRunning(s: State, id: Id) {
    id in s.forwarders && s.forwarders[id].phase.Running?
  }

  predicate IsLive(s: State, id: Id) {
    id in s.forwarders && (s.forwarders[id].phase.Running? || s.forwarders[id].phase.Cleaning?)
  }

  ghost predicate Enabled(s: State, a: Action) {
    match a
    case Datagram(p) => |p.data| <= UDP_BUFFER_SIZE
    case Reply => s.outbound != []
    case ReadPacket => s.main.Reading? && s.inbound != []
    case Check => s.main.Checking?
    case TakeWriteGuard => s.main.Missing?
    case Connected => s.main.Connecting?
    case ConnectFailed => s.main.Connecting?
    case Find => s.main.Finding?
    case Hand => s.main.Handing? && IsRunning(s, s.main.id) && |s.forwarders[s.main.id].inbox| < UDP_SEND_Q_SIZE
    // the receiver is gone, or it is never read again
    case HandToNobody => s.main.Handing? && !IsRunning(s, s.main.id)
    case ReadFailed => s.main.Reading?
    case ToService(id) => IsRunning(s, id) && s.forwarders[id].inbox != []
    case FromService(id, data) => IsRunning(s, id) && |data| <= UDP_BUFFER_SIZE
    case ForwarderFails(id) => IsRunning(s, id)
    case ForwarderStops(id) => IsRunning(s, id)
    // recv on the inbox gives None only when the one sender, in the table, is gone
    case InboxCloses(id) => IsRunning(s, id) && s.forwarders[id].inbox == [] && id !in s.portMap.Values
    case CleanUp(id) => id in s.forwarders && s.forwarders[id].phase.Cleaning? && NoReader(s) && NoWriter(s)
  }

  function SetPhase(s: State, id: Id, phase: Phase): State
    requires id in s.forwarders
  {
    s.(forwarders := s.forwarders[id := s.forwarders[id].(phase := phase)])
  }

  ghost function Step(s: State, a: Action): State
    requires Enabled(s, a)
  {
    match a
    case Datagram(p) => s.(seen := s.seen + {p.from}, inbound := s.inbound + [p])
    case Reply => s.(outbound := s.outbound[1..], replies := s.replies + [s.outbound[0]])
    case ReadPacket => s.(main := Checking(s.inbound[0]), inbound := s.inbound[1..])
    case Check => s.(main := if s.main.p.from in s.portMap then Finding(s.main.p, true) else Missing(s.main.p))
    case TakeWriteGuard => s.(main := Connecting(s.main.p))
    case Connected =>
      s.(portMap := s.portMap[s.main.p.from := s.next],
         forwarders := s.forwarders[s.next := Forwarder(s.main.p.from, [], Running)],
         next := s.next + 1,
         main := Finding(s.main.p, false))
    case ConnectFailed => s.(main := Finding(s.main.p, false))
    case Find =>
      s.(main := if s.main.p.from in s.portMap then Handing(s.main.p, s.portMap[s.main.p.from]) else Reading)
    case Hand =>
      var f := s.forwarders[s.main.id];
      s.(forwarders := s.forwarders[s.main.id := f.(inbox := f.inbox + [s.main.p.data])],
         handed := s.handed + [(s.main.id, s.main.p)], main := Reading)
    case HandToNobody => s.(main := Reading)
    case ReadFailed => s.(main := Ended)
    case ToService(id) =>
      s.(forwarders := s.forwarders[id := s.forwarders[id].(inbox := s.forwarders[id].inbox[1..])],
         passed := s.passed + [(id, s.forwarders[id].inbox[0])])
    case FromService(id, data) => s.(outbound := s.outbound + [(id, Packet(s.forwarders[id].addr, data))])
    case ForwarderFails(id) => SetPhase(s, id, Failed)
    case ForwarderStops(id) => SetPhase(s, id, Cleaning)
    case InboxCloses(id) => SetPhase(s, id, Cleaning)
    case CleanUp(id) => SetPhase(s, id, Gone).(portMap := s.portMap - {s.forwarders[id].addr})
  }

  ghost function Moves(s: State, a: Action): Option<State> {
    if Enabled(s, a) then Some(Step(s, a)) else None
  }

  // ---- what every state keeps ----

  /** Every live forwarder owns the entry of its address; every entry belongs to a forwarder
      for its address that is live or failed. */
  ghost predicate TableOk(s: State) {
    && (forall id :: IsLive(s, id) ==> s.forwarders[id].addr in s.portMap && s.portMap[s.forwarders[id].addr] == id)
    && (forall a :: a in s.portMap ==>
          && s.portMap[a] in s.forwarders && s.forwarders[s.portMap[a]].addr == a
          && !s.forwarders[s.portMap[a]].phase.Gone?)
    && (forall id :: id in s.forwarders ==> id < s.next)
  }

  /** The loop inserts only what is missing, and what it found under a guard stays. */
  ghost predicate MainOk(s: State) {
    && (s.main.Missing? || s.main.Connecting? ==> s.main.p.from !in s.portMap)
    && (s.main.Finding? && s.main.held ==> s.main.p.from in s.portMap)
    && (s.main.Handing? ==> s.main.p.from in s.portMap && s.portMap[s.main.p.from] == s.main.id)
  }

  /** Every address that occurs anywhere is that of a source the server received from. */
  ghost predicate SourcesSeen(s: State) {
    && (forall p :: p in s.inbound ==> p.from in s.seen)
    && (!s.main.Reading? && !s.main.Ended? ==> s.main.p.from in s.seen)
    && (forall id :: id in s.forwarders ==> s.forwarders[id].addr in s.seen)
  }

  ghost predicate FromItsForwarder(s: State, x: (Id, Packet)) {
    x.0 in s.forwarders && s.forwarders[x.0].addr == x.1.from
  }

  ghost predicate OriginsOk(s: State) {
    && (forall x :: x in s.outbound ==> FromItsForwarder(s, x))
    && (forall x :: x in s.replies ==> FromItsForwarder(s, x))
  }

  function Packets(sent: seq<(Id, Packet)>): (r: seq<Packet>)
    ensures |r| == |sent| && forall i :: 0 <= i < |r| ==> r[i] == sent[i].1
  {
    seq(|sent|, i requires 0 <= i < |sent| => sent[i].1)
  }

  /** What is on the stream, in either direction, fits the length field. */
  ghost predicate SizesOk(s: State) {
    && (forall p :: p in s.inbound ==> Short(p))
    && (forall x :: x in s.outbound ==> Short(x.1))
  }

  ghost predicate Inv(s: State) {
    TableOk(s) && MainOk(s) && SourcesSeen(s) && OriginsOk(s) && SizesOk(s)
  }

  lemma ConnectedKeepsTable(s: State)
    requires TableOk(s) && MainOk(s) && Enabled(s, Connected)
    ensures TableOk(Step(s, Connected)) && MainOk(Step(s, Connected))
  {
  }

  lemma CleanUpKeepsTable(s: State, id: Id)
    requires TableOk(s) && MainOk(s) && Enabled(s, CleanUp(id))
    ensures TableOk(Step(s, CleanUp(id))) && MainOk(Step(s, CleanUp(id)))
  {
  }

  /** A forwarder keeps its address, and lives on or ends. */
  ghost predicate ForwardersKept(s: State, s': State) {
    && s'.forwarders.Keys == s.forwarders.Keys
    && (forall id :: id in s.forwarders ==>
          && s'.forwarders[id].addr == s.forwarders[id].addr
          && (IsLive(s', id) ==> IsLive(s, id))
          && (s'.forwarders[id].phase.Gone? ==> s.forwarders[id].phase.Gone?))
  }

  lemma OthersKeepTable(s: State, s': State)
    requires TableOk(s) && s'.portMap == s.portMap && s'.next == s.next && ForwardersKept(s, s')
    ensures TableOk(s')
  {
  }

  lemma OtherStep(s: State, a: Action)
    requires Enabled(s, a) && !a.Connected? && !a.CleanUp?
    ensures var s' := Step(s, a); s'.portMap == s.portMap && s'.next == s.next && ForwardersKept(s, s')
  {
  }

  lemma OtherKeepsMain(s: State, a: Action)
    requires MainOk(s) && Enabled(s, a) && !a.Connected? && !a.CleanUp?
    ensures MainOk(Step(s, a))
  {
  }

  lemma StepKeepsTable(s: State, a: Action)
    requires TableOk(s) && MainOk(s) && Enabled(s, a)
    ensures TableOk(Step(s, a)) && MainOk(Step(s, a))
  {
    match a {
      case Connected => ConnectedKeepsTable(s);
      case CleanUp(id) => CleanUpKeepsTable(s, id);
      case _ =>
        OtherStep(s, a);
        OthersKeepTable(s, Step(s, a));
        OtherKeepsMain(s, a);
    }
  }

  lemma StepKeepsSources(s: State, a: Action)
    requires TableOk(s) && SourcesSeen(s) && Enabled(s, a)
    ensures SourcesSeen(Step(s, a))
  {
  }

  lemma StepKeepsOrigins(s: State, a: Action)
    requires TableOk(s) && OriginsOk(s) && Enabled(s, a)
    ensures OriginsOk(Step(s, a))
  {
    forall x | x in s.outbound || x in s.replies ensures FromItsForwarder(Step(s, a), x) {
      assert FromItsForwarder(s, x);
    }
  }

  lemma StepKeepsSizes(s: State, a: Action)
    requires SizesOk(s) && Enabled(s, a)
    ensures SizesOk(Step(s, a))
  {
    var s' := Step(s, a);
    match a {
      case Datagram(_) =>
      case FromService(_, _) =>
      case ReadPacket =>
      case Reply =>
      case _ => assert s'.inbound == s.inbound && s'.outbound == s.outbound;
    }
  }

  lemma StepKeepsInv(s: State, a: Action)
    requires Inv(s) && Enabled(s, a)
    ensures Inv(Step(s, a))
  {
    StepKeepsSizes(s, a);
    StepKeepsTable(s, a);
    StepKeepsSources(s, a);
    StepKeepsOrigins(s, a);
  }

  lemma RunKeepsInv(s: State, run: seq<Action>)
    requires Inv(s) && IsRun(Moves, s, run)
    ensures Inv(RunFrom(Moves, s, run))
  {
    forall s, a | Inv(s) && Enabled(s, a) ensures Inv(Step(s, a)) {
      StepKeepsInv(s, a);
    }
    RunKeeps(Moves, Inv, s, run);
  }

  // ---- every run ----

  lemma OneForwarderEach(s: State)
    requires TableOk(s)
    ensures forall i, j :: IsLive(s, i) && IsLive(s, j) && s.forwarders[i].addr == s.forwarders[j].addr ==> i == j
  {
  }

  lemma InboxStaysOpen(s: State)
    requires TableOk(s)
    ensures forall id :: !Enabled(s, InboxCloses(id))
  {
    forall id | IsRunning(s, id) ensures id in s.portMap.Values {
      assert s.portMap[s.forwarders[id].addr] == id;
    }
  }

  /** Each running forwarder owns the entry of its address, so there is at most one for an
      address; an insertion never overwrites an entry; a clean-up removes the forwarder's own
      entry; and the inbox of a running forwarder never closes. */
  lemma TableSafety(run: seq<Action>)
    requires IsRun(Moves, Init(), run)
    ensures var s := RunFrom(Moves, Init(), run);
            && (forall i, j :: IsLive(s, i) && IsLive(s, j) && s.forwarders[i].addr == s.forwarders[j].addr ==> i == j)
            && (s.main.Connecting? ==> s.main.p.from !in s.portMap)
            && (forall id :: Enabled(s, CleanUp(id)) ==>
                  s.forwarders[id].addr in s.portMap && s.portMap[s.forwarders[id].addr] == id)
            && (forall id :: !Enabled(s, InboxCloses(id)))
  {
    RunKeepsInv(Init(), run);
    var s := RunFrom(Moves, Init(), run);
    OneForwarderEach(s);
    InboxStaysOpen(s);
  }

  /** What is under way is always exactly what the peer will read from the bytes of the stream,
      in both directions: every payload fits the u16 length. */
  lemma PacketsTravelWhole(run: seq<Action>)
    requires IsRun(Moves, Init(), run)
    ensures Shrinks(ReadFrame)
    ensures var s := RunFrom(Moves, Init(), run);
            && ReadUntilError(ReadFrame, StreamOf(Frame, s.inbound)) == (s.inbound, [])
            && ReadUntilError(ReadFrame, StreamOf(Frame, Packets(s.outbound))) == (Packets(s.outbound), [])
  {
    RunKeepsInv(Init(), run);
    var s := RunFrom(Moves, Init(), run);
    forall p | p in Packets(s.outbound) ensures Short(p) {
      var i :| 0 <= i < |s.outbound| && p == Packets(s.outbound)[i];
      assert s.outbound[i] in s.outbound;
    }
    UdpStreamRoundTrip(s.inbound);
    UdpStreamRoundTrip(Packets(s.outbound));
  }

  /** A datagram goes back to an address only if the server had received one from it, and then
      from the forwarder that was created for it. */
  lemma RepliesGoBack(run: seq<Action>)
    requires IsRun(Moves, Init(), run)
    ensures var s := RunFrom(Moves, Init(), run);
            forall x :: x in s.replies ==>
              x.1.from in s.seen && x.0 in s.forwarders && s.forwarders[x.0].addr == x.1.from
  {
    RunKeepsInv(Init(), run);
    var s := RunFrom(Moves, Init(), run);
    assert forall x :: x in s.replies ==> FromItsForwarder(s, x);
  }

  // ---- how forwarders end ----

  predicate OfForwarder(a: Action) {
    a.ToService? || a.FromService? || a.ForwarderFails? || a.ForwarderStops? || a.InboxCloses? || a.CleanUp?
  }

  /** How far a forwarder is, from the actions of the run. */
  predicate PhaseTold(run: seq<Action>, id: Id, phase: Phase) {
    var over := ForwarderStops(id) in run || InboxCloses(id) in run;
    match phase
    case Running => !over && ForwarderFails(id) !in run && CleanUp(id) !in run
    case Cleaning => over && ForwarderFails(id) !in run && CleanUp(id) !in run
    case Gone => over && ForwarderFails(id) !in run && CleanUp(id) in run
    case Failed => !over && ForwarderFails(id) in run && CleanUp(id) !in run
  }

  ghost predicate PhasesTold(run: seq<Action>, s: State) {
    && (s.main.Ended? <==> ReadFailed in run)
    && (forall id :: id in s.forwarders ==> id < s.next && PhaseTold(run, id, s.forwarders[id].phase))
    && (forall a :: a in run && OfForwarder(a) ==> a.id in s.forwarders)
  }

  lemma OtherPhaseTold(run: seq<Action>, id: Id, phase: Phase, a: Action)
    requires PhaseTold(run, id, phase) && (OfForwarder(a) ==> a.id != id || a.ToService? || a.FromService?)
    ensures PhaseTold(run + [a], id, phase)
  {
    assert forall x :: x in run + [a] <==> x in run || x == a;
  }

  lemma ForwarderPhaseTold(run: seq<Action>, s: State, a: Action)
    requires Enabled(s, a) && OfForwarder(a) && a.id in s.forwarders && PhaseTold(run, a.id, s.forwarders[a.id].phase)
    ensures a.id in Step(s, a).forwarders && PhaseTold(run + [a], a.id, Step(s, a).forwarders[a.id].phase)
  {
    assert forall x :: x in run + [a] <==> x in run || x == a;
  }

  lemma OtherPhasesSame(s: State, a: Action)
    requires Enabled(s, a) && !a.Connected?
    ensures var s' := Step(s, a);
            && s'.forwarders.Keys == s.forwarders.Keys && s'.next == s.next
            && (s'.main.Ended? <==> s.main.Ended? || a.ReadFailed?)
            && forall id :: id in s.forwarders && !(OfForwarder(a) && a.id == id) ==>
                 s'.forwarders[id].phase == s.forwarders[id].phase
  {
  }

  lemma ConnectedPhasesTold(run: seq<Action>, s: State)
    requires PhasesTold(run, s) && Enabled(s, Connected)
    ensures PhasesTold(run + [Connected], Step(s, Connected))
  {
    assert forall x :: x in run + [Connected] <==> x in run || x == Connected;
    assert s.next !in s.forwarders;
    forall id | id in s.forwarders ensures PhaseTold(run + [Connected], id, s.forwarders[id].phase) {
      OtherPhaseTold(run, id, s.forwarders[id].phase, Connected);
    }
  }

  lemma StepPhasesTold(run: seq<Action>, s: State, s': State, a: Action)
    requires PhasesTold(run, s) && Enabled(s, a) && !a.Connected? && s' == Step(s, a)
    ensures PhasesTold(run + [a], s')
  {
    OtherPhasesSame(s, a);
    forall id | id in s.forwarders ensures PhaseTold(run + [a], id, s'.forwarders[id].phase) {
      if OfForwarder(a) && a.id == id {
        ForwarderPhaseTold(run, s, a);
      } else {
        OtherPhaseTold(run, id, s.forwarders[id].phase, a);
      }
    }
    KeepsForwarders(run, s, s', a);
  }

  lemma KeepsForwarders(run: seq<Action>, s: State, s': State, a: Action)
    requires forall x :: x in run && OfForwarder(x) ==> x.id in s.forwarders
    requires (s.main.Ended? <==> ReadFailed in run) && (s'.main.Ended? <==> s.main.Ended? || a.ReadFailed?)
    requires s'.forwarders.Keys == s.forwarders.Keys && (OfForwarder(a) ==> a.id in s.forwarders)
    ensures forall x :: x in run + [a] && OfForwarder(x) ==> x.id in s'.forwarders
    ensures s'.main.Ended? <==> ReadFailed in run + [a]
  {
    assert forall x :: x in run + [a] <==> x in run || x == a;
  }

  lemma RunPhasesTold(run: seq<Action>)
    requires IsRun(Moves, Init(), run)
    ensures PhasesTold(run, RunFrom(Moves, Init(), run))
  {
    forall past, s, a | PhasesTold(past, s) && Enabled(s, a) ensures PhasesTold(past + [a], Step(s, a)) {
      if a.Connected? {
        ConnectedPhasesTold(past, s);
      } else {
        StepPhasesTold(past, s, Step(s, a), a);
      }
    }
    RunKeepsTrace(Moves, PhasesTold, Init(), run);
  }

  /** The reading loop ends only if reading fails. An entry has no live forwarder behind it exactly
      when its forwarder left through `?` at some point of the run; a forwarder that was cleaned
      up has left no entry. */
  lemma StaleEntryIffFailed(run: seq<Action>, a: SocketAddr)
    requires IsRun(Moves, Init(), run)
    ensures var s := RunFrom(Moves, Init(), run);
            && (s.main.Ended? <==> ReadFailed in run)
            && (a in s.portMap ==>
                  && s.portMap[a] in s.forwarders && CleanUp(s.portMap[a]) !in run
                  && (!IsLive(s, s.portMap[a]) <==> ForwarderFails(s.portMap[a]) in run))
  {
    RunKeepsInv(Init(), run);
    RunPhasesTold(run);
  }

  ghost predicate Stale(s: State, a: SocketAddr, id: Id) {
    a in s.portMap && s.portMap[a] == id && id in s.forwarders && s.forwarders[id].phase.Failed?
  }

  /** Every address can get such an entry: one datagram and one failure of its forwarder do. */
  lemma StaleIsReached(a: SocketAddr) returns (run: seq<Action>, s: State)
    ensures Leads(Moves, Init(), run, s) && Stale(s, a, 0)
  {
    var p, s0 := Packet(a, []), Init();
    Then(Moves, s0, [], s0, Datagram(p));
    var s1 := Step(s0, Datagram(p));
    run := [] + [Datagram(p)];
    Then(Moves, s0, run, s1, ReadPacket);
    var s2 := Step(s1, ReadPacket);
    run := run + [ReadPacket];
    Then(Moves, s0, run, s2, Check);
    var s3 := Step(s2, Check);
    run := run + [Check];
    Then(Moves, s0, run, s3, TakeWriteGuard);
    var s4 := Step(s3, TakeWriteGuard);
    run := run + [TakeWriteGuard];
    Then(Moves, s0, run, s4, Connected);
    var s5 := Step(s4, Connected);
    run := run + [Connected];
    Then(Moves, s0, run, s5, ForwarderFails(0));
    s := Step(s5, ForwarderFails(0));
    run := run + [ForwarderFails(0)];
  }

  lemma StaleStep(s: State, act: Action, a: SocketAddr, id: Id)
    requires Inv(s) && Enabled(s, act) && Stale(s, a, id)
    ensures Stale(Step(s, act), a, id)
    ensures forall i :: IsLive(s, i) ==> s.forwarders[i].addr != a
  {
  }

  /** Such an entry is never repaired: whatever happens next, no forwarder serves that address
      again, and what arrives for it is dropped. */
  lemma StaleForever(s: State, run: seq<Action>, a: SocketAddr, id: Id)
    requires Inv(s) && IsRun(Moves, s, run) && Stale(s, a, id)
    ensures var s' := RunFrom(Moves, s, run);
            && Stale(s', a, id)
            && (forall i :: IsLive(s', i) ==> s'.forwarders[i].addr != a)
            && (s'.main.Handing? && s'.main.p.from == a ==> !Enabled(s', Hand))
  {
    forall s, act | Inv(s) && Stale(s, a, id) && Enabled(s, act)
      ensures Inv(Step(s, act)) && Stale(Step(s, act), a, id)
    {
      StaleStep(s, act, a, id);
      StepKeepsInv(s, act);
    }
    RunKeeps(Moves, s => Inv(s) && Stale(s, a, id), s, run);
  }
}
