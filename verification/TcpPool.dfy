/** The connection pool of one TCP service while its control channel lives: the listener
    (src/server/connection.rs), the request queue and the control channel
    (src/server/control_channel.rs), the client's tasks, the queue of data channels and the
    pairing loop (src/server/pool.rs). */
module TcpPool {
  import opened Constants
  import opened Wrappers
  import opened Runs
  import opened Pairing

  type Visitor = nat
  type Chan = nat

  // ---- the pairing loop ----

  datatype PoolEnd = VisitorsDone | ChannelsClosed | ControlChannelGone

  /** `run_tcp_connection_pool`. The queues are given as what they will yield before they close,
      each channel with the outcome of the write; `sendable` requests get through before the
      control channel is gone. */
  method RunTcpConnectionPool(visitors: seq<Visitor>, channels: seq<Served<Chan>>, sendable: nat)
      returns (pairs: seq<(Visitor, Chan)>, used: nat, requests: nat, end: PoolEnd)
    ensures used <= |channels|
    ensures |Live(channels[..used])| <= |visitors| && pairs == PairUp(visitors, channels[..used])
    ensures requests == Broken(channels[..used]) - (if end == ControlChannelGone then 1 else 0) <= sendable
    ensures end == VisitorsDone <==> |pairs| == |visitors|
    ensures end == VisitorsDone && used > 0 ==> channels[used - 1].alive
    ensures end == ChannelsClosed ==> used == |channels|
    ensures end == ControlChannelGone ==> used > 0 && !channels[used - 1].alive && requests == sendable
  {
    pairs, used, requests, end := [], 0, 0, VisitorsDone;
    for v := 0 to |visitors|
      invariant used <= |channels| && requests <= sendable
      invariant |Live(channels[..used])| == v && pairs == PairUp(visitors, channels[..used])
      invariant requests == Broken(channels[..used])
      invariant used > 0 ==> channels[used - 1].alive
    {
      var waiting := true;
      while waiting
        invariant used <= |channels| && requests <= sendable
        invariant |Live(channels[..used])| == v + (if waiting then 0 else 1)
        invariant pairs == PairUp(visitors, channels[..used])
        invariant requests == Broken(channels[..used])
        invariant !waiting ==> used > 0 && channels[used - 1].alive
        decreases |channels| - used, waiting
      {
        if used == |channels| {
          end := ChannelsClosed;
          return;
        }
        var ch := channels[used];
        used := used + 1;
        assert channels[..used][..used - 1] == channels[..used - 1];
        if ch.alive {
          pairs := pairs + [(visitors[v], ch.chan)];
          waiting := false;
        } else if requests < sendable {
          requests := requests + 1;
        } else {
          end := ControlChannelGone;
          return;
        }
      }
    }
  }

  // ---- the machine ----

  datatype State = State(
    accepted: seq<Visitor>,       // every visitor for which a request was sent
    pending: Option<Visitor>,     // the one that the listener is putting into its queue
    visitors: seq<Visitor>,       // the listener's queue
    hand: Option<Visitor>,        // the one that the pairing loop serves
    issued: nat,                  // requests ever sent
    requests: nat,                // of these, still queued
    commands: nat,                // CreateDataChannel commands on the wire
    dialing: set<Chan>,           // client tasks that connect
    arriving: set<Chan>,          // hello sent, not yet in the queue of the pool
    next: Chan,                   // the next client task
    enqueued: seq<Chan>,          // every channel that reached the queue
    channels: seq<Chan>,          // the queue of data channels
    taken: Option<Chan>,          // the one that the command is being written to
    served: seq<Served<Chan>>,          // every channel that was taken, with the outcome
    paired: seq<(Visitor, Chan)>,
    lost: nat)                    // channels that never reached the queue

  datatype Action =
    | AcceptVisitor(v: Visitor)
    | QueueVisitor
    | WriteCommand
    | ReadCommand
    | SendHello(c: Chan)
    | Enqueue(c: Chan)
    | Lose(c: Chan)
    | TakeVisitor
    | TakeChannel
    | CommandWritten
    | ChannelBroken

  function Init(): State {
    State([], None, [], None, TCP_POOL_SIZE, TCP_POOL_SIZE, 0, {}, {}, 0, [], [], None, [], [], 0)
  }

  predicate Enabled(s: State, a: Action) {
    match a
    case AcceptVisitor(v) => s.pending.None? && v !in s.accepted
    case QueueVisitor => s.pending.Some? && |s.visitors| < CHAN_SIZE
    case WriteCommand => s.requests > 0
    case ReadCommand => s.commands > 0
    case SendHello(c) => c in s.dialing
    case Enqueue(c) => c in s.arriving && |s.channels| < DATA_QUEUE
    case Lose(c) => c in s.dialing || c in s.arriving
    case TakeVisitor => s.hand.None? && s.visitors != []
    case TakeChannel => s.hand.Some? && s.taken.None? && s.channels != []
    case CommandWritten => s.hand.Some? && s.taken.Some?
    case ChannelBroken => s.hand.Some? && s.taken.Some?
  }

  function Step(s: State, a: Action): State
    requires Enabled(s, a)
  {
    match a
    case AcceptVisitor(v) =>
      s.(issued := s.issued + 1, requests := s.requests + 1, accepted := s.accepted + [v], pending := Some(v))
    case QueueVisitor => s.(pending := None, visitors := s.visitors + [s.pending.value])
    case WriteCommand => s.(requests := s.requests - 1, commands := s.commands + 1)
    case ReadCommand => s.(commands := s.commands - 1, dialing := s.dialing + {s.next}, next := s.next + 1)
    case SendHello(c) => s.(dialing := s.dialing - {c}, arriving := s.arriving + {c})
    case Enqueue(c) => s.(arriving := s.arriving - {c}, channels := s.channels + [c], enqueued := s.enqueued + [c])
    case Lose(c) => s.(dialing := s.dialing - {c}, arriving := s.arriving - {c}, lost := s.lost + 1)
    case TakeVisitor => s.(hand := Some(s.visitors[0]), visitors := s.visitors[1..])
    case TakeChannel => s.(taken := Some(s.channels[0]), channels := s.channels[1..])
    case CommandWritten =>
      s.(paired := s.paired + [(s.hand.value, s.taken.value)], served := s.served + [Served(s.taken.value, true)],
         hand := None, taken := None)
    case ChannelBroken =>
      s.(served := s.served + [Served(s.taken.value, false)], taken := None,
         issued := s.issued + 1, requests := s.requests + 1)
  }

  function Moves(s: State, a: Action): Option<State> {
    if Enabled(s, a) then Some(Step(s, a)) else None
  }

  // ---- what every state keeps ----

  /** Visitors accepted and not yet paired. */
  function Unpaired(s: State): nat {
    |One(s.hand)| + |s.visitors| + |One(s.pending)|
  }

  /** Channels that are ready, or asked for and not lost. */
  function Supply(s: State): nat {
    s.requests + s.commands + |s.dialing| + |s.arriving| + |s.channels| + |One(s.taken)|
  }

  function Chans(served: seq<Served<Chan>>): seq<Chan> {
    seq(|served|, i requires 0 <= i < |served| => served[i].chan)
  }

  predicate NoDup<T(==)>(s: seq<T>) {
    forall i, j :: 0 <= i < j < |s| ==> s[i] != s[j]
  }

  /** The conservation law. */
  predicate Conserved(s: State) {
    && Supply(s) + s.lost == TCP_POOL_SIZE + Unpaired(s)
    && s.issued == TCP_POOL_SIZE + |s.accepted| + Broken(s.served)
  }

  /** First come, first served, on both sides. */
  predicate Fifo(s: State) {
    && |Live(s.served)| <= |s.accepted|
    && s.paired == PairUp(s.accepted, s.served)
    && s.accepted[|s.paired|..] == One(s.hand) + s.visitors + One(s.pending)
    && s.enqueued == Chans(s.served) + One(s.taken) + s.channels
  }

  /** Nobody is there twice. */
  ghost predicate Distinct(s: State) {
    && NoDup(s.accepted) && NoDup(s.enqueued)
    && s.dialing !! s.arriving
    && (forall c :: c in s.dialing || c in s.arriving ==> c < s.next && c !in s.enqueued)
    && (forall c :: c in s.enqueued ==> c < s.next)
  }

  ghost predicate Inv(s: State) {
    && Conserved(s) && Fifo(s) && Distinct(s)
    && (s.taken.Some? ==> s.hand.Some?)
  }

  lemma ServingConserves(s: State, a: Action)
    requires Inv(s) && Enabled(s, a) && (a.CommandWritten? || a.ChannelBroken?)
    ensures Conserved(Step(s, a))
  {
    LiveGrows(s.served, Served(s.taken.value, a.CommandWritten?));
  }

  lemma VisitorMoveConserves(s: State, a: Action)
    requires Inv(s) && Enabled(s, a) && (a.AcceptVisitor? || a.QueueVisitor? || a.TakeVisitor?)
    ensures Conserved(Step(s, a))
  {
  }

  lemma ChannelMoveConserves(s: State, a: Action)
    requires Inv(s) && Enabled(s, a)
    requires a.WriteCommand? || a.ReadCommand? || a.SendHello? || a.Enqueue? || a.Lose? || a.TakeChannel?
    ensures Conserved(Step(s, a))
  {
  }

  lemma StepConserves(s: State, a: Action)
    requires Inv(s) && Enabled(s, a)
    ensures Conserved(Step(s, a))
  {
    if a.CommandWritten? || a.ChannelBroken? {
      ServingConserves(s, a);
    } else if a.AcceptVisitor? || a.QueueVisitor? || a.TakeVisitor? {
      VisitorMoveConserves(s, a);
    } else {
      ChannelMoveConserves(s, a);
    }
  }

  lemma AcceptKeepsFifo(s: State, v: Visitor)
    requires Fifo(s) && Enabled(s, AcceptVisitor(v))
    ensures Fifo(Step(s, AcceptVisitor(v)))
  {
    var s' := Step(s, AcceptVisitor(v));
    assert s'.accepted[|s.paired|..] == s.accepted[|s.paired|..] + [v];
    assert PairUp(s'.accepted, s.served) == PairUp(s.accepted, s.served);
  }

  lemma PairingKeepsFifo(s: State)
    requires Fifo(s) && Enabled(s, CommandWritten)
    ensures Fifo(Step(s, CommandWritten))
  {
    var s' := Step(s, CommandWritten);
    LiveGrows(s.served, Served(s.taken.value, true));
    assert s.accepted[|s.paired|] == (One(s.hand) + s.visitors + One(s.pending))[0];
    assert s.accepted[|s'.paired|..] == s.accepted[|s.paired|..][1..];
    assert s'.accepted[|s'.paired|..] == One(s'.hand) + s'.visitors + One(s'.pending);
  }

  lemma BrokenKeepsFifo(s: State)
    requires Fifo(s) && Enabled(s, ChannelBroken)
    ensures Fifo(Step(s, ChannelBroken))
  {
    LiveGrows(s.served, Served(s.taken.value, false));
  }

  predicate SameResults(s: State, s': State) {
    s'.accepted == s.accepted && s'.served == s.served && s'.paired == s.paired
  }

  lemma MovingKeepsResults(s: State, a: Action)
    requires Enabled(s, a) && !a.AcceptVisitor? && !a.CommandWritten? && !a.ChannelBroken?
    ensures SameResults(s, Step(s, a))
  {
  }

  lemma MovingKeepsOrder(s: State, a: Action)
    requires Enabled(s, a) && !a.AcceptVisitor? && !a.CommandWritten? && !a.ChannelBroken?
    requires s.enqueued == Chans(s.served) + One(s.taken) + s.channels
    ensures var s' := Step(s, a);
            && One(s'.hand) + s'.visitors + One(s'.pending) == One(s.hand) + s.visitors + One(s.pending)
            && s'.enqueued == Chans(s.served) + One(s'.taken) + s'.channels
  {
  }

  lemma MovingKeepsFifo(s: State, a: Action)
    requires Fifo(s) && Enabled(s, a) && !a.AcceptVisitor? && !a.CommandWritten? && !a.ChannelBroken?
    ensures Fifo(Step(s, a))
  {
    MovingKeepsResults(s, a);
    MovingKeepsOrder(s, a);
  }

  lemma StepKeepsFifo(s: State, a: Action)
    requires Fifo(s) && Enabled(s, a)
    ensures Fifo(Step(s, a))
  {
    match a {
      case AcceptVisitor(v) => AcceptKeepsFifo(s, v);
      case CommandWritten => PairingKeepsFifo(s);
      case ChannelBroken => BrokenKeepsFifo(s);
      case _ => MovingKeepsFifo(s, a);
    }
  }

  lemma StepKeepsDistinct(s: State, a: Action)
    requires Distinct(s) && Enabled(s, a)
    ensures Distinct(Step(s, a))
  {
  }

  lemma StepKeepsInv(s: State, a: Action)
    requires Inv(s) && Enabled(s, a)
    ensures Inv(Step(s, a))
  {
    StepConserves(s, a);
    StepKeepsFifo(s, a);
    StepKeepsDistinct(s, a);
  }

  lemma RunKeepsInv(s: State, run: seq<Action>)
    requires Inv(s) && IsRun(Moves, s, run)
    ensures Inv(RunFrom(Moves, s, run))
  {
    forall s, a | Inv(s) && Enabled(s, a) ensures Inv(Step(s, a)) {
      StepKeepsInv(s, a);
    }
    RunKeeps(Moves, Inv, s, run);
  }

  // ---- the state, from the actions alone ----

  function Accepting(): Action -> Option<Visitor> {
    (a: Action) => if a.AcceptVisitor? then Some(a.v) else None
  }

  function Enqueuing(): Action -> Option<Chan> {
    (a: Action) => if a.Enqueue? then Some(a.c) else None
  }

  function Outcome(): Action -> Option<bool> {
    (a: Action) => if a.CommandWritten? then Some(true) else if a.ChannelBroken? then Some(false) else None
  }

  function Count(kind: Action -> bool, run: seq<Action>): nat {
    if run == [] then 0 else Count(kind, run[..|run| - 1]) + if kind(run[|run| - 1]) then 1 else 0
  }

  lemma CountSnoc(kind: Action -> bool, run: seq<Action>, a: Action)
    ensures Count(kind, run + [a]) == Count(kind, run) + if kind(a) then 1 else 0
  {
    assert (run + [a])[..|run|] == run;
  }

  function IsRequest(): Action -> bool {
    (a: Action) => a.AcceptVisitor? || a.ChannelBroken?
  }

  function IsWrite(): Action -> bool {
    (a: Action) => a.WriteCommand?
  }

  function IsRead(): Action -> bool {
    (a: Action) => a.ReadCommand?
  }

  function IsLoss(): Action -> bool {
    (a: Action) => a.Lose?
  }

  predicate Counted(run: seq<Action>, s: State) {
    && s.issued == TCP_POOL_SIZE + Count(IsRequest(), run)
    && s.requests == s.issued - Count(IsWrite(), run)
    && s.commands == Count(IsWrite(), run) - Count(IsRead(), run)
    && s.next == Count(IsRead(), run)
    && s.lost == Count(IsLoss(), run)
  }

  lemma StepCounts(run: seq<Action>, s: State, a: Action)
    requires Counted(run, s) && Enabled(s, a)
    ensures Counted(run + [a], Step(s, a))
  {
    CountSnoc(IsRequest(), run, a);
    CountSnoc(IsWrite(), run, a);
    CountSnoc(IsRead(), run, a);
    CountSnoc(IsLoss(), run, a);
  }

  function Outcomes(served: seq<Served<Chan>>): seq<bool> {
    seq(|served|, i requires 0 <= i < |served| => served[i].alive)
  }

  predicate Listed(run: seq<Action>, s: State) {
    && s.accepted == Collect(Accepting(), run)
    && s.enqueued == Collect(Enqueuing(), run)
    && Outcomes(s.served) == Collect(Outcome(), run)
  }

  lemma StepLists(run: seq<Action>, s: State, a: Action)
    requires Listed(run, s) && Enabled(s, a)
    ensures Listed(run + [a], Step(s, a))
  {
    CollectSnoc(Accepting(), run, a);
    CollectSnoc(Enqueuing(), run, a);
    CollectSnoc(Outcome(), run, a);
    if a.CommandWritten? || a.ChannelBroken? {
      var last := Served(s.taken.value, a.CommandWritten?);
      assert Outcomes(s.served + [last]) == Outcomes(s.served) + [last.alive];
    }
  }

  lemma RunCounts(run: seq<Action>)
    requires IsRun(Moves, Init(), run)
    ensures Counted(run, RunFrom(Moves, Init(), run))
  {
    forall past, s, a | Counted(past, s) && Enabled(s, a) ensures Counted(past + [a], Step(s, a)) {
      StepCounts(past, s, a);
    }
    RunKeepsTrace(Moves, Counted, Init(), run);
  }

  lemma RunLists(run: seq<Action>)
    requires IsRun(Moves, Init(), run)
    ensures Listed(run, RunFrom(Moves, Init(), run))
  {
    forall past, s, a | Listed(past, s) && Enabled(s, a) ensures Listed(past + [a], Step(s, a)) {
      StepLists(past, s, a);
    }
    RunKeepsTrace(Moves, Listed, Init(), run);
  }

  // ---- every run ----

  lemma InitInv()
    ensures Inv(Init())
  {
  }

  /** Requests, commands, client tasks and data channels, together with the lost ones, number the
      pool size and the waiting visitors. */
  predicate Law(run: seq<Action>, s: State) {
    && Counted(run, s)
    && Supply(s) + Count(IsLoss(), run) == TCP_POOL_SIZE + Unpaired(s)
    && (Supply(s) == 0 <==> Count(IsLoss(), run) == TCP_POOL_SIZE + Unpaired(s))
    && (Count(IsLoss(), run) <= TCP_POOL_SIZE ==> Supply(s) >= Unpaired(s))
    && s.issued == TCP_POOL_SIZE + |s.accepted| + Broken(s.served)
  }

  lemma LawMeans(run: seq<Action>, s: State)
    requires Conserved(s) && Counted(run, s)
    ensures Law(run, s)
  {
  }

  lemma ReachedLaw(run: seq<Action>)
    requires IsRun(Moves, Init(), run)
    ensures Conserved(RunFrom(Moves, Init(), run))
  {
    InitInv();
    RunKeepsInv(Init(), run);
  }

  /** Conservation, at every step of every run: requests, commands, client tasks and data
      channels, together with the lost ones, number the pool size and the waiting visitors,
      where what was asked for, written, read and lost is counted from the actions of the run.
      So a waiting visitor is without any channel, ready or on its way, exactly when the
      losses have used up the whole pool and one channel for each visitor that waits; with at
      most eight losses every waiting visitor has one of its own. */
  lemma Conservation(run: seq<Action>)
    requires IsRun(Moves, Init(), run)
    ensures Law(run, RunFrom(Moves, Init(), run))
  {
    ReachedLaw(run);
    RunCounts(run);
    LawMeans(run, RunFrom(Moves, Init(), run));
  }

  /** The visitors that a run accepted and the data channels that it queued, with what became of
      those that were taken, all from its actions, determine who is paired with whom: the
      visitors in the order of acceptance, each with the next channel that works. The others
      still wait in that order, and neither a visitor nor a channel is paired twice. */
  lemma FirstComeFirstServed(run: seq<Action>)
    requires IsRun(Moves, Init(), run)
    ensures var s := RunFrom(Moves, Init(), run);
            var accepted, enqueued := Collect(Accepting(), run), Collect(Enqueuing(), run);
            var outcomes := Collect(Outcome(), run);
            && |outcomes| <= |enqueued| && |Live(ServedOf(enqueued, outcomes))| <= |accepted|
            && s.paired == PairUp(accepted, ServedOf(enqueued, outcomes))
            && accepted[|s.paired|..] == One(s.hand) + s.visitors + One(s.pending)
            && enqueued[|outcomes|..] == One(s.taken) + s.channels
            && (forall i, j :: 0 <= i < j < |s.paired| ==>
                  s.paired[i].0 != s.paired[j].0 && s.paired[i].1 != s.paired[j].1)
  {
    ReachedOrder(run);
    RunLists(run);
    ServedFromActions(run, RunFrom(Moves, Init(), run));
    PairedOnce(RunFrom(Moves, Init(), run));
  }

  lemma ReachedOrder(run: seq<Action>)
    requires IsRun(Moves, Init(), run)
    ensures Fifo(RunFrom(Moves, Init(), run)) && Distinct(RunFrom(Moves, Init(), run))
  {
    InitInv();
    RunKeepsInv(Init(), run);
  }

  lemma ServedFromActions(run: seq<Action>, s: State)
    requires Fifo(s) && Listed(run, s)
    ensures |Collect(Outcome(), run)| <= |s.enqueued|
    ensures s.served == ServedOf(s.enqueued, Collect(Outcome(), run))
    ensures s.enqueued[|s.served|..] == One(s.taken) + s.channels
  {
    assert |Outcomes(s.served)| == |s.served|;
    forall i | 0 <= i < |s.served| ensures s.served[i] == ServedOf(s.enqueued, Outcomes(s.served))[i] {
      assert s.enqueued[i] == Chans(s.served)[i];
      assert Outcomes(s.served)[i] == s.served[i].alive;
    }
  }

  lemma PairedOnce(s: State)
    requires Fifo(s) && Distinct(s)
    ensures forall i, j :: 0 <= i < j < |s.paired| ==>
              s.paired[i].0 != s.paired[j].0 && s.paired[i].1 != s.paired[j].1
  {
    assert s.enqueued[..|s.served|] == Chans(s.served);
    LiveNoDup(s.served);
  }

  lemma {:induction false} LiveNoDup(served: seq<Served<Chan>>)
    requires NoDup(Chans(served))
    ensures NoDup(Live(served)) && forall c :: c in Live(served) ==> c in Chans(served)
  {
    if served == [] {
    } else {
      var rest := served[..|served| - 1];
      assert Chans(rest) == Chans(served)[..|rest|];
      LiveNoDup(rest);
      assert served[|rest|].chan == Chans(served)[|rest|] && Chans(served)[|rest|] !in Chans(rest);
      assert forall i :: 0 <= i < |Live(rest)| ==> Live(rest)[i] in Chans(rest) by {
        assert forall i :: 0 <= i < |Live(rest)| ==> Live(rest)[i] in Live(rest);
      }
      assert forall c :: c in Chans(rest) ==> c in Chans(served);
    }
  }

  // ---- whoever waits can be served ----

  /** The actions that move visitors and channels on, and lose nothing. */
  predicate Serving(a: Action) {
    !a.AcceptVisitor? && !a.Lose? && !a.ChannelBroken?
  }

  predicate ServingRun(run: seq<Action>) {
    forall a :: a in run ==> Serving(a)
  }

  lemma OneMore(s0: State, run: seq<Action>, s: State, a: Action) returns (run': seq<Action>, s': State)
    requires Leads(Moves, s0, run, s) && ServingRun(run) && Enabled(s, a) && Serving(a)
    ensures Leads(Moves, s0, run', s') && ServingRun(run') && s' == Step(s, a)
  {
    Then(Moves, s0, run, s, a);
    run', s' := run + [a], Step(s, a);
  }

  /** Where the next channel for the visitor in hand is. */
  function Distance(s: State): nat {
    if s.taken.Some? then 0
    else if s.channels != [] then 1
    else if s.arriving != {} then 2
    else if s.dialing != {} then 3
    else if s.commands > 0 then 4
    else 5
  }

  lemma VisitorInHand(s: State) returns (run: seq<Action>, s': State)
    requires Unpaired(s) > 0 && (s.taken.Some? ==> s.hand.Some?)
    ensures Leads(Moves, s, run, s') && ServingRun(run)
    ensures s'.hand == Some((One(s.hand) + s.visitors + One(s.pending))[0])
    ensures Supply(s') == Supply(s) && s'.paired == s.paired
  {
    run, s' := [], s;
    if s'.hand.None? {
      if s'.visitors == [] {
        run, s' := OneMore(s, run, s', QueueVisitor);
      }
      run, s' := OneMore(s, run, s', TakeVisitor);
    }
  }

  lemma {:induction false} ChannelTaken(s0: State, run0: seq<Action>, s: State) returns (run: seq<Action>, s': State)
    requires Leads(Moves, s0, run0, s) && ServingRun(run0) && s.hand.Some? && Supply(s) > 0
    ensures Leads(Moves, s0, run, s') && ServingRun(run)
    ensures s'.hand == s.hand && s'.taken.Some? && s'.paired == s.paired
    decreases Distance(s)
  {
    if s.taken.Some? {
      return run0, s;
    }
    var a;
    if s.channels != [] {
      a := TakeChannel;
    } else if s.arriving != {} {
      var c :| c in s.arriving;
      a := Enqueue(c);
    } else if s.dialing != {} {
      var c :| c in s.dialing;
      a := SendHello(c);
    } else {
      a := if s.commands > 0 then ReadCommand else WriteCommand;
    }
    var run1, s1 := OneMore(s0, run0, s, a);
    assert Supply(s1) > 0 && Distance(s1) < Distance(s) by {
      ServingGetsCloser(s, a);
    }
    run, s' := ChannelTaken(s0, run1, s1);
  }

  lemma ServingGetsCloser(s: State, a: Action)
    requires s.taken.None? && Enabled(s, a)
    requires a.TakeChannel?
          || (s.channels == [] && a.Enqueue?)
          || (s.channels == [] && s.arriving == {} && a.SendHello?)
          || (s.channels == [] && s.arriving == {} && s.dialing == {} && a.ReadCommand?)
          || (s.channels == [] && s.arriving == {} && s.dialing == {} && s.commands == 0 && a.WriteCommand?)
    ensures Supply(Step(s, a)) > 0 && Distance(Step(s, a)) < Distance(s)
  {
    match a {
      case Enqueue(c) => assert c in s.arriving;
      case SendHello(c) => assert c in Step(s, a).arriving;
      case ReadCommand => assert s.next in Step(s, a).dialing;
      case _ =>
    }
  }

  /** A waiting visitor can be paired, without another visitor, exactly as long as some channel is
      ready or on its way: if nothing more is lost or breaks, the first who waits is next. */
  lemma ServedUnlessStarved(s: State)
    requires Inv(s) && Unpaired(s) > 0
    ensures Supply(s) > 0 <==> exists run :: PairsNext(s, run)
  {
    if Supply(s) > 0 {
      var run := ServeNext(s);
    } else {
      forall run | IsRun(Moves, s, run) && ServingRun(run) ensures !PairsNext(s, run) {
        StarvedUntilNextVisitor(s, run);
      }
    }
  }

  /** The run pairs the visitor who has waited longest. */
  ghost predicate PairsNext(s: State, run: seq<Action>)
    requires Unpaired(s) > 0
  {
    && IsRun(Moves, s, run) && ServingRun(run)
    && |RunFrom(Moves, s, run).paired| == |s.paired| + 1
    && RunFrom(Moves, s, run).paired[|s.paired|].0 == (One(s.hand) + s.visitors + One(s.pending))[0]
  }

  lemma ServeNext(s: State) returns (run: seq<Action>)
    requires Inv(s) && Unpaired(s) > 0 && Supply(s) > 0
    ensures PairsNext(s, run)
  {
    var s1, s2, s3;
    run, s1 := VisitorInHand(s);
    run, s2 := ChannelTaken(s, run, s1);
    run, s3 := OneMore(s, run, s2, CommandWritten);
  }

  // ---- the bound is sharp ----

  /** Nothing ready and nothing on its way, while somebody waits. */
  predicate Starved(s: State) {
    Supply(s) == 0 && Unpaired(s) > 0
  }

  lemma StarvedStep(s: State, a: Action)
    requires Starved(s) && Enabled(s, a) && !a.AcceptVisitor?
    ensures Starved(Step(s, a)) && Step(s, a).paired == s.paired
  {
    assert s.dialing == {} && s.arriving == {} && s.taken.None?;
    assert a.QueueVisitor? || a.TakeVisitor?;
  }

  /** Then nobody is served until the next visitor comes. */
  lemma StarvedUntilNextVisitor(s: State, run: seq<Action>)
    requires Starved(s) && IsRun(Moves, s, run)
    requires forall a :: a in run ==> !a.AcceptVisitor?
    ensures Starved(RunFrom(Moves, s, run)) && RunFrom(Moves, s, run).paired == s.paired
  {
    forall x, a | Starved(x) && Enabled(x, a) && !a.AcceptVisitor?
      ensures Starved(Step(x, a)) && Step(x, a).paired == x.paired
    {
      StarvedStep(x, a);
    }
    RunOfKeeps(Moves, x => Starved(x) && x.paired == s.paired, (a: Action) => !a.AcceptVisitor?, s, run);
  }

  /** Every queued request may end in a channel that is lost. */
  lemma {:induction false} LoseRequests(s0: State, run0: seq<Action>, s: State) returns (run: seq<Action>, s': State)
    requires Leads(Moves, s0, run0, s) && s.commands == 0 && s.dialing == {} && s.arriving == {}
    ensures Leads(Moves, s0, run, s')
    ensures s' == s.(requests := 0, lost := s.lost + s.requests, next := s.next + s.requests)
    decreases s.requests
  {
    if s.requests == 0 {
      return run0, s;
    }
    Then(Moves, s0, run0, s, WriteCommand);
    var s1 := Step(s, WriteCommand);
    Then(Moves, s0, run0 + [WriteCommand], s1, ReadCommand);
    var s2 := Step(s1, ReadCommand);
    Then(Moves, s0, run0 + [WriteCommand] + [ReadCommand], s2, Lose(s.next));
    var s3 := Step(s2, Lose(s.next));
    assert s3 == s.(requests := s.requests - 1, lost := s.lost + 1, next := s.next + 1);
    run, s' := LoseRequests(s0, run0 + [WriteCommand] + [ReadCommand] + [Lose(s.next)], s3);
  }

  /** Nine losses are one too many: a first visitor may starve. */
  lemma NineLossesStarve(v: Visitor) returns (run: seq<Action>, s: State)
    ensures Leads(Moves, Init(), run, s) && Count(IsLoss(), run) == 9 && s.accepted == [v] && Starved(s)
  {
    var s1;
    run, s1 := LoseRequests(Init(), [], Init());
    Then(Moves, Init(), run, s1, AcceptVisitor(v));
    run, s := LoseRequests(Init(), run + [AcceptVisitor(v)], Step(s1, AcceptVisitor(v)));
    RunCounts(run);
  }
}
