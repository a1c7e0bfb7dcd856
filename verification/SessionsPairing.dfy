/** The pools of Sessions from the actions of the run: who is joined with whom, in which order. */
module SessionsPairing {
  import opened Wrappers
  import opened Protocol
  import opened Runs
  import opened Pairing
  import opened Sessions
  import opened SessionsProof

  // ---- what is read off ----

  function Accepting(p: ConnId): Action -> Option<Visitor> {
    (a: Action) => if a.AcceptVisitor? && a.p == p then Some(a.v) else None
  }

  function Outcome(p: ConnId): Action -> Option<bool> {
    (a: Action) => if a.Pair? && a.p == p then Some(true) else if a.PairFails? && a.p == p then Some(false) else None
  }

  function Taking(p: ConnId): Action -> Option<()> {
    (a: Action) => if a.TakeConn? && a.p == p then Some(()) else None
  }

  function Forwarding(p: ConnId): Action -> Option<Visitor> {
    (a: Action) => if a.ForwardDatagram? && a.p == p then Some(a.v) else None
  }

  predicate IsIn(tasks: map<ConnId, Task>, c: ConnId, p: ConnId) {
    c in tasks && tasks[c].Delivered? && tasks[c].pool == p
  }

  /** The data channels that were sent into the queue of this pool. */
  function Delivering(tasks: map<ConnId, Task>, p: ConnId): Action -> Option<ConnId> {
    (a: Action) => if a.Deliver? && IsIn(tasks, a.c, p) then Some(a.c) else None
  }

  function Flip(pairs: seq<(ConnId, Visitor)>): seq<(Visitor, ConnId)> {
    seq(|pairs|, i requires 0 <= i < |pairs| => (pairs[i].1, pairs[i].0))
  }

  // ---- the books of a pool ----

  predicate TcpBooked(run: seq<Action>, arrived: seq<ConnId>, p: ConnId, q: Pool) {
    && q.conn.None? && Collect(Taking(p), run) == [] && Collect(Forwarding(p), run) == []
    && Booked(Collect(Accepting(p), run), arrived, Collect(Outcome(p), run), q.visitors, q.queue, Flip(q.pairs))
  }

  /** All datagrams of a UDP service go to the first data channel that arrived. */
  predicate UdpBooked(run: seq<Action>, arrived: seq<ConnId>, p: ConnId, q: Pool) {
    var (taken, datagrams) := (|Collect(Taking(p), run)|, Collect(Forwarding(p), run));
    && q.visitors == [] && Collect(Accepting(p), run) == [] && Collect(Outcome(p), run) == []
    && taken <= 1 && taken <= |arrived| && q.queue == arrived[taken..]
    && q.conn == (if taken == 0 then None else Some(arrived[0]))
    && |q.pairs| == |datagrams| && (taken == 0 ==> datagrams == [])
    && forall i :: 0 <= i < |datagrams| ==> q.pairs[i] == (arrived[0], datagrams[i])
  }

  predicate PoolBooked(run: seq<Action>, arrived: seq<ConnId>, p: ConnId, q: Pool) {
    if q.service.serviceType.Tcp? then TcpBooked(run, arrived, p, q) else UdpBooked(run, arrived, p, q)
  }

  predicate ToldAt(run: seq<Action>, tasks: map<ConnId, Task>, p: ConnId, q: Pool) {
    PoolBooked(run, Collect(Delivering(tasks, p), run), p, q)
  }

  ghost predicate PoolsBooked(run: seq<Action>, s: State) {
    forall p :: p in s.pools ==> ToldAt(run, s.tasks, p, s.pools[p])
  }

  /** Whatever the run did to a pool, that pool is there. */
  ghost predicate PoolsKnown(run: seq<Action>, s: State) {
    && (forall a :: a in run && OfPool(a) ==> a.p in s.pools)
    && (forall a :: a in run && a.Deliver? ==>
          a.c in s.tasks && s.tasks[a.c].Delivered? && s.tasks[a.c].pool in s.pools)
    && (forall p :: p in s.pools ==> p in s.tasks && s.tasks[p].Established?)
  }

  ghost predicate PoolsTold(run: seq<Action>, s: State) {
    PoolsKnown(run, s) && PoolsBooked(run, s)
  }

  // ---- one step of one pool ----

  /** The action is none of the business of pool `p`. */
  predicate Foreign(a: Action, p: ConnId) {
    OfPool(a) ==> a.p != p || a.EndPool?
  }

  lemma ForeignBooked(run: seq<Action>, arrived: seq<ConnId>, p: ConnId, q: Pool, a: Action)
    requires PoolBooked(run, arrived, p, q) && Foreign(a, p)
    ensures PoolBooked(run + [a], arrived, p, q)
  {
    CollectNone(Accepting(p), run, a);
    CollectNone(Outcome(p), run, a);
    CollectNone(Taking(p), run, a);
    CollectNone(Forwarding(p), run, a);
  }

  lemma VisitorBooked(run: seq<Action>, arrived: seq<ConnId>, p: ConnId, q: Pool, a: Action)
    requires TcpBooked(run, arrived, p, q) && a.AcceptVisitor? && a.p == p
    ensures TcpBooked(run + [a], arrived, p, q.(visitors := q.visitors + [a.v]))
  {
    CollectNone(Taking(p), run, a);
    CollectNone(Forwarding(p), run, a);
    CollectNone(Outcome(p), run, a);
    CollectSnoc(Accepting(p), run, a);
    BookVisitor(Collect(Accepting(p), run), arrived, Collect(Outcome(p), run), q.visitors, q.queue, Flip(q.pairs), a.v);
  }

  lemma OutcomeCollected(run: seq<Action>, p: ConnId, a: Action)
    requires (a.Pair? || a.PairFails?) && a.p == p
    ensures Collect(Taking(p), run + [a]) == Collect(Taking(p), run)
    ensures Collect(Forwarding(p), run + [a]) == Collect(Forwarding(p), run)
    ensures Collect(Accepting(p), run + [a]) == Collect(Accepting(p), run)
    ensures Collect(Outcome(p), run + [a]) == Collect(Outcome(p), run) + [a.Pair?]
  {
    CollectNone(Taking(p), run, a);
    CollectNone(Forwarding(p), run, a);
    CollectNone(Accepting(p), run, a);
    CollectSnoc(Outcome(p), run, a);
  }

  lemma PairBooked(run: seq<Action>, arrived: seq<ConnId>, p: ConnId, q: Pool, a: Action)
    requires TcpBooked(run, arrived, p, q) && a.Pair? && a.p == p && q.queue != [] && q.visitors != []
    ensures TcpBooked(run + [a], arrived, p, q.(queue := q.queue[1..], visitors := q.visitors[1..],
                                                pairs := q.pairs + [(q.queue[0], q.visitors[0])]))
  {
    OutcomeCollected(run, p, a);
    BookPair(Collect(Accepting(p), run), arrived, Collect(Outcome(p), run), q.visitors, q.queue, Flip(q.pairs));
    assert Flip(q.pairs + [(q.queue[0], q.visitors[0])]) == Flip(q.pairs) + [(q.visitors[0], q.queue[0])];
  }

  lemma FailureBooked(run: seq<Action>, arrived: seq<ConnId>, p: ConnId, q: Pool, a: Action)
    requires TcpBooked(run, arrived, p, q) && a.PairFails? && a.p == p && q.queue != []
    ensures TcpBooked(run + [a], arrived, p, q.(queue := q.queue[1..]))
  {
    OutcomeCollected(run, p, a);
    BookFailure(Collect(Accepting(p), run), arrived, Collect(Outcome(p), run), q.visitors, q.queue, Flip(q.pairs));
  }

  lemma TcpStep(run: seq<Action>, arrived: seq<ConnId>, p: ConnId, q: Pool, a: Action)
    requires q.service.serviceType.Tcp? && TcpBooked(run, arrived, p, q)
    requires OfPool(a) && a.p == p && PoolEnabled(q, a) && !a.EndPool?
    ensures TcpBooked(run + [a], arrived, p, PoolAfter(q, a))
  {
    if a.AcceptVisitor? {
      VisitorBooked(run, arrived, p, q, a);
    } else if a.Pair? {
      PairBooked(run, arrived, p, q, a);
    } else {
      FailureBooked(run, arrived, p, q, a);
    }
  }

  lemma UdpStep(run: seq<Action>, arrived: seq<ConnId>, p: ConnId, q: Pool, a: Action)
    requires q.service.serviceType.Udp? && UdpBooked(run, arrived, p, q)
    requires OfPool(a) && a.p == p && PoolEnabled(q, a) && !a.EndPool?
    ensures UdpBooked(run + [a], arrived, p, PoolAfter(q, a))
  {
    CollectSnoc(Taking(p), run, a);
    CollectSnoc(Forwarding(p), run, a);
    CollectNone(Accepting(p), run, a);
    CollectNone(Outcome(p), run, a);
  }

  lemma ArrivalBooked(run: seq<Action>, arrived: seq<ConnId>, p: ConnId, q: Pool, c: ConnId)
    requires PoolBooked(run, arrived, p, q)
    ensures PoolBooked(run, arrived + [c], p, q.(queue := q.queue + [c]))
  {
    if q.service.serviceType.Tcp? {
      BookArrival(Collect(Accepting(p), run), arrived, Collect(Outcome(p), run), q.visitors, q.queue, Flip(q.pairs), c);
    }
  }

  /** What was delivered stays where it is. */
  ghost predicate SameArrivals(run: seq<Action>, tasks: map<ConnId, Task>, tasks': map<ConnId, Task>) {
    forall a :: a in run && a.Deliver? ==> a.c in tasks && a.c in tasks' && tasks'[a.c] == tasks[a.c]
  }

  lemma ForeignAt(run: seq<Action>, tasks: map<ConnId, Task>, tasks': map<ConnId, Task>, p: ConnId, q: Pool, a: Action)
    requires ToldAt(run, tasks, p, q) && SameArrivals(run, tasks, tasks') && Foreign(a, p) && !a.Deliver?
    ensures ToldAt(run + [a], tasks', p, q)
  {
    CollectSame(Delivering(tasks', p), Delivering(tasks, p), run);
    CollectNone(Delivering(tasks', p), run, a);
    ForeignBooked(run, Collect(Delivering(tasks, p), run), p, q, a);
  }

  lemma OwnAt(run: seq<Action>, tasks: map<ConnId, Task>, p: ConnId, q: Pool, a: Action)
    requires ToldAt(run, tasks, p, q) && OfPool(a) && a.p == p && PoolEnabled(q, a)
    ensures ToldAt(run + [a], tasks, p, PoolAfter(q, a))
  {
    var arrived := Collect(Delivering(tasks, p), run);
    CollectNone(Delivering(tasks, p), run, a);
    if a.EndPool? {
      ForeignBooked(run, arrived, p, q, a);
    } else if q.service.serviceType.Tcp? {
      TcpStep(run, arrived, p, q, a);
    } else {
      UdpStep(run, arrived, p, q, a);
    }
  }

  lemma ArrivalsGrow(run: seq<Action>, tasks: map<ConnId, Task>, tasks': map<ConnId, Task>, p: ConnId, a: Action)
    requires SameArrivals(run, tasks, tasks') && a.Deliver?
    ensures Collect(Delivering(tasks', p), run + [a])
         == Collect(Delivering(tasks, p), run) + if IsIn(tasks', a.c, p) then [a.c] else []
  {
    CollectSame(Delivering(tasks', p), Delivering(tasks, p), run);
    CollectSnoc(Delivering(tasks', p), run, a);
  }

  lemma DeliverAt(run: seq<Action>, tasks: map<ConnId, Task>, tasks': map<ConnId, Task>, p: ConnId, q: Pool, a: Action)
    requires ToldAt(run, tasks, p, q) && SameArrivals(run, tasks, tasks') && a.Deliver?
    ensures ToldAt(run + [a], tasks', p, if IsIn(tasks', a.c, p) then q.(queue := q.queue + [a.c]) else q)
  {
    var arrived := Collect(Delivering(tasks, p), run);
    ArrivalsGrow(run, tasks, tasks', p, a);
    if IsIn(tasks', a.c, p) {
      ArrivalBooked(run, arrived, p, q, a.c);
      ForeignBooked(run, arrived + [a.c], p, q.(queue := q.queue + [a.c]), a);
    } else {
      assert arrived + [] == arrived;
      ForeignBooked(run, arrived, p, q, a);
    }
  }

  lemma NothingCollected(run: seq<Action>, tasks: map<ConnId, Task>, p: ConnId)
    requires forall a :: a in run ==> (OfPool(a) ==> a.p != p) && (a.Deliver? ==> !IsIn(tasks, a.c, p))
    ensures Collect(Delivering(tasks, p), run) == []
    ensures Collect(Accepting(p), run) == [] && Collect(Outcome(p), run) == []
    ensures Collect(Taking(p), run) == [] && Collect(Forwarding(p), run) == []
  {
    CollectNothing(Delivering(tasks, p), run);
    CollectNothing(Accepting(p), run);
    CollectNothing(Outcome(p), run);
    CollectNothing(Taking(p), run);
    CollectNothing(Forwarding(p), run);
  }

  lemma NewBooked(run: seq<Action>, p: ConnId, q: Pool)
    requires Collect(Accepting(p), run) == [] && Collect(Outcome(p), run) == []
    requires Collect(Taking(p), run) == [] && Collect(Forwarding(p), run) == []
    requires q.queue == [] && q.visitors == [] && q.conn == None && q.pairs == []
    ensures PoolBooked(run, [], p, q)
  {
    if q.service.serviceType.Tcp? {
      BookNothing<Visitor, ConnId>();
      assert Flip([]) == [];
    }
  }

  lemma NewAt(run: seq<Action>, tasks: map<ConnId, Task>, p: ConnId, q: Pool)
    requires forall a :: a in run ==> (OfPool(a) ==> a.p != p) && (a.Deliver? ==> !IsIn(tasks, a.c, p))
    requires q.queue == [] && q.visitors == [] && q.conn == None && q.pairs == []
    ensures ToldAt(run, tasks, p, q)
  {
    NothingCollected(run, tasks, p);
    NewBooked(run, p, q);
  }

  // ---- one step of the machine ----

  /** The pools and the tasks that count stay. */
  ghost predicate Keeps(s: State, s': State) {
    && s.pools.Keys <= s'.pools.Keys
    && forall c :: c in s.tasks && (s.tasks[c].Delivered? || s.tasks[c].Established?) ==>
                     c in s'.tasks && s'.tasks[c] == s.tasks[c]
  }

  lemma KnownStep(run: seq<Action>, s: State, s': State, a: Action)
    requires PoolsKnown(run, s) && Keeps(s, s')
    requires OfPool(a) ==> a.p in s'.pools
    requires a.Deliver? ==> a.c in s'.tasks && s'.tasks[a.c].Delivered? && s'.tasks[a.c].pool in s'.pools
    requires forall p :: p in s'.pools && p !in s.pools ==> p in s'.tasks && s'.tasks[p].Established?
    ensures PoolsKnown(run + [a], s') && SameArrivals(run, s.tasks, s'.tasks)
  {
  }

  lemma OthersBooked(run: seq<Action>, s: State, a: Action)
    requires PoolsBooked(run, s) && SameArrivals(run, s.tasks, s.tasks) && OfPool(a)
    ensures forall p :: p in s.pools && p != a.p ==> ToldAt(run + [a], s.tasks, p, s.pools[p])
  {
    forall p | p in s.pools && p != a.p ensures ToldAt(run + [a], s.tasks, p, s.pools[p]) {
      ForeignAt(run, s.tasks, s.tasks, p, s.pools[p], a);
    }
  }

  lemma OwnBooked(run: seq<Action>, s: State, s': State, a: Action)
    requires PoolsBooked(run, s) && SameArrivals(run, s.tasks, s.tasks) && OfPool(a) && a.p in s.pools
    requires PoolEnabled(s.pools[a.p], a)
    requires s'.tasks == s.tasks && s'.pools == s.pools[a.p := PoolAfter(s.pools[a.p], a)]
    ensures PoolsBooked(run + [a], s')
  {
    OthersBooked(run, s, a);
    OwnAt(run, s.tasks, a.p, s.pools[a.p], a);
  }

  lemma QuietBooked(run: seq<Action>, s: State, s': State, a: Action)
    requires PoolsBooked(run, s) && SameArrivals(run, s.tasks, s'.tasks)
    requires !OfPool(a) && !a.Deliver? && s'.pools == s.pools
    ensures PoolsBooked(run + [a], s')
  {
    forall p | p in s.pools ensures ToldAt(run + [a], s'.tasks, p, s.pools[p]) {
      ForeignAt(run, s.tasks, s'.tasks, p, s.pools[p], a);
    }
  }

  lemma DeliverBooked(run: seq<Action>, s: State, s': State, a: Action, p: ConnId)
    requires PoolsBooked(run, s) && SameArrivals(run, s.tasks, s'.tasks) && a.Deliver? && p in s.pools
    requires a.c in s'.tasks && s'.tasks[a.c].Delivered? && s'.tasks[a.c].pool == p
    requires s'.pools == s.pools[p := s.pools[p].(queue := s.pools[p].queue + [a.c])]
    ensures PoolsBooked(run + [a], s')
  {
    forall x | x in s.pools ensures ToldAt(run + [a], s'.tasks, x, s'.pools[x]) {
      DeliverAt(run, s.tasks, s'.tasks, x, s.pools[x], a);
    }
  }

  lemma InsertBooked(run: seq<Action>, s: State, s': State, a: Action, q: Pool)
    requires PoolsBooked(run, s) && SameArrivals(run, s.tasks, s'.tasks)
    requires a.InsertNew?
    requires forall b :: b in run ==> (OfPool(b) ==> b.p != a.c) && (b.Deliver? ==> !IsIn(s.tasks, b.c, a.c))
    requires s'.pools == s.pools[a.c := q]
    requires q.queue == [] && q.visitors == [] && q.conn == None && q.pairs == []
    ensures PoolsBooked(run + [a], s')
  {
    NewAt(run, s.tasks, a.c, q);
    ForeignAt(run, s.tasks, s'.tasks, a.c, q, a);
    forall p | p in s.pools && p != a.c ensures ToldAt(run + [a], s'.tasks, p, s.pools[p]) {
      ForeignAt(run, s.tasks, s'.tasks, p, s.pools[p], a);
    }
  }

  lemma QuietEffect(h: HashFn, s: State, a: Action)
    requires Enabled(s, a) && !OfPool(a) && !a.Deliver? && !a.InsertNew?
    ensures Keeps(s, Step(h, s, a)) && Step(h, s, a).pools == s.pools
  {
    if OfConnection(a) {
      OneTaskMoves(h, s, a);
    } else {
      OtherSame(h, s, a);
    }
  }

  lemma DeliverEffect(h: HashFn, s: State, a: Action)
    requires Enabled(s, a) && a.Deliver?
    ensures var (s', p, q) := (Step(h, s, a), s.tasks[a.c].pool, s.pools[s.tasks[a.c].pool]);
            && Keeps(s, s') && s'.tasks == s.tasks[a.c := Delivered(s.tasks[a.c].key, p)]
            && s'.pools == s.pools[p := q.(queue := q.queue + [a.c])]
  {
  }

  lemma InsertEffect(h: HashFn, s: State, a: Action)
    requires Enabled(s, a) && a.InsertNew?
    ensures var (s', deal) := (Step(h, s, a), s.tasks[a.c].deal);
            && Keeps(s, s') && s'.tasks == s.tasks[a.c := Established(deal)]
            && s'.pools == s.pools[a.c := NewPool(h, deal)]
  {
  }

  lemma OwnEffect(h: HashFn, s: State, a: Action)
    requires Enabled(s, a) && OfPool(a)
    ensures var s' := Step(h, s, a);
            Keeps(s, s') && s'.tasks == s.tasks && s'.pools == s.pools[a.p := PoolAfter(s.pools[a.p], a)]
  {
  }

  /** No pool of the connection that is about to be inserted has done or got anything. */
  lemma NothingBefore(run: seq<Action>, s: State, c: ConnId)
    requires PoolsKnown(run, s) && c in s.tasks && s.tasks[c].Inserting?
    ensures forall b :: b in run ==> (OfPool(b) ==> b.p != c) && (b.Deliver? ==> !IsIn(s.tasks, b.c, c))
  {
    assert c !in s.pools;
  }

  lemma OwnTold(h: HashFn, run: seq<Action>, s: State, a: Action)
    requires PoolsTold(run, s) && Enabled(s, a) && OfPool(a)
    ensures PoolsTold(run + [a], Step(h, s, a))
  {
    OwnEffect(h, s, a);
    KnownStep(run, s, Step(h, s, a), a);
    OwnBooked(run, s, Step(h, s, a), a);
  }

  lemma DeliverTold(h: HashFn, run: seq<Action>, s: State, a: Action)
    requires PoolsTold(run, s) && Enabled(s, a) && a.Deliver?
    ensures PoolsTold(run + [a], Step(h, s, a))
  {
    DeliverEffect(h, s, a);
    KnownStep(run, s, Step(h, s, a), a);
    DeliverBooked(run, s, Step(h, s, a), a, s.tasks[a.c].pool);
  }

  lemma InsertTold(h: HashFn, run: seq<Action>, s: State, a: Action)
    requires PoolsTold(run, s) && Enabled(s, a) && a.InsertNew?
    ensures PoolsTold(run + [a], Step(h, s, a))
  {
    InsertEffect(h, s, a);
    NothingBefore(run, s, a.c);
    KnownStep(run, s, Step(h, s, a), a);
    InsertBooked(run, s, Step(h, s, a), a, NewPool(h, s.tasks[a.c].deal));
  }

  lemma StepTold(h: HashFn, run: seq<Action>, s: State, a: Action)
    requires PoolsTold(run, s) && Enabled(s, a)
    ensures PoolsTold(run + [a], Step(h, s, a))
  {
    if OfPool(a) {
      OwnTold(h, run, s, a);
    } else if a.Deliver? {
      DeliverTold(h, run, s, a);
    } else if a.InsertNew? {
      InsertTold(h, run, s, a);
    } else {
      QuietEffect(h, s, a);
      KnownStep(run, s, Step(h, s, a), a);
      QuietBooked(run, s, Step(h, s, a), a);
    }
  }

  // ---- the end of a pool ----

  ghost predicate EndsTold(run: seq<Action>, s: State) {
    PoolsKnown(run, s) && forall p :: p in s.pools ==> (s.pools[p].ended <==> EndPool(p) in run)
  }

  lemma StepKnown(h: HashFn, run: seq<Action>, s: State, a: Action)
    requires PoolsKnown(run, s) && Enabled(s, a)
    ensures PoolsKnown(run + [a], Step(h, s, a)) && s.pools.Keys <= Step(h, s, a).pools.Keys
  {
    if OfPool(a) {
      OwnEffect(h, s, a);
    } else if a.Deliver? {
      DeliverEffect(h, s, a);
    } else if a.InsertNew? {
      InsertEffect(h, s, a);
    } else {
      QuietEffect(h, s, a);
    }
    KnownStep(run, s, Step(h, s, a), a);
  }

  /** The end of a pool, and nothing else, ends it; a new pool runs. */
  lemma OnlyEndEnds(h: HashFn, s: State, a: Action, p: ConnId)
    requires Enabled(s, a) && p in Step(h, s, a).pools
    ensures var s' := Step(h, s, a);
            if p in s.pools && !(a.InsertNew? && a.c == p)
            then s'.pools[p].ended == (s.pools[p].ended || a == EndPool(p))
            else !s'.pools[p].ended && a.InsertNew? && a.c == p
  {
    if OfPool(a) {
      OwnEffect(h, s, a);
    } else if a.Deliver? {
      DeliverEffect(h, s, a);
    } else if a.InsertNew? {
      InsertEffect(h, s, a);
    } else {
      QuietEffect(h, s, a);
    }
  }

  lemma StepEndsTold(h: HashFn, run: seq<Action>, s: State, a: Action)
    requires EndsTold(run, s) && Enabled(s, a)
    ensures EndsTold(run + [a], Step(h, s, a))
  {
    var s' := Step(h, s, a);
    StepKnown(h, run, s, a);
    if a.InsertNew? {
      InsertEffect(h, s, a);
      NothingBefore(run, s, a.c);
    }
    forall p | p in s'.pools ensures s'.pools[p].ended <==> EndPool(p) in run + [a] {
      OnlyEndEnds(h, s, a, p);
      assert EndPool(p) in run + [a] <==> EndPool(p) in run || a == EndPool(p);
    }
  }

  lemma RunEndsTold(h: HashFn, services: map<Digest, Servable>, run: seq<Action>)
    requires IsRun(Moves(h), Init(services), run)
    ensures EndsTold(run, RunFrom(Moves(h), Init(services), run))
  {
    forall past, s, a | EndsTold(past, s) && Enabled(s, a) ensures EndsTold(past + [a], Step(h, s, a)) {
      StepEndsTold(h, past, s, a);
    }
    RunKeepsTrace(Moves(h), EndsTold, Init(services), run);
  }

  /** A pool runs until its end, and does and gets nothing after it: a data channel whose handle
      was found is dropped exactly if the pool of the handle has come to its end. */
  lemma EndIsTheEnd(h: HashFn, services: map<Digest, Servable>, run: seq<Action>, a: Action)
    requires IsRun(Moves(h), Init(services), run + [a])
    ensures IsRun(Moves(h), Init(services), run)
    ensures OfPool(a) ==> EndPool(a.p) !in run
    ensures a.Deliver? || a.DeliverFails? ==>
              var s := RunFrom(Moves(h), Init(services), run);
              && a.c in s.tasks && s.tasks[a.c].Sending?
              && (a.DeliverFails? <==> EndPool(s.tasks[a.c].pool) in run)
  {
    BeforeLast(Moves(h), Init(services), run, a);
    RunEndsTold(h, services, run);
  }

  /** Who is joined with whom follows from the actions of the run: in a TCP pool each visitor, in the
      order of acceptance, gets the next data channel that works, of those that were sent into
      the queue in their order; in a UDP pool the first data channel gets the datagrams of all
      visitors in their order. What is left waits in the same order. */
  lemma PoolsServeInOrder(h: HashFn, services: map<Digest, Servable>, run: seq<Action>, p: ConnId)
    requires IsRun(Moves(h), Init(services), run)
    ensures var s := RunFrom(Moves(h), Init(services), run);
            p in s.pools ==> PoolBooked(run, Collect(Delivering(s.tasks, p), run), p, s.pools[p])
  {
    forall past, s, a | PoolsTold(past, s) && Enabled(s, a) ensures PoolsTold(past + [a], Step(h, s, a)) {
      StepTold(h, past, s, a);
    }
    RunKeepsTrace(Moves(h), PoolsTold, Init(services), run);
  }
}
