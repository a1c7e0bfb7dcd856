/** A data channel on its way into the queue of the handle that it found. */
module SessionsDelivery {
  import opened Constants
  import opened Wrappers
  import opened Protocol
  import opened MultiMapSpec
  import opened Server
  import opened Sessions
  import opened SessionsProof
  import opened Runs

  /** The pool `p` is fed by a handle that is in the table, under the key of its handshake. */
  ghost predicate HasLiveHandle(h: HashFn, s: State, p: ConnId) {
    && p in s.tasks && s.tasks[p].Established?
    && ItemOf(h, p, s.tasks[p].deal) in s.sessions
  }

  /** The read guard keeps every handle that somebody sends to. */
  ghost predicate SendersServed(h: HashFn, s: State) {
    forall c :: c in s.tasks && s.tasks[c].Sending? ==> HasLiveHandle(h, s, s.tasks[c].pool)
  }

  lemma NoSenderNoHarm(h: HashFn, s: State)
    requires NoReader(s)
    ensures SendersServed(h, s)
  {
  }

  /** Whoever holds the write guard, or waits for it no longer, sees no sender. */
  lemma WriterSeesNoReader(s: State, c: ConnId)
    requires Exclusive(s) && c in s.tasks && HoldsWrite(s.tasks[c])
    ensures NoReader(s)
  {
    forall d | d in s.tasks ensures !HoldsRead(s.tasks[d]) {
      assert HoldsAny(s.tasks[d]) ==> d == c;
    }
  }

  lemma FindServes(h: HashFn, s: State, c: ConnId)
    requires SessionsOwned(h, s) && SendersServed(h, s) && Enabled(s, FindSession(c))
    ensures SendersServed(h, Step(h, s, FindSession(c)))
  {
    var key := s.tasks[c].key;
    if Lookup2(s.sessions, key).Some? {
      var t :| t in s.sessions && t.k2 == key && Lookup2(s.sessions, key) == Some(t.v);
      assert t == ItemOf(h, t.v.pool, s.tasks[t.v.pool].deal);
    }
  }

  lemma QuietServes(h: HashFn, s: State, a: Action)
    requires Cleared(s) && SendersServed(h, s) && Enabled(s, a)
    requires OfConnection(a) && !a.ClearOld? && !a.InsertNew? && !a.FindSession?
    ensures SendersServed(h, Step(h, s, a))
  {
    var s' := Step(h, s, a);
    QuietStep(h, s, a);
    assert !s'.tasks[a.c].Sending?;
    forall d | d in s'.tasks && s'.tasks[d].Sending? ensures HasLiveHandle(h, s', s'.tasks[d].pool) {
      assert HasLiveHandle(h, s, s.tasks[d].pool);
    }
  }

  lemma OtherServes(h: HashFn, s: State, a: Action)
    requires SendersServed(h, s) && Enabled(s, a) && !OfConnection(a)
    ensures SendersServed(h, Step(h, s, a))
  {
    var s' := Step(h, s, a);
    assert s'.tasks == s.tasks;
    if a.FinishReload? {
      NoSenderNoHarm(h, s');
    } else {
      assert s'.sessions == s.sessions;
      forall d | d in s'.tasks && s'.tasks[d].Sending? ensures HasLiveHandle(h, s', s'.tasks[d].pool) {
        assert HasLiveHandle(h, s, s.tasks[d].pool);
      }
    }
  }

  lemma WriterServes(h: HashFn, s: State, a: Action)
    requires Exclusive(s) && Enabled(s, a) && (a.ClearOld? || a.InsertNew?)
    ensures SendersServed(h, Step(h, s, a))
  {
    WriterSeesNoReader(s, a.c);
    OneTaskMoves(h, s, a);
    NoSenderNoHarm(h, Step(h, s, a));
  }

  lemma StepServes(h: HashFn, s: State, a: Action)
    requires TablesOk(h, s) && SendersServed(h, s) && Enabled(s, a)
    ensures SendersServed(h, Step(h, s, a))
  {
    if a.ClearOld? || a.InsertNew? {
      WriterServes(h, s, a);
    } else if a.FindSession? {
      FindServes(h, s, a.c);
    } else if OfConnection(a) {
      QuietServes(h, s, a);
    } else {
      OtherServes(h, s, a);
    }
  }

  ghost predicate ServedSoFar(h: HashFn, s: State) {
    NoCollision(h, s.past.hashed) ==> Inv(h, s) && SendersServed(h, s)
  }

  lemma StepServesSoFar(h: HashFn, s: State, a: Action)
    requires ServedSoFar(h, s) && Enabled(s, a)
    ensures ServedSoFar(h, Step(h, s, a))
  {
    StepHashes(h, s, a);
    if NoCollision(h, Step(h, s, a).past.hashed) {
      StepKeepsInv(h, s, a);
      StepServes(h, s, a);
    }
  }

  lemma RunServes(h: HashFn, s: State, run: seq<Action>)
    requires Inv(h, s) && SendersServed(h, s)
    requires IsRun(Moves(h), s, run) && NoCollision(h, RunFrom(Moves(h), s, run).past.hashed)
    ensures SendersServed(h, RunFrom(Moves(h), s, run))
  {
    forall s, a | ServedSoFar(h, s) && Enabled(s, a) ensures ServedSoFar(h, Step(h, s, a)) {
      StepServesSoFar(h, s, a);
    }
    RunKeeps(Moves(h), s => ServedSoFar(h, s), s, run);
  }

  lemma SenderKey(h: HashFn, s: State, data: ConnId)
    requires PoolsOk(h, s) && data in s.tasks && s.tasks[data].Sending?
    ensures var p := s.tasks[data].pool; p in s.pools && p in s.tasks && s.tasks[p].Established?
    ensures Key(h, s.tasks[s.tasks[data].pool].deal) == s.tasks[data].key
  {
    assert PoolOk(h, s.tasks, s.tasks[data].pool, s.pools[s.tasks[data].pool]);
  }

  lemma DeliverAppends(h: HashFn, s: State, data: ConnId)
    requires Enabled(s, Deliver(data))
    ensures var p := s.tasks[data].pool;
            Step(h, s, Deliver(data)).pools == s.pools[p := s.pools[p].(queue := s.pools[p].queue + [data])]
  {
  }

  lemma SendOutcome(h: HashFn, s: State, data: ConnId)
    requires data in s.tasks && s.tasks[data].Sending? && s.tasks[data].pool in s.pools
    ensures var q := s.pools[s.tasks[data].pool];
            && (Enabled(s, DeliverFails(data)) <==> q.ended)
            && (Enabled(s, Deliver(data)) <==> !q.ended && |q.queue| < DATA_QUEUE)
    ensures Enabled(s, Deliver(data)) ==>
              var p := s.tasks[data].pool;
              Step(h, s, Deliver(data)).pools == s.pools[p := s.pools[p].(queue := s.pools[p].queue + [data])]
  {
    if Enabled(s, Deliver(data)) {
      DeliverAppends(h, s, data);
    }
  }

  lemma SenderIsServed(h: HashFn, services: map<Digest, Servable>, run: seq<Action>, s: State, data: ConnId)
    requires Reached(h, services, run, s)
    requires data in s.tasks && s.tasks[data].Sending?
    ensures var Sending(key, p) := s.tasks[data];
            HasLiveHandle(h, s, p) && Key(h, s.tasks[p].deal) == key && p in s.pools
  {
    ReachedInv(h, services, run, s);
    RunServes(h, Init(services), run);
    SenderKey(h, s, data);
  }

  /** From the lookup until the send is over the handle that a data channel found stays in the
      table, under the key that the channel named. The send fails exactly when that handle's
      pool has ended; else, as soon as there is room, it puts the data channel at the end of
      the handle's queue and touches no other pool. */
  lemma DeliveryIsToLiveHandle(h: HashFn, services: map<Digest, Servable>, run: seq<Action>, s: State, data: ConnId)
    requires Reached(h, services, run, s)
    requires data in s.tasks && s.tasks[data].Sending?
    ensures var Sending(key, p) := s.tasks[data];
            && HasLiveHandle(h, s, p) && Key(h, s.tasks[p].deal) == key && p in s.pools
            && (Enabled(s, DeliverFails(data)) <==> s.pools[p].ended)
            && (Enabled(s, Deliver(data)) <==> !s.pools[p].ended && |s.pools[p].queue| < DATA_QUEUE)
            && (Enabled(s, Deliver(data)) ==>
                  Step(h, s, Deliver(data)).pools
                    == s.pools[p := s.pools[p].(queue := s.pools[p].queue + [data])])
  {
    SenderIsServed(h, services, run, s, data);
    SendOutcome(h, s, data);
  }

  // ---- without interleaving ----

  /** What the task of a data channel does for each answer, when nothing disturbs it. */
  function RouteRun(r: Routed, data: ConnId): seq<Action> {
    match r
    case NoSuchKey => [FindSession(data)]
    case Stale => [FindSession(data), DeliverFails(data)]
    case AwaitsRoom => [FindSession(data)]
    case Queued => [FindSession(data), Deliver(data)]
  }

  /** The answer and the queues that Server.RouteDataChannel gives. */
  ghost function Route(s: State, data: ConnId): (Routed, map<ConnId, seq<ConnId>>)
    requires data in s.tasks && s.tasks[data].Finding?
  {
    match Lookup2(s.sessions, s.tasks[data].key)
    case None => (NoSuchKey, QueuesOf(s.pools))
    case Some(handle) => Sent(QueuesOf(s.pools), handle.pool, data)
  }

  /** Where that leaves the task. */
  ghost predicate RoutedTo(r: Routed, s: State, data: ConnId) {
    && data in s.tasks
    && match r
       case NoSuchKey => s.tasks[data].Closed?
       case Stale => s.tasks[data].Closed?
       case AwaitsRoom => s.tasks[data].Sending? && !Enabled(s, Deliver(data)) && !Enabled(s, DeliverFails(data))
       case Queued => s.tasks[data].Delivered?
  }

  lemma UntilFound(h: HashFn, s: State, data: ConnId) returns (s1: State)
    requires data in s.tasks && s.tasks[data].Finding? && NoWriter(s)
    ensures Leads(Moves(h), s, [FindSession(data)], s1)
    ensures s1.sessions == s.sessions && s1.pools == s.pools && data in s1.tasks
    ensures match Lookup2(s.sessions, s.tasks[data].key)
            case None => s1.tasks[data] == Closed
            case Some(handle) => s1.tasks[data] == Sending(s.tasks[data].key, handle.pool)
  {
    Then(Moves(h), s, [], s, FindSession(data));
    assert [] + [FindSession(data)] == [FindSession(data)];
    s1 := Step(h, s, FindSession(data));
  }

  lemma UntilSent(h: HashFn, s: State, s1: State, data: ConnId) returns (s2: State)
    requires Leads(Moves(h), s, [FindSession(data)], s1) && Enabled(s1, Deliver(data))
    ensures Leads(Moves(h), s, [FindSession(data), Deliver(data)], s2)
    ensures s2.sessions == s1.sessions && data in s2.tasks && s2.tasks[data].Delivered?
    ensures (Queued, QueuesOf(s2.pools)) == Sent(QueuesOf(s1.pools), s1.tasks[data].pool, data)
  {
    Then(Moves(h), s, [FindSession(data)], s1, Deliver(data));
    assert [FindSession(data)] + [Deliver(data)] == [FindSession(data), Deliver(data)];
    DeliverAppends(h, s1, data);
    s2 := Step(h, s1, Deliver(data));
    var p := s1.tasks[data].pool;
    assert QueuesOf(s2.pools) == QueuesOf(s1.pools)[p := s1.pools[p].queue + [data]];
  }

  lemma UntilFailed(h: HashFn, s: State, s1: State, data: ConnId) returns (s2: State)
    requires Leads(Moves(h), s, [FindSession(data)], s1) && Enabled(s1, DeliverFails(data))
    ensures Leads(Moves(h), s, [FindSession(data), DeliverFails(data)], s2)
    ensures s2.sessions == s1.sessions && s2.pools == s1.pools && data in s2.tasks && s2.tasks[data].Closed?
  {
    Then(Moves(h), s, [FindSession(data)], s1, DeliverFails(data));
    assert [FindSession(data)] + [DeliverFails(data)] == [FindSession(data), DeliverFails(data)];
    s2 := Step(h, s1, DeliverFails(data));
  }

  lemma FoundHasPool(h: HashFn, services: map<Digest, Servable>, past: seq<Action>, s: State, data: ConnId)
    requires Reached(h, services, past, s) && data in s.tasks && s.tasks[data].Finding?
    ensures var found := Lookup2(s.sessions, s.tasks[data].key); found.Some? ==> found.value.pool in s.pools
  {
    ReachedInv(h, services, past, s);
    if Lookup2(s.sessions, s.tasks[data].key).Some? {
      FoundSession(h, s, s.tasks[data].key);
    }
  }

  lemma RouteAloneFrom(h: HashFn, s: State, data: ConnId) returns (s': State)
    requires data in s.tasks && s.tasks[data].Finding? && NoWriter(s)
    requires var found := Lookup2(s.sessions, s.tasks[data].key); found.Some? ==> found.value.pool in s.pools
    ensures Leads(Moves(h), s, RouteRun(Route(s, data).0, data), s') && s'.sessions == s.sessions
    ensures QueuesOf(s'.pools) == Route(s, data).1 && RoutedTo(Route(s, data).0, s', data)
  {
    s' := UntilFound(h, s, data);
    if s'.tasks[data].Sending? {
      SendOutcome(h, s', data);
      if Enabled(s', Deliver(data)) {
        s' := UntilSent(h, s, s', data);
      } else if Enabled(s', DeliverFails(data)) {
        s' := UntilFailed(h, s, s', data);
      }
    }
  }

  /** A data channel that nothing disturbs gets the answer that Server.RouteDataChannel gives,
      and does to the queues what it does: for an unknown key, a pool that has ended, a full
      queue and one with room. */
  lemma RouteAlone(h: HashFn, services: map<Digest, Servable>, past: seq<Action>, s: State, data: ConnId)
    requires Reached(h, services, past, s)
    requires data in s.tasks && s.tasks[data].Finding? && NoWriter(s)
    ensures exists s' :: Leads(Moves(h), s, RouteRun(Route(s, data).0, data), s') && s'.sessions == s.sessions
              && QueuesOf(s'.pools) == Route(s, data).1 && RoutedTo(Route(s, data).0, s', data)
  {
    FoundHasPool(h, services, past, s, data);
    var s' := RouteAloneFrom(h, s, data);
  }
}
