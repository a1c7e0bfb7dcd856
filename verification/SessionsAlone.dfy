/** A whole connection of Sessions that nothing disturbs, from its first byte to its end. */
module SessionsAlone {
  import opened Wrappers
  import opened Protocol
  import opened MultiMapSpec
  import opened Server
  import opened Runs
  import opened Sessions
  import opened SessionsProof
  import opened SessionsReload
  import opened SessionsDelivery

  lemma OneMore(h: HashFn, s0: State, run: seq<Action>, s: State, a: Action) returns (run': seq<Action>, s': State)
    requires Leads(Moves(h), s0, run, s) && Enabled(s, a)
    ensures Leads(Moves(h), s0, run', s') && run' == run + [a] && s' == Step(h, s, a)
  {
    Then(Moves(h), s0, run, s, a);
    run', s' := run + [a], Step(h, s, a);
  }

  /** Only the task of one connection is another. */
  predicate OnlyTask(s: State, s': State, c: ConnId, t: Task) {
    && s'.tasks == s.tasks[c := t] && s'.services == s.services && s'.sessions == s.sessions
    && s'.reload == s.reload && s'.pools == s.pools
  }

  /** Nobody stands in the way of a handshake of `c` with this nonce. */
  ghost predicate Clear(s: State, c: ConnId, n: Digest) {
    && c !in s.tasks && n !in s.past.nonces.Values
    && NoWriter(s) && NoReader(s) && !s.reload.Adding?
  }

  datatype Outcome = Unknown | WrongAuth | RightAuth

  /** What the server makes of a hello and an auth. */
  function OutcomeOf(h: HashFn, services: map<Digest, Servable>, d: Digest, n: Digest, auth: Digest): Outcome {
    if d !in services then Unknown
    else if h(services[d].token.value + n) == auth then RightAuth
    else WrongAuth
  }

  lemma UntilNonce(h: HashFn, s: State, c: ConnId, d: Digest, n: Digest) returns (run: seq<Action>, s': State)
    requires Clear(s, c, n)
    ensures Leads(Moves(h), s, run, s') && OnlyTask(s, s', c, LookingUp(d, n))
  {
    run, s' := OneMore(h, s, [], s, Connect(c));
    run, s' := OneMore(h, s, run, s', ReadControlHello(c, d));
    run, s' := OneMore(h, s, run, s', SendNonce(c, n));
  }

  lemma UntilLookedUp(h: HashFn, s: State, c: ConnId, d: Digest, n: Digest) returns (run: seq<Action>, s': State)
    requires Clear(s, c, n)
    ensures Leads(Moves(h), s, run, s')
    ensures OnlyTask(s, s', c, if d in s.services then AwaitingAuth(Deal(d, n, s.services[d])) else Refusing)
  {
    var s1;
    run, s1 := UntilNonce(h, s, c, d, n);
    run, s' := OneMore(h, s, run, s1, Lookup(c));
  }

  lemma UntilChecked(h: HashFn, s: State, c: ConnId, d: Digest, n: Digest, auth: Digest)
    returns (run: seq<Action>, s': State)
    requires Clear(s, c, n) && d in s.services
    ensures Leads(Moves(h), s, run, s')
    ensures var deal := Deal(d, n, s.services[d]);
            OnlyTask(s, s', c, if OutcomeOf(h, s.services, d, n, auth).RightAuth? then Waiting(deal) else Denying)
  {
    var s1;
    run, s1 := UntilLookedUp(h, s, c, d, n);
    run, s' := OneMore(h, s, run, s1, CheckAuth(c, auth));
  }

  lemma Refused(h: HashFn, s: State, c: ConnId, d: Digest, n: Digest, auth: Digest)
    returns (run: seq<Action>, s': State)
    requires Clear(s, c, n) && !OutcomeOf(h, s.services, d, n, auth).RightAuth?
    ensures Leads(Moves(h), s, run, s') && OnlyTask(s, s', c, Closed)
  {
    var s1;
    if d in s.services {
      run, s1 := UntilChecked(h, s, c, d, n, auth);
      run, s' := OneMore(h, s, run, s1, Deny(c));
    } else {
      run, s1 := UntilLookedUp(h, s, c, d, n);
      run, s' := OneMore(h, s, run, s1, Refuse(c));
    }
  }

  lemma OneTaskNoGuards(s: State, s': State, c: ConnId, t: Task)
    requires NoWriter(s) && NoReader(s) && OnlyTask(s, s', c, t) && !HoldsWrite(t) && !HoldsRead(t)
    ensures NoWriter(s') && NoReader(s')
  {
  }

  /** A control channel handshake that nothing disturbs: an unknown service or a wrong auth closes
      the connection and changes nothing else; the right auth replaces the channel of that
      service by one with a queue of its own, and changes nothing else. */
  lemma HandshakeAlone(h: HashFn, s: State, c: ConnId, d: Digest, n: Digest, auth: Digest)
    returns (run: seq<Action>, s': State)
    requires Clear(s, c, n)
    ensures Leads(Moves(h), s, run, s') && s'.services == s.services && s'.reload == s.reload
    ensures if OutcomeOf(h, s.services, d, n, auth).RightAuth? then
              var (deal, rest) := (Deal(d, n, s.services[d]), Without1(s.sessions, d));
              && s'.tasks == s.tasks[c := Established(deal)]
              && s'.sessions == MultiMapSpec.Insert(rest, ItemOf(h, c, deal))
              && QueuesOf(s'.pools) == QueuesOf(s.pools)[c := []]
            else OnlyTask(s, s', c, Closed)
  {
    if OutcomeOf(h, s.services, d, n, auth).RightAuth? {
      var run1, s1 := UntilChecked(h, s, c, d, n, auth);
      OneTaskNoGuards(s, s1, c, s1.tasks[c]);
      EstablishAlone(h, s1, c);
      s' := RunFrom(Moves(h), s1, EstablishRun(c));
      LeadsConcat(Moves(h), s, run1, s1, EstablishRun(c), s');
      run := run1 + EstablishRun(c);
      var rest := Without1(s.sessions, d);
      assert !Has1(rest, d);
      assert s.tasks[c := s1.tasks[c]][c := s'.tasks[c]] == s.tasks[c := s'.tasks[c]];
    } else {
      run, s' := Refused(h, s, c, d, n, auth);
    }
  }

  /** A data channel that nothing disturbs, from its hello on: it is dropped if no channel has that
      session key or its pool has ended, waits if the queue is full, and else joins its end. */
  lemma DataChannelAlone(h: HashFn, services: map<Digest, Servable>, past: seq<Action>, s: State,
                         c: ConnId, key: Digest)
    returns (run: seq<Action>, s': State)
    requires Reached(h, services, past, s) && c !in s.tasks && NoWriter(s)
    ensures Leads(Moves(h), s, run, s') && s'.sessions == s.sessions
    ensures var found := Lookup2(s.sessions, key);
            var (answer, queues) := if found.None? then (NoSuchKey, QueuesOf(s.pools))
                                    else Sent(QueuesOf(s.pools), found.value.pool, c);
            RoutedTo(answer, s', c) && QueuesOf(s'.pools) == queues
  {
    if Lookup2(s.sessions, key).Some? {
      KeyHasPool(h, services, past, s, key);
    }
    var s1, s2;
    run, s1 := OneMore(h, s, [], s, Connect(c));
    run, s2 := OneMore(h, s, run, s1, ReadDataHello(c, key));
    assert OnlyTask(s, s2, c, Finding(key));
    s' := RouteAloneFrom(h, s2, c);
    LeadsConcat(Moves(h), s, run, s2, RouteRun(Route(s2, c).0, c), s');
    run := run + RouteRun(Route(s2, c).0, c);
  }

  lemma KeyHasPool(h: HashFn, services: map<Digest, Servable>, past: seq<Action>, s: State, key: Digest)
    requires Reached(h, services, past, s) && Lookup2(s.sessions, key).Some?
    ensures Lookup2(s.sessions, key).value.pool in s.pools
  {
    ReachedInv(h, services, past, s);
    FoundSession(h, s, key);
  }

  // ---- visitors ----

  /** The pool does what it does, and nothing else changes. */
  predicate OnlyPool(s: State, s': State, p: ConnId, q: Pool) {
    s' == s.(pools := s.pools[p := q])
  }

  lemma PoolDoes(h: HashFn, s0: State, run: seq<Action>, s: State, p: ConnId, q: Pool, a: Action)
    returns (run': seq<Action>, s': State, q': Pool)
    requires p in s0.pools && Leads(Moves(h), s0, run, s) && OnlyPool(s0, s, p, q)
    requires OfPool(a) && a.p == p && PoolEnabled(q, a)
    ensures Leads(Moves(h), s0, run', s') && OnlyPool(s0, s', p, q') && q' == PoolAfter(q, a)
  {
    run', s' := OneMore(h, s0, run, s, a);
    q' := PoolAfter(q, a);
    assert s0.pools[p := q][p := q'] == s0.pools[p := q'];
  }

  lemma PoolIsThere(s: State, p: ConnId)
    requires p in s.pools
    ensures OnlyPool(s, s, p, s.pools[p])
  {
    assert s.pools[p := s.pools[p]] == s.pools;
  }

  /** After some data channels that turn out to be broken. */
  lemma {:induction false} Failures(h: HashFn, s0: State, run0: seq<Action>, s: State, p: ConnId, q: Pool, n: nat)
    returns (run: seq<Action>, s': State, q': Pool)
    requires p in s0.pools && Leads(Moves(h), s0, run0, s) && OnlyPool(s0, s, p, q)
    requires !q.ended && q.visitors != [] && n <= |q.queue|
    ensures Leads(Moves(h), s0, run, s') && OnlyPool(s0, s', p, q') && q' == q.(queue := q.queue[n..])
  {
    if n == 0 {
      run, s', q' := run0, s, q;
    } else {
      run, s', q' := Failures(h, s0, run0, s, p, q, n - 1);
      run, s', q' := PoolDoes(h, s0, run, s', p, q', PairFails(p));
    }
  }

  /** A visitor of a TCP service for whom nobody stands in line is joined with the first data
      channel in the queue that works, whatever came before it. */
  lemma VisitorAlone(h: HashFn, s: State, p: ConnId, v: Visitor, broken: nat) returns (run: seq<Action>, s': State)
    requires p in s.pools && !s.pools[p].ended && s.pools[p].service.serviceType.Tcp?
    requires v.acceptedOn == s.pools[p].service.bindAddr
    requires s.pools[p].visitors == [] && broken < |s.pools[p].queue|
    ensures Leads(Moves(h), s, run, s')
    ensures var q := s.pools[p];
            OnlyPool(s, s', p, q.(queue := q.queue[broken + 1..], pairs := q.pairs + [(q.queue[broken], v)]))
  {
    PoolIsThere(s, p);
    var q;
    run, s', q := PoolDoes(h, s, [], s, p, s.pools[p], AcceptVisitor(p, v));
    run, s', q := Failures(h, s, run, s', p, q, broken);
    run, s', q := PoolDoes(h, s, run, s', p, q, Pair(p));
    assert q.visitors == [] && q.queue == s.pools[p].queue[broken + 1..];
  }

  /** The first datagram of a UDP service that has a data channel waiting goes out on it, and so
      does the next one. */
  lemma DatagramsAlone(h: HashFn, s: State, p: ConnId, v: Visitor, w: Visitor) returns (run: seq<Action>, s': State)
    requires p in s.pools && !s.pools[p].ended && s.pools[p].service.serviceType.Udp?
    requires v.acceptedOn == s.pools[p].service.bindAddr == w.acceptedOn
    requires s.pools[p].conn.None? && s.pools[p].queue != []
    ensures Leads(Moves(h), s, run, s')
    ensures var (q, c) := (s.pools[p], s.pools[p].queue[0]);
            OnlyPool(s, s', p, q.(conn := Some(c), queue := q.queue[1..], pairs := q.pairs + [(c, v), (c, w)]))
  {
    PoolIsThere(s, p);
    var q;
    run, s', q := PoolDoes(h, s, [], s, p, s.pools[p], TakeConn(p));
    run, s', q := PoolDoes(h, s, run, s', p, q, ForwardDatagram(p, v));
    run, s', q := PoolDoes(h, s, run, s', p, q, ForwardDatagram(p, w));
    assert q.pairs == s.pools[p].pairs + [(q.conn.value, v), (q.conn.value, w)];
  }
}
