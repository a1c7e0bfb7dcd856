/** What every interleaving of Sessions keeps. */
module SessionsProof {
  import opened Wrappers
  import opened Protocol
  import opened MultiMapSpec
  import opened Server
  import opened Sessions
  import opened Runs

  // ---- the invariant, clause by clause ----

  ghost predicate NoncesDistinct(s: State) {
    forall c, d :: c in s.past.nonces && d in s.past.nonces && s.past.nonces[c] == s.past.nonces[d] ==> c == d
  }

  /** What a task knows is what happened to it. */
  ghost predicate TaskOk(s: State, c: ConnId, t: Task) {
    && (t.Accepted? || t.Answering? ==> c !in s.past.nonces)
    && (t.LookingUp? ==> c in s.past.nonces && s.past.nonces[c] == t.nonce)
    && (Dealt(t) ==>
          && c in s.past.nonces && s.past.nonces[c] == t.deal.nonce
          && c in s.past.seen && t.deal.digest in s.past.seen[c] && s.past.seen[c][t.deal.digest] == t.deal.cfg)
    && (Authenticated(t) ==> c in s.past.checked && s.past.checked[c] == t.deal)
  }

  /** A handshake that computed a key did so with its own nonce. */
  ghost predicate ChecksOk(s: State) {
    forall c :: c in s.past.checked ==>
      && c in s.past.nonces && s.past.nonces[c] == s.past.checked[c].nonce
      && Challenge(s.past.checked[c]) in s.past.hashed
  }

  ghost predicate TasksOk(s: State) {
    && (forall c :: c in s.tasks ==> TaskOk(s, c, s.tasks[c]))
    && (forall c :: c in s.past.nonces ==> c in s.tasks)
  }

  predicate HoldsAny(t: Task) {
    HoldsWrite(t) || HoldsRead(t)
  }

  /** The write guard excludes everyone else. */
  ghost predicate Exclusive(s: State) {
    forall c, d :: c in s.tasks && d in s.tasks && HoldsWrite(s.tasks[c]) && HoldsAny(s.tasks[d]) ==> c == d
  }

  /** A channel in the table is the one that the handshake of its own connection put there. */
  ghost predicate SessionsOwned(h: HashFn, s: State) {
    forall t :: t in s.sessions ==>
      && t.v.pool in s.tasks && s.tasks[t.v.pool].Established?
      && t == ItemOf(h, t.v.pool, s.tasks[t.v.pool].deal)
  }

  /** Between the removal and the insertion the service has no channel. */
  ghost predicate Cleared(s: State) {
    forall c :: c in s.tasks && (s.tasks[c].Acking? || s.tasks[c].Inserting?) ==>
      !Has1(s.sessions, s.tasks[c].deal.digest)
  }

  /** An established channel is in the table unless someone took it out for the same service,
      and then it is not. */
  ghost predicate KeptOrEvicted(h: HashFn, s: State) {
    && (forall c :: c in s.tasks && s.tasks[c].Established? ==>
          (ItemOf(h, c, s.tasks[c].deal) in s.sessions <==> c !in s.past.evicted))
    && (forall c :: c in s.past.evicted ==>
          && c in s.tasks && s.tasks[c].Established?
          && s.past.evicted[c].digest == s.tasks[c].deal.digest
          && (s.past.evicted[c].ByHandshake? ==> s.past.evicted[c].conn != c))
  }

  /** The table of services has not moved under a live channel since its insertion, except
      in the middle of a reload of that service. */
  ghost predicate Settled(s: State) {
    forall t :: t in s.sessions ==>
      && t.v.pool in s.past.atInsert
      && (s.reload.Idle? || s.reload.digest != t.k1 ==>
            ServiceTable.SameAt(s.services, s.past.atInsert[t.v.pool], t.k1))
  }

  /** A pool serves the service and the key it was made for: what is queued or paired in it are
      data channels that named its key and visitors that came in on its address. */
  ghost predicate PoolOk(h: HashFn, tasks: map<ConnId, Task>, p: ConnId, q: Pool) {
    && p in tasks && tasks[p].Established?
    && q.key == Key(h, tasks[p].deal) && q.service == tasks[p].deal.cfg
    && (forall c :: c in q.queue ==> c in tasks && tasks[c] == Delivered(q.key, p))
    && (q.visitors != [] ==> q.service.serviceType.Tcp?)
    && (forall v :: v in q.visitors ==> v.acceptedOn == q.service.bindAddr)
    && (q.conn.Some? ==>
          q.service.serviceType.Udp? && q.conn.value in tasks && tasks[q.conn.value] == Delivered(q.key, p))
    && (forall x :: x in q.pairs ==>
          x.0 in tasks && tasks[x.0] == Delivered(q.key, p) && x.1.acceptedOn == q.service.bindAddr)
    && (q.service.serviceType.Udp? ==> forall x :: x in q.pairs ==> q.conn == Some(x.0))
  }

  ghost predicate EachPoolOk(h: HashFn, tasks: map<ConnId, Task>, pools: map<ConnId, Pool>) {
    forall p :: p in pools ==> PoolOk(h, tasks, p, pools[p])
  }

  /** Every established channel has its pool, and a sender has the pool of the key it named. */
  ghost predicate PoolsFound(tasks: map<ConnId, Task>, pools: map<ConnId, Pool>) {
    && (forall c :: c in tasks && tasks[c].Established? ==> c in pools)
    && (forall c :: c in tasks && tasks[c].Sending? ==>
          tasks[c].pool in pools && pools[tasks[c].pool].key == tasks[c].key)
  }

  ghost predicate PoolsOk(h: HashFn, s: State) {
    EachPoolOk(h, s.tasks, s.pools) && PoolsFound(s.tasks, s.pools)
  }

  /** The clauses about the table, the guards and the services. */
  ghost predicate TablesOk(h: HashFn, s: State) {
    && Exclusive(s)
    && SessionsOwned(h, s)
    && PartialBijection(s.sessions)
    && Cleared(s)
    && KeptOrEvicted(h, s)
    && Settled(s)
    && s.past.rejected == 0
  }

  ghost predicate Inv(h: HashFn, s: State) {
    NoncesDistinct(s) && ChecksOk(s) && TasksOk(s) && TablesOk(h, s) && PoolsOk(h, s)
  }

  // ---- keys are personal ----

  lemma SameKeySameHandshake(h: HashFn, s: State, c: ConnId, d: ConnId)
    requires NoncesDistinct(s) && ChecksOk(s) && NoCollision(h, s.past.hashed)
    requires c in s.past.checked && d in s.past.checked
    requires Key(h, s.past.checked[c]) == Key(h, s.past.checked[d])
    ensures c == d
  {
    var x, y := s.past.checked[c], s.past.checked[d];
    ConcatDetermines(x.cfg.token.value, x.nonce, y.cfg.token.value, y.nonce);
  }

  lemma SameKeySameTask(h: HashFn, s: State, c: ConnId, d: ConnId)
    requires NoncesDistinct(s) && ChecksOk(s) && TasksOk(s) && NoCollision(h, s.past.hashed)
    requires c in s.tasks && d in s.tasks && Authenticated(s.tasks[c]) && Authenticated(s.tasks[d])
    requires Key(h, s.tasks[c].deal) == Key(h, s.tasks[d].deal)
    ensures c == d
  {
    assert TaskOk(s, c, s.tasks[c]) && TaskOk(s, d, s.tasks[d]);
    SameKeySameHandshake(h, s, c, d);
  }

  // ---- one step: what the tasks know ----

  /** The record of every connection but `c` is as it was. */
  ghost predicate RecordKept(s: State, s': State, c: ConnId) {
    && s'.past.nonces - {c} == s.past.nonces - {c}
    && s'.past.seen - {c} == s.past.seen - {c}
    && s'.past.checked - {c} == s.past.checked - {c}
  }

  lemma TaskMoved(s: State, s': State, c: ConnId, t: Task)
    requires TasksOk(s) && RecordKept(s, s', c) && s'.tasks == s.tasks[c := t] && TaskOk(s', c, t)
    ensures TasksOk(s')
  {
    forall d | d in s'.tasks ensures TaskOk(s', d, s'.tasks[d]) {
      if d != c {
        assert TaskOk(s, d, s.tasks[d]);
        assert d in s.past.nonces ==> d in s.past.nonces - {c};
        assert d in s'.past.nonces ==> d in s'.past.nonces - {c};
        assert d in s.past.seen ==> d in s.past.seen - {c};
        assert d in s.past.checked ==> d in s.past.checked - {c};
      }
    }
    forall d | d in s'.past.nonces ensures d in s'.tasks {
      assert d != c ==> d in s'.past.nonces - {c};
    }
  }

  predicate SameRecord(s: State, s': State) {
    && s'.past.nonces == s.past.nonces && s'.past.seen == s.past.seen
    && s'.past.hashed == s.past.hashed && s'.past.checked == s.past.checked
  }

  predicate Records(a: Action) {
    a.SendNonce? || a.Lookup? || a.CheckAuth?
  }

  lemma NoTaskMoved(s: State, s': State)
    requires TasksOk(s) && s'.tasks == s.tasks && SameRecord(s, s')
    ensures TasksOk(s')
  {
    forall c | c in s'.tasks ensures TaskOk(s', c, s'.tasks[c]) {
      assert TaskOk(s, c, s.tasks[c]);
    }
  }

  predicate OfConnection(a: Action) {
    !(a.AddService? || a.DeleteService? || a.FinishReload? || OfPool(a))
  }

  /** A reload leaves the tasks, the pools and what the handshakes recorded as they are. */
  lemma OtherSame(h: HashFn, s: State, a: Action)
    requires Enabled(s, a) && (a.AddService? || a.DeleteService? || a.FinishReload?)
    ensures var s' := Step(h, s, a); s'.tasks == s.tasks && s'.pools == s.pools && SameRecord(s, s')
  {
  }

  lemma PoolSame(h: HashFn, s: State, a: Action)
    requires Enabled(s, a) && OfPool(a)
    ensures Step(h, s, a) == s.(pools := s.pools[a.p := PoolAfter(s.pools[a.p], a)])
  {
  }

  lemma ConnectionRecordSame(h: HashFn, s: State, a: Action)
    requires Enabled(s, a) && OfConnection(a) && !Records(a)
    ensures SameRecord(s, Step(h, s, a))
  {
  }

  lemma OtherRecordSame(h: HashFn, s: State, a: Action)
    requires Enabled(s, a) && !Records(a)
    ensures SameRecord(s, Step(h, s, a))
  {
    if OfConnection(a) {
      ConnectionRecordSame(h, s, a);
    } else if OfPool(a) {
      PoolSame(h, s, a);
    } else {
      OtherSame(h, s, a);
    }
  }

  lemma OneTaskMoves(h: HashFn, s: State, a: Action)
    requires Enabled(s, a) && OfConnection(a)
    ensures var s' := Step(h, s, a);
            RecordKept(s, s', a.c) && a.c in s'.tasks && s'.tasks == s.tasks[a.c := s'.tasks[a.c]]
  {
    if !Records(a) {
      OtherRecordSame(h, s, a);
    }
  }

  lemma NonceStepOk(h: HashFn, s: State, a: Action)
    requires Enabled(s, a) && a.SendNonce?
    ensures a.c in Step(h, s, a).tasks && TaskOk(Step(h, s, a), a.c, Step(h, s, a).tasks[a.c])
  {
  }

  lemma LookupStepOk(h: HashFn, s: State, a: Action)
    requires Enabled(s, a) && a.Lookup? && TaskOk(s, a.c, s.tasks[a.c])
    ensures a.c in Step(h, s, a).tasks && TaskOk(Step(h, s, a), a.c, Step(h, s, a).tasks[a.c])
  {
  }

  lemma CheckStepOk(h: HashFn, s: State, a: Action)
    requires Enabled(s, a) && a.CheckAuth? && TaskOk(s, a.c, s.tasks[a.c])
    ensures a.c in Step(h, s, a).tasks && TaskOk(Step(h, s, a), a.c, Step(h, s, a).tasks[a.c])
  {
  }

  /** The other actions of a connection move its task on, with what it knows or with less. */
  lemma OtherStepOk(h: HashFn, s: State, a: Action)
    requires Enabled(s, a) && OfConnection(a) && !Records(a)
    requires if a.c in s.tasks then TaskOk(s, a.c, s.tasks[a.c]) else a.c !in s.past.nonces
    ensures a.c in Step(h, s, a).tasks && TaskOk(Step(h, s, a), a.c, Step(h, s, a).tasks[a.c])
  {
    OtherRecordSame(h, s, a);
  }

  lemma TaskStepOk(h: HashFn, s: State, a: Action)
    requires Enabled(s, a) && OfConnection(a)
    requires if a.c in s.tasks then TaskOk(s, a.c, s.tasks[a.c]) else a.c !in s.past.nonces
    ensures a.c in Step(h, s, a).tasks && TaskOk(Step(h, s, a), a.c, Step(h, s, a).tasks[a.c])
  {
    if a.SendNonce? {
      NonceStepOk(h, s, a);
    } else if a.Lookup? {
      LookupStepOk(h, s, a);
    } else if a.CheckAuth? {
      CheckStepOk(h, s, a);
    } else {
      OtherStepOk(h, s, a);
    }
  }

  lemma NoncesStep(h: HashFn, s: State, a: Action)
    requires NoncesDistinct(s) && Enabled(s, a)
    ensures NoncesDistinct(Step(h, s, a))
  {
    if !Records(a) {
      OtherRecordSame(h, s, a);
    }
  }

  lemma ConnectionTasks(h: HashFn, s: State, a: Action)
    requires TasksOk(s) && Enabled(s, a) && OfConnection(a)
    ensures TasksOk(Step(h, s, a))
  {
    assert a.c in s.tasks ==> TaskOk(s, a.c, s.tasks[a.c]);
    OneTaskMoves(h, s, a);
    TaskStepOk(h, s, a);
    TaskMoved(s, Step(h, s, a), a.c, Step(h, s, a).tasks[a.c]);
  }

  lemma OtherTasks(h: HashFn, s: State, a: Action)
    requires TasksOk(s) && Enabled(s, a) && !OfConnection(a)
    ensures TasksOk(Step(h, s, a))
  {
    if OfPool(a) {
      PoolSame(h, s, a);
    } else {
      OtherSame(h, s, a);
    }
    NoTaskMoved(s, Step(h, s, a));
  }

  lemma TasksStep(h: HashFn, s: State, a: Action)
    requires TasksOk(s) && Enabled(s, a)
    ensures TasksOk(Step(h, s, a))
  {
    if OfConnection(a) {
      ConnectionTasks(h, s, a);
    } else {
      OtherTasks(h, s, a);
    }
  }

  // ---- one step: the table, the guards, the services ----

  predicate SameTable(s: State, s': State) {
    && s'.sessions == s.sessions && s'.services == s.services && s'.reload == s.reload
    && s'.past.evicted == s.past.evicted && s'.past.atInsert == s.past.atInsert && s'.past.rejected == s.past.rejected
  }

  /** A move that neither gives nor takes a channel, and respects the guards. */
  ghost predicate Quiet(s: State, c: ConnId, t: Task) {
    && (c in s.tasks ==> !s.tasks[c].Established?)
    && !t.Established?
    && (HoldsWrite(t) ==> (NoWriter(s) && NoReader(s)) || (c in s.tasks && HoldsWrite(s.tasks[c])))
    && (HoldsRead(t) ==> NoWriter(s))
    && (t.Acking? || t.Inserting? ==> !Has1(s.sessions, t.deal.digest))
  }

  lemma QuietTables(h: HashFn, s: State, s': State, c: ConnId, t: Task)
    requires TablesOk(h, s) && Quiet(s, c, t) && s'.tasks == s.tasks[c := t] && SameTable(s, s')
    ensures TablesOk(h, s')
  {
  }

  lemma SameTables(h: HashFn, s: State, s': State)
    requires TablesOk(h, s) && s'.tasks == s.tasks && SameTable(s, s')
    ensures TablesOk(h, s')
  {
  }

  /** The owner of a channel of a service is the connection whose handshake put it there. */
  lemma OwnerIs(h: HashFn, s: State, digest: Digest, c: ConnId)
    requires SessionsOwned(h, s)
    ensures c in Owners(s.sessions, digest) <==>
      && c in s.tasks && s.tasks[c].Established? && s.tasks[c].deal.digest == digest
      && ItemOf(h, c, s.tasks[c].deal) in s.sessions
  {
    if c in Owners(s.sessions, digest) {
      var t :| t in s.sessions && t.k1 == digest && t.v.pool == c;
      assert t == ItemOf(h, c, s.tasks[c].deal);
    } else if c in s.tasks && s.tasks[c].Established? {
      var t := ItemOf(h, c, s.tasks[c].deal);
      assert t in s.sessions && t.k1 == digest ==> t.v.pool in Owners(s.sessions, digest);
    }
  }

  lemma EvictRecord(h: HashFn, s: State, digest: Digest, who: Evictor, c: ConnId)
    requires SessionsOwned(h, s) && KeptOrEvicted(h, s)
    requires c in s.tasks && s.tasks[c].Established?
    ensures var s' := Evict(s, digest, who);
            ItemOf(h, c, s.tasks[c].deal) in s'.sessions <==> c !in s'.past.evicted
  {
    OwnerIs(h, s, digest, c);
    var item := ItemOf(h, c, s.tasks[c].deal);
    assert item in Without1(s.sessions, digest) <==> item in s.sessions && item.k1 != digest;
  }

  lemma EvictRecords(h: HashFn, s: State, digest: Digest, who: Evictor)
    requires SessionsOwned(h, s) && KeptOrEvicted(h, s) && who.digest == digest
    requires who.ByHandshake? ==> who.conn in s.tasks && !s.tasks[who.conn].Established?
    ensures KeptOrEvicted(h, Evict(s, digest, who))
  {
    var s' := Evict(s, digest, who);
    forall c | c in s'.tasks && s'.tasks[c].Established?
      ensures ItemOf(h, c, s'.tasks[c].deal) in s'.sessions <==> c !in s'.past.evicted
    {
      EvictRecord(h, s, digest, who, c);
    }
    forall c | c in s'.past.evicted
      ensures c in s.tasks && s.tasks[c].Established? && s'.past.evicted[c].digest == s.tasks[c].deal.digest
      ensures s'.past.evicted[c].ByHandshake? ==> s'.past.evicted[c].conn != c
    {
      OwnerIs(h, s, digest, c);
    }
  }

  lemma EvictTables(h: HashFn, s: State, digest: Digest, who: Evictor)
    requires TablesOk(h, s) && who.digest == digest
    requires who.ByHandshake? ==> who.conn in s.tasks && !s.tasks[who.conn].Established?
    ensures TablesOk(h, Evict(s, digest, who)) && !Has1(Evict(s, digest, who).sessions, digest)
  {
    EvictRecords(h, s, digest, who);
  }

  lemma ClearOldTables(h: HashFn, s: State, c: ConnId)
    requires TablesOk(h, s) && Enabled(s, ClearOld(c))
    ensures TablesOk(h, Step(h, s, ClearOld(c)))
  {
    var deal := s.tasks[c].deal;
    var s1 := Evict(s, deal.digest, ByHandshake(c, deal.digest));
    EvictTables(h, s, deal.digest, ByHandshake(c, deal.digest));
    QuietTables(h, s1, Step(h, s, ClearOld(c)), c, Acking(deal));
  }

  lemma FinishReloadTables(h: HashFn, s: State)
    requires TablesOk(h, s) && Enabled(s, FinishReload)
    ensures TablesOk(h, Step(h, s, FinishReload))
  {
    var s1 := Evict(s, s.reload.digest, ByReload(s.reload.digest));
    EvictTables(h, s, s.reload.digest, ByReload(s.reload.digest));
    assert forall t :: t in s1.sessions ==> t.k1 != s.reload.digest;
  }

  lemma ServicesChangeTables(h: HashFn, s: State, s': State)
    requires TablesOk(h, s) && s.reload.Idle? && !s'.reload.Idle?
    requires forall d :: d != s'.reload.digest ==> ServiceTable.SameAt(s'.services, s.services, d)
    requires s'.tasks == s.tasks && s'.sessions == s.sessions && s'.past == s.past
    ensures TablesOk(h, s')
  {
    forall t | t in s'.sessions && t.k1 != s'.reload.digest
      ensures ServiceTable.SameAt(s'.services, s'.past.atInsert[t.v.pool], t.k1)
    {
      assert ServiceTable.SameAt(s'.services, s.services, t.k1);
    }
  }

  /** The insertion whose result the code throws away is accepted. */
  lemma InsertIsAccepted(h: HashFn, s: State, c: ConnId)
    requires NoncesDistinct(s) && ChecksOk(s) && TasksOk(s) && TablesOk(h, s) && NoCollision(h, s.past.hashed)
    requires Enabled(s, InsertNew(c))
    ensures var item := ItemOf(h, c, s.tasks[c].deal); Accepts(s.sessions, item.k1, item.k2)
  {
    var item := ItemOf(h, c, s.tasks[c].deal);
    if Has2(s.sessions, item.k2) {
      var t :| t in s.sessions && t.k2 == item.k2;
      SameKeySameTask(h, s, c, t.v.pool);
      assert false;
    }
  }

  lemma InsertTables(h: HashFn, s: State, s': State, c: ConnId, deal: Deal)
    requires TablesOk(h, s) && c in s.tasks && s.tasks[c] == Inserting(deal)
    requires Accepts(s.sessions, deal.digest, Key(h, deal))
    requires s'.tasks == s.tasks[c := Established(deal)]
    requires s'.sessions == MultiMapSpec.Insert(s.sessions, ItemOf(h, c, deal))
    requires s'.services == s.services && s'.reload == s.reload
    requires s'.past.evicted == s.past.evicted && s'.past.rejected == s.past.rejected
    requires s'.past.atInsert == s.past.atInsert[c := s.services]
    ensures TablesOk(h, s')
  {
    var item := ItemOf(h, c, deal);
    StepKeepsBijection(s.sessions, InsertOp(item.k1, item.k2, item.v));
    InsertOwned(h, s, s', c, deal);
    assert forall d :: d in s'.tasks ==> !HoldsWrite(s'.tasks[d]);
    assert forall t :: t in s.sessions ==> t.v.pool != c;
  }

  lemma InsertOwned(h: HashFn, s: State, s': State, c: ConnId, deal: Deal)
    requires SessionsOwned(h, s) && KeptOrEvicted(h, s) && c in s.tasks && s.tasks[c] == Inserting(deal)
    requires s'.tasks == s.tasks[c := Established(deal)]
    requires s'.sessions == s.sessions + {ItemOf(h, c, deal)} && s'.past.evicted == s.past.evicted
    ensures SessionsOwned(h, s') && KeptOrEvicted(h, s')
  {
  }

  lemma QuietMove(h: HashFn, s: State, a: Action)
    requires Cleared(s) && Enabled(s, a) && OfConnection(a) && !a.ClearOld? && !a.InsertNew?
    requires a.c in Step(h, s, a).tasks
    ensures Quiet(s, a.c, Step(h, s, a).tasks[a.c])
  {
  }

  lemma QuietStep(h: HashFn, s: State, a: Action)
    requires Cleared(s) && Enabled(s, a) && OfConnection(a) && !a.ClearOld? && !a.InsertNew?
    ensures var s' := Step(h, s, a);
            && a.c in s'.tasks && s'.tasks == s.tasks[a.c := s'.tasks[a.c]]
            && Quiet(s, a.c, s'.tasks[a.c]) && SameTable(s, s')
  {
    OneTaskMoves(h, s, a);
    QuietMove(h, s, a);
  }

  lemma QuietStepTables(h: HashFn, s: State, a: Action)
    requires TablesOk(h, s) && Enabled(s, a) && OfConnection(a) && !a.ClearOld? && !a.InsertNew?
    ensures TablesOk(h, Step(h, s, a))
  {
    QuietStep(h, s, a);
    QuietTables(h, s, Step(h, s, a), a.c, Step(h, s, a).tasks[a.c]);
  }

  lemma ReloadStepTables(h: HashFn, s: State, a: Action)
    requires TablesOk(h, s) && Enabled(s, a) && (a.AddService? || a.DeleteService?)
    ensures TablesOk(h, Step(h, s, a))
  {
    ServicesChangeTables(h, s, Step(h, s, a));
  }

  lemma PoolStepTables(h: HashFn, s: State, a: Action)
    requires TablesOk(h, s) && Enabled(s, a) && OfPool(a)
    ensures TablesOk(h, Step(h, s, a))
  {
    PoolSame(h, s, a);
    SameTables(h, s, Step(h, s, a));
  }

  lemma InsertStepTables(h: HashFn, s: State, c: ConnId)
    requires NoncesDistinct(s) && ChecksOk(s) && TasksOk(s) && TablesOk(h, s) && NoCollision(h, s.past.hashed)
    requires Enabled(s, InsertNew(c))
    ensures TablesOk(h, Step(h, s, InsertNew(c)))
  {
    InsertIsAccepted(h, s, c);
    InsertTables(h, s, Step(h, s, InsertNew(c)), c, s.tasks[c].deal);
  }

  lemma TablesStep(h: HashFn, s: State, a: Action)
    requires NoncesDistinct(s) && ChecksOk(s) && TasksOk(s) && TablesOk(h, s)
    requires Enabled(s, a) && NoCollision(h, s.past.hashed)
    ensures TablesOk(h, Step(h, s, a))
  {
    if a.ClearOld? {
      ClearOldTables(h, s, a.c);
    } else if a.InsertNew? {
      InsertStepTables(h, s, a.c);
    } else if OfConnection(a) {
      QuietStepTables(h, s, a);
    } else if a.FinishReload? {
      FinishReloadTables(h, s);
    } else if OfPool(a) {
      PoolStepTables(h, s, a);
    } else {
      ReloadStepTables(h, s, a);
    }
  }

  // ---- one step: the pools ----

  /** A pool does not notice a move of a task that is neither established nor delivered. */
  lemma FramePool(h: HashFn, tasks: map<ConnId, Task>, c: ConnId, t: Task, p: ConnId, q: Pool)
    requires PoolOk(h, tasks, p, q)
    requires c in tasks ==> !tasks[c].Established? && !tasks[c].Delivered?
    ensures PoolOk(h, tasks[c := t], p, q)
  {
  }

  lemma FramePools(h: HashFn, tasks: map<ConnId, Task>, c: ConnId, t: Task, pools: map<ConnId, Pool>)
    requires EachPoolOk(h, tasks, pools)
    requires c in tasks ==> !tasks[c].Established? && !tasks[c].Delivered?
    ensures EachPoolOk(h, tasks[c := t], pools)
  {
    forall p | p in pools ensures PoolOk(h, tasks[c := t], p, pools[p]) {
      FramePool(h, tasks, c, t, p, pools[p]);
    }
  }

  /** A move that makes no channel, and finds a session only where there is one. */
  predicate PoolQuiet(s: State, c: ConnId, t: Task) {
    && (c in s.tasks ==> !s.tasks[c].Established? && !s.tasks[c].Delivered?)
    && !t.Established?
    && (t.Sending? ==> t.pool in s.pools && s.pools[t.pool].key == t.key)
  }

  lemma QuietFound(s: State, c: ConnId, t: Task)
    requires PoolsFound(s.tasks, s.pools) && PoolQuiet(s, c, t)
    ensures PoolsFound(s.tasks[c := t], s.pools)
  {
  }

  lemma QuietPools(h: HashFn, s: State, s': State, c: ConnId, t: Task)
    requires PoolsOk(h, s) && PoolQuiet(s, c, t) && s'.tasks == s.tasks[c := t] && s'.pools == s.pools
    ensures PoolsOk(h, s')
  {
    FramePools(h, s.tasks, c, t, s.pools);
    QuietFound(s, c, t);
  }

  function NewPool(h: HashFn, deal: Deal): Pool {
    Pool(Key(h, deal), deal.cfg, [], [], None, [], false)
  }

  lemma NewPoolOk(h: HashFn, tasks: map<ConnId, Task>, c: ConnId, deal: Deal)
    requires c in tasks && tasks[c] == Established(deal)
    ensures PoolOk(h, tasks, c, NewPool(h, deal))
  {
  }

  lemma InsertFound(h: HashFn, tasks: map<ConnId, Task>, pools: map<ConnId, Pool>, c: ConnId, deal: Deal)
    requires PoolsFound(tasks, pools) && c !in pools
    ensures PoolsFound(tasks[c := Established(deal)], pools[c := NewPool(h, deal)])
  {
  }

  lemma InsertPools(h: HashFn, s: State, s': State, c: ConnId, deal: Deal)
    requires PoolsOk(h, s) && c in s.tasks && s.tasks[c].Inserting?
    requires s'.tasks == s.tasks[c := Established(deal)] && s'.pools == s.pools[c := NewPool(h, deal)]
    ensures PoolsOk(h, s')
  {
    assert c in s.pools ==> PoolOk(h, s.tasks, c, s.pools[c]);
    FramePools(h, s.tasks, c, Established(deal), s.pools);
    NewPoolOk(h, s'.tasks, c, deal);
    InsertFound(h, s.tasks, s.pools, c, deal);
  }

  lemma ChangedFound(tasks: map<ConnId, Task>, pools: map<ConnId, Pool>, p: ConnId, q: Pool)
    requires PoolsFound(tasks, pools) && p in pools && q.key == pools[p].key
    ensures PoolsFound(tasks, pools[p := q])
  {
  }

  lemma PoolChanged(h: HashFn, s: State, s': State, p: ConnId, q: Pool)
    requires PoolsOk(h, s) && p in s.pools && PoolOk(h, s.tasks, p, q) && q.key == s.pools[p].key
    requires s'.tasks == s.tasks && s'.pools == s.pools[p := q]
    ensures PoolsOk(h, s')
  {
    ChangedFound(s.tasks, s.pools, p, q);
  }

  /** A session that a data channel finds feeds a pool with the key that the channel named. */
  lemma FoundSession(h: HashFn, s: State, key: Digest)
    requires SessionsOwned(h, s) && PoolsOk(h, s) && Lookup2(s.sessions, key).Some?
    ensures var p := Lookup2(s.sessions, key).value.pool; p in s.pools && s.pools[p].key == key
  {
    var t :| t in s.sessions && t.k2 == key && Lookup2(s.sessions, key) == Some(t.v);
    assert t.v.pool in s.pools && PoolOk(h, s.tasks, t.v.pool, s.pools[t.v.pool]);
  }

  lemma FindSessionPools(h: HashFn, s: State, c: ConnId)
    requires PoolsOk(h, s) && SessionsOwned(h, s) && Enabled(s, FindSession(c))
    ensures PoolsOk(h, Step(h, s, FindSession(c)))
  {
    var s' := Step(h, s, FindSession(c));
    if Lookup2(s.sessions, s.tasks[c].key).Some? {
      FoundSession(h, s, s.tasks[c].key);
    }
    QuietPools(h, s, s', c, s'.tasks[c]);
  }

  lemma DeliverPools(h: HashFn, s: State, c: ConnId)
    requires PoolsOk(h, s) && Enabled(s, Deliver(c))
    ensures PoolsOk(h, Step(h, s, Deliver(c)))
  {
    var Sending(key, p) := s.tasks[c];
    var s1 := Move(s, c, Delivered(key, p));
    QuietPools(h, s, s1, c, Delivered(key, p));
    assert PoolOk(h, s1.tasks, p, s1.pools[p]);
    PoolChanged(h, s1, Step(h, s, Deliver(c)), p, s1.pools[p].(queue := s1.pools[p].queue + [c]));
  }

  lemma PoolGoesOn(h: HashFn, tasks: map<ConnId, Task>, p: ConnId, q: Pool, a: Action)
    requires PoolOk(h, tasks, p, q) && OfPool(a) && PoolEnabled(q, a)
    ensures PoolOk(h, tasks, p, PoolAfter(q, a))
  {
    if a.Pair? {
      assert q.queue[0] in q.queue && q.visitors[0] in q.visitors;
    } else if a.TakeConn? {
      assert q.queue[0] in q.queue;
    }
  }

  lemma PoolActionPools(h: HashFn, s: State, a: Action)
    requires PoolsOk(h, s) && Enabled(s, a) && OfPool(a)
    ensures PoolsOk(h, Step(h, s, a))
  {
    PoolSame(h, s, a);
    PoolGoesOn(h, s.tasks, a.p, s.pools[a.p], a);
    PoolChanged(h, s, Step(h, s, a), a.p, PoolAfter(s.pools[a.p], a));
  }

  predicate OnlyMoves(a: Action) {
    OfConnection(a) && !a.InsertNew? && !a.Deliver? && !a.FindSession?
  }

  lemma OnlyMovesPools(h: HashFn, s: State, a: Action)
    requires PoolsOk(h, s) && Enabled(s, a) && OnlyMoves(a)
    ensures PoolsOk(h, Step(h, s, a))
  {
    OneTaskMoves(h, s, a);
    QuietPools(h, s, Step(h, s, a), a.c, Step(h, s, a).tasks[a.c]);
  }

  lemma InsertStepPools(h: HashFn, s: State, a: Action)
    requires PoolsOk(h, s) && Enabled(s, a) && a.InsertNew?
    ensures PoolsOk(h, Step(h, s, a))
  {
    InsertPools(h, s, Step(h, s, a), a.c, s.tasks[a.c].deal);
  }

  lemma PoolsStep(h: HashFn, s: State, a: Action)
    requires PoolsOk(h, s) && SessionsOwned(h, s) && Enabled(s, a)
    ensures PoolsOk(h, Step(h, s, a))
  {
    if OnlyMoves(a) {
      OnlyMovesPools(h, s, a);
    } else if a.InsertNew? {
      InsertStepPools(h, s, a);
    } else if a.Deliver? {
      DeliverPools(h, s, a.c);
    } else if a.FindSession? {
      FindSessionPools(h, s, a.c);
    } else if OfPool(a) {
      PoolActionPools(h, s, a);
    } else {
      OtherSame(h, s, a);
    }
  }

  // ---- every run ----

  lemma ChecksStep(h: HashFn, s: State, a: Action)
    requires ChecksOk(s) && TasksOk(s) && Enabled(s, a)
    ensures ChecksOk(Step(h, s, a))
  {
    if a.SendNonce? {
      NonceKeepsChecks(h, s, a);
    } else if a.CheckAuth? {
      assert TaskOk(s, a.c, s.tasks[a.c]);
      CheckKeepsChecks(h, s, a);
    } else if a.Lookup? {
      LookupKeepsChecks(h, s, a);
    } else {
      OtherRecordSame(h, s, a);
    }
  }

  lemma NonceKeepsChecks(h: HashFn, s: State, a: Action)
    requires ChecksOk(s) && TasksOk(s) && Enabled(s, a) && a.SendNonce?
    ensures ChecksOk(Step(h, s, a))
  {
    assert TaskOk(s, a.c, s.tasks[a.c]);
  }

  lemma CheckKeepsChecks(h: HashFn, s: State, a: Action)
    requires ChecksOk(s) && Enabled(s, a) && a.CheckAuth? && TaskOk(s, a.c, s.tasks[a.c])
    ensures ChecksOk(Step(h, s, a))
  {
  }

  lemma LookupKeepsChecks(h: HashFn, s: State, a: Action)
    requires ChecksOk(s) && Enabled(s, a) && a.Lookup?
    ensures ChecksOk(Step(h, s, a))
  {
  }

  lemma StepKeepsInv(h: HashFn, s: State, a: Action)
    requires Inv(h, s) && Enabled(s, a) && NoCollision(h, s.past.hashed)
    ensures Inv(h, Step(h, s, a))
  {
    NoncesStep(h, s, a);
    ChecksStep(h, s, a);
    TasksStep(h, s, a);
    TablesStep(h, s, a);
    PoolsStep(h, s, a);
  }

  lemma StepHashes(h: HashFn, s: State, a: Action)
    requires Enabled(s, a)
    ensures s.past.hashed <= Step(h, s, a).past.hashed
    ensures NoCollision(h, Step(h, s, a).past.hashed) ==> NoCollision(h, s.past.hashed)
  {
    if !a.CheckAuth? {
      assert Step(h, s, a).past.hashed == s.past.hashed;
    }
  }

  lemma HashedGrows(h: HashFn, s: State, run: seq<Action>)
    requires IsRun(Moves(h), s, run)
    ensures s.past.hashed <= RunFrom(Moves(h), s, run).past.hashed
  {
    forall x, a | Enabled(x, a) ensures x.past.hashed <= Step(h, x, a).past.hashed {
      StepHashes(h, x, a);
    }
    RunKeeps(Moves(h), (x: State) => s.past.hashed <= x.past.hashed, s, run);
  }

  /** The invariant, as long as no two challenges collide. */
  ghost predicate InvSoFar(h: HashFn, s: State) {
    NoCollision(h, s.past.hashed) ==> Inv(h, s)
  }

  lemma RunKeepsInv(h: HashFn, s: State, run: seq<Action>)
    requires Inv(h, s) && IsRun(Moves(h), s, run) && NoCollision(h, RunFrom(Moves(h), s, run).past.hashed)
    ensures Inv(h, RunFrom(Moves(h), s, run))
  {
    forall s, a | InvSoFar(h, s) && Enabled(s, a) ensures InvSoFar(h, Step(h, s, a)) {
      StepHashes(h, s, a);
      if NoCollision(h, Step(h, s, a).past.hashed) {
        StepKeepsInv(h, s, a);
      }
    }
    RunKeeps(Moves(h), s => InvSoFar(h, s), s, run);
  }

  /** `s` is where a run of a fresh server ends, and SHA-256 met no collision on the way. */
  ghost predicate Reached(h: HashFn, services: map<Digest, Servable>, run: seq<Action>, s: State) {
    IsRun(Moves(h), Init(services), run) && s == RunFrom(Moves(h), Init(services), run) && NoCollision(h, s.past.hashed)
  }

  lemma ReachedInv(h: HashFn, services: map<Digest, Servable>, run: seq<Action>, s: State)
    requires Reached(h, services, run, s)
    ensures Inv(h, s)
  {
    RunKeepsInv(h, Init(services), run);
  }

  /** In every run, two handshakes that compute a session key, whether their auth is right or
      wrong, never compute the same one. */
  lemma KeysArePersonal(h: HashFn, services: map<Digest, Servable>, run: seq<Action>, s: State, c: ConnId, d: ConnId)
    requires Reached(h, services, run, s)
    requires c in s.past.checked && d in s.past.checked && c != d
    ensures Key(h, s.past.checked[c]) != Key(h, s.past.checked[d])
  {
    ReachedInv(h, services, run, s);
    if Key(h, s.past.checked[c]) == Key(h, s.past.checked[d]) {
      SameKeySameHandshake(h, s, c, d);
    }
  }

  /** In every run the discarded result of the session insert was `Ok` each time, and the
      session table is a partial bijection between services and session keys. */
  lemma EveryInsertIsOk(h: HashFn, services: map<Digest, Servable>, run: seq<Action>, s: State)
    requires Reached(h, services, run, s)
    ensures s.past.rejected == 0 && PartialBijection(s.sessions)
    ensures forall c :: Enabled(s, InsertNew(c)) ==>
              Accepts(s.sessions, s.tasks[c].deal.digest, Key(h, s.tasks[c].deal))
  {
    ReachedInv(h, services, run, s);
    forall c | Enabled(s, InsertNew(c)) ensures Accepts(s.sessions, s.tasks[c].deal.digest, Key(h, s.tasks[c].deal)) {
      InsertIsAccepted(h, s, c);
    }
  }

  /** Established means routable. Once the ack of a handshake has gone out, a data channel
      that names its session key, whenever it gets to look, finds exactly that handshake's
      handle; unless a handshake of another connection or a hot reload, for the same service,
      has removed the channel, and then it is dropped. What becomes of the send into the
      handle's queue is DeliveryIsToLiveHandle in SessionsDelivery. */
  lemma EstablishedIsRoutable(h: HashFn, services: map<Digest, Servable>, run: seq<Action>, s: State,
                              c: ConnId, data: ConnId)
    requires Reached(h, services, run, s)
    requires c in s.tasks && (s.tasks[c].Inserting? || s.tasks[c].Established?)
    requires Enabled(s, FindSession(data)) && s.tasks[data].key == Key(h, s.tasks[c].deal)
    ensures Step(h, s, FindSession(data)).tasks[data]
         == if c in s.past.evicted then Closed else Sending(Key(h, s.tasks[c].deal), c)
    ensures c in s.past.evicted ==>
      && s.past.evicted[c].digest == s.tasks[c].deal.digest
      && (s.past.evicted[c].ByHandshake? ==> s.past.evicted[c].conn != c)
  {
    ReachedInv(h, services, run, s);
    var item := ItemOf(h, c, s.tasks[c].deal);
    assert s.tasks[c].Established?;
    if c in s.past.evicted {
      if Has2(s.sessions, item.k2) {
        var t :| t in s.sessions && t.k2 == item.k2;
        SameKeySameTask(h, s, c, t.v.pool);
        assert false;
      }
    } else {
      LookupFinds(s.sessions, item);
    }
  }

  /** Service isolation, end to end. A data channel is joined only with a visitor that came in
      on the address of the service whose handshake made the session key that its hello named,
      and only one handshake ever made that key; it does not matter whether the handle is
      still in the table. The datagrams of a UDP service all go to one such data channel. */
  lemma PairedWithinService(h: HashFn, services: map<Digest, Servable>, run: seq<Action>, s: State,
                            p: ConnId, pair: (ConnId, Visitor), c: ConnId)
    requires Reached(h, services, run, s)
    requires p in s.pools && pair in s.pools[p].pairs
    ensures pair.0 in s.tasks && s.tasks[pair.0].Delivered?
    ensures p in s.tasks && s.tasks[p].Established? && Key(h, s.tasks[p].deal) == s.tasks[pair.0].key
    ensures s.pools[p].service == s.tasks[p].deal.cfg
    ensures s.tasks[p].deal.cfg.serviceType.Udp? ==> s.pools[p].conn == Some(pair.0)
    ensures c in s.tasks && Authenticated(s.tasks[c]) && Key(h, s.tasks[c].deal) == s.tasks[pair.0].key ==>
      c == p && pair.1.acceptedOn == s.tasks[c].deal.cfg.bindAddr
  {
    ReachedInv(h, services, run, s);
    assert PoolOk(h, s.tasks, p, s.pools[p]);
    if c in s.tasks && Authenticated(s.tasks[c]) && Key(h, s.tasks[c].deal) == s.tasks[pair.0].key {
      SameKeySameTask(h, s, c, p);
    }
  }

  /** Provenance: the configuration of a live channel is the one that the services table held
      for its digest at the lookup of its own handshake. */
  lemma ConfigIsFromLookup(h: HashFn, services: map<Digest, Servable>, run: seq<Action>, s: State, t: Session)
    requires Reached(h, services, run, s) && t in s.sessions
    ensures var c := t.v.pool;
            c in s.past.seen && t.k1 in s.past.seen[c] && s.past.seen[c][t.k1] == t.v.service
  {
    ReachedInv(h, services, run, s);
    assert TaskOk(s, t.v.pool, s.tasks[t.v.pool]);
  }

  ghost predicate Holds(services: map<Digest, Servable>, t: Session) {
    t.k1 in services && services[t.k1] == t.v.service
  }

  /** When no reload of its service is under way, a live channel agrees with the services table
      exactly when the table agreed with it at its insertion. That is the check which the code does not
      make between taking the write guard and inserting. */
  lemma ChannelAgreesIffItDidAtInsert(h: HashFn, services: map<Digest, Servable>, run: seq<Action>, s: State,
                                      t: Session)
    requires Reached(h, services, run, s) && t in s.sessions && (s.reload.Idle? || s.reload.digest != t.k1)
    ensures t.v.pool in s.past.atInsert
    ensures Holds(s.services, t) <==> Holds(s.past.atInsert[t.v.pool], t)
  {
    ReachedInv(h, services, run, s);
  }
}
