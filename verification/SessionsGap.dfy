/** "Every live channel matches the services table" is false: a run that shows it. */
module SessionsGap {
  import opened Protocol
  import opened Config
  import opened MultiMapSpec
  import opened Server
  import opened Sessions
  import opened SessionsProof
  import opened Runs

  lemma UntilLookup(h: HashFn, cfg: Servable, n: Digest) returns (run: seq<Action>, s: State)
    ensures Leads(Moves(h), Init(map[h(cfg.name) := cfg]), run, s)
    ensures s == Init(map[h(cfg.name) := cfg]).(
              tasks := map[0 := AwaitingAuth(Deal(h(cfg.name), n, cfg))],
              past := History(map[0 := n], {}, map[], map[0 := s.services], map[], map[], 0))
  {
    var d := h(cfg.name);
    var s0 := Init(map[d := cfg]);
    run := [];
    Then(Moves(h), s0, run, s0, Connect(0));
    var s1 := Step(h, s0, Connect(0));
    run := run + [Connect(0)];
    Then(Moves(h), s0, run, s1, ReadControlHello(0, d));
    var s2 := Step(h, s1, ReadControlHello(0, d));
    run := run + [ReadControlHello(0, d)];
    Then(Moves(h), s0, run, s2, SendNonce(0, n));
    var s3 := Step(h, s2, SendNonce(0, n));
    run := run + [SendNonce(0, n)];
    Then(Moves(h), s0, run, s3, Lookup(0));
    s := Step(h, s3, Lookup(0));
    run := run + [Lookup(0)];
    assert s.tasks == map[0 := AwaitingAuth(Deal(d, n, cfg))];
  }

  lemma UntilChecked(h: HashFn, s0: State, run0: seq<Action>, s: State, deal: Deal)
    returns (run: seq<Action>, s': State)
    requires Leads(Moves(h), s0, run0, s) && s.tasks == map[0 := AwaitingAuth(deal)]
    ensures Leads(Moves(h), s0, run, s') && s'.tasks == map[0 := Waiting(deal)] && s'.sessions == s.sessions
    ensures s'.services == s.services && s'.reload == s.reload && s'.past.hashed == s.past.hashed + {Challenge(deal)}
  {
    var auth := CheckAuth(0, Key(h, deal));
    Then(Moves(h), s0, run0, s, auth);
    run, s' := run0 + [auth], Step(h, s, auth);
  }

  lemma UntilGuarded(h: HashFn, s0: State, run0: seq<Action>, s: State, deal: Deal)
    returns (run: seq<Action>, s': State)
    requires Leads(Moves(h), s0, run0, s) && s.tasks == map[0 := Waiting(deal)]
    ensures Leads(Moves(h), s0, run, s') && s'.tasks == map[0 := Clearing(deal)] && s'.sessions == s.sessions
    ensures s'.services == s.services && s'.reload == s.reload && s'.past.hashed == s.past.hashed
  {
    Then(Moves(h), s0, run0, s, TakeWriteGuard(0));
    run, s' := run0 + [TakeWriteGuard(0)], Step(h, s, TakeWriteGuard(0));
  }

  lemma UntilCleared(h: HashFn, s0: State, run0: seq<Action>, s: State, deal: Deal)
    returns (run: seq<Action>, s': State)
    requires Leads(Moves(h), s0, run0, s) && s.tasks == map[0 := Clearing(deal)] && s.sessions == {}
    ensures Leads(Moves(h), s0, run, s') && s'.tasks == map[0 := Acking(deal)] && s'.sessions == {}
    ensures s'.services == s.services && s'.reload == s.reload && s'.past.hashed == s.past.hashed
  {
    Then(Moves(h), s0, run0, s, ClearOld(0));
    run, s' := run0 + [ClearOld(0)], Step(h, s, ClearOld(0));
  }

  lemma UntilInserted(h: HashFn, s0: State, run0: seq<Action>, s: State, deal: Deal)
    returns (run: seq<Action>, s': State)
    requires Leads(Moves(h), s0, run0, s) && s.tasks == map[0 := Acking(deal)] && s.sessions == {}
    ensures Leads(Moves(h), s0, run, s')
    ensures s'.services == s.services && s'.reload == s.reload && s'.sessions == {ItemOf(h, 0, deal)}
    ensures s'.past.hashed == s.past.hashed
  {
    Then(Moves(h), s0, run0, s, SendAck(0));
    var s1 := Step(h, s, SendAck(0));
    run := run0 + [SendAck(0)];
    Then(Moves(h), s0, run, s1, InsertNew(0));
    s' := Step(h, s1, InsertNew(0));
    run := run + [InsertNew(0)];
  }

  lemma UntilDeleting(h: HashFn, s0: State, run0: seq<Action>, s: State, name: Text)
    returns (run: seq<Action>, s': State)
    requires Leads(Moves(h), s0, run0, s) && s.reload.Idle? && ServicesGuardFree(s)
    ensures Leads(Moves(h), s0, run, s')
    ensures s' == s.(services := s.services - {h(name)}, reload := Deleting(h(name)))
  {
    Then(Moves(h), s0, run0, s, DeleteService(name));
    run, s' := run0 + [DeleteService(name)], Step(h, s, DeleteService(name));
  }

  lemma UntilReloaded(h: HashFn, s0: State, run0: seq<Action>, s: State)
    returns (run: seq<Action>, s': State)
    requires Leads(Moves(h), s0, run0, s) && !s.reload.Idle? && NoWriter(s) && NoReader(s) && s.sessions == {}
    ensures Leads(Moves(h), s0, run, s') && s'.tasks == s.tasks && s'.sessions == {} && s'.reload.Idle?
    ensures s'.services == s.services && s'.past.hashed == s.past.hashed
  {
    Then(Moves(h), s0, run0, s, FinishReload);
    run, s' := run0 + [FinishReload], Step(h, s, FinishReload);
  }

  /** The service is looked up, deleted by a hot reload that runs to its end, and only then
      authenticated and inserted: the channel of a service that is not configured is live and
      routable, and no reload is left to remove it. */
  lemma DeletedServiceComesAlive(h: HashFn, cfg: Servable, n: Digest) returns (run: seq<Action>, s: State)
    ensures Reached(h, map[h(cfg.name) := cfg], run, s)
    ensures s.reload.Idle? && s.services == map[]
    ensures s.sessions == {Item(h(cfg.name), Key(h, Deal(h(cfg.name), n, cfg)), Handle(cfg, 0))}
  {
    var s0 := Init(map[h(cfg.name) := cfg]);
    var s1;
    run, s1 := UntilLookup(h, cfg, n);
    var deal := Deal(h(cfg.name), n, cfg);
    var s2, s3, s4, s5, s6;
    run, s2 := UntilDeleting(h, s0, run, s1, cfg.name);
    run, s3 := UntilReloaded(h, s0, run, s2);
    run, s4 := UntilChecked(h, s0, run, s3, deal);
    run, s5 := UntilGuarded(h, s0, run, s4, deal);
    run, s6 := UntilCleared(h, s0, run, s5, deal);
    run, s := UntilInserted(h, s0, run, s6, deal);
  }
}
