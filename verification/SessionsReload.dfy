/** Hot reload among the handshakes of Sessions: what a batch of events can take away, and that
    undisturbed the steps of the machine are the methods of the Server class. */
module SessionsReload {
  import opened Wrappers
  import opened Protocol
  import opened Config
  import opened ServiceTable
  import opened ConfigWatcher
  import opened MultiMapSpec
  import opened Server
  import opened Sessions
  import opened SessionsProof
  import opened Runs

  // ---- what a run of reloads takes away ----

  /** The action starts a reload of this service. */
  ghost predicate Reloads(h: HashFn, a: Action, digest: Digest) {
    (a.AddService? && h(a.cfg.name) == digest) || (a.DeleteService? && h(a.name) == digest)
  }

  ghost predicate IsEstablished(s: State, c: ConnId, deal: Deal) {
    c in s.tasks && s.tasks[c] == Established(deal)
  }

  lemma StaysEstablished(h: HashFn, s: State, a: Action, c: ConnId, deal: Deal)
    requires IsEstablished(s, c, deal) && Enabled(s, a)
    ensures IsEstablished(Step(h, s, a), c, deal)
  {
    if OfConnection(a) {
      OneTaskMoves(h, s, a);
      assert a.c != c;
    }
  }

  /** No reload has taken the channel of `c`, and none is about to. */
  ghost predicate Spared(s: State, c: ConnId, digest: Digest) {
    && (s.reload.Idle? || s.reload.digest != digest)
    && (c in s.past.evicted ==> s.past.evicted[c].ByHandshake?)
  }

  lemma StepSpares(h: HashFn, s: State, a: Action, c: ConnId, deal: Deal)
    requires SessionsOwned(h, s) && IsEstablished(s, c, deal) && Spared(s, c, deal.digest)
    requires Enabled(s, a) && !Reloads(h, a, deal.digest)
    ensures Spared(Step(h, s, a), c, deal.digest)
  {
    if a.FinishReload? {
      OwnerIs(h, s, s.reload.digest, c);
    } else if a.ClearOld? {
    } else {
      assert Step(h, s, a).past.evicted == s.past.evicted;
    }
  }

  ghost predicate SparedSoFar(h: HashFn, s: State, c: ConnId, deal: Deal) {
    NoCollision(h, s.past.hashed) ==> Inv(h, s) && IsEstablished(s, c, deal) && Spared(s, c, deal.digest)
  }

  lemma StepSparesSoFar(h: HashFn, s: State, a: Action, c: ConnId, deal: Deal)
    requires SparedSoFar(h, s, c, deal) && Enabled(s, a) && !Reloads(h, a, deal.digest)
    ensures SparedSoFar(h, Step(h, s, a), c, deal)
  {
    StepHashes(h, s, a);
    if NoCollision(h, Step(h, s, a).past.hashed) {
      StepKeepsInv(h, s, a);
      StaysEstablished(h, s, a, c, deal);
      StepSpares(h, s, a, c, deal);
    }
  }

  lemma RunSparesSoFar(h: HashFn, s: State, run: seq<Action>, c: ConnId, deal: Deal)
    requires SparedSoFar(h, s, c, deal) && IsRun(Moves(h), s, run)
    requires forall a :: a in run ==> !Reloads(h, a, deal.digest)
    ensures SparedSoFar(h, RunFrom(Moves(h), s, run), c, deal)
  {
    forall s, a | SparedSoFar(h, s, c, deal) && Enabled(s, a) && !Reloads(h, a, deal.digest)
      ensures SparedSoFar(h, Step(h, s, a), c, deal)
    {
      StepSparesSoFar(h, s, a, c, deal);
    }
    RunOfKeeps(Moves(h), s => SparedSoFar(h, s, c, deal), (a: Action) => !Reloads(h, a, deal.digest), s, run);
  }

  /** A live channel survives any run that does not reload its own service, whatever other
      services are reloaded in it and how often; unless a handshake of another connection for
      that service has replaced it. */
  lemma OtherReloadsSpareIt(h: HashFn, s: State, run: seq<Action>, c: ConnId, deal: Deal)
    requires Inv(h, s) && IsRun(Moves(h), s, run) && NoCollision(h, RunFrom(Moves(h), s, run).past.hashed)
    requires IsEstablished(s, c, deal) && ItemOf(h, c, deal) in s.sessions
    requires s.reload.Idle? || s.reload.digest != deal.digest
    requires forall a :: a in run ==> !Reloads(h, a, deal.digest)
    ensures var s' := RunFrom(Moves(h), s, run);
            || ItemOf(h, c, deal) in s'.sessions
            || (c in s'.past.evicted && s'.past.evicted[c].ByHandshake? && s'.past.evicted[c].conn != c)
  {
    RunSparesSoFar(h, s, run, c, deal);
  }

  /** The channel of `c` is gone, or the reload under way will take it. */
  ghost predicate Doomed(s: State, c: ConnId, digest: Digest) {
    c in s.past.evicted || (!s.reload.Idle? && s.reload.digest == digest)
  }

  lemma KeepsEvicted(h: HashFn, s: State, a: Action)
    requires Enabled(s, a) && !a.FinishReload? && !a.AddService? && !a.DeleteService?
    ensures Step(h, s, a).reload == s.reload && s.past.evicted.Keys <= Step(h, s, a).past.evicted.Keys
  {
  }

  lemma FinishDooms(h: HashFn, s: State, c: ConnId, deal: Deal)
    requires SessionsOwned(h, s) && KeptOrEvicted(h, s) && IsEstablished(s, c, deal) && Enabled(s, FinishReload)
    requires Doomed(s, c, deal.digest)
    ensures c in Step(h, s, FinishReload).past.evicted
  {
    OwnerIs(h, s, s.reload.digest, c);
  }

  lemma StepDooms(h: HashFn, s: State, a: Action, c: ConnId, deal: Deal)
    requires SessionsOwned(h, s) && KeptOrEvicted(h, s) && IsEstablished(s, c, deal) && Enabled(s, a)
    requires Doomed(s, c, deal.digest) || Reloads(h, a, deal.digest)
    ensures Doomed(Step(h, s, a), c, deal.digest)
  {
    if a.FinishReload? {
      FinishDooms(h, s, c, deal);
    } else if a.AddService? || a.DeleteService? {
      assert Step(h, s, a).past.evicted == s.past.evicted;
    } else {
      KeepsEvicted(h, s, a);
    }
  }

  lemma {:induction false} RunDooms(h: HashFn, s: State, run: seq<Action>, c: ConnId, deal: Deal)
    requires Inv(h, s) && IsRun(Moves(h), s, run) && NoCollision(h, RunFrom(Moves(h), s, run).past.hashed)
    requires IsEstablished(s, c, deal)
    requires Doomed(s, c, deal.digest) || exists a :: a in run && Reloads(h, a, deal.digest)
    ensures var s' := RunFrom(Moves(h), s, run); IsEstablished(s', c, deal) && Doomed(s', c, deal.digest)
    decreases |run|
  {
    if run == [] {
    } else {
      HashedGrows(h, s, run);
      StepKeepsInv(h, s, run[0]);
      StaysEstablished(h, s, run[0], c, deal);
      if Doomed(s, c, deal.digest) || Reloads(h, run[0], deal.digest) {
        StepDooms(h, s, run[0], c, deal);
      } else {
        var a :| a in run && Reloads(h, a, deal.digest);
        assert a in run[1..];
      }
      RunDooms(h, Step(h, s, run[0]), run[1..], c, deal);
    }
  }

  /** A run that reloads the service of an established channel, and has finished its reloads,
      leaves that channel out of the table, whatever was interleaved. */
  lemma OwnReloadRemovesIt(h: HashFn, s: State, run: seq<Action>, c: ConnId, deal: Deal)
    requires Inv(h, s) && IsRun(Moves(h), s, run) && NoCollision(h, RunFrom(Moves(h), s, run).past.hashed)
    requires IsEstablished(s, c, deal)
    requires exists a :: a in run && Reloads(h, a, deal.digest)
    requires RunFrom(Moves(h), s, run).reload.Idle?
    ensures ItemOf(h, c, deal) !in RunFrom(Moves(h), s, run).sessions
  {
    RunDooms(h, s, run, c, deal);
    RunKeepsInv(h, s, run);
  }

  // ---- a batch of events ----

  function ChangeOf(a: Action): ServiceChange<ServerService>
    requires a.AddService? || a.DeleteService?
  {
    if a.AddService? then Add(a.cfg) else Delete(a.name)
  }

  function Changing(): Action -> Option<ServiceChange<ServerService>> {
    (a: Action) => if a.AddService? || a.DeleteService? then Some(ChangeOf(a)) else None
  }

  /** The reloads of a run, in their order. */
  function ChangesOf(run: seq<Action>): seq<ServiceChange<ServerService>> {
    Collect(Changing(), run)
  }

  lemma ConnectionKeepsServices(h: HashFn, s: State, a: Action)
    requires Enabled(s, a) && OfConnection(a)
    ensures Step(h, s, a).services == s.services
  {
    if a.ClearOld? || a.InsertNew? || a.Deliver? {
    } else {
      assert Step(h, s, a).pools == s.pools;
    }
  }

  lemma StepServices(h: HashFn, s: State, a: Action)
    requires Enabled(s, a)
    ensures Step(h, s, a).services
         == if a.AddService? || a.DeleteService? then Apply(h, NamedServer(), s.services, ChangeOf(a)) else s.services
  {
    if OfConnection(a) {
      ConnectionKeepsServices(h, s, a);
    } else if OfPool(a) {
      PoolSame(h, s, a);
    }
  }

  /** The services table after the reloads of a run. */
  function ServicesAfter(h: HashFn, services: Services, run: seq<Action>): Services {
    ApplyAll(h, NamedServer(), services, ChangesOf(run))
  }

  lemma ServicesAfterSnoc(h: HashFn, services: Services, run: seq<Action>, s: State, a: Action)
    requires s.services == ServicesAfter(h, services, run) && Enabled(s, a)
    ensures Step(h, s, a).services == ServicesAfter(h, services, run + [a])
  {
    StepServices(h, s, a);
    CollectSnoc(Changing(), run, a);
    if a.AddService? || a.DeleteService? {
      assert ChangesOf(run + [a]) == ChangesOf(run) + [ChangeOf(a)];
      ApplyAllSnoc(h, NamedServer(), services, ChangesOf(run), ChangeOf(a));
    } else {
      assert ChangesOf(run + [a]) == ChangesOf(run) + [] == ChangesOf(run);
    }
  }

  /** Whatever is interleaved, the services table is changed by the reloads alone, as by
      Server.HandleHotReload one after another. */
  lemma ServicesFollowReloads(h: HashFn, s: State, run: seq<Action>)
    requires IsRun(Moves(h), s, run)
    ensures RunFrom(Moves(h), s, run).services == ServicesAfter(h, s.services, run)
  {
    forall past, x: State, a | x.services == ServicesAfter(h, s.services, past) && Enabled(x, a)
      ensures Step(h, x, a).services == ServicesAfter(h, s.services, past + [a])
    {
      ServicesAfterSnoc(h, s.services, past, x, a);
    }
    assert ChangesOf([]) == [] && ServicesAfter(h, s.services, []) == s.services;
    RunKeepsTrace(Moves(h), (past, x: State) => x.services == ServicesAfter(h, s.services, past), s, run);
  }

  predicate Reload(a: Action, e: ServiceChange<ServerService>) {
    (a.AddService? || a.DeleteService?) && ChangeOf(a) == e
  }

  lemma {:induction false} ChangesAre(run: seq<Action>)
    ensures forall e :: e in ChangesOf(run) <==> exists a :: a in run && Reload(a, e)
  {
    if run == [] {
    } else {
      var rest, last := run[..|run| - 1], run[|run| - 1];
      ChangesAre(rest);
      var changes: seq<ServiceChange<ServerService>> := One(Changing()(last));
      assert ChangesOf(run) == ChangesOf(rest) + changes;
      assert forall e :: e in changes <==> Reload(last, e);
      forall e ensures e in ChangesOf(run) <==> exists a :: a in run && Reload(a, e) {
        if Reload(last, e) {
          assert last in run;
        } else if e in ChangesOf(rest) {
          var a :| a in rest && Reload(a, e);
          assert a in run;
        } else {
          forall a | a in run ensures !Reload(a, e) {
            assert a in rest || a == last;
          }
        }
      }
    }
  }

  /** The run reloads what the events say: each of them at least once, and nothing else. */
  ghost predicate Delivers(run: seq<Action>, es: seq<ServiceChange<ServerService>>) {
    && (forall a :: a in run && (a.AddService? || a.DeleteService?) ==> ChangeOf(a) in es)
    && (forall e :: e in es ==> exists a :: a in run && Reload(a, e))
  }

  lemma UnchangedIsNotReloaded(h: HashFn, run: seq<Action>, before: map<Text, ServerService>,
                               after: map<Text, ServerService>, es: seq<ServiceChange<ServerService>>, name: Text)
    requires Delivers(run, es)
    requires NoCollision(h, before.Keys + after.Keys)
    requires NamedByKey(NamedServer(), after) && IsDiff(before, after, es)
    requires name in before.Keys + after.Keys && SameAt(before, after, name)
    ensures forall a :: a in run ==> !Reloads(h, a, h(name))
  {
    forall a | a in run && (a.AddService? || a.DeleteService?) ensures !Reloads(h, a, h(name)) {
      assert IsChange(before, after, ChangeOf(a));
    }
  }

  lemma ChangedIsReloaded(h: HashFn, run: seq<Action>, before: map<Text, ServerService>,
                          after: map<Text, ServerService>, es: seq<ServiceChange<ServerService>>, name: Text)
    requires Delivers(run, es)
    requires NamedByKey(NamedServer(), after) && IsDiff(before, after, es) && !SameAt(before, after, name)
    ensures exists a :: a in run && Reloads(h, a, h(name))
  {
    var e := ChangeFor(after, name);
    assert IsChange(before, after, e);
    var a :| a in run && Reload(a, e);
    assert Reloads(h, a, h(name));
  }

  /** Hot reload disturbs exactly what changed. A run from any reachable state to another, both
      without a reload under way, that delivers the events of a difference in any order, amid
      any handshakes and data channels: a channel that was live at its start is out of the
      table at its end if its service changed; if not, it is still there, unless a handshake
      of another connection for that service has replaced it. */
  lemma BatchDisturbsExactlyTheChanged(h: HashFn, services: map<Digest, Servable>, past: seq<Action>, s: State,
                                       run: seq<Action>, before: map<Text, ServerService>,
                                       after: map<Text, ServerService>, es: seq<ServiceChange<ServerService>>,
                                       name: Text, c: ConnId, deal: Deal)
    requires Reached(h, services, past, s)
    requires IsRun(Moves(h), s, run) && NoCollision(h, RunFrom(Moves(h), s, run).past.hashed)
    requires s.reload.Idle? && RunFrom(Moves(h), s, run).reload.Idle?
    requires Delivers(run, es)
    requires NoCollision(h, before.Keys + after.Keys)
    requires NamedByKey(NamedServer(), after) && IsDiff(before, after, es)
    requires name in before.Keys + after.Keys && deal.digest == h(name)
    requires IsEstablished(s, c, deal) && ItemOf(h, c, deal) in s.sessions
    ensures var s' := RunFrom(Moves(h), s, run);
            if SameAt(before, after, name) then
              || ItemOf(h, c, deal) in s'.sessions
              || (c in s'.past.evicted && s'.past.evicted[c].ByHandshake? && s'.past.evicted[c].conn != c)
            else ItemOf(h, c, deal) !in s'.sessions
  {
    ReachedInv(h, services, past, s);
    if SameAt(before, after, name) {
      UnchangedIsNotReloaded(h, run, before, after, es, name);
      OtherReloadsSpareIt(h, s, run, c, deal);
    } else {
      ChangedIsReloaded(h, run, before, after, es, name);
      OwnReloadRemovesIt(h, s, run, c, deal);
    }
  }

  /** A batch ends where a rebuild ends: amid any handshakes and data channels, the events of a
      difference, in any order, take the table of the old services to that of the new ones. */
  lemma BatchEndsInTheNewTable(h: HashFn, s: State, run: seq<Action>, before: map<Text, ServerService>,
                               after: map<Text, ServerService>, es: seq<ServiceChange<ServerService>>)
    requires IsRun(Moves(h), s, run) && Delivers(run, es)
    requires NoCollision(h, before.Keys + after.Keys)
    requires NamedByKey(NamedServer(), after) && IsDiff(before, after, es)
    requires NoCollision(h, before.Keys) && s.services == TableOf(h, before)
    ensures NoCollision(h, after.Keys) && RunFrom(Moves(h), s, run).services == TableOf(h, after)
  {
    ServicesFollowReloads(h, s, run);
    ChangesAre(run);
    assert forall e :: e in ChangesOf(run) <==> e in es;
    DiffRebuilds(h, NamedServer(), before, after, ChangesOf(run));
  }

  // ---- without interleaving ----

  function ReloadRun(e: ServiceChange<ServerService>): seq<Action>
    requires e.Add? ==> e.cfg.token.Some?
  {
    [if e.Add? then AddService(e.cfg) else DeleteService(e.name), FinishReload]
  }

  /** A reload that nothing disturbs does to both tables what Server.HandleHotReload does. */
  lemma ReloadAlone(h: HashFn, s: State, e: ServiceChange<ServerService>)
    requires e.Add? ==> e.cfg.token.Some?
    requires s.reload.Idle? && ServicesGuardFree(s) && NoWriter(s) && NoReader(s)
    ensures IsRun(Moves(h), s, ReloadRun(e))
    ensures var s' := RunFrom(Moves(h), s, ReloadRun(e));
            && s'.services == ApplyAll(h, NamedServer(), s.services, [e])
            && s'.sessions == SessionsAfter(h, s.sessions, [e])
            && s'.reload.Idle? && s'.tasks == s.tasks && s'.pools == s.pools
  {
    var a := if e.Add? then AddService(e.cfg) else DeleteService(e.name);
    Then(Moves(h), s, [], s, a);
    var s1 := Step(h, s, a);
    assert [] + [a] == [a];
    Then(Moves(h), s, [a], s1, FinishReload);
    assert [a] + [FinishReload] == ReloadRun(e);
  }

  function EstablishRun(c: ConnId): seq<Action> {
    [TakeWriteGuard(c), ClearOld(c), SendAck(c), InsertNew(c)]
  }

  function BrokenRun(c: ConnId): seq<Action> {
    [TakeWriteGuard(c), ClearOld(c), IoError(c)]
  }

  lemma UntilAck(h: HashFn, s: State, c: ConnId) returns (s': State)
    requires c in s.tasks && s.tasks[c].Waiting? && NoWriter(s) && NoReader(s)
    ensures Leads(Moves(h), s, [TakeWriteGuard(c), ClearOld(c)], s')
    ensures c in s'.tasks && s'.tasks[c] == Acking(s.tasks[c].deal)
    ensures s'.sessions == Without1(s.sessions, s.tasks[c].deal.digest) && s'.pools == s.pools
    ensures s'.tasks == s.tasks[c := Acking(s.tasks[c].deal)] && s'.services == s.services && s'.reload == s.reload
  {
    Then(Moves(h), s, [], s, TakeWriteGuard(c));
    var s1 := Step(h, s, TakeWriteGuard(c));
    Then(Moves(h), s, [TakeWriteGuard(c)], s1, ClearOld(c));
    assert [TakeWriteGuard(c)] + [ClearOld(c)] == [TakeWriteGuard(c), ClearOld(c)];
    s' := Step(h, s1, ClearOld(c));
  }

  lemma NewQueue(h: HashFn, s: State, c: ConnId)
    requires Enabled(s, InsertNew(c))
    ensures QueuesOf(Step(h, s, InsertNew(c)).pools) == QueuesOf(s.pools)[c := []]
  {
  }

  /** An authenticated handshake that nothing disturbs does to the sessions and the queues what
      Server.Establish does when the ack can be written. */
  lemma EstablishAlone(h: HashFn, s: State, c: ConnId)
    requires c in s.tasks && s.tasks[c].Waiting? && NoWriter(s) && NoReader(s)
    ensures IsRun(Moves(h), s, EstablishRun(c))
    ensures var deal := s.tasks[c].deal;
            var rest := Without1(s.sessions, deal.digest);
            var s' := RunFrom(Moves(h), s, EstablishRun(c));
            && s'.sessions == (if Has2(rest, Key(h, deal)) then rest else rest + {ItemOf(h, c, deal)})
            && QueuesOf(s'.pools) == QueuesOf(s.pools)[c := []]
            && s'.tasks == s.tasks[c := Established(deal)] && s'.services == s.services && s'.reload == s.reload
  {
    var s2 := UntilAck(h, s, c);
    Then(Moves(h), s, [TakeWriteGuard(c), ClearOld(c)], s2, SendAck(c));
    var s3 := Step(h, s2, SendAck(c));
    var run3 := [TakeWriteGuard(c), ClearOld(c)] + [SendAck(c)];
    Then(Moves(h), s, run3, s3, InsertNew(c));
    assert run3 + [InsertNew(c)] == EstablishRun(c);
    NewQueue(h, s3, c);
  }

  /** And when it cannot: the old channel is gone and nothing takes its place. */
  lemma BrokenAckAlone(h: HashFn, s: State, c: ConnId)
    requires c in s.tasks && s.tasks[c].Waiting? && NoWriter(s) && NoReader(s)
    ensures IsRun(Moves(h), s, BrokenRun(c))
    ensures var s' := RunFrom(Moves(h), s, BrokenRun(c));
            && s'.sessions == Without1(s.sessions, s.tasks[c].deal.digest) && s'.pools == s.pools
            && s'.tasks == s.tasks[c := Closed] && s'.services == s.services && s'.reload == s.reload
  {
    var s2 := UntilAck(h, s, c);
    Then(Moves(h), s, [TakeWriteGuard(c), ClearOld(c)], s2, IoError(c));
    assert [TakeWriteGuard(c), ClearOld(c)] + [IoError(c)] == BrokenRun(c);
  }
}
