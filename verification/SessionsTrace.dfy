/** The sessions of Sessions from the actions of the run: nobody gets a channel without the right
    auth, nobody with it is refused, and what a channel serves was configured. */
module SessionsTrace {
  import opened Protocol
  import opened Server
  import opened Runs
  import opened Sessions
  import opened SessionsProof
  import opened SessionsReload

  lemma InSnoc<T>(run: seq<T>, a: T)
    ensures forall x :: x in run + [a] <==> x in run || x == a
  {
  }

  // ---- what a task knows, somebody said ----

  predicate DealTold(run: seq<Action>, c: ConnId, deal: Deal) {
    ReadControlHello(c, deal.digest) in run && SendNonce(c, deal.nonce) in run && Lookup(c) in run
  }

  /** The digest comes from the hello, the nonce was sent, the auth that was read was the session
      key, the ack went out before the insertion; and a data channel named its key. */
  predicate TaskTold(h: HashFn, run: seq<Action>, c: ConnId, t: Task) {
    HelloTold(run, c, t) && AuthTold(h, run, c, t) && ChannelTold(run, c, t)
  }

  predicate HelloTold(run: seq<Action>, c: ConnId, t: Task) {
    && (t.Answering? || t.LookingUp? ==> ReadControlHello(c, t.digest) in run)
    && (t.LookingUp? ==> SendNonce(c, t.nonce) in run)
    && (Dealt(t) ==> DealTold(run, c, t.deal))
  }

  predicate AuthTold(h: HashFn, run: seq<Action>, c: ConnId, t: Task) {
    Authenticated(t) ==> CheckAuth(c, Key(h, t.deal)) in run
  }

  predicate ChannelTold(run: seq<Action>, c: ConnId, t: Task) {
    && (t.Acking? || t.Inserting? || t.Established? ==> ClearOld(c) in run)
    && (t.Inserting? || t.Established? ==> SendAck(c) in run)
    && (t.Established? ==> InsertNew(c) in run)
    && (t.Finding? || t.Sending? || t.Delivered? ==> ReadDataHello(c, t.key) in run)
    && (t.Delivered? ==> Deliver(c) in run)
  }

  ghost predicate TasksTold(h: HashFn, run: seq<Action>, s: State) {
    forall c :: c in s.tasks ==> TaskTold(h, run, c, s.tasks[c])
  }

  lemma TaskToldLater(h: HashFn, run: seq<Action>, c: ConnId, t: Task, a: Action)
    requires TaskTold(h, run, c, t)
    ensures TaskTold(h, run + [a], c, t)
  {
    InSnoc(run, a);
  }

  lemma MoveHelloTold(h: HashFn, run: seq<Action>, s: State, a: Action)
    requires Enabled(s, a) && OfConnection(a) && (a.c in s.tasks ==> HelloTold(run, a.c, s.tasks[a.c]))
    requires a.c in Step(h, s, a).tasks
    ensures HelloTold(run + [a], a.c, Step(h, s, a).tasks[a.c])
  {
    InSnoc(run, a);
  }

  lemma MoveAuthTold(h: HashFn, run: seq<Action>, s: State, a: Action)
    requires Enabled(s, a) && OfConnection(a) && (a.c in s.tasks ==> AuthTold(h, run, a.c, s.tasks[a.c]))
    requires a.c in Step(h, s, a).tasks
    ensures AuthTold(h, run + [a], a.c, Step(h, s, a).tasks[a.c])
  {
    InSnoc(run, a);
  }

  lemma MoveChannelTold(h: HashFn, run: seq<Action>, s: State, a: Action)
    requires Enabled(s, a) && OfConnection(a) && (a.c in s.tasks ==> ChannelTold(run, a.c, s.tasks[a.c]))
    requires a.c in Step(h, s, a).tasks
    ensures ChannelTold(run + [a], a.c, Step(h, s, a).tasks[a.c])
  {
    InSnoc(run, a);
  }

  lemma StepTold(h: HashFn, run: seq<Action>, s: State, a: Action)
    requires TasksTold(h, run, s) && Enabled(s, a)
    ensures TasksTold(h, run + [a], Step(h, s, a))
  {
    var s' := Step(h, s, a);
    if OfConnection(a) {
      OneTaskMoves(h, s, a);
      MoveHelloTold(h, run, s, a);
      MoveAuthTold(h, run, s, a);
      MoveChannelTold(h, run, s, a);
    } else {
      OthersMoveNoTask(h, s, a);
    }
    forall c | c in s'.tasks ensures TaskTold(h, run + [a], c, s'.tasks[c]) {
      if !OfConnection(a) || a.c != c {
        TaskToldLater(h, run, c, s.tasks[c], a);
      }
    }
  }

  lemma OthersMoveNoTask(h: HashFn, s: State, a: Action)
    requires Enabled(s, a) && !OfConnection(a)
    ensures Step(h, s, a).tasks == s.tasks && SameRecord(s, Step(h, s, a))
  {
    if OfPool(a) {
      PoolSame(h, s, a);
    } else {
      OtherSame(h, s, a);
    }
  }

  lemma RunTold(h: HashFn, services: map<Digest, Servable>, run: seq<Action>)
    requires IsRun(Moves(h), Init(services), run)
    ensures TasksTold(h, run, RunFrom(Moves(h), Init(services), run))
  {
    forall past, s, a | TasksTold(h, past, s) && Enabled(s, a) ensures TasksTold(h, past + [a], Step(h, s, a)) {
      StepTold(h, past, s, a);
    }
    RunKeepsTrace(Moves(h), (past, s) => TasksTold(h, past, s), Init(services), run);
  }

  // ---- who is denied ----

  predicate BeforeCheck(t: Task) {
    t.Accepted? || t.Answering? || t.LookingUp? || t.AwaitingAuth?
  }

  /** Each handshake is checked once; the right auth is not denied, a wrong one not accepted. */
  ghost predicate AuthsTold(h: HashFn, run: seq<Action>, s: State) {
    && (forall c, a :: CheckAuth(c, a) in run ==>
          && c in s.past.checked
          && (c in s.tasks ==>
                if a == Key(h, s.past.checked[c]) then !s.tasks[c].Denying? else !Authenticated(s.tasks[c])))
    && (forall c :: c in s.past.checked ==> c in s.tasks && !BeforeCheck(s.tasks[c]))
    && (forall c :: c in s.tasks && s.tasks[c].Denying? ==> exists a :: CheckAuth(c, a) in run)
  }

  /** The check alone authenticates. */
  lemma OnlyCheckAuthenticates(h: HashFn, s: State, a: Action)
    requires Enabled(s, a) && OfConnection(a) && !a.CheckAuth?
    ensures var s' := Step(h, s, a);
            && s'.past.checked == s.past.checked && a.c in s'.tasks
            && (Authenticated(s'.tasks[a.c]) ==> a.c in s.tasks && Authenticated(s.tasks[a.c]))
  {
  }

  /** The check alone denies, and there is no way back. */
  lemma OnlyCheckDenies(h: HashFn, s: State, a: Action)
    requires Enabled(s, a) && OfConnection(a) && !a.CheckAuth?
    ensures var s' := Step(h, s, a);
            && a.c in s'.tasks
            && (s'.tasks[a.c].Denying? ==> a.c in s.tasks && s.tasks[a.c].Denying?)
            && (BeforeCheck(s'.tasks[a.c]) ==> a.c !in s.tasks || BeforeCheck(s.tasks[a.c]))
  {
  }

  lemma OtherAuthsTold(h: HashFn, run: seq<Action>, s: State, a: Action)
    requires AuthsTold(h, run, s) && Enabled(s, a) && !a.CheckAuth?
    ensures AuthsTold(h, run + [a], Step(h, s, a))
  {
    InSnoc(run, a);
    if OfConnection(a) {
      OneTaskMoves(h, s, a);
      OnlyCheckAuthenticates(h, s, a);
      OnlyCheckDenies(h, s, a);
    } else {
      OthersMoveNoTask(h, s, a);
    }
    assert forall c, x :: CheckAuth(c, x) in run + [a] <==> CheckAuth(c, x) in run;
  }

  lemma CheckEffect(h: HashFn, s: State, a: Action)
    requires Enabled(s, a) && a.CheckAuth?
    ensures var (s', deal) := (Step(h, s, a), s.tasks[a.c].deal);
            && s.tasks[a.c].AwaitingAuth?
            && s'.tasks == s.tasks[a.c := if Key(h, deal) == a.auth then Waiting(deal) else Denying]
            && s'.past.checked == s.past.checked[a.c := deal]
  {
  }

  lemma CheckAuthsTold(h: HashFn, run: seq<Action>, s: State, a: Action)
    requires AuthsTold(h, run, s) && Enabled(s, a) && a.CheckAuth?
    ensures AuthsTold(h, run + [a], Step(h, s, a))
  {
    InSnoc(run, a);
    CheckEffect(h, s, a);
    assert a.c !in s.past.checked;
    assert CheckAuth(a.c, a.auth) in run + [a];
  }

  lemma RunAuthsTold(h: HashFn, services: map<Digest, Servable>, run: seq<Action>)
    requires IsRun(Moves(h), Init(services), run)
    ensures AuthsTold(h, run, RunFrom(Moves(h), Init(services), run))
  {
    forall past, s, a | AuthsTold(h, past, s) && Enabled(s, a) ensures AuthsTold(h, past + [a], Step(h, s, a)) {
      if a.CheckAuth? {
        CheckAuthsTold(h, past, s, a);
      } else {
        OtherAuthsTold(h, past, s, a);
      }
    }
    RunKeepsTrace(Moves(h), (past, s) => AuthsTold(h, past, s), Init(services), run);
  }

  /** Authentication decides. A live channel is that of a connection that said hello for its
      service and answered the nonce it was sent with the session key of the channel; so is any
      handshake past its check. A handshake whose auth was wrong never gets that far, and one
      whose auth was right is never denied. */
  lemma AuthDecides(h: HashFn, services: map<Digest, Servable>, run: seq<Action>, s: State)
    requires Reached(h, services, run, s)
    ensures forall t :: t in s.sessions ==>
              && ReadControlHello(t.v.pool, t.k1) in run && CheckAuth(t.v.pool, t.k2) in run
              && SendAck(t.v.pool) in run && InsertNew(t.v.pool) in run
    ensures forall c :: c in s.tasks && Authenticated(s.tasks[c]) ==>
              && DealTold(run, c, s.tasks[c].deal) && CheckAuth(c, Key(h, s.tasks[c].deal)) in run
    ensures forall c, a :: CheckAuth(c, a) in run ==>
              && c in s.past.checked && c in s.tasks
              && (a == Key(h, s.past.checked[c]) ==> !s.tasks[c].Denying?)
              && (a != Key(h, s.past.checked[c]) ==> !Authenticated(s.tasks[c]))
    ensures forall c :: c in s.tasks && s.tasks[c].Denying? ==>
              exists a :: CheckAuth(c, a) in run && a != Key(h, s.past.checked[c])
  {
    RunTold(h, services, run);
    RunAuthsTold(h, services, run);
    ReachedOwned(h, services, run, s);
    forall c | c in s.tasks && Authenticated(s.tasks[c])
      ensures DealTold(run, c, s.tasks[c].deal) && CheckAuth(c, Key(h, s.tasks[c].deal)) in run
    {
      assert TaskTold(h, run, c, s.tasks[c]);
    }
    forall t | t in s.sessions
      ensures ReadControlHello(t.v.pool, t.k1) in run && CheckAuth(t.v.pool, t.k2) in run
      ensures SendAck(t.v.pool) in run && InsertNew(t.v.pool) in run
    {
      assert TaskTold(h, run, t.v.pool, s.tasks[t.v.pool]);
    }
  }

  lemma ReachedOwned(h: HashFn, services: map<Digest, Servable>, run: seq<Action>, s: State)
    requires Reached(h, services, run, s)
    ensures SessionsOwned(h, s)
  {
    ReachedInv(h, services, run, s);
  }

  // ---- a connection that ended stays ended ----

  predicate Ends(a: Action) {
    a.Refuse? || a.Deny? || a.DeliverFails? || a.IoError?
  }

  ghost predicate EndsTold(run: seq<Action>, s: State) {
    forall a :: a in run && Ends(a) ==> a.c in s.tasks && s.tasks[a.c] == Closed
  }

  lemma ClosedStays(h: HashFn, s: State, a: Action, c: ConnId)
    requires Enabled(s, a) && c in s.tasks && s.tasks[c] == Closed
    ensures c in Step(h, s, a).tasks && Step(h, s, a).tasks[c] == Closed
  {
    if OfConnection(a) {
      OneTaskMoves(h, s, a);
    } else {
      OthersMoveNoTask(h, s, a);
    }
  }

  lemma EndCloses(h: HashFn, s: State, a: Action)
    requires Enabled(s, a) && Ends(a)
    ensures a.c in Step(h, s, a).tasks && Step(h, s, a).tasks[a.c] == Closed
  {
  }

  /** A connection that was refused, denied, found its pool gone or failed is closed for good. */
  lemma EndedIsClosed(h: HashFn, services: map<Digest, Servable>, run: seq<Action>)
    requires IsRun(Moves(h), Init(services), run)
    ensures EndsTold(run, RunFrom(Moves(h), Init(services), run))
  {
    forall past, s, a | EndsTold(past, s) && Enabled(s, a) ensures EndsTold(past + [a], Step(h, s, a)) {
      InSnoc(past, a);
      forall b | b in past + [a] && Ends(b) ensures b.c in Step(h, s, a).tasks && Step(h, s, a).tasks[b.c] == Closed {
        if b in past {
          ClosedStays(h, s, a, b.c);
        } else {
          EndCloses(h, s, a);
        }
      }
    }
    RunKeepsTrace(Moves(h), EndsTold, Init(services), run);
  }

  // ---- an ack is kept ----

  ghost predicate AcksKept(run: seq<Action>, s: State) {
    forall c :: SendAck(c) in run ==> c in s.tasks && (s.tasks[c].Inserting? || s.tasks[c].Established?)
  }

  lemma AckStays(h: HashFn, s: State, a: Action, c: ConnId)
    requires Enabled(s, a)
    requires a == SendAck(c) || (c in s.tasks && (s.tasks[c].Inserting? || s.tasks[c].Established?))
    ensures var s' := Step(h, s, a); c in s'.tasks && (s'.tasks[c].Inserting? || s'.tasks[c].Established?)
  {
    if OfConnection(a) {
      OneTaskMoves(h, s, a);
    } else {
      OthersMoveNoTask(h, s, a);
    }
  }

  lemma StepAcksKept(h: HashFn, run: seq<Action>, s: State, a: Action)
    requires AcksKept(run, s) && Enabled(s, a)
    ensures AcksKept(run + [a], Step(h, s, a))
  {
    InSnoc(run, a);
    forall c | SendAck(c) in run + [a]
      ensures var s' := Step(h, s, a); c in s'.tasks && (s'.tasks[c].Inserting? || s'.tasks[c].Established?)
    {
      AckStays(h, s, a, c);
    }
  }

  /** Once the ack has gone out, nothing keeps the channel from the table: the handshake is about to
      insert it, with the guard held, or has. */
  lemma AckMeansInsertion(h: HashFn, services: map<Digest, Servable>, run: seq<Action>, s: State, c: ConnId)
    requires Reached(h, services, run, s) && SendAck(c) in run
    ensures c in s.tasks && (Enabled(s, InsertNew(c)) || (s.tasks[c].Established? && InsertNew(c) in run))
  {
    forall past, x, a | AcksKept(past, x) && Enabled(x, a) ensures AcksKept(past + [a], Step(h, x, a)) {
      StepAcksKept(h, past, x, a);
    }
    RunKeepsTrace(Moves(h), AcksKept, Init(services), run);
    RunTold(h, services, run);
    assert TaskTold(h, run, c, s.tasks[c]);
  }

  // ---- reloads one at a time ----

  /** The reload that a run has begun and not finished. */
  function UnderWay(h: HashFn, run: seq<Action>): Reload {
    if run == [] then Idle
    else
      match run[|run| - 1]
      case AddService(cfg) => Adding(h(cfg.name))
      case DeleteService(name) => Deleting(h(name))
      case FinishReload => Idle
      case _ => UnderWay(h, run[..|run| - 1])
  }

  lemma StepUnderWay(h: HashFn, run: seq<Action>, s: State, a: Action)
    requires s.reload == UnderWay(h, run) && Enabled(s, a)
    ensures Step(h, s, a).reload == UnderWay(h, run + [a])
  {
    assert (run + [a])[..|run|] == run;
    if OfConnection(a) {
      OneTaskMoves(h, s, a);
    } else if OfPool(a) {
      PoolSame(h, s, a);
    }
  }

  lemma RunUnderWay(h: HashFn, services: map<Digest, Servable>, run: seq<Action>)
    requires IsRun(Moves(h), Init(services), run)
    ensures RunFrom(Moves(h), Init(services), run).reload == UnderWay(h, run)
  {
    forall past, s: State, a | s.reload == UnderWay(h, past) && Enabled(s, a)
      ensures Step(h, s, a).reload == UnderWay(h, past + [a])
    {
      StepUnderWay(h, past, s, a);
    }
    RunKeepsTrace(Moves(h), (past, s: State) => s.reload == UnderWay(h, past), Init(services), run);
  }

  /** Reloads do not overlap, and an addition keeps the lookups out until it has cleared the
      channels too, so that no handshake sees a service whose old channel is still to go. The
      other way round, an unknown service is refused before the services change again. */
  lemma ReloadsExclude(h: HashFn, services: map<Digest, Servable>, run: seq<Action>, a: Action)
    requires IsRun(Moves(h), Init(services), run + [a])
    ensures IsRun(Moves(h), Init(services), run)
    ensures a.Lookup? ==> !UnderWay(h, run).Adding?
    ensures a.AddService? || a.DeleteService? ==>
              var s := RunFrom(Moves(h), Init(services), run); forall c :: c in s.tasks ==> !s.tasks[c].Refusing?
    ensures a.AddService? || a.DeleteService? ==> UnderWay(h, run).Idle?
    ensures a.FinishReload? ==> !UnderWay(h, run).Idle?
  {
    BeforeLast(Moves(h), Init(services), run, a);
    RunUnderWay(h, services, run);
  }

  // ---- what was configured ----

  /** At the i-th action of the run, which is `a`, the services table was this. */
  ghost predicate TableAt(h: HashFn, services: Services, run: seq<Action>, a: Action, i: nat, table: Services) {
    i < |run| && run[i] == a && table == ServicesAfter(h, services, run[..i])
  }

  ghost predicate WasTableAt(h: HashFn, services: Services, run: seq<Action>, a: Action, table: Services) {
    exists i: nat :: TableAt(h, services, run, a, i, table)
  }

  lemma WasLater(h: HashFn, services: Services, run: seq<Action>, a: Action, table: Services, b: Action)
    requires WasTableAt(h, services, run, a, table)
    ensures WasTableAt(h, services, run + [b], a, table)
  {
    var i: nat :| TableAt(h, services, run, a, i, table);
    assert (run + [b])[..i] == run[..i];
    assert TableAt(h, services, run + [b], a, i, table);
  }

  lemma WasNow(h: HashFn, services: Services, run: seq<Action>, a: Action)
    ensures WasTableAt(h, services, run + [a], a, ServicesAfter(h, services, run))
  {
    assert (run + [a])[..|run|] == run;
    assert TableAt(h, services, run + [a], a, |run|, ServicesAfter(h, services, run));
  }

  ghost predicate TablesTold(h: HashFn, services: Services, run: seq<Action>, s: State) {
    && s.services == ServicesAfter(h, services, run)
    && (forall c :: c in s.past.seen ==> WasTableAt(h, services, run, Lookup(c), s.past.seen[c]))
    && (forall c :: c in s.past.atInsert ==> WasTableAt(h, services, run, InsertNew(c), s.past.atInsert[c]))
  }

  lemma TablesRecorded(h: HashFn, s: State, a: Action)
    requires Enabled(s, a)
    ensures var s' := Step(h, s, a);
            && s'.past.atInsert == (if a.InsertNew? then s.past.atInsert[a.c := s.services] else s.past.atInsert)
            && (s'.past.seen == s.past.seen || (a.Lookup? && s'.past.seen == s.past.seen[a.c := s.services]))
  {
    if OfConnection(a) {
    } else if OfPool(a) {
      PoolSame(h, s, a);
    }
  }

  lemma StepTablesTold(h: HashFn, services: Services, run: seq<Action>, s: State, a: Action)
    requires TablesTold(h, services, run, s) && Enabled(s, a)
    ensures TablesTold(h, services, run + [a], Step(h, s, a))
  {
    var s' := Step(h, s, a);
    ServicesAfterSnoc(h, services, run, s, a);
    TablesRecorded(h, s, a);
    WasNow(h, services, run, a);
    forall c | c in s'.past.seen ensures WasTableAt(h, services, run + [a], Lookup(c), s'.past.seen[c]) {
      if c in s.past.seen && s'.past.seen[c] == s.past.seen[c] {
        WasLater(h, services, run, Lookup(c), s.past.seen[c], a);
      }
    }
    forall c | c in s'.past.atInsert ensures WasTableAt(h, services, run + [a], InsertNew(c), s'.past.atInsert[c]) {
      if c in s.past.atInsert && s'.past.atInsert[c] == s.past.atInsert[c] {
        WasLater(h, services, run, InsertNew(c), s.past.atInsert[c], a);
      }
    }
  }

  lemma RunTablesTold(h: HashFn, services: map<Digest, Servable>, run: seq<Action>)
    requires IsRun(Moves(h), Init(services), run)
    ensures TablesTold(h, services, run, RunFrom(Moves(h), Init(services), run))
  {
    forall past, s, a | TablesTold(h, services, past, s) && Enabled(s, a)
      ensures TablesTold(h, services, past + [a], Step(h, s, a))
    {
      StepTablesTold(h, services, past, s, a);
    }
    RunKeepsTrace(Moves(h), (past, s) => TablesTold(h, services, past, s), Init(services), run);
  }

  ghost predicate Configured(table: Services, t: Session) {
    t.k1 in table && table[t.k1] == t.v.service
  }

  /** Provenance: the configuration of a live channel is the one that the reloads up to the lookup
      of its own handshake had put into the services table for its digest. */
  lemma ConfigWasConfigured(h: HashFn, services: map<Digest, Servable>, run: seq<Action>, s: State, t: Session)
    requires Reached(h, services, run, s) && t in s.sessions
    ensures exists i: nat :: i < |run| && run[i] == Lookup(t.v.pool)
                          && Configured(ServicesAfter(h, services, run[..i]), t)
  {
    RunTablesTold(h, services, run);
    ConfigIsFromLookup(h, services, run, s, t);
    var i: nat :| TableAt(h, services, run, Lookup(t.v.pool), i, s.past.seen[t.v.pool]);
  }

  /** When no reload of its service is under way, a live channel agrees with the services table
      exactly when the reloads up to its insertion had left a table that agrees with it. */
  lemma AgreesIffItDidAtInsert(h: HashFn, services: map<Digest, Servable>, run: seq<Action>, s: State, t: Session)
    requires Reached(h, services, run, s) && t in s.sessions && (s.reload.Idle? || s.reload.digest != t.k1)
    ensures exists i: nat :: i < |run| && run[i] == InsertNew(t.v.pool)
              && Configured(ServicesAfter(h, services, run), t) == Configured(ServicesAfter(h, services, run[..i]), t)
  {
    RunTablesTold(h, services, run);
    ChannelAgreesIffItDidAtInsert(h, services, run, s, t);
    var i: nat :| TableAt(h, services, run, InsertNew(t.v.pool), i, s.past.atInsert[t.v.pool]);
  }

  // ---- who took a channel away ----

  /** An eviction is the work of a handshake that cleared the way, or of a reload. */
  ghost predicate EvictorsTold(h: HashFn, run: seq<Action>, s: State) {
    && (!s.reload.Idle? ==> exists a :: a in run && Reloads(h, a, s.reload.digest))
    && (forall c :: c in s.past.evicted ==> EvictorTold(h, run, s.past.evicted[c]))
  }

  ghost predicate EvictorTold(h: HashFn, run: seq<Action>, who: Evictor) {
    match who
    case ByHandshake(c, digest) => ClearOld(c) in run && ReadControlHello(c, digest) in run
    case ByReload(digest) => exists a :: a in run && Reloads(h, a, digest)
  }

  lemma EvictorLater(h: HashFn, run: seq<Action>, who: Evictor, a: Action)
    requires EvictorTold(h, run, who)
    ensures EvictorTold(h, run + [a], who)
  {
    InSnoc(run, a);
  }

  lemma EvictionsRecorded(h: HashFn, s: State, a: Action)
    requires Enabled(s, a)
    ensures var s' := Step(h, s, a);
            && (forall c :: c in s'.past.evicted ==>
                  || (c in s.past.evicted && s'.past.evicted[c] == s.past.evicted[c])
                  || (a.ClearOld? && s'.past.evicted[c] == ByHandshake(a.c, s.tasks[a.c].deal.digest))
                  || (a.FinishReload? && s'.past.evicted[c] == ByReload(s.reload.digest)))
            && (!s'.reload.Idle? ==> Reloads(h, a, s'.reload.digest) || s'.reload == s.reload)
  {
    if OfPool(a) {
      PoolSame(h, s, a);
    } else if OfConnection(a) && !a.ClearOld? {
      assert Step(h, s, a).past.evicted == s.past.evicted;
    }
  }

  lemma StepEvictorsTold(h: HashFn, run: seq<Action>, s: State, a: Action)
    requires EvictorsTold(h, run, s) && TasksTold(h, run, s) && Enabled(s, a)
    ensures EvictorsTold(h, run + [a], Step(h, s, a))
  {
    var s' := Step(h, s, a);
    InSnoc(run, a);
    EvictionsRecorded(h, s, a);
    if a.ClearOld? {
      assert TaskTold(h, run, a.c, s.tasks[a.c]);
    }
    forall c | c in s'.past.evicted ensures EvictorTold(h, run + [a], s'.past.evicted[c]) {
      if c in s.past.evicted && s'.past.evicted[c] == s.past.evicted[c] {
        EvictorLater(h, run, s.past.evicted[c], a);
      }
    }
  }

  /** An established channel that is no longer in the table was taken out by a handshake that said
      hello for the same service and cleared the way, or by a reload of that service. */
  lemma EvictionHasACause(h: HashFn, services: map<Digest, Servable>, run: seq<Action>, s: State, c: ConnId)
    requires Reached(h, services, run, s)
    requires c in s.tasks && s.tasks[c].Established? && ItemOf(h, c, s.tasks[c].deal) !in s.sessions
    ensures var digest := s.tasks[c].deal.digest;
            || (exists d :: d != c && ClearOld(d) in run && ReadControlHello(d, digest) in run)
            || (exists a :: a in run && Reloads(h, a, digest))
  {
    RunEvictorsTold(h, services, run);
    EvictedBy(h, services, run, s, c);
    assert EvictorTold(h, run, s.past.evicted[c]);
  }

  lemma EvictedBy(h: HashFn, services: map<Digest, Servable>, run: seq<Action>, s: State, c: ConnId)
    requires Reached(h, services, run, s)
    requires c in s.tasks && s.tasks[c].Established? && ItemOf(h, c, s.tasks[c].deal) !in s.sessions
    ensures c in s.past.evicted && s.past.evicted[c].digest == s.tasks[c].deal.digest
    ensures s.past.evicted[c].ByHandshake? ==> s.past.evicted[c].conn != c
  {
    ReachedInv(h, services, run, s);
  }

  lemma RunEvictorsTold(h: HashFn, services: map<Digest, Servable>, run: seq<Action>)
    requires IsRun(Moves(h), Init(services), run)
    ensures EvictorsTold(h, run, RunFrom(Moves(h), Init(services), run))
  {
    forall past, s, a | EvictorsTold(h, past, s) && TasksTold(h, past, s) && Enabled(s, a)
      ensures EvictorsTold(h, past + [a], Step(h, s, a)) && TasksTold(h, past + [a], Step(h, s, a))
    {
      StepEvictorsTold(h, past, s, a);
      StepTold(h, past, s, a);
    }
    RunKeepsTrace(Moves(h), (past, s) => EvictorsTold(h, past, s) && TasksTold(h, past, s), Init(services), run);
  }
}
