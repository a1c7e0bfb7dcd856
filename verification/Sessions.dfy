/** Handshakes, data channels and hot reloads of one server, interleaved (handle_connection in
    src/server/connection.rs, src/server/control_channel.rs, src/server/data_channel.rs,
    handle_hot_reload in src/server.rs, the pairing in src/server/pool.rs). A connection is a
    task that moves from one await point to the next; a guard is held by whoever stands
    between its acquisition and its release. */
module Sessions {
  import opened Constants
  import opened Wrappers
  import opened Bincode
  import opened Protocol
  import opened Config
  import opened MultiMapSpec
  import opened Server
  import opened Runs

  type ConnId = nat

  /** A service with a token. EverythingRunning in HotReload says that every service of a
      running server is one. */
  type Servable = s: ServerService | s.token.Some?
    witness ServerService(Tcp, [], [], Some([]), None)

  /** What a handshake has settled once the service is looked up. */
  datatype Deal = Deal(digest: Digest, nonce: Digest, cfg: Servable)

  function Challenge(d: Deal): Bytes {
    d.cfg.token.value + d.nonce
  }

  function Key(h: HashFn, d: Deal): Digest {
    h(Challenge(d))
  }

  /** Where the task of a connection stands. */
  datatype Task =
    | Accepted                                // no hello read yet
    | Answering(digest: Digest)               // control hello read, nonce to be sent
    | LookingUp(digest: Digest, nonce: Digest)
    | Refusing                                // unknown service; services read guard held
    | AwaitingAuth(deal: Deal)
    | Denying                                 // wrong auth
    | Waiting(deal: Deal)                     // right auth; wants the channels write guard
    | Clearing(deal: Deal)                    // write guard taken
    | Acking(deal: Deal)                      // old entry removed
    | Inserting(deal: Deal)                   // ack written and flushed
    | Established(deal: Deal)                 // inserted, guard released
    | Finding(key: Digest)                    // data hello read, wants the channels read guard
    | Sending(key: Digest, pool: ConnId)      // handle found; read guard held
    | Delivered(key: Digest, pool: ConnId)    // in the queue of the pool
    | Closed

  predicate HoldsWrite(t: Task) {
    t.Clearing? || t.Acking? || t.Inserting?
  }

  predicate HoldsRead(t: Task) {
    t.Sending?
  }

  predicate Dealt(t: Task) {
    t.AwaitingAuth? || t.Waiting? || HoldsWrite(t) || t.Established?
  }

  predicate Authenticated(t: Task) {
    Dealt(t) && !t.AwaitingAuth?
  }

  /** A hot reload between its two tables. An addition keeps the services write guard while it
      waits for the channels; a deletion does not. */
  datatype Reload = Idle | Adding(digest: Digest) | Deleting(digest: Digest)

  datatype Visitor = Visitor(id: nat, acceptedOn: Text)

  /** The pool that a handshake spawned; it outlives its handle. A TCP pool joins each visitor
      with a data channel of its own; a UDP pool takes one data channel and forwards the
      datagrams of all visitors on it. */
  datatype Pool = Pool(
    key: Digest,
    service: ServerService,
    queue: seq<ConnId>,
    visitors: seq<Visitor>,
    conn: Option<ConnId>,
    pairs: seq<(ConnId, Visitor)>,
    ended: bool)                                    // its task is over and its queue gone

  /** The queues of data channels of the pools that still run. */
  function QueuesOf(pools: map<ConnId, Pool>): map<ConnId, seq<ConnId>> {
    map p | p in pools && !pools[p].ended :: pools[p].queue
  }

  /** Who took a channel out of the table, and for which service. */
  datatype Evictor = ByHandshake(conn: ConnId, digest: Digest) | ByReload(digest: Digest)

  /** What the run leaves behind for the claims to speak about; no step looks at it, except
      that a nonce has to be new. */
  datatype History = History(
    nonces: map<ConnId, Digest>,
    hashed: set<Bytes>,
    checked: map<ConnId, Deal>,                     // the handshakes that computed a session key
    seen: map<ConnId, map<Digest, Servable>>,       // the services at the lookup
    atInsert: map<ConnId, map<Digest, Servable>>,   // the services at the insertion
    evicted: map<ConnId, Evictor>,
    rejected: nat)                                  // insertions that returned Err

  datatype State = State(
    services: map<Digest, Servable>,
    sessions: set<Session>,
    tasks: map<ConnId, Task>,
    reload: Reload,
    pools: map<ConnId, Pool>,
    past: History)

  datatype Action =
    | Connect(c: ConnId)
    | ReadControlHello(c: ConnId, digest: Digest)
    | SendNonce(c: ConnId, nonce: Digest)
    | Lookup(c: ConnId)
    | Refuse(c: ConnId)
    | CheckAuth(c: ConnId, auth: Digest)
    | Deny(c: ConnId)
    | TakeWriteGuard(c: ConnId)
    | ClearOld(c: ConnId)
    | SendAck(c: ConnId)
    | InsertNew(c: ConnId)
    | ReadDataHello(c: ConnId, key: Digest)
    | FindSession(c: ConnId)
    | Deliver(c: ConnId)
    | DeliverFails(c: ConnId)
    | IoError(c: ConnId)
    | AddService(cfg: Servable)
    | DeleteService(name: Text)
    | FinishReload
    | AcceptVisitor(p: ConnId, v: Visitor)
    | Pair(p: ConnId)
    | PairFails(p: ConnId)
    | TakeConn(p: ConnId)
    | ForwardDatagram(p: ConnId, v: Visitor)
    | EndPool(p: ConnId)

  function Init(services: map<Digest, Servable>): State {
    State(services, {}, map[], Idle, map[], History(map[], {}, map[], map[], map[], map[], 0))
  }

  predicate NoWriter(s: State) {
    forall c :: c in s.tasks ==> !HoldsWrite(s.tasks[c])
  }

  predicate NoReader(s: State) {
    forall c :: c in s.tasks ==> !HoldsRead(s.tasks[c])
  }

  predicate ServicesGuardFree(s: State) {
    forall c :: c in s.tasks ==> !s.tasks[c].Refusing?
  }

  /** An await on the connection that may return an error. */
  predicate DoesIo(t: Task) {
    t.Accepted? || t.Answering? || t.Refusing? || t.AwaitingAuth? || t.Denying? || t.Acking?
  }

  predicate OfPool(a: Action) {
    a.AcceptVisitor? || a.Pair? || a.PairFails? || a.TakeConn? || a.ForwardDatagram? || a.EndPool?
  }

  predicate PoolEnabled(q: Pool, a: Action)
    requires OfPool(a)
  {
    && !q.ended
    && match a
       case AcceptVisitor(_, v) => q.service.serviceType.Tcp? && v.acceptedOn == q.service.bindAddr
       case TakeConn(_) => q.service.serviceType.Udp? && q.conn.None? && q.queue != []
       case ForwardDatagram(_, v) => q.conn.Some? && v.acceptedOn == q.service.bindAddr
       case EndPool(_) => true
       case _ => q.queue != [] && q.visitors != []
  }

  function PoolAfter(q: Pool, a: Action): Pool
    requires OfPool(a) && PoolEnabled(q, a)
  {
    match a
    case AcceptVisitor(_, v) => q.(visitors := q.visitors + [v])
    case Pair(_) =>
      q.(queue := q.queue[1..], visitors := q.visitors[1..], pairs := q.pairs + [(q.queue[0], q.visitors[0])])
    case PairFails(_) => q.(queue := q.queue[1..])
    case TakeConn(_) => q.(conn := Some(q.queue[0]), queue := q.queue[1..])
    case ForwardDatagram(_, v) => q.(pairs := q.pairs + [(q.conn.value, v)])
    case EndPool(_) => q.(ended := true)
  }

  ghost predicate Enabled(s: State, a: Action) {
    match a
    case Connect(c) => c !in s.tasks
    case ReadControlHello(c, _) => c in s.tasks && s.tasks[c].Accepted?
    case SendNonce(c, n) => c in s.tasks && s.tasks[c].Answering? && n !in s.past.nonces.Values
    case Lookup(c) => c in s.tasks && s.tasks[c].LookingUp? && !s.reload.Adding?
    case Refuse(c) => c in s.tasks && s.tasks[c].Refusing?
    case CheckAuth(c, _) => c in s.tasks && s.tasks[c].AwaitingAuth?
    case Deny(c) => c in s.tasks && s.tasks[c].Denying?
    case TakeWriteGuard(c) => c in s.tasks && s.tasks[c].Waiting? && NoWriter(s) && NoReader(s)
    case ClearOld(c) => c in s.tasks && s.tasks[c].Clearing?
    case SendAck(c) => c in s.tasks && s.tasks[c].Acking?
    case InsertNew(c) => c in s.tasks && s.tasks[c].Inserting?
    case ReadDataHello(c, _) => c in s.tasks && s.tasks[c].Accepted?
    case FindSession(c) => c in s.tasks && s.tasks[c].Finding? && NoWriter(s)
    case Deliver(c) => c in s.tasks && s.tasks[c].Sending? && s.tasks[c].pool in s.pools
                       && !s.pools[s.tasks[c].pool].ended && |s.pools[s.tasks[c].pool].queue| < DATA_QUEUE
    case DeliverFails(c) => c in s.tasks && s.tasks[c].Sending? && s.tasks[c].pool in s.pools
                            && s.pools[s.tasks[c].pool].ended
    case IoError(c) => c in s.tasks && DoesIo(s.tasks[c])
    case AddService(_) => s.reload.Idle? && ServicesGuardFree(s)
    case DeleteService(_) => s.reload.Idle? && ServicesGuardFree(s)
    case FinishReload => !s.reload.Idle? && NoWriter(s) && NoReader(s)
    case AcceptVisitor(_, _) | Pair(_) | PairFails(_) | TakeConn(_) | ForwardDatagram(_, _) | EndPool(_) =>
      a.p in s.pools && PoolEnabled(s.pools[a.p], a)
  }

  function Move(s: State, c: ConnId, t: Task): State {
    s.(tasks := s.tasks[c := t])
  }

  /** The owners of the channels of one service. */
  ghost function Owners(sessions: set<Session>, digest: Digest): set<ConnId> {
    set t | t in sessions && t.k1 == digest :: t.v.pool
  }

  /** `remove1` under the write guard, and who did it to whom. */
  ghost function Evict(s: State, digest: Digest, who: Evictor): State {
    s.(sessions := Without1(s.sessions, digest),
       past := s.past.(evicted := map c | c in s.past.evicted.Keys + Owners(s.sessions, digest) ::
                                    if c in Owners(s.sessions, digest) then who else s.past.evicted[c]))
  }

  function ItemOf(h: HashFn, c: ConnId, d: Deal): Session {
    Item(d.digest, Key(h, d), Handle(d.cfg, c))
  }

  ghost function Step(h: HashFn, s: State, a: Action): State
    requires Enabled(s, a)
  {
    match a
    case Connect(c) => Move(s, c, Accepted)
    case ReadControlHello(c, digest) => Move(s, c, Answering(digest))
    case SendNonce(c, n) =>
      Move(s, c, LookingUp(s.tasks[c].digest, n)).(past := s.past.(nonces := s.past.nonces[c := n]))
    case Lookup(c) =>
      var LookingUp(d, n) := s.tasks[c];
      if d in s.services
      then Move(s, c, AwaitingAuth(Deal(d, n, s.services[d]))).(past := s.past.(seen := s.past.seen[c := s.services]))
      else Move(s, c, Refusing)
    case Refuse(c) => Move(s, c, Closed)
    case CheckAuth(c, auth) =>
      var deal := s.tasks[c].deal;
      Move(s, c, if Key(h, deal) == auth then Waiting(deal) else Denying)
      .(past := s.past.(hashed := s.past.hashed + {Challenge(deal)}, checked := s.past.checked[c := deal]))
    case Deny(c) => Move(s, c, Closed)
    case TakeWriteGuard(c) => Move(s, c, Clearing(s.tasks[c].deal))
    case ClearOld(c) =>
      var deal := s.tasks[c].deal;
      Evict(Move(s, c, Acking(deal)), deal.digest, ByHandshake(c, deal.digest))
    case SendAck(c) => Move(s, c, Inserting(s.tasks[c].deal))
    case InsertNew(c) =>
      var deal := s.tasks[c].deal;
      var item := ItemOf(h, c, deal);
      var ok := Accepts(s.sessions, item.k1, item.k2);
      Move(s, c, Established(deal)).(
        sessions := MultiMapSpec.Insert(s.sessions, item),
        pools := s.pools[c := Pool(item.k2, deal.cfg, [], [], None, [], false)],
        past := s.past.(atInsert := s.past.atInsert[c := s.services],
                        rejected := s.past.rejected + if ok then 0 else 1))
    case ReadDataHello(c, key) => Move(s, c, Finding(key))
    case FindSession(c) =>
      var key := s.tasks[c].key;
      var found := Lookup2(s.sessions, key);
      Move(s, c, if found.Some? then Sending(key, found.value.pool) else Closed)
    case Deliver(c) =>
      var Sending(key, p) := s.tasks[c];
      Move(s, c, Delivered(key, p)).(pools := s.pools[p := s.pools[p].(queue := s.pools[p].queue + [c])])
    case DeliverFails(c) => Move(s, c, Closed)
    case IoError(c) => Move(s, c, Closed)
    case AddService(cfg) => s.(services := s.services[h(cfg.name) := cfg], reload := Adding(h(cfg.name)))
    case DeleteService(name) => s.(services := s.services - {h(name)}, reload := Deleting(h(name)))
    case FinishReload => Evict(s, s.reload.digest, ByReload(s.reload.digest)).(reload := Idle)
    case AcceptVisitor(_, _) | Pair(_) | PairFails(_) | TakeConn(_) | ForwardDatagram(_, _) | EndPool(_) =>
      s.(pools := s.pools[a.p := PoolAfter(s.pools[a.p], a)])
  }

  ghost function Moves(h: HashFn): Machine<State, Action> {
    (s: State, a: Action) => if Enabled(s, a) then Some(Step(h, s, a)) else None
  }
}
