/** The whole path of a configuration change: the watcher (src/config_watcher.rs), its unbounded
    event queue, the run loop with the event in its hand (src/lib.rs), the bounded queue of the
    running instance, and the table that the instance keeps (src/server.rs, src/client.rs). */
module HotReload {
  import opened Constants
  import opened Wrappers
  import opened Protocol
  import opened Config
  import opened ServiceTable
  import opened ConfigWatcher
  import opened Runs

  datatype Args = Args(client: bool, server: bool)

  datatype RunMode = AsServer | AsClient | Undetermined

  function DetermineRunMode(c: Config, args: Args): RunMode {
    if args.client && args.server then Undetermined
    else if args.client then AsClient
    else if args.server then AsServer
    else if c.client.Some? && c.server.None? then AsClient
    else if c.client.None? && c.server.Some? then AsServer
    else Undetermined
  }

  /** What is fixed for a run. `names` bounds the service names that ever occur in it. */
  datatype Env = Env(h: HashFn, args: Args, names: set<Text>)

  /** What an instance keeps: its block without the services, which it never changes, and the table
      of the services. It is down when it panicked for want of a mode or of its block. */
  datatype Table =
    | ServerTable(serverBlock: ServerConfig, services: map<Digest, ServerService>)
    | ClientTable(clientBlock: ClientConfig, handles: map<Text, ClientService>)
    | Down

  ghost predicate Known(env: Env, c: Config) {
    NoCollision(env.h, env.names) && ServerServices(c).Keys <= env.names
  }

  /** The table that an instance started with this configuration builds. */
  ghost function Built(env: Env, c: Config): Table
    requires Known(env, c)
  {
    match DetermineRunMode(c, env.args)
    case AsServer =>
      if c.server.None? then Down
      else ServerTable(c.server.value.(services := map[]), TableOf(env.h, c.server.value.services))
    case AsClient =>
      if c.client.None? then Down
      else ClientTable(c.client.value.(services := map[]), c.client.value.services)
    case Undetermined => Down
  }

  ghost predicate EventKnown(env: Env, e: ConfigChange) {
    e.General? ==> Known(env, e.config)
  }

  ghost predicate AllKnown(env: Env, es: seq<ConfigChange>) {
    forall e :: e in es ==> EventKnown(env, e)
  }

  ghost function ApplyEvent(env: Env, t: Table, e: ConfigChange): Table
    requires EventKnown(env, e)
  {
    match e
    case General(c) => Built(env, c)
    case ServerChange(x) => if t.ServerTable? then t.(services := Apply(env.h, NamedServer(), t.services, x)) else t
    case ClientChange(x) => if t.ClientTable? then t.(handles := Apply(ById(), NamedClient(), t.handles, x)) else t
  }

  ghost function ApplyEvents(env: Env, t: Table, es: seq<ConfigChange>): Table
    requires AllKnown(env, es)
    decreases |es|
  {
    if es == [] then t
    else
      assert es[0] in es && forall e :: e in es[1..] ==> e in es;
      ApplyEvents(env, ApplyEvent(env, t, es[0]), es[1..])
  }

  // ---- the machine ----

  function EventsOf(previous: Config, latest: Config, o: Orders): seq<ConfigChange>
    requires forall n :: n in o.newServer ==> n in ServerServices(latest)
    requires forall n :: n in o.newClient ==> n in ClientServices(latest)
  {
    var r := CalculateEvents(previous, latest, o);
    if r.Some? then r.value else []
  }

  datatype Instance = Instance(table: Table, queue: seq<ConfigChange>)

  datatype State = State(
    accepted: Config,               // the last configuration that passed validation
    unsent: seq<ConfigChange>,      // its events that the watcher has still to send
    events: seq<ConfigChange>,      // the unbounded queue to the run loop
    hand: Option<ConfigChange>,     // the event that the run loop is working on
    instance: Option<Instance>,     // the last instance that was spawned
    crashed: bool,                  // it failed for a reason of its own
    stopped: bool)                  // the run loop returned

  datatype Action =
    | Rescan(parsed: Option<Config>, orders: Orders)
    | Send
    | Take
    | Restart
    | Forward
    | Handle
    | Crash

  function Init(c: Config): State {
    State(c, [], [General(c)], None, None, false, false)
  }

  /** An instance that a shutdown signal or a forwarded event still reaches. */
  predicate Up(s: State) {
    s.instance.Some? && !s.instance.value.table.Down? && !s.crashed
  }

  predicate Rejected(parsed: Option<Config>) {
    parsed.None? || Validate(parsed.value).Err?
  }

  ghost predicate Enabled(env: Env, s: State, a: Action) {
    match a
    case Rescan(parsed, orders) =>
      && s.unsent == []
      && (Rejected(parsed) || (Known(env, Validate(parsed.value).value)
                               && Walks(orders, s.accepted, Validate(parsed.value).value)))
    case Send => s.unsent != []
    case Take => !s.stopped && s.hand.None? && s.events != []
    case Restart => !s.stopped && s.hand.Some? && s.hand.value.General? && EventKnown(env, s.hand.value)
    case Forward => !s.stopped && s.hand.Some? && !s.hand.value.General?
                    && (Up(s) ==> |s.instance.value.queue| < UPDATE_QUEUE)
    case Handle => Up(s) && s.instance.value.queue != [] && EventKnown(env, s.instance.value.queue[0])
    case Crash => Up(s)
  }

  ghost function Step(env: Env, s: State, a: Action): State
    requires Enabled(env, s, a)
  {
    match a
    case Rescan(parsed, orders) =>
      if Rejected(parsed) then s
      else
        var latest := Validate(parsed.value).value;
        s.(accepted := latest, unsent := EventsOf(s.accepted, latest, orders))
    case Send => s.(unsent := s.unsent[1..], events := s.events + [s.unsent[0]])
    case Take => s.(events := s.events[1..], hand := Some(s.events[0]))
    case Restart =>
      // an instance that is gone fails the shutdown send or the join, and run returns
      if s.instance.Some? && !Up(s) then s.(stopped := true)
      else s.(hand := None, instance := Some(Instance(Built(env, s.hand.value.config), [])))
    case Forward =>
      if Up(s) then
        s.(hand := None, instance := Some(s.instance.value.(queue := s.instance.value.queue + [s.hand.value])))
      else s.(hand := None)
    case Handle =>
      var i := s.instance.value;
      s.(instance := Some(Instance(ApplyEvent(env, i.table, i.queue[0]), i.queue[1..])))
    case Crash => s.(crashed := true)
  }

  ghost function Moves(env: Env): Machine<State, Action> {
    (s: State, a: Action) => if Enabled(env, s, a) then Some(Step(env, s, a)) else None
  }

  // ---- what every state keeps ----

  function Queued(s: State): seq<ConfigChange> {
    if s.instance.Some? then s.instance.value.queue else []
  }

  function InHand(s: State): seq<ConfigChange> {
    if s.hand.Some? then [s.hand.value] else []
  }

  /** Every event that is still on its way, the next one first. */
  function Pending(s: State): seq<ConfigChange> {
    Queued(s) + (InHand(s) + (s.events + s.unsent))
  }

  function Running(s: State): Table {
    if s.instance.Some? then s.instance.value.table else Down
  }

  ghost predicate RunnableEvent(e: ConfigChange) {
    match e
    case General(c) => Runnable(c)
    case ServerChange(Add(cfg)) => cfg.token.Some?
    case ClientChange(Add(cfg)) => cfg.token.Some? && cfg.retryInterval.Some?
    case _ => true
  }

  /** Every service in the table is ready to be unwrapped, and lies under the key of its name. */
  ghost predicate RunnableTable(env: Env, t: Table) {
    match t
    case ServerTable(_, services) =>
      forall d :: d in services ==> services[d].token.Some? && env.h(services[d].name) == d
    case ClientTable(_, handles) =>
      forall n :: n in handles ==> handles[n].token.Some? && handles[n].retryInterval.Some? && handles[n].name == n
    case Down => true
  }

  ghost predicate AllRunnable(env: Env, s: State) {
    && Known(env, s.accepted) && Runnable(s.accepted)
    && AllKnown(env, Pending(s))
    && (forall e :: e in Pending(s) ==> RunnableEvent(e))
    && RunnableTable(env, Running(s))
    && |Queued(s)| <= UPDATE_QUEUE
    && (forall e :: e in Queued(s) ==> !e.General?)
    && (Running(s).Down? ==> Queued(s) == [])
  }

  /** The incremental path will end where a rebuild ends. */
  ghost predicate OnCourse(env: Env, s: State)
    requires AllRunnable(env, s)
  {
    !s.crashed && !s.stopped ==> ApplyEvents(env, Running(s), Pending(s)) == Built(env, s.accepted)
  }

  ghost predicate Inv(env: Env, s: State) {
    AllRunnable(env, s) && OnCourse(env, s)
  }

  lemma {:induction false} ApplyConcat(env: Env, t: Table, a: seq<ConfigChange>, b: seq<ConfigChange>)
    requires AllKnown(env, a) && AllKnown(env, b)
    ensures AllKnown(env, a + b)
    ensures ApplyEvents(env, t, a + b) == ApplyEvents(env, ApplyEvents(env, t, a), b)
    decreases |a|
  {
    if a == [] {
      assert a + b == b;
    } else {
      assert (a + b)[1..] == a[1..] + b;
      assert a[0] in a;
      ApplyConcat(env, ApplyEvent(env, t, a[0]), a[1..], b);
    }
  }

  lemma {:induction false} ServerApplies(env: Env, t: Table, es: seq<ConfigChange>)
    requires t.ServerTable? && forall e :: e in es ==> !e.General?
    ensures ApplyEvents(env, t, es) == t.(services := ApplyAll(env.h, NamedServer(), t.services, ServerEvents(es)))
    decreases |es|
  {
    if es == [] {
    } else {
      assert es[0] in es;
      ServerApplies(env, ApplyEvent(env, t, es[0]), es[1..]);
      var rest := ServerEvents(es[1..]);
      if es[0].ServerChange? {
        assert ([es[0].server] + rest)[1..] == rest;
      } else {
        assert ServerEvents(es) == rest;
      }
    }
  }

  lemma {:induction false} ClientApplies(env: Env, t: Table, es: seq<ConfigChange>)
    requires t.ClientTable? && forall e :: e in es ==> !e.General?
    ensures ApplyEvents(env, t, es) == t.(handles := ApplyAll(ById(), NamedClient(), t.handles, ClientEvents(es)))
    decreases |es|
  {
    if es == [] {
    } else {
      assert es[0] in es;
      ClientApplies(env, ApplyEvent(env, t, es[0]), es[1..]);
      var rest := ClientEvents(es[1..]);
      if es[0].ClientChange? {
        assert ([es[0].client] + rest)[1..] == rest;
      } else {
        assert ClientEvents(es) == rest;
      }
    }
  }

  lemma {:induction false} DownStaysDown(env: Env, es: seq<ConfigChange>)
    requires forall e :: e in es ==> !e.General?
    ensures ApplyEvents(env, Down, es) == Down
    decreases |es|
  {
    if es == [] {
    } else {
      assert es[0] in es;
      DownStaysDown(env, es[1..]);
    }
  }

  /** Service events take the table of the old configuration to that of the new: the mode
      stays, because the presence of both blocks does. */
  lemma ServiceEventsRebuild(env: Env, previous: Config, latest: Config, es: seq<ConfigChange>)
    requires Known(env, previous) && Known(env, latest)
    requires OnlyServicesDiffer(previous, latest)
    requires forall e :: e in es ==> !e.General?
    requires ApplyAll(env.h, NamedServer(), TableOf(env.h, ServerServices(previous)), ServerEvents(es))
          == TableOf(env.h, ServerServices(latest))
    requires ApplyAll(ById(), NamedClient(), ClientServices(previous), ClientEvents(es)) == ClientServices(latest)
    ensures ApplyEvents(env, Built(env, previous), es) == Built(env, latest)
  {
    assert DetermineRunMode(previous, env.args) == DetermineRunMode(latest, env.args);
    var t := Built(env, previous);
    match t {
      case ServerTable(_, _) => ServerApplies(env, t, es);
      case ClientTable(_, _) => ClientApplies(env, t, es);
      case Down => DownStaysDown(env, es);
    }
  }

  /** The events of any accepted change do, whether they restart the instance or not. */
  lemma EventsRebuild(env: Env, previous: Config, latest: Config, o: Orders)
    requires Known(env, previous) && Known(env, latest) && Runnable(latest)
    requires Walks(o, previous, latest)
    ensures AllKnown(env, EventsOf(previous, latest, o))
    ensures ApplyEvents(env, Built(env, previous), EventsOf(previous, latest, o)) == Built(env, latest)
  {
    EventsClassifyTheChange(previous, latest, o);
    if previous != latest {
      if NeedsRestart(previous, latest) {
        assert EventsOf(previous, latest, o) == [General(latest)];
        assert ApplyEvents(env, Built(env, previous), [General(latest)]) == Built(env, latest);
      } else {
        ServiceEventsAreDiffs(previous, latest, o);
        var es := EventsOf(previous, latest, o);
        AnyOrderRebuilds(env.h, previous, latest, o, es);
        ServiceEventsRebuild(env, previous, latest, es);
      }
    }
  }

  lemma EventsAreRunnable(previous: Config, latest: Config, o: Orders)
    requires Walks(o, previous, latest) && Runnable(latest)
    ensures forall e :: e in EventsOf(previous, latest, o) ==> RunnableEvent(e)
  {
    EventsClassifyTheChange(previous, latest, o);
    if previous != latest && !NeedsRestart(previous, latest) {
      ServiceEventsAreDiffs(previous, latest, o);
      var es := EventsOf(previous, latest, o);
      ServerEventsMembers(es);
      ClientEventsMembers(es);
      forall e | e in es ensures RunnableEvent(e) {
        match e {
          case ServerChange(x) =>
            assert x in ServerEvents(es) && IsChange(ServerServices(previous), ServerServices(latest), x);
          case ClientChange(x) =>
            assert x in ClientEvents(es) && IsChange(ClientServices(previous), ClientServices(latest), x);
          case General(_) =>
        }
      }
    }
  }

  lemma BuiltIsRunnable(env: Env, c: Config)
    requires Known(env, c) && Runnable(c)
    ensures RunnableTable(env, Built(env, c))
  {
  }

  // ---- one step ----

  lemma AcceptKeepsInv(env: Env, s: State, latest: Config, es: seq<ConfigChange>)
    requires Inv(env, s) && s.unsent == []
    requires Known(env, latest) && Runnable(latest)
    requires AllKnown(env, es) && forall e :: e in es ==> RunnableEvent(e)
    requires ApplyEvents(env, Built(env, s.accepted), es) == Built(env, latest)
    ensures Inv(env, s.(accepted := latest, unsent := es))
  {
    var s' := s.(accepted := latest, unsent := es);
    PendingGrows(s, latest, es);
    ApplyConcat(env, Running(s), Pending(s), es);
    assert Running(s') == Running(s) && Queued(s') == Queued(s);
    assert forall e :: e in Pending(s') ==> e in Pending(s) || e in es;
  }

  lemma PendingGrows(s: State, latest: Config, es: seq<ConfigChange>)
    requires s.unsent == []
    ensures Pending(s.(accepted := latest, unsent := es)) == Pending(s) + es
  {
    var q, hand := Queued(s), InHand(s);
    assert q + (hand + (s.events + es)) == q + (hand + (s.events + [])) + es;
  }

  lemma RescanKeepsInv(env: Env, s: State, a: Action)
    requires Inv(env, s) && a.Rescan? && Enabled(env, s, a)
    ensures Inv(env, Step(env, s, a))
  {
    if !Rejected(a.parsed) {
      ValidationIsIdempotent(a.parsed.value);
      var latest := Validate(a.parsed.value).value;
      EventsRebuild(env, s.accepted, latest, a.orders);
      EventsAreRunnable(s.accepted, latest, a.orders);
      AcceptKeepsInv(env, s, latest, EventsOf(s.accepted, latest, a.orders));
    }
  }

  /** A step that hands events on but neither adds nor applies one. */
  lemma SamePending(env: Env, s: State, s': State)
    requires Inv(env, s) && Pending(s') == Pending(s) && Running(s') == Running(s) && s'.accepted == s.accepted
    requires |Queued(s')| <= UPDATE_QUEUE && forall e :: e in Queued(s') ==> !e.General?
    requires Running(s').Down? ==> Queued(s') == []
    requires (s.crashed ==> s'.crashed) && (s.stopped ==> s'.stopped)
    ensures Inv(env, s')
  {
  }

  /** A step that takes events away, and may change the table. */
  lemma FewerPending(env: Env, s: State, s': State)
    requires AllRunnable(env, s) && s'.accepted == s.accepted && RunnableTable(env, Running(s'))
    requires forall e :: e in Pending(s') ==> e in Pending(s)
    requires forall e :: e in Queued(s') ==> e in Queued(s)
    requires |Queued(s')| <= |Queued(s)|
    requires Running(s').Down? ==> Queued(s') == []
    ensures AllRunnable(env, s')
  {
  }

  lemma SendKeepsInv(env: Env, s: State)
    requires Inv(env, s) && Enabled(env, s, Send)
    ensures Inv(env, Step(env, s, Send))
  {
    var s' := Step(env, s, Send);
    assert s'.events + s'.unsent == s.events + s.unsent;
    SamePending(env, s, s');
  }

  lemma TakeKeepsInv(env: Env, s: State)
    requires Inv(env, s) && Enabled(env, s, Take)
    ensures Inv(env, Step(env, s, Take))
  {
    var s' := Step(env, s, Take);
    assert InHand(s') + (s'.events + s'.unsent) == InHand(s) + (s.events + s.unsent);
    SamePending(env, s, s');
  }

  /** A General event makes everything before it irrelevant. */
  lemma ResetForgets(env: Env, t: Table, q: seq<ConfigChange>, c: Config, rest: seq<ConfigChange>)
    requires AllKnown(env, q) && Known(env, c) && AllKnown(env, rest)
    ensures AllKnown(env, q + ([General(c)] + rest))
    ensures ApplyEvents(env, t, q + ([General(c)] + rest)) == ApplyEvents(env, Built(env, c), rest)
  {
    ApplyConcat(env, t, q, [General(c)] + rest);
    assert ([General(c)] + rest)[1..] == rest;
  }

  lemma StoppedKeepsInv(env: Env, s: State)
    requires Inv(env, s)
    ensures Inv(env, s.(stopped := true))
  {
    SamePending(env, s, s.(stopped := true));
  }

  /** Dropping the old instance's queue loses nothing, for the General event behind it resets. */
  lemma RestartKeepsInv(env: Env, s: State)
    requires Inv(env, s) && Enabled(env, s, Restart)
    ensures Inv(env, Step(env, s, Restart))
  {
    var s', rest, c := Step(env, s, Restart), s.events + s.unsent, s.hand.value.config;
    if s'.stopped {
      StoppedKeepsInv(env, s);
    } else {
      assert Pending(s) == Queued(s) + ([General(c)] + rest);
      assert General(c) in Pending(s);
      assert Pending(s') == rest;
      BuiltIsRunnable(env, c);
      FewerPending(env, s, s');
      ResetForgets(env, Running(s), Queued(s), c, rest);
    }
  }

  /** A service event means nothing where no instance is up. */
  lemma DownSkips(env: Env, q: seq<ConfigChange>, e: ConfigChange, rest: seq<ConfigChange>)
    requires AllKnown(env, q) && AllKnown(env, rest) && !e.General?
    requires forall x :: x in q ==> !x.General?
    ensures AllKnown(env, q + ([e] + rest)) && AllKnown(env, q + rest)
    ensures ApplyEvents(env, Down, q + ([e] + rest)) == ApplyEvents(env, Down, q + rest)
  {
    DownStaysDown(env, q);
    ApplyConcat(env, Down, q, [e] + rest);
    ApplyConcat(env, Down, q, rest);
    assert ([e] + rest)[1..] == rest;
  }

  lemma DiscardKeepsInv(env: Env, s: State)
    requires Inv(env, s) && Enabled(env, s, Forward) && !Up(s)
    ensures Inv(env, s.(hand := None))
  {
    var s', rest, e := s.(hand := None), s.events + s.unsent, s.hand.value;
    assert Pending(s) == Queued(s) + ([e] + rest);
    assert Pending(s') == Queued(s) + rest;
    FewerPending(env, s, s');
    if !s.crashed && !s.stopped {
      DownSkips(env, Queued(s), e, rest);
    }
  }

  lemma ForwardKeepsInv(env: Env, s: State)
    requires Inv(env, s) && Enabled(env, s, Forward)
    ensures Inv(env, Step(env, s, Forward))
  {
    if Up(s) {
      var s', rest, e := Step(env, s, Forward), s.events + s.unsent, s.hand.value;
      assert Pending(s) == Queued(s) + ([e] + rest);
      assert Pending(s') == (Queued(s) + [e]) + ([] + rest);
      SamePending(env, s, s');
    } else {
      DiscardKeepsInv(env, s);
    }
  }

  /** A table stays runnable under an event that is. */
  lemma ApplyIsRunnable(env: Env, t: Table, e: ConfigChange)
    requires RunnableTable(env, t) && EventKnown(env, e) && RunnableEvent(e) && !e.General?
    ensures RunnableTable(env, ApplyEvent(env, t, e))
  {
  }

  lemma HandleKeepsInv(env: Env, s: State)
    requires Inv(env, s) && Enabled(env, s, Handle)
    ensures Inv(env, Step(env, s, Handle))
  {
    var s', q := Step(env, s, Handle), s.instance.value.queue;
    var rest := InHand(s) + (s.events + s.unsent);
    assert Pending(s) == [q[0]] + (q[1..] + rest);
    assert Pending(s') == Pending(s)[1..];
    assert q[0] in Pending(s) && q[0] in Queued(s);
    ApplyIsRunnable(env, s.instance.value.table, q[0]);
    FewerPending(env, s, s');
  }

  lemma StepKeepsInv(env: Env, s: State, a: Action)
    requires Inv(env, s) && Enabled(env, s, a)
    ensures Inv(env, Step(env, s, a))
  {
    match a {
      case Rescan(_, _) => RescanKeepsInv(env, s, a);
      case Send => SendKeepsInv(env, s);
      case Take => TakeKeepsInv(env, s);
      case Restart => RestartKeepsInv(env, s);
      case Forward => ForwardKeepsInv(env, s);
      case Handle => HandleKeepsInv(env, s);
      case Crash =>
    }
  }

  lemma RunKeepsInv(env: Env, s: State, run: seq<Action>)
    requires Inv(env, s) && IsRun(Moves(env), s, run)
    ensures Inv(env, RunFrom(Moves(env), s, run))
  {
    forall s, a | Inv(env, s) && Enabled(env, s, a) ensures Inv(env, Step(env, s, a)) {
      StepKeepsInv(env, s, a);
    }
    RunKeeps(Moves(env), s => Inv(env, s), s, run);
  }

  // ---- every run ----

  lemma InitInv(env: Env, c: Config)
    requires Known(env, c) && Runnable(c)
    ensures Inv(env, Init(c))
  {
    assert Pending(Init(c)) == [General(c)];
    assert ApplyEvents(env, Down, [General(c)]) == Built(env, c);
  }

  /** The last configuration of the files that the run looked at which validation accepted, as
      validation completed it; the first one if there was none. */
  function LastAccepted(c: Config, run: seq<Action>): Config {
    if run == [] then c
    else
      match run[|run| - 1]
      case Rescan(Some(file), _) =>
        if Validate(file).Ok? then Validate(file).value else LastAccepted(c, run[..|run| - 1])
      case _ => LastAccepted(c, run[..|run| - 1])
  }

  lemma StepAccepts(env: Env, c: Config, run: seq<Action>, s: State, a: Action)
    requires s.accepted == LastAccepted(c, run) && Enabled(env, s, a)
    ensures Step(env, s, a).accepted == LastAccepted(c, run + [a])
  {
    assert (run + [a])[..|run|] == run;
  }

  /** A valid file is taken up, and an invalid one changes nothing. */
  lemma AcceptedIsLast(env: Env, c: Config, run: seq<Action>)
    requires IsRun(Moves(env), Init(c), run)
    ensures RunFrom(Moves(env), Init(c), run).accepted == LastAccepted(c, run)
  {
    forall past, s: State, a | s.accepted == LastAccepted(c, past) && Enabled(env, s, a)
      ensures Step(env, s, a).accepted == LastAccepted(c, past + [a])
    {
      StepAccepts(env, c, past, s, a);
    }
    RunKeepsTrace(Moves(env), (past, s: State) => s.accepted == LastAccepted(c, past), Init(c), run);
  }

  lemma ReachedInv(env: Env, c: Config, run: seq<Action>)
    requires Known(env, c) && Runnable(c) && IsRun(Moves(env), Init(c), run)
    ensures Inv(env, RunFrom(Moves(env), Init(c), run))
  {
    InitInv(env, c);
    RunKeepsInv(env, Init(c), run);
  }

  /** After any run, as long as the instance and the run loop live: applying what is still
      queued for the instance, in hand, queued for the run loop and unsent, in this order, to
      the running instance gives exactly the instance built from the last valid file. */
  lemma IncrementalIsRebuild(env: Env, c: Config, run: seq<Action>)
    requires Known(env, c) && Runnable(c) && IsRun(Moves(env), Init(c), run)
    ensures var (s, last) := (RunFrom(Moves(env), Init(c), run), LastAccepted(c, run));
            && Known(env, last) && AllKnown(env, Pending(s))
            && (!s.crashed && !s.stopped ==> ApplyEvents(env, Running(s), Pending(s)) == Built(env, last))
            && (!s.crashed && !s.stopped && Pending(s) == [] ==> Running(s) == Built(env, last))
  {
    ReachedInv(env, c, run);
    AcceptedIsLast(env, c, run);
  }

  /** Whatever the files held, everything that a running server or client unwraps is there:
      tokens, retry intervals and names, in its table and in every event on its way to it. */
  lemma EverythingRunning(env: Env, c: Config, run: seq<Action>)
    requires Known(env, c) && Runnable(c) && IsRun(Moves(env), Init(c), run)
    ensures var s := RunFrom(Moves(env), Init(c), run);
            && Runnable(LastAccepted(c, run))
            && RunnableTable(env, Running(s))
            && (forall e :: e in Pending(s) ==> RunnableEvent(e))
            && |Queued(s)| <= UPDATE_QUEUE
  {
    ReachedInv(env, c, run);
    AcceptedIsLast(env, c, run);
  }

  // ---- events get through ----

  predicate Delivers(a: Action) {
    a.Send? || a.Take? || a.Restart? || a.Forward? || a.Handle?
  }

  /** How much is still to be done. */
  function Work(s: State): nat {
    4 * |s.unsent| + 3 * |s.events| + 2 * |InHand(s)| + |Queued(s)| + if s.stopped then 0 else 1
  }

  /** Every step of the delivery does some of it. */
  lemma DeliveryGetsOn(env: Env, s: State, a: Action)
    requires Enabled(env, s, a) && Delivers(a)
    ensures Work(Step(env, s, a)) < Work(s)
    ensures Step(env, s, a).accepted == s.accepted && Step(env, s, a).crashed == s.crashed
  {
  }

  lemma NextDelivery(env: Env, s: State) returns (a: Action)
    requires Inv(env, s) && !s.crashed && !s.stopped && Pending(s) != []
    ensures Enabled(env, s, a) && Delivers(a)
  {
    if s.hand.Some? {
      assert s.hand.value in Pending(s);
      if s.hand.value.General? {
        a := Restart;
      } else if Up(s) && |Queued(s)| == UPDATE_QUEUE {
        assert s.instance.value.queue[0] in Pending(s);
        a := Handle;
      } else {
        a := Forward;
      }
    } else if s.events != [] {
      a := Take;
    } else if s.unsent != [] {
      a := Send;
    } else {
      assert s.instance.value.queue[0] in Pending(s);
      a := Handle;
    }
  }

  lemma {:induction false} Drain(env: Env, s: State) returns (run: seq<Action>, s': State)
    requires Inv(env, s) && !s.crashed
    ensures Leads(Moves(env), s, run, s') && forall a :: a in run ==> Delivers(a)
    ensures Inv(env, s') && !s'.crashed && s'.accepted == s.accepted && (s'.stopped || Pending(s') == [])
    decreases Work(s)
  {
    if s.stopped || Pending(s) == [] {
      return [], s;
    }
    var a := NextDelivery(env, s);
    DeliveryGetsOn(env, s, a);
    StepKeepsInv(env, s, a);
    Then(Moves(env), s, [], s, a);
    assert [] + [a] == [a];
    var rest;
    rest, s' := Drain(env, Step(env, s, a));
    LeadsConcat(Moves(env), s, [a], Step(env, s, a), rest, s');
    run := [a] + rest;
  }

  /** The events of every valid file get through. Whatever happened so far, if the instance did not
      crash, delivering alone ends, whatever is delivered first, and it can end with the
      instance built from the last valid file; unless the run loop has returned. */
  lemma EventsGetThrough(env: Env, c: Config, run: seq<Action>) returns (more: seq<Action>, s': State)
    requires Known(env, c) && Runnable(c) && IsRun(Moves(env), Init(c), run)
    requires !RunFrom(Moves(env), Init(c), run).crashed
    ensures Leads(Moves(env), RunFrom(Moves(env), Init(c), run), more, s') && forall a :: a in more ==> Delivers(a)
    ensures Known(env, LastAccepted(c, run))
    ensures s'.stopped || (Pending(s') == [] && Running(s') == Built(env, LastAccepted(c, run)))
  {
    ReachedInv(env, c, run);
    AcceptedIsLast(env, c, run);
    more, s' := Drain(env, RunFrom(Moves(env), Init(c), run));
  }

  /** So does a valid file that the watcher finds after that, unless the run loop has returned: it
      can be taken up, and delivering can end with the instance built from it. */
  lemma FileGetsThrough(env: Env, c: Config, run: seq<Action>, file: Config, orders: Orders)
    returns (more: seq<Action>, s': State)
    requires Known(env, c) && Runnable(c) && IsRun(Moves(env), Init(c), run)
    requires !RunFrom(Moves(env), Init(c), run).crashed
    requires Validate(file).Ok? && Known(env, Validate(file).value)
    requires Walks(orders, LastAccepted(c, run), Validate(file).value)
    ensures Leads(Moves(env), RunFrom(Moves(env), Init(c), run), more, s')
    ensures s'.stopped || (Pending(s') == [] && Running(s') == Built(env, Validate(file).value))
  {
    var s := RunFrom(Moves(env), Init(c), run);
    ReachedInv(env, c, run);
    AcceptedIsLast(env, c, run);
    more, s' := Drain(env, s);
    if !s'.stopped {
      var found := Rescan(Some(file), orders);
      assert s'.unsent == [];
      Then(Moves(env), s, more, s', found);
      StepKeepsInv(env, s', found);
      var s2 := Step(env, s', found);
      var rest;
      rest, s' := Drain(env, s2);
      LeadsConcat(Moves(env), s, more + [found], s2, rest, s');
      more := more + [found] + rest;
    }
  }

  /** Since a state with a dead instance. */
  predicate StillDead(dead: Option<Instance>, past: seq<Action>, s: State) {
    s.instance == dead && !Up(s) && (Restart in past ==> s.stopped)
  }

  lemma StepStillDead(env: Env, dead: Option<Instance>, past: seq<Action>, s: State, a: Action)
    requires dead.Some? && StillDead(dead, past, s) && Enabled(env, s, a)
    ensures StillDead(dead, past + [a], Step(env, s, a))
  {
    assert forall x :: x in past + [a] <==> x in past || x == a;
  }

  /** An instance that crashed or never came up is not replaced: nothing changes what it was, and
      the next event that asks for a restart ends the run loop. */
  lemma DeadInstanceIsNotReplaced(env: Env, s: State, run: seq<Action>)
    requires s.instance.Some? && !Up(s) && IsRun(Moves(env), s, run)
    ensures RunFrom(Moves(env), s, run).instance == s.instance
    ensures Restart in run ==> RunFrom(Moves(env), s, run).stopped
  {
    forall past, x, a | StillDead(s.instance, past, x) && Enabled(env, x, a)
      ensures StillDead(s.instance, past + [a], Step(env, x, a))
    {
      StepStillDead(env, s.instance, past, x, a);
    }
    RunKeepsTrace(Moves(env), (past, x) => StillDead(s.instance, past, x), s, run);
  }

  /** What the run did to the instance and to its loop. */
  predicate EndsTold(run: seq<Action>, s: State) {
    && (s.crashed <==> Crash in run)
    && (s.stopped ==> Restart in run && s.instance.Some? && !Up(s))
  }

  lemma StepEndsTold(env: Env, run: seq<Action>, s: State, a: Action)
    requires EndsTold(run, s) && Enabled(env, s, a)
    ensures EndsTold(run + [a], Step(env, s, a))
  {
    assert forall x :: x in run + [a] <==> x in run || x == a;
  }

  /** No file takes anything down: an instance crashes for a reason of its own, and the run loop
      returns only when it was asked for a restart and the instance is gone. */
  lemma OnlyTheDeadStop(env: Env, c: Config, run: seq<Action>)
    requires IsRun(Moves(env), Init(c), run)
    ensures EndsTold(run, RunFrom(Moves(env), Init(c), run))
  {
    forall past, s, a | EndsTold(past, s) && Enabled(env, s, a) ensures EndsTold(past + [a], Step(env, s, a)) {
      StepEndsTold(env, past, s, a);
    }
    RunKeepsTrace(Moves(env), EndsTold, Init(c), run);
  }

  /** The arguments decide the mode if exactly one is given, else the only block does. */
  lemma RunModeRules(c: Config, args: Args)
    ensures var r := DetermineRunMode(c, args);
            && (args.client != args.server ==> r == if args.client then AsClient else AsServer)
            && (args.client && args.server ==> r == Undetermined)
            && (!args.client && !args.server ==>
                  && (r == AsServer <==> c.server != None && c.client == None)
                  && (r == AsClient <==> c.client != None && c.server == None))
  {
  }
}
