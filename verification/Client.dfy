/** The client's table of handles, one for each service, filled at the start and changed in place
    by hot reload (src/client.rs). A handle is known by the control channel it started, whose
    task is in ClientTask. */
module Client {
  import opened Config
  import opened ServiceTable
  import opened ConfigWatcher

  /** Channels are numbered in the order in which they were started. */
  type ChannelId = nat

  datatype Handle = Handle(service: ClientService, channel: ChannelId)

  type Handles = map<Text, Handle>

  function Services(handles: Handles): map<Text, ClientService> {
    map n | n in handles :: handles[n].service
  }

  /** The handles after some changes, when `started` channels were started before. */
  function HandlesAfter(handles: Handles, started: nat, es: seq<ServiceChange<ClientService>>): Handles
    decreases |es|
  {
    if es == [] then handles
    else
      match es[0]
      case Add(cfg) => HandlesAfter(handles[cfg.name := Handle(cfg, started)], started + 1, es[1..])
      case Delete(name) => HandlesAfter(handles - {name}, started, es[1..])
  }

  ghost predicate HandleKept(before: Handles, after: Handles, name: Text) {
    (name in before <==> name in after) && (name in before ==> before[name] == after[name])
  }

  lemma {:induction false} HandlesAfterAt(handles: Handles, started: nat, es: seq<ServiceChange<ClientService>>,
                                             name: Text)
    ensures var r := HandlesAfter(handles, started, es);
            if Touches(NamedClient(), es, name) then name in r ==> r[name].channel >= started
            else HandleKept(handles, r, name)
    decreases |es|
  {
    if es == [] {
    } else {
      match es[0] {
        case Add(cfg) => HandlesAfterAt(handles[cfg.name := Handle(cfg, started)], started + 1, es[1..], name);
        case Delete(n) => HandlesAfterAt(handles - {n}, started, es[1..], name);
      }
      TouchesFirstOrRest(es, name);
    }
  }

  lemma TouchesFirstOrRest(es: seq<ServiceChange<ClientService>>, name: Text)
    requires es != []
    ensures Touches(NamedClient(), es, name) <==>
              NameOf(NamedClient(), es[0]) == name || Touches(NamedClient(), es[1..], name)
  {
    assert es[0] in es && forall e :: e in es[1..] ==> e in es;
    if Touches(NamedClient(), es, name) {
      var e :| e in es && NameOf(NamedClient(), e) == name;
      assert e == es[0] || e in es[1..];
    }
  }

  /** Without the channels, this is what the table of a client in HotReload becomes. */
  lemma {:induction false} ServicesFollow(handles: Handles, started: nat, es: seq<ServiceChange<ClientService>>)
    ensures Services(HandlesAfter(handles, started, es)) == ApplyAll(ById(), NamedClient(), Services(handles), es)
    decreases |es|
  {
    if es == [] {
    } else {
      match es[0] {
        case Add(cfg) =>
          var handles' := handles[cfg.name := Handle(cfg, started)];
          assert Services(handles') == Services(handles)[cfg.name := cfg];
          ServicesFollow(handles', started + 1, es[1..]);
        case Delete(name) =>
          assert Services(handles - {name}) == Services(handles) - {name};
          ServicesFollow(handles - {name}, started, es[1..]);
      }
    }
  }

  /** Hot reload disturbs only what changed: the events of a difference, in any order, leave a
      client with exactly the services of the new configuration; a service that is the same
      before and after keeps its control channel, and every other one gets a channel that was
      started by these events. */
  lemma OnlyChangedServicesRestart(before: map<Text, ClientService>, after: map<Text, ClientService>,
                                   es: seq<ServiceChange<ClientService>>, handles: Handles, started: nat)
    requires NamedByKey(NamedClient(), after) && IsDiff(before, after, es)
    requires Services(handles) == before && forall n :: n in handles ==> handles[n].channel < started
    ensures var r := HandlesAfter(handles, started, es);
            && Services(r) == after
            && (forall n :: n in after ==> (SameAt(before, after, n) <==> r[n].channel < started))
            && (forall n :: n in after && SameAt(before, after, n) ==> n in handles && r[n] == handles[n])
  {
    var r := HandlesAfter(handles, started, es);
    ServicesFollow(handles, started, es);
    TableById(before);
    TableById(after);
    DiffRebuilds(ById(), NamedClient(), before, after, es);
    forall n | n in after
      ensures SameAt(before, after, n) <==> r[n].channel < started
      ensures SameAt(before, after, n) ==> n in handles && r[n] == handles[n]
    {
      assert n in Services(r);
      HandlesAfterAt(handles, started, es, n);
      if SameAt(before, after, n) {
        forall e | e in es ensures NameOf(NamedClient(), e) != n {
          assert IsChange(before, after, e);
        }
        assert HandleKept(handles, r, n);
      } else {
        var e := ChangeFor(after, n);
        assert IsChange(before, after, e);
        assert e in es && NameOf(NamedClient(), e) == n;
      }
    }
  }

  /** Every channel that was started belongs to one handle, or its handle was dropped. */
  ghost predicate AccountedFor(handles: Handles, started: nat, dropped: set<ChannelId>) {
    && (forall n :: n in handles ==> handles[n].channel < started && handles[n].channel !in dropped)
    && (forall m, n :: m in handles && n in handles && handles[m].channel == handles[n].channel ==> m == n)
    && (forall id :: id in dropped ==> id < started)
    && (forall id: ChannelId :: id < started ==> id in dropped || HasChannel(handles, id))
  }

  ghost predicate HasChannel(handles: Handles, id: ChannelId) {
    exists n :: n in handles && handles[n].channel == id
  }

  /** The channel that a handle of this name runs, if there is one. */
  function ChannelOf(handles: Handles, name: Text): set<ChannelId> {
    if name in handles then {handles[name].channel} else {}
  }

  lemma AccountedAfterStop(handles: Handles, started: nat, dropped: set<ChannelId>, name: Text)
    requires AccountedFor(handles, started, dropped)
    ensures AccountedFor(handles - {name}, started, dropped + ChannelOf(handles, name))
  {
    forall id: ChannelId | id < started && id !in dropped + ChannelOf(handles, name)
      ensures HasChannel(handles - {name}, id)
    {
      var n :| n in handles && handles[n].channel == id;
      assert n in handles - {name} && (handles - {name})[n].channel == id;
    }
  }

  lemma AccountedAfterStart(handles: Handles, started: nat, dropped: set<ChannelId>, name: Text, cfg: ClientService)
    requires AccountedFor(handles, started, dropped)
    ensures AccountedFor(handles[name := Handle(cfg, started)], started + 1, dropped + ChannelOf(handles, name))
  {
    var handles' := handles[name := Handle(cfg, started)];
    assert handles'[name].channel == started;
    forall id: ChannelId | id < started && id !in dropped + ChannelOf(handles, name) ensures HasChannel(handles', id) {
      var n :| n in handles && handles[n].channel == id;
      assert handles'[n].channel == id;
    }
  }

  class Client {
    var handles: Handles
    var started: nat
    var dropped: set<ChannelId>

    ghost predicate Valid()
      reads this
    {
      AccountedFor(handles, started, dropped)
    }

    constructor (config: ClientConfig)
      ensures Valid() && Services(handles) == config.services && dropped == {}
    {
      handles, started, dropped := map[], 0, {};
      new;
      var pending := config.services.Keys;
      while pending != {}
        invariant pending <= config.services.Keys
        invariant Valid() && dropped == {}
        invariant handles.Keys == config.services.Keys - pending
        invariant forall n :: n in handles ==> handles[n].service == config.services[n]
        decreases pending
      {
        var name :| name in pending;
        Start(name, config.services[name]);
        pending := pending - {name};
      }
    }

    /** Inserting a handle drops the one it replaces. */
    method Start(name: Text, cfg: ClientService)
      requires Valid()
      modifies this
      ensures Valid()
      ensures handles == old(handles)[name := Handle(cfg, old(started))] && started == old(started) + 1
      ensures dropped == old(dropped) + ChannelOf(old(handles), name)
    {
      AccountedAfterStart(handles, started, dropped, name, cfg);
      dropped := dropped + ChannelOf(handles, name);
      handles := handles[name := Handle(cfg, started)];
      started := started + 1;
    }

    /** Removing a handle drops it. */
    method Stop(name: Text)
      requires Valid()
      modifies this
      ensures Valid()
      ensures handles == old(handles) - {name} && started == old(started)
      ensures dropped == old(dropped) + ChannelOf(old(handles), name)
    {
      AccountedAfterStop(handles, started, dropped, name);
      dropped := dropped + ChannelOf(handles, name);
      handles := handles - {name};
    }

    method HandleHotReload(e: ConfigChange)
      requires Valid()
      modifies this
      ensures Valid()
      ensures handles == HandlesAfter(old(handles), old(started), ClientEvents([e]))
      ensures started == old(started) + if e.ClientChange? && e.client.Add? then 1 else 0
    {
      assert ClientEvents([e]) == if e.ClientChange? then [e.client] else [];
      match e {
        case ClientChange(Add(cfg)) => Start(cfg.name, cfg);
        case ClientChange(Delete(name)) => Stop(name);
        case General(_) =>
        case ServerChange(_) =>
      }
    }

    /** The drain at shutdown drops every handle that is left. */
    method Shutdown()
      requires Valid()
      modifies this
      ensures Valid() && handles == map[] && started == old(started)
      ensures forall id: ChannelId :: id in dropped <==> id < started
    {
      while handles != map[]
        invariant Valid() && started == old(started)
        decreases handles.Keys
      {
        assert handles.Keys != {};
        var name :| name in handles;
        Stop(name);
      }
    }
  }
}
