/** The difference between two configurations as a list of events (src/config_watcher.rs). */
module ConfigWatcher {
  import opened Wrappers
  import opened Protocol
  import opened Config
  import opened ServiceTable

  datatype ConfigChange =
    | General(config: Config)
    | ServerChange(server: ServiceChange<ServerService>)
    | ClientChange(client: ServiceChange<ClientService>)

  /** The orders in which one call walks over the hash maps. Rust leaves them open. */
  datatype Orders = Orders(oldServer: seq<Text>, newServer: seq<Text>, oldClient: seq<Text>, newClient: seq<Text>)

  ghost predicate WalkOver<S>(order: seq<Text>, services: map<Text, S>) {
    && (forall n :: n in order <==> n in services)
    && (forall i, j :: 0 <= i < j < |order| ==> order[i] != order[j])
  }

  function ServerServices(c: Config): map<Text, ServerService> {
    if c.server.Some? then c.server.value.services else map[]
  }

  function ClientServices(c: Config): map<Text, ClientService> {
    if c.client.Some? then c.client.value.services else map[]
  }

  ghost predicate Walks(o: Orders, previous: Config, latest: Config) {
    && WalkOver(o.oldServer, ServerServices(previous)) && WalkOver(o.newServer, ServerServices(latest))
    && WalkOver(o.oldClient, ClientServices(previous)) && WalkOver(o.newClient, ClientServices(latest))
  }

  function Deletions<S>(after: map<Text, S>, order: seq<Text>): seq<ServiceChange<S>> {
    if order == [] then []
    else (if order[0] in after then [] else [Delete(order[0])]) + Deletions(after, order[1..])
  }

  function Additions<S(==)>(before: map<Text, S>, after: map<Text, S>, order: seq<Text>): seq<ServiceChange<S>>
    requires forall n :: n in order ==> n in after
  {
    if order == [] then []
    else
      (if order[0] in before && before[order[0]] == after[order[0]] then [] else [Add(after[order[0]])])
      + Additions(before, after, order[1..])
  }

  function WrapServer(es: seq<ServiceChange<ServerService>>): (r: seq<ConfigChange>)
    ensures |r| == |es| && forall i :: 0 <= i < |r| ==> r[i] == ServerChange(es[i])
  {
    seq(|es|, i requires 0 <= i < |es| => ServerChange(es[i]))
  }

  function WrapClient(es: seq<ServiceChange<ClientService>>): (r: seq<ConfigChange>)
    ensures |r| == |es| && forall i :: 0 <= i < |r| ==> r[i] == ClientChange(es[i])
  {
    seq(|es|, i requires 0 <= i < |es| => ClientChange(es[i]))
  }

  predicate ServerEqualWithoutService(a: ServerConfig, b: ServerConfig) {
    a.(services := map[]) == b.(services := map[])
  }

  predicate ClientEqualWithoutService(a: ClientConfig, b: ClientConfig) {
    a.(services := map[]) == b.(services := map[])
  }

  function ServerInstanceEvents(a: ServerConfig, b: ServerConfig, o: Orders): Option<seq<ConfigChange>>
    requires forall n :: n in o.newServer ==> n in b.services
  {
    if !ServerEqualWithoutService(a, b) then None
    else Some(WrapServer(Deletions(b.services, o.oldServer) + Additions(a.services, b.services, o.newServer)))
  }

  function ClientInstanceEvents(a: ClientConfig, b: ClientConfig, o: Orders): Option<seq<ConfigChange>>
    requires forall n :: n in o.newClient ==> n in b.services
  {
    if !ClientEqualWithoutService(a, b) then None
    else Some(WrapClient(Deletions(b.services, o.oldClient) + Additions(a.services, b.services, o.newClient)))
  }

  /** `calculate_events`, for one choice of iteration orders. */
  function CalculateEvents(previous: Config, latest: Config, o: Orders): Option<seq<ConfigChange>>
    requires forall n :: n in o.newServer ==> n in ServerServices(latest)
    requires forall n :: n in o.newClient ==> n in ClientServices(latest)
  {
    if previous == latest then None
    else if previous.server.Some? != latest.server.Some? || previous.client.Some? != latest.client.Some? then
      Some([General(latest)])
    else
      var server :=
        if previous.server == latest.server then Some([])
        else
          assert latest.server.value.services == ServerServices(latest);
          ServerInstanceEvents(previous.server.value, latest.server.value, o);
      if server.None? then Some([General(latest)])
      else
        var client :=
          if previous.client == latest.client then Some([])
          else
            assert latest.client.value.services == ClientServices(latest);
            ClientInstanceEvents(previous.client.value, latest.client.value, o);
        if client.None? then Some([General(latest)]) else Some(server.value + client.value)
  }

  // ---- what the events are ----

  function NamedServer(): ServerService -> Text {
    (s: ServerService) => s.name
  }

  function NamedClient(): ClientService -> Text {
    (s: ClientService) => s.name
  }

  /** The server changes among some events, in their order. A server ignores the others. */
  function ServerEvents(es: seq<ConfigChange>): seq<ServiceChange<ServerService>> {
    if es == [] then []
    else (if es[0].ServerChange? then [es[0].server] else []) + ServerEvents(es[1..])
  }

  function ClientEvents(es: seq<ConfigChange>): seq<ServiceChange<ClientService>> {
    if es == [] then []
    else (if es[0].ClientChange? then [es[0].client] else []) + ClientEvents(es[1..])
  }

  /** A change that no running instance can absorb: a block came or went, or something in one that
      is not a service changed. */
  ghost predicate NeedsRestart(previous: Config, latest: Config) {
    || (previous.server == None) != (latest.server == None)
    || (previous.client == None) != (latest.client == None)
    || (previous.server != None && ServerFieldChanged(previous.server.value, latest.server.value))
    || (previous.client != None && ClientFieldChanged(previous.client.value, latest.client.value))
  }

  ghost predicate ServerFieldChanged(a: ServerConfig, b: ServerConfig) {
    || a.bindAddr != b.bindAddr || a.defaultToken != b.defaultToken
    || a.transport != b.transport || a.heartbeatInterval != b.heartbeatInterval
  }

  ghost predicate ClientFieldChanged(a: ClientConfig, b: ClientConfig) {
    || a.remoteAddr != b.remoteAddr || a.defaultToken != b.defaultToken || a.transport != b.transport
    || a.heartbeatTimeout != b.heartbeatTimeout || a.retryInterval != b.retryInterval
  }

  function ChangeFor<S>(after: map<Text, S>, name: Text): ServiceChange<S> {
    if name in after then Add(after[name]) else Delete(name)
  }

  ghost predicate IsChange<S>(before: map<Text, S>, after: map<Text, S>, e: ServiceChange<S>) {
    exists name :: !SameAt(before, after, name) && e == ChangeFor(after, name)
  }

  /** `es` holds one change for each service that differs, and no other change. */
  ghost predicate IsDiff<S(!new)>(before: map<Text, S>, after: map<Text, S>, es: seq<ServiceChange<S>>) {
    forall e :: e in es <==> IsChange(before, after, e)
  }

  ghost predicate DistinctNames<S>(named: S -> Text, es: seq<ServiceChange<S>>) {
    forall i, j :: 0 <= i < j < |es| ==> NameOf(named, es[i]) != NameOf(named, es[j])
  }

  ghost predicate NamedByKey<S>(named: S -> Text, services: map<Text, S>) {
    forall n :: n in services ==> named(services[n]) == n
  }

  /** `e` deletes a service that `after` lacks. */
  predicate Deletes<S>(after: map<Text, S>, order: seq<Text>, e: ServiceChange<S>) {
    e.Delete? && e.name in order && e.name !in after
  }

  lemma {:induction false} DeletionsAre<S>(after: map<Text, S>, order: seq<Text>)
    ensures forall e :: e in Deletions(after, order) <==> Deletes(after, order, e)
  {
    if order == [] {
    } else {
      DeletionsAre(after, order[1..]);
    }
  }

  /** `e` adds a service that `before` lacks or has differently. */
  ghost predicate Adds<S>(before: map<Text, S>, after: map<Text, S>, order: seq<Text>, e: ServiceChange<S>) {
    exists n :: n in order && n in after && !SameAt(before, after, n) && e == Add(after[n])
  }

  lemma {:induction false} AdditionsAre<S>(before: map<Text, S>, after: map<Text, S>, order: seq<Text>)
    requires forall n :: n in order ==> n in after
    ensures forall e :: e in Additions(before, after, order) <==> Adds(before, after, order, e)
  {
    if order == [] {
    } else {
      AdditionsAre(before, after, order[1..]);
      forall e ensures e in Additions(before, after, order) <==> Adds(before, after, order, e) {
        if Adds(before, after, order[1..], e) {
          var n :| n in order[1..] && n in after && !SameAt(before, after, n) && e == Add(after[n]);
          assert n in order;
        }
        if Adds(before, after, order, e) {
          var n :| n in order && n in after && !SameAt(before, after, n) && e == Add(after[n]);
          assert n == order[0] || n in order[1..];
        }
        assert order[0] in order;
      }
    }
  }

  lemma InstanceEventsAreDiff<S(!new)>(before: map<Text, S>, after: map<Text, S>,
                                       walkOld: seq<Text>, walkNew: seq<Text>)
    requires WalkOver(walkOld, before) && WalkOver(walkNew, after)
    ensures IsDiff(before, after, Deletions(after, walkOld) + Additions(before, after, walkNew))
  {
    DeletionsAre(after, walkOld);
    AdditionsAre(before, after, walkNew);
    var ds, ads := Deletions(after, walkOld), Additions(before, after, walkNew);
    forall e | e in ds + ads ensures IsChange(before, after, e) {
      if e in ds {
        assert Deletes(after, walkOld, e);
        assert !SameAt(before, after, e.name) && e == ChangeFor(after, e.name);
      } else {
        assert Adds(before, after, walkNew, e);
        var n :| n in walkNew && n in after && !SameAt(before, after, n) && e == Add(after[n]);
        assert e == ChangeFor(after, n);
      }
    }
    forall e | IsChange(before, after, e) ensures e in ds + ads {
      var name :| !SameAt(before, after, name) && e == ChangeFor(after, name);
      if name in after {
        assert Adds(before, after, walkNew, e);
      } else {
        assert Deletes(after, walkOld, e);
      }
    }
  }

  lemma {:induction false} DeletionsDistinct<S>(named: S -> Text, after: map<Text, S>, order: seq<Text>)
    requires forall i, j :: 0 <= i < j < |order| ==> order[i] != order[j]
    ensures DistinctNames(named, Deletions(after, order))
  {
    if order == [] {
    } else {
      DeletionsDistinct(named, after, order[1..]);
      DeletionsAre(after, order[1..]);
      var head, rest := if order[0] in after then [] else [Delete(order[0])], Deletions(after, order[1..]);
      forall x, y | x in head && y in rest ensures NameOf(named, x) != NameOf(named, y) {
        assert Deletes(after, order[1..], y);
      }
      DistinctConcat(named, head, rest);
    }
  }

  lemma {:induction false} AdditionsDistinct<S>(named: S -> Text, before: map<Text, S>, after: map<Text, S>,
                                                order: seq<Text>)
    requires NamedByKey(named, after) && forall n :: n in order ==> n in after
    requires forall i, j :: 0 <= i < j < |order| ==> order[i] != order[j]
    ensures DistinctNames(named, Additions(before, after, order))
  {
    if order == [] {
    } else {
      AdditionsDistinct(named, before, after, order[1..]);
      AdditionsAre(before, after, order[1..]);
      var rest := Additions(before, after, order[1..]);
      forall e | e in rest ensures NameOf(named, e) in order[1..] {
        assert Adds(before, after, order[1..], e);
      }
      DistinctConcat(named, if SameAt(before, after, order[0]) then [] else [Add(after[order[0]])], rest);
    }
  }

  /** No service occurs twice among the events of one side. */
  lemma InstanceEventsDistinct<S>(named: S -> Text, before: map<Text, S>, after: map<Text, S>,
                                  walkOld: seq<Text>, walkNew: seq<Text>)
    requires WalkOver(walkOld, before) && WalkOver(walkNew, after) && NamedByKey(named, after)
    ensures DistinctNames(named, Deletions(after, walkOld) + Additions(before, after, walkNew))
  {
    DeletionsDistinct(named, after, walkOld);
    AdditionsDistinct(named, before, after, walkNew);
    DeletionsAre(after, walkOld);
    AdditionsAre(before, after, walkNew);
    var ds, ads := Deletions(after, walkOld), Additions(before, after, walkNew);
    forall x, y | x in ds && y in ads ensures NameOf(named, x) != NameOf(named, y) {
      assert Adds(before, after, walkNew, y);
      assert Deletes(after, walkOld, x);
    }
    DistinctConcat(named, ds, ads);
  }

  lemma DistinctConcat<S>(named: S -> Text, a: seq<ServiceChange<S>>, b: seq<ServiceChange<S>>)
    requires DistinctNames(named, a) && DistinctNames(named, b)
    requires forall x, y :: x in a && y in b ==> NameOf(named, x) != NameOf(named, y)
    ensures DistinctNames(named, a + b)
  {
    forall i, j | 0 <= i < j < |a + b| ensures NameOf(named, (a + b)[i]) != NameOf(named, (a + b)[j]) {
      if i < |a| <= j {
        assert a[i] in a && b[j - |a|] in b;
      }
    }
  }

  lemma {:induction false} ServerEventsOf(es: seq<ServiceChange<ServerService>>, fs: seq<ServiceChange<ClientService>>)
    ensures ServerEvents(WrapServer(es) + WrapClient(fs)) == es
  {
    var all := WrapServer(es) + WrapClient(fs);
    if all == [] {
    } else if es != [] {
      assert all[1..] == WrapServer(es[1..]) + WrapClient(fs);
      ServerEventsOf(es[1..], fs);
    } else {
      assert all[1..] == WrapServer(es) + WrapClient(fs[1..]);
      ServerEventsOf(es, fs[1..]);
    }
  }

  lemma {:induction false} ClientEventsOf(es: seq<ServiceChange<ServerService>>, fs: seq<ServiceChange<ClientService>>)
    ensures ClientEvents(WrapServer(es) + WrapClient(fs)) == fs
  {
    var all := WrapServer(es) + WrapClient(fs);
    if all == [] {
    } else if es != [] {
      assert all[1..] == WrapServer(es[1..]) + WrapClient(fs);
      ClientEventsOf(es[1..], fs);
    } else {
      assert all[1..] == WrapServer(es) + WrapClient(fs[1..]);
      ClientEventsOf(es, fs[1..]);
    }
  }

  /** Both halves of a difference that needs no restart, for any iteration orders. */
  lemma ServiceEventsAreDiffs(previous: Config, latest: Config, o: Orders)
    requires Walks(o, previous, latest)
    requires previous != latest && !NeedsRestart(previous, latest)
    ensures var es := CalculateEvents(previous, latest, o).value;
            && (forall e :: e in es ==> !e.General?)
            && IsDiff(ServerServices(previous), ServerServices(latest), ServerEvents(es))
            && IsDiff(ClientServices(previous), ClientServices(latest), ClientEvents(es))
            && (Runnable(latest) ==> DistinctNames(NamedServer(), ServerEvents(es)))
            && (Runnable(latest) ==> DistinctNames(NamedClient(), ClientEvents(es)))
  {
    var s, s' := ServerServices(previous), ServerServices(latest);
    var c, c' := ClientServices(previous), ClientServices(latest);
    InstanceEventsAreDiff(s, s', o.oldServer, o.newServer);
    InstanceEventsAreDiff(c, c', o.oldClient, o.newClient);
    if Runnable(latest) {
      InstanceEventsDistinct(NamedServer(), s, s', o.oldServer, o.newServer);
      InstanceEventsDistinct(NamedClient(), c, c', o.oldClient, o.newClient);
    }
    var es := Deletions(s', o.oldServer) + Additions(s, s', o.newServer);
    var fs := Deletions(c', o.oldClient) + Additions(c, c', o.newClient);
    if previous.server == latest.server {
      NoDifferenceNoEvents(s, es);
    }
    if previous.client == latest.client {
      NoDifferenceNoEvents(c, fs);
    }
    assert CalculateEvents(previous, latest, o).value == WrapServer(es) + WrapClient(fs);
    ServerEventsOf(es, fs);
    ClientEventsOf(es, fs);
  }

  lemma NoDifferenceNoEvents<S(!new)>(services: map<Text, S>, es: seq<ServiceChange<S>>)
    requires IsDiff(services, services, es)
    ensures es == []
  {
    if es != [] {
      HasMember(es);
      assert false;
    }
  }

  lemma HasMember<S>(es: seq<S>)
    requires es != []
    ensures exists e :: e in es
  {
    assert es[0] in es;
  }

  /** The two configurations are the same but for the services in their blocks. */
  ghost predicate OnlyServicesDiffer(a: Config, b: Config) {
    && (a.server == None <==> b.server == None) && (a.client == None <==> b.client == None)
    && (a.server != None ==> b.server.value == a.server.value.(services := b.server.value.services))
    && (a.client != None ==> b.client.value == a.client.value.(services := b.client.value.services))
  }

  /** `None` means no change, `Some` is never empty, and a restart is asked for exactly when
      the presence of a block or a field outside the services changed; then nothing else is. */
  lemma EventsClassifyTheChange(previous: Config, latest: Config, o: Orders)
    requires Walks(o, previous, latest)
    ensures var r := CalculateEvents(previous, latest, o);
            && (r.None? <==> previous == latest)
            && (r.Some? ==> r.value != [])
            && (r.Some? ==> ((exists e :: e in r.value && e.General?) <==> NeedsRestart(previous, latest)))
            && (r.Some? && NeedsRestart(previous, latest) ==> r.value == [General(latest)])
            && (r.Some? && !NeedsRestart(previous, latest) ==> OnlyServicesDiffer(previous, latest))
  {
    var r := CalculateEvents(previous, latest, o);
    if previous != latest {
      if NeedsRestart(previous, latest) {
        assert r.value == [General(latest)];
        assert r.value[0] in r.value;
      } else {
        ServiceEventsAreDiffs(previous, latest, o);
        if r.value == [] {
          EmptyDiff(ServerServices(previous), ServerServices(latest));
          EmptyDiff(ClientServices(previous), ClientServices(latest));
          assert false;
        }
      }
    }
  }

  lemma EmptyDiff<S(!new)>(before: map<Text, S>, after: map<Text, S>)
    requires IsDiff(before, after, [])
    ensures before == after
  {
    forall name ensures SameAt(before, after, name) {
      var none: seq<ServiceChange<S>> := [];
      assert ChangeFor(after, name) !in none;
    }
    SameEverywhere(before, after);
  }

  /** A difference, in any order and with any repetitions, rebuilds the table. */
  lemma DiffRebuilds<K, S(!new)>(key: Text -> K, named: S -> Text, before: map<Text, S>, after: map<Text, S>,
                                 es: seq<ServiceChange<S>>)
    requires NoCollision(key, before.Keys + after.Keys)
    requires NamedByKey(named, after) && IsDiff(before, after, es)
    ensures NoCollision(key, before.Keys) && NoCollision(key, after.Keys)
    ensures ApplyAll(key, named, TableOf(key, before), es) == TableOf(key, after)
  {
    forall e | e in es ensures Toward(named, after, e) && NameOf(named, e) in before.Keys + after.Keys {
      assert IsChange(before, after, e);
    }
    forall name ensures Touches(named, es, name) || SameAt(before, after, name) {
      if !SameAt(before, after, name) {
        assert IsChange(before, after, ChangeFor(after, name));
        assert NameOf(named, ChangeFor(after, name)) == name;
      }
    }
    Converges(key, named, before, after, es);
  }

  function ById(): Text -> Text {
    (n: Text) => n
  }

  lemma TableById<S>(services: map<Text, S>)
    ensures NoCollision(ById(), services.Keys)
    ensures TableOf(ById(), services) == services
  {
    assert forall n :: n in services ==> ById()(n) == n;
  }

  lemma {:induction false} ServerEventsMembers(es: seq<ConfigChange>)
    ensures forall e :: e in ServerEvents(es) <==> ServerChange(e) in es
  {
    if es == [] {
    } else {
      ServerEventsMembers(es[1..]);
    }
  }

  lemma {:induction false} ClientEventsMembers(es: seq<ConfigChange>)
    ensures forall e :: e in ClientEvents(es) <==> ClientChange(e) in es
  {
    if es == [] {
    } else {
      ClientEventsMembers(es[1..]);
    }
  }

  /** The incremental path agrees with the rebuild: the events of a change that needs no
      restart, in whatever order they are delivered, turn both service tables of the previous
      configuration into those of the latest. */
  lemma AnyOrderRebuilds(h: HashFn, previous: Config, latest: Config, o: Orders, es: seq<ConfigChange>)
    requires Walks(o, previous, latest) && Runnable(latest)
    requires previous != latest && !NeedsRestart(previous, latest)
    requires forall e :: e in es <==> e in CalculateEvents(previous, latest, o).value
    requires NoCollision(h, ServerServices(previous).Keys + ServerServices(latest).Keys)
    ensures NoCollision(h, ServerServices(previous).Keys) && NoCollision(h, ServerServices(latest).Keys)
    ensures ApplyAll(h, NamedServer(), TableOf(h, ServerServices(previous)), ServerEvents(es))
         == TableOf(h, ServerServices(latest))
    ensures ApplyAll(ById(), NamedClient(), ClientServices(previous), ClientEvents(es)) == ClientServices(latest)
  {
    var given := CalculateEvents(previous, latest, o).value;
    ServiceEventsAreDiffs(previous, latest, o);
    ServerEventsMembers(es);
    ServerEventsMembers(given);
    ClientEventsMembers(es);
    ClientEventsMembers(given);
    DiffRebuilds(h, NamedServer(), ServerServices(previous), ServerServices(latest), ServerEvents(es));
    TableById(ClientServices(previous));
    TableById(ClientServices(latest));
    DiffRebuilds(ById(), NamedClient(), ClientServices(previous), ClientServices(latest), ClientEvents(es));
  }
}
