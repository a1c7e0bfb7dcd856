/** A table of services and the changes that are applied to it one at a time. The server keys
    its table by the digest of the service name, the client by the name itself, so the key
    function is a parameter. */
module ServiceTable {
  import opened Protocol
  import opened Config

  datatype ServiceChange<S> = Add(cfg: S) | Delete(name: Text)

  function NameOf<S>(named: S -> Text, e: ServiceChange<S>): Text {
    match e
    case Add(cfg) => named(cfg)
    case Delete(name) => name
  }

  /** The loop of `generate_service_hashmap`, as one map. */
  ghost function TableOf<K, S>(key: Text -> K, services: map<Text, S>): map<K, S>
    requires NoCollision(key, services.Keys)
  {
    map n | n in services :: key(n) := services[n]
  }

  /** Both `handle_hot_reload` functions: insert under the key of the name, or remove it. */
  function Apply<K, S>(key: Text -> K, named: S -> Text, table: map<K, S>, e: ServiceChange<S>): map<K, S> {
    match e
    case Add(cfg) => table[key(named(cfg)) := cfg]
    case Delete(name) => table - {key(name)}
  }

  function ApplyAll<K, S>(key: Text -> K, named: S -> Text, table: map<K, S>, es: seq<ServiceChange<S>>): map<K, S>
    decreases |es|
  {
    if es == [] then table else ApplyAll(key, named, Apply(key, named, table, es[0]), es[1..])
  }

  lemma {:induction false} ApplyAllSnoc<K, S>(key: Text -> K, named: S -> Text, table: map<K, S>,
                                              es: seq<ServiceChange<S>>, e: ServiceChange<S>)
    ensures ApplyAll(key, named, table, es + [e]) == Apply(key, named, ApplyAll(key, named, table, es), e)
    decreases |es|
  {
    if es == [] {
      assert es + [e] == [e] && [e][1..] == [];
    } else {
      assert (es + [e])[1..] == es[1..] + [e];
      ApplyAllSnoc(key, named, Apply(key, named, table, es[0]), es[1..], e);
    }
  }

  /** Applied to the services by name. */
  function Rename<S>(named: S -> Text, services: map<Text, S>, e: ServiceChange<S>): map<Text, S> {
    Apply((n: Text) => n, named, services, e)
  }

  function RenameAll<S>(named: S -> Text, services: map<Text, S>, es: seq<ServiceChange<S>>): map<Text, S>
    decreases |es|
  {
    if es == [] then services else RenameAll(named, Rename(named, services, es[0]), es[1..])
  }

  /** An event that moves its own service to where `after` has it. */
  ghost predicate Toward<S>(named: S -> Text, after: map<Text, S>, e: ServiceChange<S>) {
    match e
    case Add(cfg) => named(cfg) in after && after[named(cfg)] == cfg
    case Delete(name) => name !in after
  }

  ghost predicate AllToward<S>(named: S -> Text, after: map<Text, S>, es: seq<ServiceChange<S>>) {
    forall e :: e in es ==> Toward(named, after, e)
  }

  ghost predicate Touches<S>(named: S -> Text, es: seq<ServiceChange<S>>, name: Text) {
    exists e :: e in es && NameOf(named, e) == name
  }

  ghost predicate SameAt<S>(a: map<Text, S>, b: map<Text, S>, name: Text) {
    (name in a <==> name in b) && (name in a ==> a[name] == b[name])
  }

  lemma {:induction false} RenameAllAt<S>(named: S -> Text, services: map<Text, S>, after: map<Text, S>,
                                          es: seq<ServiceChange<S>>, name: Text)
    requires AllToward(named, after, es)
    ensures SameAt(RenameAll(named, services, es), if Touches(named, es, name) then after else services, name)
    decreases |es|
  {
    if es == [] {
    } else {
      var services' := Rename(named, services, es[0]);
      RenameAllAt(named, services', after, es[1..], name);
      assert AllToward(named, after, es[1..]);
      assert Toward(named, after, es[0]);
      if NameOf(named, es[0]) == name {
        assert SameAt(services', after, name);
      } else {
        assert SameAt(services', services, name);
        assert Touches(named, es, name) ==> Touches(named, es[1..], name) by {
          if Touches(named, es, name) {
            var e :| e in es && NameOf(named, e) == name;
            assert e in es[1..];
          }
        }
      }
    }
  }

  /** A table that holds every service under its key, and nothing else, is the table. */
  lemma TableIs<K, S>(key: Text -> K, services: map<Text, S>, table: map<K, S>)
    requires NoCollision(key, services.Keys)
    requires forall n :: n in services ==> key(n) in table && table[key(n)] == services[n]
    requires forall k :: k in table ==> exists n :: n in services && key(n) == k
    ensures table == TableOf(key, services)
  {
    forall k | k in table ensures k in TableOf(key, services) && TableOf(key, services)[k] == table[k] {
      var n :| n in services && key(n) == k;
    }
  }

  lemma TableInsert<K, S>(key: Text -> K, services: map<Text, S>, name: Text, cfg: S)
    requires NoCollision(key, services.Keys + {name})
    ensures NoCollision(key, services.Keys) && NoCollision(key, services[name := cfg].Keys)
    ensures TableOf(key, services)[key(name) := cfg] == TableOf(key, services[name := cfg])
  {
    var services', table := services[name := cfg], TableOf(key, services)[key(name) := cfg];
    assert services'.Keys == services.Keys + {name};
    forall k | k in table ensures exists n :: n in services' && key(n) == k {
      if k == key(name) {
        assert name in services';
      } else {
        var n :| n in services && key(n) == k;
        assert n in services';
      }
    }
    TableIs(key, services', table);
  }

  lemma TableDelete<K, S>(key: Text -> K, services: map<Text, S>, name: Text)
    requires NoCollision(key, services.Keys + {name})
    ensures NoCollision(key, services.Keys) && NoCollision(key, (services - {name}).Keys)
    ensures TableOf(key, services) - {key(name)} == TableOf(key, services - {name})
  {
    var services', table := services - {name}, TableOf(key, services) - {key(name)};
    forall k | k in table ensures exists n :: n in services' && key(n) == k {
      var n :| n in services && key(n) == k;
      assert n in services';
    }
    TableIs(key, services', table);
  }

  /** Applying a change to the table of some services gives the table of the changed services. */
  lemma ApplyIsRename<K, S>(key: Text -> K, named: S -> Text, services: map<Text, S>, e: ServiceChange<S>)
    requires NoCollision(key, services.Keys + {NameOf(named, e)})
    ensures NoCollision(key, services.Keys) && NoCollision(key, Rename(named, services, e).Keys)
    ensures Apply(key, named, TableOf(key, services), e) == TableOf(key, Rename(named, services, e))
  {
    match e {
      case Add(cfg) => TableInsert(key, services, named(cfg), cfg);
      case Delete(name) => TableDelete(key, services, name);
    }
  }

  lemma {:induction false} ApplyAllIsRenameAll<K, S>(key: Text -> K, named: S -> Text, services: map<Text, S>,
                                                     es: seq<ServiceChange<S>>, names: set<Text>)
    requires NoCollision(key, names) && services.Keys <= names
    requires forall e :: e in es ==> NameOf(named, e) in names
    ensures RenameAll(named, services, es).Keys <= names
    ensures ApplyAll(key, named, TableOf(key, services), es) == TableOf(key, RenameAll(named, services, es))
    decreases |es|
  {
    if es == [] {
    } else {
      ApplyIsRename(key, named, services, es[0]);
      ApplyAllIsRenameAll(key, named, Rename(named, services, es[0]), es[1..], names);
    }
  }

  /** Convergence: events that all point towards `after`, among them one for every service in
      which `before` and `after` differ, turn the table of `before` into the table of `after`. Their
      order does not matter, nor does repeating one. */
  lemma Converges<K, S>(key: Text -> K, named: S -> Text, before: map<Text, S>, after: map<Text, S>,
                        es: seq<ServiceChange<S>>)
    requires NoCollision(key, before.Keys + after.Keys)
    requires AllToward(named, after, es)
    requires forall e :: e in es ==> NameOf(named, e) in before.Keys + after.Keys
    requires forall name :: Touches(named, es, name) || SameAt(before, after, name)
    ensures NoCollision(key, before.Keys) && NoCollision(key, after.Keys)
    ensures ApplyAll(key, named, TableOf(key, before), es) == TableOf(key, after)
  {
    ApplyAllIsRenameAll(key, named, before, es, before.Keys + after.Keys);
    var reached := RenameAll(named, before, es);
    forall name ensures SameAt(reached, after, name) {
      RenameAllAt(named, before, after, es, name);
      assert Touches(named, es, name) || SameAt(before, after, name);
    }
    SameEverywhere(reached, after);
  }

  lemma SameEverywhere<S>(a: map<Text, S>, b: map<Text, S>)
    requires forall name :: SameAt(a, b, name)
    ensures a == b
  {
    assert forall name :: name in a ==> SameAt(a, b, name);
    assert forall name :: name in b ==> SameAt(a, b, name);
  }
}
