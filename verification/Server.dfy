/** The server's two tables and the operations that change them (src/server.rs and the critical
    sections of src/server/control_channel.rs and src/server/data_channel.rs), one call at a
    time. How the calls interleave is the subject of Sessions. */
module Server {
  import opened Constants
  import opened Protocol
  import opened Config
  import opened ServiceTable
  import opened ConfigWatcher
  import opened MultiMapSpec
  import opened MultiMap

  /** A control channel handle: the service it was made for and the pool that it feeds. */
  datatype Handle = Handle(service: ServerService, pool: nat)

  /** A connection that said hello as a data channel. */
  type DataChannel = nat

  /** What becomes of a data channel; `AwaitsRoom` is a send that awaits room in the queue. */
  datatype Routed = NoSuchKey | Stale | AwaitsRoom | Queued

  type Services = map<Digest, ServerService>
  type Session = Item<Digest, Digest, Handle>

  /** The digest whose channel a change removes. Only server changes concern a server. */
  function TouchedDigest(h: HashFn, e: ServiceChange<ServerService>): Digest {
    h(NameOf(NamedServer(), e))
  }

  ghost function SessionsAfter(h: HashFn, sessions: set<Session>, es: seq<ServiceChange<ServerService>>): set<Session>
    decreases |es|
  {
    if es == [] then sessions else SessionsAfter(h, Without1(sessions, TouchedDigest(h, es[0])), es[1..])
  }

  lemma {:induction false} SessionsAfterAre(h: HashFn, sessions: set<Session>, es: seq<ServiceChange<ServerService>>)
    ensures forall t :: t in SessionsAfter(h, sessions, es) <==>
              t in sessions && forall e :: e in es ==> TouchedDigest(h, e) != t.k1
    decreases |es|
  {
    if es == [] {
    } else {
      SessionsAfterAre(h, Without1(sessions, TouchedDigest(h, es[0])), es[1..]);
    }
  }

  /** Hot reload disturbs only what changed: after the events of a difference, in any order, a
      channel is still there exactly when its service has the same configuration before and
      after; and no channel appears. */
  lemma OnlyChangedServicesLoseTheirChannel(h: HashFn, before: map<Text, ServerService>,
                                            after: map<Text, ServerService>, es: seq<ServiceChange<ServerService>>,
                                            sessions: set<Session>)
    requires NoCollision(h, before.Keys + after.Keys)
    requires NamedByKey(NamedServer(), after) && IsDiff(before, after, es)
    ensures SessionsAfter(h, sessions, es) <= sessions
    ensures forall t, name :: t in sessions && name in before.Keys + after.Keys && t.k1 == h(name) ==>
              (t in SessionsAfter(h, sessions, es) <==> SameAt(before, after, name))
    ensures forall t :: t in sessions && (forall name :: name in before.Keys + after.Keys ==> t.k1 != h(name)) ==>
              t in SessionsAfter(h, sessions, es)
  {
    SessionsAfterAre(h, sessions, es);
    forall e | e in es
      ensures var name := NameOf(NamedServer(), e); name in before.Keys + after.Keys && !SameAt(before, after, name)
    {
      assert IsChange(before, after, e);
    }
    forall t, name | t in sessions && name in before.Keys + after.Keys && t.k1 == h(name)
      ensures t in SessionsAfter(h, sessions, es) <==> SameAt(before, after, name)
    {
      if !SameAt(before, after, name) {
        assert IsChange(before, after, ChangeFor(after, name));
        assert TouchedDigest(h, ChangeFor(after, name)) == t.k1;
      }
    }
  }

  /** The loop that fills the service table from the configuration. */
  method GenerateServiceHashmap(h: HashFn, config: ServerConfig) returns (table: Services)
    requires NoCollision(h, config.services.Keys)
    ensures table == TableOf(h, config.services)
  {
    table := map[];
    var pending := config.services.Keys;
    while pending != {}
      invariant pending <= config.services.Keys
      invariant forall n :: n in config.services && n !in pending ==> h(n) in table && table[h(n)] == config.services[n]
      invariant forall d :: d in table ==> exists n :: n in config.services && n !in pending && h(n) == d
      decreases pending
    {
      var name :| name in pending;
      ghost var before := table;
      table := table[h(name) := config.services[name]];
      pending := pending - {name};
      forall d | d in table ensures exists n :: n in config.services && n !in pending && h(n) == d {
        if d in before {
          var n :| n in config.services && n !in pending + {name} && h(n) == d;
          assert n !in pending;
        } else {
          assert name !in pending;
        }
      }
    }
    TableIs(h, config.services, table);
  }

  /** A send to the queue of a pool: there is none once the pool has ended, and a full one makes
      the sender wait. */
  function Sent(of: map<nat, seq<DataChannel>>, pool: nat, ch: DataChannel): (Routed, map<nat, seq<DataChannel>>) {
    if pool !in of then (Stale, of)
    else if |of[pool]| >= DATA_QUEUE then (AwaitsRoom, of)
    else (Queued, of[pool := of[pool] + [ch]])
  }

  /** The queues of data channels, one for each pool that still runs. */
  class DataQueues {
    var of: map<nat, seq<DataChannel>>

    constructor ()
      ensures of.Keys == {}
    {
      of := map[];
    }

    method Open(pool: nat)
      requires pool !in of
      modifies this
      ensures of == old(of)[pool := []]
    {
      of := of[pool := []];
    }

    /** The pool has ended, and what it had queued is dropped. */
    method Close(pool: nat)
      modifies this
      ensures of == old(of) - {pool}
    {
      of := of - {pool};
    }

    method Send(pool: nat, ch: DataChannel) returns (r: Routed)
      modifies this
      ensures (r, of) == Sent(old(of), pool, ch)
    {
      if pool !in of {
        return Stale;
      }
      if |of[pool]| >= DATA_QUEUE {
        return AwaitsRoom;
      }
      of := of[pool := of[pool] + [ch]];
      r := Queued;
    }
  }

  class Server {
    const h: HashFn
    var services: Services
    const controlChannels: MultiMap<Digest, Digest, Handle>
    const queues: DataQueues

    ghost predicate Valid()
      reads this, controlChannels
    {
      controlChannels.Valid()
    }

    constructor (h: HashFn, config: ServerConfig)
      requires NoCollision(h, config.services.Keys)
      ensures Valid() && fresh(controlChannels) && fresh(queues) && this.h == h
      ensures services == TableOf(h, config.services) && controlChannels.Triples() == {}
      ensures queues.of.Keys == {}
    {
      this.h := h;
      var table := GenerateServiceHashmap(h, config);
      services := table;
      controlChannels := new MultiMap<Digest, Digest, Handle>();
      queues := new DataQueues();
    }

    method HandleHotReload(e: ConfigChange)
      requires Valid()
      modifies this, controlChannels
      ensures Valid()
      ensures services == ApplyAll(h, NamedServer(), old(services), ServerEvents([e]))
      ensures controlChannels.Triples() == SessionsAfter(h, old(controlChannels.Triples()), ServerEvents([e]))
    {
      assert ServerEvents([e]) == if e.ServerChange? then [e.server] else [];
      match e {
        case ServerChange(Add(cfg)) =>
          var hash := h(cfg.name);
          services := services[hash := cfg];
          var _ := controlChannels.Remove1(hash);
        case ServerChange(Delete(name)) =>
          var hash := h(name);
          services := services - {hash};
          var _ := controlChannels.Remove1(hash);
        case General(_) =>
        case ClientChange(_) =>
      }
    }

    /** The critical section of a handshake whose authentication succeeded: the old channel of
        the service goes, the ack is written, and only then the new channel is inserted, with a
        pool of its own. If the ack cannot be written the service is left without a channel. */
    method Establish(digest: Digest, sessionKey: Digest, handle: Handle, ackWritten: bool)
        returns (replaced: bool, inserted: bool)
      requires Valid() && handle.pool !in queues.of
      modifies controlChannels, queues
      ensures Valid()
      ensures queues.of == if ackWritten then old(queues.of)[handle.pool := []] else old(queues.of)
      ensures replaced == Has1(old(controlChannels.Triples()), digest)
      ensures var rest := Without1(old(controlChannels.Triples()), digest);
              && inserted == (ackWritten && !Has2(rest, sessionKey))
              && controlChannels.Triples()
                 == if inserted then rest + {Item(digest, sessionKey, handle)} else rest
    {
      var previous := controlChannels.Remove1(digest);
      replaced := previous.Some?;
      inserted := false;
      if ackWritten {
        queues.Open(handle.pool);
        var r := controlChannels.Insert(digest, sessionKey, handle);
        inserted := r.Ok?;
      }
    }

    /** A data channel goes to the end of the queue of the handle that its hello names. It is
        dropped if there is no such handle, or if the pool of the handle has ended. */
    method RouteDataChannel(ch: DataChannel, nonce: Digest) returns (r: Routed)
      requires Valid()
      modifies queues
      ensures match Lookup2(controlChannels.Triples(), nonce)
              case None => r == NoSuchKey && queues.of == old(queues.of)
              case Some(handle) =>
                var (routed, after) := Sent(old(queues.of), handle.pool, ch);
                r == routed && queues.of == after
    {
      var handle := controlChannels.Get2(nonce);
      if handle.None? {
        return NoSuchKey;
      }
      r := queues.Send(handle.value.pool, ch);
    }
  }
}
