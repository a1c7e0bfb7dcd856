/** Visitors and data channels paired in order, each visitor with the next channel that works. */
module Pairing {
  /** A data channel that was taken, and whether the command could be written to it. */
  datatype Served<C> = Served(chan: C, alive: bool)

  function Live<C>(served: seq<Served<C>>): (r: seq<C>)
    ensures |r| <= |served|
  {
    if served == [] then []
    else
      var (rest, last) := (served[..|served| - 1], served[|served| - 1]);
      if last.alive then Live(rest) + [last.chan] else Live(rest)
  }

  function Broken<C>(served: seq<Served<C>>): nat {
    |served| - |Live(served)|
  }

  /** The i-th visitor gets the i-th channel that worked. */
  function PairUp<V, C>(visitors: seq<V>, served: seq<Served<C>>): (r: seq<(V, C)>)
    requires |Live(served)| <= |visitors|
    ensures |r| == |Live(served)|
  {
    seq(|Live(served)|, i requires 0 <= i < |Live(served)| => (visitors[i], Live(served)[i]))
  }

  /** The channels in the order in which they came, with what became of those that were taken. */
  function ServedOf<C>(channels: seq<C>, outcomes: seq<bool>): (r: seq<Served<C>>)
    requires |outcomes| <= |channels|
    ensures |r| == |outcomes|
  {
    seq(|outcomes|, i requires 0 <= i < |outcomes| => Served(channels[i], outcomes[i]))
  }

  lemma LiveGrows<C>(served: seq<Served<C>>, x: Served<C>)
    ensures Live(served + [x]) == Live(served) + if x.alive then [x.chan] else []
  {
    assert (served + [x])[..|served|] == served;
  }

  lemma ServedGrows<C>(channels: seq<C>, outcomes: seq<bool>, c: C, alive: bool)
    requires |outcomes| < |channels|
    ensures ServedOf(channels, outcomes + [alive])
         == ServedOf(channels, outcomes) + [Served(channels[|outcomes|], alive)]
    ensures ServedOf(channels + [c], outcomes) == ServedOf(channels, outcomes)
  {
  }

  /** The books of a pool: of what was accepted and what arrived, this still waits and these are
      paired, when this is what became of the channels that were taken. */
  predicate Booked<V(==), C(==)>(accepted: seq<V>, arrived: seq<C>, outcomes: seq<bool>,
                                 visitors: seq<V>, queue: seq<C>, pairs: seq<(V, C)>) {
    && |outcomes| <= |arrived| && queue == arrived[|outcomes|..]
    && |Live(ServedOf(arrived, outcomes))| <= |accepted|
    && visitors == accepted[|Live(ServedOf(arrived, outcomes))|..]
    && pairs == PairUp(accepted, ServedOf(arrived, outcomes))
  }

  lemma BookNothing<V, C>()
    ensures Booked<V, C>([], [], [], [], [], [])
  {
  }

  lemma BookVisitor<V, C>(accepted: seq<V>, arrived: seq<C>, outcomes: seq<bool>,
                          visitors: seq<V>, queue: seq<C>, pairs: seq<(V, C)>, v: V)
    requires Booked(accepted, arrived, outcomes, visitors, queue, pairs)
    ensures Booked(accepted + [v], arrived, outcomes, visitors + [v], queue, pairs)
  {
  }

  lemma BookArrival<V, C>(accepted: seq<V>, arrived: seq<C>, outcomes: seq<bool>,
                          visitors: seq<V>, queue: seq<C>, pairs: seq<(V, C)>, c: C)
    requires Booked(accepted, arrived, outcomes, visitors, queue, pairs)
    ensures Booked(accepted, arrived + [c], outcomes, visitors, queue + [c], pairs)
  {
    assert ServedOf(arrived + [c], outcomes) == ServedOf(arrived, outcomes);
  }

  lemma BookPair<V, C>(accepted: seq<V>, arrived: seq<C>, outcomes: seq<bool>,
                       visitors: seq<V>, queue: seq<C>, pairs: seq<(V, C)>)
    requires Booked(accepted, arrived, outcomes, visitors, queue, pairs) && queue != [] && visitors != []
    ensures Booked(accepted, arrived, outcomes + [true], visitors[1..], queue[1..], pairs + [(visitors[0], queue[0])])
  {
    var served := ServedOf(arrived, outcomes);
    assert queue[0] == arrived[|outcomes|] && queue[1..] == arrived[|outcomes| + 1..];
    ServedGrows(arrived, outcomes, queue[0], true);
    LiveGrows(served, Served(queue[0], true));
    assert visitors[0] == accepted[|Live(served)|] && visitors[1..] == accepted[|Live(served)| + 1..];
  }

  lemma BookFailure<V, C>(accepted: seq<V>, arrived: seq<C>, outcomes: seq<bool>,
                          visitors: seq<V>, queue: seq<C>, pairs: seq<(V, C)>)
    requires Booked(accepted, arrived, outcomes, visitors, queue, pairs) && queue != []
    ensures Booked(accepted, arrived, outcomes + [false], visitors, queue[1..], pairs)
  {
    assert queue[0] == arrived[|outcomes|] && queue[1..] == arrived[|outcomes| + 1..];
    ServedGrows(arrived, outcomes, queue[0], false);
    LiveGrows(ServedOf(arrived, outcomes), Served(queue[0], false));
  }
}
