/** Streams of frames, for any way of framing: a writer `frame` and a reader `read` that fit
    together on the packets that are `good`. */
module Framing {
  import opened Wrappers
  import opened Bincode

  type Reader<!P> = Bytes -> Result<(P, Bytes), WireError>

  ghost predicate Shrinks<P>(read: Reader<P>) {
    forall s :: read(s).Ok? ==> |read(s).value.1| < |s|
  }

  /** One frame is read back from the front of any stream, and no proper prefix of it is. */
  ghost predicate Fits<P(!new)>(frame: P -> Bytes, read: Reader<P>, good: P -> bool) {
    && Shrinks(read)
    && (forall p, tail :: good(p) ==> read(frame(p) + tail) == Ok((p, tail)))
    && (forall p, n :: good(p) && 0 <= n < |frame(p)| ==> read(frame(p)[..n]).Err?)
  }

  function StreamOf<P>(frame: P -> Bytes, ps: seq<P>): Bytes {
    if ps == [] then [] else frame(ps[0]) + StreamOf(frame, ps[1..])
  }

  /** Reads until the first failure: the packets, and the stream as it stood at the failing turn. */
  ghost function ReadUntilError<P>(read: Reader<P>, s: Bytes): (seq<P>, Bytes)
    requires Shrinks(read)
    decreases |s|
  {
    match read(s)
    case Err(_) => ([], s)
    case Ok((p, rest)) =>
      var (ps, unread) := ReadUntilError(read, rest);
      ([p] + ps, unread)
  }

  /** The packets of `ps` that end within the first n bytes of their stream, and their bytes. */
  function WholeBefore<P>(frame: P -> Bytes, ps: seq<P>, n: nat): (r: (seq<P>, nat))
    ensures |r.0| <= |ps| && r.1 <= n
    decreases |ps|
  {
    if ps == [] || n < |frame(ps[0])| then ([], 0)
    else
      var (got, used) := WholeBefore(frame, ps[1..], n - |frame(ps[0])|);
      ([ps[0]] + got, |frame(ps[0])| + used)
  }

  lemma CutInside(a: Bytes, b: Bytes, f: Bytes, rest: Bytes)
    requires a + b == f + rest && |a| <= |f|
    ensures a == f[..|a|]
  {
    assert a == (a + b)[..|a|] == (f + rest)[..|a|];
  }

  lemma CutBehind(a: Bytes, b: Bytes, f: Bytes, rest: Bytes)
    requires a + b == f + rest && |f| <= |a|
    ensures a == f + a[|f|..] && a[|f|..] + b == rest
  {
    assert f == (f + rest)[..|f|] == (a + b)[..|f|] == a[..|f|];
    assert rest == (f + rest)[|f|..] == (a + b)[|f|..] == a[|f|..] + b;
  }

  /** WholeBefore is what its name says: a prefix, of that many bytes, and the longest one. */
  lemma {:induction false} WholeBeforeIsMaximal<P>(frame: P -> Bytes, ps: seq<P>, n: nat)
    ensures var (got, used) := WholeBefore(frame, ps, n);
            && got == ps[..|got|] && used == |StreamOf(frame, got)| <= |StreamOf(frame, ps)|
            && (|got| < |ps| ==> n < used + |frame(ps[|got|])|)
    decreases |ps|
  {
    if ps == [] || n < |frame(ps[0])| {
    } else {
      WholeBeforeIsMaximal(frame, ps[1..], n - |frame(ps[0])|);
    }
  }

  /** The cut theorem: from any first part of a stream the reader gets exactly the packets
      that lie wholly in it, and stops at the first byte of the one that does not. */
  lemma {:induction false} CutStream<P(!new)>(frame: P -> Bytes, read: Reader<P>, good: P -> bool, ps: seq<P>,
                                              part: Bytes, lack: Bytes)
    requires Fits(frame, read, good) && forall p :: p in ps ==> good(p)
    requires read([]).Err?
    requires part + lack == StreamOf(frame, ps)
    ensures var (got, used) := WholeBefore(frame, ps, |part|);
            ReadUntilError(read, part) == (got, part[used..])
    decreases |ps|
  {
    if ps == [] {
      assert part == [];
    } else {
      var f, rest := frame(ps[0]), StreamOf(frame, ps[1..]);
      if |part| < |f| {
        CutInside(part, lack, f, rest);
      } else {
        CutBehind(part, lack, f, rest);
        CutStream(frame, read, good, ps[1..], part[|f|..], lack);
      }
    }
  }

  /** The round trip: a whole stream gives back its packets and every byte is consumed. */
  lemma {:induction false} StreamRoundTrip<P(!new)>(frame: P -> Bytes, read: Reader<P>, good: P -> bool, ps: seq<P>)
    requires Fits(frame, read, good) && forall p :: p in ps ==> good(p)
    requires read([]).Err?
    ensures ReadUntilError(read, StreamOf(frame, ps)) == (ps, [])
    decreases |ps|
  {
    if ps == [] {
    } else {
      StreamRoundTrip(frame, read, good, ps[1..]);
      assert [ps[0]] + ps[1..] == ps;
    }
  }
}
