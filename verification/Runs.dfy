/** Runs of a state machine: an action takes a state to the next one, or is not enabled in it. */
module Runs {
  import opened Wrappers

  type Machine<!S, !A> = (S, A) -> Option<S>

  ghost predicate IsRun<S, A>(m: Machine<S, A>, s: S, run: seq<A>)
    decreases |run|
  {
    run == [] || (m(s, run[0]).Some? && IsRun(m, m(s, run[0]).value, run[1..]))
  }

  /** Where a run ends. */
  ghost function RunFrom<S, A>(m: Machine<S, A>, s: S, run: seq<A>): S
    requires IsRun(m, s, run)
    decreases |run|
  {
    if run == [] then s else RunFrom(m, m(s, run[0]).value, run[1..])
  }

  ghost predicate Leads<S, A>(m: Machine<S, A>, s0: S, run: seq<A>, s: S) {
    IsRun(m, s0, run) && RunFrom(m, s0, run) == s
  }

  /** One more action at the end of a run. */
  lemma {:induction false} Then<S, A>(m: Machine<S, A>, s0: S, run: seq<A>, s: S, a: A)
    requires Leads(m, s0, run, s) && m(s, a).Some?
    ensures Leads(m, s0, run + [a], m(s, a).value)
    decreases |run|
  {
    if run == [] {
      assert run + [a] == [a] && [a][1..] == [];
      assert IsRun(m, m(s, a).value, []);
    } else {
      Then(m, m(s0, run[0]).value, run[1..], s, a);
      assert (run + [a])[1..] == run[1..] + [a];
    }
  }

  /** A run without its last action is a run, after which that action is enabled. */
  lemma {:induction false} BeforeLast<S, A>(m: Machine<S, A>, s: S, run: seq<A>, a: A)
    requires IsRun(m, s, run + [a])
    ensures IsRun(m, s, run) && m(RunFrom(m, s, run), a).Some?
    decreases |run|
  {
    if run == [] {
      assert run + [a] == [a];
    } else {
      assert (run + [a])[1..] == run[1..] + [a];
      BeforeLast(m, m(s, run[0]).value, run[1..], a);
    }
  }

  /** What every step by one of these actions keeps, a run of them keeps. */
  lemma {:induction false} RunOfKeeps<S(!new), A(!new)>(m: Machine<S, A>, inv: S -> bool, of: A -> bool,
                                                        s: S, run: seq<A>)
    requires forall s, a :: inv(s) && of(a) && m(s, a).Some? ==> inv(m(s, a).value)
    requires inv(s) && IsRun(m, s, run) && forall a :: a in run ==> of(a)
    ensures inv(RunFrom(m, s, run))
    decreases |run|
  {
    if run == [] {
    } else {
      assert run[0] in run && forall a :: a in run[1..] ==> a in run;
      RunOfKeeps(m, inv, of, m(s, run[0]).value, run[1..]);
    }
  }

  /** What every step keeps, every run keeps. */
  lemma RunKeeps<S(!new), A(!new)>(m: Machine<S, A>, inv: S -> bool, s: S, run: seq<A>)
    requires forall s, a :: inv(s) && m(s, a).Some? ==> inv(m(s, a).value)
    requires inv(s) && IsRun(m, s, run)
    ensures inv(RunFrom(m, s, run))
  {
    RunOfKeeps(m, inv, _ => true, s, run);
  }

  lemma {:induction false} TraceFrom<S(!new), A(!new)>(m: Machine<S, A>, inv: (seq<A>, S) -> bool,
                                                       past: seq<A>, s: S, run: seq<A>)
    requires forall past, s, a :: inv(past, s) && m(s, a).Some? ==> inv(past + [a], m(s, a).value)
    requires inv(past, s) && IsRun(m, s, run)
    ensures inv(past + run, RunFrom(m, s, run))
    decreases |run|
  {
    if run == [] {
      assert past + run == past;
    } else {
      TraceFrom(m, inv, past + [run[0]], m(s, run[0]).value, run[1..]);
      assert past + [run[0]] + run[1..] == past + run;
    }
  }

  /** What every step keeps of a state and the actions that led to it, every run keeps. */
  lemma RunKeepsTrace<S(!new), A(!new)>(m: Machine<S, A>, inv: (seq<A>, S) -> bool, s: S, run: seq<A>)
    requires forall past, s, a :: inv(past, s) && m(s, a).Some? ==> inv(past + [a], m(s, a).value)
    requires inv([], s) && IsRun(m, s, run)
    ensures inv(run, RunFrom(m, s, run))
  {
    TraceFrom(m, inv, [], s, run);
    assert [] + run == run;
  }

  lemma {:induction false} LeadsConcat<S, A>(m: Machine<S, A>, s0: S, a: seq<A>, s: S, b: seq<A>, s': S)
    requires Leads(m, s0, a, s) && Leads(m, s, b, s')
    ensures Leads(m, s0, a + b, s')
    decreases |a|
  {
    if a == [] {
      assert a + b == b;
    } else {
      LeadsConcat(m, m(s0, a[0]).value, a[1..], s, b, s');
      assert (a + b)[1..] == a[1..] + b;
    }
  }

  // ---- what the actions of a run say ----

  /** What `f` reads off the actions of a run, in their order. */
  function Collect<A, B>(f: A -> Option<B>, run: seq<A>): seq<B> {
    if run == [] then [] else Collect(f, run[..|run| - 1]) + One(f(run[|run| - 1]))
  }

  lemma CollectSnoc<A, B>(f: A -> Option<B>, run: seq<A>, a: A)
    ensures Collect(f, run + [a]) == Collect(f, run) + One(f(a))
  {
    assert (run + [a])[..|run|] == run;
  }

  lemma {:induction false} CollectMembers<A, B>(f: A -> Option<B>, run: seq<A>)
    ensures forall b :: b in Collect(f, run) <==> exists a :: a in run && f(a) == Some(b)
  {
    if run == [] {
    } else {
      var rest, last := run[..|run| - 1], run[|run| - 1];
      CollectMembers(f, rest);
      assert forall a :: a in run <==> a in rest || a == last;
    }
  }

  lemma {:induction false} CollectSame<A, B>(f: A -> Option<B>, g: A -> Option<B>, run: seq<A>)
    requires forall a :: a in run ==> f(a) == g(a)
    ensures Collect(f, run) == Collect(g, run)
  {
    if run == [] {
    } else {
      assert run[|run| - 1] in run;
      CollectSame(f, g, run[..|run| - 1]);
    }
  }

  lemma {:induction false} CollectNothing<A, B>(f: A -> Option<B>, run: seq<A>)
    requires forall a :: a in run ==> f(a) == None
    ensures Collect(f, run) == []
  {
    if run == [] {
    } else {
      assert run[|run| - 1] in run;
      CollectNothing(f, run[..|run| - 1]);
    }
  }

  lemma CollectNone<A, B>(f: A -> Option<B>, run: seq<A>, a: A)
    requires f(a) == None
    ensures Collect(f, run + [a]) == Collect(f, run)
  {
    CollectSnoc(f, run, a);
  }
}
