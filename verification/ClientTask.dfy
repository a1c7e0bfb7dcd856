/** The task behind one handle of the client (src/client/control_channel.rs): it connects, makes
    its handshake, follows commands, and after a failure waits and tries again. Dropping the
    handle ends it, but the task looks only in its command loop and after a failure. */
module ClientTask {
  import opened Runs
  import opened Wrappers

  datatype Phase =
    | Connecting                 // up to the point where the auth is sent
    | AuthSent
    | Looping                    // ack read
    | Failed                     // `run` returned an error; the shutdown channel is tried next
    | Sleeping                   // backoff
    | Stopped

  datatype State = State(
    phase: Phase,
    dropped: bool,               // the handle is gone
    lateAuths: nat,              // auths sent after that
    lateAccepts: nat)            // handshakes completed after that

  datatype Action =
    | SendAuth
    | ReadAck
    | Command
    | Fail                       // any error of `run`, a refusal and a heartbeat timeout included
    | SeeShutdown
    | TryShutdown
    | WakeUp
    | DropHandle

  function Init(): State {
    State(Connecting, false, 0, 0)
  }

  function Moves(s: State, a: Action): Option<State> {
    match (a, s.phase)
    case (SendAuth, Connecting) => Some(s.(phase := AuthSent, lateAuths := s.lateAuths + if s.dropped then 1 else 0))
    case (ReadAck, AuthSent) => Some(s.(phase := Looping, lateAccepts := s.lateAccepts + if s.dropped then 1 else 0))
    // the select may take a command although the shutdown is there too
    case (Command, Looping) => Some(s)
    case (SeeShutdown, Looping) => if s.dropped then Some(s.(phase := Stopped)) else None
    case (Fail, Connecting) => Some(s.(phase := Failed))
    case (Fail, AuthSent) => Some(s.(phase := Failed))
    case (Fail, Looping) => Some(s.(phase := Failed))
    case (TryShutdown, Failed) => Some(s.(phase := if s.dropped then Stopped else Sleeping))
    case (WakeUp, Sleeping) => Some(s.(phase := Connecting))
    case (DropHandle, _) => if s.dropped then None else Some(s.(dropped := true))
    case _ => None
  }

  predicate Inv(s: State) {
    && (!s.dropped ==> s.lateAuths == 0 && s.lateAccepts == 0 && !s.phase.Stopped?)
    && (s.phase.Connecting? || s.phase.Sleeping? ==> s.lateAuths == 0 && s.lateAccepts == 0)
    && (s.phase.AuthSent? ==> s.lateAccepts == 0)
    && s.lateAuths <= 1 && s.lateAccepts <= 1
  }

  /** How often the task did this after its handle was dropped. */
  function Late(kind: Action, run: seq<Action>): nat {
    if run == [] then 0
    else
      var (before, last) := (run[..|run| - 1], run[|run| - 1]);
      Late(kind, before) + if last == kind && DropHandle in before then 1 else 0
  }

  /** Where the task stands after a run, by the last thing that it did. */
  function PhaseAfter(run: seq<Action>): Phase {
    if run == [] then Connecting
    else
      var before := run[..|run| - 1];
      match run[|run| - 1]
      case SendAuth => AuthSent
      case ReadAck | Command => Looping
      case Fail => Failed
      case SeeShutdown => Stopped
      case TryShutdown => if DropHandle in before then Stopped else Sleeping
      case WakeUp => Connecting
      case DropHandle => PhaseAfter(before)
  }

  predicate Counted(run: seq<Action>, s: State) {
    && s.phase == PhaseAfter(run)
    && (s.dropped <==> DropHandle in run)
    && s.lateAuths == Late(SendAuth, run) && s.lateAccepts == Late(ReadAck, run)
  }

  lemma StepCounts(run: seq<Action>, s: State, a: Action)
    requires Counted(run, s) && Moves(s, a).Some?
    ensures Counted(run + [a], Moves(s, a).value)
  {
    assert (run + [a])[..|run|] == run;
  }

  /** What the task has noted is what it did. */
  lemma CountsAreRight(run: seq<Action>)
    requires IsRun(Moves, Init(), run)
    ensures Counted(run, RunFrom(Moves, Init(), run))
  {
    forall past, s, a | Counted(past, s) && Moves(s, a).Some? ensures Counted(past + [a], Moves(s, a).value) {
      StepCounts(past, s, a);
    }
    RunKeepsTrace(Moves, Counted, Init(), run);
  }

  /** After its handle is dropped a task sends at most one more auth and completes at most one
      more handshake, however often it fails and whatever the server does; and it ends only
      if its handle was dropped. */
  lemma AtMostOneLateHandshake(run: seq<Action>)
    requires IsRun(Moves, Init(), run)
    ensures Late(SendAuth, run) <= 1 && Late(ReadAck, run) <= 1
    ensures RunFrom(Moves, Init(), run).phase.Stopped? ==> DropHandle in run
  {
    RunKeeps(Moves, Inv, Init(), run);
    CountsAreRight(run);
  }

  /** A dropped task can end from wherever it is, and does not go on after that. */
  lemma DroppedTaskCanStop(s: State) returns (run: seq<Action>, s': State)
    requires s.dropped
    ensures Leads(Moves, s, run, s') && s'.phase.Stopped?
    ensures forall a :: Moves(s', a).None?
  {
    run, s' := [], s;
    if s'.phase.Sleeping? {
      Then(Moves, s, run, s', WakeUp);
      run, s' := run + [WakeUp], Moves(s', WakeUp).value;
    }
    if s'.phase.Connecting? || s'.phase.AuthSent? {
      Then(Moves, s, run, s', Fail);
      run, s' := run + [Fail], Moves(s', Fail).value;
    }
    if s'.phase.Failed? {
      Then(Moves, s, run, s', TryShutdown);
      run, s' := run + [TryShutdown], Moves(s', TryShutdown).value;
    } else if s'.phase.Looping? {
      Then(Moves, s, run, s', SeeShutdown);
      run, s' := run + [SeeShutdown], Moves(s', SeeShutdown).value;
    }
  }

  /** A task whose handle is alive never ends: from wherever it is it can be in its command loop
      again. */
  lemma LiveTaskCanLoop(s: State) returns (run: seq<Action>, s': State)
    requires Inv(s) && !s.dropped
    ensures Leads(Moves, s, run, s') && s'.phase.Looping? && DropHandle !in run
  {
    run, s' := [], s;
    if s'.phase.Failed? {
      Then(Moves, s, run, s', TryShutdown);
      run, s' := run + [TryShutdown], Moves(s', TryShutdown).value;
    }
    if s'.phase.Sleeping? {
      Then(Moves, s, run, s', WakeUp);
      run, s' := run + [WakeUp], Moves(s', WakeUp).value;
    }
    if s'.phase.Connecting? {
      Then(Moves, s, run, s', SendAuth);
      run, s' := run + [SendAuth], Moves(s', SendAuth).value;
    }
    if s'.phase.AuthSent? {
      Then(Moves, s, run, s', ReadAck);
      run, s' := run + [ReadAck], Moves(s', ReadAck).value;
    }
  }

  lemma {:induction false} HearsCommands(s: State, n: nat)
    requires s.phase.Looping?
    ensures Leads(Moves, s, seq(n, _ => Command), s)
  {
    var run: seq<Action> := seq(n, _ => Command);
    if n == 0 {
      assert run == [];
    } else {
      HearsCommands(s, n - 1);
      assert run == seq(n - 1, _ => Command) + [Command];
      Then(Moves, s, seq(n - 1, _ => Command), s, Command);
    }
  }

  /** In its loop it follows any number of commands, and after a failure it makes its way back. */
  lemma LoopsAgain(s: State, n: nat) returns (s': State)
    requires s.phase.Looping? && !s.dropped
    ensures Leads(Moves, s, seq(n, _ => Command) + [Fail, TryShutdown, WakeUp, SendAuth, ReadAck], s')
    ensures s'.phase.Looping?
  {
    HearsCommands(s, n);
    s' := Moves(s, Fail).value;
    var back := [Fail, TryShutdown, WakeUp, SendAuth, ReadAck];
    Then(Moves, s, [], s, Fail);
    assert [] + [Fail] == back[..1];
    Then(Moves, s, back[..1], s', TryShutdown);
    s' := Moves(s', TryShutdown).value;
    assert back[..1] + [TryShutdown] == back[..2];
    Then(Moves, s, back[..2], s', WakeUp);
    s' := Moves(s', WakeUp).value;
    assert back[..2] + [WakeUp] == back[..3];
    Then(Moves, s, back[..3], s', SendAuth);
    s' := Moves(s', SendAuth).value;
    assert back[..3] + [SendAuth] == back[..4];
    Then(Moves, s, back[..4], s', ReadAck);
    s' := Moves(s', ReadAck).value;
    assert back[..4] + [ReadAck] == back;
    LeadsConcat(Moves, s, seq(n, _ => Command), s, back, s');
  }

  /** And one it may complete: the drop is not seen before the command loop. */
  lemma OneLateHandshake() returns (run: seq<Action>, s: State)
    ensures Leads(Moves, Init(), run, s) && s.phase.Looping? && Late(SendAuth, run) == 1 && Late(ReadAck, run) == 1
  {
    Then(Moves, Init(), [], Init(), DropHandle);
    var s1 := Moves(Init(), DropHandle).value;
    Then(Moves, Init(), [] + [DropHandle], s1, SendAuth);
    var s2 := Moves(s1, SendAuth).value;
    run := [] + [DropHandle] + [SendAuth];
    Then(Moves, Init(), run, s2, ReadAck);
    run, s := run + [ReadAck], Moves(s2, ReadAck).value;
    CountsAreRight(run);
  }

  // ---- when a drop comes too late ----

  /** The handle is dropped in `s`; then `run` completes a handshake. */
  ghost predicate CompletesLate(s: State, run: seq<Action>)
    requires !s.dropped
  {
    && IsRun(Moves, Moves(s, DropHandle).value, run)
    && ReadAck in run
  }

  /** The phases in which the task will not look at the shutdown channel before its next ack. */
  predicate LooksTooLate(p: Phase) {
    p.Connecting? || p.AuthSent? || p.Sleeping?
  }

  lemma CleanDrop(s: State, run: seq<Action>)
    requires Inv(s) && !s.dropped && !LooksTooLate(s.phase)
    ensures !CompletesLate(s, run)
  {
    var s1 := Moves(s, DropHandle).value;
    if IsRun(Moves, s1, run) {
      RunKeepsTrace(Moves, (past: seq<Action>, x: State) => x.dropped && !LooksTooLate(x.phase) && ReadAck !in past,
                    s1, run);
    }
  }

  lemma LateDrop(s: State) returns (run: seq<Action>)
    requires Inv(s) && !s.dropped && LooksTooLate(s.phase)
    ensures CompletesLate(s, run)
  {
    var s1 := Moves(s, DropHandle).value;
    var s2 := s1;
    run := [];
    if s2.phase.Sleeping? {
      Then(Moves, s1, run, s2, WakeUp);
      run, s2 := run + [WakeUp], Moves(s2, WakeUp).value;
    }
    if s2.phase.Connecting? {
      Then(Moves, s1, run, s2, SendAuth);
      run, s2 := run + [SendAuth], Moves(s2, SendAuth).value;
    }
    Then(Moves, s1, run, s2, ReadAck);
    run := run + [ReadAck];
  }

  /** A task whose handle is dropped may still complete a handshake exactly when the drop finds
      it on the way to one, waiting for the ack, or asleep before the next attempt; a drop in
      the command loop or right after a failure is always clean. */
  lemma LateHandshakeIffLooksTooLate(s: State)
    requires Inv(s) && !s.dropped
    ensures (exists run :: CompletesLate(s, run)) <==> LooksTooLate(s.phase)
  {
    if LooksTooLate(s.phase) {
      var run := LateDrop(s);
    } else {
      forall run ensures !CompletesLate(s, run) {
        CleanDrop(s, run);
      }
    }
  }
}
