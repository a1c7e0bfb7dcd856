/** Heartbeats of one control channel in discrete time: the server's select loop, whose timer
    restarts with every command it writes (src/server/control_channel.rs), a FIFO connection,
    and the client's loop, whose timer restarts with every command it reads
    (src/client/control_channel.rs). */
module Heartbeat {
  import opened Runs
  import opened Wrappers

  /** heartbeat_interval, heartbeat_timeout, and the longest time a message travels. */
  datatype Env = Env(interval: nat, timeout: nat, delay: nat)

  datatype State = State(
    now: nat,
    sent: nat,            // when the server's timer last restarted
    wire: seq<nat>,       // departure times of what is on its way; the ack goes first
    inLoop: bool,         // the client has read the ack
    heard: nat,           // when the client's timer last restarted
    timedOut: bool)

  datatype Action = Tick | SendRequest | SendHeartbeat | Receive | TimeOut

  /** The ack has just been written, and the server's loop starts with it. */
  function Init(): State {
    State(0, 0, [0], false, 0, false)
  }

  predicate HeartbeatDue(e: Env, s: State) {
    e.interval != 0 && s.now >= s.sent + e.interval
  }

  predicate Enabled(e: Env, s: State, a: Action) {
    && !s.timedOut
    && match a
       // time does not pass over a timer of the server nor over the latest arrival
       case Tick => !HeartbeatDue(e, s) && (s.wire != [] ==> s.now < s.wire[0] + e.delay)
       case SendRequest => true
       case SendHeartbeat => HeartbeatDue(e, s)
       case Receive => s.wire != []
       case TimeOut => e.timeout != 0 && s.inLoop && s.now >= s.heard + e.timeout
  }

  function Step(e: Env, s: State, a: Action): State
    requires Enabled(e, s, a)
  {
    match a
    case Tick => s.(now := s.now + 1)
    case SendRequest => s.(sent := s.now, wire := s.wire + [s.now])
    case SendHeartbeat => s.(sent := s.now, wire := s.wire + [s.now])
    case Receive => s.(wire := s.wire[1..], inLoop := true, heard := s.now)
    case TimeOut => s.(timedOut := true)
  }

  function Moves(e: Env): Machine<State, Action> {
    (s: State, a: Action) => if Enabled(e, s, a) then Some(Step(e, s, a)) else None
  }

  // ---- what the clocks show ----

  predicate Sends(a: Action) {
    a.SendRequest? || a.SendHeartbeat?
  }

  /** The time after some actions. */
  function Clock(run: seq<Action>): nat {
    if run == [] then 0 else Clock(run[..|run| - 1]) + if run[|run| - 1].Tick? then 1 else 0
  }

  /** When the last action of a kind happened; the timers start at 0. */
  function LastTime(kind: Action -> bool, run: seq<Action>): nat {
    if run == [] then 0
    else if kind(run[|run| - 1]) then Clock(run[..|run| - 1])
    else LastTime(kind, run[..|run| - 1])
  }

  /** When everything was written, the ack at 0 first. */
  function Departures(run: seq<Action>): seq<nat> {
    if run == [] then [0]
    else Departures(run[..|run| - 1]) + if Sends(run[|run| - 1]) then [Clock(run[..|run| - 1])] else []
  }

  function Receipts(run: seq<Action>): nat {
    if run == [] then 0 else Receipts(run[..|run| - 1]) + if run[|run| - 1].Receive? then 1 else 0
  }

  /** The state, from the actions alone. */
  predicate Honest(run: seq<Action>, s: State) {
    && s.now == Clock(run)
    && s.sent == LastTime(Sends, run)
    && s.heard == LastTime((a: Action) => a.Receive?, run)
    && Receipts(run) <= |Departures(run)| && s.wire == Departures(run)[Receipts(run)..]
    && (s.inLoop <==> Receive in run)
    && (s.timedOut <==> TimeOut in run)
  }

  lemma StepIsHonest(e: Env, run: seq<Action>, s: State, a: Action)
    requires Honest(run, s) && Enabled(e, s, a)
    ensures Honest(run + [a], Step(e, s, a))
  {
    assert (run + [a])[..|run|] == run;
  }

  /** Both timers show when the last command was written and read, the connection holds in order
      what was written and not yet read, and the timeout is taken when the state says so. */
  lemma TimersAreHonest(e: Env, run: seq<Action>)
    requires IsRun(Moves(e), Init(), run)
    ensures Honest(run, RunFrom(Moves(e), Init(), run))
  {
    forall past, s, a | Honest(past, s) && Enabled(e, s, a) ensures Honest(past + [a], Step(e, s, a)) {
      StepIsHonest(e, past, s, a);
    }
    RunKeepsTrace(Moves(e), Honest, Init(), run);
  }

  // ---- when the timeout is safe ----

  predicate Inv(e: Env, s: State) {
    && !s.timedOut
    && s.sent <= s.now <= s.sent + e.interval
    && (forall i :: 0 <= i < |s.wire| ==> s.now <= s.wire[i] + e.delay && s.wire[i] <= s.now)
    && (forall i, j :: 0 <= i <= j < |s.wire| ==> s.wire[i] <= s.wire[j])
    && (forall i, j :: 0 <= i < |s.wire| && j == i + 1 < |s.wire| ==> s.wire[j] <= s.wire[i] + e.interval)
    && (s.wire != [] ==> s.wire[|s.wire| - 1] == s.sent)
    && (s.wire == [] ==> s.inLoop && s.sent <= s.heard)
    && (s.inLoop && s.wire != [] ==> s.wire[0] <= s.heard + e.interval)
  }

  predicate Safe(e: Env) {
    e.timeout == 0 || (0 < e.interval && e.interval + e.delay < e.timeout)
  }

  lemma NoTimeOut(e: Env, s: State)
    requires 0 < e.interval && e.interval + e.delay < e.timeout && Inv(e, s)
    ensures !Enabled(e, s, TimeOut)
  {
    assert s.inLoop && s.wire != [] ==> s.now <= s.wire[0] + e.delay;
  }

  lemma TickKeepsInv(e: Env, s: State)
    requires 0 < e.interval && Inv(e, s) && Enabled(e, s, Tick)
    ensures Inv(e, Step(e, s, Tick))
  {
    assert forall i :: 0 <= i < |s.wire| ==> s.wire[0] <= s.wire[i];
  }

  lemma ReceiveKeepsInv(e: Env, s: State)
    requires Inv(e, s) && Enabled(e, s, Receive)
    ensures Inv(e, Step(e, s, Receive))
  {
  }

  lemma StepKeepsInv(e: Env, s: State, a: Action)
    requires 0 < e.interval && e.interval + e.delay < e.timeout
    requires Inv(e, s) && Enabled(e, s, a)
    ensures Inv(e, Step(e, s, a))
  {
    NoTimeOut(e, s);
    if a.Receive? {
      ReceiveKeepsInv(e, s);
    } else if a.Tick? {
      TickKeepsInv(e, s);
    }
  }

  lemma SafeRun(e: Env, s: State, run: seq<Action>)
    requires Safe(e) && IsRun(Moves(e), s, run) && !s.timedOut
    requires e.timeout != 0 ==> Inv(e, s)
    ensures !RunFrom(Moves(e), s, run).timedOut
  {
    forall s, a | e.timeout != 0 && Inv(e, s) && Enabled(e, s, a) ensures Inv(e, Step(e, s, a)) {
      StepKeepsInv(e, s, a);
    }
    RunKeeps(Moves(e), (s: State) => !s.timedOut && (e.timeout != 0 ==> Inv(e, s)), s, run);
  }

  // ---- when it is not ----

  /** The client has heard the ack at time 0, and nothing after it is delivered before `until`. */
  lemma {:induction false} Linger(e: Env, run0: seq<Action>, s: State, until: nat) returns (run: seq<Action>, s': State)
    requires Leads(Moves(e), Init(), run0, s) && s.now <= until
    requires s.inLoop && s.heard == 0 && !s.timedOut
    requires 0 < e.interval ==> until <= e.interval + e.delay && s.now <= s.sent + e.interval
    requires s.wire != [] ==> 0 < e.interval <= s.wire[0]
    ensures Leads(Moves(e), Init(), run, s')
    ensures s'.now == until && s'.inLoop && s'.heard == 0 && !s'.timedOut
    decreases until - s.now, if HeartbeatDue(e, s) then 1 else 0
  {
    if s.now == until {
      return run0, s;
    }
    var a := if HeartbeatDue(e, s) then SendHeartbeat else Tick;
    Then(Moves(e), Init(), run0, s, a);
    run, s' := Linger(e, run0 + [a], Step(e, s, a), until);
  }

  lemma UnsafeRun(e: Env) returns (run: seq<Action>, s: State)
    requires !Safe(e)
    ensures Leads(Moves(e), Init(), run, s) && s.timedOut
  {
    Then(Moves(e), Init(), [], Init(), Receive);
    var s1;
    run, s1 := Linger(e, [] + [Receive], Step(e, Init(), Receive), e.timeout);
    Then(Moves(e), Init(), run, s1, TimeOut);
    run, s := run + [TimeOut], Step(e, s1, TimeOut);
  }

  /** A run in which the client takes the timeout branch. */
  ghost predicate TimesOut(e: Env, run: seq<Action>) {
    IsRun(Moves(e), Init(), run) && TimeOut in run
  }

  /** The client never takes the timeout branch, whatever data channels are requested and
      however long within the delay each message travels, exactly when the timeout is off, or
      heartbeats are on and interval and delay together stay below the timeout. */
  lemma HeartbeatBound(e: Env)
    ensures (forall run :: !TimesOut(e, run)) <==> Safe(e)
  {
    if Safe(e) {
      forall run ensures !TimesOut(e, run) {
        if IsRun(Moves(e), Init(), run) {
          SafeRun(e, Init(), run);
          TimersAreHonest(e, run);
        }
      }
    } else {
      var run, s := UnsafeRun(e);
      TimersAreHonest(e, run);
      assert TimesOut(e, run);
    }
  }
}
