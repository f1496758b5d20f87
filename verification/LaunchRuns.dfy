/** Runs from the initial state into each of the states the launch protocol cannot leave. */
module LaunchRuns {
  import opened Prelude
  import opened Launch
  import opened LaunchSafety
  import opened LaunchProgress

  /** A later run of the steps so far. */
  lemma Go(agentPort: nat, steps: seq<Step>, s: State, step: Step, t: State) returns (more: seq<Step>)
    requires After(agentPort, steps) == Some(s) && Apply(agentPort, s, step) == Some(t)
    ensures After(agentPort, more) == Some(t)
  {
    Then(agentPort, steps, s, step, t);
    more := steps + [step];
  }

  predicate Listening(s: State) { s.acc.Accepting? && s.listening && s.q.accHand == [] }

  /** A connection accepted and in the acceptor's hand. */
  function Held(s: State, port: nat): State { s.(acc := Holding, q := s.q.Arrive(port)) }

  /** A connection accepted and queued for `Run` or the forwarder. */
  function Queued(s: State, port: nat): State { s.(q := s.q.Arrive(port).Send()) }

  lemma Hold(agentPort: nat, steps: seq<Step>, s: State, port: nat) returns (more: seq<Step>)
    requires After(agentPort, steps) == Some(s) && Listening(s)
    ensures After(agentPort, more) == Some(Held(s, port))
  {
    more := Go(agentPort, steps, s, AccS(AcceptConn), s.(acc := Receiving));
    more := Go(agentPort, more, s.(acc := Receiving), AccS(RecvOk(port)), Held(s, port));
  }

  lemma Queue(agentPort: nat, steps: seq<Step>, s: State, port: nat) returns (more: seq<Step>)
    requires After(agentPort, steps) == Some(s) && Listening(s) && |s.q.acceptCh| < ACCEPT_CAP
    ensures After(agentPort, more) == Some(Queued(s, port))
  {
    more := Hold(agentPort, steps, s, port);
    more := Go(agentPort, more, Held(s, port), AccS(SendConn), Queued(s, port));
  }

  /** The queue filled, whatever reads it standing still. */
  lemma {:induction false} FillQueue(agentPort: nat, steps: seq<Step>, s: State, n: nat) returns (more: seq<Step>, t: State)
    requires After(agentPort, steps) == Some(s) && Listening(s) && |s.q.acceptCh| + n <= ACCEPT_CAP
    ensures After(agentPort, more) == Some(t) && Listening(t) && t == s.(q := t.q)
    ensures t.q == s.q.(accepted := t.q.accepted, acceptCh := t.q.acceptCh) && |t.q.acceptCh| == |s.q.acceptCh| + n
  {
    if n == 0 { return steps, s; }
    more, t := FillQueue(agentPort, steps, s, n - 1);
    more := Queue(agentPort, more, t, agentPort + 1);
    t := Queued(t, agentPort + 1);
  }

  // An error return that never gets past the acceptor.

  /** Cancelled with a full queue and one more connection in the acceptor's hand. */
  lemma DeadlockedRun(agentPort: nat) returns (steps: seq<Step>)
    ensures After(agentPort, steps).Some? && Deadlocked(After(agentPort, steps).value)
    ensures After(agentPort, steps).value.why.Cancelled?
  {
    var s, t;
    steps, s := Boot(agentPort);
    steps, t := FillQueue(agentPort, steps, s, ACCEPT_CAP);
    steps := Hold(agentPort, steps, t, agentPort);
    steps := CancelAndTearDown(agentPort, steps, Held(t, agentPort));
  }

  /** From the select loop to the wait for the acceptor, with every step of the tear-down. */
  lemma CancelAndTearDown(agentPort: nat, steps: seq<Step>, s: State) returns (more: seq<Step>)
    requires After(agentPort, steps) == Some(s) && s.main == SELECT && s.proc.Alive? && s.c.procWait == Cell(0, 0)
    ensures After(agentPort, more) ==
      Some(s.(main := AWAIT_ACCEPTOR, why := Cancelled, cancelled := true, proc := Reported, listening := false,
              socketFile := false, c := s.c.(procWait := Cell(1, 1))))
  {
    var s1 := s.(main := KILL, why := Cancelled, cancelled := true);
    if s.cancelled {
      more := steps;
      assert s.(cancelled := true) == s;
    } else {
      more := Go(agentPort, steps, s, EnvS(Cancel), s.(cancelled := true));
    }
    more := Go(agentPort, more, s.(cancelled := true), SelectS(SelCancel), s1);
    var s2 := s1.(main := REAP, proc := Dead);
    more := Go(agentPort, more, s1, UnwindS(DoKill), s2);
    var s3 := s2.(proc := Waited);
    more := Go(agentPort, more, s2, WaiterS(WaitReturns), s3);
    var s4 := s3.(proc := Reported, c := s3.c.(procWait := Cell(1, 0)));
    more := Go(agentPort, more, s3, WaiterS(SendExit), s4);
    var s5 := s4.(main := CLOSE_LISTENER, c := s4.c.(procWait := Cell(1, 1)));
    more := Go(agentPort, more, s4, UnwindS(DoReap), s5);
    var s6 := s5.(main := AWAIT_ACCEPTOR, listening := false, socketFile := false);
    more := Go(agentPort, more, s5, UnwindS(DoCloseListener), s6);
  }

  // A hand-over that never ends.

  /** Connections that arrive before the agent's become pending one by one. */
  lemma {:induction false} Pend(agentPort: nat, steps: seq<Step>, s: State, n: nat) returns (more: seq<Step>, t: State)
    requires After(agentPort, steps) == Some(s) && Listening(s) && s.main == SELECT && s.q.acceptCh == []
    ensures After(agentPort, more) == Some(t) && Listening(t) && t == s.(q := t.q)
    ensures t.q == s.q.(accepted := t.q.accepted, pending := t.q.pending) && |t.q.pending| == |s.q.pending| + n
  {
    if n == 0 { return steps, s; }
    more, t := Pend(agentPort, steps, s, n - 1);
    more := Queue(agentPort, more, t, agentPort + 1);
    var queued := Queued(t, agentPort + 1);
    assert queued.q.acceptCh[0].port == agentPort + 1 && queued.q.acceptCh[1..] == [];
    t := queued.(q := queued.q.TakePending());
    more := Go(agentPort, more, queued, SelectS(SelConn), t);
  }

  /** The agent connects, and `Run` starts to hand over what is pending. */
  lemma Ready(agentPort: nat, steps: seq<Step>, s: State) returns (more: seq<Step>, t: State)
    requires After(agentPort, steps) == Some(s) && Listening(s) && s.main == SELECT && s.q.acceptCh == []
    requires s.q.agent.None? && s.c.ready == Cell(0, 0)
    ensures After(agentPort, more) == Some(t) && Listening(t)
    ensures t == s.(main := HAND_OVER, handed := |s.q.pending|, q := t.q, c := s.c.(ready := Cell(1, 1)))
    ensures t.q == s.q.(accepted := t.q.accepted, agent := t.q.agent)
  {
    more := Queue(agentPort, steps, s, agentPort);
    var queued := Queued(s, agentPort);
    assert queued.q.acceptCh[0].port == agentPort && queued.q.acceptCh[1..] == [];
    var s1 := queued.(main := NOTE_READY, q := queued.q.TakeAgent());
    more := Go(agentPort, more, queued, SelectS(SelConn), s1);
    var s2 := s1.(main := SELECT, c := s1.c.(ready := Cell(1, 0)));
    more := Go(agentPort, more, s1, SelectS(DoNoteReady), s2);
    var s3 := s2.(main := BOOTSTRAP, c := s2.c.(ready := Cell(1, 1)));
    more := Go(agentPort, more, s2, SelectS(SelReady), s3);
    t := s3.(main := HAND_OVER, handed := |s3.q.pending|);
    more := Go(agentPort, more, s3, HandOverS(DoBootstrap(true)), t);
  }

  /** Sixty-five connections before the agent's. */
  lemma OverfullRun(agentPort: nat) returns (steps: seq<Step>)
    ensures After(agentPort, steps).Some? && Overfull(After(agentPort, steps).value)
  {
    var s, t;
    steps, s := Boot(agentPort);
    steps, t := Pend(agentPort, steps, s, PROXY_CAP + 1);
    steps, t := Ready(agentPort, steps, t);
  }

  // A successful launch whose `WaitCh` never gets a value.

  /** `Run` returns with nothing pending. */
  lemma Launched(agentPort: nat) returns (steps: seq<Step>, s: State)
    ensures After(agentPort, steps) == Some(s) && Listening(s) && s.main == RUNNING && s.proc.Alive?
    ensures s.fwd.FwdRecv? && s.watch == WATCH_PROC && s.c.procWait == Cell(0, 0)
    ensures s.q.acceptCh == [] && s.q.proxyCh == [] && s.q.fwdHand == []
  {
    var s0, t;
    steps, s0 := Boot(agentPort);
    steps, t := Ready(agentPort, steps, s0);
    var s1 := t.(main := SPAWN_WATCHER, fwd := FwdRecv);
    steps := Go(agentPort, steps, t, HandOverS(DoSpawnForwarder), s1);
    var s2 := s1.(main := DISARM, watch := WATCH_PROC);
    steps := Go(agentPort, steps, s1, HandOverS(DoSpawnWatcher), s2);
    s := s2.(main := RUNNING);
    steps := Go(agentPort, steps, s2, HandOverS(DoDisarm), s);
  }

  /** A connection accepted, queued and taken by the forwarder. */
  lemma Forward(agentPort: nat, steps: seq<Step>, s: State) returns (more: seq<Step>, t: State)
    requires After(agentPort, steps) == Some(s) && Listening(s) && s.fwd.FwdRecv? && s.q.acceptCh == [] && s.q.fwdHand == []
    ensures After(agentPort, more) == Some(t) && Listening(t) && t == s.(fwd := FwdHold, q := t.q)
    ensures t.q == s.q.(accepted := t.q.accepted, fwdHand := t.q.fwdHand) && |t.q.fwdHand| == 1
  {
    more := Queue(agentPort, steps, s, agentPort + 1);
    var queued := Queued(s, agentPort + 1);
    assert queued.q.acceptCh[1..] == [];
    t := queued.(fwd := FwdHold, q := queued.q.Take());
    more := Go(agentPort, more, queued, FwdS(TakeConn), t);
  }

  /** Connections that nobody reads pile up in the caller's channel. */
  lemma {:induction false} PileUp(agentPort: nat, steps: seq<Step>, s: State, n: nat) returns (more: seq<Step>, t: State)
    requires After(agentPort, steps) == Some(s) && Listening(s) && s.fwd.FwdRecv? && s.q.acceptCh == [] && s.q.fwdHand == []
    requires |s.q.proxyCh| + n <= PROXY_CAP
    ensures After(agentPort, more) == Some(t) && Listening(t) && t == s.(q := t.q)
    ensures t.q == s.q.(accepted := t.q.accepted, proxyCh := t.q.proxyCh) && |t.q.proxyCh| == |s.q.proxyCh| + n
  {
    if n == 0 { return steps, s; }
    more, t := PileUp(agentPort, steps, s, n - 1);
    var held;
    more, held := Forward(agentPort, more, t);
    t := held.(fwd := FwdRecv, q := held.q.Put());
    more := Go(agentPort, more, held, FwdS(PutConn), t);
  }

  /**
    A caller that does not read `ProxyConnCh`: with 98 connections the manager's death is never
    reported, and no continuation without a read changes that.
  */
  lemma NeverReportedRun(agentPort: nat) returns (steps: seq<Step>)
    ensures After(agentPort, steps).Some?
    ensures var s := After(agentPort, steps).value;
      s.main == RUNNING && s.proc.Dead? && Unread(s.q) == ROOM && AcceptorBlocked(s) && ForwarderBlocked(s)
    ensures forall more :: From(agentPort, After(agentPort, steps).value, more).Some? && EnvS(CallerTakesConn) !in more ==>
      From(agentPort, After(agentPort, steps).value, more).value.c.wait.sent == 0
  {
    var s;
    steps, s := Launched(agentPort);
    steps, s := PileUp(agentPort, steps, s, PROXY_CAP);
    steps, s := Forward(agentPort, steps, s);
    steps, s := FillQueue(agentPort, steps, s, ACCEPT_CAP);
    steps := Hold(agentPort, steps, s, agentPort + 1);
    s := Held(s, agentPort + 1);
    steps := Go(agentPort, steps, s, EnvS(ProcessExits), s.(proc := Dead));
    s := s.(proc := Dead);
    RunKeepsInv(agentPort, Init, steps);
    BlockedExactlyAtCapacity(agentPort, steps);
    forall more | From(agentPort, s, more).Some? && EnvS(CallerTakesConn) !in more
      ensures From(agentPort, s, more).value.c.wait.sent == 0
    {
      UnreadConnectionsBlockWait(agentPort, s, more);
    }
  }
}
