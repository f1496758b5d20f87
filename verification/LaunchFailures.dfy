/**
  What the steps of a run say about its state: `Run` fails exactly when one of its calls has failed,
  and with that call's error, and the histories are those of the steps.
*/
module LaunchFailures {
  import opened Prelude
  import opened Launch
  import opened LaunchSafety

  /** The error that a step makes `Run` return. */
  function Cause(step: Step): Failure {
    match step
    case SetupS(DoAcquire(ok)) => if ok then NoFailure else LockRefused
    case SetupS(DoCommand(ok)) => if ok then NoFailure else BadCommand
    case SetupS(DoMakeDir(ok)) => if ok then NoFailure else NoSocketDir
    case SetupS(DoListen(ok)) => if ok then NoFailure else NoListener
    case SetupS(DoStart(ok)) => if ok then NoFailure else NoStart
    case SelectS(SelClosed) => ChannelClosed
    case SelectS(SelErr) => AcceptFailed
    case SelectS(SelExit) => ManagerExited
    case SelectS(SelCancel) => Cancelled
    case HandOverS(DoBootstrap(ok)) => if ok then NoFailure else InvalidAgent
    case _ => NoFailure
  }

  predicate Caused(steps: seq<Step>, why: Failure) { exists i :: 0 <= i < |steps| && Cause(steps[i]) == why }

  /** The error `Run` has decided on; an invalid agent is noted once its connection is closed. */
  function Error(main: MainPc, why: Failure): Failure {
    if main == CLOSE_RPC || main == CLOSE_AGENT then InvalidAgent else why
  }

  lemma CausedSnoc(steps: seq<Step>, step: Step, why: Failure)
    ensures Caused(steps + [step], why) <==> Caused(steps, why) || Cause(step) == why
  {
    var more := steps + [step];
    assert more[|steps|] == step;
    if Caused(steps, why) {
      var i :| 0 <= i < |steps| && Cause(steps[i]) == why;
      assert more[i] == steps[i];
    }
  }

  lemma SetupError(s: State, step: SetupStep)
    requires Inv(s) && ApplySetup(s, step).Some?
    ensures var t := ApplySetup(s, step).value;
      Error(s.main, s.why).NoFailure? && Error(t.main, t.why) == Cause(SetupS(step))
  {}

  lemma SelectError(agentPort: nat, s: State, step: SelectStep)
    requires Inv(s) && ApplySelect(agentPort, s, step).Some?
    ensures var t := ApplySelect(agentPort, s, step).value;
      Error(s.main, s.why).NoFailure? && Error(t.main, t.why) == Cause(SelectS(step))
  {}

  lemma UnwindError(s: State, step: UnwindStep)
    requires Inv(s) && ApplyUnwind(s, step).Some?
    ensures var t := ApplyUnwind(s, step).value; Error(t.main, t.why) == Error(s.main, s.why)
  {}

  lemma HandOverError(s: State, step: HandOverStep)
    requires Inv(s) && ApplyHandOver(s, step).Some?
    ensures var t := ApplyHandOver(s, step).value;
      Error(s.main, s.why).NoFailure? && Error(t.main, t.why) == Cause(HandOverS(step))
  {}

  lemma OthersKeepRun(agentPort: nat, s: State, step: Step)
    requires Apply(agentPort, s, step).Some?
    requires !step.SetupS? && !step.SelectS? && !step.UnwindS? && !step.HandOverS?
    ensures Apply(agentPort, s, step).value.main == s.main && Apply(agentPort, s, step).value.why == s.why
  {}

  /** A step with a cause is taken while there is no error yet and decides it; the others change nothing. */
  lemma StepError(agentPort: nat, s: State, step: Step)
    requires Inv(s) && Apply(agentPort, s, step).Some?
    ensures var t := Apply(agentPort, s, step).value;
      Error(t.main, t.why) == if Cause(step).NoFailure? then Error(s.main, s.why) else Cause(step)
    ensures !Cause(step).NoFailure? ==> Error(s.main, s.why).NoFailure?
  {
    match step
    case SetupS(x) => SetupError(s, x);
    case SelectS(x) => SelectError(agentPort, s, x);
    case UnwindS(x) => UnwindError(s, x);
    case HandOverS(x) => HandOverError(s, x);
    case _ => OthersKeepRun(agentPort, s, step);
  }

  /**
    `Run` fails exactly when a call it makes fails, a select arm for an error is taken or the agent
    is invalid, and the error is that one's: there is never a second cause.
  */
  lemma {:induction false} ErrorsHaveOneCause(agentPort: nat, steps: seq<Step>)
    requires After(agentPort, steps).Some?
    ensures var s := After(agentPort, steps).value;
      forall why: Failure :: !why.NoFailure? ==> (Caused(steps, why) <==> Error(s.main, s.why) == why)
  {
    if steps != [] {
      var init, last := steps[..|steps| - 1], steps[|steps| - 1];
      ErrorsHaveOneCause(agentPort, init);
      RunKeepsInv(agentPort, Init, init);
      StepError(agentPort, After(agentPort, init).value, last);
      assert steps == init + [last];
      OneMoreCause(init, last, ErrorAfter(agentPort, init), ErrorAfter(agentPort, steps));
    }
  }

  function ErrorAfter(agentPort: nat, steps: seq<Step>): Failure
    requires After(agentPort, steps).Some?
  {
    Error(After(agentPort, steps).value.main, After(agentPort, steps).value.why)
  }

  lemma OneMoreCause(steps: seq<Step>, last: Step, before: Failure, after: Failure)
    requires forall why: Failure :: !why.NoFailure? ==> (Caused(steps, why) <==> before == why)
    requires after == if Cause(last).NoFailure? then before else Cause(last)
    requires !Cause(last).NoFailure? ==> before.NoFailure?
    ensures forall why: Failure :: !why.NoFailure? ==> (Caused(steps + [last], why) <==> after == why)
  {
    forall why: Failure | !why.NoFailure?
      ensures Caused(steps + [last], why) <==> after == why
    {
      CausedSnoc(steps, last, why);
    }
  }

  /**
    The answers of `Run`, exactly. A refused lock ends it at once, with nothing started and nothing
    released. A context is returned only when no call has failed; an error only for its cause.
  */
  lemma RunAnswersExactly(agentPort: nat, steps: seq<Step>)
    requires After(agentPort, steps).Some?
    ensures var s := After(agentPort, steps).value;
      && (SetupS(DoAcquire(false)) in steps ==>
            s.main == FAILED && s.why.LockRefused? && s.proc.Absent? && s.r.byRun == 0 && !s.r.lockAcquired)
      && (s.main == RUNNING ==> forall i :: 0 <= i < |steps| ==> Cause(steps[i]).NoFailure?)
      && (s.main == FAILED ==> !s.why.NoFailure? && Caused(steps, s.why))
      && (forall i :: 0 <= i < |steps| && !Cause(steps[i]).NoFailure? ==>
            Error(s.main, s.why) == Cause(steps[i]) && s.main != RUNNING)
  {
    var s := After(agentPort, steps).value;
    ErrorsHaveOneCause(agentPort, steps);
    RunKeepsInv(agentPort, Init, steps);
    forall i | 0 <= i < |steps| && !Cause(steps[i]).NoFailure?
      ensures Error(s.main, s.why) == Cause(steps[i])
    {
      assert Caused(steps, Cause(steps[i]));
    }
    if SetupS(DoAcquire(false)) in steps {
      var i :| 0 <= i < |steps| && steps[i] == SetupS(DoAcquire(false));
      assert Cause(steps[i]) == LockRefused;
    }
  }

  // What the outside did.

  /** What a run has seen: a cancelled context, the manager's own exit, a kill, an acceptor error. */
  datatype Seen = Seen(cancel: bool, exit: bool, kill: bool, acceptor: bool)

  function See(seen: Seen, step: Step): Seen {
    Seen(seen.cancel || step == EnvS(Cancel), seen.exit || step == EnvS(ProcessExits), seen.kill || step == UnwindS(DoKill),
         seen.acceptor || step == AccS(AcceptError) || step == AccS(RecvError))
  }

  function SeenIn(steps: seq<Step>): Seen {
    if steps == [] then Seen(false, false, false, false) else See(SeenIn(steps[..|steps| - 1]), steps[|steps| - 1])
  }

  /** That is what the names say. */
  lemma {:induction false} SeenExactly(steps: seq<Step>)
    ensures SeenIn(steps).cancel <==> EnvS(Cancel) in steps
    ensures SeenIn(steps).exit <==> EnvS(ProcessExits) in steps
    ensures SeenIn(steps).kill <==> UnwindS(DoKill) in steps
    ensures SeenIn(steps).acceptor <==> AccS(AcceptError) in steps || AccS(RecvError) in steps
  {
    if steps != [] {
      var init, last := steps[..|steps| - 1], steps[|steps| - 1];
      SeenExactly(init);
      assert steps == init + [last];
    }
  }

  predicate Gone(proc: Proc) { proc.Dead? || proc.Waited? || proc.Reported? }

  /** Each error that comes from outside was there, and an acceptor error is reported or about to be. */
  predicate Grounded(s: State, seen: Seen) {
    && (s.cancelled <==> seen.cancel)
    && (s.acc.Reporting? || s.c.readyErr.sent == 1 <==> seen.acceptor)
    && (Gone(s.proc) ==> seen.exit || seen.kill)
    && (seen.kill ==> s.main >= REAP && (s.why.AcceptFailed? || s.why.Cancelled? || s.why.InvalidAgent?))
    && (s.why.Cancelled? ==> s.cancelled)
    && (s.why.AcceptFailed? ==> s.c.readyErr.sent == 1)
  }

  lemma SetupStaysGrounded(s: State, seen: Seen, step: SetupStep)
    requires Inv(s) && ApplySetup(s, step).Some? && Grounded(s, seen)
    ensures Grounded(ApplySetup(s, step).value, seen)
  {}

  lemma SelectStaysGrounded(agentPort: nat, s: State, seen: Seen, step: SelectStep)
    requires Inv(s) && ApplySelect(agentPort, s, step).Some? && Grounded(s, seen)
    ensures Grounded(ApplySelect(agentPort, s, step).value, seen)
  {}

  lemma UnwindStaysGrounded(s: State, seen: Seen, step: UnwindStep)
    requires Inv(s) && ApplyUnwind(s, step).Some? && Grounded(s, seen)
    ensures Grounded(ApplyUnwind(s, step).value, seen.(kill := seen.kill || step.DoKill?))
  {}

  lemma HandOverStaysGrounded(s: State, seen: Seen, step: HandOverStep)
    requires Inv(s) && ApplyHandOver(s, step).Some? && Grounded(s, seen)
    ensures Grounded(ApplyHandOver(s, step).value, seen)
  {}

  lemma AcceptorStaysGrounded(s: State, seen: Seen, step: AccStep)
    requires Inv(s) && ApplyAcceptor(s, step).Some? && Grounded(s, seen)
    ensures Grounded(ApplyAcceptor(s, step).value,
                     seen.(acceptor := seen.acceptor || step.AcceptError? || step.RecvError?))
  {}

  lemma EnvStaysGrounded(s: State, seen: Seen, step: EnvStep)
    requires Inv(s) && ApplyEnv(s, step).Some? && Grounded(s, seen)
    ensures Grounded(ApplyEnv(s, step).value,
                     seen.(cancel := seen.cancel || step.Cancel?, exit := seen.exit || step.ProcessExits?))
  {}

  lemma WaiterStaysGrounded(s: State, seen: Seen, step: WaiterStep)
    requires Inv(s) && ApplyWaiter(s, step).Some? && Grounded(s, seen)
    ensures Grounded(ApplyWaiter(s, step).value, seen)
  {}

  lemma ForwarderStaysGrounded(s: State, seen: Seen, step: FwdStep)
    requires Inv(s) && ApplyForwarder(s, step).Some? && Grounded(s, seen)
    ensures Grounded(ApplyForwarder(s, step).value, seen)
  {}

  lemma WatcherStaysGrounded(s: State, seen: Seen, step: WatchStep)
    requires Inv(s) && ApplyWatcher(s, step).Some? && Grounded(s, seen)
    ensures Grounded(ApplyWatcher(s, step).value, seen)
  {}

  lemma OnceStaysGrounded(s: State, seen: Seen, step: OnceStep)
    requires Inv(s) && ApplyOnce(s, step).Some? && Grounded(s, seen)
    ensures Grounded(ApplyOnce(s, step).value, seen)
  {}

  lemma StepStaysGrounded(agentPort: nat, s: State, seen: Seen, step: Step)
    requires Inv(s) && Apply(agentPort, s, step).Some? && Grounded(s, seen)
    ensures Grounded(Apply(agentPort, s, step).value, See(seen, step))
  {
    match step
    case SetupS(x) => SetupStaysGrounded(s, seen, x);
    case SelectS(x) => SelectStaysGrounded(agentPort, s, seen, x);
    case UnwindS(x) => UnwindStaysGrounded(s, seen, x);
    case HandOverS(x) => HandOverStaysGrounded(s, seen, x);
    case AccS(x) => AcceptorStaysGrounded(s, seen, x);
    case WaiterS(x) => WaiterStaysGrounded(s, seen, x);
    case FwdS(x) => ForwarderStaysGrounded(s, seen, x);
    case WatchS(x) => WatcherStaysGrounded(s, seen, x);
    case OnceS(x) => OnceStaysGrounded(s, seen, x);
    case EnvS(x) => EnvStaysGrounded(s, seen, x);
  }

  lemma {:induction false} RunsAreGrounded(agentPort: nat, steps: seq<Step>)
    requires After(agentPort, steps).Some?
    ensures Grounded(After(agentPort, steps).value, SeenIn(steps))
  {
    if steps != [] {
      var init := steps[..|steps| - 1];
      RunsAreGrounded(agentPort, init);
      RunKeepsInv(agentPort, Init, init);
      StepStaysGrounded(agentPort, After(agentPort, init).value, SeenIn(init), steps[|steps| - 1]);
    }
  }

  /**
    Errors from outside, exactly: an error of accept or of `recvFD`, and nothing else, leaves one
    error for the select loop; `Run` reports a failed accept, a dead manager or a cancelled context
    only when there was one.
  */
  lemma OutsideErrorsAreReal(agentPort: nat, steps: seq<Step>)
    requires After(agentPort, steps).Some?
    ensures var s := After(agentPort, steps).value;
      && (AccS(AcceptError) in steps || AccS(RecvError) in steps <==> s.acc.Reporting? || s.c.readyErr.sent == 1)
      && (s.why.AcceptFailed? || s.why.ChannelClosed? ==> AccS(AcceptError) in steps || AccS(RecvError) in steps)
      && (s.why.ManagerExited? ==> EnvS(ProcessExits) in steps)
      && (s.why.Cancelled? ==> EnvS(Cancel) in steps)
  {
    var s := After(agentPort, steps).value;
    RunsAreGrounded(agentPort, steps);
    SeenExactly(steps);
    RunKeepsInv(agentPort, Init, steps);
  }

  // The histories.

  /** The ports of the connections that arrived, in order. */
  function ArrivedPorts(steps: seq<Step>): seq<nat> {
    if steps == [] then []
    else
      var last := steps[|steps| - 1];
      ArrivedPorts(steps[..|steps| - 1]) + if last.AccS? && last.acc.RecvOk? then [last.acc.port] else []
  }

  /** How many connections the caller has read. */
  function Reads(steps: seq<Step>): nat {
    if steps == [] then 0 else Reads(steps[..|steps| - 1]) + Bit(steps[|steps| - 1] == EnvS(CallerTakesConn))
  }

  function Ports(conns: seq<Conn>): seq<nat> {
    if conns == [] then [] else Ports(conns[..|conns| - 1]) + [conns[|conns| - 1].port]
  }

  lemma AcceptorHistory(s: State, step: AccStep)
    requires ApplyAcceptor(s, step).Some?
    ensures var t := ApplyAcceptor(s, step).value;
      && t.q.received == s.q.received
      && t.q.accepted == s.q.accepted + if step.RecvOk? then [Conn(step.port, |s.q.accepted|)] else []
  {}

  lemma EnvHistory(s: State, step: EnvStep)
    requires ApplyEnv(s, step).Some?
    ensures var t := ApplyEnv(s, step).value;
      t.q.accepted == s.q.accepted && |t.q.received| == |s.q.received| + Bit(step.CallerTakesConn?)
  {}

  lemma OthersHistory(agentPort: nat, s: State, step: Step)
    requires Apply(agentPort, s, step).Some? && !step.AccS? && !step.EnvS?
    ensures var t := Apply(agentPort, s, step).value; t.q.accepted == s.q.accepted && t.q.received == s.q.received
  {}

  lemma PortsSnoc(conns: seq<Conn>, more: seq<Conn>)
    requires |more| <= 1
    ensures Ports(conns + more) == Ports(conns) + if more == [] then [] else [more[0].port]
  {
    if more == [] { assert conns + more == conns; } else { assert (conns + more)[..|conns|] == conns; }
  }

  lemma StepHistory(agentPort: nat, s: State, step: Step)
    requires Apply(agentPort, s, step).Some?
    ensures var t := Apply(agentPort, s, step).value;
      && Ports(t.q.accepted) == Ports(s.q.accepted) + (if step.AccS? && step.acc.RecvOk? then [step.acc.port] else [])
      && |t.q.received| == |s.q.received| + Bit(step == EnvS(CallerTakesConn))
  {
    match step
    case AccS(x) =>
      AcceptorHistory(s, x);
      PortsSnoc(s.q.accepted, if x.RecvOk? then [Conn(x.port, |s.q.accepted|)] else []);
    case EnvS(x) => EnvHistory(s, x);
    case _ => OthersHistory(agentPort, s, step);
  }

  /** What was accepted is what the peers sent, in order, and what was received is what was read. */
  lemma {:induction false} HistoryIsTheRun(agentPort: nat, steps: seq<Step>)
    requires After(agentPort, steps).Some?
    ensures var q := After(agentPort, steps).value.q; Ports(q.accepted) == ArrivedPorts(steps) && |q.received| == Reads(steps)
  {
    if steps != [] {
      var init := steps[..|steps| - 1];
      HistoryIsTheRun(agentPort, init);
      StepHistory(agentPort, After(agentPort, init).value, steps[|steps| - 1]);
    }
  }
}
