/**
  How much the launch protocol can hold, when a goroutine blocks for good, and that it finishes.
*/
module LaunchProgress {
  import opened Launch
  import opened LaunchSafety

  // Capacity.

  /** A goroutine blocked on a full channel. */
  predicate AcceptorBlocked(s: State) { s.acc.Holding? && |s.q.acceptCh| == ACCEPT_CAP }

  predicate ForwarderBlocked(s: State) { s.fwd.FwdHold? && |s.q.proxyCh| == PROXY_CAP }

  /** Connections accepted for the caller that it has not read. */
  function Unread(q: Queues): int { |q.accepted| - 1 - |q.received| }

  lemma {:induction false} WithoutFirstLength(conns: seq<Conn>, port: nat)
    ensures |WithoutFirst(conns, port)| == |conns| - Bit(First(conns, port).Some?)
  {
    if conns != [] && conns[0].port != port {
      WithoutFirstLength(conns[1..], port);
    }
  }

  /**
    After readiness at most 98 connections are unread, and the acceptor and the forwarder are both
    blocked exactly then: the one in the acceptor's hand and 64 + 1 + 32 before it.
  */
  lemma BlockedExactlyAtCapacity(agentPort: nat, steps: seq<Step>)
    requires After(agentPort, steps).Some? && After(agentPort, steps).value.main == RUNNING
    ensures var s := After(agentPort, steps).value;
      && Unread(s.q) <= PROXY_CAP + 1 + ACCEPT_CAP + 1
      && (AcceptorBlocked(s) && ForwarderBlocked(s) <==> Unread(s.q) == PROXY_CAP + 1 + ACCEPT_CAP + 1)
  {
    var s := After(agentPort, steps).value;
    RunKeepsInv(agentPort, Init, steps);
    EveryConnectionArrivesInOrder(agentPort, steps);
    WithoutFirstLength(s.q.accepted, agentPort);
    assert Unread(s.q) == |s.q.proxyCh| + |s.q.fwdHand| + |s.q.acceptCh| + |s.q.accHand|;
  }

  // Two ways to block for good.

  /** More connections were pending at readiness than the caller's channel holds. */
  predicate Overfull(s: State) { s.main == HAND_OVER && s.handed > 64 }

  /** An error return waits for an acceptor that nobody reads from any more. */
  predicate Deadlocked(s: State) { s.main == AWAIT_ACCEPTOR && AcceptorBlocked(s) }

  lemma StepKeepsOverfull(agentPort: nat, s: State, step: Step)
    requires Inv(s) && Overfull(s) && Apply(agentPort, s, step).Some?
    ensures Overfull(Apply(agentPort, s, step).value)
  {
    match step
    case HandOverS(x) => assert |s.q.proxyCh| + |s.q.pending| == s.handed;
    case _ =>
  }

  lemma StepKeepsDeadlock(agentPort: nat, s: State, step: Step)
    requires Inv(s) && Deadlocked(s) && Apply(agentPort, s, step).Some?
    ensures Deadlocked(Apply(agentPort, s, step).value)
  {
    match step
    case AccS(x) =>
    case FwdS(x) =>
    case _ =>
  }

  /** Both are final: no continuation leaves them, so `Run` never returns. */
  lemma {:induction false} BlockedForGood(agentPort: nat, s: State, steps: seq<Step>)
    requires Inv(s) && (Overfull(s) || Deadlocked(s)) && From(agentPort, s, steps).Some?
    ensures var t := From(agentPort, s, steps).value; (Overfull(s) ==> Overfull(t)) && (Deadlocked(s) ==> Deadlocked(t))
  {
    if steps != [] {
      var init, last := steps[..|steps| - 1], steps[|steps| - 1];
      BlockedForGood(agentPort, s, init);
      RunKeepsInv(agentPort, s, init);
      var t := From(agentPort, s, init).value;
      if Overfull(s) { StepKeepsOverfull(agentPort, t, last); }
      if Deadlocked(s) { StepKeepsDeadlock(agentPort, t, last); }
    }
  }

  // Everything else finishes.

  function MainRank(pc: MainPc): int {
    if pc == SELECT then 10 else if pc == NOTE_READY then 11
    else if pc <= CLOSE_AGENT then 17 - pc else if pc <= RUNNING then 14 - pc else 21 - pc
  }

  function AccRank(pc: AccPc): nat {
    match pc
    case AccIdle => 5 case Accepting => 4 case Receiving => 9 case Holding => 8
    case Reporting => 3 case ClosingDone => 2 case ClosingCh => 1 case AccEnd => 0
  }

  function ProcRank(pc: Proc): nat {
    match pc
    case Absent => 4 case Alive => 3 case Dead => 2 case Waited => 1 case Reported => 0
  }

  function FwdRank(pc: FwdPc): nat {
    match pc
    case FwdIdle => 1 case FwdRecv => 1 case FwdHold => 2 case FwdEnd => 0
  }

  /** What is left to do without anything new from outside. */
  function Work(s: State): int {
    MainRank(s.main) + AccRank(s.acc) + ProcRank(s.proc) + FwdRank(s.fwd) + (WATCH_END - s.watch) + (ONCE_DONE - s.once)
    + 3 * |s.q.acceptCh| + 2 * |s.q.pending|
  }

  lemma SetupAdvances(s: State, step: SetupStep)
    requires s.main <= FAILED && (s.main == START ==> s.acc.AccIdle? && s.proc.Absent?) && ApplySetup(s, step).Some?
    ensures Work(ApplySetup(s, step).value) < Work(s)
  {
    match step
    case DoAcquire(ok) =>
    case DoCommand(ok) =>
    case DoMakeDir(ok) =>
    case DoClearSocket =>
    case DoListen(ok) =>
    case DoStart(ok) =>
  }

  lemma SelectAdvances(agentPort: nat, s: State, step: SelectStep)
    requires InvSignals(s) && ApplySelect(agentPort, s, step).Some?
    ensures Work(ApplySelect(agentPort, s, step).value) < Work(s)
  {
    match step
    case SelConn =>
    case SelClosed =>
    case SelReady =>
    case SelErr =>
    case SelExit =>
    case SelCancel =>
    case DoNoteReady =>
  }

  lemma UnwindAdvances(s: State, step: UnwindStep)
    requires s.main <= FAILED && ApplyUnwind(s, step).Some?
    ensures Work(ApplyUnwind(s, step).value) < Work(s)
  {
    match step
    case DoCloseRpc =>
    case DoCloseAgent =>
    case DoKill =>
    case DoReap =>
    case DoCloseListener =>
    case DoAwaitAcceptor =>
    case DoRemoveSocket =>
    case DoUnwind =>
  }

  lemma HandOverAdvances(s: State, step: HandOverStep)
    requires (s.main == HAND_OVER ==> s.fwd.FwdIdle?) && (s.main == SPAWN_WATCHER ==> s.watch == WATCH_IDLE)
    requires ApplyHandOver(s, step).Some?
    ensures Work(ApplyHandOver(s, step).value) < Work(s)
  {
    match step
    case DoBootstrap(ok) =>
    case DoHandOver =>
    case DoSpawnForwarder =>
    case DoSpawnWatcher =>
    case DoDisarm =>
  }

  lemma AcceptorAdvances(s: State, step: AccStep)
    requires |s.q.accHand| <= 1 && ApplyAcceptor(s, step).Some?
    requires !step.AcceptConn?
    ensures Work(ApplyAcceptor(s, step).value) < Work(s)
  {
    match step
    case AcceptConn =>
    case AcceptClosed =>
    case AcceptError =>
    case RecvOk(port) =>
    case RecvError =>
    case Report =>
    case SendConn =>
    case CloseDone =>
    case CloseAcceptCh =>
  }

  lemma ForwarderAdvances(s: State, step: FwdStep)
    requires ApplyForwarder(s, step).Some?
    ensures Work(ApplyForwarder(s, step).value) < Work(s)
  {
    match step
    case TakeConn =>
    case PutConn =>
    case FinishForwarding =>
  }

  lemma WaiterAdvances(s: State, step: WaiterStep)
    requires ApplyWaiter(s, step).Some?
    ensures Work(ApplyWaiter(s, step).value) < Work(s)
  {
    match step
    case WaitReturns =>
    case SendExit =>
  }

  lemma WatcherAdvances(s: State, step: WatchStep)
    requires s.watch <= WATCH_END && ApplyWatcher(s, step).Some?
    ensures Work(ApplyWatcher(s, step).value) < Work(s)
  {
    match step
    case TakeExit =>
    case CloseReadyListener =>
    case SeeAcceptorDone =>
    case RemoveReadySocket =>
    case SeeClosed =>
    case SendWait =>
    case CloseWait =>
  }

  lemma OnceAdvances(s: State, step: OnceStep)
    requires s.once <= ONCE_DONE && ApplyOnce(s, step).Some?
    ensures Work(ApplyOnce(s, step).value) < Work(s)
  {
    match step
    case BeginByWatcher =>
    case BeginByCaller =>
    case DoReleaseAgent =>
    case DoCloseConn =>
    case DoCloseFile =>
    case DoReleaseLock =>
  }

  lemma EnvAddsNoWork(s: State, step: EnvStep)
    requires ApplyEnv(s, step).Some?
    ensures Work(ApplyEnv(s, step).value) <= Work(s)
  {}

  lemma StepsAdvance(agentPort: nat, s: State, step: Step)
    requires Inv(s) && Apply(agentPort, s, step).Some?
    ensures var t := Apply(agentPort, s, step).value;
      if step == AccS(AcceptConn) then Work(t) == Work(s) + 5
      else if step.EnvS? then Work(t) <= Work(s)
      else Work(t) < Work(s)
  {
    if step == AccS(AcceptConn) { return; }
    match step
    case SetupS(x) => SetupAdvances(s, x);
    case SelectS(x) => SelectAdvances(agentPort, s, x);
    case UnwindS(x) => UnwindAdvances(s, x);
    case HandOverS(x) => HandOverAdvances(s, x);
    case AccS(x) => AcceptorAdvances(s, x);
    case FwdS(x) => ForwarderAdvances(s, x);
    case WaiterS(x) => WaiterAdvances(s, x);
    case WatchS(x) => WatcherAdvances(s, x);
    case OnceS(x) => OnceAdvances(s, x);
    case EnvS(x) => EnvAddsNoWork(s, x);
  }

  function Arrivals(steps: seq<Step>): nat {
    if steps == [] then 0
    else Arrivals(steps[..|steps| - 1]) + Bit(steps[|steps| - 1] == AccS(AcceptConn))
  }

  function Moves(steps: seq<Step>): nat {
    if steps == [] then 0
    else Moves(steps[..|steps| - 1]) + Bit(!Outside(steps[|steps| - 1]))
  }

  /** No livelock: between them the five goroutines make at most 40 moves, and 5 more per arrival. */
  lemma {:induction false} MovesAreBounded(agentPort: nat, steps: seq<Step>)
    requires After(agentPort, steps).Some?
    ensures Moves(steps) + Work(After(agentPort, steps).value) <= 40 + 5 * Arrivals(steps)
    ensures Work(After(agentPort, steps).value) >= 0
  {
    RunKeepsInv(agentPort, Init, steps);
    WorkIsPositive(After(agentPort, steps).value);
    if steps != [] {
      var init := steps[..|steps| - 1];
      MovesAreBounded(agentPort, init);
      RunKeepsInv(agentPort, Init, init);
      StepsAdvance(agentPort, After(agentPort, init).value, steps[|steps| - 1]);
    }
  }

  lemma WorkIsPositive(s: State)
    requires s.main <= FAILED && s.watch <= WATCH_END && s.once <= ONCE_DONE
    ensures Work(s) >= 0
  {}

  /** What the peer of an accepted connection sends, or fails to send, while `recvFD` waits. */
  predicate ByPeer(step: Step) { step.AccS? && (step.acc.RecvOk? || step.acc.RecvError?) }

  /**
    What the goroutines can do by themselves: no arrival, nothing a peer may withhold, no accept
    failure and no first `Close` by the caller.
  */
  predicate Internal(step: Step) {
    !Outside(step) && !ByPeer(step) && step != AccS(AcceptError) && step != OnceS(BeginByCaller)
  }

  /** Nobody can move. */
  ghost predicate Quiet(agentPort: nat, s: State) {
    forall step | Internal(step) :: Apply(agentPort, s, step).None?
  }

  lemma QuietWaiter(agentPort: nat, s: State)
    requires Inv(s) && Quiet(agentPort, s)
    ensures s.proc.Absent? || s.proc.Alive? || s.proc.Reported?
  {
    assert Apply(agentPort, s, WaiterS(WaitReturns)).None?;
    assert Apply(agentPort, s, WaiterS(SendExit)).None?;
  }

  lemma QuietAcceptor(agentPort: nat, s: State)
    requires Inv(s) && Quiet(agentPort, s)
    ensures s.acc.AccIdle? || s.acc.AccEnd? || (s.acc.Accepting? && s.listening) || s.acc.Receiving? || AcceptorBlocked(s)
    ensures s.proc.Absent? || s.proc.Alive? || s.proc.Reported?
  {
    QuietWaiter(agentPort, s);
    assert Apply(agentPort, s, AccS(AcceptClosed)).None?;
    assert Apply(agentPort, s, AccS(SendConn)).None?;
    assert Apply(agentPort, s, AccS(Report)).None?;
    assert Apply(agentPort, s, AccS(CloseDone)).None?;
    assert Apply(agentPort, s, AccS(CloseAcceptCh)).None?;
  }

  lemma QuietSetup(agentPort: nat, s: State)
    requires Quiet(agentPort, s)
    ensures s.main >= SELECT
  {
    assert Apply(agentPort, s, SetupS(DoAcquire(true))).None?;
    assert Apply(agentPort, s, SetupS(DoCommand(true))).None?;
    assert Apply(agentPort, s, SetupS(DoMakeDir(true))).None?;
    assert Apply(agentPort, s, SetupS(DoClearSocket)).None?;
    assert Apply(agentPort, s, SetupS(DoListen(true))).None?;
    assert Apply(agentPort, s, SetupS(DoStart(true))).None?;
  }

  lemma QuietRun(agentPort: nat, s: State)
    requires s.main <= FAILED && (s.main == NOTE_READY ==> !s.c.ready.Full()) && Quiet(agentPort, s)
    ensures s.main == SELECT || s.main == HAND_OVER || s.main == RUNNING || s.main == REAP
            || s.main == AWAIT_ACCEPTOR || s.main == FAILED
  {
    QuietSetup(agentPort, s);
    assert Apply(agentPort, s, SelectS(DoNoteReady)).None?;
    assert Apply(agentPort, s, HandOverS(DoBootstrap(true))).None?;
    assert Apply(agentPort, s, UnwindS(DoCloseRpc)).None?;
    assert Apply(agentPort, s, UnwindS(DoCloseAgent)).None?;
    assert Apply(agentPort, s, HandOverS(DoSpawnWatcher)).None?;
    assert Apply(agentPort, s, HandOverS(DoDisarm)).None?;
    assert Apply(agentPort, s, UnwindS(DoKill)).None?;
    assert Apply(agentPort, s, UnwindS(DoCloseListener)).None?;
    assert Apply(agentPort, s, UnwindS(DoRemoveSocket)).None?;
    assert Apply(agentPort, s, UnwindS(DoUnwind)).None?;
  }

  lemma QuietSelect(agentPort: nat, s: State)
    requires Inv(s) && Quiet(agentPort, s) && s.main == SELECT
    ensures s.proc.Alive? && (s.acc.Accepting? || s.acc.Receiving?) && s.q.acceptCh == [] && !s.cancelled
  {
    QuietAcceptor(agentPort, s);
    assert Apply(agentPort, s, SelectS(SelConn)).None?;
    assert Apply(agentPort, s, SelectS(SelErr)).None?;
    assert Apply(agentPort, s, SelectS(SelExit)).None?;
    assert Apply(agentPort, s, SelectS(SelCancel)).None?;
  }

  lemma QuietElsewhere(agentPort: nat, s: State)
    requires Inv(s) && Quiet(agentPort, s)
    ensures s.main == HAND_OVER ==> Overfull(s)
    ensures s.main == AWAIT_ACCEPTOR ==> Deadlocked(s) || s.acc.Receiving?
    ensures s.main != REAP
  {
    QuietAcceptor(agentPort, s);
    assert Apply(agentPort, s, HandOverS(DoHandOver)).None?;
    assert Apply(agentPort, s, HandOverS(DoSpawnForwarder)).None?;
    assert Apply(agentPort, s, UnwindS(DoAwaitAcceptor)).None?;
    assert Apply(agentPort, s, UnwindS(DoReap)).None?;
  }

  /**
    When nobody can move, `Run` has returned, or is waiting for a live manager with nothing queued,
    or is blocked in one of the two ways above, or waits for an acceptor whose peer sends nothing.
    With `MovesAreBounded` this is progress: a finite number of arrivals leaves only these.
  */
  lemma StuckOnlyThere(agentPort: nat, steps: seq<Step>)
    requires After(agentPort, steps).Some? && Quiet(agentPort, After(agentPort, steps).value)
    ensures var s := After(agentPort, steps).value;
      || s.main == FAILED || s.main == RUNNING || Overfull(s) || Deadlocked(s)
      || (s.main == AWAIT_ACCEPTOR && s.acc.Receiving?)
      || (s.main == SELECT && s.proc.Alive? && (s.acc.Accepting? || s.acc.Receiving?) && s.q.acceptCh == [] && !s.cancelled)
  {
    var s := After(agentPort, steps).value;
    RunKeepsInv(agentPort, Init, steps);
    QuietRun(agentPort, s);
    QuietElsewhere(agentPort, s);
    if s.main == SELECT { QuietSelect(agentPort, s); }
  }

  lemma QuietForwarder(agentPort: nat, s: State)
    requires Inv(s) && Quiet(agentPort, s) && s.main == RUNNING
    ensures AcceptorBlocked(s) ==> ForwarderBlocked(s)
    ensures s.acc.AccEnd? && s.q.proxyCh == [] ==> s.fwd.FwdEnd?
  {
    assert Apply(agentPort, s, FwdS(TakeConn)).None?;
    assert Apply(agentPort, s, FwdS(PutConn)).None?;
    assert Apply(agentPort, s, FwdS(FinishForwarding)).None?;
  }

  lemma QuietOnce(agentPort: nat, s: State)
    requires Quiet(agentPort, s) && s.once <= ONCE_DONE && s.watch == WATCH_CLOSE
    ensures s.once == ONCE_DONE
  {
    assert Apply(agentPort, s, OnceS(BeginByWatcher)).None?;
    assert Apply(agentPort, s, OnceS(DoReleaseAgent)).None?;
    assert Apply(agentPort, s, OnceS(DoCloseConn)).None?;
    assert Apply(agentPort, s, OnceS(DoCloseFile)).None?;
    assert Apply(agentPort, s, OnceS(DoReleaseLock)).None?;
  }

  /** Where the watcher can wait, and for what. */
  lemma WatcherWaits(agentPort: nat, s: State)
    requires Quiet(agentPort, s)
    ensures s.watch != WATCH_LISTENER && s.watch != WATCH_SOCKET && s.watch != WATCH_CLOSE_CH
    ensures s.watch == WATCH_PROC ==> !s.c.procWait.Full()
    ensures s.watch == WATCH_ACCEPTOR ==> !s.c.acceptDone
    ensures s.watch == WATCH_CLOSE ==> s.once != ONCE_DONE
    ensures s.watch == WATCH_SEND ==> s.c.wait.Full()
  {
    assert Apply(agentPort, s, WatchS(TakeExit)).None?;
    assert Apply(agentPort, s, WatchS(CloseReadyListener)).None?;
    assert Apply(agentPort, s, WatchS(SeeAcceptorDone)).None?;
    assert Apply(agentPort, s, WatchS(RemoveReadySocket)).None?;
    assert Apply(agentPort, s, WatchS(SeeClosed)).None?;
    assert Apply(agentPort, s, WatchS(SendWait)).None?;
    assert Apply(agentPort, s, WatchS(CloseWait)).None?;
  }

  /** The watcher finishes if the acceptor has, and otherwise waits for it. */
  lemma QuietWatcher(agentPort: nat, s: State)
    requires Inv(s) && Quiet(agentPort, s) && s.main == RUNNING && !s.proc.Alive?
    ensures s.acc.AccEnd? || s.acc.Receiving? || AcceptorBlocked(s)
    ensures s.watch == if s.acc.AccEnd? then WATCH_END else WATCH_ACCEPTOR
  {
    QuietAcceptor(agentPort, s);
    WatcherWaits(agentPort, s);
    if s.watch == WATCH_CLOSE { QuietOnce(agentPort, s); }
  }

  /** As many connections accepted and not read as fit between the acceptor and the caller. */
  const ROOM: nat := 98

  /**
    Shutdown, exactly: once the manager has died and nobody can move, `WaitCh` is closed and
    everything is released if and only if fewer than 98 connections are unread and no `recvFD`
    waits for its peer. Otherwise the watcher waits for the acceptor and `WaitCh` has no value.
  */
  lemma ShutdownCompletesExactly(agentPort: nat, steps: seq<Step>)
    requires After(agentPort, steps).Some? && Quiet(agentPort, After(agentPort, steps).value)
    requires var s := After(agentPort, steps).value; s.main == RUNNING && !s.proc.Alive?
    ensures var s := After(agentPort, steps).value;
      && (s.c.waitClosed <==> Unread(s.q) < ROOM && !s.acc.Receiving?)
      && (s.c.waitClosed ==> s.c.wait.sent == 1 && s.r.byClose == 1 && s.c.acceptDone && !s.listening && !s.socketFile)
      && (!s.c.waitClosed ==> s.c.wait.sent == 0 && s.watch == WATCH_ACCEPTOR && !s.c.acceptDone)
  {
    var s := After(agentPort, steps).value;
    RunKeepsInv(agentPort, Init, steps);
    QuietWatcher(agentPort, s);
    QuietForwarder(agentPort, s);
    BlockedExactlyAtCapacity(agentPort, steps);
  }

  /**
    A caller that drains `ProxyConnCh` gets everything: both channels are closed, everything is
    released and every connection was read, unless a peer keeps `recvFD` waiting.
  */
  lemma DrainedShutdownCompletes(agentPort: nat, steps: seq<Step>)
    requires After(agentPort, steps).Some? && Quiet(agentPort, After(agentPort, steps).value)
    requires var s := After(agentPort, steps).value; s.main == RUNNING && s.q.proxyCh == [] && !s.proc.Alive?
    ensures var s := After(agentPort, steps).value;
      s.acc.Receiving? ||
      (s.c.waitClosed && s.c.wait.sent == 1 && s.r.byClose == 1 && s.c.proxyClosed
       && s.q.received == WithoutFirst(s.q.accepted, agentPort))
  {
    var s := After(agentPort, steps).value;
    RunKeepsInv(agentPort, Init, steps);
    QuietWatcher(agentPort, s);
    QuietForwarder(agentPort, s);
    EveryConnectionArrivesInOrder(agentPort, steps);
  }

  /** A caller that does not read while acceptor and forwarder are blocked never gets a value. */
  lemma {:induction false} UnreadConnectionsBlockWait(agentPort: nat, s: State, steps: seq<Step>)
    requires Inv(s) && s.main == RUNNING && AcceptorBlocked(s) && ForwarderBlocked(s)
    requires From(agentPort, s, steps).Some? && EnvS(CallerTakesConn) !in steps
    ensures var t := From(agentPort, s, steps).value;
      t.main == RUNNING && AcceptorBlocked(t) && ForwarderBlocked(t) && t.c.wait.sent == 0
  {
    RunKeepsInv(agentPort, s, steps);
    if steps != [] {
      var init, last := steps[..|steps| - 1], steps[|steps| - 1];
      UnreadConnectionsBlockWait(agentPort, s, init);
      RunKeepsInv(agentPort, s, init);
      assert last in steps;
      StepKeepsBlocked(agentPort, From(agentPort, s, init).value, last);
    }
  }

  /** Neither of the two can move, and `Run` itself is over. */
  lemma BlockedGoroutines(agentPort: nat, s: State)
    requires Inv(s) && s.main == RUNNING && AcceptorBlocked(s) && ForwarderBlocked(s)
    ensures forall x :: ApplyAcceptor(s, x).None?
    ensures forall x :: ApplyForwarder(s, x).None?
    ensures forall x :: ApplySetup(s, x).None?
    ensures forall x :: ApplySelect(agentPort, s, x).None?
    ensures forall x :: ApplyUnwind(s, x).None?
    ensures forall x :: ApplyHandOver(s, x).None?
  {}

  lemma StepKeepsBlocked(agentPort: nat, s: State, step: Step)
    requires Inv(s) && s.main == RUNNING && AcceptorBlocked(s) && ForwarderBlocked(s)
    requires Apply(agentPort, s, step).Some? && step != EnvS(CallerTakesConn)
    ensures var t := Apply(agentPort, s, step).value; t.main == RUNNING && AcceptorBlocked(t) && ForwarderBlocked(t)
  {
    BlockedGoroutines(agentPort, s);
    match step
    case WaiterS(_) =>
    case WatchS(_) =>
    case OnceS(_) =>
    case EnvS(_) =>
    case _ =>
  }

  // The error returns that wait for the acceptor.

  /** Connections queued or still arriving. */
  function InFlight(s: State): nat { |s.q.acceptCh| + Bit(s.acc.Receiving? || s.acc.Holding?) }

  /** The tear-down is waiting with room for everything in flight, or is past the wait. */
  predicate Roomy(s: State) {
    s.main >= REMOVE_SOCKET || (s.main == AWAIT_ACCEPTOR && InFlight(s) <= 32)
  }

  lemma StepKeepsRoom(agentPort: nat, s: State, step: Step)
    requires Inv(s) && Roomy(s) && Apply(agentPort, s, step).Some?
    ensures Roomy(Apply(agentPort, s, step).value)
  {
    match step
    case AccS(x) =>
    case FwdS(x) =>
    case _ =>
  }

  /**
    An error return gets past `<-acceptDone` whenever at most 32 connections are queued or still
    arriving once the listener is closed: until then somebody can move, or `recvFD` waits for its peer.
  */
  lemma {:induction false} RoomIsEnough(agentPort: nat, s: State, steps: seq<Step>)
    requires Inv(s) && Roomy(s) && From(agentPort, s, steps).Some?
    ensures var t := From(agentPort, s, steps).value;
      Roomy(t) && (t.main == AWAIT_ACCEPTOR && Quiet(agentPort, t) ==> t.acc.Receiving?)
  {
    RunKeepsInv(agentPort, s, steps);
    if steps != [] {
      var init := steps[..|steps| - 1];
      RoomIsEnough(agentPort, s, init);
      RunKeepsInv(agentPort, s, init);
      StepKeepsRoom(agentPort, From(agentPort, s, init).value, steps[|steps| - 1]);
    }
    var t := From(agentPort, s, steps).value;
    if t.main == AWAIT_ACCEPTOR && Quiet(agentPort, t) { QuietElsewhere(agentPort, t); }
  }

  /** The hand-over never blocks with at most 64 pending, and never completes with more. */
  lemma HandOverFits(agentPort: nat, steps: seq<Step>)
    requires After(agentPort, steps).Some?
    ensures var s := After(agentPort, steps).value;
      && (s.main == HAND_OVER && s.handed <= 64 ==>
            Apply(agentPort, s, HandOverS(if s.q.pending == [] then DoSpawnForwarder else DoHandOver)).Some?)
      && (SPAWN_WATCHER <= s.main <= RUNNING ==> s.handed <= 64)
  {
    RunKeepsInv(agentPort, Init, steps);
  }
}
