/**
  What every interleaving of the launch protocol keeps: who has been started, what each channel
  carries, who released what, and where each accepted connection is.
*/
module LaunchSafety {
  import opened Prelude
  import opened Launch

  predicate BeforeStart(why: Failure) {
    why.LockRefused? || why.BadCommand? || why.NoSocketDir? || why.NoListener? || why.NoStart?
  }

  /** The four errors whose return path tears the manager process and the acceptor down first. */
  predicate TornDown(why: Failure) {
    why.AcceptFailed? || why.ManagerExited? || why.Cancelled? || why.InvalidAgent?
  }

  predicate Started(pc: MainPc, why: Failure) { pc >= SELECT && !BeforeStart(why) }

  // How far a tear-down path has come.
  predicate Reaped(pc: MainPc, why: Failure) { pc >= CLOSE_LISTENER && TornDown(why) }

  predicate Unlistened(pc: MainPc, why: Failure) { pc >= AWAIT_ACCEPTOR && TornDown(why) }

  predicate Joined(pc: MainPc, why: Failure) { pc >= REMOVE_SOCKET && TornDown(why) }

  predicate Finishing(pc: AccPc) { pc.ClosingDone? || pc.ClosingCh? || pc.AccEnd? }

  function Bit(b: bool): nat { if b then 1 else 0 }

  /** Which goroutine exists, and that `why` is set exactly on error paths. */
  ghost predicate InvStart(s: State) {
    && (KILL <= s.main <= REMOVE_SOCKET ==> TornDown(s.why))
    && (s.why.ManagerExited? ==> s.main >= CLOSE_LISTENER)
    && (s.main >= UNWIND ==> !s.why.NoFailure?)
    && (s.main == REAP ==> !s.proc.Alive?)
    && (s.main <= RUNNING ==> s.why.NoFailure?)
    && (s.main <= FAILED && (s.why.LockRefused? ==> s.main == FAILED))
    && (Started(s.main, s.why) <==> !s.acc.AccIdle?)
    && (s.acc.AccIdle? <==> s.proc.Absent?)
    && (SPAWN_WATCHER <= s.main <= RUNNING <==> !s.fwd.FwdIdle?)
    && (DISARM <= s.main <= RUNNING <==> s.watch != WATCH_IDLE)
    && (s.once != ONCE_IDLE ==> DISARM <= s.main <= RUNNING)
    && s.watch <= WATCH_END && s.once <= ONCE_DONE
    && (s.watch >= WATCH_SEND ==> s.once == ONCE_DONE)
    && (!Started(s.main, s.why) ==> s.q.agent.None?)
    && (NOTE_READY <= s.main <= RUNNING ==> s.q.agent.Some?)
  }

  /** What each one-value channel has carried. */
  ghost predicate InvSignals(s: State) {
    && s.c.ready.sent == Bit(s.q.agent.Some? && s.main != NOTE_READY)
    && s.c.ready.taken <= s.c.ready.sent
    && (s.main == SELECT ==> s.c.ready.taken == 0)
    && s.c.readyErr.taken <= s.c.readyErr.sent <= Bit(Finishing(s.acc))
    && (s.c.readyErr.taken == 1 ==> s.why.AcceptFailed?)
    && s.c.procWait.sent == Bit(s.proc.Reported?)
    && s.c.procWait.taken == Bit(Reaped(s.main, s.why) || s.watch >= WATCH_LISTENER)
    && s.c.procWait.taken <= s.c.procWait.sent
    && (s.c.acceptDone <==> s.acc.ClosingCh? || s.acc.AccEnd?)
    && (s.c.acceptClosed <==> s.acc.AccEnd?)
    && s.c.wait.sent == Bit(s.watch >= WATCH_CLOSE_CH)
    && s.c.wait.taken <= s.c.wait.sent
    && (s.c.waitClosed <==> s.watch == WATCH_END)
  }

  /** How far the listener, its socket file and the acceptor have been torn down. */
  ghost predicate InvTeardown(s: State) {
    && (s.socketFile ==> s.listening)
    && (s.main < START || BeforeStart(s.why) ==> !s.listening)
    && (s.main == START ==> s.listening)
    && (Started(s.main, s.why) ==> (s.listening <==> !Unlistened(s.main, s.why) && s.watch <= WATCH_LISTENER))
    && (Finishing(s.acc) && s.listening ==> s.c.readyErr.sent == 1)
    && (s.watch >= WATCH_SOCKET ==> s.c.acceptDone)
    && (Joined(s.main, s.why) ==> s.c.acceptDone)
    && (s.why.ChannelClosed? ==> s.c.acceptClosed && s.listening)
  }

  /** How often the lock, the RPC connection and the agent file were released, and by whom. */
  ghost predicate InvReleases(s: State) {
    && (s.r.lockAcquired <==> s.main != ACQUIRE && !s.why.LockRefused?)
    && s.r.byRun == Bit(s.main == FAILED && !s.why.LockRefused?)
    && s.r.byClose == Bit(s.once == ONCE_DONE)
    && s.r.rpc == Bit(s.main == CLOSE_AGENT || s.why.InvalidAgent?) + Bit(s.once >= CLOSE_FILE)
    && s.r.file == Bit(s.why.InvalidAgent?) + Bit(s.once >= RELEASE_LOCK)
  }

  /** The two queues and the hand-over of what was pending. */
  ghost predicate InvQueues(s: State) {
    && |s.q.accHand| == Bit(s.acc.Holding?)
    && |s.q.fwdHand| == Bit(s.fwd.FwdHold?)
    && |s.q.acceptCh| <= ACCEPT_CAP
    && |s.q.proxyCh| <= PROXY_CAP
    && (s.fwd.FwdIdle? && s.main != HAND_OVER ==> s.q.proxyCh == [])
    && (s.main == HAND_OVER ==> |s.q.proxyCh| + |s.q.pending| == s.handed)
    && (!s.fwd.FwdIdle? ==> s.q.pending == [] && s.handed <= PROXY_CAP)
    && (s.main != RUNNING ==> s.q.received == [] && s.c.wait.taken == 0)
    && (s.c.proxyClosed <==> s.fwd.FwdEnd?)
    && (s.fwd.FwdEnd? ==> s.c.acceptClosed && s.q.acceptCh == [])
  }

  ghost predicate Inv(s: State) {
    InvStart(s) && InvSignals(s) && InvTeardown(s) && InvReleases(s) && InvQueues(s)
  }

  // Every step keeps the invariants, one goroutine at a time.

  lemma SetupKeepsChannels(s: State, step: SetupStep)
    requires Inv(s) && ApplySetup(s, step).Some?
    ensures InvSignals(ApplySetup(s, step).value) && InvQueues(ApplySetup(s, step).value)
  {
    match step
    case DoAcquire(ok) =>
    case DoCommand(ok) =>
    case DoMakeDir(ok) =>
    case DoClearSocket =>
    case DoListen(ok) =>
    case DoStart(ok) =>
  }

  lemma SetupKeepsControl(s: State, step: SetupStep)
    requires Inv(s) && ApplySetup(s, step).Some?
    ensures var t := ApplySetup(s, step).value; InvStart(t) && InvTeardown(t) && InvReleases(t)
  {
    match step
    case DoAcquire(ok) =>
    case DoCommand(ok) =>
    case DoMakeDir(ok) =>
    case DoClearSocket =>
    case DoListen(ok) =>
    case DoStart(ok) =>
  }

  lemma SelectKeepsChannels(agentPort: nat, s: State, step: SelectStep)
    requires Inv(s) && ApplySelect(agentPort, s, step).Some?
    ensures InvSignals(ApplySelect(agentPort, s, step).value) && InvQueues(ApplySelect(agentPort, s, step).value)
  {
    match step
    case SelConn =>
    case SelClosed =>
    case SelReady =>
    case SelErr =>
    case SelExit =>
    case SelCancel =>
    case DoNoteReady =>
  }

  lemma SelectKeepsControl(agentPort: nat, s: State, step: SelectStep)
    requires Inv(s) && ApplySelect(agentPort, s, step).Some?
    ensures var t := ApplySelect(agentPort, s, step).value; InvStart(t) && InvTeardown(t) && InvReleases(t)
  {
    match step
    case SelConn =>
    case SelClosed =>
    case SelReady =>
    case SelErr =>
    case SelExit =>
    case SelCancel =>
    case DoNoteReady =>
  }

  lemma UnwindKeepsInv(s: State, step: UnwindStep)
    requires Inv(s) && ApplyUnwind(s, step).Some?
    ensures Inv(ApplyUnwind(s, step).value)
  {
    match step
    case DoCloseRpc =>
    case DoCloseAgent =>
    case DoKill =>
    case DoReap =>
    case DoCloseListener =>
    case DoAwaitAcceptor =>
    case DoRemoveSocket =>
    case DoUnwind =>
  }

  lemma HandOverKeepsInv(s: State, step: HandOverStep)
    requires Inv(s) && ApplyHandOver(s, step).Some?
    ensures Inv(ApplyHandOver(s, step).value)
  {
    match step
    case DoBootstrap(ok) =>
    case DoHandOver =>
    case DoSpawnForwarder =>
    case DoSpawnWatcher =>
    case DoDisarm =>
  }

  lemma AcceptorKeepsChannels(s: State, step: AccStep)
    requires Inv(s) && ApplyAcceptor(s, step).Some?
    ensures InvSignals(ApplyAcceptor(s, step).value) && InvQueues(ApplyAcceptor(s, step).value)
  {
    match step
    case AcceptConn =>
    case AcceptClosed =>
    case AcceptError =>
    case RecvOk(port) =>
    case RecvError =>
    case Report =>
    case SendConn =>
    case CloseDone =>
    case CloseAcceptCh =>
  }

  lemma AcceptorKeepsControl(s: State, step: AccStep)
    requires Inv(s) && ApplyAcceptor(s, step).Some?
    ensures var t := ApplyAcceptor(s, step).value; InvStart(t) && InvTeardown(t) && InvReleases(t)
  {
    match step
    case AcceptConn =>
    case AcceptClosed =>
    case AcceptError =>
    case RecvOk(port) =>
    case RecvError =>
    case Report =>
    case SendConn =>
    case CloseDone =>
    case CloseAcceptCh =>
  }

  lemma WaiterKeepsInv(s: State, step: WaiterStep)
    requires Inv(s) && ApplyWaiter(s, step).Some?
    ensures Inv(ApplyWaiter(s, step).value)
  {
    match step
    case WaitReturns =>
    case SendExit =>
  }

  lemma ForwarderKeepsInv(s: State, step: FwdStep)
    requires Inv(s) && ApplyForwarder(s, step).Some?
    ensures Inv(ApplyForwarder(s, step).value)
  {
    match step
    case TakeConn =>
    case PutConn =>
    case FinishForwarding =>
  }

  lemma WatcherKeepsInv(s: State, step: WatchStep)
    requires Inv(s) && ApplyWatcher(s, step).Some?
    ensures Inv(ApplyWatcher(s, step).value)
  {
    match step
    case TakeExit =>
    case CloseReadyListener =>
    case SeeAcceptorDone =>
    case RemoveReadySocket =>
    case SeeClosed =>
    case SendWait =>
    case CloseWait =>
  }

  lemma OnceKeepsInv(s: State, step: OnceStep)
    requires Inv(s) && ApplyOnce(s, step).Some?
    ensures Inv(ApplyOnce(s, step).value)
  {
    match step
    case BeginByWatcher =>
    case BeginByCaller =>
    case DoReleaseAgent =>
    case DoCloseConn =>
    case DoCloseFile =>
    case DoReleaseLock =>
  }

  lemma EnvKeepsInv(s: State, step: EnvStep)
    requires Inv(s) && ApplyEnv(s, step).Some?
    ensures Inv(ApplyEnv(s, step).value)
  {
    match step
    case ProcessExits =>
    case Cancel =>
    case CallerTakesConn =>
    case CallerTakesWait =>
  }

  lemma StepKeepsInv(agentPort: nat, s: State, step: Step)
    requires Inv(s) && Apply(agentPort, s, step).Some?
    ensures Inv(Apply(agentPort, s, step).value)
  {
    match step
    case SetupS(x) => SetupKeepsChannels(s, x); SetupKeepsControl(s, x);
    case SelectS(x) => SelectKeepsChannels(agentPort, s, x); SelectKeepsControl(agentPort, s, x);
    case UnwindS(x) => UnwindKeepsInv(s, x);
    case HandOverS(x) => HandOverKeepsInv(s, x);
    case AccS(x) => AcceptorKeepsChannels(s, x); AcceptorKeepsControl(s, x);
    case WaiterS(x) => WaiterKeepsInv(s, x);
    case FwdS(x) => ForwarderKeepsInv(s, x);
    case WatchS(x) => WatcherKeepsInv(s, x);
    case OnceS(x) => OnceKeepsInv(s, x);
    case EnvS(x) => EnvKeepsInv(s, x);
  }

  lemma {:induction false} RunKeepsInv(agentPort: nat, s: State, steps: seq<Step>)
    requires Inv(s) && From(agentPort, s, steps).Some?
    ensures Inv(From(agentPort, s, steps).value)
  {
    if steps != [] {
      var init := steps[..|steps| - 1];
      RunKeepsInv(agentPort, s, init);
      StepKeepsInv(agentPort, From(agentPort, s, init).value, steps[|steps| - 1]);
    }
  }

  /**
    Shutdown order, on every interleaving: a value is sent on `WaitCh` at most once and before it
    is closed, and by then the manager is reaped, the acceptor has finished, the listener and its
    socket file are gone and the lock is released. However many `Close` calls race, nothing is
    released twice.
  */
  lemma ShutdownOrder(agentPort: nat, steps: seq<Step>)
    requires After(agentPort, steps).Some?
    ensures var s := After(agentPort, steps).value;
      && s.c.wait.sent <= 1
      && (s.c.waitClosed ==> s.c.wait.sent == 1)
      && (s.c.wait.sent == 1 ==>
            && s.proc.Reported? && s.c.acceptDone && !s.listening && !s.socketFile
            && s.r.byClose == 1 && s.r.rpc == 1 && s.r.file == 1)
      && s.r.byRun + s.r.byClose <= 1
      && s.r.rpc <= 1 && s.r.file <= 1
  {
    RunKeepsInv(agentPort, Init, steps);
  }

  /**
    Error returns, on every interleaving: `Run` itself releases the lock exactly once on each
    error return that acquired it, and never on success. When it is about to do so after a started
    manager, the manager is reaped, the acceptor finished, the listener and socket file gone -
    unless it takes the closed-channel return, which leaves the listener open and happens only
    with an acceptor error still queued.
  */
  lemma ErrorReturns(agentPort: nat, steps: seq<Step>)
    requires After(agentPort, steps).Some?
    ensures var s := After(agentPort, steps).value;
      && (s.main == FAILED ==> s.r.byRun == (if s.r.lockAcquired then 1 else 0) && s.r.byClose == 0)
      && (s.main == FAILED ==> (s.r.lockAcquired <==> !s.why.LockRefused?))
      && (s.main == RUNNING ==> s.r.byRun == 0 && s.r.lockAcquired)
      && (s.main == UNWIND ==> s.r.byRun == 0 && s.r.lockAcquired)
      && (s.main >= UNWIND && BeforeStart(s.why) ==> s.proc.Absent? && !s.listening)
      && (s.main >= UNWIND && !BeforeStart(s.why) && !s.why.ChannelClosed? ==>
            s.proc.Reported? && s.c.acceptDone && !s.listening && !s.socketFile)
      && (s.why.ChannelClosed? ==> s.listening && s.c.acceptDone && s.c.readyErr.sent == 1 && s.c.readyErr.taken == 0)
  {
    RunKeepsInv(agentPort, Init, steps);
  }

  // Where each accepted connection is.

  /** The first connection on a port, and the sequence without it. */
  function First(conns: seq<Conn>, port: nat): Option<Conn> {
    if conns == [] then None
    else if conns[0].port == port then Some(conns[0])
    else First(conns[1..], port)
  }

  function WithoutFirst(conns: seq<Conn>, port: nat): seq<Conn> {
    if conns == [] then []
    else if conns[0].port == port then conns[1..]
    else [conns[0]] + WithoutFirst(conns[1..], port)
  }

  /** What the caller has read, followed by everything on its way, in the order it will arrive. */
  function Flow(q: Queues): seq<Conn> {
    Line(q.received, q.proxyCh, q.pending, q.fwdHand, q.acceptCh, q.accHand)
  }

  function Line(received: seq<Conn>, proxyCh: seq<Conn>, pending: seq<Conn>, fwdHand: seq<Conn>,
                acceptCh: seq<Conn>, accHand: seq<Conn>): seq<Conn> {
    received + proxyCh + pending + fwdHand + acceptCh + accHand
  }

  /** No accepted connection is lost, duplicated or overtaken, and the agent's is the first on its port. */
  ghost predicate FlowInv(agentPort: nat, q: Queues) {
    if q.agent.None? then Flow(q) == q.accepted && First(q.pending, agentPort).None?
    else Flow(q) == WithoutFirst(q.accepted, agentPort) && First(q.accepted, agentPort) == q.agent
  }

  lemma {:induction false} FirstAfterOthers(before: seq<Conn>, conn: Conn, rest: seq<Conn>, port: nat)
    requires First(before, port).None?
    ensures conn.port == port ==>
      First(before + [conn] + rest, port) == Some(conn) && WithoutFirst(before + [conn] + rest, port) == before + rest
    ensures conn.port != port ==> First(before + [conn], port).None?
  {
    var all := before + [conn] + rest;
    if before == [] {
      assert all[0] == conn && all[1..] == rest && before + rest == rest;
      assert ([] + [conn])[1..] == [];
    } else {
      FirstAfterOthers(before[1..], conn, rest, port);
      assert all[1..] == before[1..] + [conn] + rest;
      assert (before + [conn])[1..] == before[1..] + [conn];
      assert before + rest == [before[0]] + (before[1..] + rest);
    }
  }

  lemma {:induction false} FirstIsStable(conns: seq<Conn>, conn: Conn, port: nat)
    requires First(conns, port).Some?
    ensures First(conns + [conn], port) == First(conns, port)
    ensures WithoutFirst(conns + [conn], port) == WithoutFirst(conns, port) + [conn]
  {
    assert (conns + [conn])[1..] == conns[1..] + [conn];
    if conns[0].port != port {
      FirstIsStable(conns[1..], conn, port);
    }
  }

  // Each move keeps the line.

  lemma ArriveLast(a: seq<Conn>, b: seq<Conn>, c: seq<Conn>, d: seq<Conn>, e: seq<Conn>, f: seq<Conn>, conn: Conn)
    ensures Line(a, b, c, d, e, f + [conn]) == Line(a, b, c, d, e, f) + [conn]
  {
    assert a + b + c + d + e + (f + [conn]) == a + b + c + d + e + f + [conn];
  }

  lemma SendLast(a: seq<Conn>, b: seq<Conn>, c: seq<Conn>, d: seq<Conn>, e: seq<Conn>, f: seq<Conn>)
    ensures Line(a, b, c, d, e + f, []) == Line(a, b, c, d, e, f)
  {
    assert a + b + c + d + (e + f) + [] == a + b + c + d + e + f;
  }

  lemma TakeToForwarder(a: seq<Conn>, b: seq<Conn>, c: seq<Conn>, e: seq<Conn>, f: seq<Conn>)
    requires e != []
    ensures Line(a, b, c, [] + [e[0]], e[1..], f) == Line(a, b, c, [], e, f)
  {
    assert a + b + c + ([] + [e[0]]) + e[1..] == a + b + c + [] + e;
  }

  lemma PutInProxyCh(a: seq<Conn>, b: seq<Conn>, d: seq<Conn>, e: seq<Conn>, f: seq<Conn>)
    ensures Line(a, b + d, [], [], e, f) == Line(a, b, [], d, e, f)
  {
    assert a + (b + d) + [] + [] == a + b + [] + d;
  }

  lemma HandOverHead(a: seq<Conn>, b: seq<Conn>, c: seq<Conn>, d: seq<Conn>, e: seq<Conn>, f: seq<Conn>)
    requires c != []
    ensures Line(a, b + [c[0]], c[1..], d, e, f) == Line(a, b, c, d, e, f)
  {
    assert a + (b + [c[0]]) + c[1..] == a + b + c;
  }

  lemma ReadHead(a: seq<Conn>, b: seq<Conn>, c: seq<Conn>, d: seq<Conn>, e: seq<Conn>, f: seq<Conn>)
    requires b != []
    ensures Line(a + [b[0]], b[1..], c, d, e, f) == Line(a, b, c, d, e, f)
  {
    assert (a + [b[0]]) + b[1..] == a + b;
  }

  /** The two moves of the select loop, made while nothing has been handed over yet. */
  lemma TakeInSelect(c: seq<Conn>, e: seq<Conn>, f: seq<Conn>, port: nat)
    requires e != []
    ensures var before := Line([], [], c, [], e, f);
      && Line([], [], c + [e[0]], [], e[1..], f) == before
      && (First(c, port).None? && e[0].port == port ==>
            First(before, port) == Some(e[0]) && WithoutFirst(before, port) == Line([], [], c, [], e[1..], f))
      && (First(c, port).None? && e[0].port != port ==> First(c + [e[0]], port).None?)
  {
    assert Line([], [], c + [e[0]], [], e[1..], f) == c + [e[0]] + (e[1..] + f);
    assert Line([], [], c, [], e, f) == c + [e[0]] + (e[1..] + f);
    if First(c, port).None? {
      FirstAfterOthers(c, e[0], e[1..] + f, port);
      assert Line([], [], c, [], e[1..], f) == c + (e[1..] + f);
    }
  }

  lemma ArriveKeepsFlow(agentPort: nat, q: Queues, port: nat)
    requires FlowInv(agentPort, q)
    ensures FlowInv(agentPort, q.Arrive(port))
  {
    var conn := Conn(port, |q.accepted|);
    ArriveLast(q.received, q.proxyCh, q.pending, q.fwdHand, q.acceptCh, q.accHand, conn);
    if q.agent.Some? { FirstIsStable(q.accepted, conn, agentPort); }
  }

  lemma TakingKeepsFlow(agentPort: nat, q: Queues)
    requires q.received == [] && q.proxyCh == [] && q.fwdHand == [] && q.acceptCh != [] && FlowInv(agentPort, q)
    ensures if q.acceptCh[0].port == agentPort && q.agent.None?
            then FlowInv(agentPort, q.TakeAgent()) else FlowInv(agentPort, q.TakePending())
  {
    TakeInSelect(q.pending, q.acceptCh, q.accHand, agentPort);
  }

  lemma OtherMovesKeepFlow(agentPort: nat, q: Queues)
    requires FlowInv(agentPort, q)
    ensures FlowInv(agentPort, q.Send())
    ensures q.agent.Some? && q.pending != [] ==> FlowInv(agentPort, q.HandOver())
    ensures q.fwdHand == [] && q.acceptCh != [] ==> FlowInv(agentPort, q.Take())
    ensures q.pending == [] ==> FlowInv(agentPort, q.Put())
    ensures q.proxyCh != [] ==> FlowInv(agentPort, q.Read())
  {
    SendLast(q.received, q.proxyCh, q.pending, q.fwdHand, q.acceptCh, q.accHand);
    if q.acceptCh != [] { TakeToForwarder(q.received, q.proxyCh, q.pending, q.acceptCh, q.accHand); }
    PutInProxyCh(q.received, q.proxyCh, q.fwdHand, q.acceptCh, q.accHand);
    if q.pending != [] { HandOverHead(q.received, q.proxyCh, q.pending, q.fwdHand, q.acceptCh, q.accHand); }
    if q.proxyCh != [] { ReadHead(q.received, q.proxyCh, q.pending, q.fwdHand, q.acceptCh, q.accHand); }
  }

  lemma SelectKeepsFlow(agentPort: nat, s: State, step: SelectStep)
    requires InvStart(s) && InvQueues(s) && FlowInv(agentPort, s.q) && ApplySelect(agentPort, s, step).Some?
    ensures FlowInv(agentPort, ApplySelect(agentPort, s, step).value.q)
  {
    if step.SelConn? { TakingKeepsFlow(agentPort, s.q); }
  }

  lemma HandOverKeepsFlow(agentPort: nat, s: State, step: HandOverStep)
    requires InvStart(s) && InvQueues(s) && FlowInv(agentPort, s.q) && ApplyHandOver(s, step).Some?
    ensures FlowInv(agentPort, ApplyHandOver(s, step).value.q)
  {
    OtherMovesKeepFlow(agentPort, s.q);
  }

  lemma AcceptorKeepsFlow(agentPort: nat, s: State, step: AccStep)
    requires InvStart(s) && InvQueues(s) && FlowInv(agentPort, s.q) && ApplyAcceptor(s, step).Some?
    ensures FlowInv(agentPort, ApplyAcceptor(s, step).value.q)
  {
    OtherMovesKeepFlow(agentPort, s.q);
    if step.RecvOk? { ArriveKeepsFlow(agentPort, s.q, step.port); }
  }

  lemma ForwarderKeepsFlow(agentPort: nat, s: State, step: FwdStep)
    requires InvStart(s) && InvQueues(s) && FlowInv(agentPort, s.q) && ApplyForwarder(s, step).Some?
    ensures FlowInv(agentPort, ApplyForwarder(s, step).value.q)
  {
    OtherMovesKeepFlow(agentPort, s.q);
  }

  lemma EnvKeepsFlow(agentPort: nat, s: State, step: EnvStep)
    requires InvStart(s) && InvQueues(s) && FlowInv(agentPort, s.q) && ApplyEnv(s, step).Some?
    ensures FlowInv(agentPort, ApplyEnv(s, step).value.q)
  {
    OtherMovesKeepFlow(agentPort, s.q);
  }

  lemma StepKeepsFlow(agentPort: nat, s: State, step: Step)
    requires InvStart(s) && InvQueues(s) && FlowInv(agentPort, s.q) && Apply(agentPort, s, step).Some?
    ensures FlowInv(agentPort, Apply(agentPort, s, step).value.q)
  {
    match step
    case SelectS(x) => SelectKeepsFlow(agentPort, s, x);
    case HandOverS(x) => HandOverKeepsFlow(agentPort, s, x);
    case AccS(x) => AcceptorKeepsFlow(agentPort, s, x);
    case FwdS(x) => ForwarderKeepsFlow(agentPort, s, x);
    case EnvS(x) => EnvKeepsFlow(agentPort, s, x);
    case _ => // the other goroutines move no connection
  }

  lemma {:induction false} StepsKeepFlow(agentPort: nat, steps: seq<Step>)
    requires After(agentPort, steps).Some?
    ensures FlowInv(agentPort, After(agentPort, steps).value.q)
  {
    if steps != [] {
      var init := steps[..|steps| - 1];
      StepsKeepFlow(agentPort, init);
      RunKeepsInv(agentPort, Init, init);
      StepKeepsFlow(agentPort, After(agentPort, init).value, steps[|steps| - 1]);
    }
  }

  /**
    Conservation and order, on every interleaving. Once `Run` has returned a context, the RPC
    connection is the first accepted one on the agent's port, and what the caller has read
    followed by what is in transit is the accepted sequence without it; a caller that drains
    `ProxyConnCh` until it is closed has read the whole of it.
  */
  lemma EveryConnectionArrivesInOrder(agentPort: nat, steps: seq<Step>)
    requires After(agentPort, steps).Some? && After(agentPort, steps).value.main == RUNNING
    ensures var s, q := After(agentPort, steps).value, After(agentPort, steps).value.q;
      && q.agent.Some? && q.agent == First(q.accepted, agentPort)
      && q.received + q.proxyCh + q.fwdHand + q.acceptCh + q.accHand == WithoutFirst(q.accepted, agentPort)
      && (s.c.proxyClosed && q.proxyCh == [] ==> q.received == WithoutFirst(q.accepted, agentPort))
  {
    StepsKeepFlow(agentPort, steps);
    RunKeepsInv(agentPort, Init, steps);
    var q := After(agentPort, steps).value.q;
    NothingPending(q.received, q.proxyCh, q.fwdHand, q.acceptCh, q.accHand);
  }

  lemma NothingPending(a: seq<Conn>, b: seq<Conn>, d: seq<Conn>, e: seq<Conn>, f: seq<Conn>)
    ensures Line(a, b, [], d, e, f) == a + b + d + e + f
    ensures b == d == e == f == [] ==> Line(a, b, [], d, e, f) == a
  {
    assert a + b + [] == a + b;
  }

  // The closed-channel return races with the error that caused it.

  /** The acceptor has queued an error and is on its way out while `Run` is still selecting. */
  predicate Racing(s: State) {
    && s.main == SELECT && s.c.readyErr.Full() && Finishing(s.acc)
    && (s.acc.AccEnd? ==> s.c.acceptClosed)
    && (s.q.agent.None? ==> !s.c.ready.Full())
  }

  function RaceRank(acc: AccPc): nat {
    if acc.ClosingDone? then 2 else if acc.ClosingCh? then 1 else 0
  }

  /** What the acceptor and `Run` do next in the race. */
  function RaceNext(agentPort: nat, s: State): State {
    if s.acc.ClosingDone? then s.(acc := ClosingCh, c := s.c.(acceptDone := true))
    else if s.acc.ClosingCh? then s.(acc := AccEnd, c := s.c.(acceptClosed := true))
    else if s.q.acceptCh == [] then s.(main := UNWIND, why := ChannelClosed)
    else if s.q.acceptCh[0].port == agentPort && s.q.agent.None? then
      s.(main := SELECT, q := s.q.TakeAgent(), c := s.c.(ready := s.c.ready.Send()))
    else s.(q := s.q.TakePending())
  }

  lemma RaceStep(agentPort: nat, s: State) returns (steps: seq<Step>)
    requires Racing(s)
    ensures From(agentPort, s, steps) == Some(RaceNext(agentPort, s))
    ensures forall step :: step in steps ==> !Outside(step)
  {
    var t := RaceNext(agentPort, s);
    if s.acc.ClosingDone? {
      steps := Single(agentPort, s, AccS(CloseDone), t);
    } else if s.acc.ClosingCh? {
      steps := Single(agentPort, s, AccS(CloseAcceptCh), t);
    } else if s.q.acceptCh == [] {
      steps := Single(agentPort, s, SelectS(SelClosed), t);
    } else if s.q.acceptCh[0].port == agentPort && s.q.agent.None? {
      var mid := s.(main := NOTE_READY, q := s.q.TakeAgent());
      steps := Single(agentPort, s, SelectS(SelConn), mid);
      Extend(agentPort, s, steps, SelectS(DoNoteReady));
      steps := steps + [SelectS(DoNoteReady)];
    } else {
      steps := Single(agentPort, s, SelectS(SelConn), t);
    }
  }

  lemma Single(agentPort: nat, s: State, step: Step, t: State) returns (steps: seq<Step>)
    requires Apply(agentPort, s, step) == Some(t)
    ensures From(agentPort, s, steps) == Some(t) && forall x :: x in steps ==> x == step
  {
    Extend(agentPort, s, [], step);
    steps := [] + [step];
  }

  lemma RaceNextProgress(agentPort: nat, s: State)
    requires Racing(s)
    ensures var t := RaceNext(agentPort, s);
      if t.main == UNWIND then t.why == ChannelClosed
      else Racing(t) && |t.q.acceptCh| <= |s.q.acceptCh|
           && (|t.q.acceptCh| < |s.q.acceptCh| || RaceRank(t.acc) < RaceRank(s.acc))
  {
    if s.acc.AccEnd? && s.q.acceptCh != [] { assert |s.q.acceptCh[1..]| < |s.q.acceptCh|; }
  }

  /** From there the closed-channel return can be reached without anything happening outside. */
  lemma {:induction false} QueuedErrorCanBeMissed(agentPort: nat, s: State) returns (steps: seq<Step>)
    requires Racing(s)
    ensures From(agentPort, s, steps).Some?
    ensures From(agentPort, s, steps).value.main == UNWIND && From(agentPort, s, steps).value.why == ChannelClosed
    ensures forall step :: step in steps ==> !Outside(step)
    decreases |s.q.acceptCh|, RaceRank(s.acc)
  {
    steps := RaceStep(agentPort, s);
    var t := RaceNext(agentPort, s);
    RaceNextProgress(agentPort, s);
    if t.main != UNWIND {
      var more := QueuedErrorCanBeMissed(agentPort, t);
      Concat(agentPort, s, steps, more);
      steps := steps + more;
    }
  }

  /**
    The closed-channel return, exactly: from a state of the select loop it can be reached by the
    goroutines alone if the acceptor has queued an error, and no run takes it otherwise.
  */
  lemma ClosedChannelReturn(agentPort: nat, s: State, steps: seq<Step>)
    requires Inv(s) && s.main == SELECT
    ensures s.c.readyErr.Full() ==>
      exists more ::
        && From(agentPort, s, more).Some? && From(agentPort, s, more).value.why == ChannelClosed
        && forall step :: step in more ==> !Outside(step)
    ensures From(agentPort, s, steps).Some? && From(agentPort, s, steps).value.why == ChannelClosed ==>
      From(agentPort, s, steps).value.c.readyErr.Full()
  {
    if s.c.readyErr.Full() {
      var more := QueuedErrorCanBeMissed(agentPort, s);
    }
    if From(agentPort, s, steps).Some? {
      RunKeepsInv(agentPort, s, steps);
    }
  }

  lemma Then(agentPort: nat, steps: seq<Step>, s: State, step: Step, t: State)
    requires After(agentPort, steps) == Some(s) && Apply(agentPort, s, step) == Some(t)
    ensures After(agentPort, steps + [step]) == Some(t)
  {
    Extend(agentPort, Init, steps, step);
  }

  /** `Run` up to a started manager and acceptor, with every call succeeding. */
  lemma Boot(agentPort: nat) returns (steps: seq<Step>, s: State)
    ensures After(agentPort, steps) == Some(s)
    ensures s == Init.(main := SELECT, acc := Accepting, proc := Alive, listening := true, socketFile := true,
                       r := Init.r.(lockAcquired := true))
  {
    var s1 := Init.(main := COMMAND, r := Init.r.(lockAcquired := true));
    Then(agentPort, [], Init, SetupS(DoAcquire(true)), s1);
    steps := [] + [SetupS(DoAcquire(true))];
    var s2 := s1.(main := MAKE_DIR);
    Then(agentPort, steps, s1, SetupS(DoCommand(true)), s2);
    steps := steps + [SetupS(DoCommand(true))];
    var s3 := s2.(main := CLEAR_SOCKET);
    Then(agentPort, steps, s2, SetupS(DoMakeDir(true)), s3);
    steps := steps + [SetupS(DoMakeDir(true))];
    var s4 := s3.(main := LISTEN);
    Then(agentPort, steps, s3, SetupS(DoClearSocket), s4);
    steps := steps + [SetupS(DoClearSocket)];
    var s5 := s4.(main := START, listening := true, socketFile := true);
    Then(agentPort, steps, s4, SetupS(DoListen(true)), s5);
    steps := steps + [SetupS(DoListen(true))];
    s := s5.(main := SELECT, acc := Accepting, proc := Alive);
    Then(agentPort, steps, s5, SetupS(DoStart(true)), s);
    steps := steps + [SetupS(DoStart(true))];
  }

  /** A run whose error return gives the lock back while the manager runs and the socket is open. */
  lemma ClosedChannelLeavesManagerRunning(agentPort: nat) returns (steps: seq<Step>)
    ensures After(agentPort, steps).Some?
    ensures var s := After(agentPort, steps).value;
      s.main == FAILED && s.why == ChannelClosed && s.r.byRun == 1 && s.proc.Alive? && s.listening && s.socketFile
  {
    var s0;
    steps, s0 := Boot(agentPort);
    var s1 := s0.(acc := Reporting);
    Then(agentPort, steps, s0, AccS(AcceptError), s1);
    steps := steps + [AccS(AcceptError)];
    var s2 := s1.(acc := ClosingDone, c := s1.c.(readyErr := Cell(1, 0)));
    Then(agentPort, steps, s1, AccS(Report), s2);
    steps := steps + [AccS(Report)];
    var s3 := s2.(acc := ClosingCh, c := s2.c.(acceptDone := true));
    Then(agentPort, steps, s2, AccS(CloseDone), s3);
    steps := steps + [AccS(CloseDone)];
    var s4 := s3.(acc := AccEnd, c := s3.c.(acceptClosed := true));
    Then(agentPort, steps, s3, AccS(CloseAcceptCh), s4);
    steps := steps + [AccS(CloseAcceptCh)];
    var s5 := s4.(main := UNWIND, why := ChannelClosed);
    Then(agentPort, steps, s4, SelectS(SelClosed), s5);
    steps := steps + [SelectS(SelClosed)];
    Then(agentPort, steps, s5, UnwindS(DoUnwind), s5.(main := FAILED, r := s5.r.(byRun := 1)));
    steps := steps + [UnwindS(DoUnwind)];
  }
}
