/**
  The launch and shutdown protocol of `VMRunner.Run` and `VMContext.Close`
  (vm/runner.go:295-519) as a step system.

  One step is one channel operation, one select arm, one process or listener event, or one
  lock call. Five goroutines share the state: `Run` itself, the acceptor, the goroutine that
  waits for the manager process, the forwarder and the exit watcher. A step that is not enabled
  is a goroutine that blocks.
*/
module Launch {
  import opened Prelude

  const ACCEPT_CAP: nat := 32
  const PROXY_CAP: nat := 64

  /** A connection handed over by the manager; `file` tells two connections on one port apart. */
  datatype Conn = Conn(port: nat, file: nat)

  /** A channel of capacity one: what was ever sent and what was ever taken from it. */
  datatype Cell = Cell(sent: nat, taken: nat) {
    predicate Full() { sent > taken }
    function Send(): Cell { this.(sent := sent + 1) }
    function Take(): Cell { this.(taken := taken + 1) }
  }

  /** Why `Run` returns an error; `NoFailure` until it has decided to. */
  datatype Failure =
    | NoFailure | LockRefused | BadCommand | NoSocketDir | NoListener | NoStart
    | ChannelClosed | AcceptFailed | ManagerExited | Cancelled | InvalidAgent

  /** Where `Run` stands: what it does next, numbered in code order (tear-down paths last). */
  type MainPc = nat
  const ACQUIRE: MainPc := 0        // lock.Acquire
  const COMMAND: MainPc := 1        // r.Command
  const MAKE_DIR: MainPc := 2       // os.MkdirAll
  const CLEAR_SOCKET: MainPc := 3   // os.Remove
  const LISTEN: MainPc := 4         // net.Listen
  const START: MainPc := 5          // cmd.Start
  const SELECT: MainPc := 6         // the select loop
  const NOTE_READY: MainPc := 7     // readyCh <- latency
  const BOOTSTRAP: MainPc := 8      // rpcConn.Bootstrap
  const CLOSE_RPC: MainPc := 9      // rpcConn.Close, agent invalid
  const CLOSE_AGENT: MainPc := 10   // agentRWC.Close, agent invalid
  const HAND_OVER: MainPc := 11     // vmCtx.proxyCh <- pending
  const SPAWN_WATCHER: MainPc := 12 // go watcher
  const DISARM: MainPc := 13        // lockHeld = false
  const RUNNING: MainPc := 14       // returned the context
  const KILL: MainPc := 15          // cmd.Process.Kill
  const REAP: MainPc := 16          // <-procWaitCh
  const CLOSE_LISTENER: MainPc := 17// readyListener.Close
  const AWAIT_ACCEPTOR: MainPc := 18// <-acceptDone
  const REMOVE_SOCKET: MainPc := 19 // os.Remove
  const UNWIND: MainPc := 20        // the deferred lock.Release
  const FAILED: MainPc := 21        // returned an error

  datatype AccPc = AccIdle | Accepting | Receiving | Holding | Reporting | ClosingDone | ClosingCh | AccEnd

  datatype Proc = Absent | Alive | Dead | Waited | Reported

  datatype FwdPc = FwdIdle | FwdRecv | FwdHold | FwdEnd

  /** The exit watcher: the call it makes next. */
  type WatchPc = nat
  const WATCH_IDLE: WatchPc := 0
  const WATCH_PROC: WatchPc := 1
  const WATCH_LISTENER: WatchPc := 2
  const WATCH_ACCEPTOR: WatchPc := 3
  const WATCH_SOCKET: WatchPc := 4
  const WATCH_CLOSE: WatchPc := 5
  const WATCH_SEND: WatchPc := 6
  const WATCH_CLOSE_CH: WatchPc := 7
  const WATCH_END: WatchPc := 8

  /** `sync.Once` around `VMContext.Close`: the four calls of its body in order. */
  type OncePc = nat
  const ONCE_IDLE: OncePc := 0
  const RELEASE_AGENT: OncePc := 1
  const CLOSE_CONN: OncePc := 2
  const CLOSE_FILE: OncePc := 3
  const RELEASE_LOCK: OncePc := 4
  const ONCE_DONE: OncePc := 5

  /**
    Where the accepted connections are, from the acceptor's hand to the caller. A hand holds at
    most one connection. Each function below is one move; `accepted` and `received` are history.
  */
  datatype Queues = Queues(
    accepted: seq<Conn>, accHand: seq<Conn>, acceptCh: seq<Conn>,
    agent: Option<Conn>, pending: seq<Conn>,
    fwdHand: seq<Conn>, proxyCh: seq<Conn>, received: seq<Conn>)
  {
    function Arrive(port: nat): Queues {
      var conn := Conn(port, |accepted|);
      this.(accepted := accepted + [conn], accHand := accHand + [conn])
    }
    function Send(): Queues { this.(acceptCh := acceptCh + accHand, accHand := []) }
    function TakeAgent(): Queues
      requires acceptCh != []
    { this.(agent := Some(acceptCh[0]), acceptCh := acceptCh[1..]) }
    function TakePending(): Queues
      requires acceptCh != []
    { this.(pending := pending + [acceptCh[0]], acceptCh := acceptCh[1..]) }
    function HandOver(): Queues
      requires pending != []
    { this.(proxyCh := proxyCh + [pending[0]], pending := pending[1..]) }
    function Take(): Queues
      requires acceptCh != []
    { this.(fwdHand := fwdHand + [acceptCh[0]], acceptCh := acceptCh[1..]) }
    function Put(): Queues { this.(proxyCh := proxyCh + fwdHand, fwdHand := []) }
    function Read(): Queues
      requires proxyCh != []
    { this.(received := received + [proxyCh[0]], proxyCh := proxyCh[1..]) }
  }

  /** The other channels. */
  datatype Signals = Signals(
    ready: Cell, readyErr: Cell, procWait: Cell, wait: Cell,
    acceptDone: bool, acceptClosed: bool, proxyClosed: bool, waitClosed: bool)

  /** The lock file and the agent resources: how often each was released, and by whom. */
  datatype Releases = Releases(lockAcquired: bool, byRun: nat, byClose: nat, rpc: nat, file: nat)

  datatype State = State(
    main: MainPc, why: Failure, acc: AccPc, proc: Proc, fwd: FwdPc, watch: WatchPc, once: OncePc,
    cancelled: bool,
    listening: bool, socketFile: bool,   // the readiness socket
    handed: nat,                         // how many connections were pending at readiness
    q: Queues, c: Signals, r: Releases)

  const Init: State := State(
    ACQUIRE, NoFailure, AccIdle, Absent, FwdIdle, WATCH_IDLE, ONCE_IDLE,
    false,
    false, false,
    0,
    Queues([], [], [], None, [], [], [], []),
    Signals(Cell(0, 0), Cell(0, 0), Cell(0, 0), Cell(0, 0), false, false, false, false),
    Releases(false, 0, 0, 0, 0))

  /** Before the manager is started: vm/runner.go:324-359. */
  datatype SetupStep =
    | DoAcquire(ok: bool) | DoCommand(ok: bool) | DoMakeDir(ok: bool) | DoClearSocket
    | DoListen(ok: bool) | DoStart(ok: bool)

  /** The readiness select loop: vm/runner.go:423-458. */
  datatype SelectStep = SelConn | SelClosed | SelReady | SelErr | SelExit | SelCancel | DoNoteReady

  /** The error returns: vm/runner.go:438-456, 463-470 and the deferred release at 329-333. */
  datatype UnwindStep =
    | DoCloseRpc | DoCloseAgent | DoKill | DoReap | DoCloseListener | DoAwaitAcceptor | DoRemoveSocket | DoUnwind

  /** From readiness to the successful return: vm/runner.go:460-462, 492-518. */
  datatype HandOverStep = DoBootstrap(ok: bool) | DoHandOver | DoSpawnForwarder | DoSpawnWatcher | DoDisarm

  datatype AccStep =
    | AcceptConn | AcceptClosed | AcceptError | RecvOk(port: nat) | RecvError
    | Report | SendConn | CloseDone | CloseAcceptCh

  datatype FwdStep = TakeConn | PutConn | FinishForwarding

  datatype WatchStep =
    | TakeExit | CloseReadyListener | SeeAcceptorDone | RemoveReadySocket
    | SeeClosed | SendWait | CloseWait

  datatype OnceStep = BeginByWatcher | BeginByCaller | DoReleaseAgent | DoCloseConn | DoCloseFile | DoReleaseLock

  datatype WaiterStep = WaitReturns | SendExit

  /** What the world outside the five goroutines does. */
  datatype EnvStep = ProcessExits | Cancel | CallerTakesConn | CallerTakesWait

  datatype Step =
    | SetupS(setup: SetupStep) | SelectS(select: SelectStep) | UnwindS(unwind: UnwindStep) | HandOverS(handOver: HandOverStep)
    | AccS(acc: AccStep) | WaiterS(waiter: WaiterStep) | FwdS(fwd: FwdStep)
    | WatchS(watch: WatchStep) | OnceS(once: OnceStep) | EnvS(env: EnvStep)

  /** A step that only the outside world can cause: a new connection, or one of `EnvStep`. */
  predicate Outside(step: Step) { step.EnvS? || step == AccS(AcceptConn) }

  /** A step guarded by the program counter it starts from. */
  function At(here: bool, next: State): Option<State> {
    if here then Some(next) else None
  }

  function ApplySetup(s: State, step: SetupStep): (next: Option<State>)
    ensures next.Some? ==> next.value.q == s.q
  {
    match step
    case DoAcquire(ok) =>
      At(s.main == ACQUIRE,
         if ok then s.(main := COMMAND, r := s.r.(lockAcquired := true)) else s.(main := FAILED, why := LockRefused))
    case DoCommand(ok) =>
      At(s.main == COMMAND, if ok then s.(main := MAKE_DIR) else s.(main := UNWIND, why := BadCommand))
    case DoMakeDir(ok) =>
      At(s.main == MAKE_DIR, if ok then s.(main := CLEAR_SOCKET) else s.(main := UNWIND, why := NoSocketDir))
    case DoClearSocket => At(s.main == CLEAR_SOCKET, s.(main := LISTEN, socketFile := false))
    case DoListen(ok) =>
      At(s.main == LISTEN,
         if ok then s.(main := START, listening := true, socketFile := true) else s.(main := UNWIND, why := NoListener))
    case DoStart(ok) =>
      At(s.main == START,
         if ok then s.(main := SELECT, acc := Accepting, proc := Alive)
         else s.(main := UNWIND, why := NoStart, listening := false, socketFile := false))
  }

  /** A select arm is enabled when its channel is ready; Go picks among the enabled arms freely. */
  function ApplySelect(agentPort: nat, s: State, step: SelectStep): Option<State> {
    match step
    case SelConn =>
      if s.main != SELECT || s.q.acceptCh == [] then None
      else if s.q.acceptCh[0].port == agentPort && s.q.agent.None? then
        Some(s.(main := NOTE_READY, q := s.q.TakeAgent()))
      else
        Some(s.(q := s.q.TakePending()))
    case SelClosed =>
      At(s.main == SELECT && s.q.acceptCh == [] && s.c.acceptClosed, s.(main := UNWIND, why := ChannelClosed))
    case SelReady =>
      At(s.main == SELECT && s.c.ready.Full(),
         s.(main := if s.q.agent.Some? then BOOTSTRAP else SELECT, c := s.c.(ready := s.c.ready.Take())))
    case SelErr =>
      At(s.main == SELECT && s.c.readyErr.Full(),
         s.(main := KILL, why := AcceptFailed, c := s.c.(readyErr := s.c.readyErr.Take())))
    case SelExit =>
      At(s.main == SELECT && s.c.procWait.Full(),
         s.(main := CLOSE_LISTENER, why := ManagerExited, c := s.c.(procWait := s.c.procWait.Take())))
    case SelCancel => At(s.main == SELECT && s.cancelled, s.(main := KILL, why := Cancelled))
    case DoNoteReady =>
      At(s.main == NOTE_READY && !s.c.ready.Full(), s.(main := SELECT, c := s.c.(ready := s.c.ready.Send())))
  }

  /** Closing a unix listener also unlinks its socket file. */
  function ApplyUnwind(s: State, step: UnwindStep): (next: Option<State>)
    ensures next.Some? ==> next.value.q == s.q
  {
    match step
    case DoCloseRpc => At(s.main == CLOSE_RPC, s.(main := CLOSE_AGENT, r := s.r.(rpc := s.r.rpc + 1)))
    case DoCloseAgent => At(s.main == CLOSE_AGENT, s.(main := KILL, why := InvalidAgent, r := s.r.(file := s.r.file + 1)))
    case DoKill => At(s.main == KILL, s.(main := REAP, proc := if s.proc.Alive? then Dead else s.proc))
    case DoReap =>
      At(s.main == REAP && s.c.procWait.Full(), s.(main := CLOSE_LISTENER, c := s.c.(procWait := s.c.procWait.Take())))
    case DoCloseListener =>
      At(s.main == CLOSE_LISTENER, s.(main := AWAIT_ACCEPTOR, listening := false, socketFile := false))
    case DoAwaitAcceptor => At(s.main == AWAIT_ACCEPTOR && s.c.acceptDone, s.(main := REMOVE_SOCKET))
    case DoRemoveSocket => At(s.main == REMOVE_SOCKET, s.(main := UNWIND, socketFile := false))
    case DoUnwind => At(s.main == UNWIND, s.(main := FAILED, r := s.r.(byRun := s.r.byRun + 1)))
  }

  function ApplyHandOver(s: State, step: HandOverStep): Option<State> {
    match step
    case DoBootstrap(ok) =>
      At(s.main == BOOTSTRAP, if ok then s.(main := HAND_OVER, handed := |s.q.pending|) else s.(main := CLOSE_RPC))
    case DoHandOver =>
      if s.main == HAND_OVER && s.q.pending != [] && |s.q.proxyCh| < PROXY_CAP then
        Some(s.(q := s.q.HandOver()))
      else None
    case DoSpawnForwarder => At(s.main == HAND_OVER && s.q.pending == [], s.(main := SPAWN_WATCHER, fwd := FwdRecv))
    case DoSpawnWatcher => At(s.main == SPAWN_WATCHER, s.(main := DISARM, watch := WATCH_PROC))
    case DoDisarm => At(s.main == DISARM, s.(main := RUNNING))
  }

  /** One step of the acceptor (vm/runner.go:365-414): `acceptDone` closes before `acceptCh`. */
  function ApplyAcceptor(s: State, step: AccStep): Option<State> {
    match step
    case AcceptConn => At(s.acc.Accepting? && s.listening, s.(acc := Receiving))
    case AcceptClosed => At(s.acc.Accepting? && !s.listening, s.(acc := ClosingDone))
    case AcceptError => At(s.acc.Accepting? && s.listening, s.(acc := Reporting))
    case RecvOk(port) => At(s.acc.Receiving?, s.(acc := Holding, q := s.q.Arrive(port)))
    case RecvError => At(s.acc.Receiving?, s.(acc := Reporting))
    case Report =>
      At(s.acc.Reporting?,
         s.(acc := ClosingDone, c := s.c.(readyErr := if s.c.readyErr.Full() then s.c.readyErr else s.c.readyErr.Send())))
    case SendConn =>
      At(s.acc.Holding? && |s.q.acceptCh| < ACCEPT_CAP, s.(acc := Accepting, q := s.q.Send()))
    case CloseDone => At(s.acc.ClosingDone?, s.(acc := ClosingCh, c := s.c.(acceptDone := true)))
    case CloseAcceptCh => At(s.acc.ClosingCh?, s.(acc := AccEnd, c := s.c.(acceptClosed := true)))
  }

  /** The goroutine `procWaitCh <- cmd.Wait()` (vm/runner.go:416-417). */
  function ApplyWaiter(s: State, step: WaiterStep): (next: Option<State>)
    ensures next.Some? ==> next.value.q == s.q
  {
    match step
    case WaitReturns => At(s.proc.Dead?, s.(proc := Waited))
    case SendExit =>
      At(s.proc.Waited? && !s.c.procWait.Full(), s.(proc := Reported, c := s.c.(procWait := s.c.procWait.Send())))
  }

  /** The forwarder (vm/runner.go:495-500). */
  function ApplyForwarder(s: State, step: FwdStep): Option<State> {
    match step
    case TakeConn =>
      if s.fwd.FwdRecv? && s.q.acceptCh != [] then Some(s.(fwd := FwdHold, q := s.q.Take())) else None
    case PutConn => At(s.fwd.FwdHold? && |s.q.proxyCh| < PROXY_CAP, s.(fwd := FwdRecv, q := s.q.Put()))
    case FinishForwarding =>
      At(s.fwd.FwdRecv? && s.q.acceptCh == [] && s.c.acceptClosed, s.(fwd := FwdEnd, c := s.c.(proxyClosed := true)))
  }

  /** The exit watcher (vm/runner.go:502-515). */
  function ApplyWatcher(s: State, step: WatchStep): (next: Option<State>)
    ensures next.Some? ==> next.value.q == s.q
  {
    match step
    case TakeExit =>
      At(s.watch == WATCH_PROC && s.c.procWait.Full(),
         s.(watch := WATCH_LISTENER, c := s.c.(procWait := s.c.procWait.Take())))
    case CloseReadyListener =>
      At(s.watch == WATCH_LISTENER, s.(watch := WATCH_ACCEPTOR, listening := false, socketFile := false))
    case SeeAcceptorDone => At(s.watch == WATCH_ACCEPTOR && s.c.acceptDone, s.(watch := WATCH_SOCKET))
    case RemoveReadySocket => At(s.watch == WATCH_SOCKET, s.(watch := WATCH_CLOSE, socketFile := false))
    case SeeClosed => At(s.watch == WATCH_CLOSE && s.once == ONCE_DONE, s.(watch := WATCH_SEND))
    case SendWait =>
      At(s.watch == WATCH_SEND && !s.c.wait.Full(), s.(watch := WATCH_CLOSE_CH, c := s.c.(wait := s.c.wait.Send())))
    case CloseWait => At(s.watch == WATCH_CLOSE_CH, s.(watch := WATCH_END, c := s.c.(waitClosed := true)))
  }

  /**
    `VMContext.Close` (vm/runner.go:295-308). Any number of calls may be under way: the first one
    to reach the `sync.Once` runs the body, the others wait for `OnceDone` and change nothing.
  */
  function ApplyOnce(s: State, step: OnceStep): (next: Option<State>)
    ensures next.Some? ==> next.value.q == s.q
  {
    match step
    case BeginByWatcher => At(s.once == ONCE_IDLE && s.watch == WATCH_CLOSE, s.(once := RELEASE_AGENT))
    case BeginByCaller => At(s.once == ONCE_IDLE && s.main == RUNNING, s.(once := RELEASE_AGENT))
    case DoReleaseAgent => At(s.once == RELEASE_AGENT, s.(once := CLOSE_CONN))
    case DoCloseConn => At(s.once == CLOSE_CONN, s.(once := CLOSE_FILE, r := s.r.(rpc := s.r.rpc + 1)))
    case DoCloseFile => At(s.once == CLOSE_FILE, s.(once := RELEASE_LOCK, r := s.r.(file := s.r.file + 1)))
    case DoReleaseLock => At(s.once == RELEASE_LOCK, s.(once := ONCE_DONE, r := s.r.(byClose := s.r.byClose + 1)))
  }

  /** The caller can read the context's channels only once `Run` has returned it. */
  function ApplyEnv(s: State, step: EnvStep): Option<State> {
    match step
    case ProcessExits => At(s.proc.Alive?, s.(proc := Dead))
    case Cancel => At(!s.cancelled, s.(cancelled := true))
    case CallerTakesConn =>
      if s.main == RUNNING && s.q.proxyCh != [] then Some(s.(q := s.q.Read())) else None
    case CallerTakesWait => At(s.main == RUNNING && s.c.wait.Full(), s.(c := s.c.(wait := s.c.wait.Take())))
  }

  /** One step of the whole system; None when that goroutine blocks there. */
  function Apply(agentPort: nat, s: State, step: Step): Option<State> {
    match step
    case SetupS(x) => ApplySetup(s, x)
    case SelectS(x) => ApplySelect(agentPort, s, x)
    case UnwindS(x) => ApplyUnwind(s, x)
    case HandOverS(x) => ApplyHandOver(s, x)
    case AccS(x) => ApplyAcceptor(s, x)
    case WaiterS(x) => ApplyWaiter(s, x)
    case FwdS(x) => ApplyForwarder(s, x)
    case WatchS(x) => ApplyWatcher(s, x)
    case OnceS(x) => ApplyOnce(s, x)
    case EnvS(x) => ApplyEnv(s, x)
  }

  /** The state a run of steps leads to from `s`, None when one of them was not enabled. */
  function From(agentPort: nat, s: State, steps: seq<Step>): Option<State> {
    if steps == [] then Some(s)
    else
      match From(agentPort, s, steps[..|steps| - 1])
      case None => None
      case Some(t) => Apply(agentPort, t, steps[|steps| - 1])
  }

  function After(agentPort: nat, steps: seq<Step>): Option<State> {
    From(agentPort, Init, steps)
  }

  lemma Extend(agentPort: nat, s: State, steps: seq<Step>, step: Step)
    requires From(agentPort, s, steps).Some?
    ensures From(agentPort, s, steps + [step]) == Apply(agentPort, From(agentPort, s, steps).value, step)
  {
    assert (steps + [step])[..|steps|] == steps;
  }

  lemma {:induction false} Concat(agentPort: nat, s: State, first: seq<Step>, second: seq<Step>)
    requires From(agentPort, s, first).Some?
    ensures From(agentPort, s, first + second) == From(agentPort, From(agentPort, s, first).value, second)
  {
    if second == [] {
      assert first + second == first;
    } else {
      var init := second[..|second| - 1];
      Concat(agentPort, s, first, init);
      assert (first + second)[..|first + second| - 1] == first + init;
    }
  }
}
