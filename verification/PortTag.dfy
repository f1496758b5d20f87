/**
  The port that travels with each accepted connection: the manager's listen list
  (manager/Sources/vmmanager/main.swift:114-126), the payload it sends beside the descriptor
  (main.swift:240-258) and the runner's reading of it (vm/runner.go:422-434, 521-546).
*/
module PortTag {
  import opened Prelude
  import opened Text
  import opened VmConfig
  import opened RoundTrip
  import M = Manager

  /** `destinationPort.littleEndian`, as it lies in memory. */
  function Encode(port: bv32): seq<bv8> {
    [(port & 0xFF) as bv8, ((port >> 8) & 0xFF) as bv8, ((port >> 16) & 0xFF) as bv8, ((port >> 24) & 0xFF) as bv8]
  }

  function Decode(data: seq<bv8>): bv32
    requires |data| == 4
  {
    (data[0] as bv32) | ((data[1] as bv32) << 8) | ((data[2] as bv32) << 16) | ((data[3] as bv32) << 24)
  }

  /** The encoding is a bijection between 32-bit values and four bytes. */
  lemma DecodeEncode(port: bv32)
    ensures Decode(Encode(port)) == port
  {}

  lemma EncodeDecode(data: seq<bv8>)
    requires |data| == 4
    ensures Encode(Decode(data)) == data
  {}

  // The runner's side.

  /** A parsed control message: descriptors, or not a rights message. */
  datatype Control = Rights(fds: seq<int>) | NotRights

  /** What `ReadMsgUnix` delivers: an error, or bytes with the control messages if they parse. */
  datatype Read = ReadFailed | ReadBytes(data: seq<bv8>, control: Option<seq<Control>>)

  datatype RecvError = ReadError | TooShort(n: nat) | BadControl | NoDescriptor

  predicate Carries(m: Control) { m.Rights? && m.fds != [] }

  /** `recvFD`: the port of the first four bytes and the first descriptor of the first message with one. */
  method RecvFD(read: Read) returns (r: Result<(int, bv32), RecvError>)
    ensures r == Received(read)
  {
    if read.ReadFailed? { return Err(ReadError); }
    if |read.data| < 4 { return Err(TooShort(|read.data|)); }
    var port := Decode(read.data[..4]);
    if read.control.None? { return Err(BadControl); }
    var msgs := read.control.value;
    for i := 0 to |msgs|
      invariant FirstDescriptor(msgs) == FirstDescriptor(msgs[i..])
    {
      if Carries(msgs[i]) { return Ok((msgs[i].fds[0], port)); }
    }
    return Err(NoDescriptor);
  }

  function FirstDescriptor(msgs: seq<Control>): Option<int> {
    if msgs == [] then None
    else if Carries(msgs[0]) then Some(msgs[0].fds[0])
    else FirstDescriptor(msgs[1..])
  }

  function Received(read: Read): Result<(int, bv32), RecvError> {
    if read.ReadFailed? then Err(ReadError)
    else if |read.data| < 4 then Err(TooShort(|read.data|))
    else
      match read.control
      case None => Err(BadControl)
      case Some(msgs) =>
        match FirstDescriptor(msgs)
        case None => Err(NoDescriptor)
        case Some(fd) => Ok((fd, Decode(read.data[..4])))
  }

  /** A descriptor comes back if and only if some message carries one, and it is the earliest. */
  lemma {:induction false} FirstDescriptorIsEarliest(msgs: seq<Control>)
    ensures FirstDescriptor(msgs).Some? <==> exists i :: 0 <= i < |msgs| && Carries(msgs[i])
    ensures forall i :: 0 <= i < |msgs| && Carries(msgs[i]) && (forall j :: 0 <= j < i ==> !Carries(msgs[j])) ==>
      FirstDescriptor(msgs) == Some(msgs[i].fds[0])
  {
    if msgs != [] && !Carries(msgs[0]) {
      FirstDescriptorIsEarliest(msgs[1..]);
      forall i | 0 <= i < |msgs| && Carries(msgs[i]) && (forall j :: 0 <= j < i ==> !Carries(msgs[j]))
        ensures FirstDescriptor(msgs) == Some(msgs[i].fds[0])
      {
        assert msgs[1..][i - 1] == msgs[i];
        assert forall j :: 0 <= j < i - 1 ==> msgs[1..][j] == msgs[j + 1];
      }
    }
  }

  /** The answer of `recvFD`, exactly: what fails first, or the descriptor with the port. */
  lemma ReceivedExactly(read: Read)
    ensures Received(read) == Err(ReadError) <==> read.ReadFailed?
    ensures read.ReadBytes? ==>
      if |read.data| < 4 then Received(read) == Err(TooShort(|read.data|))
      else if read.control.None? then Received(read) == Err(BadControl)
      else if forall i :: 0 <= i < |read.control.value| ==> !Carries(read.control.value[i]) then
        Received(read) == Err(NoDescriptor)
      else Received(read).Ok? && Received(read).value.1 == Decode(read.data[..4])
  {
    if read.ReadBytes? && read.control.Some? { FirstDescriptorIsEarliest(read.control.value); }
  }

  // The manager's side.

  predicate NoDup(ports: seq<int>) { forall i, j :: 0 <= i < j < |ports| ==> ports[i] != ports[j] }

  /** Swift's `UInt32(_:)` traps outside this range. */
  predicate Fits32(n: int) { 0 <= n < TWO_32 }

  /** The ports asked for: the agent's, and the positive proxy ports. */
  function Asked(c: M.Machine): set<int> {
    {c.agentVsockPort} + set p | p in c.proxyVsockPorts && p > 0
  }

  /**
    The listen list of `enableVsockAgentListener`, the agent's port first. It is duplicate-free and
    holds what was asked for, or the manager traps because one of the ports has more than 32 bits.
  */
  method ListenPorts(c: M.Machine) returns (ports: Option<seq<int>>)
    ensures ports.Some? <==> forall p :: p in Asked(c) ==> Fits32(p)
    ensures ports.Some? ==> NoDup(ports.value) && (set p | p in ports.value) == Asked(c)
    ensures ports.Some? ==> ports.value[0] == c.agentVsockPort
  {
    assert c.agentVsockPort in Asked(c);
    if !Fits32(c.agentVsockPort) { return None; }
    var list := [c.agentVsockPort];
    for i := 0 to |c.proxyVsockPorts|
      invariant |list| >= 1 && NoDup(list) && list[0] == c.agentVsockPort && (forall p :: p in list ==> Fits32(p))
      invariant forall p :: p in list <==> p == c.agentVsockPort || (p in c.proxyVsockPorts[..i] && p > 0)
    {
      var p := c.proxyVsockPorts[i];
      if p > 0 {
        if !Fits32(p) {
          assert p in Asked(c);
          return None;
        }
        if p !in list { list := list + [p]; }
      }
    }
    assert c.proxyVsockPorts[..|c.proxyVsockPorts|] == c.proxyVsockPorts;
    return Some(list);
  }

  // Both sides together.

  /** The runner's test for the agent's connection (vm/runner.go:422-429). */
  predicate IsCandidate(c: VMConfig, port: bv32) { port as int == ToUInt32(c.agentVsockPort) }

  /** What the manager sends for a connection that arrived on `port` (main.swift:240-258). */
  function Sent(port: bv32, fd: int): Read { ReadBytes(Encode(port), Some([Rights([fd])])) }

  /**
    Port tagging across the two processes, for every configuration the manager parses: either a
    port has more than 32 bits and the manager traps before it listens, or each connection that
    arrives on a listened port comes back with its own descriptor and port, and the runner takes it
    for the agent's if and only if it arrived on the configured agent port.
  */
  lemma TagsTellTheAgentApart(config: VMConfig, net: NetIP, m: M.Draft, port: bv32, fd: int)
    requires ArgsOf(config, net).Ok? && M.Parse(ArgsOf(config, net).value, M.Defaults) == M.Parsed(m)
    ensures TellsApart(config, m.machine, port, fd)
  {
    MachineKept(config, net, m);
    KeptTellsApart(config, m.machine, port, fd);
  }

  /** The list is the configuration's, the tag is exact, and the runner's test means what it should. */
  predicate TellsApart(config: VMConfig, c: M.Machine, port: bv32, fd: int) {
    && Asked(c) == {config.agentVsockPort as int} + (set p | p in config.proxyVsockPorts)
    && Received(Sent(port, fd)) == Ok((fd, port))
    && ((forall p :: p in Asked(c) ==> Fits32(p)) ==>
         (IsCandidate(config, port) <==> port as int == config.agentVsockPort))
  }

  lemma KeptTellsApart(config: VMConfig, c: M.Machine, port: bv32, fd: int)
    requires c.agentVsockPort == config.agentVsockPort && c.proxyVsockPorts == config.proxyVsockPorts
    requires forall p :: p in config.proxyVsockPorts ==> p > 0
    ensures TellsApart(config, c, port, fd)
  {
    DescriptorComesBack(port, fd);
    PortsAreAsked(config, c);
    if Fits32(config.agentVsockPort) { CandidateExactly(config, port); }
  }

  lemma CandidateExactly(config: VMConfig, port: bv32)
    requires Fits32(config.agentVsockPort)
    ensures IsCandidate(config, port) <==> port as int == config.agentVsockPort
  {
    SmallUInt32(config.agentVsockPort);
  }

  lemma DescriptorComesBack(port: bv32, fd: int)
    ensures Received(Sent(port, fd)) == Ok((fd, port))
  {
    DecodeEncode(port);
    assert Encode(port)[..4] == Encode(port);
  }

  lemma MachineKept(config: VMConfig, net: NetIP, m: M.Draft)
    requires ArgsOf(config, net).Ok? && M.Parse(ArgsOf(config, net).value, M.Defaults) == M.Parsed(m)
    ensures m.machine.agentVsockPort == config.agentVsockPort && m.machine.proxyVsockPorts == config.proxyVsockPorts
    ensures forall p :: p in config.proxyVsockPorts ==> p > 0
  {
    ArgumentsRoundTrip(config, net);
    AcceptedConfig(config, net);
  }

  lemma PortsAreAsked(config: VMConfig, c: M.Machine)
    requires c.agentVsockPort == config.agentVsockPort && c.proxyVsockPorts == config.proxyVsockPorts
    requires forall p :: p in config.proxyVsockPorts ==> p > 0
    ensures Asked(c) == {config.agentVsockPort as int} + set p | p in config.proxyVsockPorts
    ensures config.agentVsockPort in Asked(c)
  {}
}
