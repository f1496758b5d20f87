/**
  The Swift manager's side of the configuration (manager/Sources/vmmanager/main.swift): the
  argument parser, the kernel command line and the list of vsock ports it listens on.
*/
module Manager {
  import opened Prelude
  import opened Text
  import opened Flags

  datatype BootMode = Linux | Efi

  datatype NetworkMode = Nat | Bridged | HostOnly

  // The parser's variables and `ManagerConfig` (main.swift:16-39, 284-306), grouped by subject.

  datatype Boot = Boot(mode: BootMode, kernelPath: Option<string>, initrdPath: Option<string>, rootImagePath: Option<string>)

  datatype Machine = Machine(
    extraDiskPaths: seq<string>, memoryMiB: int, cpuCount: int, agentVsockPort: int, proxyVsockPorts: seq<int>,
    agentReadySocketPath: Option<string>, verbose: bool)

  datatype Network = Network(
    enabled: bool, mode: NetworkMode, bridge: Option<string>,
    cidr: Option<string>, gateway: Option<string>, ifName: Option<string>)

  datatype VirtioFS = VirtioFS(
    enabled: bool, hostDir: Option<string>, tag: Option<string>, mountPoint: Option<string>,
    device: Option<string>, overlayMount: Option<string>)

  datatype Draft = Draft(boot: Boot, machine: Machine, network: Network, virtioFS: VirtioFS)

  const Defaults: Draft := Draft(
    Boot(Linux, None, None, None),
    Machine([], 512, 2, 7000, [], None, false),
    Network(true, Nat, None, None, None, None),
    VirtioFS(false, None, None, None, None, None))

  /** A configuration, a thrown `CLIError.invalidArg`, or `usageAndExit`. */
  datatype Outcome = Parsed(config: Draft) | Thrown(about: string) | Exited(code: int)

  function Lower(c: char): char { if 'A' <= c <= 'Z' then (c as int + 32) as char else c }

  function Lowercased(s: string): string { seq(|s|, i requires 0 <= i < |s| => Lower(s[i])) }

  function ParseBool(raw: string): Option<bool> {
    var s := Lowercased(raw);
    if s == "true" || s == "1" || s == "yes" || s == "on" then Some(true)
    else if s == "false" || s == "0" || s == "no" || s == "off" then Some(false)
    else None
  }

  function ParseBootMode(raw: string): Option<BootMode> {
    if raw == "linux" then Some(Linux) else if raw == "efi" then Some(Efi) else None
  }

  function ParseNetworkMode(raw: string): Option<NetworkMode> {
    if raw == "nat" then Some(Nat) else if raw == "bridged" then Some(Bridged)
    else if raw == "hostonly" then Some(HostOnly) else None
  }

  function OrElse(n: Option<int>, default: int): int { if n.Some? then n.value else default }

  /** What one flag with its value does to the variables (main.swift:312-388). */
  function Set(d: Draft, flag: Flag, raw: string): Result<Draft, string> {
    match flag
    case BootModeFlag =>
      (match ParseBootMode(raw) case Some(m) => Ok(d.(boot := d.boot.(mode := m))) case None => Err(Name(flag)))
    case Kernel => Ok(d.(boot := d.boot.(kernelPath := Some(raw))))
    case Initrd => Ok(d.(boot := d.boot.(initrdPath := Some(raw))))
    case RootImage => Ok(d.(boot := d.boot.(rootImagePath := Some(raw))))
    case ExtraDisk => Ok(d.(machine := d.machine.(extraDiskPaths := d.machine.extraDiskPaths + [raw])))
    case MemoryMiB => Ok(d.(machine := d.machine.(memoryMiB := OrElse(ParseUInt64(raw), d.machine.memoryMiB))))
    case Cpus => Ok(d.(machine := d.machine.(cpuCount := OrElse(ParseInt64(raw), d.machine.cpuCount))))
    case AgentVsockPort => Ok(d.(machine := d.machine.(agentVsockPort := OrElse(ParseInt64(raw), d.machine.agentVsockPort))))
    case ProxyVsockPort =>
      (match ParseInt64(raw)
       case Some(p) =>
         if p > 0 then Ok(d.(machine := d.machine.(proxyVsockPorts := d.machine.proxyVsockPorts + [p]))) else Err(Name(flag))
       case None => Err(Name(flag)))
    case AgentReadySocket => Ok(d.(machine := d.machine.(agentReadySocketPath := Some(raw))))
    case EnableNetwork =>
      (match ParseBool(raw) case Some(b) => Ok(d.(network := d.network.(enabled := b))) case None => Err(Name(flag)))
    case NetworkModeFlag =>
      (match ParseNetworkMode(raw) case Some(m) => Ok(d.(network := d.network.(mode := m))) case None => Err(Name(flag)))
    case BridgeInterface => Ok(d.(network := d.network.(bridge := Some(raw))))
    case VmNetworkCIDR => Ok(d.(network := d.network.(cidr := Some(raw))))
    case VmNetworkGateway => Ok(d.(network := d.network.(gateway := Some(raw))))
    case VmNetworkIfName => Ok(d.(network := d.network.(ifName := Some(raw))))
    case EnableVirtioFS =>
      (match ParseBool(raw) case Some(b) => Ok(d.(virtioFS := d.virtioFS.(enabled := b))) case None => Err(Name(flag)))
    case VirtioFSHostDir => Ok(d.(virtioFS := d.virtioFS.(hostDir := Some(raw))))
    case VirtioFSTag => Ok(d.(virtioFS := d.virtioFS.(tag := Some(raw))))
    case VirtioFSMountPoint => Ok(d.(virtioFS := d.virtioFS.(mountPoint := Some(raw))))
    case OverlayStateDevice => Ok(d.(virtioFS := d.virtioFS.(device := Some(raw))))
    case OverlayStateMount => Ok(d.(virtioFS := d.virtioFS.(overlayMount := Some(raw))))
  }

  /** The two checks after the loop (main.swift:399-405). */
  function Finish(d: Draft): Outcome {
    if d.boot.rootImagePath.None? then Exited(1)
    else if d.boot.mode.Linux? && d.boot.kernelPath.None? then Exited(1)
    else Parsed(d)
  }

  /** The outcome for the arguments still to be read. */
  function Parse(args: seq<string>, d: Draft): Outcome {
    if args == [] then Finish(d)
    else
      match Recognise(args[0])
      case UnknownArg => Thrown(args[0])
      case HelpArg => Exited(0)
      case VerboseArg => Parse(args[1..], d.(machine := d.machine.(verbose := true)))
      case Takes(flag) =>
        if |args| == 1 then Exited(1)
        else
          match Set(d, flag, args[1])
          case Err(about) => Thrown(about)
          case Ok(next) => Parse(args[2..], next)
  }

  /** `parseArgs` (main.swift:283-432): an index over `CommandLine.arguments`, the program name first. */
  method ParseArgs(argv: seq<string>) returns (out: Outcome)
    requires |argv| >= 1
    ensures out == Parse(argv[1..], Defaults)
  {
    var d := Defaults;
    var i := 1;
    while i < |argv|
      invariant 1 <= i <= |argv|
      invariant Parse(argv[i..], d) == Parse(argv[1..], Defaults)
    {
      match Recognise(argv[i]) {
        case UnknownArg => return Thrown(argv[i]);
        case HelpArg => return Exited(0);
        case VerboseArg =>
          d := d.(machine := d.machine.(verbose := true));
          assert argv[i..][1..] == argv[i + 1..];
        case Takes(flag) =>
          i := i + 1;
          if i >= |argv| { return Exited(1); }
          assert argv[i - 1..][2..] == argv[i + 1..];
          match Set(d, flag, argv[i]) {
            case Err(about) => return Thrown(about);
            case Ok(next) => d := next;
          }
      }
      i := i + 1;
    }
    return Finish(d);
  }

  // The runner's items, one at a time.

  function Step(d: Draft, item: Item): Result<Draft, string> {
    if item.Verbose? then Ok(d.(machine := d.machine.(verbose := true))) else Set(d, item.flag, item.text)
  }

  function Fold(d: Draft, items: seq<Item>): Result<Draft, string> {
    if items == [] then Ok(d)
    else match Fold(d, items[..|items| - 1])
         case Err(about) => Err(about)
         case Ok(next) => Step(next, items[|items| - 1])
  }

  lemma FoldSnoc(d: Draft, items: seq<Item>, item: Item)
    ensures Fold(d, items + [item]) ==
      match Fold(d, items) case Err(about) => Err(about) case Ok(next) => Step(next, item)
  {
    assert (items + [item])[..|items|] == items;
  }

  lemma {:induction false} FoldConcat(d: Draft, a: seq<Item>, b: seq<Item>)
    ensures Fold(d, a + b) == match Fold(d, a) case Err(about) => Err(about) case Ok(next) => Fold(next, b)
  {
    if b == [] {
      assert a + b == a;
    } else {
      var init, last := b[..|b| - 1], b[|b| - 1];
      assert a + b == a + init + [last];
      FoldConcat(d, a, init);
      FoldSnoc(d, a + init, last);
    }
  }

  /**
    Parsing what was printed reads the items back in order, whatever the texts are and whatever
    follows: a flag's value is always consumed as a value, even when it looks like a flag.
  */
  lemma {:induction false} ParseRenderThen(items: seq<Item>, tail: seq<string>, d: Draft)
    ensures Parse(Render(items) + tail, d) ==
      match Fold(d, items) case Err(about) => Thrown(about) case Ok(done) => Parse(tail, done)
  {
    if items == [] {
      assert Render(items) + tail == tail;
    } else {
      var item, rest := items[0], items[1..];
      assert items == [item] + rest;
      FoldConcat(d, [item], rest);
      FoldSnoc(d, [], item);
      assert [] + [item] == [item];
      RenderTail(items, tail);
      if item.Verbose? {
        RecogniseVerbose();
        ParseRenderThen(rest, tail, d.(machine := d.machine.(verbose := true)));
      } else {
        RecogniseName(item.flag);
        match Set(d, item.flag, item.text) {
          case Err(_) =>
          case Ok(next) => ParseRenderThen(rest, tail, next);
        }
      }
    }
  }

  lemma RenderTail(items: seq<Item>, tail: seq<string>)
    requires items != []
    ensures var args := Render(items) + tail;
      if items[0].Verbose? then args[0] == "--verbose" && args[1..] == Render(items[1..]) + tail
      else |args| >= 2 && args[0] == Name(items[0].flag) && args[1] == items[0].text && args[2..] == Render(items[1..]) + tail
  {
    var head := if items[0].Verbose? then ["--verbose"] else [Name(items[0].flag), items[0].text];
    HeadFirst(head, Render(items[1..]), tail);
  }

  lemma HeadFirst(head: seq<string>, rest: seq<string>, tail: seq<string>)
    ensures (head + rest + tail)[|head|..] == rest + tail
    ensures forall i :: 0 <= i < |head| ==> (head + rest + tail)[i] == head[i]
  {}

  lemma ParseRender(items: seq<Item>, d: Draft)
    ensures Parse(Render(items), d) ==
      match Fold(d, items) case Err(about) => Thrown(about) case Ok(done) => Finish(done)
  {
    ParseRenderThen(items, [], d);
    assert Render(items) + [] == Render(items);
  }

  /** What stops the parser: an argument it does not know, a flag without its value, a call for help. */
  lemma ParseStops(items: seq<Item>, arg: string, rest: seq<string>, d: Draft)
    requires Fold(d, items).Ok?
    ensures Recognise(arg).UnknownArg? ==> Parse(Render(items) + ([arg] + rest), d) == Thrown(arg)
    ensures Recognise(arg).Takes? && rest == [] ==> Parse(Render(items) + ([arg] + rest), d) == Exited(1)
    ensures Recognise(arg).HelpArg? ==> Parse(Render(items) + ([arg] + rest), d) == Exited(0)
  {
    ParseRenderThen(items, [arg] + rest, d);
  }

  predicate NumbersInRange(d: Draft) {
    0 <= d.machine.memoryMiB <= MAX_UINT64
    && forall i :: 0 <= i < |d.machine.proxyVsockPorts| ==> d.machine.proxyVsockPorts[i] > 0
  }

  /** A text that is no number leaves the sizes and the agent's port alone, and is thrown as a proxy port. */
  lemma NotANumber(d: Draft, raw: string)
    requires ParseSigned(raw).None?
    ensures Set(d, MemoryMiB, raw) == Ok(d) && Set(d, Cpus, raw) == Ok(d) && Set(d, AgentVsockPort, raw) == Ok(d)
    ensures Set(d, ProxyVsockPort, raw) == Err(Name(ProxyVsockPort))
  {}

  lemma SetKeepsRange(d: Draft, flag: Flag, raw: string)
    requires NumbersInRange(d)
    ensures Set(d, flag, raw).Ok? ==> NumbersInRange(Set(d, flag, raw).value)
  {}

  /** Whatever the arguments, a parsed configuration has a root image, in linux mode a kernel, and numbers in range. */
  lemma {:induction false} ParsedIsUsable(args: seq<string>, d: Draft)
    requires NumbersInRange(d)
    ensures Parse(args, d).Parsed? ==>
      var c := Parse(args, d).config;
      c.boot.rootImagePath.Some? && (c.boot.mode.Linux? ==> c.boot.kernelPath.Some?) && NumbersInRange(c)
    decreases |args|
  {
    if args != [] {
      match Recognise(args[0]) {
        case UnknownArg =>
        case HelpArg =>
        case VerboseArg => ParsedIsUsable(args[1..], d.(machine := d.machine.(verbose := true)));
        case Takes(flag) =>
          if |args| > 1 && Set(d, flag, args[1]).Ok? {
            SetKeepsRange(d, flag, args[1]);
            ParsedIsUsable(args[2..], Set(d, flag, args[1]).value);
          }
      }
    }
  }

  /** The two arguments without which nothing is parsed, and what the others then are. */
  lemma DefaultConfiguration(rootImage: string, kernel: string)
    ensures Parse(["--root-image", rootImage, "--kernel", kernel], Defaults) == Parsed(Draft(
      Boot(Linux, Some(kernel), None, Some(rootImage)),
      Machine([], 512, 2, 7000, [], None, false),
      Network(true, Nat, None, None, None, None),
      VirtioFS(false, None, None, None, None, None)))
    ensures Parse(["--root-image", rootImage], Defaults) == Exited(1)
    ensures Parse(["--kernel", kernel], Defaults) == Exited(1)
  {
    var r, k := Item(RootImage, rootImage), Item(Kernel, kernel);
    RenderOne(r);
    RenderOne(k);
    RenderConcat([r], [k]);
    FoldSnoc(Defaults, [], r);
    FoldSnoc(Defaults, [], k);
    FoldSnoc(Defaults, [r], k);
    assert [] + [r] == [r] && [] + [k] == [k];
    ParseRender([r], Defaults);
    ParseRender([k], Defaults);
    ParseRender([r] + [k], Defaults);
  }

  /** The words for true and false, in any case, and no others. */
  lemma BoolWords(raw: string)
    ensures ParseBool(raw) == Some(true) <==> Lowercased(raw) in {"true", "1", "yes", "on"}
    ensures ParseBool(raw) == Some(false) <==> Lowercased(raw) in {"false", "0", "no", "off"}
  {}

  // The kernel command line (main.swift:41-80).

  function Key(key: string, value: Option<string>): seq<string> {
    if value.Some? && value.value != "" then [key + value.value] else []
  }

  function NetworkTokens(c: Draft): seq<string> {
    Key("agent.network_cidr=", c.network.cidr) + Key("agent.network_gateway=", c.network.gateway)
    + Key("agent.network_ifname=", c.network.ifName)
  }

  function VirtioFSTokens(c: Draft): seq<string> {
    (if c.virtioFS.tag.Some? && c.virtioFS.tag.value != "" then ["agent.virtiofs=1"] else [])
    + Key("agent.virtiofs_tag=", c.virtioFS.tag) + Key("agent.virtiofs_mount=", c.virtioFS.mountPoint)
    + Key("agent.overlay_device=", c.virtioFS.device) + Key("agent.overlay_mount=", c.virtioFS.overlayMount)
  }

  function FixedTokens(): seq<string> {
    ["console=hvc0", "loglevel=7", "printk.time=1", "root=/dev/vda rw", "init=/sbin/agent"]
  }

  function Tokens(c: Draft): seq<string> {
    FixedTokens() + ["agent.vsock_port=" + Itoa(c.machine.agentVsockPort)]
    + (if c.network.enabled then NetworkTokens(c) else []) + (if c.virtioFS.enabled then VirtioFSTokens(c) else [])
  }

  method AppendKey(args: seq<string>, key: string, value: Option<string>) returns (r: seq<string>)
    ensures r == args + Key(key, value)
  {
    r := args;
    if value.Some? && value.value != "" { r := r + [key + value.value]; }
  }

  method AppendNetwork(before: seq<string>, c: Draft) returns (args: seq<string>)
    ensures args == before + NetworkTokens(c)
  {
    args := AppendKey(before, "agent.network_cidr=", c.network.cidr);
    args := AppendKey(args, "agent.network_gateway=", c.network.gateway);
    args := AppendKey(args, "agent.network_ifname=", c.network.ifName);
  }

  method AppendTag(before: seq<string>, tag: Option<string>) returns (args: seq<string>)
    ensures args == before + (if tag.Some? && tag.value != "" then ["agent.virtiofs=1"] else [])
                    + Key("agent.virtiofs_tag=", tag)
  {
    args := before;
    if tag.Some? && tag.value != "" {
      args := args + ["agent.virtiofs=1"];
      args := args + ["agent.virtiofs_tag=" + tag.value];
    }
  }

  method AppendVirtioFS(before: seq<string>, c: Draft) returns (args: seq<string>)
    ensures args == before + VirtioFSTokens(c)
  {
    args := AppendTag(before, c.virtioFS.tag);
    args := AppendKey(args, "agent.virtiofs_mount=", c.virtioFS.mountPoint);
    args := AppendKey(args, "agent.overlay_device=", c.virtioFS.device);
    args := AppendKey(args, "agent.overlay_mount=", c.virtioFS.overlayMount);
  }

  /** `ManagerConfig.bootArgs`, appending key by key. */
  method BootArgs(c: Draft) returns (line: string)
    ensures line == Join(Tokens(c))
  {
    var args := FixedTokens() + ["agent.vsock_port=" + Itoa(c.machine.agentVsockPort)];
    assert args + [] == args;
    if c.network.enabled { args := AppendNetwork(args, c); }
    assert args + [] == args;
    if c.virtioFS.enabled { args := AppendVirtioFS(args, c); }
    return Join(args);
  }
}
