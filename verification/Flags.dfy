/** The command-line flags the Go runner and the Swift manager share. */
module Flags {
  /** The flags that take a value (manager/Sources/vmmanager/main.swift:312-388). */
  datatype Flag =
    | BootModeFlag | Kernel | Initrd | RootImage | ExtraDisk | MemoryMiB | Cpus | AgentVsockPort | ProxyVsockPort
    | AgentReadySocket | EnableNetwork | NetworkModeFlag | BridgeInterface | VmNetworkCIDR | VmNetworkGateway
    | VmNetworkIfName | EnableVirtioFS | VirtioFSHostDir | VirtioFSTag | VirtioFSMountPoint | OverlayStateDevice
    | OverlayStateMount

  function Name(flag: Flag): string {
    match flag
    case BootModeFlag => "--boot-mode"
    case Kernel => "--kernel"
    case Initrd => "--initrd"
    case RootImage => "--root-image"
    case ExtraDisk => "--extra-disk"
    case MemoryMiB => "--memory-mib"
    case Cpus => "--cpus"
    case AgentVsockPort => "--agent-vsock-port"
    case ProxyVsockPort => "--proxy-vsock-port"
    case AgentReadySocket => "--agent-ready-socket"
    case EnableNetwork => "--enable-network"
    case NetworkModeFlag => "--network-mode"
    case BridgeInterface => "--bridge-interface"
    case VmNetworkCIDR => "--vm-network-cidr"
    case VmNetworkGateway => "--vm-network-gateway"
    case VmNetworkIfName => "--vm-network-ifname"
    case EnableVirtioFS => "--enable-virtiofs"
    case VirtioFSHostDir => "--virtiofs-host-dir"
    case VirtioFSTag => "--virtiofs-tag"
    case VirtioFSMountPoint => "--virtiofs-mount-point"
    case OverlayStateDevice => "--overlay-state-device"
    case OverlayStateMount => "--overlay-state-mount"
  }

  /** What one argument is to the parser's `switch`. */
  datatype Arg = Takes(flag: Flag) | VerboseArg | HelpArg | UnknownArg

  function Recognise(arg: string): Arg {
    if arg == "--boot-mode" then Takes(BootModeFlag)
    else if arg == "--kernel" then Takes(Kernel)
    else if arg == "--initrd" then Takes(Initrd)
    else if arg == "--root-image" then Takes(RootImage)
    else if arg == "--extra-disk" then Takes(ExtraDisk)
    else if arg == "--memory-mib" then Takes(MemoryMiB)
    else if arg == "--cpus" then Takes(Cpus)
    else if arg == "--agent-vsock-port" then Takes(AgentVsockPort)
    else if arg == "--proxy-vsock-port" then Takes(ProxyVsockPort)
    else if arg == "--agent-ready-socket" then Takes(AgentReadySocket)
    else if arg == "--enable-network" then Takes(EnableNetwork)
    else if arg == "--network-mode" then Takes(NetworkModeFlag)
    else if arg == "--bridge-interface" then Takes(BridgeInterface)
    else if arg == "--vm-network-cidr" then Takes(VmNetworkCIDR)
    else if arg == "--vm-network-gateway" then Takes(VmNetworkGateway)
    else if arg == "--vm-network-ifname" then Takes(VmNetworkIfName)
    else if arg == "--enable-virtiofs" then Takes(EnableVirtioFS)
    else if arg == "--virtiofs-host-dir" then Takes(VirtioFSHostDir)
    else if arg == "--virtiofs-tag" then Takes(VirtioFSTag)
    else if arg == "--virtiofs-mount-point" then Takes(VirtioFSMountPoint)
    else if arg == "--overlay-state-device" then Takes(OverlayStateDevice)
    else if arg == "--overlay-state-mount" then Takes(OverlayStateMount)
    else if arg == "--verbose" then VerboseArg
    else if arg == "--help" || arg == "-h" then HelpArg
    else UnknownArg
  }

  lemma RecogniseName(flag: Flag)
    ensures Recognise(Name(flag)) == Takes(flag)
  {
    match flag {
      case BootModeFlag =>
      case Kernel =>
      case Initrd =>
      case RootImage =>
      case ExtraDisk =>
      case MemoryMiB =>
      case Cpus =>
      case AgentVsockPort =>
      case ProxyVsockPort =>
      case AgentReadySocket =>
      case EnableNetwork =>
      case NetworkModeFlag =>
      case BridgeInterface =>
      case VmNetworkCIDR =>
      case VmNetworkGateway =>
      case VmNetworkIfName =>
      case EnableVirtioFS =>
      case VirtioFSHostDir =>
      case VirtioFSTag =>
      case VirtioFSMountPoint =>
      case OverlayStateDevice =>
      case OverlayStateMount =>
    }
  }

  lemma RecogniseVerbose()
    ensures Recognise("--verbose") == VerboseArg
  {}

  /** One argument group as the runner prints it. */
  datatype Item = Item(flag: Flag, text: string) | Verbose

  function Words(item: Item): seq<string> { if item.Verbose? then ["--verbose"] else [Name(item.flag), item.text] }

  function Render(items: seq<Item>): seq<string> {
    if items == [] then [] else Words(items[0]) + Render(items[1..])
  }

  lemma RenderOne(item: Item)
    ensures Render([item]) == if item.Verbose? then ["--verbose"] else [Name(item.flag), item.text]
  {
    assert [item][1..] == [];
  }

  lemma WordsRegroup(a: seq<string>, b: seq<string>, c: seq<string>)
    ensures a + (b + c) == a + b + c
  {}

  lemma {:induction false} RenderConcat(a: seq<Item>, b: seq<Item>)
    ensures Render(a + b) == Render(a) + Render(b)
  {
    if a == [] {
      assert a + b == b;
    } else {
      RenderConcat(a[1..], b);
      assert (a + b)[0] == a[0] && (a + b)[1..] == a[1..] + b;
      WordsRegroup(Words(a[0]), Render(a[1..]), Render(b));
    }
  }

  lemma RecogniseHelp()
    ensures Recognise("--help") == HelpArg && Recognise("-h") == HelpArg
  {}
}
