/**
  `VMConfig.Validate` and `VMConfig.ManagerArgs` (vm/runner.go:79-237): the Go side of the
  configuration, printed as the argument vector of the manager.
*/
module VmConfig {
  import opened Prelude
  import opened Text
  import opened Flags

  datatype VMConfig = VMConfig(
    bootMode: string, kernelPath: string, initrdPath: string, rootImage: string,
    extraDiskPaths: seq<string>, memoryMiB: Int64, cpus: Int64, agentVsockPort: Int64,
    proxyVsockPorts: seq<Int64>, agentReadySocketPath: string, lockFilePath: string,
    enableNetwork: bool, networkMode: string, bridgeInterface: string,
    vmNetworkCIDR: string, vmNetworkGateway: string, vmNetworkIfName: string,
    enableVirtioFS: bool, virtioFSHostDir: string, virtioFSTag: string, virtioFSMountPoint: string,
    overlayStateDevice: string, overlayStateMount: string, verbose: bool)

  datatype ConfigError =
    | NoRootImage | EmptyExtraDisk | BadBootMode | NoKernel | BadMemory | BadCPUs | BadAgentPort | BadProxyPort
    | NoReadySocket | BadNetworkMode | BadCIDR | NoIfName | BadGateway | NoHostDir | NoTag | NoOverlayMount

  /** `netip.ParsePrefix` and `netip.ParseAddr`: which texts they accept. */
  datatype NetIP = NetIP(isPrefix: string -> bool, isAddr: string -> bool)

  predicate ValidBootMode(mode: string) { mode == "linux" || mode == "efi" }

  predicate ValidNetworkMode(mode: string) { mode == "nat" || mode == "bridged" || mode == "hostonly" }

  predicate Blank(s: string) { TrimSpace(s) == "" }

  function ValidateNetwork(c: VMConfig, net: NetIP): Option<ConfigError> {
    if c.networkMode != "" && !ValidNetworkMode(c.networkMode) then Some(BadNetworkMode)
    else if c.vmNetworkCIDR != "" && !net.isPrefix(c.vmNetworkCIDR) then Some(BadCIDR)
    else if c.vmNetworkCIDR != "" && c.vmNetworkIfName == "" then Some(NoIfName)
    else if c.vmNetworkGateway != "" && !net.isAddr(c.vmNetworkGateway) then Some(BadGateway)
    else None
  }

  function ValidateVirtioFS(c: VMConfig): Option<ConfigError> {
    if Blank(c.virtioFSHostDir) then Some(NoHostDir)
    else if Blank(c.virtioFSTag) then Some(NoTag)
    else if Blank(c.overlayStateMount) then Some(NoOverlayMount)
    else None
  }

  /** The first complaint, in the order the code looks for them. */
  function Validate(c: VMConfig, net: NetIP): Option<ConfigError> {
    if c.rootImage == "" then Some(NoRootImage)
    else if exists i :: 0 <= i < |c.extraDiskPaths| && Blank(c.extraDiskPaths[i]) then Some(EmptyExtraDisk)
    else if c.bootMode != "" && !ValidBootMode(c.bootMode) then Some(BadBootMode)
    else if c.bootMode == "linux" && c.kernelPath == "" then Some(NoKernel)
    else if c.memoryMiB <= 0 then Some(BadMemory)
    else if c.cpus <= 0 then Some(BadCPUs)
    else if c.agentVsockPort <= 0 then Some(BadAgentPort)
    else if exists i :: 0 <= i < |c.proxyVsockPorts| && c.proxyVsockPorts[i] <= 0 then Some(BadProxyPort)
    else if c.agentReadySocketPath == "" then Some(NoReadySocket)
    else if c.enableNetwork && ValidateNetwork(c, net).Some? then ValidateNetwork(c, net)
    else if c.enableVirtioFS then ValidateVirtioFS(c)
    else None
  }

  /** The two defaults `ManagerArgs` fills in: the boot mode before validation, the network mode after. */
  function WithBootMode(c: VMConfig): VMConfig {
    if c.bootMode == "" then c.(bootMode := "linux") else c
  }

  function WithNetworkMode(c: VMConfig): VMConfig {
    if c.networkMode == "" then c.(networkMode := "hostonly") else c
  }

  function FormatBool(b: bool): string { if b then "true" else "false" }

  // The arguments, as flags with values.

  function Opt(flag: Flag, text: string): seq<Item> { if text != "" then [Item(flag, text)] else [] }

  function DiskItems(paths: seq<string>): seq<Item> {
    if paths == [] then [] else DiskItems(paths[..|paths| - 1]) + [Item(ExtraDisk, paths[|paths| - 1])]
  }

  function PortItems(ports: seq<Int64>): seq<Item> {
    if ports == [] then [] else PortItems(ports[..|ports| - 1]) + [Item(ProxyVsockPort, Itoa(ports[|ports| - 1]))]
  }

  function BootModeItems(c: VMConfig): seq<Item> {
    [Item(BootModeFlag, c.bootMode), Item(RootImage, c.rootImage), Item(MemoryMiB, Itoa(c.memoryMiB))]
  }

  function AgentItems(c: VMConfig): seq<Item> {
    [Item(Cpus, Itoa(c.cpus)), Item(AgentVsockPort, Itoa(c.agentVsockPort)), Item(AgentReadySocket, c.agentReadySocketPath)]
  }

  function SwitchItems(c: VMConfig): seq<Item> {
    [Item(EnableNetwork, FormatBool(c.enableNetwork)), Item(NetworkModeFlag, c.networkMode),
     Item(EnableVirtioFS, FormatBool(c.enableVirtioFS))]
  }

  function KernelItems(c: VMConfig): seq<Item> { if c.bootMode == "linux" then [Item(Kernel, c.kernelPath)] else [] }

  function VerboseItems(c: VMConfig): seq<Item> { if c.verbose then [Verbose] else [] }

  function HeadItems(c: VMConfig): seq<Item> { BootModeItems(c) + AgentItems(c) + SwitchItems(c) }

  function MountItems(c: VMConfig): seq<Item> {
    [] + Opt(VirtioFSHostDir, c.virtioFSHostDir) + Opt(VirtioFSTag, c.virtioFSTag)
    + Opt(VirtioFSMountPoint, c.virtioFSMountPoint) + Opt(OverlayStateDevice, c.overlayStateDevice)
    + Opt(OverlayStateMount, c.overlayStateMount)
  }

  function RepeatedItems(c: VMConfig): seq<Item> { DiskItems(c.extraDiskPaths) + PortItems(c.proxyVsockPorts) }

  function NetItems(c: VMConfig): seq<Item> {
    [] + Opt(BridgeInterface, c.bridgeInterface) + Opt(VmNetworkCIDR, c.vmNetworkCIDR)
    + Opt(VmNetworkGateway, c.vmNetworkGateway) + Opt(VmNetworkIfName, c.vmNetworkIfName)
  }

  function BootItems(c: VMConfig): seq<Item> { KernelItems(c) + Opt(Initrd, c.initrdPath) + VerboseItems(c) }

  function Items(c: VMConfig): seq<Item> {
    HeadItems(c) + MountItems(c) + RepeatedItems(c) + NetItems(c) + BootItems(c)
  }

  /** The argument vector, or why there is none. */
  function ArgsOf(c: VMConfig, net: NetIP): Result<seq<string>, ConfigError> {
    match Validate(WithBootMode(c), net)
    case Some(e) => Err(e)
    case None => Ok(Render(Items(WithNetworkMode(WithBootMode(c)))))
  }

  // Each append keeps `args` what was there before the group, then the rendering of the group.

  method AppendOpt(args: seq<string>, ghost base: seq<string>, ghost items: seq<Item>, flag: Flag, text: string)
    returns (r: seq<string>)
    requires args == base + Render(items)
    ensures r == base + Render(items + Opt(flag, text))
  {
    r := args;
    RenderConcat(items, Opt(flag, text));
    if text != "" {
      r := r + [Name(flag), text];
      RenderOne(Item(flag, text));
    }
  }

  method AppendMounts(args: seq<string>, c: VMConfig) returns (r: seq<string>)
    ensures r == args + Render(MountItems(c))
  {
    r := AppendOpt(args, args, [], VirtioFSHostDir, c.virtioFSHostDir);
    ghost var items := [] + Opt(VirtioFSHostDir, c.virtioFSHostDir);
    r := AppendOpt(r, args, items, VirtioFSTag, c.virtioFSTag);
    items := items + Opt(VirtioFSTag, c.virtioFSTag);
    r := AppendOpt(r, args, items, VirtioFSMountPoint, c.virtioFSMountPoint);
    items := items + Opt(VirtioFSMountPoint, c.virtioFSMountPoint);
    r := AppendOpt(r, args, items, OverlayStateDevice, c.overlayStateDevice);
    items := items + Opt(OverlayStateDevice, c.overlayStateDevice);
    r := AppendOpt(r, args, items, OverlayStateMount, c.overlayStateMount);
  }

  method AppendDisks(args: seq<string>, paths: seq<string>) returns (r: seq<string>)
    ensures r == args + Render(DiskItems(paths))
  {
    r := args;
    for i := 0 to |paths|
      invariant r == args + Render(DiskItems(paths[..i]))
    {
      r := r + [Name(ExtraDisk), paths[i]];
      assert paths[..i + 1][..i] == paths[..i];
      RenderOne(Item(ExtraDisk, paths[i]));
      RenderConcat(DiskItems(paths[..i]), [Item(ExtraDisk, paths[i])]);
    }
    assert paths[..|paths|] == paths;
  }

  method AppendPorts(args: seq<string>, ports: seq<Int64>) returns (r: seq<string>)
    ensures r == args + Render(PortItems(ports))
  {
    r := args;
    for i := 0 to |ports|
      invariant r == args + Render(PortItems(ports[..i]))
    {
      r := r + [Name(ProxyVsockPort), Itoa(ports[i])];
      assert ports[..i + 1][..i] == ports[..i];
      RenderOne(Item(ProxyVsockPort, Itoa(ports[i])));
      RenderConcat(PortItems(ports[..i]), [Item(ProxyVsockPort, Itoa(ports[i]))]);
    }
    assert ports[..|ports|] == ports;
  }

  method AppendNetwork(args: seq<string>, c: VMConfig) returns (r: seq<string>)
    ensures r == args + Render(NetItems(c))
  {
    r := AppendOpt(args, args, [], BridgeInterface, c.bridgeInterface);
    ghost var items := [] + Opt(BridgeInterface, c.bridgeInterface);
    r := AppendOpt(r, args, items, VmNetworkCIDR, c.vmNetworkCIDR);
    items := items + Opt(VmNetworkCIDR, c.vmNetworkCIDR);
    r := AppendOpt(r, args, items, VmNetworkGateway, c.vmNetworkGateway);
    items := items + Opt(VmNetworkGateway, c.vmNetworkGateway);
    r := AppendOpt(r, args, items, VmNetworkIfName, c.vmNetworkIfName);
  }

  method AppendBoot(args: seq<string>, c: VMConfig) returns (r: seq<string>)
    ensures r == args + Render(BootItems(c))
  {
    r := args;
    if c.bootMode == "linux" { r := r + [Name(Kernel), c.kernelPath]; RenderOne(Item(Kernel, c.kernelPath)); }
    r := AppendOpt(r, args, KernelItems(c), Initrd, c.initrdPath);
    if c.verbose { r := r + ["--verbose"]; RenderOne(Verbose); }
    RenderConcat(KernelItems(c) + Opt(Initrd, c.initrdPath), VerboseItems(c));
  }

  lemma RenderThree(i: Item, j: Item, k: Item)
    requires i.Item? && j.Item? && k.Item?
    ensures Render([i, j, k]) == [Name(i.flag), i.text, Name(j.flag), j.text, Name(k.flag), k.text]
  {
    assert [i, j, k][1..] == [j, k];
    assert [j, k][1..] == [k];
    RenderOne(k);
  }

  /** The nine arguments that are always there (vm/runner.go:181-191). */
  method HeadArgs(c: VMConfig) returns (args: seq<string>)
    ensures args == Render(HeadItems(c))
  {
    args := [Name(BootModeFlag), c.bootMode, Name(RootImage), c.rootImage, Name(MemoryMiB), Itoa(c.memoryMiB)]
      + [Name(Cpus), Itoa(c.cpus), Name(AgentVsockPort), Itoa(c.agentVsockPort)]
      + [Name(AgentReadySocket), c.agentReadySocketPath]
      + [Name(EnableNetwork), FormatBool(c.enableNetwork), Name(NetworkModeFlag), c.networkMode,
         Name(EnableVirtioFS), FormatBool(c.enableVirtioFS)];
    ghost var a, b, d := BootModeItems(c), AgentItems(c), SwitchItems(c);
    RenderThree(a[0], a[1], a[2]);
    RenderThree(b[0], b[1], b[2]);
    RenderThree(d[0], d[1], d[2]);
    RenderConcat(a, b);
    RenderConcat(a + b, d);
  }

  /** `ManagerArgs` (vm/runner.go:170-237), appending flag by flag. */
  method ManagerArgs(config: VMConfig, net: NetIP) returns (r: Result<seq<string>, ConfigError>)
    ensures r == ArgsOf(config, net)
  {
    var c := config;
    if c.bootMode == "" { c := c.(bootMode := "linux"); }
    var invalid := Validate(c, net);
    if invalid.Some? { return Err(invalid.value); }
    if c.networkMode == "" { c := c.(networkMode := "hostonly"); }
    var args := HeadArgs(c);
    args := AppendMounts(args, c);
    args := AppendDisks(args, c.extraDiskPaths);
    args := AppendPorts(args, c.proxyVsockPorts);
    args := AppendNetwork(args, c);
    args := AppendBoot(args, c);
    RenderGroups(c);
    return Ok(args);
  }

  lemma RenderGroups(c: VMConfig)
    ensures Render(Items(c)) ==
      Render(HeadItems(c)) + Render(MountItems(c)) + Render(DiskItems(c.extraDiskPaths))
      + Render(PortItems(c.proxyVsockPorts)) + Render(NetItems(c)) + Render(BootItems(c))
  {
    var a, b := HeadItems(c), MountItems(c);
    RenderConcat(a, b);
    RenderConcat(DiskItems(c.extraDiskPaths), PortItems(c.proxyVsockPorts));
    RenderConcat(a + b, RepeatedItems(c));
    RenderConcat(a + b + RepeatedItems(c), NetItems(c));
    RenderConcat(a + b + RepeatedItems(c) + NetItems(c), BootItems(c));
    Regroup(Render(a) + Render(b), Render(DiskItems(c.extraDiskPaths)), Render(PortItems(c.proxyVsockPorts)));
  }

  // Which configurations are accepted, and what is wrong with the others.

  /** What each complaint is about. */
  predicate Fault(c: VMConfig, net: NetIP, e: ConfigError) {
    match e
    case NoRootImage => c.rootImage == ""
    case EmptyExtraDisk => exists i :: 0 <= i < |c.extraDiskPaths| && Blank(c.extraDiskPaths[i])
    case BadBootMode => c.bootMode != "" && c.bootMode != "linux" && c.bootMode != "efi"
    case NoKernel => (c.bootMode == "" || c.bootMode == "linux") && c.kernelPath == ""
    case BadMemory => c.memoryMiB < 1
    case BadCPUs => c.cpus < 1
    case BadAgentPort => c.agentVsockPort < 1
    case BadProxyPort => exists i :: 0 <= i < |c.proxyVsockPorts| && c.proxyVsockPorts[i] < 1
    case NoReadySocket => c.agentReadySocketPath == ""
    case BadNetworkMode =>
      c.enableNetwork && c.networkMode != "" && c.networkMode != "nat" && c.networkMode != "bridged"
      && c.networkMode != "hostonly"
    case BadCIDR => c.enableNetwork && c.vmNetworkCIDR != "" && !net.isPrefix(c.vmNetworkCIDR)
    case NoIfName => c.enableNetwork && c.vmNetworkCIDR != "" && c.vmNetworkIfName == ""
    case BadGateway => c.enableNetwork && c.vmNetworkGateway != "" && !net.isAddr(c.vmNetworkGateway)
    case NoHostDir => c.enableVirtioFS && Blank(c.virtioFSHostDir)
    case NoTag => c.enableVirtioFS && Blank(c.virtioFSTag)
    case NoOverlayMount => c.enableVirtioFS && Blank(c.overlayStateMount)
  }

  /** The order in which complaints are made. */
  function Order(e: ConfigError): nat {
    match e
    case NoRootImage => 0 case EmptyExtraDisk => 1 case BadBootMode => 2 case NoKernel => 3
    case BadMemory => 4 case BadCPUs => 5 case BadAgentPort => 6 case BadProxyPort => 7
    case NoReadySocket => 8 case BadNetworkMode => 9 case BadCIDR => 10 case NoIfName => 11
    case BadGateway => 12 case NoHostDir => 13 case NoTag => 14 case NoOverlayMount => 15
  }

  /** Every value in its place, and the switched-on parts complete. */
  predicate Acceptable(c: VMConfig, net: NetIP) {
    && c.rootImage != "" && c.agentReadySocketPath != ""
    && c.memoryMiB >= 1 && c.cpus >= 1 && c.agentVsockPort >= 1
    && (forall i :: 0 <= i < |c.proxyVsockPorts| ==> c.proxyVsockPorts[i] >= 1)
    && (forall i :: 0 <= i < |c.extraDiskPaths| ==> !Blank(c.extraDiskPaths[i]))
    && (c.bootMode == "efi" || ((c.bootMode == "" || c.bootMode == "linux") && c.kernelPath != ""))
    && (c.enableNetwork ==>
          && (c.networkMode == "" || c.networkMode == "nat" || c.networkMode == "bridged" || c.networkMode == "hostonly")
          && (c.vmNetworkCIDR == "" || (net.isPrefix(c.vmNetworkCIDR) && c.vmNetworkIfName != ""))
          && (c.vmNetworkGateway == "" || net.isAddr(c.vmNetworkGateway)))
    && (c.enableVirtioFS ==> !Blank(c.virtioFSHostDir) && !Blank(c.virtioFSTag) && !Blank(c.overlayStateMount))
  }

  predicate First(c: VMConfig, net: NetIP, e: ConfigError) {
    Fault(c, net, e) && forall f: ConfigError :: Order(f) < Order(e) ==> !Fault(c, net, f)
  }

  lemma ComplaintIsAFault(c: VMConfig, net: NetIP)
    ensures Validate(WithBootMode(c), net).Some? ==> Fault(c, net, Validate(WithBootMode(c), net).value)
  {}

  lemma NoFaultBefore(c: VMConfig, net: NetIP, f: ConfigError)
    requires Fault(c, net, f)
    ensures Validate(WithBootMode(c), net).Some? && Order(Validate(WithBootMode(c), net).value) <= Order(f)
  {}

  lemma ComplaintIsFirst(c: VMConfig, net: NetIP)
    ensures match Validate(WithBootMode(c), net)
      case Some(e) => First(c, net, e)
      case None => forall e: ConfigError :: !Fault(c, net, e)
  {
    ComplaintIsAFault(c, net);
    forall f: ConfigError
      ensures Fault(c, net, f) ==>
        Validate(WithBootMode(c), net).Some? && Order(Validate(WithBootMode(c), net).value) <= Order(f)
    {
      if Fault(c, net, f) { NoFaultBefore(c, net, f); }
    }
  }

  lemma OrderIsStrict(e: ConfigError, f: ConfigError)
    ensures Order(e) == Order(f) ==> e == f
  {}

  /** The answer names the first fault, and there is none exactly when the configuration is accepted. */
  lemma ComplaintExactly(c: VMConfig, net: NetIP)
    ensures ArgsOf(c, net).Ok? <==> forall e: ConfigError :: !Fault(c, net, e)
    ensures forall e: ConfigError :: ArgsOf(c, net) == Err(e) <==> First(c, net, e)
  {
    ComplaintIsFirst(c, net);
    forall e: ConfigError
      ensures ArgsOf(c, net) == Err(e) <==> First(c, net, e)
    {
      if First(c, net, e) && Validate(WithBootMode(c), net).Some? {
        OrderIsStrict(e, Validate(WithBootMode(c), net).value);
      }
    }
  }

  lemma AcceptableExactly(c: VMConfig, net: NetIP)
    ensures Acceptable(c, net) <==> forall e: ConfigError :: !Fault(c, net, e)
  {
    if forall e: ConfigError :: !Fault(c, net, e) {
      NothingWrong(c, net);
    }
  }

  lemma NothingWrong(c: VMConfig, net: NetIP)
    requires forall e: ConfigError :: !Fault(c, net, e)
    ensures Acceptable(c, net)
  {
    assert !Fault(c, net, NoRootImage) && !Fault(c, net, EmptyExtraDisk) && !Fault(c, net, BadBootMode);
    assert !Fault(c, net, NoKernel) && !Fault(c, net, BadMemory) && !Fault(c, net, BadCPUs);
    assert !Fault(c, net, BadAgentPort) && !Fault(c, net, BadProxyPort) && !Fault(c, net, NoReadySocket);
    assert !Fault(c, net, BadNetworkMode) && !Fault(c, net, BadCIDR) && !Fault(c, net, NoIfName);
    assert !Fault(c, net, BadGateway) && !Fault(c, net, NoHostDir) && !Fault(c, net, NoTag);
    assert !Fault(c, net, NoOverlayMount);
  }

  /**
    Which configurations get an argument vector, exactly, and what is answered for the others: the
    first of their faults, so that a configuration with one fault gets that one.
  */
  lemma AcceptedExactly(c: VMConfig, net: NetIP)
    ensures ArgsOf(c, net).Ok? <==> Acceptable(c, net)
    ensures forall e: ConfigError :: ArgsOf(c, net) == Err(e) <==> First(c, net, e)
    ensures forall e: ConfigError :: Fault(c, net, e) && (forall f: ConfigError :: f != e ==> !Fault(c, net, f)) ==>
      ArgsOf(c, net) == Err(e)
  {
    ComplaintExactly(c, net);
    AcceptableExactly(c, net);
  }

  predicate NothingOptional(c: VMConfig) {
    && c.virtioFSHostDir == "" && c.virtioFSTag == "" && c.virtioFSMountPoint == "" && c.overlayStateDevice == ""
    && c.overlayStateMount == "" && c.extraDiskPaths == [] && c.proxyVsockPorts == [] && c.bridgeInterface == ""
    && c.vmNetworkCIDR == "" && c.vmNetworkGateway == "" && c.vmNetworkIfName == "" && c.initrdPath == "" && !c.verbose
  }

  /** The vector of a configuration with nothing optional, word by word. */
  lemma PlainVector(c: VMConfig, net: NetIP)
    requires Acceptable(c, net) && NothingOptional(c) && c.bootMode == "" && c.networkMode == ""
    ensures ArgsOf(c, net) == Ok(
      ["--boot-mode", "linux", "--root-image", c.rootImage, "--memory-mib", Itoa(c.memoryMiB)]
      + ["--cpus", Itoa(c.cpus), "--agent-vsock-port", Itoa(c.agentVsockPort), "--agent-ready-socket", c.agentReadySocketPath]
      + ["--enable-network", if c.enableNetwork then "true" else "false", "--network-mode", "hostonly",
         "--enable-virtiofs", "false"]
      + ["--kernel", c.kernelPath])
  {
    AcceptedExactly(c, net);
    assert TrimSpace("") == "";
    var d := WithNetworkMode(WithBootMode(c));
    RenderGroups(d);
    PlainGroups(d);
    HeadRendered(d);
    NothingBetween(Render(HeadItems(d)), ["--kernel", c.kernelPath]);
  }

  lemma NothingBetween(head: seq<string>, tail: seq<string>)
    ensures head + [] + [] + [] + [] + tail == head + tail
  {}

  lemma HeadRendered(c: VMConfig)
    requires c.bootMode == "linux" && c.networkMode == "hostonly" && !c.enableVirtioFS
    ensures Render(HeadItems(c)) ==
      ["--boot-mode", "linux", "--root-image", c.rootImage, "--memory-mib", Itoa(c.memoryMiB)]
      + ["--cpus", Itoa(c.cpus), "--agent-vsock-port", Itoa(c.agentVsockPort), "--agent-ready-socket", c.agentReadySocketPath]
      + ["--enable-network", if c.enableNetwork then "true" else "false", "--network-mode", "hostonly",
         "--enable-virtiofs", "false"]
  {
    var a, b, d := BootModeItems(c), AgentItems(c), SwitchItems(c);
    RenderThree(a[0], a[1], a[2]);
    RenderThree(b[0], b[1], b[2]);
    RenderThree(d[0], d[1], d[2]);
    RenderConcat(a, b);
    RenderConcat(a + b, d);
  }

  lemma PlainGroups(c: VMConfig)
    requires NothingOptional(c) && c.bootMode == "linux"
    ensures Render(MountItems(c)) == [] && Render(DiskItems(c.extraDiskPaths)) == []
    ensures Render(PortItems(c.proxyVsockPorts)) == []
    ensures Render(NetItems(c)) == [] && Render(BootItems(c)) == ["--kernel", c.kernelPath]
  {
    RenderOne(Item(Kernel, c.kernelPath));
    var none: seq<Item> := [];
    assert none + none == none && [Item(Kernel, c.kernelPath)] + none == [Item(Kernel, c.kernelPath)];
  }
}
