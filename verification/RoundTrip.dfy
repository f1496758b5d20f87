/** From the runner's configuration to the manager's: printing and parsing the argument vector. */
module RoundTrip {
  import opened Prelude
  import opened Text
  import opened Flags
  import opened VmConfig
  import M = Manager

  function NonEmpty(s: string): Option<string> { if s == "" then None else Some(s) }

  function BootPart(c: VMConfig): M.Boot {
    M.Boot(if c.bootMode == "linux" then M.Linux else M.Efi, if c.bootMode == "linux" then Some(c.kernelPath) else None,
           NonEmpty(c.initrdPath), Some(c.rootImage))
  }

  function MachinePart(c: VMConfig): M.Machine {
    M.Machine(c.extraDiskPaths, c.memoryMiB, c.cpus, c.agentVsockPort, c.proxyVsockPorts,
              Some(c.agentReadySocketPath), c.verbose)
  }

  function NetworkPart(c: VMConfig, mode: M.NetworkMode): M.Network {
    M.Network(c.enableNetwork, mode, NonEmpty(c.bridgeInterface), NonEmpty(c.vmNetworkCIDR),
              NonEmpty(c.vmNetworkGateway), NonEmpty(c.vmNetworkIfName))
  }

  function VirtioFSPart(c: VMConfig): M.VirtioFS {
    M.VirtioFS(c.enableVirtioFS, NonEmpty(c.virtioFSHostDir), NonEmpty(c.virtioFSTag), NonEmpty(c.virtioFSMountPoint),
               NonEmpty(c.overlayStateDevice), NonEmpty(c.overlayStateMount))
  }

  /** What the manager must end up with: every field of the runner's, "" read as nil, defaults filled in. */
  function Expected(c: VMConfig, mode: M.NetworkMode): M.Draft {
    M.Draft(BootPart(c), MachinePart(c), NetworkPart(c, mode), VirtioFSPart(c))
  }

  // One group of arguments at a time.

  lemma BoolsParse(b: bool)
    ensures M.ParseBool(FormatBool(b)) == Some(b)
  {
    assert M.Lowercased("true") == "true";
    assert M.Lowercased("false") == "false";
    assert "false"[0] != "true"[0] && |"false"| != |"true"|;
    assert |"false"| != |"1"| && |"false"| != |"yes"| && |"false"| != |"on"|;
  }

  lemma FoldThree(d: M.Draft, i: Item, j: Item, k: Item)
    ensures M.Fold(d, [i, j, k]) ==
      match M.Step(d, i)
      case Err(e) => Err(e)
      case Ok(d1) =>
        match M.Step(d1, j)
        case Err(e) => Err(e)
        case Ok(d2) => M.Step(d2, k)
  {
    M.FoldSnoc(d, [], i);
    M.FoldSnoc(d, [i], j);
    M.FoldSnoc(d, [i, j], k);
    assert [] + [i] == [i] && [i] + [j] == [i, j] && [i, j] + [k] == [i, j, k];
  }

  /** After the nine arguments that are always there. */
  function AfterHead(c: VMConfig, mode: M.NetworkMode): M.Draft {
    M.Draft(M.Boot(BootPart(c).mode, None, None, Some(c.rootImage)),
            M.Machine([], c.memoryMiB, c.cpus, c.agentVsockPort, [], Some(c.agentReadySocketPath), false),
            M.Network(c.enableNetwork, mode, None, None, None, None),
            M.VirtioFS(c.enableVirtioFS, None, None, None, None, None))
  }

  lemma FoldBootMode(c: VMConfig)
    requires ValidBootMode(c.bootMode) && c.memoryMiB > 0
    ensures M.Fold(M.Defaults, BootModeItems(c)) ==
      Ok(M.Defaults.(boot := M.Boot(BootPart(c).mode, None, None, Some(c.rootImage)),
                     machine := M.Defaults.machine.(memoryMiB := c.memoryMiB)))
  {
    ItoaParses(c.memoryMiB);
    var a := BootModeItems(c);
    FoldThree(M.Defaults, a[0], a[1], a[2]);
  }

  lemma StepCpus(d: M.Draft, n: Int64)
    ensures M.Step(d, Item(Cpus, Itoa(n))) == Ok(d.(machine := d.machine.(cpuCount := n)))
  {
    ItoaParses(n);
  }

  lemma StepAgentPort(d: M.Draft, n: Int64)
    ensures M.Step(d, Item(AgentVsockPort, Itoa(n))) == Ok(d.(machine := d.machine.(agentVsockPort := n)))
  {
    ItoaParses(n);
  }

  lemma FoldAgent(c: VMConfig, d: M.Draft)
    ensures M.Fold(d, AgentItems(c)) ==
      Ok(d.(machine := d.machine.(cpuCount := c.cpus, agentVsockPort := c.agentVsockPort,
                                  agentReadySocketPath := Some(c.agentReadySocketPath))))
  {
    var b := AgentItems(c);
    var d1 := d.(machine := d.machine.(cpuCount := c.cpus));
    StepCpus(d, c.cpus);
    StepAgentPort(d1, c.agentVsockPort);
    FoldThree(d, b[0], b[1], b[2]);
  }

  lemma StepSwitches(d: M.Draft, b: bool)
    ensures M.Step(d, Item(EnableNetwork, FormatBool(b))) == Ok(d.(network := d.network.(enabled := b)))
    ensures M.Step(d, Item(EnableVirtioFS, FormatBool(b))) == Ok(d.(virtioFS := d.virtioFS.(enabled := b)))
  {
    BoolsParse(b);
  }

  lemma FoldSwitches(c: VMConfig, d: M.Draft)
    ensures M.Fold(d, SwitchItems(c)) ==
      match M.ParseNetworkMode(c.networkMode)
      case None => Err(Name(NetworkModeFlag))
      case Some(mode) => Ok(d.(network := d.network.(enabled := c.enableNetwork, mode := mode),
                               virtioFS := d.virtioFS.(enabled := c.enableVirtioFS)))
  {
    var b := SwitchItems(c);
    var d1 := d.(network := d.network.(enabled := c.enableNetwork));
    StepSwitches(d, c.enableNetwork);
    var mode := M.ParseNetworkMode(c.networkMode);
    if mode.Some? { StepSwitches(d1.(network := d1.network.(mode := mode.value)), c.enableVirtioFS); }
    FoldThree(d, b[0], b[1], b[2]);
  }

  /** Only an unknown network mode is rejected. */
  lemma FoldHead(c: VMConfig)
    requires ValidBootMode(c.bootMode) && c.memoryMiB > 0
    ensures M.Fold(M.Defaults, HeadItems(c)) ==
      match M.ParseNetworkMode(c.networkMode)
      case None => Err(Name(NetworkModeFlag))
      case Some(mode) => Ok(AfterHead(c, mode))
  {
    M.FoldConcat(M.Defaults, BootModeItems(c), AgentItems(c));
    M.FoldConcat(M.Defaults, BootModeItems(c) + AgentItems(c), SwitchItems(c));
    FoldBootMode(c);
    var d1 := M.Fold(M.Defaults, BootModeItems(c)).value;
    FoldAgent(c, d1);
    FoldSwitches(c, M.Fold(d1, AgentItems(c)).value);
  }

  lemma FoldOpt(d: M.Draft, items: seq<Item>, flag: Flag, text: string)
    requires M.Fold(d, items).Ok?
    ensures M.Fold(d, items + Opt(flag, text)) ==
      if text == "" then M.Fold(d, items) else M.Set(M.Fold(d, items).value, flag, text)
  {
    if text == "" {
      assert items + [] == items;
    } else {
      M.FoldSnoc(d, items, Item(flag, text));
    }
  }

  function SetVirtioFS(v: M.VirtioFS, flag: Flag, text: string): M.VirtioFS {
    if text == "" then v
    else match flag
         case VirtioFSHostDir => v.(hostDir := Some(text))
         case VirtioFSTag => v.(tag := Some(text))
         case VirtioFSMountPoint => v.(mountPoint := Some(text))
         case OverlayStateDevice => v.(device := Some(text))
         case _ => v.(overlayMount := Some(text))
  }

  lemma FoldMount(d: M.Draft, items: seq<Item>, v: M.VirtioFS, flag: Flag, text: string)
    requires M.Fold(d, items) == Ok(d.(virtioFS := v))
    requires flag.VirtioFSHostDir? || flag.VirtioFSTag? || flag.VirtioFSMountPoint? || flag.OverlayStateDevice?
             || flag.OverlayStateMount?
    ensures M.Fold(d, items + Opt(flag, text)) == Ok(d.(virtioFS := SetVirtioFS(v, flag, text)))
  {
    FoldOpt(d, items, flag, text);
  }

  /** The five optional mount arguments touch the virtiofs group alone. */
  function MountsSet(v: M.VirtioFS, c: VMConfig): M.VirtioFS {
    var v1 := SetVirtioFS(v, VirtioFSHostDir, c.virtioFSHostDir);
    var v2 := SetVirtioFS(v1, VirtioFSTag, c.virtioFSTag);
    var v3 := SetVirtioFS(v2, VirtioFSMountPoint, c.virtioFSMountPoint);
    var v4 := SetVirtioFS(v3, OverlayStateDevice, c.overlayStateDevice);
    SetVirtioFS(v4, OverlayStateMount, c.overlayStateMount)
  }

  lemma MountsSetAll(c: VMConfig)
    ensures MountsSet(M.VirtioFS(c.enableVirtioFS, None, None, None, None, None), c) == VirtioFSPart(c)
  {}

  lemma FoldMounts(c: VMConfig, d: M.Draft)
    ensures M.Fold(d, MountItems(c)) == Ok(d.(virtioFS := MountsSet(d.virtioFS, c)))
  {
    var items, v := [], d.virtioFS;
    FoldMount(d, items, v, VirtioFSHostDir, c.virtioFSHostDir);
    items, v := items + Opt(VirtioFSHostDir, c.virtioFSHostDir), SetVirtioFS(v, VirtioFSHostDir, c.virtioFSHostDir);
    FoldMount(d, items, v, VirtioFSTag, c.virtioFSTag);
    items, v := items + Opt(VirtioFSTag, c.virtioFSTag), SetVirtioFS(v, VirtioFSTag, c.virtioFSTag);
    FoldMount(d, items, v, VirtioFSMountPoint, c.virtioFSMountPoint);
    items := items + Opt(VirtioFSMountPoint, c.virtioFSMountPoint);
    v := SetVirtioFS(v, VirtioFSMountPoint, c.virtioFSMountPoint);
    FoldMount(d, items, v, OverlayStateDevice, c.overlayStateDevice);
    items := items + Opt(OverlayStateDevice, c.overlayStateDevice);
    v := SetVirtioFS(v, OverlayStateDevice, c.overlayStateDevice);
    FoldMount(d, items, v, OverlayStateMount, c.overlayStateMount);
  }

  lemma StepDisk(d: M.Draft, path: string)
    ensures M.Step(d, Item(ExtraDisk, path)) ==
      Ok(d.(machine := d.machine.(extraDiskPaths := d.machine.extraDiskPaths + [path])))
  {}

  lemma StepPort(d: M.Draft, port: Int64)
    requires port > 0
    ensures M.Step(d, Item(ProxyVsockPort, Itoa(port))) ==
      Ok(d.(machine := d.machine.(proxyVsockPorts := d.machine.proxyVsockPorts + [port])))
  {
    ItoaParses(port);
  }

  lemma {:induction false} FoldDisks(d: M.Draft, paths: seq<string>)
    requires d.machine.extraDiskPaths == []
    ensures M.Fold(d, DiskItems(paths)) == Ok(d.(machine := d.machine.(extraDiskPaths := paths)))
  {
    if paths != [] {
      var init, last := paths[..|paths| - 1], paths[|paths| - 1];
      FoldDisks(d, init);
      M.FoldSnoc(d, DiskItems(init), Item(ExtraDisk, last));
      StepDisk(d.(machine := d.machine.(extraDiskPaths := init)), last);
      assert init + [last] == paths;
    }
  }

  lemma {:induction false} FoldPorts(d: M.Draft, ports: seq<Int64>)
    requires d.machine.proxyVsockPorts == [] && forall i :: 0 <= i < |ports| ==> ports[i] > 0
    ensures M.Fold(d, PortItems(ports)) == Ok(d.(machine := d.machine.(proxyVsockPorts := ports)))
  {
    if ports != [] {
      var init, last := ports[..|ports| - 1], ports[|ports| - 1];
      FoldPorts(d, init);
      M.FoldSnoc(d, PortItems(init), Item(ProxyVsockPort, Itoa(last)));
      StepPort(d.(machine := d.machine.(proxyVsockPorts := init)), last);
      PortAppended(d, init, last, ports);
    }
  }

  lemma PortAppended(d: M.Draft, init: seq<Int64>, last: Int64, ports: seq<Int64>)
    requires ports == init + [last]
    ensures var d1 := d.(machine := d.machine.(proxyVsockPorts := init));
      d1.(machine := d1.machine.(proxyVsockPorts := d1.machine.proxyVsockPorts + [last]))
      == d.(machine := d.machine.(proxyVsockPorts := ports))
  {}

  function SetNetwork(n: M.Network, flag: Flag, text: string): M.Network {
    if text == "" then n
    else match flag
         case BridgeInterface => n.(bridge := Some(text))
         case VmNetworkCIDR => n.(cidr := Some(text))
         case VmNetworkGateway => n.(gateway := Some(text))
         case _ => n.(ifName := Some(text))
  }

  lemma FoldNet(d: M.Draft, items: seq<Item>, n: M.Network, flag: Flag, text: string)
    requires M.Fold(d, items) == Ok(d.(network := n))
    requires flag.BridgeInterface? || flag.VmNetworkCIDR? || flag.VmNetworkGateway? || flag.VmNetworkIfName?
    ensures M.Fold(d, items + Opt(flag, text)) == Ok(d.(network := SetNetwork(n, flag, text)))
  {
    FoldOpt(d, items, flag, text);
  }

  function NetworkSet(n: M.Network, c: VMConfig): M.Network {
    var n1 := SetNetwork(n, BridgeInterface, c.bridgeInterface);
    var n2 := SetNetwork(n1, VmNetworkCIDR, c.vmNetworkCIDR);
    var n3 := SetNetwork(n2, VmNetworkGateway, c.vmNetworkGateway);
    SetNetwork(n3, VmNetworkIfName, c.vmNetworkIfName)
  }

  lemma NetworkSetAll(c: VMConfig, mode: M.NetworkMode)
    ensures NetworkSet(M.Network(c.enableNetwork, mode, None, None, None, None), c) == NetworkPart(c, mode)
  {}

  lemma FoldNetwork(c: VMConfig, d: M.Draft)
    ensures M.Fold(d, NetItems(c)) == Ok(d.(network := NetworkSet(d.network, c)))
  {
    var items, n := [], d.network;
    FoldNet(d, items, n, BridgeInterface, c.bridgeInterface);
    items, n := items + Opt(BridgeInterface, c.bridgeInterface), SetNetwork(n, BridgeInterface, c.bridgeInterface);
    FoldNet(d, items, n, VmNetworkCIDR, c.vmNetworkCIDR);
    items, n := items + Opt(VmNetworkCIDR, c.vmNetworkCIDR), SetNetwork(n, VmNetworkCIDR, c.vmNetworkCIDR);
    FoldNet(d, items, n, VmNetworkGateway, c.vmNetworkGateway);
    items, n := items + Opt(VmNetworkGateway, c.vmNetworkGateway), SetNetwork(n, VmNetworkGateway, c.vmNetworkGateway);
    FoldNet(d, items, n, VmNetworkIfName, c.vmNetworkIfName);
  }

  lemma FoldBoot(c: VMConfig, d: M.Draft)
    requires d.boot == M.Boot(BootPart(c).mode, None, None, Some(c.rootImage)) && !d.machine.verbose
    ensures M.Fold(d, BootItems(c)) == Ok(d.(boot := BootPart(c), machine := d.machine.(verbose := c.verbose)))
  {
    if c.bootMode == "linux" {
      M.FoldSnoc(d, [], Item(Kernel, c.kernelPath));
      assert [] + [Item(Kernel, c.kernelPath)] == [Item(Kernel, c.kernelPath)];
    }
    var d1 := d.(boot := d.boot.(kernelPath := BootPart(c).kernelPath));
    assert M.Fold(d, KernelItems(c)) == Ok(d1);
    FoldOpt(d, KernelItems(c), Initrd, c.initrdPath);
    var items := KernelItems(c) + Opt(Initrd, c.initrdPath);
    assert M.Fold(d, items) == Ok(d1.(boot := BootPart(c)));
    M.FoldSnoc(d, items, Verbose);
    assert items + [] == items;
  }

  lemma FoldAll(c: VMConfig)
    requires ValidBootMode(c.bootMode) && c.memoryMiB > 0
    requires forall i :: 0 <= i < |c.proxyVsockPorts| ==> c.proxyVsockPorts[i] > 0
    ensures M.Fold(M.Defaults, Items(c)) ==
      match M.ParseNetworkMode(c.networkMode)
      case None => Err(Name(NetworkModeFlag))
      case Some(mode) => Ok(Expected(c, mode))
  {
    var a, b, r, n := HeadItems(c), MountItems(c), RepeatedItems(c), NetItems(c);
    FoldHead(c);
    M.FoldConcat(M.Defaults, a, b);
    M.FoldConcat(M.Defaults, a + b, r);
    M.FoldConcat(M.Defaults, a + b + r, n);
    M.FoldConcat(M.Defaults, a + b + r + n, BootItems(c));
    if M.ParseNetworkMode(c.networkMode).Some? {
      var d := AfterHead(c, M.ParseNetworkMode(c.networkMode).value);
      FoldMounts(c, d);
      MountsSetAll(c);
      d := d.(virtioFS := VirtioFSPart(c));
      M.FoldConcat(d, DiskItems(c.extraDiskPaths), PortItems(c.proxyVsockPorts));
      FoldDisks(d, c.extraDiskPaths);
      d := d.(machine := d.machine.(extraDiskPaths := c.extraDiskPaths));
      FoldPorts(d, c.proxyVsockPorts);
      d := d.(machine := d.machine.(proxyVsockPorts := c.proxyVsockPorts));
      FoldNetwork(c, d);
      NetworkSetAll(c, d.network.mode);
      d := d.(network := NetworkPart(c, d.network.mode));
      FoldBoot(c, d);
    }
  }

  /**
    The argument round trip, exactly: for every configuration the runner accepts, the manager
    parses the printed arguments if and only if the network mode is empty or one of the three known
    ones - which validation checks only when networking is on - and then it has every field of the
    configuration.
  */
  lemma ArgumentsRoundTrip(config: VMConfig, net: NetIP)
    requires ArgsOf(config, net).Ok?
    ensures var c := WithNetworkMode(WithBootMode(config));
      M.Parse(ArgsOf(config, net).value, M.Defaults) ==
        match M.ParseNetworkMode(c.networkMode)
        case None => M.Thrown(Name(NetworkModeFlag))
        case Some(mode) => M.Parsed(Expected(c, mode))
    ensures M.Parse(ArgsOf(config, net).value, M.Defaults).Parsed? <==>
      config.networkMode == "" || ValidNetworkMode(config.networkMode)
  {
    var c := WithNetworkMode(WithBootMode(config));
    AcceptedConfig(config, net);
    M.ParseRender(Items(c), M.Defaults);
    FoldAll(c);
  }

  lemma AcceptedConfig(config: VMConfig, net: NetIP)
    requires ArgsOf(config, net).Ok?
    ensures var c := WithNetworkMode(WithBootMode(config));
      && ArgsOf(config, net).value == Render(Items(c))
      && ValidBootMode(c.bootMode) && c.memoryMiB > 0
      && (forall i :: 0 <= i < |c.proxyVsockPorts| ==> c.proxyVsockPorts[i] > 0)
      && (M.ParseNetworkMode(c.networkMode).Some? <==> config.networkMode == "" || ValidNetworkMode(config.networkMode))
  {}

  /** Field by field, in terms of the configuration as it was given. */
  lemma ParsedFields(config: VMConfig, net: NetIP, m: M.Draft)
    requires ArgsOf(config, net).Ok? && M.Parse(ArgsOf(config, net).value, M.Defaults) == M.Parsed(m)
    ensures m.boot.mode == if config.bootMode == "efi" then M.Efi else M.Linux
    ensures m.boot.kernelPath == if config.bootMode == "efi" then None else Some(config.kernelPath)
    ensures m.boot.rootImagePath == Some(config.rootImage)
    ensures m.network.mode ==
      if config.networkMode == "nat" then M.Nat else if config.networkMode == "bridged" then M.Bridged else M.HostOnly
    ensures m.network.enabled == config.enableNetwork && m.virtioFS.enabled == config.enableVirtioFS
    ensures m.machine == M.Machine(config.extraDiskPaths, config.memoryMiB, config.cpus, config.agentVsockPort,
                                   config.proxyVsockPorts, Some(config.agentReadySocketPath), config.verbose)
    ensures m.virtioFS.tag == NonEmpty(config.virtioFSTag) && m.virtioFS.hostDir == NonEmpty(config.virtioFSHostDir)
    ensures m.virtioFS.mountPoint == NonEmpty(config.virtioFSMountPoint)
    ensures m.virtioFS.device == NonEmpty(config.overlayStateDevice)
    ensures m.virtioFS.overlayMount == NonEmpty(config.overlayStateMount)
    ensures m.network.bridge == NonEmpty(config.bridgeInterface) && m.network.cidr == NonEmpty(config.vmNetworkCIDR)
    ensures m.network.gateway == NonEmpty(config.vmNetworkGateway) && m.network.ifName == NonEmpty(config.vmNetworkIfName)
  {
    ArgumentsRoundTrip(config, net);
    AcceptedModes(config, net);
    ModesParse(config);
    ExpectedFields(config, m.network.mode);
  }

  lemma AcceptedModes(config: VMConfig, net: NetIP)
    requires ArgsOf(config, net).Ok?
    ensures config.bootMode == "" || config.bootMode == "linux" || config.bootMode == "efi"
  {
    AcceptedExactly(config, net);
  }

  lemma ExpectedFields(config: VMConfig, mode: M.NetworkMode)
    requires config.bootMode == "" || config.bootMode == "linux" || config.bootMode == "efi"
    ensures var m := Expected(WithNetworkMode(WithBootMode(config)), mode);
      && m.boot.mode == (if config.bootMode == "efi" then M.Efi else M.Linux)
      && m.boot.kernelPath == (if config.bootMode == "efi" then None else Some(config.kernelPath))
      && m.boot.rootImagePath == Some(config.rootImage)
      && m.network == NetworkPart(config, mode) && m.machine == MachinePart(config) && m.virtioFS == VirtioFSPart(config)
  {}

  lemma ModesParse(config: VMConfig)
    ensures var c := WithNetworkMode(WithBootMode(config));
      && (config.networkMode == "" ==> M.ParseNetworkMode(c.networkMode) == Some(M.HostOnly))
      && (config.networkMode == "nat" ==> M.ParseNetworkMode(c.networkMode) == Some(M.Nat))
      && (config.networkMode == "bridged" ==> M.ParseNetworkMode(c.networkMode) == Some(M.Bridged))
      && (config.networkMode == "hostonly" ==> M.ParseNetworkMode(c.networkMode) == Some(M.HostOnly))
  {}
}
