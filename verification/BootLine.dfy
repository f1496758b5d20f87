/**
  The whole configuration pipeline: runner, argument vector, manager, kernel command line, agent.
*/
module BootLine {
  import opened Prelude
  import opened Text
  import opened VmConfig
  import opened RoundTrip
  import opened AgentCmdline
  import M = Manager

  /** What the agent acts on. */
  datatype Guest = Guest(
    port: int, virtioFS: bool, tag: string, mountPoint: string, device: string, overlayMount: string)

  /** What the agent reads from a command line, given its environment. */
  function GuestOf(envPort: string, args: seq<string>): Guest {
    Guest(LastNumber(args, PORT_KEY, if envPort != "" then NumberOr(envPort, 7000) else 7000), VirtioFSEnabled(args),
          VirtioFSTag(args), VirtioFSMountPoint(args), ContainerWritableDiskDevice(args), OverlayStateMountPoint(args))
  }

  function IfOn(on: bool, value: string, default: string): string { if on && value != "" then value else default }

  /** What the runner's configuration asks for. */
  function Intended(c: VMConfig): Guest {
    var on := c.enableVirtioFS;
    Guest(c.agentVsockPort, on, IfOn(on, c.virtioFSTag, DEFAULT_TAG), IfOn(on, c.virtioFSMountPoint, DEFAULT_MOUNT),
          IfOn(on, c.overlayStateDevice, DEFAULT_DEVICE), IfOn(on, c.overlayStateMount, DEFAULT_OVERLAY))
  }

  // Keys none of which is a prefix of another.

  lemma KeyAvoids(key: string, value: Option<string>, other: string, i: nat)
    requires i < |key| && i < |other| && key[i] != other[i]
    ensures Avoids(M.Key(key, value), other)
  {
    if value.Some? { assert (key + value.value)[i] == key[i]; }
  }

  /** A lookup among tokens that occur once. */
  lemma KeyIsRead(before: seq<string>, key: string, value: Option<string>, after: seq<string>, default: string)
    requires Avoids(before, key) && Avoids(after, key) && (value.Some? ==> NoSpace(value.value))
    ensures FirstValue(before + M.Key(key, value) + after, key, default) ==
      if value.Some? && value.value != "" then value.value else default
  {
    if value.Some? {
      FirstValueFinds(before, key, value.value, after, default);
    } else {
      FirstValueFinds(before, key, "", after, default);
    }
    assert before + [] == before;
  }

  // The fields of the command line.

  function FixedFields(): seq<string> {
    ["console=hvc0", "loglevel=7", "printk.time=1", "root=/dev/vda", "rw", "init=/sbin/agent"]
  }

  lemma FieldsOfTwoWords(a: string, b: string)
    requires NoSpace(a) && NoSpace(b) && a != "" && b != ""
    ensures FieldsOfAll([a + [' '] + b]) == [a, b]
  {
    ScanSplits("", a, ' ', b);
    FieldsOfWord(a);
    FieldsOfWord(b);
    assert [a + [' '] + b][1..] == [];
  }

  function ThreeFixed(): seq<string> { ["console=hvc0"] + ["loglevel=7"] + ["printk.time=1"] }

  lemma ConsoleIsAWord()
    ensures FieldsOfAll(["console=hvc0"]) == ["console=hvc0"]
  {
    FieldsOfWord("console=hvc0");
  }

  lemma LogLevelIsAWord()
    ensures FieldsOfAll(["loglevel=7"]) == ["loglevel=7"]
  {
    FieldsOfWord("loglevel=7");
  }

  lemma PrintkIsAWord()
    ensures FieldsOfAll(["printk.time=1"]) == ["printk.time=1"]
  {
    FieldsOfWord("printk.time=1");
  }

  lemma ThreeFixedAreWords()
    ensures FieldsOfAll(ThreeFixed()) == ThreeFixed()
  {
    ConsoleIsAWord();
    LogLevelIsAWord();
    PrintkIsAWord();
    Glue(["console=hvc0"], ["loglevel=7"], ["printk.time=1"], ["loglevel=7"]);
  }

  lemma RootIsTwoFields()
    ensures FieldsOfAll(["root=/dev/vda rw"]) == ["root=/dev/vda", "rw"]
  {
    FieldsOfTwoWords("root=/dev/vda", "rw");
    assert "root=/dev/vda" + [' '] + "rw" == "root=/dev/vda rw";
  }

  lemma InitIsAWord()
    ensures FieldsOfAll(["init=/sbin/agent"]) == ["init=/sbin/agent"]
  {
    FieldsOfWord("init=/sbin/agent");
  }

  lemma FixedTokensGroup()
    ensures M.FixedTokens() == ThreeFixed() + ["root=/dev/vda rw"] + ["init=/sbin/agent"]
  {}

  lemma FixedFieldsGroup()
    ensures FixedFields() == ThreeFixed() + ["root=/dev/vda", "rw"] + ["init=/sbin/agent"]
  {}

  lemma FixedTokensSplit()
    ensures FieldsOfAll(M.FixedTokens()) == FixedFields()
  {
    ThreeFixedAreWords();
    RootIsTwoFields();
    InitIsAWord();
    Glue(ThreeFixed(), ["root=/dev/vda rw"], ["init=/sbin/agent"], ["root=/dev/vda", "rw"]);
    FixedTokensGroup();
    FixedFieldsGroup();
  }

  lemma Glue(a: seq<string>, b: seq<string>, c: seq<string>, words: seq<string>)
    requires FieldsOfAll(a) == a && FieldsOfAll(b) == words && FieldsOfAll(c) == c
    ensures FieldsOfAll(a + b + c) == a + words + c
  {
    FieldsOfAllConcat(a, b);
    FieldsOfAllConcat(a + b, c);
  }

  /** A token without white space is one field. */
  lemma KeyIsAField(key: string, value: Option<string>)
    requires NoSpace(key) && key != "" && (value.Some? ==> NoSpace(value.value))
    ensures FieldsOfAll(M.Key(key, value)) == M.Key(key, value)
  {
    if value.Some? && value.value != "" { FieldsOfWord(key + value.value); }
  }

  predicate Spaceless(value: Option<string>) { value.Some? ==> NoSpace(value.value) }

  predicate VirtioFSSpaceless(v: M.VirtioFS) {
    Spaceless(v.tag) && Spaceless(v.mountPoint) && Spaceless(v.device) && Spaceless(v.overlayMount)
  }

  const CIDR_KEY: string := "agent.network_cidr="
  const GATEWAY_KEY: string := "agent.network_gateway="
  const IFNAME_KEY: string := "agent.network_ifname="

  const ENABLED: string := "agent.virtiofs=1"

  function EnabledTokens(tag: Option<string>): seq<string> { if tag.Some? && tag.value != "" then [ENABLED] else [] }

  function OverlayTokens(v: M.VirtioFS): seq<string> {
    M.Key(DEVICE_KEY, v.device) + M.Key(OVERLAY_KEY, v.overlayMount)
  }

  function MountTokens(v: M.VirtioFS): seq<string> {
    EnabledTokens(v.tag) + M.Key(TAG_KEY, v.tag) + M.Key(MOUNT_KEY, v.mountPoint)
  }

  lemma VirtioFSGroups(c: M.Draft)
    ensures M.VirtioFSTokens(c) == MountTokens(c.virtioFS) + OverlayTokens(c.virtioFS)
  {}

  lemma EnabledIsAField(tag: Option<string>)
    ensures FieldsOfAll(EnabledTokens(tag)) == EnabledTokens(tag)
  {
    assert NoSpace(ENABLED) by { EnabledIsAWord(); }
    FieldsOfWord(ENABLED);
  }

  lemma EnabledIsAWord()
    ensures NoSpace(ENABLED)
  {}

  lemma TagIsAField(v: M.VirtioFS)
    requires VirtioFSSpaceless(v)
    ensures FieldsOfAll(M.Key(TAG_KEY, v.tag)) == M.Key(TAG_KEY, v.tag)
    ensures FieldsOfAll(M.Key(MOUNT_KEY, v.mountPoint)) == M.Key(MOUNT_KEY, v.mountPoint)
  {
    KeyIsAField(TAG_KEY, v.tag);
    KeyIsAField(MOUNT_KEY, v.mountPoint);
  }

  lemma OverlayFields(v: M.VirtioFS)
    requires VirtioFSSpaceless(v)
    ensures FieldsOfAll(OverlayTokens(v)) == OverlayTokens(v)
  {
    KeyIsAField(DEVICE_KEY, v.device);
    KeyIsAField(OVERLAY_KEY, v.overlayMount);
    FieldsOfAllConcat(M.Key(DEVICE_KEY, v.device), M.Key(OVERLAY_KEY, v.overlayMount));
  }

  lemma VirtioFSFields(c: M.Draft)
    requires VirtioFSSpaceless(c.virtioFS)
    ensures FieldsOfAll(M.VirtioFSTokens(c)) == M.VirtioFSTokens(c)
  {
    var v := c.virtioFS;
    EnabledIsAField(v.tag);
    TagIsAField(v);
    OverlayFields(v);
    VirtioFSGroups(c);
    Glue(EnabledTokens(v.tag), M.Key(TAG_KEY, v.tag), M.Key(MOUNT_KEY, v.mountPoint), M.Key(TAG_KEY, v.tag));
    FieldsOfAllConcat(MountTokens(v), OverlayTokens(v));
  }

  function PortField(c: M.Draft): string { PORT_KEY + Itoa(c.machine.agentVsockPort) }

  /** The part of the line before the network tokens, as the guest sees it. */
  function Lead(c: M.Draft): seq<string> { FixedFields() + [PortField(c)] }

  /** The words that the network values put on the line. */
  function NetworkFields(c: M.Draft): seq<string> {
    if c.network.enabled then FieldsOfAll(M.NetworkTokens(c)) else []
  }

  function MountFields(c: M.Draft): seq<string> { if c.virtioFS.enabled then M.VirtioFSTokens(c) else [] }

  lemma LineFields(c: M.Draft)
    requires c.virtioFS.enabled ==> VirtioFSSpaceless(c.virtioFS)
    ensures Fields(Join(M.Tokens(c))) == Lead(c) + NetworkFields(c) + MountFields(c)
  {
    FieldsOfJoin(M.Tokens(c));
    FixedTokensSplit();
    PortIsAField(c);
    if c.virtioFS.enabled { VirtioFSFields(c); }
    LineGroups(M.FixedTokens(), [PortField(c)], if c.network.enabled then M.NetworkTokens(c) else [], MountFields(c));
  }

  lemma PortIsAField(c: M.Draft)
    ensures FieldsOfAll([PortField(c)]) == [PortField(c)]
  {
    ItoaParses(c.machine.agentVsockPort);
    FieldsOfWord(PortField(c));
  }

  lemma LineGroups(a: seq<string>, b: seq<string>, c: seq<string>, d: seq<string>)
    ensures FieldsOfAll(a + b + c + d) == FieldsOfAll(a) + FieldsOfAll(b) + FieldsOfAll(c) + FieldsOfAll(d)
  {
    FieldsOfAllConcat(a, b);
    FieldsOfAllConcat(a + b, c);
    FieldsOfAllConcat(a + b + c, d);
  }

  // Looking keys up in it.

  /** The keys of the virtiofs group, told from every other by their seventh and eighth letters. */
  predicate GroupKey(key: string) { |key| > 7 && key[0] == 'a' && (key[6] == 'o' || (key[6] == 'v' && key[7] == 'i')) }

  lemma FixedAvoids(key: string)
    requires |key| > 0 && key[0] == 'a'
    ensures Avoids(FixedFields(), key)
  {}

  lemma LeadAvoids(c: M.Draft, key: string)
    requires GroupKey(key)
    ensures Avoids(Lead(c), key)
  {
    FixedAvoids(key);
    PortAvoids(c, key);
  }

  lemma PortAvoids(c: M.Draft, key: string)
    requires GroupKey(key)
    ensures Avoids([PortField(c)], key)
  {
    var p := PORT_KEY;
    assert p[6] == 'v' && p[7] == 's';
    assert PortField(c)[6] == p[6] && PortField(c)[7] == p[7];
  }

  /** The port comes back modulo 2^32. */
  lemma PortIsRead(c: M.Draft, start: int)
    requires MIN_INT64 <= c.machine.agentVsockPort <= MAX_INT64
    ensures LastNumber(Lead(c), PORT_KEY, start) == ToUInt32(c.machine.agentVsockPort)
  {
    assert Lead(c)[..|Lead(c)| - 1] == FixedFields();
    assert PortField(c)[|PORT_KEY|..] == Itoa(c.machine.agentVsockPort);
    ItoaParses(c.machine.agentVsockPort);
  }

  lemma AvoidsBoth(a: seq<string>, b: seq<string>, key: string)
    requires Avoids(a, key) && Avoids(b, key)
    ensures Avoids(a + b, key)
  {}

  lemma EnabledAvoids(tag: Option<string>, key: string, i: nat)
    requires i < |key| && i < |ENABLED| && key[i] != ENABLED[i]
    ensures Avoids(EnabledTokens(tag), key)
  {}

  lemma TagIsRead(lead: seq<string>, v: M.VirtioFS)
    requires Avoids(lead, TAG_KEY) && VirtioFSSpaceless(v)
    ensures VirtioFSTag(lead + (MountTokens(v) + OverlayTokens(v))) ==
      if v.tag.Some? && v.tag.value != "" then v.tag.value else DEFAULT_TAG
  {
    var e, t, m, o := EnabledTokens(v.tag), M.Key(TAG_KEY, v.tag), M.Key(MOUNT_KEY, v.mountPoint), OverlayTokens(v);
    EnabledAvoids(v.tag, TAG_KEY, 14);
    KeyAvoids(MOUNT_KEY, v.mountPoint, TAG_KEY, 15);
    KeyAvoids(DEVICE_KEY, v.device, TAG_KEY, 6);
    KeyAvoids(OVERLAY_KEY, v.overlayMount, TAG_KEY, 6);
    AvoidsBoth(lead, e, TAG_KEY);
    AvoidsBoth(m, o, TAG_KEY);
    KeyIsRead(lead + e, TAG_KEY, v.tag, m + o, DEFAULT_TAG);
    assert lead + (e + t + m + o) == lead + e + t + (m + o);
  }

  lemma ReadBetween(lead: seq<string>, e: seq<string>, t: seq<string>, key: string, value: Option<string>, o: seq<string>,
                    default: string)
    requires Avoids(lead, key) && Avoids(e, key) && Avoids(t, key) && Avoids(o, key) && Spaceless(value)
    ensures FirstValue(lead + (e + t + M.Key(key, value) + o), key, default) ==
      if value.Some? && value.value != "" then value.value else default
  {
    AvoidsBoth(lead, e, key);
    AvoidsBoth(lead + e, t, key);
    KeyIsRead(lead + e + t, key, value, o, default);
    assert lead + (e + t + M.Key(key, value) + o) == lead + e + t + M.Key(key, value) + o;
  }

  lemma MountPointIsRead(lead: seq<string>, v: M.VirtioFS)
    requires Avoids(lead, MOUNT_KEY) && VirtioFSSpaceless(v)
    ensures VirtioFSMountPoint(lead + (MountTokens(v) + OverlayTokens(v))) ==
      if v.mountPoint.Some? && v.mountPoint.value != "" then v.mountPoint.value else DEFAULT_MOUNT
  {
    EnabledAvoids(v.tag, MOUNT_KEY, 14);
    KeyAvoids(TAG_KEY, v.tag, MOUNT_KEY, 15);
    KeyAvoids(DEVICE_KEY, v.device, MOUNT_KEY, 6);
    KeyAvoids(OVERLAY_KEY, v.overlayMount, MOUNT_KEY, 6);
    AvoidsBoth(M.Key(DEVICE_KEY, v.device), M.Key(OVERLAY_KEY, v.overlayMount), MOUNT_KEY);
    ReadBetween(lead, EnabledTokens(v.tag), M.Key(TAG_KEY, v.tag), MOUNT_KEY, v.mountPoint, OverlayTokens(v), DEFAULT_MOUNT);
  }

  lemma MountsAvoid(v: M.VirtioFS, key: string)
    requires |key| > 6 && key[6] == 'o'
    ensures Avoids(MountTokens(v), key)
  {
    EnabledAvoids(v.tag, key, 6);
    KeyAvoids(TAG_KEY, v.tag, key, 6);
    KeyAvoids(MOUNT_KEY, v.mountPoint, key, 6);
  }

  lemma DeviceIsRead(lead: seq<string>, v: M.VirtioFS)
    requires Avoids(lead, DEVICE_KEY) && VirtioFSSpaceless(v)
    ensures ContainerWritableDiskDevice(lead + (MountTokens(v) + OverlayTokens(v))) ==
      if v.device.Some? && v.device.value != "" then v.device.value else DEFAULT_DEVICE
  {
    var m, d, o := MountTokens(v), M.Key(DEVICE_KEY, v.device), M.Key(OVERLAY_KEY, v.overlayMount);
    MountsAvoid(v, DEVICE_KEY);
    KeyAvoids(OVERLAY_KEY, v.overlayMount, DEVICE_KEY, 14);
    AvoidsBoth(lead, m, DEVICE_KEY);
    KeyIsRead(lead + m, DEVICE_KEY, v.device, o, DEFAULT_DEVICE);
    assert lead + (m + (d + o)) == lead + m + d + o;
  }

  lemma OverlayIsRead(lead: seq<string>, v: M.VirtioFS)
    requires Avoids(lead, OVERLAY_KEY) && VirtioFSSpaceless(v)
    ensures OverlayStateMountPoint(lead + (MountTokens(v) + OverlayTokens(v))) ==
      if v.overlayMount.Some? && v.overlayMount.value != "" then v.overlayMount.value else DEFAULT_OVERLAY
  {
    var m, d, o := MountTokens(v), M.Key(DEVICE_KEY, v.device), M.Key(OVERLAY_KEY, v.overlayMount);
    MountsAvoid(v, OVERLAY_KEY);
    KeyAvoids(DEVICE_KEY, v.device, OVERLAY_KEY, 14);
    AvoidsBoth(lead, m, OVERLAY_KEY);
    AvoidsBoth(lead + m, d, OVERLAY_KEY);
    KeyIsRead(lead + m + d, OVERLAY_KEY, v.overlayMount, [], DEFAULT_OVERLAY);
    assert lead + (m + (d + o)) == lead + m + d + o + [];
  }

  lemma GroupAvoidsPort(v: M.VirtioFS)
    ensures Avoids(MountTokens(v) + OverlayTokens(v), PORT_KEY)
  {
    EnabledAvoids(v.tag, PORT_KEY, 7);
    KeyAvoids(TAG_KEY, v.tag, PORT_KEY, 7);
    KeyAvoids(MOUNT_KEY, v.mountPoint, PORT_KEY, 7);
    KeyAvoids(DEVICE_KEY, v.device, PORT_KEY, 6);
    KeyAvoids(OVERLAY_KEY, v.overlayMount, PORT_KEY, 6);
  }

  lemma NotEnabledInLead(c: M.Draft)
    ensures !VirtioFSEnabled(Lead(c))
  {
    LeadAvoids(c, ENABLED);
    LeadAvoids(c, "agent.virtiofs=true");
  }

  function Or(value: Option<string>, default: string): string {
    if value.Some? && value.value != "" then value.value else default
  }

  function Mounts(c: M.Draft): M.VirtioFS {
    if c.virtioFS.enabled then c.virtioFS else M.VirtioFS(false, None, None, None, None, None)
  }

  /** What the port and the virtiofs tokens say, with the agent's defaults. */
  function Own(c: M.Draft): Guest {
    var v := Mounts(c);
    Guest(ToUInt32(c.machine.agentVsockPort), v.enabled, Or(v.tag, DEFAULT_TAG), Or(v.mountPoint, DEFAULT_MOUNT),
          Or(v.device, DEFAULT_DEVICE), Or(v.overlayMount, DEFAULT_OVERLAY))
  }

  /** What is left of that when other words stand between the port and the virtiofs tokens. */
  function Told(words: seq<string>, g: Guest): Guest {
    Guest(LastNumber(words, PORT_KEY, g.port), VirtioFSEnabled(words) || g.virtioFS, FirstValue(words, TAG_KEY, g.tag),
          FirstValue(words, MOUNT_KEY, g.mountPoint), FirstValue(words, DEVICE_KEY, g.device),
          FirstValue(words, OVERLAY_KEY, g.overlayMount))
  }

  /** What the guest reads when the virtiofs values hold no white space, whatever the network values hold. */
  lemma GuestReads(c: M.Draft, envPort: string)
    requires MIN_INT64 <= c.machine.agentVsockPort <= MAX_INT64
    requires c.virtioFS.enabled ==> VirtioFSSpaceless(c.virtioFS) && c.virtioFS.tag.Some? && c.virtioFS.tag.value != ""
    ensures GuestOf(envPort, Fields(Join(M.Tokens(c)))) == Told(NetworkFields(c), Own(c))
  {
    LineFields(c);
    GuestPort(c, if envPort != "" then NumberOr(envPort, 7000) else 7000);
    GuestSwitch(c);
    MountsAreRead(c);
    GroupKeys();
    GuestValue(c, TAG_KEY, DEFAULT_TAG);
    GuestValue(c, MOUNT_KEY, DEFAULT_MOUNT);
    GuestValue(c, DEVICE_KEY, DEFAULT_DEVICE);
    GuestValue(c, OVERLAY_KEY, DEFAULT_OVERLAY);
  }

  lemma GuestPort(c: M.Draft, start: int)
    requires MIN_INT64 <= c.machine.agentVsockPort <= MAX_INT64
    ensures LastNumber(Lead(c) + NetworkFields(c) + MountFields(c), PORT_KEY, start) ==
      LastNumber(NetworkFields(c), PORT_KEY, ToUInt32(c.machine.agentVsockPort))
  {
    VirtioFSGroups(c);
    GroupAvoidsPort(c.virtioFS);
    LastNumberSkips(Lead(c) + NetworkFields(c), MountFields(c), PORT_KEY, start);
    LastNumberConcat(Lead(c), NetworkFields(c), PORT_KEY, start);
    PortIsRead(c, start);
  }

  lemma GuestSwitch(c: M.Draft)
    requires c.virtioFS.enabled ==> c.virtioFS.tag.Some? && c.virtioFS.tag.value != ""
    ensures VirtioFSEnabled(Lead(c) + NetworkFields(c) + MountFields(c)) <==>
      VirtioFSEnabled(NetworkFields(c)) || c.virtioFS.enabled
  {
    NotEnabledInLead(c);
    VirtioFSGroups(c);
    if c.virtioFS.enabled {
      assert ENABLED in EnabledTokens(c.virtioFS.tag);
      assert ENABLED in MountTokens(c.virtioFS);
    }
  }

  lemma GroupKeys()
    ensures GroupKey(TAG_KEY) && GroupKey(MOUNT_KEY) && GroupKey(DEVICE_KEY) && GroupKey(OVERLAY_KEY)
  {}

  lemma GuestValue(c: M.Draft, key: string, default: string)
    requires GroupKey(key)
    ensures FirstValue(Lead(c) + NetworkFields(c) + MountFields(c), key, default) ==
      FirstValue(NetworkFields(c), key, FirstValue(MountFields(c), key, default))
  {
    LeadAvoids(c, key);
    FirstValueConcat(Lead(c) + NetworkFields(c), MountFields(c), key, default);
    FirstValueSkips(Lead(c), NetworkFields(c), key, FirstValue(MountFields(c), key, default));
  }

  lemma MountsAreRead(c: M.Draft)
    requires c.virtioFS.enabled ==> VirtioFSSpaceless(c.virtioFS)
    ensures FirstValue(MountFields(c), TAG_KEY, DEFAULT_TAG) == Own(c).tag
    ensures FirstValue(MountFields(c), MOUNT_KEY, DEFAULT_MOUNT) == Own(c).mountPoint
    ensures FirstValue(MountFields(c), DEVICE_KEY, DEFAULT_DEVICE) == Own(c).device
    ensures FirstValue(MountFields(c), OVERLAY_KEY, DEFAULT_OVERLAY) == Own(c).overlayMount
  {
    if c.virtioFS.enabled {
      var group := MountTokens(c.virtioFS) + OverlayTokens(c.virtioFS);
      VirtioFSGroups(c);
      assert [] + group == group;
      TagIsRead([], c.virtioFS);
      MountPointIsRead([], c.virtioFS);
      DeviceIsRead([], c.virtioFS);
      OverlayIsRead([], c.virtioFS);
    }
  }

  /** Whatever is on the line, the agent's values are single words and its port has 32 bits. */
  lemma GuestReadsWords(line: string, envPort: string)
    ensures var g := GuestOf(envPort, Fields(line));
      0 <= g.port < TWO_32 && NoSpace(g.tag) && NoSpace(g.mountPoint) && NoSpace(g.device) && NoSpace(g.overlayMount)
  {
    var args := Fields(line);
    ScanFindsWords("", line);
    TagDefaultIsAWord();
    MountDefaultIsAWord();
    DeviceDefaultIsAWord();
    OverlayDefaultIsAWord();
    FirstValueIsAWord(args, TAG_KEY, DEFAULT_TAG);
    FirstValueIsAWord(args, MOUNT_KEY, DEFAULT_MOUNT);
    FirstValueIsAWord(args, DEVICE_KEY, DEFAULT_DEVICE);
    FirstValueIsAWord(args, OVERLAY_KEY, DEFAULT_OVERLAY);
    LastNumberIsUInt32(args, PORT_KEY, if envPort != "" then NumberOr(envPort, 7000) else 7000);
  }

  lemma TagDefaultIsAWord()
    ensures NoSpace(DEFAULT_TAG)
  {}

  lemma MountDefaultIsAWord()
    ensures NoSpace(DEFAULT_MOUNT)
  {}

  lemma DeviceDefaultIsAWord()
    ensures NoSpace(DEFAULT_DEVICE)
  {}

  lemma OverlayDefaultIsAWord()
    ensures NoSpace(DEFAULT_OVERLAY)
  {}

  // The composition of all four programs.

  /** The guest that a configuration boots, where a Linux kernel is started at all. */
  function Pipeline(config: VMConfig, net: NetIP, envPort: string): Option<Guest> {
    match ArgsOf(config, net)
    case Err(_) => None
    case Ok(args) =>
      match M.Parse(args, M.Defaults)
      case Parsed(m) =>
        if m.boot.mode.Linux? then Some(GuestOf(envPort, ReadKernelCmdline(Some(Join(M.Tokens(m))), []))) else None
      case _ => None
  }

  predicate NetworkWords(c: VMConfig) {
    NoSpace(c.vmNetworkCIDR) && NoSpace(c.vmNetworkGateway) && NoSpace(c.vmNetworkIfName)
  }

  predicate MountWords(c: VMConfig) {
    NoSpace(c.virtioFSTag) && NoSpace(c.virtioFSMountPoint) && NoSpace(c.overlayStateDevice) && NoSpace(c.overlayStateMount)
  }

  /** The words of the network values, when networking is on. */
  function NetworkTexts(c: VMConfig): seq<string> {
    if c.enableNetwork then
      FieldsOfAll(M.Key(CIDR_KEY, NonEmpty(c.vmNetworkCIDR)) + M.Key(GATEWAY_KEY, NonEmpty(c.vmNetworkGateway))
                  + M.Key(IFNAME_KEY, NonEmpty(c.vmNetworkIfName)))
    else []
  }

  /** None of those words sets one of the agent's keys to something else than it should be. */
  predicate NetworkTellsNothing(c: VMConfig) { Told(NetworkTexts(c), Intended(c)) == Intended(c) }

  /**
    The configuration pipeline, exactly: in linux mode the guest agent acts on what the runner was
    given - port, virtiofs, tag, mount points and device, or its own default where virtiofs is off
    or the field empty - if and only if the network mode is known, the port has 32 bits, the
    virtiofs values have no white space, and no word of a network value sets one of those keys.
  */
  lemma GuestActsOnTheConfiguration(config: VMConfig, net: NetIP, envPort: string)
    requires ArgsOf(config, net).Ok? && (config.bootMode == "" || config.bootMode == "linux")
    ensures Pipeline(config, net, envPort) == Some(Intended(config)) <==>
      && (config.networkMode == "" || ValidNetworkMode(config.networkMode))
      && config.agentVsockPort < TWO_32
      && (config.enableVirtioFS ==> MountWords(config))
      && NetworkTellsNothing(config)
  {
    PipelineBoots(config, net, envPort);
    AcceptedFields(config, net);
    GuestMatches(config, envPort);
  }

  /** The manager's configuration for one the runner accepts. */
  ghost function Booted(config: VMConfig): M.Draft {
    var c := WithNetworkMode(WithBootMode(config));
    var mode := M.ParseNetworkMode(c.networkMode);
    Expected(c, if mode.Some? then mode.value else M.Nat)
  }

  lemma PipelineBoots(config: VMConfig, net: NetIP, envPort: string)
    requires ArgsOf(config, net).Ok? && (config.bootMode == "" || config.bootMode == "linux")
    ensures Pipeline(config, net, envPort) ==
      if config.networkMode == "" || ValidNetworkMode(config.networkMode) then
        Some(GuestOf(envPort, Fields(Join(M.Tokens(Booted(config))))))
      else None
  {
    ArgumentsRoundTrip(config, net);
  }

  lemma BootedGuest(config: VMConfig, envPort: string)
    requires config.enableVirtioFS ==> MountWords(config) && config.virtioFSTag != ""
    ensures GuestOf(envPort, Fields(Join(M.Tokens(Booted(config))))) ==
      Told(NetworkTexts(config), Intended(config).(port := ToUInt32(config.agentVsockPort)))
  {
    GuestReads(Booted(config), envPort);
    IntendedIsOwn(config);
    TextsOfBooted(config);
  }

  lemma TextsOfBooted(config: VMConfig)
    ensures NetworkFields(Booted(config)) == NetworkTexts(config)
  {}

  lemma IntendedIsOwn(config: VMConfig)
    ensures Own(Booted(config)) == Intended(config).(port := ToUInt32(config.agentVsockPort))
  {
    MountsOfBooted(config);
  }

  lemma MountsOfBooted(config: VMConfig)
    ensures Booted(config).virtioFS == VirtioFSPart(config)
    ensures Booted(config).machine.agentVsockPort == config.agentVsockPort
  {}

  lemma GuestMatches(config: VMConfig, envPort: string)
    requires config.agentVsockPort > 0 && (config.enableVirtioFS ==> config.virtioFSTag != "")
    ensures GuestOf(envPort, Fields(Join(M.Tokens(Booted(config))))) == Intended(config) <==>
      config.agentVsockPort < TWO_32 && (config.enableVirtioFS ==> MountWords(config)) && NetworkTellsNothing(config)
  {
    var line := Join(M.Tokens(Booted(config)));
    GuestReadsWords(line, envPort);
    if config.enableVirtioFS && !MountWords(config) {
      WordsMissing(config, GuestOf(envPort, Fields(line)));
    } else {
      BootedGuest(config, envPort);
      PortMatters(GuestOf(envPort, Fields(line)), config);
    }
  }

  lemma PortMatters(g: Guest, c: VMConfig)
    requires c.agentVsockPort > 0 && 0 <= g.port < TWO_32
    requires g == Told(NetworkTexts(c), Intended(c).(port := ToUInt32(c.agentVsockPort)))
    ensures g == Intended(c) <==> c.agentVsockPort < TWO_32 && NetworkTellsNothing(c)
  {
    if c.agentVsockPort < TWO_32 { SamePort(Intended(c), c.agentVsockPort); }
  }

  lemma SamePort(g: Guest, port: int)
    requires g.port == port && 0 <= port < TWO_32
    ensures g.(port := ToUInt32(port)) == g
  {}

  lemma WordsMissing(c: VMConfig, g: Guest)
    requires NoSpace(g.tag) && NoSpace(g.mountPoint) && NoSpace(g.device) && NoSpace(g.overlayMount)
    requires c.enableVirtioFS && !MountWords(c)
    ensures g != Intended(c)
  {}

  lemma AcceptedFields(config: VMConfig, net: NetIP)
    requires ArgsOf(config, net).Ok?
    ensures config.agentVsockPort > 0 && (config.enableVirtioFS ==> config.virtioFSTag != "")
  {}

  // Network values that hold white space, and those that do not.

  lemma CIDRIsAField(value: Option<string>)
    requires Spaceless(value)
    ensures FieldsOfAll(M.Key(CIDR_KEY, value)) == M.Key(CIDR_KEY, value)
  {
    KeyIsAField(CIDR_KEY, value);
  }

  lemma GatewayIsAField(value: Option<string>)
    requires Spaceless(value)
    ensures FieldsOfAll(M.Key(GATEWAY_KEY, value)) == M.Key(GATEWAY_KEY, value)
  {
    KeyIsAField(GATEWAY_KEY, value);
  }

  lemma IfNameIsAField(value: Option<string>)
    requires Spaceless(value)
    ensures FieldsOfAll(M.Key(IFNAME_KEY, value)) == M.Key(IFNAME_KEY, value)
  {
    KeyIsAField(IFNAME_KEY, value);
  }

  predicate AvoidsAll(words: seq<string>) {
    Avoids(words, PORT_KEY) && Avoids(words, TAG_KEY) && Avoids(words, MOUNT_KEY) && Avoids(words, DEVICE_KEY)
    && Avoids(words, OVERLAY_KEY) && !VirtioFSEnabled(words)
  }

  lemma AvoidedWordsTellNothing(words: seq<string>, g: Guest)
    requires AvoidsAll(words)
    ensures Told(words, g) == g
  {
    assert [] + words == words && words + [] == words;
    LastNumberSkips([], words, PORT_KEY, g.port);
    FirstValueSkips(words, [], TAG_KEY, g.tag);
    FirstValueSkips(words, [], MOUNT_KEY, g.mountPoint);
    FirstValueSkips(words, [], DEVICE_KEY, g.device);
    FirstValueSkips(words, [], OVERLAY_KEY, g.overlayMount);
  }

  predicate OtherKey(key: string) { |key| > 6 && key[6] != 'n' }

  lemma NetworkTokensAvoid(cidr: Option<string>, gateway: Option<string>, ifName: Option<string>, key: string)
    requires OtherKey(key)
    ensures Avoids(M.Key(CIDR_KEY, cidr) + M.Key(GATEWAY_KEY, gateway) + M.Key(IFNAME_KEY, ifName), key)
  {
    KeyAvoids(CIDR_KEY, cidr, key, 6);
    KeyAvoids(GATEWAY_KEY, gateway, key, 6);
    KeyAvoids(IFNAME_KEY, ifName, key, 6);
  }

  lemma AgentKeysAreOthers()
    ensures OtherKey(PORT_KEY) && OtherKey(TAG_KEY) && OtherKey(MOUNT_KEY) && OtherKey(DEVICE_KEY) && OtherKey(OVERLAY_KEY)
    ensures OtherKey(ENABLED) && OtherKey("agent.virtiofs=true")
  {}

  lemma NetworkTokensAvoidAll(cidr: Option<string>, gateway: Option<string>, ifName: Option<string>)
    ensures AvoidsAll(M.Key(CIDR_KEY, cidr) + M.Key(GATEWAY_KEY, gateway) + M.Key(IFNAME_KEY, ifName))
  {
    AgentKeysAreOthers();
    NetworkTokensAvoid(cidr, gateway, ifName, PORT_KEY);
    NetworkTokensAvoid(cidr, gateway, ifName, TAG_KEY);
    NetworkTokensAvoid(cidr, gateway, ifName, MOUNT_KEY);
    NetworkTokensAvoid(cidr, gateway, ifName, DEVICE_KEY);
    NetworkTokensAvoid(cidr, gateway, ifName, OVERLAY_KEY);
    NetworkTokensAvoid(cidr, gateway, ifName, ENABLED);
    NetworkTokensAvoid(cidr, gateway, ifName, "agent.virtiofs=true");
  }

  /** Network values without white space never do. */
  lemma NetworkWordsTellNothing(c: VMConfig)
    requires c.enableNetwork ==> NetworkWords(c)
    ensures NetworkTellsNothing(c)
  {
    var cidr, gateway, ifName := NonEmpty(c.vmNetworkCIDR), NonEmpty(c.vmNetworkGateway), NonEmpty(c.vmNetworkIfName);
    if c.enableNetwork {
      CIDRIsAField(cidr);
      GatewayIsAField(gateway);
      IfNameIsAField(ifName);
      Glue(M.Key(CIDR_KEY, cidr), M.Key(GATEWAY_KEY, gateway), M.Key(IFNAME_KEY, ifName), M.Key(GATEWAY_KEY, gateway));
      NetworkTokensAvoidAll(cidr, gateway, ifName);
    }
    AvoidedWordsTellNothing(NetworkTexts(c), Intended(c));
  }

  /**
    An interface name, which validation does not look into, that ends in a blank and the agent's
    port key with another number: the configuration is accepted, and the guest takes that port.
  */
  lemma InterfaceNameSetsThePort(config: VMConfig, net: NetIP, envPort: string, name: string, port: Int64)
    requires ArgsOf(config, net).Ok? && (config.bootMode == "" || config.bootMode == "linux")
    requires config.enableNetwork && 0 <= port < TWO_32 && port != config.agentVsockPort
    requires config.vmNetworkIfName == name + [' '] + (PORT_KEY + Itoa(port))
    requires config.enableVirtioFS ==> MountWords(config)
    ensures Pipeline(config, net, envPort).Some? && Pipeline(config, net, envPort).value.port == port
  {
    PipelineBoots(config, net, envPort);
    AcceptedFields(config, net);
    AcceptedMode(config, net);
    BootedGuest(config, envPort);
    LastWordIsThePort(config, name, port);
  }

  lemma AcceptedMode(config: VMConfig, net: NetIP)
    requires ArgsOf(config, net).Ok? && config.enableNetwork
    ensures config.networkMode == "" || ValidNetworkMode(config.networkMode)
  {}

  lemma LastWordIsThePort(c: VMConfig, name: string, port: Int64)
    requires c.enableNetwork && 0 <= port < TWO_32 && c.vmNetworkIfName == name + [' '] + (PORT_KEY + Itoa(port))
    ensures forall start :: LastNumber(NetworkTexts(c), PORT_KEY, start) == port
  {
    var word := PORT_KEY + Itoa(port);
    var before := M.Key(CIDR_KEY, NonEmpty(c.vmNetworkCIDR)) + M.Key(GATEWAY_KEY, NonEmpty(c.vmNetworkGateway));
    var token := IFNAME_KEY + name + [' '] + word;
    PortWord(port);
    assert IFNAME_KEY + c.vmNetworkIfName == token;
    assert M.Key(IFNAME_KEY, NonEmpty(c.vmNetworkIfName)) == [token];
    TokenEndsInWord(IFNAME_KEY + name, word);
    FieldsOfAllConcat(before, [token]);
    var texts := FieldsOfAll(before) + Scan("", IFNAME_KEY + name) + [word];
    assert NetworkTexts(c) == texts;
    forall start
      ensures LastNumber(texts, PORT_KEY, start) == port
    {
      NumberLast(FieldsOfAll(before) + Scan("", IFNAME_KEY + name), PORT_KEY, port, start);
    }
  }

  lemma PortWord(port: Int64)
    ensures NoSpace(PORT_KEY + Itoa(port)) && PORT_KEY + Itoa(port) != ""
  {
    PortKeyIsAWord();
    ItoaParses(port);
    WordsJoin(PORT_KEY, Itoa(port));
  }

  lemma PortKeyIsAWord()
    ensures NoSpace(PORT_KEY) && PORT_KEY != ""
  {}

  lemma WordsJoin(a: string, b: string)
    requires NoSpace(a) && NoSpace(b) && a != ""
    ensures NoSpace(a + b) && a + b != ""
  {}

  lemma TokenEndsInWord(left: string, word: string)
    requires NoSpace(word) && word != ""
    ensures FieldsOfAll([left + [' '] + word]) == Scan("", left) + [word]
  {
    ScanSplits("", left, ' ', word);
    FieldsOfWord(word);
    assert [left + [' '] + word][1..] == [];
  }

  lemma NumberOfItoa(port: Int64, current: int)
    requires 0 <= port < TWO_32
    ensures NumberOr(Itoa(port), current) == port
  {
    ItoaParsesAsInt64(port);
    NumberOfText(Itoa(port), port, current);
  }

  lemma NumberOfText(text: string, n: Int64, current: int)
    requires ParseInt64(text) == Some(n) && 0 <= n < TWO_32
    ensures NumberOr(text, current) == n
  {
    SmallUInt32(n);
  }

  lemma NumberLast(words: seq<string>, key: string, port: Int64, start: int)
    requires 0 <= port < TWO_32
    ensures LastNumber(words + [key + Itoa(port)], key, start) == port
  {
    LastNumberOfLast(words, key, Itoa(port), start);
    NumberOfItoa(port, LastNumber(words, key, start));
  }

  lemma LastNumberOfLast(words: seq<string>, key: string, text: string, start: int)
    ensures LastNumber(words + [key + text], key, start) == NumberOr(text, LastNumber(words, key, start))
  {
    assert (words + [key + text])[..|words|] == words && (key + text)[|key|..] == text;
  }
}
