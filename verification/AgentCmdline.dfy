/**
  The guest agent's reading of the kernel command line: agent/cmd/agent/main.go:68-108 and
  agent/cmd/agent/runtime_mounts.go:71-138.
*/
module AgentCmdline {
  import opened Prelude
  import opened Text

  /** `/proc/cmdline` split into fields, or the process arguments when it cannot be read. */
  function ReadKernelCmdline(procCmdline: Option<string>, osArgs: seq<string>): seq<string> {
    match procCmdline case None => osArgs case Some(line) => Fields(line)
  }

  predicate VirtioFSEnabled(args: seq<string>) { "agent.virtiofs=1" in args || "agent.virtiofs=true" in args }

  /** The first argument with the key and a value that is not blank. */
  function FirstValue(args: seq<string>, key: string, default: string): string {
    if args == [] then default
    else if HasPrefix(args[0], key) && TrimSpace(args[0][|key|..]) != "" then TrimSpace(args[0][|key|..])
    else FirstValue(args[1..], key, default)
  }

  const TAG_KEY := "agent.virtiofs_tag="
  const MOUNT_KEY := "agent.virtiofs_mount="
  const DEVICE_KEY := "agent.overlay_device="
  const OVERLAY_KEY := "agent.overlay_mount="
  const CID_KEY := "agent.vsock_cid="
  const PORT_KEY := "agent.vsock_port="

  const DEFAULT_TAG := "vmrunnerfs0"
  const DEFAULT_MOUNT := "/run/vmrunner/shared"
  const DEFAULT_DEVICE := "/dev/vdb"
  const DEFAULT_OVERLAY := "/mnt/containers"

  function VirtioFSTag(args: seq<string>): string { FirstValue(args, TAG_KEY, DEFAULT_TAG) }

  function VirtioFSMountPoint(args: seq<string>): string { FirstValue(args, MOUNT_KEY, DEFAULT_MOUNT) }

  function ContainerWritableDiskDevice(args: seq<string>): string { FirstValue(args, DEVICE_KEY, DEFAULT_DEVICE) }

  function OverlayStateMountPoint(args: seq<string>): string { FirstValue(args, OVERLAY_KEY, DEFAULT_OVERLAY) }

  /** A number that replaces the current one when the text is one. */
  function NumberOr(text: string, current: int): int {
    match ParseInt64(text) case Some(n) => ToUInt32(n) case None => current
  }

  /** The last argument with the key whose value is a number. */
  function LastNumber(args: seq<string>, key: string, start: int): int {
    if args == [] then start
    else
      var before := LastNumber(args[..|args| - 1], key, start);
      var arg := args[|args| - 1];
      if HasPrefix(arg, key) then NumberOr(arg[|key|..], before) else before
  }

  /** `parseVsockTarget` (main.go:68-99): defaults, then the environment, then the command line. */
  method ParseVsockTarget(envCid: string, envPort: string, args: seq<string>) returns (cid: int, port: int)
    ensures cid == LastNumber(args, CID_KEY, if envCid != "" then NumberOr(envCid, 2) else 2)
    ensures port == LastNumber(args, PORT_KEY, if envPort != "" then NumberOr(envPort, 7000) else 7000)
  {
    cid, port := 2, 7000;
    if envCid != "" { cid := NumberOr(envCid, cid); }
    if envPort != "" { port := NumberOr(envPort, port); }
    ghost var cid0, port0 := cid, port;
    for i := 0 to |args|
      invariant cid == LastNumber(args[..i], CID_KEY, cid0) && port == LastNumber(args[..i], PORT_KEY, port0)
    {
      assert args[..i + 1][..i] == args[..i];
      if HasPrefix(args[i], CID_KEY) {
        cid := NumberOr(args[i][|CID_KEY|..], cid);
        KeysExclude(args[i], CID_KEY, PORT_KEY, 12);
        continue;
      }
      if HasPrefix(args[i], PORT_KEY) {
        port := NumberOr(args[i][|PORT_KEY|..], port);
      }
    }
    assert args[..|args|] == args;
  }

  /** Two keys that differ somewhere are not both prefixes of one argument. */
  lemma KeysExclude(arg: string, key: string, other: string, i: nat)
    requires i < |key| && i < |other| && key[i] != other[i] && HasPrefix(arg, key)
    ensures !HasPrefix(arg, other)
  {}

  // How the lookups read a list of arguments.

  predicate Avoids(args: seq<string>, key: string) { forall a :: a in args ==> !HasPrefix(a, key) }

  lemma {:induction false} FirstValueSkips(args: seq<string>, rest: seq<string>, key: string, default: string)
    requires Avoids(args, key)
    ensures FirstValue(args + rest, key, default) == FirstValue(rest, key, default)
  {
    if args == [] {
      assert args + rest == rest;
    } else {
      assert args[0] in args;
      FirstValueSkips(args[1..], rest, key, default);
      assert (args + rest)[1..] == args[1..] + rest;
    }
  }

  /** The first value of two lists is that of the first one, and by default that of the second. */
  lemma {:induction false} FirstValueConcat(a: seq<string>, b: seq<string>, key: string, default: string)
    ensures FirstValue(a + b, key, default) == FirstValue(a, key, FirstValue(b, key, default))
  {
    if a == [] {
      assert a + b == b;
    } else {
      FirstValueConcat(a[1..], b, key, default);
      assert (a + b)[1..] == a[1..] + b;
    }
  }

  lemma {:induction false} LastNumberConcat(a: seq<string>, b: seq<string>, key: string, start: int)
    ensures LastNumber(a + b, key, start) == LastNumber(b, key, LastNumber(a, key, start))
  {
    if b == [] {
      assert a + b == a;
    } else {
      LastNumberConcat(a, b[..|b| - 1], key, start);
      assert (a + b)[..|a + b| - 1] == a + b[..|b| - 1];
    }
  }

  /** A key that occurs once is found whatever surrounds it; one that does not gives the default. */
  lemma FirstValueFinds(before: seq<string>, key: string, value: string, after: seq<string>, default: string)
    requires Avoids(before, key) && Avoids(after, key) && NoSpace(value)
    ensures value != "" ==> FirstValue(before + [key + value] + after, key, default) == value
    ensures FirstValue(before + after, key, default) == default
  {
    var hit := [key + value] + after;
    assert before + [key + value] + after == before + hit;
    FirstValueSkips(before, hit, key, default);
    TrimKeepsWords(value);
    assert (key + value)[|key|..] == value;
    FirstValueSkips(before, after, key, default);
    FirstValueSkips(after, [], key, default);
    assert after + [] == after;
  }

  lemma {:induction false} FirstValueIsAWord(args: seq<string>, key: string, default: string)
    requires NoSpace(default) && forall a :: a in args ==> NoSpace(a)
    ensures NoSpace(FirstValue(args, key, default))
  {
    if args != [] {
      assert args[0] in args;
      if HasPrefix(args[0], key) {
        TrimKeepsWords(args[0][|key|..]);
      }
      FirstValueIsAWord(args[1..], key, default);
    }
  }

  lemma {:induction false} LastNumberSkips(args: seq<string>, rest: seq<string>, key: string, start: int)
    requires Avoids(rest, key)
    ensures LastNumber(args + rest, key, start) == LastNumber(args, key, start)
  {
    if rest == [] {
      assert args + rest == args;
    } else {
      var init := rest[..|rest| - 1];
      LastNumberSkips(args, init, key, start);
      assert (args + rest)[..|args + rest| - 1] == args + init;
      assert rest[|rest| - 1] in rest;
    }
  }

  lemma {:induction false} LastNumberIsUInt32(args: seq<string>, key: string, start: int)
    requires 0 <= start < TWO_32
    ensures 0 <= LastNumber(args, key, start) < TWO_32
  {
    if args != [] {
      LastNumberIsUInt32(args[..|args| - 1], key, start);
    }
  }

  /** The first value counts, without the white space around it; one that is blank does not. */
  lemma FirstValueCounts(key: string, value: string, rest: seq<string>, default: string)
    ensures FirstValue([key + value] + rest, key, default) ==
      if forall i :: 0 <= i < |value| ==> IsSpace(value[i]) then FirstValue(rest, key, default) else TrimSpace(value)
  {
    BlankExactly(value);
    assert ([key + value] + rest)[1..] == rest && (key + value)[|key|..] == value;
  }

  /** Of the texts after `agent.virtiofs=` two switch it on. */
  lemma SwitchedOnExactly(text: string)
    ensures VirtioFSEnabled(["agent.virtiofs=" + text]) <==> text == "1" || text == "true"
  {
    var key := "agent.virtiofs=";
    assert key + "1" == "agent.virtiofs=1" && key + "true" == "agent.virtiofs=true";
    assert (key + text)[|key|..] == text;
    assert "agent.virtiofs=1"[|key|..] == "1" && "agent.virtiofs=true"[|key|..] == "true";
  }

  /** The last number wins, and what is no number is passed over. */
  lemma LastNumberWins(args: seq<string>, key: string, text: string, start: int)
    ensures LastNumber(args + [key + text], key, start) ==
      if ParseInt64(text).Some? then ToUInt32(ParseInt64(text).value) else LastNumber(args, key, start)
  {
    assert (args + [key + text])[..|args|] == args && (key + text)[|key|..] == text;
  }

  /** What an empty command line stands for, and one that cannot be read. */
  lemma AgentDefaults(osArgs: seq<string>)
    ensures ReadKernelCmdline(None, osArgs) == osArgs && ReadKernelCmdline(Some(""), osArgs) == []
    ensures VirtioFSTag([]) == "vmrunnerfs0" && VirtioFSMountPoint([]) == "/run/vmrunner/shared"
    ensures ContainerWritableDiskDevice([]) == "/dev/vdb" && OverlayStateMountPoint([]) == "/mnt/containers"
    ensures !VirtioFSEnabled([])
  {}
}
