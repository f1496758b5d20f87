/**
  `PrepareImageExt4Disk` (vm/image_disk.go:65-138): a cache from image reference to digest in front
  of a cache from digest to disk, compared with resolving every reference anew.
*/
module ImageCache {
  import opened Prelude
  import opened Text

  /** A disk file: built, or left by a build that failed after creating it (vm/disk_ext4.go:25-53). */
  datatype Disk = Complete(digest: string) | Partial

  datatype Cache = Cache(refs: map<string, string>, disks: map<string, Disk>)

  /** An image reference, and the architecture it is wanted for. */
  datatype Ref = Ref(image: string, goarch: string)

  /** The references the registry knows, with their digests. */
  type Registry = map<Ref, string>

  /** How a build goes, when it is needed: done, failed before the disk file exists, or after. */
  datatype Build = Built | FailedEarly | FailedLate

  /**
    What the environment answers: the cache directory, the image with its staging directory, and
    the steps of `CreateExt4DiskFromDir` from the disk's directory to mkfs.
  */
  datatype Env = Env(
    cacheDirMade: bool, staged: bool,
    diskDirMade: bool, created: bool, truncated: bool, closed: bool, mkfsFound: bool, mkfsWorks: bool)

  /** How the writing of the reference file goes, whose error is ignored. */
  datatype RefWrite = Wrote | NotWritten | Emptied

  /** One call: the arguments and what its environment does. */
  datatype Call = Call(ref: Ref, sizeMiB: int, env: Env, refWrite: RefWrite)

  datatype CacheError = NoCacheDir | UnsupportedArch | Unresolved | EmptyDigest | BuildFailed

  datatype Prepared = Prepared(disk: string, built: bool)

  type Answer = Result<Prepared, CacheError>

  function Sanitize(imageRef: string): string { seq(|imageRef|, i requires 0 <= i < |imageRef| => Sanitized(imageRef[i])) }

  function Sanitized(c: char): char { if c == '/' || c == ':' || c == '@' then '_' else c }

  /** `guestPlatform`: the architecture, which is also the suffix of the key. */
  predicate Supported(goarch: string) { goarch == "arm64" || goarch == "amd64" }

  function RefFile(ref: Ref): string { Sanitize(ref.image) + "." + ref.goarch + ".digest" }

  function DiskFile(digestHex: string): string { digestHex + ".raw" }

  function TrimPrefix(s: string, prefix: string): string { if prefix <= s then s[|prefix|..] else s }

  /** The digest of a reference, asked of the registry. */
  function Resolve(registry: Registry, ref: Ref): Result<string, CacheError> {
    if !Supported(ref.goarch) then Err(UnsupportedArch)
    else if ref !in registry then Err(Unresolved)
    else
      var hex := TrimPrefix(registry[ref], "sha256:");
      if hex == "" then Err(EmptyDigest) else Ok(hex)
  }

  // Without the reference cache: the simple form.

  /** The disk for a digest that may have to be built. */
  function FromDigest(disks: map<string, Disk>, hex: string, build: Build): (map<string, Disk>, Answer) {
    if DiskFile(hex) in disks then (disks, Ok(Prepared(DiskFile(hex), false)))
    else
      match build
      case Built => (disks[DiskFile(hex) := Complete(hex)], Ok(Prepared(DiskFile(hex), true)))
      case FailedEarly => (disks, Err(BuildFailed))
      case FailedLate => (disks[DiskFile(hex) := Partial], Err(BuildFailed))
  }

  /** `CreateExt4DiskFromDir` (vm/disk_ext4.go:16-53): the file is there from `os.Create` on. */
  function CreateExt4(sizeMiB: int, env: Env): Build {
    if sizeMiB <= 0 || !env.diskDirMade || !env.created then FailedEarly
    else if !env.truncated || !env.closed || !env.mkfsFound || !env.mkfsWorks then FailedLate
    else Built
  }

  /** `writeImageToDisk` (vm/image_disk.go:38-63). */
  function BuildOf(call: Call): Build { if !call.env.staged then FailedEarly else CreateExt4(call.sizeMiB, call.env) }

  function Uncached(disks: map<string, Disk>, registry: Registry, call: Call): (map<string, Disk>, Answer) {
    if !call.env.cacheDirMade then (disks, Err(NoCacheDir))
    else
      match Resolve(registry, call.ref)
      case Err(e) => (disks, Err(e))
      case Ok(hex) => FromDigest(disks, hex, BuildOf(call))
  }

  // With it.

  function WriteRef(refs: map<string, string>, file: string, hex: string, write: RefWrite): map<string, string> {
    match write
    case Wrote => refs[file := hex + "\n"]
    case NotWritten => refs
    case Emptied => refs[file := ""]
  }

  /** The digest the reference file gives, when its disk is there. */
  function Remembered(cache: Cache, file: string): Option<string> {
    if file in cache.refs && TrimSpace(cache.refs[file]) != "" && DiskFile(TrimSpace(cache.refs[file])) in cache.disks
    then Some(TrimSpace(cache.refs[file])) else None
  }

  function Prepare(cache: Cache, registry: Registry, call: Call): (Cache, Answer) {
    var file := RefFile(call.ref);
    if !call.env.cacheDirMade then (cache, Err(NoCacheDir))
    else if Supported(call.ref.goarch) && Remembered(cache, file).Some? then
      (cache, Ok(Prepared(DiskFile(Remembered(cache, file).value), false)))
    else
      match Resolve(registry, call.ref)
      case Err(e) => (cache, Err(e))
      case Ok(hex) =>
        var (disks, answer) := FromDigest(cache.disks, hex, BuildOf(call));
        (Cache(if answer.Ok? then WriteRef(cache.refs, file, hex, call.refWrite) else cache.refs, disks), answer)
  }

  /** The cache directory, changed call by call. */
  class CacheDir {
    var refs: map<string, string>
    var disks: map<string, Disk>

    function Value(): Cache
      reads this
    {
      Cache(refs, disks)
    }

    method StoreRef(file: string, hex: string, write: RefWrite)
      modifies this`refs
      ensures refs == WriteRef(old(refs), file, hex, write)
    {
      match write {
        case Wrote => refs := refs[file := hex + "\n"];
        case NotWritten =>
        case Emptied => refs := refs[file := ""];
      }
    }

    /** What a build leaves of the disk file, step by step. */
    method CreateExt4DiskFromDir(file: string, hex: string, sizeMiB: int, env: Env) returns (ok: bool)
      modifies this`disks
      ensures ok == CreateExt4(sizeMiB, env).Built?
      ensures disks == match CreateExt4(sizeMiB, env)
        case Built => old(disks)[file := Complete(hex)]
        case FailedEarly => old(disks)
        case FailedLate => old(disks)[file := Partial]
    {
      if sizeMiB <= 0 { return false; }
      if !env.diskDirMade { return false; }
      if !env.created { return false; }
      disks := disks[file := Partial];
      if !env.truncated { return false; }
      if !env.closed { return false; }
      if !env.mkfsFound { return false; }
      if !env.mkfsWorks { return false; }
      disks := disks[file := Complete(hex)];
      return true;
    }

    method WriteImageToDisk(file: string, hex: string, call: Call) returns (ok: bool)
      modifies this`disks
      ensures ok == BuildOf(call).Built?
      ensures disks == match BuildOf(call)
        case Built => old(disks)[file := Complete(hex)]
        case FailedEarly => old(disks)
        case FailedLate => old(disks)[file := Partial]
    {
      if !call.env.staged { return false; }
      ok := CreateExt4DiskFromDir(file, hex, call.sizeMiB, call.env);
    }

    method PrepareImageExt4Disk(registry: Registry, call: Call) returns (answer: Answer)
      modifies this
      ensures (Value(), answer) == Prepare(old(Value()), registry, call)
    {
      if !call.env.cacheDirMade { return Err(NoCacheDir); }
      if !Supported(call.ref.goarch) { return Err(UnsupportedArch); }
      var file := RefFile(call.ref);
      if file in refs {
        var cachedHex := TrimSpace(refs[file]);
        if cachedHex != "" && DiskFile(cachedHex) in disks { return Ok(Prepared(DiskFile(cachedHex), false)); }
      }
      if call.ref !in registry { return Err(Unresolved); }
      var digestHex := TrimPrefix(registry[call.ref], "sha256:");
      if digestHex == "" { return Err(EmptyDigest); }
      var diskPath := DiskFile(digestHex);
      if diskPath in disks {
        StoreRef(file, digestHex, call.refWrite);
        return Ok(Prepared(diskPath, false));
      }
      var built := WriteImageToDisk(diskPath, digestHex, call);
      if !built { return Err(BuildFailed); }
      StoreRef(file, digestHex, call.refWrite);
      return Ok(Prepared(diskPath, true));
    }
  }

  // Runs: calls, and files deleted in between.

  datatype Event = Calls(call: Call) | DropRef(file: string) | DropDisk(file: string)

  function Step(cache: Cache, registry: Registry, event: Event): (Cache, Option<Answer>) {
    match event
    case Calls(call) => var (next, answer) := Prepare(cache, registry, call); (next, Some(answer))
    case DropRef(file) => (cache.(refs := cache.refs - {file}), None)
    case DropDisk(file) => (cache.(disks := cache.disks - {file}), None)
  }

  function UncachedStep(disks: map<string, Disk>, registry: Registry, event: Event): (map<string, Disk>, Option<Answer>) {
    match event
    case Calls(call) => var (next, answer) := Uncached(disks, registry, call); (next, Some(answer))
    case DropRef(_) => (disks, None)
    case DropDisk(file) => (disks - {file}, None)
  }

  /** The cache after a run, and the answers. */
  function Run(cache: Cache, registry: Registry, events: seq<Event>): (Cache, seq<Option<Answer>>)
    decreases |events|
  {
    if events == [] then (cache, [])
    else
      var (next, answer) := Step(cache, registry, events[0]);
      var (last, answers) := Run(next, registry, events[1..]);
      (last, [answer] + answers)
  }

  function UncachedRun(disks: map<string, Disk>, registry: Registry, events: seq<Event>)
    : (map<string, Disk>, seq<Option<Answer>>)
    decreases |events|
  {
    if events == [] then (disks, [])
    else
      var (next, answer) := UncachedStep(disks, registry, events[0]);
      var (last, answers) := UncachedRun(next, registry, events[1..]);
      (last, [answer] + answers)
  }

  // When keys may be shared.

  /** References whose keys collide resolve alike, so that the collision cannot be seen. */
  predicate Harmless(registry: Registry, used: set<Ref>) {
    forall r, s :: r in used && s in used && Collide(r, s) && Resolve(registry, r).Ok? ==>
      Resolve(registry, s) == Resolve(registry, r)
  }

  predicate Collide(r: Ref, s: Ref) { Supported(r.goarch) && Supported(s.goarch) && RefFile(r) == RefFile(s) }

  predicate Replaced(c: char) { c == '/' || c == ':' || c == '@' || c == '_' }

  /** Exactly which references share a key: same architecture, and alike up to the replaced characters. */
  lemma CollideExactly(r: Ref, s: Ref)
    requires Supported(r.goarch) && Supported(s.goarch)
    ensures Collide(r, s) <==> (r.goarch == s.goarch && Alike(r.image, s.image))
  {
    var x, y := "." + r.goarch + ".digest", "." + s.goarch + ".digest";
    assert RefFile(r) == Sanitize(r.image) + x && RefFile(s) == Sanitize(s.image) + y;
    SuffixesMatch(Sanitize(r.image), x, Sanitize(s.image), y);
    assert r.goarch == x[1..6] && s.goarch == y[1..6];
    SanitizedAlike(r.image, s.image);
  }

  /** The same text up to the replaced characters. */
  predicate Alike(a: string, b: string) {
    |a| == |b| && forall i :: 0 <= i < |a| ==> a[i] == b[i] || (Replaced(a[i]) && Replaced(b[i]))
  }

  lemma SanitizedAlike(a: string, b: string)
    ensures Sanitize(a) == Sanitize(b) <==> Alike(a, b)
  {
    if Sanitize(a) == Sanitize(b) {
      assert |a| == |Sanitize(a)|;
      assert forall i :: 0 <= i < |a| ==> Sanitized(a[i]) == Sanitize(a)[i];
      assert forall i :: 0 <= i < |b| ==> Sanitized(b[i]) == Sanitize(b)[i];
    }
  }

  lemma SuffixesMatch(a: string, x: string, b: string, y: string)
    requires |x| == |y|
    ensures a + x == b + y <==> a == b && x == y
  {
    if a + x == b + y {
      assert |a + x| == |b + y|;
      assert a == (a + x)[..|a|] && b == (b + y)[..|a|] && x == (a + x)[|a|..] && y == (b + y)[|a|..];
    }
  }

  /** Digests are words, so that what is read back from a reference file is what was written. */
  predicate DigestsAreWords(registry: Registry) { forall r :: r in registry ==> NoSpace(registry[r]) }

  predicate Uses(events: seq<Event>, used: set<Ref>) {
    forall i :: 0 <= i < |events| && events[i].Calls? ==> events[i].call.ref in used
  }

  predicate Recalls(registry: Registry, r: Ref, file: string, hex: string) {
    Supported(r.goarch) && RefFile(r) == file && Resolve(registry, r) == Ok(hex)
  }

  /** Each reference file holds the digest of a reference that was used. */
  predicate Trusted(cache: Cache, registry: Registry, used: set<Ref>) {
    forall file :: file in cache.refs && TrimSpace(cache.refs[file]) != "" ==>
      exists r :: r in used && Recalls(registry, r, file, TrimSpace(cache.refs[file]))
  }

  lemma TrimDropsNewline(hex: string)
    requires NoSpace(hex)
    ensures TrimSpace(hex + "\n") == hex
  {
    var s := hex + "\n";
    assert s[|s| - 1] == '\n' && s[..|s| - 1] == hex;
    TrimKeepsWords(hex);
    if hex == "" { assert TrimLeft(s) == TrimLeft(s[1..]); } else { assert s[0] == hex[0]; }
  }

  lemma ResolvedIsAWord(registry: Registry, ref: Ref)
    requires DigestsAreWords(registry) && Resolve(registry, ref).Ok?
    ensures NoSpace(Resolve(registry, ref).value) && Resolve(registry, ref).value != ""
  {}

  /** What is remembered is what the registry says. */
  lemma RememberedIsResolved(cache: Cache, registry: Registry, used: set<Ref>, ref: Ref)
    requires Harmless(registry, used) && ref in used && Trusted(cache, registry, used)
    requires Supported(ref.goarch) && Remembered(cache, RefFile(ref)).Some?
    ensures Resolve(registry, ref) == Ok(Remembered(cache, RefFile(ref)).value)
  {
    var hex := TrimSpace(cache.refs[RefFile(ref)]);
    var r :| r in used && Recalls(registry, r, RefFile(ref), hex);
    assert Collide(r, ref);
  }

  lemma WritingKeepsTrust(cache: Cache, registry: Registry, used: set<Ref>, ref: Ref, hex: string, write: RefWrite)
    requires Trusted(cache, registry, used) && ref in used && Recalls(registry, ref, RefFile(ref), hex) && NoSpace(hex)
    ensures forall disks :: Trusted(Cache(WriteRef(cache.refs, RefFile(ref), hex, write), disks), registry, used)
  {
    TrimDropsNewline(hex);
    assert TrimSpace("") == "";
    var refs := WriteRef(cache.refs, RefFile(ref), hex, write);
    forall file | file in refs && TrimSpace(refs[file]) != ""
      ensures exists r :: r in used && Recalls(registry, r, file, TrimSpace(refs[file]))
    {
      if refs[file] == hex + "\n" && file == RefFile(ref) {
        assert Recalls(registry, ref, file, TrimSpace(refs[file]));
      } else {
        assert file in cache.refs && refs[file] == cache.refs[file];
      }
    }
  }

  /** One call answers and builds as if there were no reference cache, and leaves it trustworthy. */
  lemma PrepareAgrees(cache: Cache, registry: Registry, used: set<Ref>, call: Call)
    requires DigestsAreWords(registry) && Harmless(registry, used) && call.ref in used && Trusted(cache, registry, used)
    ensures var (next, answer) := Prepare(cache, registry, call);
      (next.disks, answer) == Uncached(cache.disks, registry, call) && Trusted(next, registry, used)
  {
    if call.env.cacheDirMade && Supported(call.ref.goarch) {
      if Remembered(cache, RefFile(call.ref)).Some? {
        RememberedIsResolved(cache, registry, used, call.ref);
      } else if Resolve(registry, call.ref).Ok? {
        ResolvedIsAWord(registry, call.ref);
        WritingKeepsTrust(cache, registry, used, call.ref, Resolve(registry, call.ref).value, call.refWrite);
      }
    }
  }

  lemma {:induction false} RunsAgree(cache: Cache, registry: Registry, used: set<Ref>, events: seq<Event>)
    requires DigestsAreWords(registry) && Harmless(registry, used) && Uses(events, used) && Trusted(cache, registry, used)
    ensures Run(cache, registry, events).0.disks == UncachedRun(cache.disks, registry, events).0
    ensures Run(cache, registry, events).1 == UncachedRun(cache.disks, registry, events).1
    ensures Trusted(Run(cache, registry, events).0, registry, used)
    decreases |events|
  {
    if events != [] {
      if events[0].Calls? { PrepareAgrees(cache, registry, used, events[0].call); }
      RunsAgree(Step(cache, registry, events[0]).0, registry, used, events[1..]);
    }
  }

  const AllWell: Env := Env(true, true, true, true, true, true, true, true)

  const Empty: Cache := Cache(map[], map[])

  /** A harmful collision shows in the second of two calls. */
  lemma CollisionShows(registry: Registry, r: Ref, s: Ref)
    requires DigestsAreWords(registry) && Collide(r, s) && Resolve(registry, r).Ok?
    requires Resolve(registry, s) != Resolve(registry, r)
    ensures var events := [Calls(Call(r, 1, AllWell, Wrote)), Calls(Call(s, 1, AllWell, Wrote))];
      Run(Empty, registry, events).1 != UncachedRun(map[], registry, events).1
  {
    var events := [Calls(Call(r, 1, AllWell, Wrote)), Calls(Call(s, 1, AllWell, Wrote))];
    var hex := Resolve(registry, r).value;
    ResolvedIsAWord(registry, r);
    TrimDropsNewline(hex);
    var cache := Cache(map[RefFile(r) := hex + "\n"], map[DiskFile(hex) := Complete(hex)]);
    SecondOf(Empty, registry, events[0], events[1]);
    assert Step(Empty, registry, events[0]) == (cache, Some(Ok(Prepared(DiskFile(hex), true))));
    assert Prepare(cache, registry, events[1].call).1 == Ok(Prepared(DiskFile(hex), false));
    if Resolve(registry, s).Ok? { DiskFilesDiffer(hex, Resolve(registry, s).value); }
  }

  lemma LastOf(cache: Cache, registry: Registry, b: Event)
    ensures Run(cache, registry, [b]).1 == [Step(cache, registry, b).1]
    ensures UncachedRun(cache.disks, registry, [b]).1 == [UncachedStep(cache.disks, registry, b).1]
  {
    assert [b][1..] == [];
  }

  lemma SecondOf(cache: Cache, registry: Registry, a: Event, b: Event)
    ensures Run(cache, registry, [a, b]).1 ==
      [Step(cache, registry, a).1, Step(Step(cache, registry, a).0, registry, b).1]
    ensures UncachedRun(cache.disks, registry, [a, b]).1 ==
      [UncachedStep(cache.disks, registry, a).1, UncachedStep(UncachedStep(cache.disks, registry, a).0, registry, b).1]
  {
    assert [a, b][1..] == [b] && [b][1..] == [];
    LastOf(Step(cache, registry, a).0, registry, b);
    LastOf(Cache(map[], UncachedStep(cache.disks, registry, a).0), registry, b);
  }

  lemma DiskFilesDiffer(a: string, b: string)
    requires a != b
    ensures DiskFile(a) != DiskFile(b)
  {
    if |a| == |b| {
      var i :| 0 <= i < |a| && a[i] != b[i];
      assert DiskFile(a)[i] != DiskFile(b)[i];
    }
  }

  /**
    The reference cache is invisible, exactly: with a fixed registry, every run of calls - whatever
    is deleted in between, and however builds and reference writes go - gets the answers of resolving
    each reference anew, if and only if the references used have no harmful collision.
  */
  lemma CacheIsInvisibleExactly(registry: Registry, used: set<Ref>)
    requires DigestsAreWords(registry)
    ensures Harmless(registry, used) <==>
      forall events :: Uses(events, used) ==> Run(Empty, registry, events).1 == UncachedRun(map[], registry, events).1
  {
    if Harmless(registry, used) {
      forall events | Uses(events, used)
        ensures Run(Empty, registry, events).1 == UncachedRun(map[], registry, events).1
      {
        RunsAgree(Empty, registry, used, events);
      }
    } else {
      var r, s :| r in used && s in used && Collide(r, s) && Resolve(registry, r).Ok?
                  && Resolve(registry, s) != Resolve(registry, r);
      CollisionShows(registry, r, s);
      assert Uses([Calls(Call(r, 1, AllWell, Wrote)), Calls(Call(s, 1, AllWell, Wrote))], used);
    }
  }

  // What the answers are, told of the registry.

  /** Digests come as sha256:hex; another algorithm keeps its name. */
  lemma ResolvedDigest(registry: Registry, ref: Ref, hex: string)
    requires ref.goarch == "arm64" || ref.goarch == "amd64"
    ensures ref !in registry ==> Resolve(registry, ref) == Err(Unresolved)
    ensures ref in registry && registry[ref] == "sha256:" + hex ==>
      Resolve(registry, ref) == if hex == "" then Err(EmptyDigest) else Ok(hex)
    ensures ref in registry && registry[ref] == hex && !("sha256:" <= hex) && hex != "" ==> Resolve(registry, ref) == Ok(hex)
  {
    var prefix := "sha256:";
    assert (prefix + hex)[|prefix|..] == hex;
  }

  /**
    The first call for a reference builds the disk named after its digest; the next one finds it,
    and with the reference file written it asks the registry nothing.
  */
  lemma FirstCallBuildsNextFinds(registry: Registry, ref: Ref, hex: string, sizeMiB: int, later: Registry, again: Call)
    requires ref.goarch == "arm64" || ref.goarch == "amd64"
    requires ref in registry && registry[ref] == "sha256:" + hex && hex != "" && NoSpace(hex) && sizeMiB > 0
    requires again.ref == ref && again.env.cacheDirMade
    ensures var (cache, first) := Prepare(Empty, registry, Call(ref, sizeMiB, AllWell, Wrote));
      && first == Ok(Prepared(hex + ".raw", true))
      && cache.disks == map[hex + ".raw" := Complete(hex)]
      && cache.refs == map[Sanitize(ref.image) + "." + ref.goarch + ".digest" := hex + "\n"]
      && Prepare(cache, later, again) == (cache, Ok(Prepared(hex + ".raw", false)))
  {
    ResolvedDigest(registry, ref, hex);
    TrimDropsNewline(hex);
  }

  /** The next call finds the disk also when the reference file was not written, or was deleted. */
  lemma FoundByDigest(registry: Registry, ref: Ref, hex: string, disks: map<string, Disk>, call: Call)
    requires ref.goarch == "arm64" || ref.goarch == "amd64"
    requires ref in registry && registry[ref] == "sha256:" + hex && hex != "" && hex + ".raw" in disks
    requires call.ref == ref && call.env.cacheDirMade
    ensures Prepare(Cache(map[], disks), registry, call).0.disks == disks
    ensures Prepare(Cache(map[], disks), registry, call).1 == Ok(Prepared(hex + ".raw", false))
  {
    ResolvedDigest(registry, ref, hex);
  }

  /** What an empty cache answers when something is wrong, in the order it is looked at. */
  lemma WrongCalls(registry: Registry, call: Call)
    ensures var answer := Prepare(Empty, registry, call).1;
      if !call.env.cacheDirMade then answer == Err(NoCacheDir)
      else if call.ref.goarch != "arm64" && call.ref.goarch != "amd64" then answer == Err(UnsupportedArch)
      else if call.ref !in registry then answer == Err(Unresolved)
      else if registry[call.ref] == "" || registry[call.ref] == "sha256:" then answer == Err(EmptyDigest)
      else if !(call.env.staged && call.sizeMiB > 0 && call.env.diskDirMade && call.env.created && call.env.truncated
                && call.env.closed && call.env.mkfsFound && call.env.mkfsWorks) then answer == Err(BuildFailed)
      else answer.Ok? && answer.value.built
  {
    if call.ref in registry {
      assert "sha256:" <= registry[call.ref] && |registry[call.ref]| == 7 ==> registry[call.ref] == "sha256:";
    }
  }

  // What a returned disk is.

  /**
    After any run from an empty cache: an answer names the disk of the digest the registry has for
    the reference, that disk exists, and the flag is set exactly when it was absent before.
  */
  lemma EveryAnswerIsResolved(registry: Registry, used: set<Ref>, events: seq<Event>, call: Call)
    requires DigestsAreWords(registry) && Harmless(registry, used) && Uses(events, used) && call.ref in used
    ensures var cache := Run(Empty, registry, events).0;
      var (next, answer) := Prepare(cache, registry, call);
      answer.Ok? ==>
        && Resolve(registry, call.ref).Ok? && answer.value.disk == DiskFile(Resolve(registry, call.ref).value)
        && answer.value.disk in next.disks && (answer.value.built <==> answer.value.disk !in cache.disks)
  {
    RunsAgree(Empty, registry, used, events);
    PrepareAgrees(Run(Empty, registry, events).0, registry, used, call);
  }

  predicate AllComplete(disks: map<string, Disk>) {
    forall file :: file in disks ==> disks[file].Complete? && DiskFile(disks[file].digest) == file
  }

  /**
    The calls whose build, when there is one, leaves a file that is no disk: the image and its
    directory are there and the size is positive, but the file cannot be sized or closed, or mkfs
    is missing or fails.
  */
  predicate LeavesStump(call: Call) {
    && call.env.staged && call.sizeMiB > 0 && call.env.diskDirMade && call.env.created
    && !(call.env.truncated && call.env.closed && call.env.mkfsFound && call.env.mkfsWorks)
  }

  /** Where no call is one of those, every disk is the complete image of its digest. */
  lemma {:induction false} DisksAreComplete(cache: Cache, registry: Registry, events: seq<Event>)
    requires AllComplete(cache.disks)
    requires forall i :: 0 <= i < |events| && events[i].Calls? ==> !LeavesStump(events[i].call)
    ensures AllComplete(Run(cache, registry, events).0.disks)
    decreases |events|
  {
    if events != [] { DisksAreComplete(Step(cache, registry, events[0]).0, registry, events[1..]); }
  }

  /**
    After a failed build the next call for the reference takes the leftover for a cached disk if
    and only if the failed call leaves a stump: a missing mkfs does, a size of zero does not.
  */
  lemma FailedBuildIsServedExactly(cache: Cache, registry: Registry, call: Call, again: Call)
    requires Prepare(cache, registry, call).1 == Err(BuildFailed) && again.ref == call.ref && again.env.cacheDirMade
    ensures var (left, _) := Prepare(cache, registry, call);
      var (next, answer) := Prepare(left, registry, again);
      && (answer.Ok? && !answer.value.built <==> LeavesStump(call))
      && (LeavesStump(call) ==> next.disks[answer.value.disk] == Partial)
  {
    if LeavesStump(call) {
      var hex := Resolve(registry, call.ref).value;
      var left := Prepare(cache, registry, call).0;
      var file := RefFile(call.ref);
      if Remembered(left, file).Some? && Remembered(left, file).value != hex {
        DiskFilesDiffer(hex, Remembered(left, file).value);
      }
    }
  }
}
