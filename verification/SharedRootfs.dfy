/**
  `PrepareSharedContainerRootFS` (vm/image_shared.go:15-55): image trees extracted once into a
  directory shared with the guest, one per digest.
*/
module SharedRootfs {
  import opened Prelude
  import opened Paths
  import opened SafeJoin
  import opened TarExtract
  import opened TarSafety
  import opened TarTree
  import opened TarEntries
  import C = ImageCache

  /** An image's layers flattened into one archive; `sound` when the stream can be read to its end. */
  datatype Archive = Archive(entries: seq<Entry>, sound: bool)

  /** The shared directory, the registry, and the images behind the digests. */
  datatype Host = Host(shared: string, registry: C.Registry, images: string -> Archive)

  datatype Call = Call(ref: C.Ref, loads: bool)

  datatype SharedError = Unresolved | StatFailed | LoadFailed | MkdirFailed | ExtractFailed | LeftModel

  datatype Shared = Shared(digestHex: string, built: bool)

  type Answer = Result<Shared, SharedError>

  function RootfsDir(host: Host, hex: string): string { Clean(host.shared + "/" + hex + "/" + "rootfs") }

  function Tree(host: Host, hex: string): Path { Segs(RootfsDir(host, hex)) }

  function Unpacked(fs: FS, host: Host, hex: string): Outcome {
    Extract(fs, RootfsDir(host, hex), host.images(hex).entries, host.images(hex).sound)
  }

  function Fill(fs: FS, host: Host, hex: string): (FS, Answer) {
    var made := MkdirAll(fs, Tree(host, hex));
    if !made.status.Done? then (fs, Err(MkdirFailed))
    else
      var o := Unpacked(made.fs, host, hex);
      (o.fs,
       match o.status
       case Done => Ok(Shared(hex, true))
       case Failed => Err(ExtractFailed)
       case Strayed => Err(LeftModel))
  }

  function ForDigest(fs: FS, host: Host, hex: string, loads: bool): (FS, Answer) {
    if MeetsSymlink(fs.nodes, Tree(host, hex)) then (fs, Err(LeftModel))
    else if Tree(host, hex) in fs.nodes then (fs, Ok(Shared(hex, false)))
    else if MeetsFile(fs.nodes, Tree(host, hex)) then (fs, Err(StatFailed))
    else if !loads then (fs, Err(LoadFailed))
    else Fill(fs, host, hex)
  }

  function Prepare(fs: FS, host: Host, call: Call): (FS, Answer) {
    match C.Resolve(host.registry, call.ref)
    case Err(_) => (fs, Err(Unresolved))
    case Ok(hex) => ForDigest(fs, host, hex, call.loads)
  }

  method PrepareSharedContainerRootFS(disk: Disk, host: Host, call: Call) returns (answer: Answer)
    modifies disk
    ensures (disk.Value(), answer) == Prepare(old(disk.Value()), host, call)
  {
    var resolved := C.Resolve(host.registry, call.ref);
    if resolved.Err? { return Err(Unresolved); }
    var hex := resolved.value;
    var root := Tree(host, hex);
    if MeetsSymlink(disk.nodes, root) { return Err(LeftModel); }
    if root in disk.nodes { return Ok(Shared(hex, false)); }
    if MeetsFile(disk.nodes, root) { return Err(StatFailed); }
    if !call.loads { return Err(LoadFailed); }
    var made := disk.Mkdirs(root);
    if !made.Done? { return Err(MkdirFailed); }
    var status := disk.ExtractTarInto(RootfsDir(host, hex), host.images(hex).entries, host.images(hex).sound);
    match status {
      case Done => return Ok(Shared(hex, true));
      case Failed => return Err(ExtractFailed);
      case Strayed => return Err(LeftModel);
    }
  }

  // What a tree in the shared directory is.

  /** The same nodes and contents inside the root. */
  ghost predicate SameInside(a: FS, b: FS, root: Path) {
    && (forall p :: Inside(root, p) ==> (p in a.nodes <==> p in b.nodes))
    && (forall p :: Inside(root, p) && p in a.nodes ==> a.nodes[p] == b.nodes[p] && SameContent(a, b, a.nodes[p]))
  }

  /** What stands there is what a complete extraction of the digest's image left. */
  ghost predicate FullyExtracted(fs: FS, host: Host, hex: string) {
    exists before :: EmptyRoot(before, Tree(host, hex)) && Unpacked(before, host, hex).status.Done?
      && SameInside(Unpacked(before, host, hex).fs, fs, Tree(host, hex))
  }

  predicate IsDigest(hex: string) { IsSegment(hex) && hex != UP }

  ghost predicate Sound(fs: FS, host: Host) {
    WellFormed(fs) && forall hex :: IsDigest(hex) && Tree(host, hex) in fs.nodes ==> FullyExtracted(fs, host, hex)
  }

  lemma TreeIs(host: Host, hex: string)
    requires Rooted(host.shared) && IsDigest(hex)
    ensures Tree(host, hex) == Segs(host.shared) + [hex] + ["rootfs"] && Rooted(RootfsDir(host, hex))
  {
    SegsBelow(host.shared, hex, "rootfs");
    CleanKeepsMeaning(host.shared + "/" + hex + "/" + "rootfs");
  }

  lemma SegsBelow(p: string, a: string, b: string)
    requires Rooted(p) && IsDigest(a) && IsDigest(b)
    ensures Segs(p + "/" + a + "/" + b) == Segs(p) + [a] + [b] && Rooted(p + "/" + a + "/" + b)
  {
    SplitAtSlash(p + "/" + a, b);
    SplitAtSlash(p, a);
    SplitPlain(a);
    SplitPlain(b);
    WalkConcat(true, [], Split(p) + [a], [b]);
    WalkConcat(true, [], Split(p), [a]);
    WalkDown(true, Segs(p), [a]);
    WalkDown(true, Segs(p) + [a], [b]);
  }

  /** Trees of different digests have no path in common. */
  lemma TreesAreApart(host: Host, hex: string, other: string, p: Path)
    requires Rooted(host.shared) && IsDigest(hex) && IsDigest(other) && hex != other
    ensures !(Inside(Tree(host, hex), p) && Inside(Tree(host, other), p))
  {
    TreeIs(host, hex);
    TreeIs(host, other);
    var n := |Segs(host.shared)|;
    assert Tree(host, hex)[n] == hex && Tree(host, other)[n] == other;
  }

  lemma SameInsideChains(a: FS, b: FS, c: FS, root: Path)
    requires SameInside(a, b, root) && SameInside(b, c, root)
    ensures SameInside(a, c, root)
  {}

  lemma TreeStays(fs: FS, after: FS, host: Host, hex: string)
    requires FullyExtracted(fs, host, hex) && SameInside(fs, after, Tree(host, hex))
    ensures FullyExtracted(after, host, hex)
  {
    var before :| EmptyRoot(before, Tree(host, hex)) && Unpacked(before, host, hex).status.Done?
                  && SameInside(Unpacked(before, host, hex).fs, fs, Tree(host, hex));
    SameInsideChains(Unpacked(before, host, hex).fs, fs, after, Tree(host, hex));
  }

  /** What is outside one tree includes every other tree. */
  lemma OutsideHoldsTheOthers(fs: FS, after: FS, host: Host, hex: string, other: string)
    requires Rooted(host.shared) && IsDigest(hex) && IsDigest(other) && hex != other
    requires SameOutside(fs, after, Tree(host, hex))
    ensures SameInside(fs, after, Tree(host, other))
  {
    forall p | Inside(Tree(host, other), p)
      ensures !Inside(Tree(host, hex), p)
    {
      TreesAreApart(host, hex, other, p);
    }
  }

  /** A new directory with all it stands in: nothing else changes, and it is empty. */
  lemma FreshRoot(fs: FS, root: Path)
    requires WellFormed(fs) && root != [] && root !in fs.nodes && MkdirAll(fs, root).status.Done?
    ensures var made := MkdirAll(fs, root).fs;
      && EmptyRoot(made, root) && Closed(made, root) && Kept(fs, made)
      && forall p :: p in made.nodes ==> p in fs.nodes || p <= root
  {
    MkdirAllKeepsTree(fs, root);
    var made := MkdirAll(fs, root).fs;
    forall q | q in made.nodes && root <= q
      ensures q == root
    {
      if q in fs.nodes { AncestorsAreDirs(fs.nodes, q, root); }
    }
  }

  lemma MadeKeepsTrees(fs: FS, made: FS, host: Host, hex: string, other: string)
    requires Rooted(host.shared) && IsDigest(hex) && IsDigest(other) && hex != other
    requires Kept(fs, made) && forall p :: p in made.nodes ==> p in fs.nodes || p <= Tree(host, hex)
    ensures SameInside(fs, made, Tree(host, other))
  {
    forall p | Inside(Tree(host, other), p) && p in made.nodes
      ensures p in fs.nodes
    {
      if p <= Tree(host, hex) {
        assert Inside(Tree(host, other), Tree(host, hex));
        TreesAreApart(host, hex, other, Tree(host, hex));
      }
    }
  }

  /** A tree that is filled to the end is fully extracted, and the others keep theirs. */
  lemma FillKeepsSound(fs: FS, host: Host, hex: string)
    requires Rooted(host.shared) && IsDigest(hex) && Sound(fs, host) && Tree(host, hex) !in fs.nodes
    requires Fill(fs, host, hex).1.Ok?
    ensures Sound(Fill(fs, host, hex).0, host) && FullyExtracted(Fill(fs, host, hex).0, host, hex)
  {
    TreeIs(host, hex);
    var root := Tree(host, hex);
    var made, after := MkdirAll(fs, root).fs, Fill(fs, host, hex).0;
    FreshRoot(fs, root);
    RunStaysInside(made, RootfsDir(host, hex), host.images(hex).entries, host.images(hex).sound);
    SameAsItself(after, root);
    assert FullyExtracted(after, host, hex);
    forall other | IsDigest(other) && Tree(host, other) in after.nodes
      ensures FullyExtracted(after, host, other)
    {
      if other != hex {
        MadeKeepsTrees(fs, made, host, hex, other);
        OutsideHoldsTheOthers(made, after, host, hex, other);
        SameInsideChains(fs, made, after, Tree(host, other));
        assert Tree(host, other) in fs.nodes by { assert Inside(Tree(host, other), Tree(host, other)); }
        TreeStays(fs, after, host, other);
      }
    }
  }

  lemma SameAsItself(fs: FS, root: Path)
    ensures SameInside(fs, fs, root)
  {}

  /** Digests name one directory. */
  predicate DigestsAreNames(registry: C.Registry) {
    forall r :: r in registry && C.Resolve(registry, r).Ok? ==> IsDigest(C.Resolve(registry, r).value)
  }

  /** The call neither failed in the middle of an extraction nor left the model there. */
  predicate Unbroken(fs: FS, host: Host, call: Call) {
    var answer := Prepare(fs, host, call).1;
    answer != Err(ExtractFailed) && answer != Err(LeftModel)
  }

  /** One call: the digest is the registry's, the flag says whether the tree was absent, and the tree is complete. */
  lemma PrepareKeepsSound(fs: FS, host: Host, call: Call)
    requires Rooted(host.shared) && DigestsAreNames(host.registry) && Sound(fs, host) && Unbroken(fs, host, call)
    ensures var (after, answer) := Prepare(fs, host, call);
      Sound(after, host) &&
      (answer.Ok? ==>
        && C.Resolve(host.registry, call.ref) == Ok(answer.value.digestHex)
        && (answer.value.built <==> Tree(host, answer.value.digestHex) !in fs.nodes)
        && FullyExtracted(after, host, answer.value.digestHex))
  {
    var resolved := C.Resolve(host.registry, call.ref);
    if resolved.Ok? && Prepare(fs, host, call).1.Ok? && Tree(host, resolved.value) !in fs.nodes {
      FillKeepsSound(fs, host, resolved.value);
    }
  }

  // Runs: calls, and whole image directories deleted in between.

  datatype Event = Calls(call: Call) | Drops(hex: string)

  /** `rm -r` of one image's directory. */
  function Dropped(fs: FS, dir: Path): FS { fs.(nodes := map p | p in fs.nodes && !(dir <= p) :: fs.nodes[p]) }

  function Step(fs: FS, host: Host, event: Event): FS {
    match event
    case Calls(call) => Prepare(fs, host, call).0
    case Drops(hex) => Dropped(fs, Segs(host.shared) + [hex])
  }

  function Run(fs: FS, host: Host, events: seq<Event>): FS
    decreases |events|
  {
    if events == [] then fs else Run(Step(fs, host, events[0]), host, events[1..])
  }

  predicate UnbrokenRun(fs: FS, host: Host, events: seq<Event>)
    decreases |events|
  {
    events != [] ==>
      && (events[0].Calls? ==> Unbroken(fs, host, events[0].call))
      && UnbrokenRun(Step(fs, host, events[0]), host, events[1..])
  }

  lemma DroppedKeepsSound(fs: FS, host: Host, gone: string)
    requires Rooted(host.shared) && Sound(fs, host)
    ensures Sound(Dropped(fs, Segs(host.shared) + [gone]), host)
  {
    var dir := Segs(host.shared) + [gone];
    var after := Dropped(fs, dir);
    assert WellFormed(after) by {
      forall p | p in after.nodes
        ensures Parent(p) in after.nodes && (p != [] ==> after.nodes[Parent(p)].Dir?)
      {
        assert Parent(p) <= p;
      }
    }
    forall hex | IsDigest(hex) && Tree(host, hex) in after.nodes
      ensures FullyExtracted(after, host, hex)
    {
      DroppedElsewhere(fs, host, gone, hex);
      TreeStays(fs, after, host, hex);
    }
  }

  lemma DroppedElsewhere(fs: FS, host: Host, gone: string, hex: string)
    requires Rooted(host.shared) && IsDigest(hex)
    requires var dir := Segs(host.shared) + [gone]; Tree(host, hex) in Dropped(fs, dir).nodes
    ensures SameInside(fs, Dropped(fs, Segs(host.shared) + [gone]), Tree(host, hex))
  {
    TreeIs(host, hex);
    var dir, n := Segs(host.shared) + [gone], |Segs(host.shared)|;
    assert !(dir <= Tree(host, hex)) && Tree(host, hex)[..n + 1] == Segs(host.shared) + [hex];
    forall p | Inside(Tree(host, hex), p)
      ensures !(dir <= p)
    {
      assert p[n] == Tree(host, hex)[n] == hex && dir[n] == gone;
    }
  }

  lemma {:induction false} RunKeepsSound(fs: FS, host: Host, events: seq<Event>)
    requires Rooted(host.shared) && DigestsAreNames(host.registry) && Sound(fs, host) && UnbrokenRun(fs, host, events)
    ensures Sound(Run(fs, host, events), host)
    decreases |events|
  {
    if events != [] {
      match events[0] {
        case Calls(call) => PrepareKeepsSound(fs, host, call);
        case Drops(hex) => DroppedKeepsSound(fs, host, hex);
      }
      RunKeepsSound(Step(fs, host, events[0]), host, events[1..]);
    }
  }

  /**
    After any run without a broken extraction, whatever is deleted in between: a call that answers
    gives the registry's digest, built exactly when its tree was absent, and the tree is complete.
  */
  lemma EveryAnswerIsAFullTree(fs: FS, host: Host, events: seq<Event>, call: Call)
    requires Rooted(host.shared) && DigestsAreNames(host.registry) && Sound(fs, host)
    requires UnbrokenRun(fs, host, events) && Unbroken(Run(fs, host, events), host, call)
    ensures var at := Run(fs, host, events);
      var (after, answer) := Prepare(at, host, call);
      answer.Ok? ==>
        && C.Resolve(host.registry, call.ref) == Ok(answer.value.digestHex)
        && (answer.value.built <==> Tree(host, answer.value.digestHex) !in at.nodes)
        && FullyExtracted(after, host, answer.value.digestHex)
  {
    RunKeepsSound(fs, host, events);
    PrepareKeepsSound(Run(fs, host, events), host, call);
  }

  /** For an image without conflicts a full tree is its declared tree. */
  lemma FullTreeIsTheDeclaredOne(fs: FS, host: Host, hex: string)
    requires FullyExtracted(fs, host, hex) && host.images(hex).sound
    requires var entries := host.images(hex).entries; forall i :: 0 <= i < |entries| ==> !entries[i].cut
    requires ConflictFree(Segs(RootfsDir(host, hex)), Ops(RootfsDir(host, hex), host.images(hex).entries))
    ensures var root, ops := Tree(host, hex), Ops(RootfsDir(host, hex), host.images(hex).entries);
      && AllStand(fs, ops)
      && (forall p :: Inside(root, p) ==> (p in fs.nodes <==> p == root || Reaches(ops, p)))
      && (forall p :: Inside(root, p) && p in fs.nodes && !Declares(ops, p) ==> fs.nodes[p].Dir?)
  {
    var root, entries := Tree(host, hex), host.images(hex).entries;
    var ops := Ops(RootfsDir(host, hex), entries);
    var before :| EmptyRoot(before, root) && Unpacked(before, host, hex).status.Done?
                  && SameInside(Unpacked(before, host, hex).fs, fs, root);
    ExtractionIsTheDeclaredTree(before, RootfsDir(host, hex), entries);
    SeenInside(before, Unpacked(before, host, hex).fs, fs, root, ops);
  }

  lemma SeenInside(before: FS, full: FS, fs: FS, root: Path, ops: seq<Op>)
    requires EmptyRoot(before, root) && IsDeclaredTree(before, full, ops) && ConflictFree(root, ops)
    requires SameInside(full, fs, root)
    ensures AllStand(fs, ops)
    ensures forall p :: Inside(root, p) ==> (p in fs.nodes <==> p == root || Reaches(ops, p))
    ensures forall p :: Inside(root, p) && p in fs.nodes && !Declares(ops, p) ==> fs.nodes[p].Dir?
  {
    forall i | 0 <= i < |ops|
      ensures Stands(fs, ops[i])
    {
      assert Stands(full, ops[i]);
      if ops[i].PutLink? {
        var j :| 0 <= j < i && NamesFile(ops[j], ops[i].from);
        assert Inside(root, ops[j].path);
      }
    }
    assert Inside(root, root);
    forall p | Inside(root, p) && p in fs.nodes && !Declares(ops, p)
      ensures fs.nodes[p].Dir?
    {
      if p in before.nodes { assert p == root; }
    }
  }

  /** Told of the entries: they are all there, with the directories on the way, and nothing else. */
  lemma FullTreeHoldsTheArchive(fs: FS, host: Host, hex: string)
    requires FullyExtracted(fs, host, hex) && host.images(hex).sound
    requires var entries := host.images(hex).entries; forall i :: 0 <= i < |entries| ==> !entries[i].cut
    requires ConflictFreeArchive(RootfsDir(host, hex), host.images(hex).entries)
    ensures var root, dir, entries := Tree(host, hex), RootfsDir(host, hex), host.images(hex).entries;
      && (forall i :: 0 <= i < |entries| && Acts(dir, entries[i]) ==> Holds(fs, dir, entries[i]))
      && (forall p :: Inside(root, p) ==> (p in fs.nodes <==> p == root || OnTheWay(dir, entries, p)))
  {
    var root, dir, entries := Tree(host, hex), RootfsDir(host, hex), host.images(hex).entries;
    var ops := Ops(dir, entries);
    AllOpFields(dir, entries);
    ConflictsMatch(dir, entries, ops);
    FullTreeIsTheDeclaredOne(fs, host, hex);
    forall i | 0 <= i < |entries| && Acts(dir, entries[i])
      ensures Holds(fs, dir, entries[i])
    {
      assert Stands(fs, ops[i]);
      StandsHolds(fs, dir, entries[i], ops[i]);
    }
    forall p
      ensures OnTheWay(dir, entries, p) <==> Reaches(ops, p)
    {
      WaysMatch(dir, entries, ops, p);
    }
  }

  // What the answers are, told of the registry and the archive.

  /** The directories on the way to a tree are there or can be made, and the tree is not there. */
  predicate Vacant(fs: FS, root: Path) { root !in fs.nodes && forall q :: q in fs.nodes && q <= root ==> fs.nodes[q].Dir? }

  predicate IsSha256(host: Host, ref: C.Ref, hex: string) {
    && (ref.goarch == "arm64" || ref.goarch == "amd64")
    && ref in host.registry && host.registry[ref] == "sha256:" + hex && IsDigest(hex)
  }

  lemma ResolvesTo(host: Host, ref: C.Ref, hex: string)
    requires IsSha256(host, ref, hex)
    ensures C.Resolve(host.registry, ref) == Ok(hex)
  {
    C.ResolvedDigest(host.registry, ref, hex);
  }

  /** An image whose archive is whole and free of conflicts: the first call makes its tree, the next finds it. */
  lemma FirstCallExtractsNextFinds(fs: FS, host: Host, hex: string, call: Call, again: Call)
    requires Rooted(host.shared) && WellFormed(fs) && IsSha256(host, call.ref, hex) && call.loads && again.ref == call.ref
    requires host.images(hex).sound && ConflictFreeArchive(RootfsDir(host, hex), host.images(hex).entries)
    requires var entries := host.images(hex).entries; forall i :: 0 <= i < |entries| ==> !entries[i].cut
    requires Vacant(fs, Segs(host.shared) + [hex] + ["rootfs"])
    ensures var root := Segs(host.shared) + [hex] + ["rootfs"];
      var (after, first) := Prepare(fs, host, call);
      && first == Ok(Shared(hex, true))
      && root in after.nodes && after.nodes[root].Dir?
      && HoldsArchive(MkdirAll(fs, root).fs, after, RootfsDir(host, hex), host.images(hex).entries)
      && Prepare(after, host, again) == (after, Ok(Shared(hex, false)))
  {
    TreeIs(host, hex);
    ResolvesTo(host, call.ref, hex);
    VacantFills(fs, host, hex);
  }

  lemma VacantFills(fs: FS, host: Host, hex: string)
    requires WellFormed(fs) && Tree(host, hex) != [] && Vacant(fs, Tree(host, hex))
    requires host.images(hex).sound && ConflictFreeArchive(RootfsDir(host, hex), host.images(hex).entries)
    requires var entries := host.images(hex).entries; forall i :: 0 <= i < |entries| ==> !entries[i].cut
    ensures var (after, first) := ForDigest(fs, host, hex, true);
      && first == Ok(Shared(hex, true))
      && Tree(host, hex) in after.nodes && after.nodes[Tree(host, hex)].Dir?
      && HoldsArchive(MkdirAll(fs, Tree(host, hex)).fs, after, RootfsDir(host, hex), host.images(hex).entries)
      && forall loads :: ForDigest(after, host, hex, loads) == (after, Ok(Shared(hex, false)))
  {
    var root := Tree(host, hex);
    var made := MkdirAll(fs, root);
    assert made.status.Done?;
    FreshRoot(fs, root);
    ArchiveIsExtracted(made.fs, RootfsDir(host, hex), host.images(hex).entries);
    var after := Unpacked(made.fs, host, hex).fs;
    assert root in made.fs.nodes;
    ExtractionKeepsTree(made.fs, RootfsDir(host, hex), host.images(hex).entries, host.images(hex).sound);
    forall loads
      ensures ForDigest(after, host, hex, loads) == (after, Ok(Shared(hex, false)))
    {
      HitsExactly(after, host, hex, loads);
      HitIs(after, host, hex, loads);
    }
  }

  lemma HitIs(fs: FS, host: Host, hex: string, loads: bool)
    requires ForDigest(fs, host, hex, loads).1.Ok? && Tree(host, hex) in fs.nodes
    ensures ForDigest(fs, host, hex, loads).1 == Ok(Shared(hex, false))
  {}

  /** What a call answers when something is wrong before the extraction; nothing is changed then. */
  lemma WrongCalls(fs: FS, host: Host, hex: string, call: Call)
    requires Rooted(host.shared) && WellFormed(fs)
    ensures call.ref !in host.registry || (call.ref.goarch != "arm64" && call.ref.goarch != "amd64") ==>
      Prepare(fs, host, call) == (fs, Err(Unresolved))
    ensures IsSha256(host, call.ref, hex) && Vacant(fs, Segs(host.shared) + [hex] + ["rootfs"]) && !call.loads ==>
      Prepare(fs, host, call) == (fs, Err(LoadFailed))
    ensures IsSha256(host, call.ref, hex) && FileAbove(fs, Segs(host.shared) + [hex] + ["rootfs"]) ==>
      Prepare(fs, host, call) == (fs, Err(StatFailed))
  {
    if IsSha256(host, call.ref, hex) {
      TreeIs(host, hex);
      ResolvesTo(host, call.ref, hex);
      var root := Tree(host, hex);
      if FileAbove(fs, root) {
        var q :| q in fs.nodes && fs.nodes[q].File? && q < root;
        BlockedByFile(fs, root, q);
      }
    }
  }

  predicate FileAbove(fs: FS, root: Path) { exists q :: q in fs.nodes && fs.nodes[q].File? && q < root }

  lemma BlockedByFile(fs: FS, root: Path, q: Path)
    requires WellFormed(fs) && q in fs.nodes && fs.nodes[q].File? && q < root
    ensures !MeetsSymlink(fs.nodes, root) && root !in fs.nodes && MeetsFile(fs.nodes, root)
  {
    FileBlocks(fs, root, q);
    if root in fs.nodes { AncestorsAreDirs(fs.nodes, root, q); }
  }

  // A broken extraction leaves its directory behind.

  /** After a broken extraction the next call takes what it left for a tree, if the directory is still there. */
  lemma BrokenTreeIsServedExactly(fs: FS, host: Host, call: Call, again: Call)
    requires Prepare(fs, host, call).1 == Err(ExtractFailed) && again.ref == call.ref
    requires WellFormed(fs)
    ensures var (left, _) := Prepare(fs, host, call);
      var (after, answer) := Prepare(left, host, again);
      var root := Tree(host, C.Resolve(host.registry, call.ref).value);
      (answer.Ok? && !answer.value.built && after == left) <==> root in left.nodes && !left.nodes[root].Symlink?
  {
    var hex := C.Resolve(host.registry, call.ref).value;
    var made := MkdirAll(fs, Tree(host, hex));
    MkdirAllKeepsTree(fs, Tree(host, hex));
    ExtractionKeepsTree(made.fs, RootfsDir(host, hex), host.images(hex).entries, host.images(hex).sound);
    HitsExactly(Prepare(fs, host, call).0, host, hex, again.loads);
  }

  /** An operation strictly below a directory leaves the directory. */
  lemma ApplyKeepsDir(fs: FS, root: Path, op: Op)
    requires root in fs.nodes && fs.nodes[root].Dir? && (Puts(op) ==> root < op.path)
    ensures var after := Apply(fs, op).fs; root in after.nodes && after.nodes[root].Dir?
  {}

  lemma {:induction false} ExtractionKeepsRoot(fs: FS, root: string, entries: seq<Entry>, sound: bool)
    requires Segs(root) in fs.nodes && fs.nodes[Segs(root)].Dir? && BelowRoot(Segs(root), Ops(root, entries))
    ensures var after := Extract(fs, root, entries, sound).fs; Segs(root) in after.nodes && after.nodes[Segs(root)].Dir?
    decreases |entries|
  {
    if entries != [] {
      assert Ops(root, entries)[0] == OpOf(root, entries[0]);
      ApplyKeepsDir(fs, Segs(root), OpOf(root, entries[0]));
      RestIsBelow(root, entries);
      ExtractionKeepsRoot(Apply(fs, OpOf(root, entries[0])).fs, root, entries[1..], sound);
    }
  }

  lemma EntriesAreBelow(dir: string, entries: seq<Entry>)
    requires forall i :: 0 <= i < |entries| && Acts(dir, entries[i]) ==> Segs(dir) < Target(dir, entries[i])
    ensures BelowRoot(Segs(dir), Ops(dir, entries))
  {
    AllOpFields(dir, entries);
    forall i | 0 <= i < |entries| && Puts(Ops(dir, entries)[i])
      ensures Segs(dir) < Ops(dir, entries)[i].path
    {
      assert SameFields(dir, entries[i], Ops(dir, entries)[i]);
    }
  }

  lemma RestIsBelow(root: string, entries: seq<Entry>)
    requires entries != [] && BelowRoot(Segs(root), Ops(root, entries))
    ensures BelowRoot(Segs(root), Ops(root, entries[1..]))
  {
    var ops, rest := Ops(root, entries), Ops(root, entries[1..]);
    assert forall i :: 0 <= i < |rest| ==> rest[i] == ops[i + 1];
  }

  /**
    A broken extraction is always served: where every entry of the image lies strictly below the
    root, the call after one that failed in the middle of the extraction answers with the
    leftover as a cached tree and changes nothing.
  */
  lemma BrokenTreeIsServed(fs: FS, host: Host, call: Call, again: Call)
    requires WellFormed(fs) && Prepare(fs, host, call).1 == Err(ExtractFailed) && again.ref == call.ref
    requires var hex := C.Resolve(host.registry, call.ref).value;
      var dir, entries := RootfsDir(host, hex), host.images(hex).entries;
      forall i :: 0 <= i < |entries| && Acts(dir, entries[i]) ==> Segs(dir) < Target(dir, entries[i])
    ensures var left := Prepare(fs, host, call).0;
      Prepare(left, host, again) == (left, Ok(Shared(C.Resolve(host.registry, call.ref).value, false)))
  {
    var hex := C.Resolve(host.registry, call.ref).value;
    BrokenTreeIsServedExactly(fs, host, call, again);
    EntriesAreBelow(RootfsDir(host, hex), host.images(hex).entries);
    MkdirAllKeepsTree(fs, Tree(host, hex));
    ExtractionKeepsRoot(MkdirAll(fs, Tree(host, hex)).fs, RootfsDir(host, hex), host.images(hex).entries,
                        host.images(hex).sound);
  }

  lemma HitsExactly(left: FS, host: Host, hex: string, loads: bool)
    requires WellFormed(left)
    ensures var (after, answer) := ForDigest(left, host, hex, loads);
      (answer.Ok? && !answer.value.built && after == left) <==>
      Tree(host, hex) in left.nodes && !left.nodes[Tree(host, hex)].Symlink?
  {
    var root := Tree(host, hex);
    if root in left.nodes && !left.nodes[root].Symlink? {
      forall q | q in left.nodes && q <= root
        ensures !left.nodes[q].Symlink?
      {
        AncestorsAreDirs(left.nodes, root, q);
      }
    }
  }

  /** An archive damaged in its first file: the call fails, and the next one serves the stump as the image. */
  lemma DamagedArchiveIsServed(fs: FS, host: Host, call: Call, hex: string, g: string, e: Entry, rest: seq<Entry>)
    requires Rooted(host.shared) && WellFormed(fs) && IsDigest(hex) && IsSegment(g) && g != UP
    requires C.Resolve(host.registry, call.ref) == Ok(hex) && host.images(hex).entries == [e] + rest
    requires e.name == g && e.typeflag.TypeReg? && e.cut && call.loads
    requires Tree(host, hex) !in fs.nodes && MkdirAll(fs, Tree(host, hex)).status.Done?
    ensures var (left, first) := Prepare(fs, host, call);
      var root := Tree(host, hex);
      && first == Err(ExtractFailed)
      && Prepare(left, host, call) == (left, Ok(Shared(hex, false)))
      && forall p :: Inside(root, p) ==> (p in left.nodes <==> p == root || p == root + [g])
  {
    DamagedTreeIsServed(fs, host, hex, g, e, rest);
  }

  lemma DamagedTreeIsServed(fs: FS, host: Host, hex: string, g: string, e: Entry, rest: seq<Entry>)
    requires Rooted(host.shared) && WellFormed(fs) && IsDigest(hex) && IsSegment(g) && g != UP
    requires host.images(hex).entries == [e] + rest && e.name == g && e.typeflag.TypeReg? && e.cut
    requires Tree(host, hex) !in fs.nodes && MkdirAll(fs, Tree(host, hex)).status.Done?
    ensures var (left, first) := ForDigest(fs, host, hex, true);
      var root := Tree(host, hex);
      && first == Err(ExtractFailed)
      && ForDigest(left, host, hex, true) == (left, Ok(Shared(hex, false)))
      && forall p :: Inside(root, p) ==> (p in left.nodes <==> p == root || p == root + [g])
  {
    var root, dir := Tree(host, hex), RootfsDir(host, hex);
    TreeIs(host, hex);
    FreshRoot(fs, root);
    var made := MkdirAll(fs, root).fs;
    PlainFileOp(dir, g, e);
    FirstFileIsCut(made, dir, g, e, rest, host.images(hex).sound);
    MissFills(fs, host, hex);
    HitsExactly(Unpacked(made, host, hex).fs, host, hex, true);
  }

  lemma MissFills(fs: FS, host: Host, hex: string)
    requires Tree(host, hex) !in fs.nodes && MkdirAll(fs, Tree(host, hex)).status.Done?
    requires Unpacked(MkdirAll(fs, Tree(host, hex)).fs, host, hex).status.Failed?
    ensures ForDigest(fs, host, hex, true) ==
      (Unpacked(MkdirAll(fs, Tree(host, hex)).fs, host, hex).fs, Err(ExtractFailed))
  {}

  lemma PlainFileOp(dir: string, g: string, e: Entry)
    requires Rooted(dir) && IsSegment(g) && g != UP && e.name == g && e.typeflag.TypeReg?
    ensures OpOf(dir, e) == PutFile(Segs(dir) + [g], e.body)
  {
    DottedSegmentJoins(dir, g);
    JoinsExactlyUnderTheRoot(dir, g);
    SegsAreClean(dir);
    SegsOfShow(true, Segs(dir) + [g]);
  }

  lemma FirstFileIsCut(made: FS, dir: string, g: string, e: Entry, rest: seq<Entry>, sound: bool)
    requires EmptyRoot(made, Segs(dir)) && OpOf(dir, e) == PutFile(Segs(dir) + [g], e.body) && e.cut
    ensures var o, root := Extract(made, dir, [e] + rest, sound), Segs(dir);
      && o.status.Failed? && WellFormed(o.fs) && root in o.fs.nodes && o.fs.nodes[root].Dir?
      && forall p :: Inside(root, p) ==> (p in o.fs.nodes <==> p == root || p == root + [g])
  {
    var root := Segs(dir);
    var op := PutFile(root + [g], e.body);
    assert Parent(root + [g]) == root;
    forall q | q in made.nodes && q <= root + [g]
      ensures made.nodes[q].Dir?
    {
      if q != root + [g] { AncestorsAreDirs(made.nodes, root, q); }
    }
    FileGrows(made, op);
    ApplyKeepsTree(made, op);
    assert forall p :: Inside(root, p) && p <= root + [g] ==> p == root || p == root + [g] by { NothingBetween(root, g); }
  }

  lemma NothingBetween(root: Path, g: string)
    ensures forall p :: Inside(root, p) && p <= root + [g] ==> p == root || p == root + [g]
  {
    forall p | Inside(root, p) && p <= root + [g]
      ensures p == root || p == root + [g]
    {
      if |p| == |root| { assert p == root; } else { assert |p| == |root + [g]|; }
    }
  }
}
