/** What every extraction keeps, however it ends: a well-formed tree, and everything outside the root. */
module TarSafety {
  import opened Prelude
  import opened Paths
  import opened SafeJoin
  import opened TarExtract

  /** Every node stands in a directory, and every file has an inode with contents. */
  predicate WellFormed(fs: FS) { Tree(fs.nodes) && Inodes(fs) }

  predicate Tree(nodes: map<Path, Node>) {
    && [] in nodes && nodes[[]].Dir?
    && forall p :: p in nodes ==> Parent(p) in nodes && (p != [] ==> nodes[Parent(p)].Dir?)
  }

  predicate Inodes(fs: FS) {
    && (forall p :: p in fs.nodes && fs.nodes[p].File? ==> fs.nodes[p].ino in fs.data)
    && (forall i :: i in fs.data ==> i < fs.next)
  }

  /** In a well-formed tree all ancestors are directories, not only the nearest. */
  lemma {:induction false} AncestorsAreDirs(nodes: map<Path, Node>, p: Path, q: Path)
    requires Tree(nodes) && p in nodes && q <= p
    ensures q in nodes && (q != p ==> nodes[q].Dir?)
    decreases |p|
  {
    if q != p {
      assert q <= Parent(p);
      AncestorsAreDirs(nodes, Parent(p), q);
    }
  }

  lemma MkdirAllKeepsTree(fs: FS, p: Path)
    requires WellFormed(fs)
    ensures WellFormed(MkdirAll(fs, p).fs)
    ensures MkdirAll(fs, p).status.Done? ==> p in MkdirAll(fs, p).fs.nodes && MkdirAll(fs, p).fs.nodes[p].Dir?
  {
    if MkdirAll(fs, p).status.Done? {
      var nodes := WithDirs(fs.nodes, p);
      forall q | q in nodes
        ensures Parent(q) in nodes && (q != [] ==> nodes[Parent(q)].Dir?)
      {
        if q !in fs.nodes {
          assert Parent(q) <= q <= p;
          if Parent(q) in fs.nodes { assert fs.nodes[Parent(q)].Dir?; }
        }
      }
    }
  }

  /** Removing a path that has nothing below it. */
  lemma RemoveKeepsTree(fs: FS, p: Path)
    requires WellFormed(fs)
    ensures WellFormed(Remove(fs, p))
    ensures p != [] && Parent(p) in fs.nodes && fs.nodes[Parent(p)].Dir? ==>
      Parent(p) in Remove(fs, p).nodes && Remove(fs, p).nodes[Parent(p)].Dir?
  {
    var after := Remove(fs, p);
    if after != fs {
      forall q | q in after.nodes
        ensures Parent(q) in after.nodes
      {
        assert Parent(q) <= q;
      }
    }
  }

  lemma PutKeepsTree(nodes: map<Path, Node>, p: Path, node: Node)
    requires Tree(nodes) && p !in nodes && Parent(p) in nodes && nodes[Parent(p)].Dir?
    ensures Tree(nodes[p := node])
  {}

  lemma WriteFileKeepsTree(fs: FS, p: Path, body: Data)
    requires WellFormed(fs) && Parent(p) in fs.nodes && fs.nodes[Parent(p)].Dir?
    ensures WellFormed(WriteFile(fs, p, body).fs)
  {
    if p !in fs.nodes { PutKeepsTree(fs.nodes, p, File(fs.next)); }
  }

  lemma MakeSymlinkKeepsTree(fs: FS, p: Path, text: string)
    requires WellFormed(fs) && Parent(p) in fs.nodes && fs.nodes[Parent(p)].Dir?
    ensures WellFormed(MakeSymlink(fs, p, text).fs)
  {
    if p !in fs.nodes { PutKeepsTree(fs.nodes, p, Symlink(text)); }
  }

  lemma MakeLinkKeepsTree(fs: FS, from: Path, p: Path)
    requires WellFormed(fs) && Parent(p) in fs.nodes && fs.nodes[Parent(p)].Dir?
    ensures WellFormed(MakeLink(fs, from, p).fs)
  {
    if p !in fs.nodes && from in fs.nodes { PutKeepsTree(fs.nodes, p, fs.nodes[from]); }
  }

  lemma ApplyKeepsTree(fs: FS, op: Op)
    requires WellFormed(fs)
    ensures WellFormed(Apply(fs, op).fs)
  {
    if !op.Skip? {
      MkdirAllKeepsTree(fs, op.path);
      MkdirAllKeepsTree(fs, Parent(op.path));
      var made := MkdirAll(fs, Parent(op.path)).fs;
      RemoveKeepsTree(made, op.path);
      match op {
        case PutFile(p, body) => if MkdirAll(fs, Parent(p)).status.Done? { WriteFileKeepsTree(made, p, body); }
        case PutSymlink(p, text) =>
          if MkdirAll(fs, Parent(p)).status.Done? && p != [] { MakeSymlinkKeepsTree(Remove(made, p), p, text); }
        case PutLink(p, from) =>
          if MkdirAll(fs, Parent(p)).status.Done? && p != [] { MakeLinkKeepsTree(Remove(made, p), from, p); }
        case _ =>
      }
    }
  }

  /** Every extraction, wherever its archive stops or fails, leaves a well-formed tree. */
  lemma {:induction false} ExtractionKeepsTree(fs: FS, root: string, entries: seq<Entry>, sound: bool)
    requires WellFormed(fs)
    ensures WellFormed(Extract(fs, root, entries, sound).fs)
    decreases |entries|
  {
    if entries != [] {
      ApplyKeepsTree(fs, OpOf(root, entries[0]));
      ExtractionKeepsTree(Apply(fs, OpOf(root, entries[0])).fs, root, entries[1..], sound);
    }
  }

  // Nothing outside the root changes.

  predicate Inside(root: Path, p: Path) { root <= p }

  /** The root's parent is there, so that nothing outside has to be made. */
  predicate Based(nodes: map<Path, Node>, root: Path) {
    root != [] ==> Parent(root) in nodes && nodes[Parent(root)].Dir?
  }

  /** No inode has names both inside and outside. */
  predicate NoSharing(nodes: map<Path, Node>, root: Path) {
    forall p, q :: p in nodes && q in nodes && !Inside(root, p) && Inside(root, q) && nodes[p].File? ==> nodes[p] != nodes[q]
  }

  predicate Closed(fs: FS, root: Path) { WellFormed(fs) && Based(fs.nodes, root) && NoSharing(fs.nodes, root) }

  ghost predicate SameOutside(before: FS, after: FS, root: Path) {
    && (forall p :: !Inside(root, p) ==> (p in before.nodes <==> p in after.nodes))
    && (forall p :: !Inside(root, p) && p in before.nodes ==> before.nodes[p] == after.nodes[p])
    && (forall p :: !Inside(root, p) && p in before.nodes ==> SameContent(before, after, before.nodes[p]))
  }

  predicate SameContent(before: FS, after: FS, node: Node) {
    node.File? && node.ino in before.data ==> node.ino in after.data && after.data[node.ino] == before.data[node.ino]
  }

  lemma SameOutsideChains(a: FS, b: FS, c: FS, root: Path)
    requires SameOutside(a, b, root) && SameOutside(b, c, root)
    ensures SameOutside(a, c, root)
  {}

  lemma BasedStays(before: FS, after: FS, root: Path)
    requires Based(before.nodes, root) && SameOutside(before, after, root)
    ensures Based(after.nodes, root)
  {
    if root != [] { assert !Inside(root, Parent(root)); }
  }

  lemma PutKeepsSharing(nodes: map<Path, Node>, root: Path, p: Path, node: Node)
    requires NoSharing(nodes, root) && Inside(root, p)
    requires node.File? ==> forall q :: q in nodes && !Inside(root, q) ==> nodes[q] != node
    ensures NoSharing(nodes[p := node], root)
  {}

  lemma DropKeepsSharing(nodes: map<Path, Node>, root: Path, p: Path)
    requires NoSharing(nodes, root)
    ensures NoSharing(nodes - {p}, root)
  {}

  /** Only the nodes of paths inside are different. */
  lemma NodesStayInside(fs: FS, root: Path, nodes: map<Path, Node>)
    requires forall p :: !Inside(root, p) ==> (p in nodes <==> p in fs.nodes)
    requires forall p :: !Inside(root, p) && p in nodes && p in fs.nodes ==> nodes[p] == fs.nodes[p]
    ensures SameOutside(fs, fs.(nodes := nodes), root)
  {}

  lemma MkdirAllStaysInside(fs: FS, root: Path, p: Path)
    requires Closed(fs, root) && (Inside(root, p) || (root != [] && p == Parent(root)))
    ensures SameOutside(fs, MkdirAll(fs, p).fs, root) && Closed(MkdirAll(fs, p).fs, root)
  {
    MkdirAllKeepsTree(fs, p);
    PrefixesAreThere(fs, root, p);
    var made := MkdirAll(fs, p).fs;
    NodesStayInside(fs, root, made.nodes);
    BasedStays(fs, made, root);
    DirsKeepSharing(fs.nodes, root, p);
  }

  /** Outside, everything on the way to the path is there already. */
  lemma PrefixesAreThere(fs: FS, root: Path, p: Path)
    requires Closed(fs, root) && (Inside(root, p) || (root != [] && p == Parent(root)))
    ensures forall q :: q in Prefixes(p) && !Inside(root, q) ==> q in fs.nodes
  {
    forall q | q in Prefixes(p) && !Inside(root, q)
      ensures q in fs.nodes
    {
      if Inside(root, p) { assert q <= root && q <= Parent(root); }
      AncestorsAreDirs(fs.nodes, Parent(root), q);
    }
  }

  lemma DirsKeepSharing(nodes: map<Path, Node>, root: Path, p: Path)
    requires NoSharing(nodes, root)
    ensures NoSharing(WithDirs(nodes, p), root)
  {}

  lemma DropStaysInside(fs: FS, root: Path, p: Path)
    requires Inside(root, p)
    ensures SameOutside(fs, fs.(nodes := fs.nodes - {p}), root)
  {}

  lemma RemoveStaysInside(fs: FS, root: Path, p: Path)
    requires Closed(fs, root) && Inside(root, p)
    ensures SameOutside(fs, Remove(fs, p), root) && Closed(Remove(fs, p), root)
  {
    RemoveKeepsTree(fs, p);
    if p in fs.nodes && p != [] && (fs.nodes[p].Dir? ==> IsEmptyDir(fs.nodes, p)) {
      DropKeepsSharing(fs.nodes, root, p);
      DropStaysInside(fs, root, p);
      BasedStays(fs, Remove(fs, p), root);
    }
  }

  lemma WriteFileStaysInside(fs: FS, root: Path, p: Path, body: Data)
    requires Closed(fs, root) && Inside(root, p) && Parent(p) in fs.nodes && fs.nodes[Parent(p)].Dir?
    ensures SameOutside(fs, WriteFile(fs, p, body).fs, root) && Closed(WriteFile(fs, p, body).fs, root)
  {
    WriteFileKeepsTree(fs, p, body);
    PutKeepsSharing(fs.nodes, root, p, File(fs.next));
    BasedStays(fs, WriteFile(fs, p, body).fs, root);
  }

  lemma MakeSymlinkStaysInside(fs: FS, root: Path, p: Path, text: string)
    requires Closed(fs, root) && Inside(root, p) && Parent(p) in fs.nodes && fs.nodes[Parent(p)].Dir?
    ensures SameOutside(fs, MakeSymlink(fs, p, text).fs, root) && Closed(MakeSymlink(fs, p, text).fs, root)
  {
    MakeSymlinkKeepsTree(fs, p, text);
    PutKeepsSharing(fs.nodes, root, p, Symlink(text));
    NodesStayInside(fs, root, MakeSymlink(fs, p, text).fs.nodes);
    BasedStays(fs, MakeSymlink(fs, p, text).fs, root);
  }

  lemma MakeLinkStaysInside(fs: FS, root: Path, from: Path, p: Path)
    requires Closed(fs, root) && Inside(root, p) && Inside(root, from) && Parent(p) in fs.nodes && fs.nodes[Parent(p)].Dir?
    ensures SameOutside(fs, MakeLink(fs, from, p).fs, root) && Closed(MakeLink(fs, from, p).fs, root)
  {
    MakeLinkKeepsTree(fs, from, p);
    if from in fs.nodes { PutKeepsSharing(fs.nodes, root, p, fs.nodes[from]); }
    NodesStayInside(fs, root, MakeLink(fs, from, p).fs.nodes);
    BasedStays(fs, MakeLink(fs, from, p).fs, root);
  }

  /** Every path an operation names is inside. */
  predicate Aims(op: Op, root: Path) {
    !op.Skip? ==> Inside(root, op.path) && (op.PutLink? ==> Inside(root, op.from))
  }

  lemma ApplyStaysInside(fs: FS, root: Path, op: Op)
    requires Closed(fs, root) && Aims(op, root)
    ensures SameOutside(fs, Apply(fs, op).fs, root) && Closed(Apply(fs, op).fs, root)
  {
    if op.PutDir? {
      MkdirAllStaysInside(fs, root, op.path);
    } else if !op.Skip? {
      var p := op.path;
      ParentNearRoot(root, p);
      MkdirAllStaysInside(fs, root, Parent(p));
      MkdirAllKeepsTree(fs, Parent(p));
      var made := MkdirAll(fs, Parent(p)).fs;
      if MkdirAll(fs, Parent(p)).status.Done? {
        PutStaysInside(made, root, op);
        SameOutsideChains(fs, made, Apply(fs, op).fs, root);
      }
    }
  }

  lemma ParentNearRoot(root: Path, p: Path)
    requires Inside(root, p)
    ensures Inside(root, Parent(p)) || (root != [] && Parent(p) == Parent(root))
  {
    if |p| == |root| { assert p == root; }
  }

  /** What follows the making of the parent directories. */
  function PutAt(fs: FS, op: Op): Outcome
    requires !op.Skip? && !op.PutDir?
  {
    match op
    case PutFile(p, body) => WriteFile(fs, p, body)
    case PutSymlink(p, text) => MakeSymlink(Remove(fs, p), p, text)
    case PutLink(p, from) => MakeLink(Remove(fs, p), from, p)
  }

  lemma PutStaysInside(fs: FS, root: Path, op: Op)
    requires !op.Skip? && !op.PutDir? && Closed(fs, root) && Aims(op, root)
    requires Parent(op.path) in fs.nodes && fs.nodes[Parent(op.path)].Dir?
    ensures SameOutside(fs, PutAt(fs, op).fs, root) && Closed(PutAt(fs, op).fs, root)
  {
    var p := op.path;
    if op.PutFile? {
      WriteFileStaysInside(fs, root, p, op.body);
    } else if p != [] {
      RemoveStaysInside(fs, root, p);
      RemoveKeepsTree(fs, p);
      if op.PutSymlink? {
        MakeSymlinkStaysInside(Remove(fs, p), root, p, op.text);
      } else {
        MakeLinkStaysInside(Remove(fs, p), root, op.from, p);
      }
      SameOutsideChains(fs, Remove(fs, p), PutAt(fs, op).fs, root);
    }
  }

  lemma JoinedIsInside(root: string, name: string)
    ensures SafeJoined(root, name).Ok? ==> Inside(Segs(root), Segs(SafeJoined(root, name).value))
  {
    JoinsExactlyUnderTheRoot(root, name);
  }

  lemma OpsAim(root: string, e: Entry)
    ensures Aims(OpOf(root, e), Segs(root))
  {
    JoinedIsInside(root, e.name);
    JoinedIsInside(root, e.linkname);
    JoinedOpsAim(SafeJoined(root, e.name), SafeJoined(root, e.linkname), e, Segs(root));
  }

  lemma JoinedOpsAim(joined: Result<string, JoinError>, link: Result<string, JoinError>, e: Entry, root: Path)
    requires joined.Ok? ==> Inside(root, Segs(joined.value))
    requires link.Ok? ==> Inside(root, Segs(link.value))
    ensures Aims(JoinedOp(joined, link, e), root)
  {}

  /**
    Every run, wherever its archive stops or fails: the tree stays well formed, and outside
    the root no node and no file content changes. (A run that would follow a symbolic link is
    `Strayed` before it does.)
  */
  lemma {:induction false} RunStaysInside(fs: FS, root: string, entries: seq<Entry>, sound: bool)
    requires Closed(fs, Segs(root))
    ensures var after := Extract(fs, root, entries, sound).fs;
      WellFormed(after) && SameOutside(fs, after, Segs(root)) && Closed(after, Segs(root))
    decreases |entries|
  {
    if entries != [] {
      var o := Apply(fs, OpOf(root, entries[0]));
      OpsAim(root, entries[0]);
      ApplyStaysInside(fs, Segs(root), OpOf(root, entries[0]));
      if o.status.Done? && !entries[0].cut {
        RunStaysInside(o.fs, root, entries[1..], sound);
        SameOutsideChains(fs, o.fs, Extract(fs, root, entries, sound).fs, Segs(root));
      }
    }
  }

  // Entries that leave no trace.

  /** Without the entries whose name is rejected, whose type is ignored or whose link target is rejected. */
  function Live(root: string, entries: seq<Entry>): seq<Entry> {
    if entries == [] then []
    else (if OpOf(root, entries[0]).Skip? && !entries[0].cut then [] else [entries[0]]) + Live(root, entries[1..])
  }

  lemma {:induction false} InertEntriesLeaveNoTrace(fs: FS, root: string, entries: seq<Entry>, sound: bool)
    ensures Extract(fs, root, Live(root, entries), sound) == Extract(fs, root, entries, sound)
    decreases |entries|
  {
    if entries != [] {
      var rest, live := entries[1..], Live(root, entries[1..]);
      if OpOf(root, entries[0]).Skip? && !entries[0].cut {
        assert [] + live == live;
        InertEntriesLeaveNoTrace(fs, root, rest, sound);
      } else {
        assert ([entries[0]] + live)[1..] == live;
        InertEntriesLeaveNoTrace(Apply(fs, OpOf(root, entries[0])).fs, root, rest, sound);
      }
    }
  }

  /** Which entries those are. */
  lemma InertExactly(root: string, e: Entry)
    ensures OpOf(root, e).Skip? <==>
      SafeJoined(root, e.name).Err? || e.typeflag.TypeOther? || (e.typeflag.TypeLink? && SafeJoined(root, e.linkname).Err?)
  {
    InertJoined(SafeJoined(root, e.name), SafeJoined(root, e.linkname), e);
  }

  lemma InertJoined(joined: Result<string, JoinError>, link: Result<string, JoinError>, e: Entry)
    ensures JoinedOp(joined, link, e).Skip? <==>
      joined.Err? || e.typeflag.TypeOther? || (e.typeflag.TypeLink? && link.Err?)
  {}
}
