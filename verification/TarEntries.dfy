/** What each type of entry does, told of entries and their joined names (vm/image_disk.go:151-197). */
module TarEntries {
  import opened Prelude
  import opened Paths
  import opened SafeJoin
  import opened TarExtract
  import opened TarSafety
  import opened TarTree

  /** The name joins to the root as this path. */
  predicate Lands(root: string, name: string, p: Path) {
    SafeJoined(root, name).Ok? && Segs(SafeJoined(root, name).value) == p
  }

  /** Above the path there are only directories, as far as there is anything. */
  predicate Clear(nodes: map<Path, Node>, p: Path) { forall q :: q in nodes && q <= Parent(p) ==> nodes[q].Dir? }

  /** Apart from one path, the directories on the way to it are made and nothing else is different. */
  ghost predicate OnlyAt(before: map<Path, Node>, after: map<Path, Node>, p: Path) {
    && (forall q :: q != p ==> (q in after <==> q in before || q <= p))
    && (forall q :: q != p && q in after ==> after[q] == if q in before then before[q] else Dir)
  }

  lemma OneEntry(fs: FS, root: string, e: Entry)
    requires !e.cut
    ensures Extract(fs, root, [e], true) == Apply(fs, OpOf(root, e))
  {
    assert [e][1..] == [];
  }

  lemma OpOfLanded(root: string, e: Entry, t: Path)
    requires Lands(root, e.name, t)
    ensures e.typeflag.TypeDir? ==> OpOf(root, e) == PutDir(t)
    ensures e.typeflag.TypeReg? ==> OpOf(root, e) == PutFile(t, e.body)
    ensures e.typeflag.TypeSymlink? ==> OpOf(root, e) == PutSymlink(t, e.linkname)
    ensures e.typeflag.TypeOther? ==> OpOf(root, e) == Skip
    ensures e.typeflag.TypeLink? ==>
      OpOf(root, e) == if SafeJoined(root, e.linkname).Ok? then PutLink(t, Segs(SafeJoined(root, e.linkname).value)) else Skip
  {
    JoinedOpIs(SafeJoined(root, e.name), SafeJoined(root, e.linkname), e, t);
  }

  lemma JoinedOpIs(joined: Result<string, JoinError>, link: Result<string, JoinError>, e: Entry, t: Path)
    requires joined.Ok? && Segs(joined.value) == t
    ensures JoinedOp(joined, link, e) ==
      match e.typeflag
      case TypeDir => PutDir(t)
      case TypeReg => PutFile(t, e.body)
      case TypeSymlink => PutSymlink(t, e.linkname)
      case TypeLink => if link.Ok? then PutLink(t, Segs(link.value)) else Skip
      case TypeOther => Skip
  {}

  // Making the directories on the way.

  lemma ParentsMade(fs: FS, p: Path)
    requires WellFormed(fs) && p != [] && Clear(fs.nodes, p)
    ensures var o := MkdirAll(fs, Parent(p));
      && o.status.Done? && o.fs == fs.(nodes := o.fs.nodes) && WellFormed(o.fs)
      && (p in o.fs.nodes <==> p in fs.nodes) && (p in fs.nodes ==> o.fs.nodes[p] == fs.nodes[p])
      && OnlyAt(fs.nodes, o.fs.nodes, p)
      && Parent(p) in o.fs.nodes && o.fs.nodes[Parent(p)].Dir?
  {
    ProperPrefixes(p);
    MkdirAllKeepsTree(fs, Parent(p));
    forall q
      ensures q != p ==> (q in MkdirAll(fs, Parent(p)).fs.nodes <==> q in fs.nodes || q <= p)
    {
      assert q in Prefixes(Parent(p)) <==> q in Prefixes(p) && q != p;
    }
  }

  /** A file above the path fails every entry that puts something there, and nothing is made. */
  lemma FileInTheWay(fs: FS, root: string, e: Entry, t: Path, q: Path)
    requires WellFormed(fs) && !e.cut && Lands(root, e.name, t) && q in fs.nodes && fs.nodes[q].File? && q <= Parent(t)
    requires !e.typeflag.TypeOther? && (e.typeflag.TypeLink? ==> SafeJoined(root, e.linkname).Ok?)
    ensures Extract(fs, root, [e], true) == Outcome(fs, Failed)
  {
    OneEntry(fs, root, e);
    OpOfLanded(root, e, t);
    FileBlocks(fs, Parent(t), q);
    if e.typeflag.TypeDir? { FileBlocks(fs, t, q); }
  }

  lemma FileBlocks(fs: FS, p: Path, q: Path)
    requires WellFormed(fs) && q in fs.nodes && fs.nodes[q].File? && q <= p
    ensures MkdirAll(fs, p) == Outcome(fs, Failed)
  {
    forall s | s in fs.nodes && s <= p
      ensures !fs.nodes[s].Symlink?
    {
      Comparable(s, q, p);
      if s <= q { AncestorsAreDirs(fs.nodes, q, s); } else { AncestorsAreDirs(fs.nodes, s, q); }
    }
  }

  // One entry of each type.

  /** `TypeDir`: the directory and all above it are there. */
  lemma DirEntry(fs: FS, root: string, e: Entry, t: Path)
    requires WellFormed(fs) && !e.cut && e.typeflag.TypeDir? && Lands(root, e.name, t)
    requires Clear(fs.nodes, t) && (t in fs.nodes ==> !fs.nodes[t].Symlink?)
    ensures var o := Extract(fs, root, [e], true);
      if t in fs.nodes && fs.nodes[t].File? then o == Outcome(fs, Failed)
      else
        && o.status.Done? && t in o.fs.nodes && o.fs.nodes[t].Dir? && OnlyAt(fs.nodes, o.fs.nodes, t)
        && o.fs.data == fs.data
  {
    OneEntry(fs, root, e);
    OpOfLanded(root, e, t);
    if t in fs.nodes && fs.nodes[t].File? {
      FileBlocks(fs, t, t);
    } else {
      AllDirs(fs.nodes, t);
    }
  }

  lemma AllDirs(nodes: map<Path, Node>, t: Path)
    requires Clear(nodes, t) && (t in nodes ==> nodes[t].Dir?)
    ensures forall q :: q in nodes && q <= t ==> nodes[q].Dir?
  {
    forall q | q in nodes && q <= t && q != t
      ensures nodes[q].Dir?
    {
      assert q <= Parent(t);
    }
  }

  /** `TypeReg`: a new inode with the body, or the body in the inode that is there. */
  lemma RegEntry(fs: FS, root: string, e: Entry, t: Path)
    requires WellFormed(fs) && !e.cut && e.typeflag.TypeReg? && Lands(root, e.name, t)
    requires t != [] && Clear(fs.nodes, t) && (t in fs.nodes ==> !fs.nodes[t].Symlink?)
    ensures var o := Extract(fs, root, [e], true);
      if t in fs.nodes && fs.nodes[t].Dir? then o.status.Failed? && OnlyAt(fs.nodes, o.fs.nodes, t) && o.fs.data == fs.data
      else
        && o.status.Done? && t in o.fs.nodes && o.fs.nodes[t].File? && OnlyAt(fs.nodes, o.fs.nodes, t)
        && o.fs.data == fs.data[o.fs.nodes[t].ino := e.body]
        && (if t in fs.nodes then o.fs.nodes[t] == fs.nodes[t] else o.fs.nodes[t].ino !in fs.data)
  {
    OneEntry(fs, root, e);
    OpOfLanded(root, e, t);
    ParentsMade(fs, t);
  }

  predicate Replaceable(nodes: map<Path, Node>, t: Path) { t in nodes && nodes[t].Dir? ==> IsEmptyDir(nodes, t) }

  lemma RemovedForEntry(fs: FS, t: Path)
    requires WellFormed(fs) && t != [] && Clear(fs.nodes, t)
    ensures var made := MkdirAll(fs, Parent(t)).fs;
      var nodes := Remove(made, t).nodes;
      && OnlyAt(fs.nodes, nodes, t) && (t in nodes <==> !Replaceable(fs.nodes, t)) && (t in nodes ==> nodes[t] == fs.nodes[t])
      && Remove(made, t) == fs.(nodes := nodes)
  {
    ParentsMade(fs, t);
    var made := MkdirAll(fs, Parent(t)).fs;
    if t in fs.nodes {
      forall q
        ensures t <= q ==> (q in made.nodes <==> q in fs.nodes)
      {
        if t <= q && q != t && q <= t { assert false; }
      }
    }
  }

  /** `TypeSymlink`: whatever stood there is replaced by the link, unless it is a directory with contents. */
  lemma SymlinkEntry(fs: FS, root: string, e: Entry, t: Path)
    requires WellFormed(fs) && !e.cut && e.typeflag.TypeSymlink? && Lands(root, e.name, t)
    requires t != [] && Clear(fs.nodes, t)
    ensures var o := Extract(fs, root, [e], true);
      && OnlyAt(fs.nodes, o.fs.nodes, t) && o.fs.data == fs.data
      && (o.status.Done? <==> e.linkname != "" && Replaceable(fs.nodes, t)) && !o.status.Strayed?
      && (o.status.Done? ==> t in o.fs.nodes && o.fs.nodes[t] == Symlink(e.linkname))
  {
    OneEntry(fs, root, e);
    OpOfLanded(root, e, t);
    ParentsMade(fs, t);
    RemovedForEntry(fs, t);
  }

  /** `TypeLink`: the path becomes a further name of the file at the link target, which stays. */
  lemma LinkEntry(fs: FS, root: string, e: Entry, t: Path, l: Path)
    requires WellFormed(fs) && !e.cut && e.typeflag.TypeLink? && Lands(root, e.name, t) && Lands(root, e.linkname, l)
    requires t != [] && Clear(fs.nodes, t) && l in fs.nodes && !fs.nodes[l].Symlink?
    ensures var o := Extract(fs, root, [e], true);
      && OnlyAt(fs.nodes, o.fs.nodes, t) && o.fs.data == fs.data && !o.status.Strayed?
      && (o.status.Done? <==> fs.nodes[l].File? && l != t && Replaceable(fs.nodes, t))
      && (o.status.Done? ==> t in o.fs.nodes && l in o.fs.nodes && o.fs.nodes[t] == o.fs.nodes[l] == fs.nodes[l])
  {
    OneEntry(fs, root, e);
    OpOfLanded(root, e, t);
    ParentsMade(fs, t);
    RemovedForEntry(fs, t);
    var after := Remove(MkdirAll(fs, Parent(t)).fs, t);
    forall q | q in after.nodes && q <= l
      ensures !after.nodes[q].Symlink?
    {
      if q in fs.nodes { AncestorsAreDirs(fs.nodes, l, q); }
    }
  }

  /** An entry of another type, or one whose names are rejected, does nothing. */
  lemma OtherEntry(fs: FS, root: string, e: Entry)
    requires !e.cut
    requires
      || SafeJoined(root, e.name).Err? || e.typeflag.TypeOther?
      || (e.typeflag.TypeLink? && SafeJoined(root, e.linkname).Err?)
    ensures Extract(fs, root, [e], true) == Outcome(fs, Done)
  {
    OneEntry(fs, root, e);
    InertExactly(root, e);
  }

  /** A successful extraction read the whole archive. */
  lemma {:induction false} SuccessReadsAll(fs: FS, root: string, entries: seq<Entry>, sound: bool)
    requires Extract(fs, root, entries, sound).status.Done?
    ensures sound && forall i :: 0 <= i < |entries| ==> !entries[i].cut
    decreases |entries|
  {
    if entries != [] { SuccessReadsAll(Apply(fs, OpOf(root, entries[0])).fs, root, entries[1..], sound); }
  }

  /** A link to nothing fails. */
  lemma MissingLinkTarget(fs: FS, root: string, e: Entry, t: Path, l: Path)
    requires WellFormed(fs) && !e.cut && e.typeflag.TypeLink? && Lands(root, e.name, t) && Lands(root, e.linkname, l)
    requires t != [] && Clear(fs.nodes, t) && l !in fs.nodes && !(l <= t)
    requires forall q :: q in fs.nodes && q <= l ==> !fs.nodes[q].Symlink?
    ensures Extract(fs, root, [e], true).status.Failed?
  {
    OneEntry(fs, root, e);
    OpOfLanded(root, e, t);
    ParentsMade(fs, t);
    RemovedForEntry(fs, t);
  }

  // Whole archives, told of their entries.

  predicate Acts(root: string, e: Entry) {
    SafeJoined(root, e.name).Ok? && !e.typeflag.TypeOther? && (e.typeflag.TypeLink? ==> SafeJoined(root, e.linkname).Ok?)
  }

  function Target(root: string, e: Entry): Path
    requires SafeJoined(root, e.name).Ok?
  {
    Segs(SafeJoined(root, e.name).value)
  }

  function LinkTarget(root: string, e: Entry): Path
    requires SafeJoined(root, e.linkname).Ok?
  {
    Segs(SafeJoined(root, e.linkname).value)
  }

  predicate IsFile(e: Entry) { e.typeflag.TypeReg? || e.typeflag.TypeLink? }

  /**
    Entries that do something go to different paths strictly below the root, only directories have
    entries below them, symbolic links have a text, and each hard link comes after its target, which
    is a file of the archive.
  */
  predicate ConflictFreeArchive(root: string, entries: seq<Entry>) {
    && (forall i :: 0 <= i < |entries| && Acts(root, entries[i]) ==> Segs(root) < Target(root, entries[i]))
    && (forall i, j :: 0 <= i < j < |entries| ==> ApartEntries(root, entries[i], entries[j]))
    && (forall i :: 0 <= i < |entries| && entries[i].typeflag.TypeSymlink? && Acts(root, entries[i]) ==>
          entries[i].linkname != "")
    && LinksFollowTargets(root, entries)
  }

  /** Different paths, neither below the other unless the upper one is a directory. */
  predicate ApartEntries(root: string, d: Entry, e: Entry) {
    Acts(root, d) && Acts(root, e) ==>
      && Target(root, d) != Target(root, e)
      && (Target(root, d) < Target(root, e) ==> d.typeflag.TypeDir?)
      && (Target(root, e) < Target(root, d) ==> e.typeflag.TypeDir?)
  }

  predicate LinksFollowTargets(root: string, entries: seq<Entry>) {
    forall i :: 0 <= i < |entries| && Acts(root, entries[i]) && entries[i].typeflag.TypeLink? ==>
      exists j :: 0 <= j < i && NamesFileAt(root, entries[j], LinkTarget(root, entries[i]))
  }

  predicate NamesFileAt(root: string, e: Entry, p: Path) { Acts(root, e) && IsFile(e) && Target(root, e) == p }

  /** What one entry asks for is there. */
  predicate Holds(fs: FS, root: string, e: Entry)
    requires Acts(root, e)
  {
    var t := Target(root, e);
    && t in fs.nodes
    && match e.typeflag
       case TypeDir => fs.nodes[t].Dir?
       case TypeReg => fs.nodes[t].File? && fs.nodes[t].ino in fs.data && fs.data[fs.nodes[t].ino] == e.body
       case TypeSymlink => fs.nodes[t] == Symlink(e.linkname)
       case TypeLink =>
         var l := LinkTarget(root, e);
         l in fs.nodes && fs.nodes[l].File? && fs.nodes[t] == fs.nodes[l]
       case TypeOther => true
  }

  predicate OnTheWay(root: string, entries: seq<Entry>, p: Path) {
    exists i :: 0 <= i < |entries| && Acts(root, entries[i]) && p <= Target(root, entries[i])
  }

  predicate Named(root: string, entries: seq<Entry>, p: Path) {
    exists i :: 0 <= i < |entries| && Acts(root, entries[i]) && p == Target(root, entries[i])
  }

  /** Exactly what the entries declare, on top of what was there. */
  ghost predicate HoldsArchive(before: FS, after: FS, root: string, entries: seq<Entry>) {
    && (forall p :: p in after.nodes <==> p in before.nodes || OnTheWay(root, entries, p))
    && Kept(before, after)
    && (forall p :: p in after.nodes && p !in before.nodes && !Named(root, entries, p) ==> after.nodes[p].Dir?)
    && (forall i :: 0 <= i < |entries| && Acts(root, entries[i]) ==> Holds(after, root, entries[i]))
    && (forall i, j :: 0 <= i < j < |entries| ==> OwnInode(after, root, entries[i], entries[j]))
  }

  /** Two regular files have an inode each. */
  predicate OwnInode(fs: FS, root: string, d: Entry, e: Entry) {
    Acts(root, d) && Acts(root, e) && d.typeflag.TypeReg? && e.typeflag.TypeReg? ==>
      && Target(root, d) in fs.nodes && Target(root, e) in fs.nodes
      && fs.nodes[Target(root, d)] != fs.nodes[Target(root, e)]
  }

  /** The operation of an entry, field by field. */
  lemma OpFields(root: string, e: Entry)
    ensures SameFields(root, e, OpOf(root, e))
  {
    InertExactly(root, e);
    if Acts(root, e) { OpOfLanded(root, e, Target(root, e)); }
  }

  lemma AllOpFields(root: string, entries: seq<Entry>)
    ensures forall i :: 0 <= i < |entries| ==> SameFields(root, entries[i], Ops(root, entries)[i])
  {
    forall i | 0 <= i < |entries|
      ensures SameFields(root, entries[i], Ops(root, entries)[i])
    {
      OpFields(root, entries[i]);
    }
  }

  predicate SameFields(root: string, e: Entry, op: Op) {
    && (Puts(op) <==> Acts(root, e))
    && (Acts(root, e) ==>
          && op.path == Target(root, e)
          && (op.PutDir? <==> e.typeflag.TypeDir?)
          && (op.PutFile? <==> e.typeflag.TypeReg?) && (op.PutFile? ==> op.body == e.body)
          && (op.PutSymlink? <==> e.typeflag.TypeSymlink?) && (op.PutSymlink? ==> op.text == e.linkname)
          && (op.PutLink? <==> e.typeflag.TypeLink?) && (op.PutLink? ==> op.from == LinkTarget(root, e)))
  }

  // From entries to operations and back.

  /** Entries and operations side by side. */
  predicate Match(root: string, entries: seq<Entry>, ops: seq<Op>) {
    |ops| == |entries| && forall i :: 0 <= i < |entries| ==> SameFields(root, entries[i], ops[i])
  }

  lemma LinksMatch(root: string, entries: seq<Entry>, ops: seq<Op>)
    requires Match(root, entries, ops)
    ensures LinksFollowTargets(root, entries) <==> LinksFollow(ops)
  {
    if LinksFollowTargets(root, entries) {
      forall i | 0 <= i < |ops| && ops[i].PutLink?
        ensures exists j :: 0 <= j < i && NamesFile(ops[j], ops[i].from)
      {
        assert SameFields(root, entries[i], ops[i]);
        var j :| 0 <= j < i && NamesFileAt(root, entries[j], LinkTarget(root, entries[i]));
        assert SameFields(root, entries[j], ops[j]);
        assert NamesFile(ops[j], ops[i].from);
      }
    }
    if LinksFollow(ops) {
      forall i | 0 <= i < |entries| && Acts(root, entries[i]) && entries[i].typeflag.TypeLink?
        ensures exists j :: 0 <= j < i && NamesFileAt(root, entries[j], LinkTarget(root, entries[i]))
      {
        assert SameFields(root, entries[i], ops[i]);
        var j :| 0 <= j < i && NamesFile(ops[j], ops[i].from);
        assert SameFields(root, entries[j], ops[j]);
        assert NamesFileAt(root, entries[j], LinkTarget(root, entries[i]));
      }
    }
  }

  lemma ConflictsMatch(root: string, entries: seq<Entry>, ops: seq<Op>)
    requires Match(root, entries, ops) && ConflictFreeArchive(root, entries)
    ensures ConflictFree(Segs(root), ops)
  {
    LinksMatch(root, entries, ops);
    forall i | 0 <= i < |ops| && Puts(ops[i])
      ensures Segs(root) < ops[i].path
    {
      assert SameFields(root, entries[i], ops[i]);
    }
    forall i, j | 0 <= i < j < |ops| && Puts(ops[i]) && Puts(ops[j])
      ensures ops[i].path != ops[j].path
      ensures ops[i].path < ops[j].path ==> ops[i].PutDir?
      ensures ops[j].path < ops[i].path ==> ops[j].PutDir?
    {
      assert SameFields(root, entries[i], ops[i]) && SameFields(root, entries[j], ops[j]);
      assert ApartEntries(root, entries[i], entries[j]);
    }
    forall i | 0 <= i < |ops| && ops[i].PutSymlink?
      ensures ops[i].text != ""
    {
      assert SameFields(root, entries[i], ops[i]);
    }
  }

  lemma WaysMatch(root: string, entries: seq<Entry>, ops: seq<Op>, p: Path)
    requires Match(root, entries, ops)
    ensures OnTheWay(root, entries, p) <==> Reaches(ops, p)
    ensures Named(root, entries, p) <==> Declares(ops, p)
  {
    if OnTheWay(root, entries, p) {
      var i :| 0 <= i < |entries| && Acts(root, entries[i]) && p <= Target(root, entries[i]);
      assert SameFields(root, entries[i], ops[i]);
    }
    if Reaches(ops, p) {
      var i :| 0 <= i < |ops| && Puts(ops[i]) && p <= ops[i].path;
      assert SameFields(root, entries[i], ops[i]);
    }
    if Named(root, entries, p) {
      var i :| 0 <= i < |entries| && Acts(root, entries[i]) && p == Target(root, entries[i]);
      assert SameFields(root, entries[i], ops[i]);
    }
    if Declares(ops, p) {
      var i :| 0 <= i < |ops| && Puts(ops[i]) && p == ops[i].path;
      assert SameFields(root, entries[i], ops[i]);
    }
  }

  lemma StandsHolds(fs: FS, root: string, e: Entry, op: Op)
    requires SameFields(root, e, op) && Acts(root, e) && Stands(fs, op)
    ensures Holds(fs, root, e)
  {}

  lemma TreeHolds(before: FS, after: FS, root: string, entries: seq<Entry>, ops: seq<Op>)
    requires Match(root, entries, ops) && IsDeclaredTree(before, after, ops)
    ensures HoldsArchive(before, after, root, entries)
  {
    forall p
      ensures (OnTheWay(root, entries, p) <==> Reaches(ops, p)) && (Named(root, entries, p) <==> Declares(ops, p))
    {
      WaysMatch(root, entries, ops, p);
    }
    forall i | 0 <= i < |entries| && Acts(root, entries[i])
      ensures Holds(after, root, entries[i])
    {
      assert Stands(after, ops[i]);
      StandsHolds(after, root, entries[i], ops[i]);
    }
    forall i, j | 0 <= i < j < |entries|
      ensures OwnInode(after, root, entries[i], entries[j])
    {
      assert SameFields(root, entries[i], ops[i]) && SameFields(root, entries[j], ops[j]);
    }
  }

  /**
    A conflict-free archive extracts into an empty root without error and is then exactly there:
    the paths of its entries and of the directories on the way to them, each entry as its type asks
    for, hard links on their target's inode, regular files on inodes of their own, nothing else.
  */
  lemma ArchiveIsExtracted(before: FS, root: string, entries: seq<Entry>)
    requires EmptyRoot(before, Segs(root)) && ConflictFreeArchive(root, entries)
    requires forall i :: 0 <= i < |entries| ==> !entries[i].cut
    ensures var o := Extract(before, root, entries, true);
      o.status.Done? && HoldsArchive(before, o.fs, root, entries)
  {
    var ops := Ops(root, entries);
    AllOpFields(root, entries);
    ConflictsMatch(root, entries, ops);
    ExtractionIsTheDeclaredTree(before, root, entries);
    TreeHolds(before, Extract(before, root, entries, true).fs, root, entries, ops);
  }

  /** And the order of its entries does not matter, as long as each link follows its target. */
  lemma ArchiveOrderDoesNotMatter(before: FS, root: string, entries: seq<Entry>, reordered: seq<Entry>)
    requires EmptyRoot(before, Segs(root)) && multiset(entries) == multiset(reordered)
    requires ConflictFreeArchive(root, entries) && LinksFollowTargets(root, reordered)
    requires forall i :: 0 <= i < |entries| ==> !entries[i].cut
    ensures var a, b := Extract(before, root, entries, true), Extract(before, root, reordered, true);
      a.status.Done? && b.status.Done? && SameView(a.fs, b.fs)
  {
    AllOpFields(root, entries);
    AllOpFields(root, reordered);
    ConflictsMatch(root, entries, Ops(root, entries));
    LinksMatch(root, reordered, Ops(root, reordered));
    OrderDoesNotMatter(before, root, entries, reordered);
  }
}
