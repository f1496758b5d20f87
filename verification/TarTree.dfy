/** What a successful extraction into an empty root is: the tree its archive declares. */
module TarTree {
  import opened Paths
  import opened TarExtract
  import opened TarSafety

  function Ops(root: string, entries: seq<Entry>): (ops: seq<Op>)
    ensures |ops| == |entries| && forall i :: 0 <= i < |ops| ==> ops[i] == OpOf(root, entries[i])
  {
    seq(|entries|, i requires 0 <= i < |entries| => OpOf(root, entries[i]))
  }

  predicate Puts(op: Op) { !op.Skip? }

  // Archives without conflicts.

  predicate BelowRoot(root: Path, ops: seq<Op>) {
    forall i :: 0 <= i < |ops| && Puts(ops[i]) ==> root < ops[i].path
  }

  predicate DistinctPaths(ops: seq<Op>) {
    forall i, j :: 0 <= i < j < |ops| && Puts(ops[i]) && Puts(ops[j]) ==> ops[i].path != ops[j].path
  }

  /** Only directories have entries below them; in particular no entry goes through a symbolic link. */
  predicate OnlyDirsContain(ops: seq<Op>) {
    forall i, j :: 0 <= i < |ops| && 0 <= j < |ops| && Puts(ops[i]) && Puts(ops[j]) && ops[i].path < ops[j].path ==>
      ops[i].PutDir?
  }

  predicate NamesFile(op: Op, p: Path) { (op.PutFile? || op.PutLink?) && op.path == p }

  /** Each hard link comes after its target, which is a file of the archive. */
  predicate LinksFollow(ops: seq<Op>) {
    forall i :: 0 <= i < |ops| && ops[i].PutLink? ==> exists j :: 0 <= j < i && NamesFile(ops[j], ops[i].from)
  }

  predicate SymlinksHaveText(ops: seq<Op>) { forall i :: 0 <= i < |ops| && ops[i].PutSymlink? ==> ops[i].text != "" }

  predicate ConflictFree(root: Path, ops: seq<Op>) {
    BelowRoot(root, ops) && DistinctPaths(ops) && OnlyDirsContain(ops) && LinksFollow(ops) && SymlinksHaveText(ops)
  }

  predicate EmptyRoot(fs: FS, root: Path) {
    WellFormed(fs) && root in fs.nodes && fs.nodes[root].Dir? && IsEmptyDir(fs.nodes, root)
  }

  // The declared tree, as a relation between the file system before and after.

  predicate Reaches(ops: seq<Op>, p: Path) { exists i :: 0 <= i < |ops| && Puts(ops[i]) && p <= ops[i].path }

  predicate Declares(ops: seq<Op>, p: Path) { exists i :: 0 <= i < |ops| && Puts(ops[i]) && p == ops[i].path }

  /** The paths are the old ones, those of the entries, and their parents. */
  ghost predicate Domain(before: FS, after: FS, ops: seq<Op>) {
    forall p :: p in after.nodes <==> p in before.nodes || Reaches(ops, p)
  }

  /** Old nodes and contents are kept. */
  predicate Kept(before: FS, after: FS) {
    && (forall p :: p in before.nodes ==> p in after.nodes && after.nodes[p] == before.nodes[p])
    && (forall i :: i in before.data ==> i in after.data && after.data[i] == before.data[i])
  }

  /** New paths that no entry names are directories. */
  predicate Implied(before: FS, after: FS, ops: seq<Op>) {
    forall p :: p in after.nodes && p !in before.nodes && !Declares(ops, p) ==> after.nodes[p].Dir?
  }

  /** What the entry asked for stands at its path: for a link, the target's own inode. */
  predicate Stands(fs: FS, op: Op) {
    Puts(op) ==>
      && op.path in fs.nodes
      && match op
         case PutDir(p) => fs.nodes[p].Dir?
         case PutFile(p, body) => fs.nodes[p].File? && fs.nodes[p].ino in fs.data && fs.data[fs.nodes[p].ino] == body
         case PutSymlink(p, text) => fs.nodes[p] == Symlink(text)
         case PutLink(p, from) => from in fs.nodes && fs.nodes[p].File? && fs.nodes[p] == fs.nodes[from]
  }

  predicate AllStand(fs: FS, ops: seq<Op>) { forall i :: 0 <= i < |ops| ==> Stands(fs, ops[i]) }

  /** Each regular file got an inode of its own. */
  predicate OwnInodes(before: FS, after: FS, ops: seq<Op>) {
    && before.next <= after.next
    && (forall i :: 0 <= i < |ops| && ops[i].PutFile? ==>
          ops[i].path in after.nodes && after.nodes[ops[i].path].File? && before.next <= after.nodes[ops[i].path].ino < after.next)
    && (forall i, j :: 0 <= i < j < |ops| && ops[i].PutFile? && ops[j].PutFile? ==>
          ops[i].path in after.nodes && ops[j].path in after.nodes && after.nodes[ops[i].path] != after.nodes[ops[j].path])
  }

  ghost predicate IsDeclaredTree(before: FS, after: FS, ops: seq<Op>) {
    Domain(before, after, ops) && Kept(before, after) && Implied(before, after, ops) && AllStand(after, ops)
    && OwnInodes(before, after, ops)
  }

  // One more entry.

  /** Nothing stands in the way of an entry of a conflict-free archive. */
  lemma PathIsFree(before: FS, after: FS, root: Path, ops: seq<Op>, p: Path)
    requires EmptyRoot(before, root) && IsDeclaredTree(before, after, ops)
    requires root < p && !Declares(ops, p)
    requires forall i :: 0 <= i < |ops| && Puts(ops[i]) && ops[i].path < p ==> ops[i].PutDir?
    ensures forall q :: q in after.nodes && q <= p ==> after.nodes[q].Dir?
    ensures p !in before.nodes
  {
    forall q | q in after.nodes && q <= p
      ensures after.nodes[q].Dir?
    {
      if q in before.nodes {
        Comparable(q, root, p);
        if q <= root { AncestorsAreDirs(before.nodes, root, q); }
      } else if Declares(ops, q) {
        var i :| 0 <= i < |ops| && Puts(ops[i]) && q == ops[i].path;
        assert Stands(after, ops[i]);
      }
    }
  }

  lemma Comparable(q: Path, r: Path, p: Path)
    requires q <= p && r <= p
    ensures q <= r || r <= q
  {}

  /** The shape every successful step has: prefixes made, the node put, the rest kept. */
  ghost predicate Grows(fs: FS, after: FS, op: Op)
    requires Puts(op)
  {
    && (forall q :: q in after.nodes <==> q in fs.nodes || q <= op.path)
    && Kept(fs, after)
    && (forall q :: q in after.nodes && q !in fs.nodes && q != op.path ==> after.nodes[q].Dir?)
    && Stands(after, op)
    && (op.PutFile? ==> after.nodes[op.path] == File(fs.next) && after.next == fs.next + 1)
    && (!op.PutFile? ==> after.next == fs.next)
  }

  lemma MadeParent(fs: FS, p: Path)
    requires p != [] && p !in fs.nodes && forall q :: q in fs.nodes && q <= p ==> fs.nodes[q].Dir?
    ensures var o := MkdirAll(fs, Parent(p));
      && o.status.Done? && o.fs == fs.(nodes := o.fs.nodes)
      && p !in o.fs.nodes
      && (forall q :: q in o.fs.nodes <==> q in fs.nodes || (q <= p && q != p))
      && (forall q :: q in o.fs.nodes ==> o.fs.nodes[q] == if q in fs.nodes then fs.nodes[q] else Dir)
  {
    ProperPrefixes(p);
  }

  lemma ProperPrefixes(p: Path)
    requires p != []
    ensures forall q :: q in Prefixes(Parent(p)) <==> q in Prefixes(p) && q != p
  {
    forall q | q in Prefixes(p) && q != p
      ensures q in Prefixes(Parent(p))
    {
      assert |q| < |p|;
    }
  }

  lemma PutGrows(fs: FS, made: FS, after: FS, op: Op, node: Node)
    requires Puts(op) && op.path != [] && op.path !in fs.nodes && op.path !in made.nodes
    requires made == fs.(nodes := made.nodes) && after == made.(nodes := made.nodes[op.path := node])
    requires forall q :: q in made.nodes <==> q in fs.nodes || (q <= op.path && q != op.path)
    requires forall q :: q in made.nodes ==> made.nodes[q] == if q in fs.nodes then fs.nodes[q] else Dir
    requires Stands(after, op) && !op.PutFile?
    ensures Grows(fs, after, op)
  {}

  lemma DirGrows(fs: FS, op: Op)
    requires op.PutDir? && forall q :: q in fs.nodes && q <= op.path ==> fs.nodes[q].Dir?
    ensures Apply(fs, op).status.Done? && Grows(fs, Apply(fs, op).fs, op)
  {}

  lemma FileGrows(fs: FS, op: Op)
    requires WellFormed(fs) && op.PutFile? && op.path != [] && op.path !in fs.nodes
    requires forall q :: q in fs.nodes && q <= op.path ==> fs.nodes[q].Dir?
    ensures Apply(fs, op).status.Done? && Grows(fs, Apply(fs, op).fs, op)
  {
    MadeParent(fs, op.path);
  }

  lemma SymlinkGrows(fs: FS, op: Op)
    requires op.PutSymlink? && op.path != [] && op.path !in fs.nodes && op.text != ""
    requires forall q :: q in fs.nodes && q <= op.path ==> fs.nodes[q].Dir?
    ensures Apply(fs, op).status.Done? && Grows(fs, Apply(fs, op).fs, op)
  {
    MadeParent(fs, op.path);
    var made := MkdirAll(fs, Parent(op.path)).fs;
    PutGrows(fs, made, Apply(fs, op).fs, op, Symlink(op.text));
  }

  lemma LinkGrows(fs: FS, op: Op)
    requires WellFormed(fs) && op.PutLink? && op.path != [] && op.path !in fs.nodes
    requires forall q :: q in fs.nodes && q <= op.path ==> fs.nodes[q].Dir?
    requires op.from in fs.nodes && fs.nodes[op.from].File?
    ensures Apply(fs, op).status.Done? && Grows(fs, Apply(fs, op).fs, op)
  {
    MadeParent(fs, op.path);
    var made := MkdirAll(fs, Parent(op.path)).fs;
    assert Remove(made, op.path) == made;
    MkdirAllKeepsTree(fs, Parent(op.path));
    forall q | q in made.nodes && q <= op.from
      ensures !made.nodes[q].Symlink?
    {
      AncestorsAreDirs(made.nodes, op.from, q);
    }
    PutGrows(fs, made, Apply(fs, op).fs, op, fs.nodes[op.from]);
  }

  lemma StepGrows(fs: FS, op: Op)
    requires WellFormed(fs) && Puts(op) && op.path != []
    requires forall q :: q in fs.nodes && q <= op.path ==> fs.nodes[q].Dir?
    requires !op.PutDir? ==> op.path !in fs.nodes
    requires op.PutSymlink? ==> op.text != ""
    requires op.PutLink? ==> op.from in fs.nodes && fs.nodes[op.from].File?
    ensures Apply(fs, op).status.Done? && Grows(fs, Apply(fs, op).fs, op)
  {
    match op {
      case PutDir(_) => DirGrows(fs, op);
      case PutFile(_, _) => FileGrows(fs, op);
      case PutSymlink(_, _) => SymlinkGrows(fs, op);
      case PutLink(_, _) => LinkGrows(fs, op);
    }
  }

  lemma ReachesOneMore(ops: seq<Op>, op: Op, p: Path)
    ensures Reaches(ops + [op], p) <==> Reaches(ops, p) || (Puts(op) && p <= op.path)
    ensures Declares(ops + [op], p) <==> Declares(ops, p) || (Puts(op) && p == op.path)
  {
    var more := ops + [op];
    assert more[|ops|] == op;
    assert forall i :: 0 <= i < |ops| ==> more[i] == ops[i];
    if Reaches(ops, p) {
      var i :| 0 <= i < |ops| && Puts(ops[i]) && p <= ops[i].path;
      assert Puts(more[i]) && p <= more[i].path;
    }
    if Declares(ops, p) {
      var i :| 0 <= i < |ops| && Puts(ops[i]) && p == ops[i].path;
      assert Puts(more[i]) && p == more[i].path;
    }
  }

  lemma StandsStays(fs: FS, after: FS, op: Op)
    requires Stands(fs, op) && Kept(fs, after)
    ensures Stands(after, op)
  {}

  lemma AllStandStays(fs: FS, after: FS, ops: seq<Op>, op: Op)
    requires AllStand(fs, ops) && Kept(fs, after) && Stands(after, op)
    ensures AllStand(after, ops + [op])
  {
    forall i | 0 <= i < |ops|
      ensures Stands(after, ops[i])
    {
      StandsStays(fs, after, ops[i]);
    }
  }

  lemma OwnInodesStay(before: FS, fs: FS, after: FS, ops: seq<Op>, op: Op)
    requires Puts(op) && Grows(fs, after, op) && OwnInodes(before, fs, ops)
    ensures OwnInodes(before, after, ops + [op])
  {
    var more := ops + [op];
    forall i | 0 <= i < |more| && more[i].PutFile?
      ensures more[i].path in after.nodes && after.nodes[more[i].path].File?
      ensures before.next <= after.nodes[more[i].path].ino < after.next
      ensures i < |ops| ==> after.nodes[more[i].path].ino < fs.next
    {
      if i < |ops| { assert more[i] == ops[i] && ops[i].path in fs.nodes; }
    }
    forall i, j | 0 <= i < j < |more| && more[i].PutFile? && more[j].PutFile?
      ensures after.nodes[more[i].path] != after.nodes[more[j].path]
    {
      if j < |ops| { assert more[i] == ops[i] && more[j] == ops[j]; }
    }
  }

  lemma DomainStays(before: FS, fs: FS, after: FS, ops: seq<Op>, op: Op)
    requires Puts(op) && Grows(fs, after, op) && Domain(before, fs, ops) && Implied(before, fs, ops)
    ensures Domain(before, after, ops + [op]) && Implied(before, after, ops + [op])
  {
    forall p
      ensures p in after.nodes <==> p in before.nodes || Reaches(ops + [op], p)
    {
      ReachesOneMore(ops, op, p);
    }
    forall p | p in after.nodes && p !in before.nodes && !Declares(ops + [op], p)
      ensures after.nodes[p].Dir?
    {
      ReachesOneMore(ops, op, p);
    }
  }

  lemma GrowingExtends(before: FS, fs: FS, after: FS, ops: seq<Op>, op: Op)
    requires Puts(op) && Grows(fs, after, op) && IsDeclaredTree(before, fs, ops)
    ensures IsDeclaredTree(before, after, ops + [op])
  {
    DomainStays(before, fs, after, ops, op);
    AllStandStays(fs, after, ops, op);
    OwnInodesStay(before, fs, after, ops, op);
  }

  lemma SkippingExtends(before: FS, fs: FS, ops: seq<Op>)
    requires IsDeclaredTree(before, fs, ops)
    ensures IsDeclaredTree(before, fs, ops + [Skip])
  {
    forall p
      ensures Reaches(ops + [Skip], p) == Reaches(ops, p) && Declares(ops + [Skip], p) == Declares(ops, p)
    {
      ReachesOneMore(ops, Skip, p);
    }
    AllStandStays(fs, fs, ops, Skip);
    var more := ops + [Skip];
    assert forall i :: 0 <= i < |more| && more[i].PutFile? ==> i < |ops| && more[i] == ops[i];
  }

  /** The next entry of a conflict-free archive meets what it needs. */
  lemma NextIsReady(before: FS, fs: FS, root: Path, ops: seq<Op>, k: nat)
    requires k < |ops| && Puts(ops[k]) && ConflictFree(root, ops)
    requires EmptyRoot(before, root) && IsDeclaredTree(before, fs, ops[..k])
    ensures ops[k].path != [] && forall q :: q in fs.nodes && q <= ops[k].path ==> fs.nodes[q].Dir?
    ensures !ops[k].PutDir? ==> ops[k].path !in fs.nodes
    ensures ops[k].PutSymlink? ==> ops[k].text != ""
    ensures ops[k].PutLink? ==> ops[k].from in fs.nodes && fs.nodes[ops[k].from].File?
  {
    var done, p := ops[..k], ops[k].path;
    PathIsFree(before, fs, root, done, p);
    if p in fs.nodes {
      var i :| 0 <= i < |done| && Puts(done[i]) && p <= done[i].path;
      assert done[i] == ops[i] && p != ops[i].path;
    }
    if ops[k].PutLink? {
      var j :| 0 <= j < k && NamesFile(ops[j], ops[k].from);
      assert done[j] == ops[j] && Stands(fs, done[j]);
    }
  }

  lemma NextGrows(before: FS, fs: FS, root: Path, ops: seq<Op>, k: nat)
    requires k < |ops| && Puts(ops[k]) && ConflictFree(root, ops)
    requires EmptyRoot(before, root) && WellFormed(fs) && IsDeclaredTree(before, fs, ops[..k])
    ensures Apply(fs, ops[k]).status.Done? && Grows(fs, Apply(fs, ops[k]).fs, ops[k])
  {
    NextIsReady(before, fs, root, ops, k);
    StepGrows(fs, ops[k]);
  }

  lemma OneMoreEntry(before: FS, fs: FS, after: FS, ops: seq<Op>, k: nat)
    requires k < |ops| && IsDeclaredTree(before, fs, ops[..k])
    requires if Puts(ops[k]) then Grows(fs, after, ops[k]) else after == fs
    ensures IsDeclaredTree(before, after, ops[..k + 1])
  {
    assert ops[..k + 1] == ops[..k] + [ops[k]];
    if Puts(ops[k]) {
      GrowingExtends(before, fs, after, ops[..k], ops[k]);
    } else {
      SkippingExtends(before, fs, ops[..k]);
    }
  }

  lemma ExtractOne(fs: FS, root: string, entries: seq<Entry>, k: nat)
    requires k < |entries| && !entries[k].cut && Apply(fs, OpOf(root, entries[k])).status.Done?
    ensures Extract(fs, root, entries[k..], true) ==
      Extract(Apply(fs, OpOf(root, entries[k])).fs, root, entries[k + 1..], true)
  {
    assert entries[k..][1..] == entries[k + 1..];
  }

  lemma {:induction false} RestIsDeclared(before: FS, fs: FS, root: string, entries: seq<Entry>, k: nat)
    requires k <= |entries| && EmptyRoot(before, Segs(root)) && WellFormed(fs)
    requires ConflictFree(Segs(root), Ops(root, entries)) && forall i :: 0 <= i < |entries| ==> !entries[i].cut
    requires IsDeclaredTree(before, fs, Ops(root, entries)[..k])
    ensures var o := Extract(fs, root, entries[k..], true);
      o.status.Done? && IsDeclaredTree(before, o.fs, Ops(root, entries))
    decreases |entries| - k
  {
    var ops := Ops(root, entries);
    if k == |entries| {
      assert ops[..k] == ops;
    } else {
      if Puts(ops[k]) { NextGrows(before, fs, Segs(root), ops, k); }
      OneMoreEntry(before, fs, Apply(fs, ops[k]).fs, ops, k);
      ApplyKeepsTree(fs, ops[k]);
      ExtractOne(fs, root, entries, k);
      RestIsDeclared(before, Apply(fs, ops[k]).fs, root, entries, k + 1);
    }
  }

  /**
    A conflict-free archive extracts into an empty root without error, and the result is exactly
    the declared tree: its paths, implied parents, contents, texts and shared inodes, nothing else.
  */
  lemma ExtractionIsTheDeclaredTree(before: FS, root: string, entries: seq<Entry>)
    requires EmptyRoot(before, Segs(root)) && ConflictFree(Segs(root), Ops(root, entries))
    requires forall i :: 0 <= i < |entries| ==> !entries[i].cut
    ensures var o := Extract(before, root, entries, true);
      o.status.Done? && IsDeclaredTree(before, o.fs, Ops(root, entries))
  {
    assert Ops(root, entries)[..0] == [] && entries[0..] == entries;
    RestIsDeclared(before, before, root, entries, 0);
  }

  // The order of the entries.

  /** The regular file whose inode a path has after the first k entries, following links back. */
  function Origin(ops: seq<Op>, k: nat, p: Path): Path
    requires k <= |ops|
  {
    if k == 0 then p
    else if ops[k - 1].PutLink? && ops[k - 1].path == p then Origin(ops, k - 1, ops[k - 1].from)
    else Origin(ops, k - 1, p)
  }

  predicate PutsFile(ops: seq<Op>, p: Path) { exists i :: 0 <= i < |ops| && ops[i].PutFile? && ops[i].path == p }

  predicate NamesAFile(ops: seq<Op>, k: nat, p: Path)
    requires k <= |ops|
  {
    exists i :: 0 <= i < k && NamesFile(ops[i], p)
  }

  predicate SharesInode(fs: FS, p: Path, q: Path) {
    p in fs.nodes && q in fs.nodes && fs.nodes[p].File? && fs.nodes[p] == fs.nodes[q]
  }

  /** What the files and links of an archive need of a tree. */
  predicate FilesStand(fs: FS, ops: seq<Op>) {
    && (forall i :: 0 <= i < |ops| && ops[i].PutFile? ==> SharesInode(fs, ops[i].path, ops[i].path))
    && (forall i :: 0 <= i < |ops| && ops[i].PutLink? ==> SharesInode(fs, ops[i].path, ops[i].from))
  }

  lemma FilesOfAllStand(fs: FS, ops: seq<Op>)
    requires AllStand(fs, ops)
    ensures FilesStand(fs, ops)
  {
    forall i | 0 <= i < |ops| && (ops[i].PutFile? || ops[i].PutLink?)
      ensures SharesInode(fs, ops[i].path, if ops[i].PutFile? then ops[i].path else ops[i].from)
    {
      assert Stands(fs, ops[i]);
    }
  }

  /** In every declared tree, in whatever order it was made, a file shares its origin's inode. */
  lemma {:induction false} SharesWithOrigin(fs: FS, ops: seq<Op>, k: nat, p: Path)
    requires k <= |ops| && FilesStand(fs, ops) && LinksFollow(ops) && DistinctPaths(ops) && NamesAFile(ops, k, p)
    ensures PutsFile(ops, Origin(ops, k, p)) && SharesInode(fs, p, Origin(ops, k, p))
  {
    var last := ops[k - 1];
    if last.PutLink? && last.path == p {
      assert NamesAFile(ops, k - 1, last.from);
      SharesWithOrigin(fs, ops, k - 1, last.from);
    } else if last.PutFile? && last.path == p {
      OriginOfFile(ops, k - 1, p);
    } else {
      SharesWithOrigin(fs, ops, k - 1, p);
    }
  }

  lemma {:induction false} OriginOfFile(ops: seq<Op>, k: nat, p: Path)
    requires k < |ops| && DistinctPaths(ops) && ops[k].PutFile? && ops[k].path == p
    ensures Origin(ops, k, p) == p
  {
    OriginUnlinked(ops, k, p);
  }

  lemma {:induction false} OriginUnlinked(ops: seq<Op>, k: nat, p: Path)
    requires k <= |ops| && forall i :: 0 <= i < k && ops[i].PutLink? ==> ops[i].path != p
    ensures Origin(ops, k, p) == p
  {
    if k > 0 { OriginUnlinked(ops, k - 1, p); }
  }

  /** The same paths, kinds, texts and contents, and the same files sharing an inode. */
  ghost predicate SameView(a: FS, b: FS) {
    && (forall p :: p in a.nodes <==> p in b.nodes)
    && (forall p :: p in a.nodes && p in b.nodes ==> SameNode(a, b, p))
    && (forall p, q :: p in a.nodes && q in a.nodes && p in b.nodes && q in b.nodes && a.nodes[p].File? && a.nodes[q].File? ==>
          (a.nodes[p] == a.nodes[q] <==> b.nodes[p] == b.nodes[q]))
  }

  predicate SameNode(a: FS, b: FS, p: Path)
    requires p in a.nodes && p in b.nodes
  {
    match (a.nodes[p], b.nodes[p])
    case (Dir, Dir) => true
    case (Symlink(s), Symlink(t)) => s == t
    case (File(i), File(j)) => i in a.data && j in b.data && a.data[i] == b.data[j]
    case _ => false
  }

  predicate SameOps(a: seq<Op>, b: seq<Op>) {
    (forall i :: 0 <= i < |a| ==> a[i] in b) && (forall i :: 0 <= i < |b| ==> b[i] in a)
  }

  lemma SameOpsReach(a: seq<Op>, b: seq<Op>, p: Path)
    requires forall i :: 0 <= i < |a| ==> a[i] in b
    ensures Reaches(a, p) ==> Reaches(b, p)
    ensures Declares(a, p) ==> Declares(b, p)
    ensures PutsFile(a, p) ==> PutsFile(b, p)
  {
    if Reaches(a, p) {
      var i :| 0 <= i < |a| && Puts(a[i]) && p <= a[i].path;
      assert a[i] in b;
    }
    if Declares(a, p) {
      var i :| 0 <= i < |a| && Puts(a[i]) && p == a[i].path;
      assert a[i] in b;
    }
    if PutsFile(a, p) {
      var i :| 0 <= i < |a| && a[i].PutFile? && a[i].path == p;
      assert a[i] in b;
    }
  }

  /** A new file in a declared tree was named by an entry. */
  lemma NewFileIsNamed(before: FS, after: FS, ops: seq<Op>, p: Path)
    requires IsDeclaredTree(before, after, ops) && p in after.nodes && p !in before.nodes && after.nodes[p].File?
    ensures NamesAFile(ops, |ops|, p)
  {
    var i :| 0 <= i < |ops| && Puts(ops[i]) && p == ops[i].path;
    assert Stands(after, ops[i]);
    assert NamesFile(ops[i], p);
  }

  lemma OwnInodesByPath(before: FS, after: FS, ops: seq<Op>, o: Path, q: Path)
    requires OwnInodes(before, after, ops) && PutsFile(ops, o) && PutsFile(ops, q)
    ensures o in after.nodes && q in after.nodes && after.nodes[o].File? && before.next <= after.nodes[o].ino
    ensures o != q ==> after.nodes[o] != after.nodes[q]
  {
    var i :| 0 <= i < |ops| && ops[i].PutFile? && ops[i].path == o;
    var j :| 0 <= j < |ops| && ops[j].PutFile? && ops[j].path == q;
    if i < j {
      assert after.nodes[ops[i].path] != after.nodes[ops[j].path];
    } else if j < i {
      assert after.nodes[ops[j].path] != after.nodes[ops[i].path];
    }
  }

  /** Two trees that hold what the same entries asked for. */
  ghost predicate BothDeclared(before: FS, a: FS, b: FS, ops: seq<Op>, other: seq<Op>) {
    WellFormed(before) && IsDeclaredTree(before, a, ops) && IsDeclaredTree(before, b, other) && SameOps(ops, other)
    && LinksFollow(ops) && DistinctPaths(ops)
  }

  lemma AllStandInBoth(b: FS, ops: seq<Op>, other: seq<Op>)
    requires AllStand(b, other) && SameOps(ops, other)
    ensures AllStand(b, ops)
  {
    forall i | 0 <= i < |ops|
      ensures Stands(b, ops[i])
    {
      assert ops[i] in other;
    }
  }

  lemma OriginInBoth(before: FS, a: FS, b: FS, ops: seq<Op>, other: seq<Op>, p: Path)
    requires BothDeclared(before, a, b, ops, other) && NamesAFile(ops, |ops|, p)
    ensures var o := Origin(ops, |ops|, p);
      PutsFile(ops, o) && PutsFile(other, o) && SharesInode(a, p, o) && SharesInode(b, p, o)
  {
    AllStandInBoth(b, ops, other);
    FilesOfAllStand(a, ops);
    FilesOfAllStand(b, ops);
    SharesWithOrigin(a, ops, |ops|, p);
    SharesWithOrigin(b, ops, |ops|, p);
    SameOpsReach(ops, other, Origin(ops, |ops|, p));
  }

  lemma FilesHaveTheSameContent(before: FS, a: FS, b: FS, ops: seq<Op>, other: seq<Op>, p: Path)
    requires BothDeclared(before, a, b, ops, other) && NamesAFile(ops, |ops|, p)
    ensures p in a.nodes && p in b.nodes && SameNode(a, b, p)
  {
    OriginInBoth(before, a, b, ops, other, p);
    AllStandInBoth(b, ops, other);
    var o := Origin(ops, |ops|, p);
    var i :| 0 <= i < |ops| && ops[i].PutFile? && ops[i].path == o;
    assert Stands(a, ops[i]) && Stands(b, ops[i]);
  }

  lemma NodesAreTheSame(before: FS, a: FS, b: FS, ops: seq<Op>, other: seq<Op>, p: Path)
    requires BothDeclared(before, a, b, ops, other) && p in a.nodes
    ensures p in b.nodes && SameNode(a, b, p)
  {
    SameOpsReach(ops, other, p);
    SameOpsReach(other, ops, p);
    if p !in before.nodes && Declares(ops, p) {
      var i :| 0 <= i < |ops| && Puts(ops[i]) && p == ops[i].path;
      AllStandInBoth(b, ops, other);
      assert Stands(a, ops[i]) && Stands(b, ops[i]);
      if ops[i].PutFile? || ops[i].PutLink? {
        assert NamesFile(ops[i], p);
        FilesHaveTheSameContent(before, a, b, ops, other, p);
      }
    }
  }

  lemma SharingIsTheSame(before: FS, a: FS, b: FS, ops: seq<Op>, other: seq<Op>, p: Path, q: Path)
    requires BothDeclared(before, a, b, ops, other) && p in a.nodes && q in a.nodes && p in b.nodes && q in b.nodes
    requires a.nodes[p].File? && a.nodes[q].File?
    ensures a.nodes[p] == a.nodes[q] <==> b.nodes[p] == b.nodes[q]
  {
    if p in before.nodes && q in before.nodes {
    } else if p in before.nodes {
      OldAndNewDiffer(before, a, b, ops, other, p, q);
    } else if q in before.nodes {
      OldAndNewDiffer(before, a, b, ops, other, q, p);
    } else {
      NewFileIsNamed(before, a, ops, p);
      NewFileIsNamed(before, a, ops, q);
      OriginInBoth(before, a, b, ops, other, p);
      OriginInBoth(before, a, b, ops, other, q);
      OwnInodesByPath(before, a, ops, Origin(ops, |ops|, p), Origin(ops, |ops|, q));
      OwnInodesByPath(before, b, other, Origin(ops, |ops|, p), Origin(ops, |ops|, q));
    }
  }

  lemma OldAndNewDiffer(before: FS, a: FS, b: FS, ops: seq<Op>, other: seq<Op>, p: Path, q: Path)
    requires BothDeclared(before, a, b, ops, other) && p in before.nodes && q !in before.nodes && q in a.nodes
    requires before.nodes[p].File? && a.nodes[q].File?
    ensures p in a.nodes && p in b.nodes && q in b.nodes && a.nodes[p] != a.nodes[q] && b.nodes[p] != b.nodes[q]
  {
    NewFileIsNamed(before, a, ops, q);
    OriginInBoth(before, a, b, ops, other, q);
    OwnInodesByPath(before, a, ops, Origin(ops, |ops|, q), Origin(ops, |ops|, q));
    OwnInodesByPath(before, b, other, Origin(ops, |ops|, q), Origin(ops, |ops|, q));
    assert before.nodes[p].ino < before.next;
  }

  // Reordering keeps everything but the place of links.

  lemma TwiceIsTwoPlaces<T>(s: seq<T>, x: T)
    ensures multiset(s)[x] >= 2 <==> exists i, j :: 0 <= i < j < |s| && s[i] == x && s[j] == x
  {
    forall i, j | 0 <= i < j < |s| && s[i] == x && s[j] == x
      ensures multiset(s)[x] >= 2
    {
      assert s == s[..j] + [x] + s[j + 1..] && x == s[..j][i] && x in s[..j];
      assert multiset(s[..j])[x] >= 1;
    }
    if multiset(s)[x] >= 2 {
      assert x in multiset(s);
      var i :| 0 <= i < |s| && s[i] == x;
      assert s == s[..i] + [x] + s[i + 1..];
      if multiset(s[..i])[x] >= 1 {
        assert x in multiset(s[..i]);
        var j :| 0 <= j < i && s[..i][j] == x;
        assert s[j] == x;
      } else {
        assert x in multiset(s[i + 1..]);
        var j :| 0 <= j < |s| - i - 1 && s[i + 1..][j] == x;
        assert s[i + 1 + j] == x;
      }
    }
  }

  /** Two places of a reordered sequence stand for two places of the original. */
  lemma PlacesReorder<T>(s: seq<T>, t: seq<T>, i: nat, j: nat) returns (k: nat, l: nat)
    requires multiset(s) == multiset(t) && i < j < |t|
    ensures k < |s| && l < |s| && k != l && s[k] == t[i] && s[l] == t[j]
  {
    assert t[i] in multiset(s) && t[j] in multiset(s);
    if t[i] == t[j] {
      TwiceIsTwoPlaces(t, t[i]);
      TwiceIsTwoPlaces(s, t[i]);
      k, l :| 0 <= k < l < |s| && s[k] == t[i] && s[l] == t[i];
    } else {
      k :| 0 <= k < |s| && s[k] == t[i];
      l :| 0 <= l < |s| && s[l] == t[j];
    }
  }

  lemma DistinctPathsReorder(root: string, entries: seq<Entry>, reordered: seq<Entry>)
    requires multiset(entries) == multiset(reordered) && DistinctPaths(Ops(root, entries))
    ensures DistinctPaths(Ops(root, reordered))
  {
    var ops, other := Ops(root, entries), Ops(root, reordered);
    forall i, j | 0 <= i < j < |other| && Puts(other[i]) && Puts(other[j])
      ensures other[i].path != other[j].path
    {
      var k, l := PlacesReorder(entries, reordered, i, j);
      assert ops[k] == other[i] && ops[l] == other[j];
    }
  }

  lemma ConflictFreeReorders(root: string, entries: seq<Entry>, reordered: seq<Entry>)
    requires multiset(entries) == multiset(reordered)
    requires ConflictFree(Segs(root), Ops(root, entries)) && LinksFollow(Ops(root, reordered))
    ensures ConflictFree(Segs(root), Ops(root, reordered)) && SameOps(Ops(root, entries), Ops(root, reordered))
  {
    assert forall e :: e in reordered ==> e in multiset(entries);
    assert forall e :: e in entries ==> e in multiset(reordered);
    SameEntriesSameOps(root, entries, reordered);
    SameEntriesSameOps(root, reordered, entries);
    DistinctPathsReorder(root, entries, reordered);
    MembersKeep(Segs(root), Ops(root, entries), Ops(root, reordered));
  }

  lemma MembersKeep(root: Path, ops: seq<Op>, other: seq<Op>)
    requires forall i :: 0 <= i < |other| ==> other[i] in ops
    requires BelowRoot(root, ops) && OnlyDirsContain(ops) && SymlinksHaveText(ops)
    ensures BelowRoot(root, other) && OnlyDirsContain(other) && SymlinksHaveText(other)
  {
    forall i, j | 0 <= i < |other| && 0 <= j < |other| && Puts(other[i]) && Puts(other[j]) && other[i].path < other[j].path
      ensures other[i].PutDir?
    {
      assert other[i] in ops && other[j] in ops;
    }
  }

  /**
    The order of a conflict-free archive's entries does not matter, as long as each link follows
    its target: the view - paths, kinds, texts, contents and which files share an inode - is the same.
  */
  lemma OrderDoesNotMatter(before: FS, root: string, entries: seq<Entry>, reordered: seq<Entry>)
    requires EmptyRoot(before, Segs(root)) && multiset(entries) == multiset(reordered)
    requires ConflictFree(Segs(root), Ops(root, entries)) && LinksFollow(Ops(root, reordered))
    requires forall i :: 0 <= i < |entries| ==> !entries[i].cut
    ensures var a, b := Extract(before, root, entries, true), Extract(before, root, reordered, true);
      a.status.Done? && b.status.Done? && SameView(a.fs, b.fs)
  {
    ConflictFreeReorders(root, entries, reordered);
    SoundReorders(entries, reordered);
    ExtractionIsTheDeclaredTree(before, root, entries);
    ExtractionIsTheDeclaredTree(before, root, reordered);
    var a, b := Extract(before, root, entries, true).fs, Extract(before, root, reordered, true).fs;
    DeclaredTreesLookTheSame(before, a, b, Ops(root, entries), Ops(root, reordered));
  }

  lemma SoundReorders(entries: seq<Entry>, reordered: seq<Entry>)
    requires multiset(entries) == multiset(reordered) && forall i :: 0 <= i < |entries| ==> !entries[i].cut
    ensures forall i :: 0 <= i < |reordered| ==> !reordered[i].cut
  {
    forall i | 0 <= i < |reordered|
      ensures !reordered[i].cut
    {
      assert reordered[i] in multiset(entries);
    }
  }

  lemma SameEntriesSameOps(root: string, entries: seq<Entry>, reordered: seq<Entry>)
    requires forall e :: e in entries ==> e in reordered
    ensures forall i :: 0 <= i < |entries| ==> Ops(root, entries)[i] in Ops(root, reordered)
  {
    forall i | 0 <= i < |entries|
      ensures Ops(root, entries)[i] in Ops(root, reordered)
    {
      assert entries[i] in entries;
      var j :| 0 <= j < |reordered| && reordered[j] == entries[i];
      assert Ops(root, reordered)[j] == OpOf(root, entries[i]);
    }
  }

  lemma DeclaredTreesLookTheSame(before: FS, a: FS, b: FS, ops: seq<Op>, other: seq<Op>)
    requires BothDeclared(before, a, b, ops, other)
    ensures SameView(a, b)
  {
    forall p
      ensures p in a.nodes <==> p in b.nodes
    {
      SameOpsReach(ops, other, p);
      SameOpsReach(other, ops, p);
    }
    forall p | p in a.nodes && p in b.nodes
      ensures SameNode(a, b, p)
    {
      NodesAreTheSame(before, a, b, ops, other, p);
    }
    forall p, q | p in a.nodes && q in a.nodes && p in b.nodes && q in b.nodes && a.nodes[p].File? && a.nodes[q].File?
      ensures a.nodes[p] == a.nodes[q] <==> b.nodes[p] == b.nodes[q]
    {
      SharingIsTheSame(before, a, b, ops, other, p, q);
    }
  }
}
