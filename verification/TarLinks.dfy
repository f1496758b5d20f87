/**
  Symbolic links in archives: an extraction in which no entry goes through an earlier link stays
  inside its root, and the smallest one that does not.
*/
module TarLinks {
  import opened Paths
  import opened SafeJoin
  import opened TarExtract
  import opened TarSafety
  import opened TarTree
  import opened TarEntries

  /** The operation's calls would follow a symbolic link at the path. */
  predicate Through(op: Op, p: Path) {
    match op
    case Skip => false
    case PutDir(path) => p <= path
    case PutFile(path, _) => p <= path
    case PutSymlink(path, _) => p <= Parent(path)
    case PutLink(path, from) => p <= Parent(path) || p <= from
  }

  /** No entry goes through the path of an earlier symbolic link. */
  predicate NoneThrough(ops: seq<Op>) {
    forall j, k :: 0 <= j < k < |ops| && ops[j].PutSymlink? ==> !Through(ops[k], ops[j].path)
  }

  predicate NoLinksInside(fs: FS, root: Path) {
    forall p :: p in fs.nodes && Inside(root, p) ==> !fs.nodes[p].Symlink?
  }

  /** The links inside the root are those of the entries so far. */
  predicate LinksAreNamed(fs: FS, root: Path, ops: seq<Op>, k: nat)
    requires k <= |ops|
  {
    forall p :: p in fs.nodes && Inside(root, p) && fs.nodes[p].Symlink? ==>
      exists j :: 0 <= j < k && ops[j].PutSymlink? && ops[j].path == p
  }

  predicate MeetsLink(fs: FS, op: Op) { exists p :: p in fs.nodes && fs.nodes[p].Symlink? && Through(op, p) }

  /** An operation strays only at a link that is in its way. */
  lemma StraysAtALink(fs: FS, op: Op)
    requires Apply(fs, op).status.Strayed?
    ensures MeetsLink(fs, op)
  {
    if op.PutDir? {
      LinkInTheWay(fs, op, op.path);
    } else {
      assert Parent(op.path) <= op.path;
      if MkdirAll(fs, Parent(op.path)).status.Strayed? {
        LinkInTheWay(fs, op, Parent(op.path));
      } else {
        PutStrays(fs, MkdirAll(fs, Parent(op.path)).fs, op);
      }
    }
  }

  lemma LinkInTheWay(fs: FS, op: Op, p: Path)
    requires MeetsSymlink(fs.nodes, p) && forall q :: q in fs.nodes && q <= p ==> Through(op, q)
    ensures MeetsLink(fs, op)
  {
    var q :| q in fs.nodes && q <= p && fs.nodes[q].Symlink?;
    assert Through(op, q);
  }

  lemma PutStrays(fs: FS, made: FS, op: Op)
    requires !op.Skip? && !op.PutDir? && made == fs.(nodes := WithDirs(fs.nodes, Parent(op.path)))
    requires PutAt(made, op).status.Strayed?
    ensures MeetsLink(fs, op)
  {
    if op.PutFile? {
      assert op.path in fs.nodes && fs.nodes[op.path].Symlink? && Through(op, op.path);
    } else {
      var nodes := Remove(made, op.path).nodes;
      var q :| q in nodes && q <= op.from && nodes[q].Symlink?;
      assert q in fs.nodes && fs.nodes[q].Symlink? && Through(op, q);
    }
  }

  predicate LinkAt(fs: FS, p: Path) { p in fs.nodes && fs.nodes[p].Symlink? }

  /** New links come from entries for links only. */
  lemma LinksComeFromEntries(fs: FS, op: Op, p: Path)
    requires LinkAt(Apply(fs, op).fs, p)
    ensures LinkAt(fs, p) || (op.PutSymlink? && p == op.path)
  {
    if !op.Skip? && !op.PutDir? && MkdirAll(fs, Parent(op.path)).status.Done? {
      PutLinks(MkdirAll(fs, Parent(op.path)).fs, op, p);
    }
  }

  lemma PutLinks(made: FS, op: Op, p: Path)
    requires !op.Skip? && !op.PutDir? && LinkAt(PutAt(made, op).fs, p)
    ensures LinkAt(made, p) || (op.PutSymlink? && p == op.path)
  {
    if op.PutLink? { assert op.from <= op.from; }
  }

  /** A link in the way is inside the root: on the way to the root there are only directories. */
  lemma LinkIsInside(fs: FS, root: Path, op: Op)
    requires Closed(fs, root) && Aims(op, root) && MeetsLink(fs, op)
    ensures exists p :: LinkAt(fs, p) && Inside(root, p) && Through(op, p)
  {
    var p :| p in fs.nodes && fs.nodes[p].Symlink? && Through(op, p);
    assert Parent(op.path) <= op.path;
    assert p <= op.path || (op.PutLink? && p <= op.from);
    Comparable(p, root, if p <= op.path then op.path else op.from);
    if !Inside(root, p) {
      assert p <= Parent(root);
      AncestorsAreDirs(fs.nodes, Parent(root), p);
    }
    assert LinkAt(fs, p);
  }

  lemma EntryDoesNotStray(fs: FS, root: Path, ops: seq<Op>, k: nat)
    requires k < |ops| && Closed(fs, root) && Aims(ops[k], root)
    requires NoneThrough(ops) && LinksAreNamed(fs, root, ops, k)
    ensures !Apply(fs, ops[k]).status.Strayed?
  {
    if Apply(fs, ops[k]).status.Strayed? {
      StraysAtALink(fs, ops[k]);
      LinkIsInside(fs, root, ops[k]);
    }
  }

  lemma LinksStayNamed(fs: FS, root: Path, ops: seq<Op>, k: nat)
    requires k < |ops| && LinksAreNamed(fs, root, ops, k)
    ensures LinksAreNamed(Apply(fs, ops[k]).fs, root, ops, k + 1)
  {
    forall p | LinkAt(Apply(fs, ops[k]).fs, p) && Inside(root, p)
      ensures exists j :: 0 <= j < k + 1 && ops[j].PutSymlink? && ops[j].path == p
    {
      LinksComeFromEntries(fs, ops[k], p);
      if LinkAt(fs, p) {
        var j :| 0 <= j < k && ops[j].PutSymlink? && ops[j].path == p;
      }
    }
  }

  lemma EntryGoesOn(fs: FS, root: string, entries: seq<Entry>, k: nat, sound: bool)
    requires k < |entries|
    ensures var o := Apply(fs, OpOf(root, entries[k]));
      Extract(fs, root, entries[k..], sound) ==
        if !o.status.Done? then o
        else if entries[k].cut then Outcome(o.fs, Failed)
        else Extract(o.fs, root, entries[k + 1..], sound)
  {
    assert entries[k..][1..] == entries[k + 1..];
  }

  lemma {:induction false} RestDoesNotStray(fs: FS, root: string, entries: seq<Entry>, k: nat, sound: bool)
    requires k <= |entries| && Closed(fs, Segs(root))
    requires NoneThrough(Ops(root, entries)) && LinksAreNamed(fs, Segs(root), Ops(root, entries), k)
    ensures !Extract(fs, root, entries[k..], sound).status.Strayed?
    decreases |entries| - k
  {
    if k < |entries| {
      OpsAim(root, entries[k]);
      EntryKeeps(fs, Segs(root), Ops(root, entries), k);
      RestDoesNotStray(Apply(fs, Ops(root, entries)[k]).fs, root, entries, k + 1, sound);
      EntryGoesOn(fs, root, entries, k, sound);
    }
  }

  lemma EntryKeeps(fs: FS, root: Path, ops: seq<Op>, k: nat)
    requires k < |ops| && Closed(fs, root) && Aims(ops[k], root)
    requires NoneThrough(ops) && LinksAreNamed(fs, root, ops, k)
    ensures var o := Apply(fs, ops[k]);
      !o.status.Strayed? && Closed(o.fs, root) && LinksAreNamed(o.fs, root, ops, k + 1)
  {
    EntryDoesNotStray(fs, root, ops, k);
    ApplyStaysInside(fs, root, ops[k]);
    LinksStayNamed(fs, root, ops, k);
  }

  lemma OpsStayInside(fs: FS, root: string, entries: seq<Entry>, sound: bool)
    requires Closed(fs, Segs(root)) && NoLinksInside(fs, Segs(root)) && NoneThrough(Ops(root, entries))
    ensures var o := Extract(fs, root, entries, sound);
      !o.status.Strayed? && WellFormed(o.fs) && SameOutside(fs, o.fs, Segs(root))
  {
    RunStaysInside(fs, root, entries, sound);
    assert entries[0..] == entries;
    RestDoesNotStray(fs, root, entries, 0, sound);
  }

  /** An entry whose path, or whose hard link's target, has a link's path on the way. */
  predicate GoesThrough(root: string, e: Entry, link: Path) {
    Acts(root, e) &&
    match e.typeflag
    case TypeDir => link <= Target(root, e)
    case TypeReg => link <= Target(root, e)
    case TypeSymlink => link <= Parent(Target(root, e))
    case TypeLink => link <= Parent(Target(root, e)) || link <= LinkTarget(root, e)
    case TypeOther => false
  }

  predicate NoEntryThrough(root: string, entries: seq<Entry>) {
    forall j, k :: 0 <= j < k < |entries| && entries[j].typeflag.TypeSymlink? && Acts(root, entries[j]) ==>
      !GoesThrough(root, entries[k], Target(root, entries[j]))
  }

  lemma ThroughMatches(root: string, entries: seq<Entry>, ops: seq<Op>)
    requires Match(root, entries, ops) && NoEntryThrough(root, entries)
    ensures NoneThrough(ops)
  {
    forall j, k | 0 <= j < k < |ops| && ops[j].PutSymlink?
      ensures !Through(ops[k], ops[j].path)
    {
      assert SameFields(root, entries[j], ops[j]) && SameFields(root, entries[k], ops[k]);
      assert !GoesThrough(root, entries[k], Target(root, entries[j]));
    }
  }

  /**
    Extraction stays inside: into a root without links, whose parent is there and which shares no
    inode with the outside, an archive in which no entry goes through an earlier symbolic link
    never follows one, leaves a well-formed tree and changes nothing outside, however it ends.
  */
  lemma ExtractionStaysInside(fs: FS, root: string, entries: seq<Entry>, sound: bool)
    requires Closed(fs, Segs(root)) && NoLinksInside(fs, Segs(root)) && NoEntryThrough(root, entries)
    ensures var o := Extract(fs, root, entries, sound);
      !o.status.Strayed? && WellFormed(o.fs) && SameOutside(fs, o.fs, Segs(root))
  {
    AllOpFields(root, entries);
    ThroughMatches(root, entries, Ops(root, entries));
    OpsStayInside(fs, root, entries, sound);
  }

  // The smallest archive that leaves its root.

  /** Where the kernel goes on when it meets a link on the way to a path. */
  function Followed(nodes: map<Path, Node>, link: Path, p: Path): Path
    requires link in nodes && nodes[link].Symlink? && link <= p
  {
    var text := nodes[link].text;
    Walk(true, if Rooted(text) then [] else Parent(link), Split(text)) + p[|link|..]
  }

  lemma OneSegment(g: string)
    requires IsSegment(g) && g != UP
    ensures Segs(g) == [g]
  {
    SplitPlain(g);
    WalkDown(false, [], [g]);
    assert g[0] in g;
  }

  lemma TwoSegments(g: string, h: string)
    requires IsSegment(g) && g != UP && IsSegment(h) && h != UP
    ensures Segs(g + "/" + h) == [g, h]
  {
    SplitPlain(g);
    SplitPlain(h);
    SplitAtSlash(g, h);
    WalkDown(false, [], [g, h]);
    assert (g + "/" + h)[0] in g;
  }

  lemma AbsoluteSegment(g: string)
    requires IsSegment(g) && g != UP
    ensures Rooted("/" + g) && Walk(true, [], Split("/" + g)) == [g]
  {
    SplitPlain(g);
    assert ("/" + g)[1..] == g;
    assert ([""] + [g])[1..] == [g];
    WalkDown(true, [], [g]);
  }

  /** The two entries: a link to a directory at the top, and a file below the link. */
  function LinkEntry(a: string, dir: string): Entry { Entry(a, TypeSymlink, "/" + dir, [], false) }

  function FileEntry(a: string, b: string, body: Data): Entry { Entry(a + "/" + b, TypeReg, "", body, false) }

  lemma NameLands(root: string, name: string, segs: seq<string>)
    requires Rooted(root) && Segs(name) == segs && segs != [] && segs[0] != UP
    ensures SafeJoined(root, name).Ok? && Segs(SafeJoined(root, name).value) == Segs(root) + segs
  {
    NamesWithoutClimbsJoin(root, name);
    JoinsExactlyUnderTheRoot(root, name);
    SegsAreClean(name);
    WalkDown(true, Segs(root), segs);
  }

  lemma LinkOp(root: string, a: string, dir: string)
    requires Rooted(root) && IsSegment(a) && a != UP
    ensures OpOf(root, LinkEntry(a, dir)) == PutSymlink(Segs(root) + [a], "/" + dir)
  {
    OneSegment(a);
    NameLands(root, a, [a]);
  }

  lemma FileOp(root: string, a: string, b: string, body: Data)
    requires Rooted(root) && IsSegment(a) && a != UP && IsSegment(b) && b != UP
    ensures OpOf(root, FileEntry(a, b, body)) == PutFile(Segs(root) + [a] + [b], body)
  {
    TwoSegments(a, b);
    NameLands(root, a + "/" + b, [a, b]);
    assert Segs(root) + [a, b] == Segs(root) + [a] + [b];
  }

  lemma LinkIsPut(fs: FS, root: Path, at: Path, text: string)
    requires EmptyRoot(fs, root) && text != "" && |at| == |root| + 1 && root <= at
    ensures var o := Apply(fs, PutSymlink(at, text));
      o.status.Done? && at in o.fs.nodes && o.fs.nodes[at] == Symlink(text)
  {
    forall q | q in fs.nodes && q <= at
      ensures fs.nodes[q].Dir?
    {
      if q != at {
        ProperPrefix(q, at, root);
        AncestorsAreDirs(fs.nodes, root, q);
      }
    }
    SymlinkGrows(fs, PutSymlink(at, text));
  }

  lemma ProperPrefix(q: Path, at: Path, root: Path)
    requires q <= at && q != at && root <= at && |at| == |root| + 1
    ensures q <= root
  {}

  lemma FileStrays(fs: FS, at: Path, p: Path, body: Data)
    requires LinkAt(fs, at) && Parent(p) == at
    ensures Apply(fs, PutFile(p, body)) == Outcome(fs, Strayed)
  {
    assert at <= Parent(p);
  }

  lemma LinkThenFile(fs: FS, root: Path, a: string, b: string, text: string, body: Data)
    requires EmptyRoot(fs, root) && text != ""
    ensures var at := root + [a];
      var o := Apply(fs, PutSymlink(at, text));
      && o.status.Done? && at in o.fs.nodes && o.fs.nodes[at] == Symlink(text)
      && Apply(o.fs, PutFile(at + [b], body)) == Outcome(o.fs, Strayed)
  {
    var at := root + [a];
    assert Parent(at + [b]) == at;
    LinkIsPut(fs, root, at, text);
    FileStrays(Apply(fs, PutSymlink(at, text)).fs, at, at + [b], body);
  }

  lemma ExtractTwo(fs: FS, root: string, a: Entry, b: Entry)
    requires !a.cut && Apply(fs, OpOf(root, a)).status.Done?
    requires Apply(Apply(fs, OpOf(root, a)).fs, OpOf(root, b)).status.Strayed?
    ensures Extract(fs, root, [a, b], true) == Apply(Apply(fs, OpOf(root, a)).fs, OpOf(root, b))
  {
    assert [a, b][1..] == [b];
  }

  /**
    A link `a` to `/dir` and a file `a/b`, such as a link to /etc and a file passwd below it: the
    second entry goes through the first, and its calls go on at `/dir/b`, which is outside every
    root that does not hold it.
  */
  lemma LinkLeadsOutside(fs: FS, root: string, a: string, b: string, dir: string, body: Data)
    requires Rooted(root) && EmptyRoot(fs, Segs(root)) && !Inside(Segs(root), [dir, b])
    requires IsSegment(a) && a != UP && IsSegment(b) && b != UP && IsSegment(dir) && dir != UP
    ensures var link, file, at := LinkEntry(a, dir), FileEntry(a, b, body), Segs(root) + [a];
      var o := Extract(fs, root, [link, file], true);
      && OpOf(root, link) == PutSymlink(at, "/" + dir) && OpOf(root, file) == PutFile(at + [b], body)
      && Through(OpOf(root, file), at) && !NoneThrough(Ops(root, [link, file]))
      && o.status.Strayed? && at in o.fs.nodes && o.fs.nodes[at] == Symlink("/" + dir)
      && Followed(o.fs.nodes, at, at + [b]) == [dir, b]
  {
    var at := Segs(root) + [a];
    LinkOp(root, a, dir);
    FileOp(root, a, b, body);
    LinkThenFile(fs, Segs(root), a, b, "/" + dir, body);
    ExtractTwo(fs, root, LinkEntry(a, dir), FileEntry(a, b, body));
    AbsoluteSegment(dir);
    var ops := Ops(root, [LinkEntry(a, dir), FileEntry(a, b, body)]);
    assert ops[0].PutSymlink? && Through(ops[1], ops[0].path);
    assert (at + [b])[|at|..] == [b] && [dir] + [b] == [dir, b];
  }
}
