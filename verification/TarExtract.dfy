/**
  `extractTarInto` (vm/image_disk.go:140-199) over a file system of directories, inodes and
  symbolic links. An operation that would have to follow a symbolic link ends the run as `Strayed`.
*/
module TarExtract {
  import opened Prelude
  import opened Paths
  import opened SafeJoin

  type Path = seq<string>
  type Data = seq<bv8>

  datatype Node = Dir | File(ino: nat) | Symlink(text: string)

  /** The nodes by path, the contents by inode, and the next inode number. */
  datatype FS = FS(nodes: map<Path, Node>, data: map<nat, Data>, next: nat)

  datatype Status = Done | Failed | Strayed

  datatype Outcome = Outcome(fs: FS, status: Status)

  function Prefixes(p: Path): (r: set<Path>)
    ensures forall q :: q in r <==> q <= p
  {
    var r := set n | 0 <= n <= |p| :: p[..n];
    assert forall q :: q <= p ==> q == p[..|q|];
    r
  }

  /** `filepath.Dir` of a clean absolute path. */
  function Parent(p: Path): Path { if p == [] then [] else p[..|p| - 1] }

  // The calls into the operating system.

  predicate MeetsSymlink(nodes: map<Path, Node>, p: Path) { exists q :: q in nodes && q <= p && nodes[q].Symlink? }

  predicate MeetsFile(nodes: map<Path, Node>, p: Path) { exists q :: q in nodes && q <= p && nodes[q].File? }

  function WithDirs(nodes: map<Path, Node>, p: Path): map<Path, Node> {
    map q | q in nodes.Keys + Prefixes(p) :: if q in nodes then nodes[q] else Dir
  }

  /** `os.MkdirAll`: everything missing up to `p`, or nothing. */
  function MkdirAll(fs: FS, p: Path): Outcome {
    if MeetsSymlink(fs.nodes, p) then Outcome(fs, Strayed)
    else if MeetsFile(fs.nodes, p) then Outcome(fs, Failed)
    else Outcome(fs.(nodes := WithDirs(fs.nodes, p)), Done)
  }

  /** `os.OpenFile` to create or truncate, then the copy of the body: an existing inode is reused. */
  function WriteFile(fs: FS, p: Path, body: Data): Outcome {
    if p !in fs.nodes then
      Outcome(FS(fs.nodes[p := File(fs.next)], fs.data[fs.next := body], fs.next + 1), Done)
    else
      match fs.nodes[p]
      case Dir => Outcome(fs, Failed)
      case Symlink(_) => Outcome(fs, Strayed)
      case File(ino) => Outcome(fs.(data := fs.data[ino := body]), Done)
  }

  predicate IsEmptyDir(nodes: map<Path, Node>, p: Path) { forall q :: q in nodes && p <= q ==> q == p }

  /** `os.Remove` with its error ignored: a directory goes only when empty, the top never. */
  function Remove(fs: FS, p: Path): FS {
    if p in fs.nodes && p != [] && (fs.nodes[p].Dir? ==> IsEmptyDir(fs.nodes, p)) then fs.(nodes := fs.nodes - {p}) else fs
  }

  function MakeSymlink(fs: FS, p: Path, text: string): Outcome {
    if text == "" || p in fs.nodes then Outcome(fs, Failed) else Outcome(fs.(nodes := fs.nodes[p := Symlink(text)]), Done)
  }

  /** `os.Link`. What a link to a symbolic link is depends on the platform, so that strays too. */
  function MakeLink(fs: FS, from: Path, p: Path): Outcome {
    if MeetsSymlink(fs.nodes, from) then Outcome(fs, Strayed)
    else if from !in fs.nodes || fs.nodes[from].Dir? || p in fs.nodes then Outcome(fs, Failed)
    else Outcome(fs.(nodes := fs.nodes[p := fs.nodes[from]]), Done)
  }

  // Archive entries.

  datatype Type = TypeDir | TypeReg | TypeSymlink | TypeLink | TypeOther

  /** `cut` when the archive is damaged within the entry's body, of which `body` could be read. */
  datatype Entry = Entry(name: string, typeflag: Type, linkname: string, body: Data, cut: bool)

  /** What an entry asks for, once its names are joined to the root. */
  datatype Op =
    | Skip
    | PutDir(path: Path)
    | PutFile(path: Path, body: Data)
    | PutSymlink(path: Path, text: string)
    | PutLink(path: Path, from: Path)

  function JoinedOp(joined: Result<string, JoinError>, link: Result<string, JoinError>, e: Entry): Op {
    if joined.Err? then Skip
    else
      var target := Segs(joined.value);
      match e.typeflag
      case TypeDir => PutDir(target)
      case TypeReg => PutFile(target, e.body)
      case TypeSymlink => PutSymlink(target, e.linkname)
      case TypeLink => if link.Err? then Skip else PutLink(target, Segs(link.value))
      case TypeOther => Skip
  }

  function OpOf(root: string, e: Entry): Op { JoinedOp(SafeJoined(root, e.name), SafeJoined(root, e.linkname), e) }

  function Apply(fs: FS, op: Op): Outcome {
    match op
    case Skip => Outcome(fs, Done)
    case PutDir(p) => MkdirAll(fs, p)
    case PutFile(p, body) =>
      var made := MkdirAll(fs, Parent(p));
      if made.status.Done? then WriteFile(made.fs, p, body) else made
    case PutSymlink(p, text) =>
      var made := MkdirAll(fs, Parent(p));
      if made.status.Done? then MakeSymlink(Remove(made.fs, p), p, text) else made
    case PutLink(p, from) =>
      var made := MkdirAll(fs, Parent(p));
      if made.status.Done? then MakeLink(Remove(made.fs, p), from, p) else made
  }

  /** The file system after the entries, and how it ended; `sound` when the end of the archive is readable. */
  function Extract(fs: FS, root: string, entries: seq<Entry>, sound: bool): Outcome
    decreases |entries|
  {
    if entries == [] then Outcome(fs, if sound then Done else Failed)
    else
      var o := Apply(fs, OpOf(root, entries[0]));
      if !o.status.Done? then o
      else if entries[0].cut then Outcome(o.fs, Failed)
      else Extract(o.fs, root, entries[1..], sound)
  }

  /** The file system as the program changes it. */
  class Disk {
    var nodes: map<Path, Node>
    var data: map<nat, Data>
    var next: nat

    function Value(): FS
      reads this
    {
      FS(nodes, data, next)
    }

    constructor (fs: FS)
      ensures Value() == fs
    {
      nodes, data, next := fs.nodes, fs.data, fs.next;
    }

    method Mkdirs(p: Path) returns (status: Status)
      modifies this
      ensures Outcome(Value(), status) == MkdirAll(old(Value()), p)
    {
      if MeetsSymlink(nodes, p) { return Strayed; }
      if MeetsFile(nodes, p) { return Failed; }
      nodes := WithDirs(nodes, p);
      return Done;
    }

    method CopyInto(p: Path, body: Data) returns (status: Status)
      modifies this
      ensures Outcome(Value(), status) == WriteFile(old(Value()), p, body)
    {
      if p !in nodes {
        nodes := nodes[p := File(next)];
        data := data[next := body];
        next := next + 1;
        return Done;
      }
      match nodes[p] {
        case Dir => return Failed;
        case Symlink(_) => return Strayed;
        case File(ino) =>
          data := data[ino := body];
          return Done;
      }
    }

    method Unlink(p: Path)
      modifies this
      ensures Value() == Remove(old(Value()), p)
    {
      if p in nodes && p != [] && (nodes[p].Dir? ==> IsEmptyDir(nodes, p)) { nodes := nodes - {p}; }
    }

    method Symlinked(p: Path, text: string) returns (status: Status)
      modifies this
      ensures Outcome(Value(), status) == MakeSymlink(old(Value()), p, text)
    {
      if text == "" || p in nodes { return Failed; }
      nodes := nodes[p := Symlink(text)];
      return Done;
    }

    method Linked(from: Path, p: Path) returns (status: Status)
      modifies this
      ensures Outcome(Value(), status) == MakeLink(old(Value()), from, p)
    {
      if MeetsSymlink(nodes, from) { return Strayed; }
      if from !in nodes || nodes[from].Dir? || p in nodes { return Failed; }
      nodes := nodes[p := nodes[from]];
      return Done;
    }

    method UnpackFile(target: Path, body: Data) returns (status: Status)
      modifies this
      ensures Outcome(Value(), status) == Apply(old(Value()), PutFile(target, body))
    {
      status := Mkdirs(Parent(target));
      if !status.Done? { return; }
      status := CopyInto(target, body);
    }

    method UnpackSymlink(target: Path, text: string) returns (status: Status)
      modifies this
      ensures Outcome(Value(), status) == Apply(old(Value()), PutSymlink(target, text))
    {
      status := Mkdirs(Parent(target));
      if !status.Done? { return; }
      Unlink(target);
      status := Symlinked(target, text);
    }

    method UnpackLink(target: Path, from: Path) returns (status: Status)
      modifies this
      ensures Outcome(Value(), status) == Apply(old(Value()), PutLink(target, from))
    {
      status := Mkdirs(Parent(target));
      if !status.Done? { return; }
      Unlink(target);
      status := Linked(from, target);
    }

    /** One entry of the loop: the branches of the `switch`. */
    method Unpack(root: string, e: Entry) returns (status: Status)
      modifies this
      ensures Outcome(Value(), status) == Apply(old(Value()), OpOf(root, e))
    {
      var joined := SafeJoin.SafeJoin(root, e.name);
      if joined.Err? { return Done; }
      var target := Segs(joined.value);
      match e.typeflag {
        case TypeDir => status := Mkdirs(target);
        case TypeReg => status := UnpackFile(target, e.body);
        case TypeSymlink => status := UnpackSymlink(target, e.linkname);
        case TypeLink =>
          var from := SafeJoin.SafeJoin(root, e.linkname);
          if from.Err? { return Done; }
          status := UnpackLink(target, Segs(from.value));
        case TypeOther => return Done;
      }
    }

    method ExtractTarInto(root: string, entries: seq<Entry>, sound: bool) returns (status: Status)
      modifies this
      ensures Outcome(Value(), status) == Extract(old(Value()), root, entries, sound)
    {
      for i := 0 to |entries|
        invariant Extract(Value(), root, entries[i..], sound) == Extract(old(Value()), root, entries, sound)
      {
        status := Unpack(root, entries[i]);
        if !status.Done? { return; }
        if entries[i].cut { return Failed; }
      }
      return if sound then Done else Failed;
    }
  }
}
