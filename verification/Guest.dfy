/** Paths and mounts inside the guest: what stands where once later mounts hide earlier files. */
module Guest {
  import opened Prelude
  import opened Paths

  type Path = seq<string>
  type Data = seq<bv8>

  /** Where a path leads in the kernel, the agent's working directory being the top. */
  function Place(s: string): Path { Walk(true, [], Split(s)) }

  lemma {:induction false} WalkOfWalk(at: Path, acc: Path, segs: seq<string>)
    requires IsClean(false, acc)
    requires forall i :: 0 <= i < |segs| ==> '/' !in segs[i]
    ensures Walk(true, at, Walk(false, acc, segs)) == Walk(true, Walk(true, at, acc), segs)
    decreases |segs|
  {
    if segs != [] {
      EnterIsClean(false, acc, segs[0]);
      WalkOfEnter(at, acc, segs[0]);
      WalkOfWalk(at, Enter(false, acc, segs[0]), segs[1..]);
    }
  }

  lemma WalkOfEnter(at: Path, acc: Path, g: string)
    requires IsClean(false, acc)
    ensures Walk(true, at, Enter(false, acc, g)) == Enter(true, Walk(true, at, acc), g)
  {
    if g == "" || g == "." {
    } else if g == UP && acc != [] && acc[|acc| - 1] != UP {
      var init, last := acc[..|acc| - 1], acc[|acc| - 1];
      assert acc == init + [last];
      WalkConcat(true, at, init, [last]);
      assert Walk(true, Walk(true, at, init), [last]) == Walk(true, at, init) + [last];
    } else {
      WalkConcat(true, at, acc, [g]);
    }
  }

  /** Cleaning does not move a path, be it absolute or not. */
  lemma PlaceOfClean(s: string)
    ensures Place(Clean(s)) == Place(s)
  {
    SegsAreClean(s);
    if Rooted(s) {
      CleanKeepsMeaning(s);
    } else {
      var segs := Segs(s);
      WalkOfWalk([], [], Split(s));
      if segs == [] {
        SplitPlain(".");
        assert Walk(true, [], ["."]) == [];
      } else {
        SplitSlashed(segs);
      }
    }
  }

  lemma PlaceOfJoin(p: string, g: string)
    requires IsSegment(g) && g != UP
    ensures Place(JoinPath(p, g)) == Place(p) + [g]
  {
    SplitPlain(g);
    if p == "" {
      PlaceOfClean(g);
      WalkDown(true, [], [g]);
      assert [""][1..] == [] && Walk(true, [], [""]) == Walk(true, [], []);
    } else {
      PlaceOfClean(p + "/" + g);
      SplitAtSlash(p, g);
      WalkConcat(true, [], Split(p), [g]);
      WalkDown(true, Place(p), [g]);
    }
  }

  // Mounts.

  /** What is mounted: the root file system, the writable state disk, or one overlay. */
  datatype Store = Base | State | Overlay(lower: string, upper: string, work: string)

  datatype Mount = Mount(at: Path, store: Store)

  datatype Location = Location(store: Store, path: Path)

  /** Mounts in the order they were made, and file contents by store. */
  datatype View = View(mounts: seq<Mount>, files: map<Location, Data>)

  /** The latest mount at or above a path. */
  function Top(mounts: seq<Mount>, p: Path): (i: int)
    ensures -1 <= i < |mounts|
    ensures i >= 0 ==> mounts[i].at <= p
    ensures forall j :: i < j < |mounts| ==> !(mounts[j].at <= p)
  {
    if mounts == [] then -1
    else if mounts[|mounts| - 1].at <= p then |mounts| - 1
    else Top(mounts[..|mounts| - 1], p)
  }

  function Resolve(mounts: seq<Mount>, p: Path): Location {
    var i := Top(mounts, p);
    if i < 0 then Location(Base, p) else Location(mounts[i].store, p[|mounts[i].at|..])
  }

  function Visible(v: View, p: Path): Option<Data> {
    var l := Resolve(v.mounts, p);
    if l in v.files then Some(v.files[l]) else None
  }

  /** `umount`: the mount whose root a path is at, if it is one. */
  function Unmounted(mounts: seq<Mount>, p: Path): seq<Mount> {
    var i := Top(mounts, p);
    if i >= 0 && mounts[i].at == p then mounts[..i] + mounts[i + 1..] else mounts
  }

  lemma TopIs(mounts: seq<Mount>, p: Path, i: int)
    requires -1 <= i < |mounts| && (i >= 0 ==> mounts[i].at <= p)
    requires forall j :: i < j < |mounts| ==> !(mounts[j].at <= p)
    ensures Top(mounts, p) == i
  {}

  /** A mount matters to the paths below it only. */
  lemma MountElsewhere(mounts: seq<Mount>, m: Mount, p: Path)
    ensures Resolve(mounts + [m], p) ==
      if m.at <= p then Location(m.store, p[|m.at|..]) else Resolve(mounts, p)
  {
    assert (mounts + [m])[..|mounts|] == mounts;
  }

  lemma UnmountElsewhere(mounts: seq<Mount>, at: Path, p: Path)
    requires !(at <= p)
    ensures Resolve(Unmounted(mounts, at), p) == Resolve(mounts, p)
  {
    var i := Top(mounts, at);
    if i >= 0 && mounts[i].at == at {
      var after, t := Unmounted(mounts, at), Top(mounts, p);
      forall j | 0 <= j < |after|
        ensures after[j] == mounts[if j < i then j else j + 1]
      {}
      TopIs(after, p, if t < i then t else t - 1);
    }
  }

  lemma UnmountUndoesMount(mounts: seq<Mount>, m: Mount)
    ensures Unmounted(mounts + [m], m.at) == mounts
  {
    assert (mounts + [m])[..|mounts|] == mounts;
  }

  // The state disk.

  predicate IsStateAt(mounts: seq<Mount>, at: Path) { Resolve(mounts, at) == Location(State, []) }

  /** Mounting the state disk where it is on top already changes nothing. */
  function Ensured(mounts: seq<Mount>, at: Path): seq<Mount> {
    if IsStateAt(mounts, at) then mounts else mounts + [Mount(at, State)]
  }

  lemma EnsuredIsState(mounts: seq<Mount>, at: Path)
    ensures IsStateAt(Ensured(mounts, at), at)
  {
    MountElsewhere(mounts, Mount(at, State), at);
  }

  lemma UnderNewMount(mounts: seq<Mount>, at: Path, tail: Path)
    ensures Resolve(mounts + [Mount(at, State)], at + tail) == Location(State, tail)
  {
    MountElsewhere(mounts, Mount(at, State), at + tail);
  }

  predicate IsMerged(at: Path, p: Path) { |p| == |at| + 3 && p[|at| + 2] == "rootfs" }

  /** Since the state disk was mounted there, nothing was mounted below it but containers' merged roots. */
  predicate Tidy(mounts: seq<Mount>, at: Path) {
    forall i :: Top(mounts, at) < i < |mounts| && at < mounts[i].at ==> IsMerged(at, mounts[i].at)
  }

  lemma BelowResolves(mounts: seq<Mount>, at: Path, tail: Path)
    requires IsStateAt(mounts, at) && Tidy(mounts, at) && |tail| == 3 && tail[2] != "rootfs"
    ensures Resolve(mounts, at + tail) == Location(State, tail)
  {
    var i := Top(mounts, at);
    assert |at[|mounts[i].at|..]| == 0;
    assert mounts[i].at == at;
    forall j | i < j < |mounts|
      ensures !(mounts[j].at <= at + tail)
    {
      if mounts[j].at <= at + tail { NotMerged(mounts[j].at, at, tail); }
    }
    TopIs(mounts, at + tail, i);
  }

  lemma NotMerged(p: Path, at: Path, tail: Path)
    requires p <= at + tail && |tail| == 3 && tail[2] != "rootfs"
    ensures p <= at || (at < p && !IsMerged(at, p))
  {
    if |p| > |at| {
      assert forall i :: 0 <= i < |at| ==> p[i] == (at + tail)[i] == at[i];
      if |p| == |at| + 3 { assert p[|at| + 2] == (at + tail)[|at| + 2]; }
    }
  }
}
