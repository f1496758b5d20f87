/** Several containers under one state mount: their paths are disjoint, and starts may interleave. */
module ContainerRuns {
  import opened Guest
  import opened ContainerStart
  import opened StartRaces

  // Disjoint subtrees.

  /** A path in one of the container's trees: bundle, overlay diff, overlay work, merged root, runc root. */
  predicate Owns(c: Container, p: Path) {
    || Place(BundleDir(c)) <= p || Place(Upper(c)) <= p || Place(Work(c)) <= p
    || Place(Merged(c)) <= p || Place(RuncRoot(c)) <= p
  }

  lemma OwnedIsAtHome(c: Container, p: Path)
    requires ValidID(c.id) && Owns(c, p)
    ensures Home(c) <= p
  {
    Places(c);
    TreesAreAtHome(Home(c), p);
  }

  lemma TreesAreAtHome(home: Path, p: Path)
    ensures home + ["bundle"] <= p ==> home <= p
    ensures home + ["bundle"] + ["rootfs"] <= p ==> home <= p
    ensures home + ["overlays"] + ["diff"] <= p ==> home <= p
    ensures home + ["overlays"] + ["work"] <= p ==> home <= p
    ensures home + ["runc-root"] <= p ==> home <= p
  {
    Above(home, ["bundle"], [], p);
    Above(home, ["bundle"], ["rootfs"], p);
    Above(home, ["overlays"], ["diff"], p);
    Above(home, ["overlays"], ["work"], p);
    Above(home, ["runc-root"], [], p);
  }

  lemma Above(home: Path, a: Path, b: Path, p: Path)
    ensures home + a <= p ==> home <= p
    ensures home + a + b <= p ==> home <= p
  {}

  /** Containers with different accepted ids share no path, whatever the state mount. */
  lemma DistinctIDsAreDisjoint(c: Container, d: Container, p: Path)
    requires ValidID(c.id) && ValidID(d.id) && c.id != d.id && Place(c.stateDisk) == Place(d.stateDisk)
    ensures !(Owns(c, p) && Owns(d, p))
  {
    if Owns(c, p) && Owns(d, p) {
      OwnedIsAtHome(c, p);
      OwnedIsAtHome(d, p);
      HomesApart(Place(c.stateDisk), c.id, d.id, p);
    }
  }

  lemma HomesApart(at: Path, a: string, b: string, p: Path)
    requires at + [a] <= p && at + [b] <= p
    ensures a == b
  {
    assert (at + [a])[|at|] == p[|at|] == (at + [b])[|at|];
  }

  /** One container's own trees do not overlap either, save that the merged root is in the bundle. */
  lemma OwnTreesAreDisjoint(c: Container, p: Path)
    requires ValidID(c.id)
    ensures !Overlap(Place(Upper(c)), Place(Work(c)), p)
    ensures !Overlap(Place(BundleDir(c)), Place(Upper(c)), p) && !Overlap(Place(BundleDir(c)), Place(Work(c)), p)
    ensures !Overlap(Place(BundleDir(c)), Place(RuncRoot(c)), p)
    ensures !Overlap(Place(RuncRoot(c)), Place(Upper(c)), p) && !Overlap(Place(RuncRoot(c)), Place(Work(c)), p)
  {
    Places(c);
    TreesOf(Home(c), p);
  }

  predicate Overlap(a: Path, b: Path, p: Path) { a <= p && b <= p }

  lemma TreesOf(home: Path, p: Path)
    ensures var bundle, overlays, runc := home + ["bundle"], home + ["overlays"], home + ["runc-root"];
      && !Overlap(overlays + ["diff"], overlays + ["work"], p)
      && !Overlap(bundle, overlays + ["diff"], p) && !Overlap(bundle, overlays + ["work"], p) && !Overlap(bundle, runc, p)
      && !Overlap(runc, overlays + ["diff"], p) && !Overlap(runc, overlays + ["work"], p)
  {
    SiblingsApart(home + ["overlays"], "diff", [], "work", [], p);
    SiblingsApart(home, "bundle", [], "overlays", ["diff"], p);
    SiblingsApart(home, "bundle", [], "overlays", ["work"], p);
    SiblingsApart(home, "bundle", [], "runc-root", [], p);
    SiblingsApart(home, "runc-root", [], "overlays", ["diff"], p);
    SiblingsApart(home, "runc-root", [], "overlays", ["work"], p);
  }

  lemma SiblingsApart(dir: Path, a: string, x: Path, b: string, y: Path, p: Path)
    requires a != b
    ensures !Overlap(dir + [a] + x, dir + [b] + y, p)
    ensures x == [] ==> !Overlap(dir + [a], dir + [b] + y, p)
    ensures x == [] && y == [] ==> !Overlap(dir + [a], dir + [b], p)
  {
    var u, v := dir + [a] + x, dir + [b] + y;
    assert u[|dir|] == a && v[|dir|] == b;
    if x == [] { assert u == dir + [a]; }
    if y == [] { assert v == dir + [b]; }
  }

  // Interleaved starts, all under one state mount.

  /** What a start of the container is about. */
  function SeatOf(c: Container): Seat { Seat(c.spec, Place(ConfigPath(c)), OverlayMount(c, c.stateDisk)) }

  function Seats(cs: set<Container>): set<Seat> { set c | c in cs :: SeatOf(c) }

  predicate Accepted(cs: set<Container>, stateDisk: string) {
    forall c :: c in cs ==> ValidID(c.id) && c.stateDisk == stateDisk
  }

  /** A merged root covers neither the state mount nor any specification. */
  lemma MergedIsElsewhere(c: Container, d: Container, stateDisk: string)
    requires ValidID(c.id) && ValidID(d.id) && c.stateDisk == stateDisk && d.stateDisk == stateDisk
    ensures !(Place(Merged(c)) <= Place(stateDisk)) && !(Place(Merged(c)) <= Place(ConfigPath(d)))
  {
    Places(c);
    Places(d);
    NotBelow(Home(c) + ["bundle"], Home(d) + ["bundle"]);
  }

  lemma NotBelow(a: Path, b: Path)
    requires |a| == |b|
    ensures !(a + ["rootfs"] <= b + ["config.json"])
  {
    assert (a + ["rootfs"])[|a|] == "rootfs" && (b + ["config.json"])[|a|] == "config.json";
  }

  lemma SeatsAreApart(cs: set<Container>, stateDisk: string)
    requires Accepted(cs, stateDisk)
    ensures Apart(Seats(cs), Place(stateDisk))
  {
    forall s, t | s in Seats(cs) && t in Seats(cs)
      ensures !(s.overlay.at <= Place(stateDisk)) && !(s.overlay.at <= t.config)
    {
      var c :| c in cs && s == SeatOf(c);
      var d :| d in cs && t == SeatOf(d);
      MergedIsElsewhere(c, d, stateDisk);
    }
  }

  /**
    With virtiofs, from any mounts and files, in every interleaving of starts, exits and failures
    of these containers each started runc sees its own container's specification, if and only if
    containers whose specifications are kept at one place have the same one.
  */
  lemma EveryContainerSeesItsSpecExactly(view: View, stateDisk: string, cs: set<Container>)
    requires Accepted(cs, stateDisk)
    ensures Harmless(view.mounts, Place(stateDisk), Seats(cs)) <==> AllSee(view, Place(stateDisk), Seats(cs))
  {
    SeatsAreApart(cs, stateDisk);
    SpecsAreSeenExactly(view, Place(stateDisk), Seats(cs));
  }

  // When that is.

  /**
    Where the state disk is not mounted yet, or only merged roots were mounted below it since,
    every specification is on the state disk under its container's id.
  */
  lemma KeptOnStateDisk(mounts: seq<Mount>, c: Container)
    requires ValidID(c.id) && (IsStateAt(mounts, Place(c.stateDisk)) ==> Tidy(mounts, Place(c.stateDisk)))
    ensures Kept(mounts, Place(c.stateDisk), SeatOf(c)) == OnStateDisk(c)
  {
    PlaceOfConfig(c);
    KeptBelow(mounts, Place(c.stateDisk), OnStateDisk(c).path);
  }

  lemma KeptBelow(mounts: seq<Mount>, at: Path, tail: Path)
    requires (IsStateAt(mounts, at) ==> Tidy(mounts, at)) && |tail| == 3 && tail[2] != "rootfs"
    ensures Resolve(Ensured(mounts, at), at + tail) == Location(State, tail)
  {
    if IsStateAt(mounts, at) {
      BelowResolves(mounts, at, tail);
    } else {
      UnderNewMount(mounts, at, tail);
    }
  }

  lemma OnePlaceOneID(c: Container, d: Container)
    requires OnStateDisk(c) == OnStateDisk(d)
    ensures c.id == d.id
  {
    assert OnStateDisk(c).path[0] == c.id && OnStateDisk(d).path[0] == d.id;
  }

  /** There, containers clash only under one id: different ids are enough. */
  lemma DifferentIDsAreHarmless(mounts: seq<Mount>, stateDisk: string, cs: set<Container>)
    requires Accepted(cs, stateDisk) && (IsStateAt(mounts, Place(stateDisk)) ==> Tidy(mounts, Place(stateDisk)))
    requires forall c, d :: c in cs && d in cs && c.id == d.id ==> c.spec == d.spec
    ensures Harmless(mounts, Place(stateDisk), Seats(cs))
  {
    forall s, t | s in Seats(cs) && t in Seats(cs)
      ensures !Clash(mounts, Place(stateDisk), s, t)
    {
      var c :| c in cs && s == SeatOf(c);
      var d :| d in cs && t == SeatOf(d);
      KeptOnStateDisk(mounts, c);
      KeptOnStateDisk(mounts, d);
      if OnStateDisk(c) == OnStateDisk(d) { OnePlaceOneID(c, d); }
    }
  }

  // One start.

  /** The five steps of a start, run without interruption, are what `Start` does when it succeeds. */
  lemma StepsMakeAStart(view: View, c: Container, default: string, env: Env)
    requires !Blank(c.stateDisk) && Started(view, true, c, default, env).1.None?
    ensures var steps := [Begin(0, SeatOf(c)), MountState(0), WriteConfig(0), RemountState(0), Cover(0)];
      Run(Machine(view, map[]), Place(c.stateDisk), steps) ==
        Machine(Started(view, true, c, default, env).0, map[0 := Job(SeatOf(c), Running)])
  {
    SuccessfulStart(view, true, c, default, env);
    FiveSteps(view, Place(c.stateDisk), SeatOf(c));
  }
}
