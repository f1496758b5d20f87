/** `safeJoin` (vm/image_disk.go:201-220): where an archive entry's name lands under a root. */
module SafeJoin {
  import opened Prelude
  import opened Text
  import opened Paths

  function Common(a: seq<string>, b: seq<string>): (k: nat)
    ensures k <= |a| && k <= |b| && a[..k] == b[..k]
    ensures k < |a| && k < |b| ==> a[k] != b[k]
    ensures a <= b ==> k == |a|
  {
    if a == [] || b == [] || a[0] != b[0] then 0 else 1 + Common(a[1..], b[1..])
  }

  /** The way from one cleaned path to another, both rooted or both not. */
  function RelPath(from: seq<string>, to: seq<string>): seq<string> {
    Ups(|from| - Common(from, to)) + to[Common(from, to)..]
  }

  function RelText(from: seq<string>, to: seq<string>): Option<string> {
    var k := Common(from, to);
    if k < |from| && k < |to| && from[k] == UP then None else Some(Slashed(RelPath(from, to)))
  }

  function RelClean(b: string, t: string): Option<string> {
    if b == t then Some(".")
    else if Rooted(b) != Rooted(t) then None
    else RelText(Segs(b), if t == "." then ["."] else Segs(t))
  }

  /** `filepath.Rel`; a target of "." counts as one element. */
  function Rel(base: string, target: string): Option<string> { RelClean(Clean(base), Clean(target)) }

  datatype JoinError = InvalidPath | Unrelated | EscapesRoot

  function StripSlashes(s: string): string {
    if HasPrefix(s, "/") then StripSlashes(s[1..]) else s
  }

  function SafeJoined(root: string, name: string): Result<string, JoinError> {
    var clean := Clean(name);
    if clean == "." || clean == "/" then Err(InvalidPath)
    else
      var full := JoinPath(root, StripSlashes(clean));
      match Rel(root, full)
      case None => Err(Unrelated)
      case Some(rel) => if rel == UP || HasPrefix(rel, "../") then Err(EscapesRoot) else Ok(full)
  }

  method SafeJoin(root: string, name: string) returns (r: Result<string, JoinError>)
    ensures r == SafeJoined(root, name)
  {
    var clean := Clean(name);
    if clean == "." || clean == "/" { return Err(InvalidPath); }
    while HasPrefix(clean, "/")
      invariant StripSlashes(clean) == StripSlashes(Clean(name))
      decreases |clean|
    {
      clean := clean[1..];
    }
    var full := JoinPath(root, clean);
    var rel := Rel(root, full);
    if rel.None? { return Err(Unrelated); }
    if rel.value == UP || HasPrefix(rel.value, "../") { return Err(EscapesRoot); }
    return Ok(full);
  }

  /** Where the name leads when it is walked from the root. */
  function Landing(root: string, name: string): seq<string> { Walk(Rooted(root), Segs(root), Segs(name)) }

  lemma StrippedName(name: string)
    ensures Segs(name) == [] <==> Clean(name) == "." || Clean(name) == "/"
    ensures Segs(name) != [] ==> StripSlashes(Clean(name)) == Slashed(Segs(name))
    ensures IsClean(false, Segs(name))
  {
    SegsAreClean(name);
    var segs := Segs(name);
    if segs != [] {
      SlashedStartsWith(segs);
      assert Slashed(segs) != "." by { SlashedIsNotADot(segs); }
      assert ("/" + Slashed(segs))[1..] == Slashed(segs);
      assert '/' !in segs[0];
    }
  }

  lemma SlashedIsNotADot(segs: seq<string>)
    requires segs != [] && forall i :: 0 <= i < |segs| ==> IsSegment(segs[i])
    ensures Slashed(segs) != "."
  {
    SplitSlashed(segs);
    SplitPlain(".");
  }

  /** The textual test for a climb looks at the whole first segment. */
  lemma ClimbIsAWholeSegment(segs: seq<string>)
    requires segs != [] && forall i :: 0 <= i < |segs| ==> '/' !in segs[i]
    ensures Slashed(segs) == UP || HasPrefix(Slashed(segs), "../") <==> segs[0] == UP
  {
    SplitSlashed(segs);
    TextClimbs(Slashed(segs));
  }

  lemma TextClimbs(s: string)
    ensures s == UP || HasPrefix(s, "../") <==> Split(s)[0] == UP
  {
    if HasPrefix(s, "../") {
      assert s == UP + "/" + s[3..];
      SplitAtSlash(UP, s[3..]);
      SplitPlain(UP);
    } else if s == UP {
      SplitPlain(UP);
    } else {
      FirstElement(s);
    }
  }

  lemma JoinLands(root: string, name: string)
    requires Segs(name) != []
    ensures var full := JoinPath(root, StripSlashes(Clean(name)));
      full == Show(Rooted(root), Landing(root, name)) && full == Clean(full)
      && Rooted(full) == Rooted(root) && Segs(full) == Landing(root, name)
  {
    StrippedName(name);
    SegsOfJoin(root, Segs(name));
  }

  predicate Under(root: seq<string>, path: seq<string>) {
    root <= path && (|root| < |path| ==> path[|root|] != UP)
  }

  /**
    For every root and every name: the join succeeds if and only if the name means something and
    walking it from the root ends under the root, and then the result is that place.
  */
  lemma JoinsExactlyUnderTheRoot(root: string, name: string)
    ensures SafeJoined(root, name).Ok? <==> Segs(name) != [] && Under(Segs(root), Landing(root, name))
    ensures Rooted(root) ==> (Under(Segs(root), Landing(root, name)) <==> Segs(root) <= Landing(root, name))
    ensures SafeJoined(root, name).Ok? ==>
      var full := SafeJoined(root, name).value;
      full == Show(Rooted(root), Landing(root, name)) && Rooted(full) == Rooted(root) && Segs(full) == Landing(root, name)
  {
    StrippedName(name);
    SegsAreClean(root);
    WalkIsClean(Rooted(root), Segs(root), Segs(name));
    RelFromRoot(root, Landing(root, name));
    if Segs(name) != [] { JoinLands(root, name); }
  }

  lemma RelFromRoot(root: string, to: seq<string>)
    requires IsClean(Rooted(root), to)
    ensures var rel := Rel(root, Show(Rooted(root), to));
      !Climbing(rel) <==> Under(Segs(root), to)
  {
    RelIs(root, to);
    SegsAreClean(root);
    RelTextClimbs(Segs(root), Elements(Rooted(root), to));
  }

  /** The elements of a cleaned path as a target of `filepath.Rel`. */
  function Elements(rooted: bool, to: seq<string>): seq<string> { if !rooted && to == [] then ["."] else to }

  lemma ShownTexts(root: string, to: seq<string>)
    requires IsClean(Rooted(root), to)
    ensures var t := Show(Rooted(root), to);
      && Clean(t) == t && Segs(t) == to && Rooted(t) == Rooted(root) && (t == "." <==> !Rooted(root) && to == [])
  {
    SegsOfShow(Rooted(root), to);
    if !Rooted(root) && to != [] {
      SlashedIsNotADot(to);
    }
  }

  lemma RelIs(root: string, to: seq<string>)
    requires IsClean(Rooted(root), to)
    ensures Rel(root, Show(Rooted(root), to)) ==
      if Segs(root) == to then Some(".") else RelText(Segs(root), Elements(Rooted(root), to))
  {
    ShownTexts(root, to);
    SegsAreClean(root);
    ShownTexts(root, Segs(root));
    RelCleanIs(Clean(root), Show(Rooted(root), to), to);
  }

  lemma RelCleanIs(b: string, t: string, to: seq<string>)
    requires Rooted(b) == Rooted(t) && Segs(t) == to && (t == "." <==> !Rooted(b) && to == [])
    requires b == t <==> Segs(b) == to
    ensures RelClean(b, t) == if Segs(b) == to then Some(".") else RelText(Segs(b), Elements(Rooted(b), to))
  {}

  predicate Climbing(rel: Option<string>) { rel.None? || rel.value == UP || HasPrefix(rel.value, "../") }

  lemma RelTextClimbs(from: seq<string>, to: seq<string>)
    requires forall i :: 0 <= i < |to| ==> '/' !in to[i]
    ensures from != to ==> (!Climbing(RelText(from, to)) <==> from <= to && to[|from|] != UP)
  {
    if from != to { RelPathClimbs(from, to); }
  }

  lemma RelPathClimbs(from: seq<string>, to: seq<string>)
    requires from != to && forall i :: 0 <= i < |to| ==> '/' !in to[i]
    ensures Climbing(Some(Slashed(RelPath(from, to)))) <==> !(from <= to && to[|from|] != UP)
  {
    RelSegs(from, to);
    ClimbIsAWholeSegment(RelPath(from, to));
  }

  lemma RelSegs(from: seq<string>, to: seq<string>)
    requires from != to
    ensures RelPath(from, to) != []
    ensures RelPath(from, to)[0] != UP <==> from <= to && to[|from|] != UP
  {}

  /** A name that means nothing is invalid; any other that fails escapes or cannot be compared with the root. */
  lemma InvalidNamesExactly(root: string, name: string)
    ensures SafeJoined(root, name) == Err(InvalidPath) <==> Segs(name) == []
  {
    StrippedName(name);
  }

  // What that means for names of each shape.

  /** A name whose meaning does not start with a climb - every absolute one - always joins, below the root. */
  lemma NamesWithoutClimbsJoin(root: string, name: string)
    requires Segs(name) != [] && (Rooted(name) || Segs(name)[0] != UP)
    ensures SafeJoined(root, name) == Ok(Show(Rooted(root), Segs(root) + Segs(name)))
  {
    SegsAreClean(name);
    WalkDown(Rooted(root), Segs(root), Segs(name));
    JoinsExactlyUnderTheRoot(root, name);
  }

  /** A segment that merely begins with two dots is an ordinary one. */
  lemma DottedSegmentJoins(root: string, g: string)
    requires IsSegment(g) && g != UP
    ensures SafeJoined(root, g) == Ok(Show(Rooted(root), Segs(root) + [g]))
  {
    SplitPlain(g);
    assert g[0] in g;
    assert Walk(false, [], [g]) == [g];
    NamesWithoutClimbsJoin(root, g);
  }

  /**
    Under an absolute root a name that climbs n segments joins if and only if its descent spells
    again the segments of the root it climbed out of; then it lands at the same place as a name
    without the climb, or at the root itself.
  */
  lemma ClimbingNamesMustReturn(root: string, name: string)
    requires Rooted(root) && Segs(name) != []
    ensures var at, n := Segs(root), Climbs(Segs(name));
      var kept := if n <= |at| then |at| - n else 0;
      && Landing(root, name) == at[..kept] + Segs(name)[n..]
      && (SafeJoined(root, name).Ok? <==> at[kept..] <= Segs(name)[n..])
  {
    var at, n := Segs(root), Climbs(Segs(name));
    var kept := if n <= |at| then |at| - n else 0;
    SegsAreClean(name);
    SegsAreClean(root);
    ClimbThenDescend(Segs(name));
    WalkConcat(true, at, Ups(n), Segs(name)[n..]);
    WalkUp(at, n);
    WalkDown(true, at[..kept], Segs(name)[n..]);
    JoinsExactlyUnderTheRoot(root, name);
    PrefixSplits(at, kept, Segs(name)[n..]);
  }

  lemma PrefixSplits(at: seq<string>, kept: nat, rest: seq<string>)
    requires kept <= |at|
    ensures at <= at[..kept] + rest <==> at[kept..] <= rest
  {
    assert at == at[..kept] + at[kept..];
    if at <= at[..kept] + rest {
      assert (at[..kept] + rest)[..|at|] == at;
      assert forall i :: 0 <= i < |at| - kept ==> rest[i] == (at[..kept] + rest)[kept + i];
    }
  }
}
