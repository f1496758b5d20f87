/**
  Slash-separated path names as Go's `path/filepath` treats them on Unix: a name is text, its
  meaning a sequence of segments that starts at the file system's root or does not.
*/
module Paths {
  const UP: string := ".."

  predicate IsSegment(g: string) { g != "" && g != "." && '/' !in g }

  // Text and segments.

  function Split(s: string): (r: seq<string>)
    ensures |r| >= 1 && forall i :: 0 <= i < |r| ==> '/' !in r[i]
  {
    if s == "" then [""]
    else
      var rest := Split(s[1..]);
      if s[0] == '/' then [""] + rest else [[s[0]] + rest[0]] + rest[1..]
  }

  function Slashed(segs: seq<string>): string {
    if segs == [] then "" else if |segs| == 1 then segs[0] else segs[0] + "/" + Slashed(segs[1..])
  }

  lemma {:induction false} SplitAtSlash(a: string, b: string)
    ensures Split(a + "/" + b) == Split(a) + Split(b)
  {
    if a == "" {
      assert (a + "/" + b)[1..] == b;
    } else {
      assert (a + "/" + b)[1..] == a[1..] + "/" + b;
      SplitAtSlash(a[1..], b);
    }
  }

  lemma {:induction false} SplitPlain(g: string)
    requires '/' !in g
    ensures Split(g) == [g]
  {
    if g != "" {
      assert forall c :: c in g[1..] ==> c in g;
      SplitPlain(g[1..]);
      assert [g[0]] + g[1..] == g;
    }
  }

  /** Splitting undoes joining. */
  lemma {:induction false} SplitSlashed(segs: seq<string>)
    requires segs != [] && forall i :: 0 <= i < |segs| ==> '/' !in segs[i]
    ensures Split(Slashed(segs)) == segs
  {
    SplitPlain(segs[0]);
    if |segs| > 1 {
      SplitAtSlash(segs[0], Slashed(segs[1..]));
      SplitSlashed(segs[1..]);
    }
  }

  // Cleaning.

  predicate Rooted(s: string) { s != "" && s[0] == '/' }

  /** What one more segment does to a cleaned path. */
  function Enter(rooted: bool, at: seq<string>, g: string): seq<string> {
    if g == "" || g == "." then at
    else if g != UP then at + [g]
    else if at != [] && at[|at| - 1] != UP then at[..|at| - 1]
    else if rooted then at
    else at + [UP]
  }

  function Walk(rooted: bool, at: seq<string>, segs: seq<string>): seq<string>
    decreases |segs|
  {
    if segs == [] then at else Walk(rooted, Enter(rooted, at, segs[0]), segs[1..])
  }

  /** The segments a name means. */
  function Segs(s: string): seq<string> { Walk(Rooted(s), [], Split(s)) }

  function Show(rooted: bool, segs: seq<string>): string {
    if rooted then "/" + Slashed(segs) else if segs == [] then "." else Slashed(segs)
  }

  /** `filepath.Clean`. */
  function Clean(s: string): string { Show(Rooted(s), Segs(s)) }

  /** `filepath.Join` of two elements. */
  function JoinPath(a: string, b: string): string {
    if a != "" then Clean(a + "/" + b) else if b != "" then Clean(b) else ""
  }

  /** Cleaned segments: climbs only at the front, and none at all when rooted. */
  predicate IsClean(rooted: bool, segs: seq<string>) {
    && (forall i :: 0 <= i < |segs| ==> IsSegment(segs[i]))
    && (rooted ==> forall i :: 0 <= i < |segs| ==> segs[i] != UP)
    && ClimbsFirst(segs)
  }

  predicate ClimbsFirst(segs: seq<string>) {
    forall i, j :: 0 <= j < i < |segs| && segs[i] == UP ==> segs[j] == UP
  }

  lemma {:induction false} WalkIsClean(rooted: bool, at: seq<string>, segs: seq<string>)
    requires IsClean(rooted, at) && forall i :: 0 <= i < |segs| ==> '/' !in segs[i]
    ensures IsClean(rooted, Walk(rooted, at, segs))
    decreases |segs|
  {
    if segs != [] {
      EnterIsClean(rooted, at, segs[0]);
      WalkIsClean(rooted, Enter(rooted, at, segs[0]), segs[1..]);
    }
  }

  lemma EnterIsClean(rooted: bool, at: seq<string>, g: string)
    requires IsClean(rooted, at) && '/' !in g
    ensures IsClean(rooted, Enter(rooted, at, g))
  {
    if at != [] && g == UP && at[|at| - 1] == UP && !rooted {
      assert forall j :: 0 <= j < |at| ==> at[j] == UP;
    }
  }

  /** The first element of a text is what stands before its first slash. */
  lemma {:induction false} FirstElement(s: string)
    ensures Split(s)[0] <= s && (|Split(s)[0]| < |s| ==> s[|Split(s)[0]|] == '/')
  {
    if s != "" { FirstElement(s[1..]); }
  }

  lemma SegsAreClean(s: string)
    ensures IsClean(Rooted(s), Segs(s))
  {
    WalkIsClean(Rooted(s), [], Split(s));
  }

  lemma {:induction false} WalkConcat(rooted: bool, at: seq<string>, a: seq<string>, b: seq<string>)
    ensures Walk(rooted, at, a + b) == Walk(rooted, Walk(rooted, at, a), b)
    decreases |a|
  {
    if a == [] {
      assert a + b == b;
    } else {
      assert (a + b)[1..] == a[1..] + b;
      WalkConcat(rooted, Enter(rooted, at, a[0]), a[1..], b);
    }
  }

  /** Walking segments that do not climb appends them. */
  lemma {:induction false} WalkDown(rooted: bool, at: seq<string>, segs: seq<string>)
    requires forall i :: 0 <= i < |segs| ==> IsSegment(segs[i]) && segs[i] != UP
    ensures Walk(rooted, at, segs) == at + segs
    decreases |segs|
  {
    if segs == [] {
      assert at + segs == at;
    } else {
      WalkDown(rooted, at + [segs[0]], segs[1..]);
      assert at + [segs[0]] + segs[1..] == at + segs;
    }
  }

  function Ups(n: nat): (r: seq<string>)
    ensures |r| == n && forall i :: 0 <= i < n ==> r[i] == UP
  {
    seq(n, _ => UP)
  }

  /** Climbing from a rooted place drops its last segments and stops at the top. */
  lemma {:induction false} WalkUp(at: seq<string>, n: nat)
    requires forall i :: 0 <= i < |at| ==> at[i] != UP
    ensures Walk(true, at, Ups(n)) == at[..if n <= |at| then |at| - n else 0]
    decreases n
  {
    if n > 0 {
      assert Ups(n)[1..] == Ups(n - 1);
      WalkUp(if at == [] then at else at[..|at| - 1], n - 1);
    }
  }

  lemma {:induction false} WalkUps(at: seq<string>, n: nat)
    requires at == [] || at[|at| - 1] == UP
    ensures Walk(false, at, Ups(n)) == at + Ups(n)
    decreases n
  {
    if n > 0 {
      assert Ups(n)[1..] == Ups(n - 1);
      WalkUps(at + [UP], n - 1);
      assert at + [UP] + Ups(n - 1) == at + Ups(n);
    }
  }

  /** Cleaned segments are some climbs followed by descents. */
  function Climbs(segs: seq<string>): (n: nat)
    ensures n <= |segs| && (forall i :: 0 <= i < n ==> segs[i] == UP) && (n < |segs| ==> segs[n] != UP)
  {
    if segs == [] || segs[0] != UP then 0 else 1 + Climbs(segs[1..])
  }

  lemma ClimbThenDescend(segs: seq<string>)
    requires ClimbsFirst(segs)
    ensures segs == Ups(Climbs(segs)) + segs[Climbs(segs)..]
    ensures forall i :: Climbs(segs) <= i < |segs| ==> segs[i] != UP
  {
    LeadingClimbs(segs);
    Halves(segs, Climbs(segs));
    forall i | Climbs(segs) <= i < |segs|
      ensures segs[i] != UP
    {
      NoClimbAfter(segs, Climbs(segs), i);
    }
  }

  lemma Halves(segs: seq<string>, n: nat)
    requires n <= |segs|
    ensures segs == segs[..n] + segs[n..]
  {}

  lemma NoClimbAfter(segs: seq<string>, n: nat, i: nat)
    requires ClimbsFirst(segs) && n <= i < |segs| && segs[n] != UP
    ensures segs[i] != UP
  {}

  lemma LeadingClimbs(segs: seq<string>)
    ensures segs[..Climbs(segs)] == Ups(Climbs(segs))
  {}

  /** Cleaned segments walk to themselves. */
  lemma WalkClean(rooted: bool, segs: seq<string>)
    requires IsClean(rooted, segs)
    ensures Walk(rooted, [], segs) == segs
  {
    var n := Climbs(segs);
    ClimbThenDescend(segs);
    WalkConcat(rooted, [], Ups(n), segs[n..]);
    if n > 0 {
      assert segs[0] == UP;
      WalkUps([], n);
    }
    WalkDown(rooted, Walk(rooted, [], Ups(n)), segs[n..]);
  }

  /** Showing and reading are inverse on cleaned segments. */
  lemma SegsOfShow(rooted: bool, segs: seq<string>)
    requires IsClean(rooted, segs)
    ensures Rooted(Show(rooted, segs)) == rooted && Segs(Show(rooted, segs)) == segs
  {
    if segs == [] {
      assert Slashed(segs) == "";
      if rooted {
        assert Split("/") == [""] + Split("");
        assert Show(rooted, segs) == "/";
        assert Walk(rooted, [], ["", ""]) == [];
      } else {
        SplitPlain(".");
      }
    } else {
      SplitSlashed(segs);
      WalkClean(rooted, segs);
      SlashedStartsWith(segs);
      if rooted {
        assert ("/" + Slashed(segs))[1..] == Slashed(segs);
        WalkConcat(true, [], [""], segs);
      }
    }
  }

  lemma SlashedStartsWith(segs: seq<string>)
    requires segs != [] && segs[0] != ""
    ensures segs[0] <= Slashed(segs) && Slashed(segs)[0] == segs[0][0]
  {}

  /** Cleaning is idempotent and does not change what a name means. */
  lemma CleanKeepsMeaning(s: string)
    ensures Clean(Clean(s)) == Clean(s) && Segs(Clean(s)) == Segs(s) && Rooted(Clean(s)) == Rooted(s)
  {
    SegsAreClean(s);
    SegsOfShow(Rooted(s), Segs(s));
  }

  /** Joining walks from the first name's place along the second's segments. */
  lemma SegsOfJoin(a: string, segs: seq<string>)
    requires segs != [] && IsClean(false, segs)
    ensures var full := JoinPath(a, Slashed(segs));
      Rooted(full) == Rooted(a) && Segs(full) == Walk(Rooted(a), Segs(a), segs) && full == Clean(full)
      && full == Show(Rooted(a), Segs(full))
  {
    var b := Slashed(segs);
    SlashedStartsWith(segs);
    SplitSlashed(segs);
    var joined := if a != "" then a + "/" + b else b;
    CleanKeepsMeaning(joined);
    if a != "" {
      SplitAtSlash(a, b);
      WalkConcat(Rooted(a), [], Split(a), segs);
      assert Rooted(joined) == Rooted(a);
    } else {
      assert Split(a) == [""];
      assert Walk(false, [], [""]) == [];
      assert '/' !in segs[0];
    }
  }
}
