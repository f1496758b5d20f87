/** `Create`, `Start` and the clean-up of a task (agent/cmd/agent/container_service.go:26, 60-240, 273-336). */
module ContainerStart {
  import opened Prelude
  import opened Text
  import opened Paths
  import opened Guest

  // Containers.

  datatype Container = Container(id: string, spec: Data, rootfsPath: string, stateDisk: string)

  datatype CreateError = InvalidID | NoImage | NoRootfsPath | NoStateDisk | EmptySpec

  predicate AlphaNumeric(c: char) { 'a' <= c <= 'z' || 'A' <= c <= 'Z' || '0' <= c <= '9' }

  /** `containerIDRe`: a letter or digit, then at most 127 letters, digits, underscores, dots or dashes. */
  predicate ValidID(id: string) {
    && 1 <= |id| <= 128 && AlphaNumeric(id[0])
    && forall i :: 1 <= i < |id| ==> AlphaNumeric(id[i]) || id[i] == '_' || id[i] == '.' || id[i] == '-'
  }

  predicate Blank(s: string) { TrimSpace(s) == "" }

  function Create(id: string, image: string, spec: Data, rootfsPath: string, stateDisk: string)
    : Result<Container, CreateError>
  {
    if !ValidID(id) then Err(InvalidID)
    else if Blank(image) then Err(NoImage)
    else if Blank(rootfsPath) then Err(NoRootfsPath)
    else if Blank(stateDisk) then Err(NoStateDisk)
    else if spec == [] then Err(EmptySpec)
    else Ok(Container(id, spec, rootfsPath, stateDisk))
  }

  /** An accepted id is one ordinary path segment. */
  lemma IDIsASegment(id: string)
    requires ValidID(id)
    ensures IsSegment(id) && id != UP
  {}

  /** What each refusal is about, and the order in which they are made. */
  predicate Refusal(id: string, image: string, spec: Data, rootfsPath: string, stateDisk: string, e: CreateError) {
    match e
    case InvalidID =>
      id == "" || |id| > 128 || !LetterOrDigit(id[0] as int)
      || exists i :: 1 <= i < |id| && !LetterOrDigit(id[i] as int) && id[i] !in ['_', '.', '-']
    case NoImage => forall i :: 0 <= i < |image| ==> IsSpace(image[i])
    case NoRootfsPath => forall i :: 0 <= i < |rootfsPath| ==> IsSpace(rootfsPath[i])
    case NoStateDisk => forall i :: 0 <= i < |stateDisk| ==> IsSpace(stateDisk[i])
    case EmptySpec => spec == []
  }

  /** By code point: 0 to 9, A to Z, a to z. */
  predicate LetterOrDigit(code: int) { 48 <= code <= 57 || 65 <= code <= 90 || 97 <= code <= 122 }

  function RefusalOrder(e: CreateError): nat {
    match e case InvalidID => 0 case NoImage => 1 case NoRootfsPath => 2 case NoStateDisk => 3 case EmptySpec => 4
  }

  /** A container is created with the given fields exactly when nothing is refused; else the first refusal is the answer. */
  lemma CreatedExactly(id: string, image: string, spec: Data, rootfsPath: string, stateDisk: string)
    ensures var answer := Create(id, image, spec, rootfsPath, stateDisk);
      && (answer.Ok? ==> answer.value == Container(id, spec, rootfsPath, stateDisk) && IsSegment(id) && id != UP)
      && (answer.Ok? <==> forall e: CreateError :: !Refusal(id, image, spec, rootfsPath, stateDisk, e))
      && (answer.Err? ==>
            && Refusal(id, image, spec, rootfsPath, stateDisk, answer.error)
            && forall e: CreateError :: RefusalOrder(e) < RefusalOrder(answer.error) ==>
                 !Refusal(id, image, spec, rootfsPath, stateDisk, e))
  {
    BlankExactly(image);
    BlankExactly(rootfsPath);
    BlankExactly(stateDisk);
    IDExactly(id);
    if ValidID(id) { IDIsASegment(id); }
    if forall e: CreateError :: !Refusal(id, image, spec, rootfsPath, stateDisk, e) {
      assert !Refusal(id, image, spec, rootfsPath, stateDisk, InvalidID);
      assert !Refusal(id, image, spec, rootfsPath, stateDisk, NoImage);
      assert !Refusal(id, image, spec, rootfsPath, stateDisk, NoRootfsPath);
      assert !Refusal(id, image, spec, rootfsPath, stateDisk, NoStateDisk);
      assert !Refusal(id, image, spec, rootfsPath, stateDisk, EmptySpec);
    }
  }

  lemma IDExactly(id: string)
    ensures ValidID(id) <==>
      !(id == "" || |id| > 128 || !LetterOrDigit(id[0] as int)
        || exists i :: 1 <= i < |id| && !LetterOrDigit(id[i] as int) && id[i] !in ['_', '.', '-'])
  {}

  // The paths of a container.

  function RunRoot(stateDisk: string, id: string): string { JoinPath(stateDisk, id) }

  function BundleDir(c: Container): string { JoinPath(RunRoot(c.stateDisk, c.id), "bundle") }

  function ConfigPath(c: Container): string { JoinPath(BundleDir(c), "config.json") }

  function Merged(c: Container): string { JoinPath(BundleDir(c), "rootfs") }

  function OverlaysRoot(c: Container): string { JoinPath(RunRoot(c.stateDisk, c.id), "overlays") }

  function Upper(c: Container): string { JoinPath(OverlaysRoot(c), "diff") }

  function Work(c: Container): string { JoinPath(OverlaysRoot(c), "work") }

  function RuncRoot(c: Container): string { JoinPath(RunRoot(c.stateDisk, c.id), "runc-root") }

  /** Where a container keeps everything: one directory of the state mount. */
  function Home(c: Container): Path { Place(c.stateDisk) + [c.id] }

  lemma Places(c: Container)
    requires ValidID(c.id)
    ensures Place(RunRoot(c.stateDisk, c.id)) == Home(c) && Place(BundleDir(c)) == Home(c) + ["bundle"]
    ensures Place(ConfigPath(c)) == Home(c) + ["bundle"] + ["config.json"]
    ensures Place(Merged(c)) == Home(c) + ["bundle"] + ["rootfs"]
    ensures Place(Upper(c)) == Home(c) + ["overlays"] + ["diff"] && Place(Work(c)) == Home(c) + ["overlays"] + ["work"]
    ensures Place(RuncRoot(c)) == Home(c) + ["runc-root"]
  {
    IDIsASegment(c.id);
    PlaceOfJoin(c.stateDisk, c.id);
    var home := RunRoot(c.stateDisk, c.id);
    PlaceOfJoin(home, "bundle");
    PlaceOfJoin(home, "overlays");
    PlaceOfJoin(home, "runc-root");
    PlaceOfJoin(BundleDir(c), "config.json");
    PlaceOfJoin(BundleDir(c), "rootfs");
    PlaceOfJoin(OverlaysRoot(c), "diff");
    PlaceOfJoin(OverlaysRoot(c), "work");
  }

  // Starting.

  /** What the environment answers: device there, mounts and writes possible, lower directory there, runc there. */
  datatype Env = Env(device: bool, mounts: bool, writes: bool, lower: bool, overlays: bool, runc: bool)

  datatype StartError = NoDevice | MountFailed | WriteFailed | NoLower | OverlayFailed | RuncFailed

  /** `ensureOverlayStateMounted` at a mount point. */
  function EnsureMounted(mounts: seq<Mount>, at: Path, env: Env): Result<seq<Mount>, StartError> {
    if !env.device then Err(NoDevice)
    else if IsStateAt(mounts, at) then Ok(mounts)
    else if env.mounts then Ok(Ensured(mounts, at)) else Err(MountFailed)
  }

  /** The configured mount point, or the agent's default for a blank one. */
  function MountPoint(stateDisk: string, default: string): string { if Blank(stateDisk) then default else stateDisk }

  function Written(v: View, c: Container): View { v.(files := v.files[Resolve(v.mounts, Place(ConfigPath(c))) := c.spec]) }

  function OverlayMount(c: Container, stateMount: string): Mount {
    var home := JoinPath(JoinPath(stateMount, c.id), "overlays");
    Mount(Place(Merged(c)), Overlay(c.rootfsPath, JoinPath(home, "diff"), JoinPath(home, "work")))
  }

  /** `mountOverlayFromRootFS`. */
  function WithOverlay(mounts: seq<Mount>, c: Container, default: string, env: Env): Result<seq<Mount>, StartError> {
    if !env.lower then Err(NoLower)
    else
      var at := MountPoint(c.stateDisk, default);
      match EnsureMounted(mounts, Place(at), env)
      case Err(e) => Err(e)
      case Ok(ensured) =>
        if !env.writes then Err(WriteFailed)
        else if !env.overlays then Err(OverlayFailed)
        else Ok(ensured + [OverlayMount(c, at)])
  }

  /** The mounts after a failing `mountOverlayFromRootFS`: the state disk stays mounted if it got that far. */
  function LeftBehind(mounts: seq<Mount>, c: Container, default: string, env: Env): seq<Mount> {
    var at := Place(MountPoint(c.stateDisk, default));
    if env.lower && EnsureMounted(mounts, at, env).Ok? then Ensured(mounts, at) else mounts
  }

  function Launch(v: View, c: Container, default: string, env: Env): (View, Option<StartError>) {
    if !env.writes then (v, Some(WriteFailed))
    else
      match WithOverlay(v.mounts, c, default, env)
      case Err(e) => (Written(v, c).(mounts := LeftBehind(v.mounts, c, default, env)), Some(e))
      case Ok(mounts) => (Written(v, c).(mounts := mounts), if env.runc then None else Some(RuncFailed))
  }

  /** The guest after `Start`, and its error if any; without one, runc has been started. */
  function Started(v: View, virtioFS: bool, c: Container, default: string, env: Env): (View, Option<StartError>) {
    if !virtioFS then Launch(v, c, default, env)
    else
      match EnsureMounted(v.mounts, Place(MountPoint(c.stateDisk, default)), env)
      case Err(e) => (v, Some(e))
      case Ok(mounts) => Launch(v.(mounts := mounts), c, default, env)
  }

  /** The agent's process: the mounts and files it changes step by step. */
  class Agent {
    var mounts: seq<Mount>
    var files: map<Location, Data>

    function Value(): View
      reads this
    {
      View(mounts, files)
    }

    method EnsureOverlayStateMounted(stateDisk: string, default: string, env: Env) returns (r: Result<string, StartError>)
      modifies this`mounts
      ensures match EnsureMounted(old(mounts), Place(if Blank(stateDisk) then default else stateDisk), env)
        case Err(e) => r == Err(e) && mounts == old(mounts)
        case Ok(ensured) => r == Ok(if Blank(stateDisk) then default else stateDisk) && mounts == ensured
    {
      var at := stateDisk;
      if Blank(at) { at := default; }
      if !env.device { return Err(NoDevice); }
      if !IsStateAt(mounts, Place(at)) {
        if !env.mounts { return Err(MountFailed); }
        mounts := mounts + [Mount(Place(at), State)];
      }
      return Ok(at);
    }

    method MountOverlayFromRootFS(c: Container, default: string, env: Env) returns (error: Option<StartError>)
      modifies this`mounts
      ensures match WithOverlay(old(mounts), c, default, env)
        case Ok(m) => error == None && mounts == m
        case Err(e) => error == Some(e) && mounts == LeftBehind(old(mounts), c, default, env)
    {
      if !env.lower { return Some(NoLower); }
      var stateMount := EnsureOverlayStateMounted(c.stateDisk, default, env);
      if stateMount.Err? { return Some(stateMount.error); }
      if !env.writes { return Some(WriteFailed); }
      if !env.overlays { return Some(OverlayFailed); }
      mounts := mounts + [OverlayMount(c, stateMount.value)];
      return None;
    }

    method Start(virtioFS: bool, c: Container, default: string, env: Env) returns (error: Option<StartError>)
      modifies this
      ensures (Value(), error) == Started(old(Value()), virtioFS, c, default, env)
    {
      if virtioFS {
        var stateMount := EnsureOverlayStateMounted(c.stateDisk, default, env);
        if stateMount.Err? { return Some(stateMount.error); }
      }
      if !env.writes { return Some(WriteFailed); }
      files := files[Resolve(mounts, Place(ConfigPath(c))) := c.spec];
      error := MountOverlayFromRootFS(c, default, env);
      if error.Some? { return; }
      if !env.runc { return Some(RuncFailed); }
      return None;
    }
  }

  // What a start answers, and what it mounts.

  /** What can go wrong, the state disk being on top at its mount point before or not. */
  predicate StartFault(isThere: bool, env: Env, e: StartError) {
    match e
    case NoDevice => !env.device
    case MountFailed => !env.mounts && !isThere
    case WriteFailed => !env.writes
    case NoLower => !env.lower
    case OverlayFailed => !env.overlays
    case RuncFailed => !env.runc
  }

  /** With virtiofs the state disk is mounted first, without it after the bundle and the lower directory. */
  function StartOrder(virtioFS: bool, e: StartError): nat {
    match e
    case NoDevice => if virtioFS then 0 else 4
    case MountFailed => if virtioFS then 1 else 5
    case WriteFailed => 2
    case NoLower => 3
    case OverlayFailed => 6
    case RuncFailed => 7
  }

  predicate FirstFault(isThere: bool, virtioFS: bool, env: Env, e: StartError) {
    StartFault(isThere, env, e)
    && forall f: StartError :: StartOrder(virtioFS, f) < StartOrder(virtioFS, e) ==> !StartFault(isThere, env, f)
  }

  /** What the two mounts and the writes answer, from the mounts alone. */
  function StartAnswer(isThere: bool, virtioFS: bool, env: Env): Option<StartError> {
    var mounting := if !env.device then Some(NoDevice) else if !isThere && !env.mounts then Some(MountFailed) else None;
    if virtioFS && mounting.Some? then mounting
    else if !env.writes then Some(WriteFailed)
    else if !env.lower then Some(NoLower)
    else if mounting.Some? then mounting
    else if !env.overlays then Some(OverlayFailed)
    else if !env.runc then Some(RuncFailed)
    else None
  }

  lemma LaunchAnswers(v: View, c: Container, default: string, env: Env)
    requires !Blank(c.stateDisk)
    ensures Launch(v, c, default, env).1 == StartAnswer(IsStateAt(v.mounts, Place(c.stateDisk)), false, env)
  {}

  lemma StartAnswers(v: View, virtioFS: bool, c: Container, default: string, env: Env)
    requires !Blank(c.stateDisk)
    ensures Started(v, virtioFS, c, default, env).1 == StartAnswer(IsStateAt(v.mounts, Place(c.stateDisk)), virtioFS, env)
  {
    var at := Place(c.stateDisk);
    EnsuredIsState(v.mounts, at);
    LaunchAnswers(v, c, default, env);
    LaunchAnswers(v.(mounts := Ensured(v.mounts, at)), c, default, env);
  }

  lemma AnswerIsFirst(isThere: bool, virtioFS: bool, env: Env)
    ensures match StartAnswer(isThere, virtioFS, env)
      case Some(e) => FirstFault(isThere, virtioFS, env, e)
      case None => forall e: StartError :: !StartFault(isThere, env, e)
  {}

  /** A start succeeds exactly when nothing goes wrong; otherwise the answer is what goes wrong first. */
  lemma StartAnswersExactly(v: View, virtioFS: bool, c: Container, default: string, env: Env)
    requires !Blank(c.stateDisk)
    ensures var isThere := Resolve(v.mounts, Place(c.stateDisk)) == Location(State, []);
      match Started(v, virtioFS, c, default, env).1
      case Some(e) => FirstFault(isThere, virtioFS, env, e)
      case None => forall e: StartError :: !StartFault(isThere, env, e)
  {
    StartAnswers(v, virtioFS, c, default, env);
    AnswerIsFirst(IsStateAt(v.mounts, Place(c.stateDisk)), virtioFS, env);
  }

  /** The overlay has the directories that `Upper` and `Work` name. */
  lemma OverlayIs(c: Container)
    ensures OverlayMount(c, c.stateDisk) == Mount(Place(Merged(c)), Overlay(c.rootfsPath, Upper(c), Work(c)))
  {}

  /**
    A start in which nothing goes wrong mounts, last, an overlay on the bundle's rootfs: the
    container's root file system below, its own diff directory above, its own work directory.
  */
  lemma StartMountsTheOverlay(v: View, virtioFS: bool, c: Container, default: string, env: Env)
    requires ValidID(c.id) && !Blank(c.stateDisk)
    requires env.device && env.mounts && env.writes && env.lower && env.overlays && env.runc
    ensures var (after, error) := Started(v, virtioFS, c, default, env);
      && error.None? && |after.mounts| >= 1
      && var last := after.mounts[|after.mounts| - 1];
      && last.at == Home(c) + ["bundle"] + ["rootfs"]
      && last.store.Overlay? && last.store.lower == c.rootfsPath
      && last.store.upper == Upper(c) && Place(last.store.upper) == Home(c) + ["overlays"] + ["diff"]
      && last.store.work == Work(c) && Place(last.store.work) == Home(c) + ["overlays"] + ["work"]
  {
    NothingGoesWrong(v, virtioFS, c, default, env);
    SuccessfulStart(v, virtioFS, c, default, env);
    OverlayIs(c);
    Places(c);
  }

  lemma NothingGoesWrong(v: View, virtioFS: bool, c: Container, default: string, env: Env)
    requires !Blank(c.stateDisk) && env.device && env.mounts && env.writes && env.lower && env.overlays && env.runc
    ensures Started(v, virtioFS, c, default, env).1.None?
  {
    StartAnswers(v, virtioFS, c, default, env);
  }

  lemma FailedLaunchLeaves(v: View, c: Container, default: string, env: Env)
    requires !Blank(c.stateDisk) && Launch(v, c, default, env).1.Some?
    ensures var (after, error) := Launch(v, c, default, env);
      var ensured := Ensured(v.mounts, Place(c.stateDisk));
      if error.value.RuncFailed? then after.mounts == ensured + [OverlayMount(c, c.stateDisk)]
      else after.mounts == v.mounts || after.mounts == ensured
  {}

  /** A failed start leaves no mount but the state disk's, unless it was runc that failed. */
  lemma FailedStartLeaves(v: View, virtioFS: bool, c: Container, default: string, env: Env)
    requires !Blank(c.stateDisk) && Started(v, virtioFS, c, default, env).1.Some?
    ensures var (after, error) := Started(v, virtioFS, c, default, env);
      var ensured := Ensured(v.mounts, Place(c.stateDisk));
      if error.value.RuncFailed? then after.mounts == ensured + [OverlayMount(c, c.stateDisk)]
      else after.mounts == v.mounts || after.mounts == ensured
  {
    var there := v.(mounts := Ensured(v.mounts, Place(c.stateDisk)));
    EnsuredIsState(v.mounts, Place(c.stateDisk));
    if !virtioFS {
      FailedLaunchLeaves(v, c, default, env);
    } else if Launch(there, c, default, env).1.Some? {
      FailedLaunchLeaves(there, c, default, env);
    }
  }

  // What runc sees.

  /** The bundle's specification as `runc run --bundle` reads it. */
  function SeenSpec(v: View, c: Container): Option<Data> { Visible(v, Place(ConfigPath(c))) }

  /** What a successful start did: one state mount if there was none, the overlay on top, one file written. */
  lemma SuccessfulStart(v: View, virtioFS: bool, c: Container, default: string, env: Env)
    requires !Blank(c.stateDisk) && Started(v, virtioFS, c, default, env).1.None?
    ensures var at := Place(c.stateDisk);
      var writing := if virtioFS then Ensured(v.mounts, at) else v.mounts;
      Started(v, virtioFS, c, default, env).0 ==
        View(Ensured(v.mounts, at) + [OverlayMount(c, c.stateDisk)],
             v.files[Resolve(writing, Place(ConfigPath(c))) := c.spec])
  {
    var at := Place(c.stateDisk);
    EnsuredIsState(v.mounts, at);
    SuccessfulLaunch(if virtioFS then v.(mounts := Ensured(v.mounts, at)) else v, c, default, env);
  }

  lemma SuccessfulLaunch(v: View, c: Container, default: string, env: Env)
    requires !Blank(c.stateDisk) && Launch(v, c, default, env).1.None?
    ensures Launch(v, c, default, env).0 ==
      View(Ensured(v.mounts, Place(c.stateDisk)) + [OverlayMount(c, c.stateDisk)], Written(v, c).files)
  {}

  lemma LastSegmentsDiffer(dir: Path, a: string, b: string)
    requires a != b
    ensures !(dir + [a] <= dir + [b])
  {
    assert (dir + [a])[|dir|] == a && (dir + [b])[|dir|] == b;
  }

  /** The overlay covers the sibling of the specification only. */
  lemma OverlayMissesConfig(c: Container, stateMount: string)
    requires ValidID(c.id)
    ensures !(OverlayMount(c, stateMount).at <= Place(ConfigPath(c)))
  {
    Places(c);
    LastSegmentsDiffer(Home(c) + ["bundle"], "rootfs", "config.json");
  }

  /** Writing under a mounted state disk, then mounting elsewhere. */
  lemma WrittenIsVisible(mounts: seq<Mount>, files: map<Location, Data>, at: Path, p: Path, m: Mount, text: Data)
    requires IsStateAt(mounts, at) && !(m.at <= p)
    ensures var put := files[Resolve(mounts, p) := text];
      Ensured(mounts, at) == mounts && Visible(View(mounts + [m], put), p) == Some(text)
  {
    MountElsewhere(mounts, m, p);
  }

  /**
    With virtiofs, from every state of mounts and files, whatever was started before: when `Start`
    reaches runc, the specification visible in the bundle is the container's.
  */
  lemma SpecIsVisible(v: View, c: Container, default: string, env: Env)
    requires ValidID(c.id) && !Blank(c.stateDisk)
    ensures var (after, error) := Started(v, true, c, default, env);
      error.None? ==> SeenSpec(after, c) == Some(c.spec)
  {
    var at := Place(c.stateDisk);
    EnsuredIsState(v.mounts, at);
    OverlayMissesConfig(c, c.stateDisk);
    if Started(v, true, c, default, env).1.None? {
      SuccessfulStart(v, true, c, default, env);
      WrittenIsVisible(Ensured(v.mounts, at), v.files, at, Place(ConfigPath(c)), OverlayMount(c, c.stateDisk), c.spec);
    }
  }

  /** Where the specification is kept on the state disk. */
  function OnStateDisk(c: Container): Location { Location(State, [c.id] + ["bundle"] + ["config.json"]) }

  lemma PlaceOfConfig(c: Container)
    requires ValidID(c.id)
    ensures Place(ConfigPath(c)) == Place(c.stateDisk) + OnStateDisk(c).path
  {
    Places(c);
    Regroup(Place(c.stateDisk), [c.id], ["bundle"], ["config.json"]);
  }

  lemma Regroup(a: Path, b: Path, c: Path, d: Path)
    ensures a + b + c + d == a + (b + c + d)
  {}

  /** A place that resolves to the state disk in that way has the state disk mounted above it. */
  lemma ResolvedHigher(mounts: seq<Mount>, at: Path, tail: Path)
    requires Resolve(mounts, at + tail) == Location(State, tail)
    ensures IsStateAt(mounts, at)
  {
    var p := at + tail;
    var i := Top(mounts, p);
    assert i >= 0;
    assert |p[|mounts[i].at|..]| == |p| - |mounts[i].at| == |tail|;
    assert mounts[i].at == p[..|at|] == at;
    forall j | i < j < |mounts|
      ensures !(mounts[j].at <= at)
    {
      if mounts[j].at <= at { PrefixExtends(mounts[j].at, at, tail); }
    }
    TopIs(mounts, at, i);
  }

  lemma PrefixExtends(a: Path, b: Path, tail: Path)
    requires a <= b
    ensures a <= b + tail
  {}

  /** Writing first and mounting the state disk afterwards. */
  lemma HiddenExactly(mounts: seq<Mount>, files: map<Location, Data>, at: Path, tail: Path, m: Mount, text: Data)
    requires !(m.at <= at + tail)
    ensures var put := files[Resolve(mounts, at + tail) := text];
      Visible(View(Ensured(mounts, at) + [m], put), at + tail) == Some(text) <==>
        IsStateAt(mounts, at) || (Location(State, tail) in files && files[Location(State, tail)] == text)
  {
    MountElsewhere(Ensured(mounts, at), m, at + tail);
    if !IsStateAt(mounts, at) {
      UnderNewMount(mounts, at, tail);
      if Resolve(mounts, at + tail) == Location(State, tail) { ResolvedHigher(mounts, at, tail); }
    }
  }

  /**
    Without virtiofs the specification is written before the state disk is mounted over it: runc
    sees it if and only if the disk was already mounted there, or already held that very text.
  */
  lemma SpecIsVisibleExactly(v: View, c: Container, default: string, env: Env)
    requires ValidID(c.id) && !Blank(c.stateDisk)
    ensures var (after, error) := Started(v, false, c, default, env);
      error.None? ==>
        (SeenSpec(after, c) == Some(c.spec) <==>
          IsStateAt(v.mounts, Place(c.stateDisk)) || (OnStateDisk(c) in v.files && v.files[OnStateDisk(c)] == c.spec))
  {
    OverlayMissesConfig(c, c.stateDisk);
    PlaceOfConfig(c);
    if Started(v, false, c, default, env).1.None? { SuccessfulStart(v, false, c, default, env); }
    HiddenExactly(v.mounts, v.files, Place(c.stateDisk), OnStateDisk(c).path, OverlayMount(c, c.stateDisk), c.spec);
  }

  // After a container has run.

  /** The clean-up of `ExitCode`: once, after the first wait, whatever the exit code. */
  function CleanedUp(v: View, c: Container): View { v.(mounts := Unmounted(v.mounts, Place(Merged(c)))) }

  /** A task that has been waited for leaves no mount but the state disk's. */
  lemma CleanUpUndoesStart(v: View, virtioFS: bool, c: Container, default: string, env: Env)
    requires ValidID(c.id) && !Blank(c.stateDisk)
    ensures var (after, error) := Started(v, virtioFS, c, default, env);
      error.None? ==> CleanedUp(after, c).mounts == Ensured(v.mounts, Place(c.stateDisk))
  {
    var mounts := Ensured(v.mounts, Place(c.stateDisk));
    if Started(v, virtioFS, c, default, env).1.None? { SuccessfulStart(v, virtioFS, c, default, env); }
    UnmountUndoesMount(mounts, OverlayMount(c, c.stateDisk));
  }

  /** `taskServer`: the first caller waits and cleans up, later ones get its answer. */
  class Task {
    const container: Container
    const agent: Agent
    var waited: bool
    var exitCode: int
    var failed: bool

    constructor (container: Container, agent: Agent)
      ensures this.container == container && this.agent == agent && !waited
    {
      this.container, this.agent := container, agent;
      waited, exitCode, failed := false, 0, false;
    }

    /** `ExitCode`, given what the wait would answer. */
    method ExitCode(code: int, waitFails: bool) returns (r: Option<int>)
      modifies this, agent`mounts
      ensures waited
      ensures old(waited) ==> exitCode == old(exitCode) && failed == old(failed) && agent.mounts == old(agent.mounts)
      ensures !old(waited) ==> exitCode == code && failed == waitFails
      ensures !old(waited) ==> agent.Value() == CleanedUp(old(agent.Value()), container)
      ensures r == if failed then None else Some(exitCode)
    {
      if !waited {
        exitCode, failed := code, waitFails;
        agent.mounts := Unmounted(agent.mounts, Place(Merged(container)));
        waited := true;
      }
      return if failed then None else Some(exitCode);
    }
  }
}
