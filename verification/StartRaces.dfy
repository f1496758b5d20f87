/**
  Interleaved starts with virtiofs under one state mount (agent/cmd/agent/container_service.go:122-157,
  277-336), on what each start does to mounts and files: it writes its specification at one place
  and puts its overlay at another.
*/
module StartRaces {
  import opened Prelude
  import opened Guest

  /** What a start is about: the text it writes, where, and the overlay it mounts. */
  datatype Seat = Seat(spec: Data, config: Path, overlay: Mount)

  datatype Phase = Ready | Mounted | Wrote | Remounted | Running

  datatype Job = Job(seat: Seat, phase: Phase)

  /** The guest, and the starts and tasks under way. Nothing keeps two of them from having one seat. */
  datatype Machine = Machine(view: View, jobs: map<nat, Job>)

  datatype Step =
    | Begin(job: nat, seat: Seat)  // a start request
    | MountState(job: nat)         // the first mount of the state disk
    | WriteConfig(job: nat)
    | RemountState(job: nat)       // the second one, before the overlay
    | Cover(job: nat)              // the overlay, then runc
    | Exit(job: nat)               // its task is waited for and cleaned up
    | Abandon(job: nat)            // any error return

  predicate At(m: Machine, j: nat, phase: Phase) { j in m.jobs && m.jobs[j].phase == phase }

  function Advance(m: Machine, j: nat, view: View, phase: Phase): Machine
    requires j in m.jobs
  {
    Machine(view, m.jobs[j := Job(m.jobs[j].seat, phase)])
  }

  function StateMounted(view: View, at: Path): View { view.(mounts := Ensured(view.mounts, at)) }

  function Put(view: View, s: Seat): View { view.(files := view.files[Resolve(view.mounts, s.config) := s.spec]) }

  function Covered(view: View, s: Seat): View { view.(mounts := view.mounts + [s.overlay]) }

  function Uncovered(view: View, s: Seat): View { view.(mounts := Unmounted(view.mounts, s.overlay.at)) }

  function Apply(m: Machine, at: Path, step: Step): Machine {
    match step
    case Begin(j, s) => if j !in m.jobs then m.(jobs := m.jobs[j := Job(s, Ready)]) else m
    case MountState(j) => if At(m, j, Ready) then Advance(m, j, StateMounted(m.view, at), Mounted) else m
    case WriteConfig(j) => if At(m, j, Mounted) then Advance(m, j, Put(m.view, m.jobs[j].seat), Wrote) else m
    case RemountState(j) => if At(m, j, Wrote) then Advance(m, j, StateMounted(m.view, at), Remounted) else m
    case Cover(j) => if At(m, j, Remounted) then Advance(m, j, Covered(m.view, m.jobs[j].seat), Running) else m
    case Exit(j) => if At(m, j, Running) then Machine(Uncovered(m.view, m.jobs[j].seat), m.jobs - {j}) else m
    case Abandon(j) => m.(jobs := m.jobs - {j})
  }

  function Run(m: Machine, at: Path, steps: seq<Step>): Machine
    decreases |steps|
  {
    if steps == [] then m else Run(Apply(m, at, steps[0]), at, steps[1..])
  }

  /** Only these are started. */
  predicate Uses(steps: seq<Step>, seats: set<Seat>) {
    forall i :: 0 <= i < |steps| && steps[i].Begin? ==> steps[i].seat in seats
  }

  /** No overlay covers the state mount or a specification. */
  predicate Apart(seats: set<Seat>, at: Path) {
    && (forall s :: s in seats ==> !(s.overlay.at <= at))
    && (forall s, t :: s in seats && t in seats ==> !(s.overlay.at <= t.config))
  }

  /** Where a specification is kept once the state disk is mounted. */
  function Kept(mounts: seq<Mount>, at: Path, s: Seat): Location { Resolve(Ensured(mounts, at), s.config) }

  /** Starts whose specifications are kept at one place write the same one. */
  predicate Harmless(mounts: seq<Mount>, at: Path, seats: set<Seat>) {
    forall s, t :: s in seats && t in seats ==> !Clash(mounts, at, s, t)
  }

  predicate Clash(mounts: seq<Mount>, at: Path, s: Seat, t: Seat) {
    Kept(mounts, at, s) == Kept(mounts, at, t) && s.spec != t.spec
  }

  // What every step keeps.

  /** The state disk is on top, and every specification is kept where it was at first. */
  predicate Settled(mounts: seq<Mount>, first: seq<Mount>, at: Path, seats: set<Seat>) {
    IsStateAt(mounts, at) && forall s :: s in seats ==> Resolve(mounts, s.config) == Kept(first, at, s)
  }

  predicate JobOk(v: View, first: seq<Mount>, at: Path, seats: set<Seat>, job: Job) {
    && job.seat in seats
    && (!job.phase.Ready? ==> Settled(v.mounts, first, at, seats))
    && (job.phase.Wrote? || job.phase.Remounted? || job.phase.Running? ==>
          Kept(first, at, job.seat) in v.files && v.files[Kept(first, at, job.seat)] == job.seat.spec)
  }

  predicate Inv(m: Machine, first: seq<Mount>, at: Path, seats: set<Seat>) {
    && (m.view.mounts == first || Settled(m.view.mounts, first, at, seats))
    && forall j :: j in m.jobs ==> JobOk(m.view, first, at, seats, m.jobs[j])
  }

  lemma EnsuringSettles(mounts: seq<Mount>, first: seq<Mount>, at: Path, seats: set<Seat>)
    requires mounts == first || Settled(mounts, first, at, seats)
    ensures Settled(Ensured(mounts, at), first, at, seats)
  {
    EnsuredIsState(mounts, at);
  }

  /** Mounts that leave everything settled leave every job as it was. */
  lemma SettledKeepsJobs(m: Machine, mounts: seq<Mount>, first: seq<Mount>, at: Path, seats: set<Seat>)
    requires Inv(m, first, at, seats) && Settled(mounts, first, at, seats)
    ensures forall j :: j in m.jobs ==> JobOk(m.view.(mounts := mounts), first, at, seats, m.jobs[j])
  {
    forall j | j in m.jobs
      ensures JobOk(m.view.(mounts := mounts), first, at, seats, m.jobs[j])
    {
      assert JobOk(m.view, first, at, seats, m.jobs[j]);
    }
  }

  /** A job moves on to a view under which all jobs are still as they should be. */
  lemma AdvanceKeepsInv(m: Machine, view: View, first: seq<Mount>, at: Path, seats: set<Seat>, j: nat, phase: Phase)
    requires j in m.jobs && Settled(view.mounts, first, at, seats)
    requires forall k :: k in m.jobs ==> JobOk(view, first, at, seats, m.jobs[k])
    requires JobOk(view, first, at, seats, Job(m.jobs[j].seat, phase))
    ensures Inv(Advance(m, j, view, phase), first, at, seats)
  {}

  lemma MountKeepsInv(m: Machine, first: seq<Mount>, at: Path, seats: set<Seat>, j: nat, phase: Phase)
    requires Inv(m, first, at, seats) && j in m.jobs
    requires (m.jobs[j].phase.Ready? && phase.Mounted?) || (m.jobs[j].phase.Wrote? && phase.Remounted?)
    ensures Inv(Advance(m, j, StateMounted(m.view, at), phase), first, at, seats)
  {
    EnsuringSettles(m.view.mounts, first, at, seats);
    SettledKeepsJobs(m, Ensured(m.view.mounts, at), first, at, seats);
    assert JobOk(StateMounted(m.view, at), first, at, seats, m.jobs[j]);
    AdvanceKeepsInv(m, StateMounted(m.view, at), first, at, seats, j, phase);
  }

  /** Another job's write at the same place writes the same text. */
  lemma WriteKeepsInv(m: Machine, first: seq<Mount>, at: Path, seats: set<Seat>, j: nat)
    requires Inv(m, first, at, seats) && At(m, j, Mounted) && Harmless(first, at, seats)
    ensures Inv(Advance(m, j, Put(m.view, m.jobs[j].seat), Wrote), first, at, seats)
  {
    assert JobOk(m.view, first, at, seats, m.jobs[j]);
    var after := Put(m.view, m.jobs[j].seat);
    forall k | k in m.jobs
      ensures JobOk(after, first, at, seats, m.jobs[k])
    {
      assert JobOk(m.view, first, at, seats, m.jobs[k]);
      PutKeepsOther(m.view, first, at, seats, m.jobs[j].seat, m.jobs[k]);
    }
    assert JobOk(after, first, at, seats, Job(m.jobs[j].seat, Wrote));
    AdvanceKeepsInv(m, after, first, at, seats, j, Wrote);
  }

  lemma PutKeepsOther(v: View, first: seq<Mount>, at: Path, seats: set<Seat>, s: Seat, job: Job)
    requires s in seats && Settled(v.mounts, first, at, seats) && Harmless(first, at, seats)
    requires JobOk(v, first, at, seats, job)
    ensures JobOk(Put(v, s), first, at, seats, job)
  {
    assert !Clash(first, at, s, job.seat);
  }

  /** Mounting or unmounting an overlay moves neither the state mount nor any specification. */
  lemma CoverSettles(mounts: seq<Mount>, first: seq<Mount>, at: Path, seats: set<Seat>, s: Seat)
    requires Apart(seats, at) && s in seats && Settled(mounts, first, at, seats)
    ensures Settled(mounts + [s.overlay], first, at, seats)
  {
    MountElsewhere(mounts, s.overlay, at);
    forall t | t in seats
      ensures Resolve(mounts + [s.overlay], t.config) == Kept(first, at, t)
    {
      MountElsewhere(mounts, s.overlay, t.config);
    }
  }

  lemma UncoverSettles(mounts: seq<Mount>, first: seq<Mount>, at: Path, seats: set<Seat>, s: Seat)
    requires Apart(seats, at) && s in seats && Settled(mounts, first, at, seats)
    ensures Settled(Unmounted(mounts, s.overlay.at), first, at, seats)
  {
    UnmountElsewhere(mounts, s.overlay.at, at);
    forall t | t in seats
      ensures Resolve(Unmounted(mounts, s.overlay.at), t.config) == Kept(first, at, t)
    {
      UnmountElsewhere(mounts, s.overlay.at, t.config);
    }
  }

  lemma CoverKeepsInv(m: Machine, first: seq<Mount>, at: Path, seats: set<Seat>, j: nat)
    requires Inv(m, first, at, seats) && Apart(seats, at) && At(m, j, Remounted)
    ensures Inv(Advance(m, j, Covered(m.view, m.jobs[j].seat), Running), first, at, seats)
  {
    assert JobOk(m.view, first, at, seats, m.jobs[j]);
    CoverSettles(m.view.mounts, first, at, seats, m.jobs[j].seat);
    SettledKeepsJobs(m, m.view.mounts + [m.jobs[j].seat.overlay], first, at, seats);
    assert JobOk(Covered(m.view, m.jobs[j].seat), first, at, seats, m.jobs[j]);
    AdvanceKeepsInv(m, Covered(m.view, m.jobs[j].seat), first, at, seats, j, Running);
  }

  lemma ExitKeepsInv(m: Machine, first: seq<Mount>, at: Path, seats: set<Seat>, j: nat)
    requires Inv(m, first, at, seats) && Apart(seats, at) && At(m, j, Running)
    ensures Inv(Machine(Uncovered(m.view, m.jobs[j].seat), m.jobs - {j}), first, at, seats)
  {
    assert JobOk(m.view, first, at, seats, m.jobs[j]);
    UncoverSettles(m.view.mounts, first, at, seats, m.jobs[j].seat);
    SettledKeepsJobs(m, Unmounted(m.view.mounts, m.jobs[j].seat.overlay.at), first, at, seats);
  }

  lemma StepKeepsInv(m: Machine, first: seq<Mount>, at: Path, seats: set<Seat>, step: Step)
    requires Inv(m, first, at, seats) && Apart(seats, at) && Harmless(first, at, seats)
    requires step.Begin? ==> step.seat in seats
    ensures Inv(Apply(m, at, step), first, at, seats)
  {
    match step {
      case Begin(_, _) =>
      case MountState(j) => if At(m, j, Ready) { MountKeepsInv(m, first, at, seats, j, Mounted); }
      case WriteConfig(j) => if At(m, j, Mounted) { WriteKeepsInv(m, first, at, seats, j); }
      case RemountState(j) => if At(m, j, Wrote) { MountKeepsInv(m, first, at, seats, j, Remounted); }
      case Cover(j) => if At(m, j, Remounted) { CoverKeepsInv(m, first, at, seats, j); }
      case Exit(j) => if At(m, j, Running) { ExitKeepsInv(m, first, at, seats, j); }
      case Abandon(_) =>
    }
  }

  lemma {:induction false} RunKeepsInv(m: Machine, first: seq<Mount>, at: Path, seats: set<Seat>, steps: seq<Step>)
    requires Inv(m, first, at, seats) && Apart(seats, at) && Harmless(first, at, seats) && Uses(steps, seats)
    ensures Inv(Run(m, at, steps), first, at, seats)
    decreases |steps|
  {
    if steps != [] {
      StepKeepsInv(m, first, at, seats, steps[0]);
      RunKeepsInv(Apply(m, at, steps[0]), first, at, seats, steps[1..]);
    }
  }

  /** The runc of a job sees the job's own specification. */
  predicate SeesItsSpec(m: Machine, j: nat)
    requires j in m.jobs
  {
    Visible(m.view, m.jobs[j].seat.config) == Some(m.jobs[j].seat.spec)
  }

  lemma RunningSeesItsSpec(view: View, at: Path, seats: set<Seat>, steps: seq<Step>, j: nat)
    requires Apart(seats, at) && Harmless(view.mounts, at, seats) && Uses(steps, seats)
    requires At(Run(Machine(view, map[]), at, steps), j, Running)
    ensures SeesItsSpec(Run(Machine(view, map[]), at, steps), j)
  {
    RunKeepsInv(Machine(view, map[]), view.mounts, at, seats, steps);
    var m := Run(Machine(view, map[]), at, steps);
    assert JobOk(m.view, view.mounts, at, seats, m.jobs[j]);
  }

  // Longer runs, step by step.

  lemma {:induction false} RunThen(m: Machine, at: Path, steps: seq<Step>, step: Step)
    ensures Run(m, at, steps + [step]) == Apply(Run(m, at, steps), at, step)
    decreases |steps|
  {
    if steps == [] {
      assert [] + [step] == [step] && [step][1..] == [];
    } else {
      assert (steps + [step])[1..] == steps[1..] + [step];
      RunThen(Apply(m, at, steps[0]), at, steps[1..], step);
    }
  }

  /** A run so far, one step longer. */
  lemma Go(start: Machine, at: Path, steps: seq<Step>, m: Machine, step: Step, next: Machine) returns (more: seq<Step>)
    requires Run(start, at, steps) == m && Apply(m, at, step) == next
    ensures more == steps + [step] && Run(start, at, more) == next
  {
    RunThen(start, at, steps, step);
    more := steps + [step];
  }

  function Two(s: Seat, p: Phase, t: Seat, q: Phase): map<nat, Job> { map[0 := Job(s, p), 1 := Job(t, q)] }

  lemma FirstMoves(view: View, after: View, s: Seat, p: Phase, next: Phase, t: Seat, q: Phase)
    ensures Advance(Machine(view, Two(s, p, t, q)), 0, after, next) == Machine(after, Two(s, next, t, q))
  {}

  lemma SecondMoves(view: View, after: View, s: Seat, p: Phase, t: Seat, q: Phase, next: Phase)
    ensures Advance(Machine(view, Two(s, p, t, q)), 1, after, next) == Machine(after, Two(s, p, t, next))
  {}

  lemma TwoMounted(view: View, at: Path, s: Seat, t: Seat) returns (steps: seq<Step>)
    ensures Uses(steps, {s, t})
    ensures Run(Machine(view, map[]), at, steps) == Machine(StateMounted(view, at), Two(s, Mounted, t, Mounted))
  {
    var start, v := Machine(view, map[]), StateMounted(view, at);
    var m1, m2 := Machine(view, map[0 := Job(s, Ready)]), Machine(view, Two(s, Ready, t, Ready));
    EnsuredIsState(view.mounts, at);
    steps := Go(start, at, [], start, Begin(0, s), m1);
    steps := Go(start, at, steps, m1, Begin(1, t), m2);
    FirstMoves(view, v, s, Ready, Mounted, t, Ready);
    var m3 := Machine(v, Two(s, Mounted, t, Ready));
    steps := Go(start, at, steps, m2, MountState(0), m3);
    SecondMoves(v, v, s, Mounted, t, Ready, Mounted);
    steps := Go(start, at, steps, m3, MountState(1), Machine(v, Two(s, Mounted, t, Mounted)));
  }

  lemma TwoWritten(start: Machine, at: Path, v: View, s: Seat, t: Seat, steps: seq<Step>) returns (more: seq<Step>)
    requires Uses(steps, {s, t}) && Run(start, at, steps) == Machine(v, Two(s, Mounted, t, Mounted))
    ensures Uses(more, {s, t}) && Run(start, at, more) == Machine(Put(Put(v, s), t), Two(s, Wrote, t, Wrote))
  {
    var w := Put(v, s);
    FirstMoves(v, w, s, Mounted, Wrote, t, Mounted);
    var m1, m2 := Machine(v, Two(s, Mounted, t, Mounted)), Machine(w, Two(s, Wrote, t, Mounted));
    more := Go(start, at, steps, m1, WriteConfig(0), m2);
    SecondMoves(w, Put(w, t), s, Wrote, t, Mounted, Wrote);
    more := Go(start, at, more, m2, WriteConfig(1), Machine(Put(w, t), Two(s, Wrote, t, Wrote)));
  }

  /** The first one's second mount, which changes nothing, and its overlay. */
  lemma FirstCovered(start: Machine, at: Path, x: View, s: Seat, t: Seat, steps: seq<Step>) returns (more: seq<Step>)
    requires StateMounted(x, at) == x && Uses(steps, {s, t}) && Run(start, at, steps) == Machine(x, Two(s, Wrote, t, Wrote))
    ensures Uses(more, {s, t}) && Run(start, at, more) == Machine(Covered(x, s), Two(s, Running, t, Wrote))
  {
    FirstMoves(x, x, s, Wrote, Remounted, t, Wrote);
    var m1, m2 := Machine(x, Two(s, Wrote, t, Wrote)), Machine(x, Two(s, Remounted, t, Wrote));
    more := Go(start, at, steps, m1, RemountState(0), m2);
    FirstMoves(x, Covered(x, s), s, Remounted, Running, t, Wrote);
    more := Go(start, at, more, m2, Cover(0), Machine(Covered(x, s), Two(s, Running, t, Wrote)));
  }

  lemma OverwrittenSpecShows(view: View, at: Path, s: Seat, t: Seat)
    requires Apart({s, t}, at) && Kept(view.mounts, at, s) == Kept(view.mounts, at, t)
    ensures Visible(Covered(Put(Put(StateMounted(view, at), s), t), s), s.config) == Some(t.spec)
  {
    EnsuringSettles(view.mounts, view.mounts, at, {s, t});
    CoverSettles(Ensured(view.mounts, at), view.mounts, at, {s, t}, s);
  }

  /** A run of two starts in which the first one's runc sees the second one's specification. */
  lemma ClashShows(view: View, at: Path, s: Seat, t: Seat) returns (steps: seq<Step>)
    requires Apart({s, t}, at) && Clash(view.mounts, at, s, t)
    ensures Uses(steps, {s, t}) && At(Run(Machine(view, map[]), at, steps), 0, Running)
    ensures !SeesItsSpec(Run(Machine(view, map[]), at, steps), 0)
  {
    var v := StateMounted(view, at);
    EnsuredIsState(view.mounts, at);
    steps := TwoMounted(view, at, s, t);
    steps := TwoWritten(Machine(view, map[]), at, v, s, t, steps);
    steps := FirstCovered(Machine(view, map[]), at, Put(Put(v, s), t), s, t, steps);
    OverwrittenSpecShows(view, at, s, t);
  }

  /**
    Interleaved starts, exactly: from any mounts and files, in every interleaving of starts, exits
    and failures each runc sees its own start's specification, if and only if starts whose
    specifications are kept at one place write the same one.
  */
  lemma SpecsAreSeenExactly(view: View, at: Path, seats: set<Seat>)
    requires Apart(seats, at)
    ensures Harmless(view.mounts, at, seats) <==> AllSee(view, at, seats)
  {
    if Harmless(view.mounts, at, seats) {
      HarmlessIsEnough(view, at, seats);
    } else {
      var s, t := SomeClash(view.mounts, at, seats);
      PairApart(seats, at, s, t);
      var steps := ClashShows(view, at, s, t);
      PairUses(steps, seats, s, t);
      NotAllSee(view, at, seats, steps, 0);
    }
  }

  /** Whatever the interleaving, a started runc sees its own start's specification. */
  ghost predicate AllSee(view: View, at: Path, seats: set<Seat>) {
    forall steps, j :: Uses(steps, seats) && At(Run(Machine(view, map[]), at, steps), j, Running) ==>
      SeesItsSpec(Run(Machine(view, map[]), at, steps), j)
  }

  lemma HarmlessIsEnough(view: View, at: Path, seats: set<Seat>)
    requires Apart(seats, at) && Harmless(view.mounts, at, seats)
    ensures AllSee(view, at, seats)
  {
    forall steps, j | Uses(steps, seats) && At(Run(Machine(view, map[]), at, steps), j, Running)
      ensures SeesItsSpec(Run(Machine(view, map[]), at, steps), j)
    {
      RunningSeesItsSpec(view, at, seats, steps, j);
    }
  }

  lemma SomeClash(mounts: seq<Mount>, at: Path, seats: set<Seat>) returns (s: Seat, t: Seat)
    requires !Harmless(mounts, at, seats)
    ensures s in seats && t in seats && Clash(mounts, at, s, t)
  {
    s, t :| s in seats && t in seats && Clash(mounts, at, s, t);
  }

  lemma PairApart(seats: set<Seat>, at: Path, s: Seat, t: Seat)
    requires Apart(seats, at) && s in seats && t in seats
    ensures Apart({s, t}, at)
  {}

  lemma PairUses(steps: seq<Step>, seats: set<Seat>, s: Seat, t: Seat)
    requires Uses(steps, {s, t}) && s in seats && t in seats
    ensures Uses(steps, seats)
  {}

  lemma NotAllSee(view: View, at: Path, seats: set<Seat>, steps: seq<Step>, j: nat)
    requires Uses(steps, seats) && At(Run(Machine(view, map[]), at, steps), j, Running)
    requires !SeesItsSpec(Run(Machine(view, map[]), at, steps), j)
    ensures !AllSee(view, at, seats)
  {}

  // One start.

  function Alone(view: View, s: Seat, phase: Phase): Machine { Machine(view, map[0 := Job(s, phase)]) }

  lemma AloneMoves(view: View, after: View, s: Seat, phase: Phase, next: Phase)
    ensures Advance(Alone(view, s, phase), 0, after, next) == Alone(after, s, next)
  {}

  lemma LastTwo(start: Machine, at: Path, w: View, s: Seat, steps: seq<Step>) returns (more: seq<Step>)
    requires StateMounted(w, at) == w && Run(start, at, steps) == Alone(w, s, Wrote)
    ensures more == steps + [RemountState(0)] + [Cover(0)] && Run(start, at, more) == Alone(Covered(w, s), s, Running)
  {
    AloneMoves(w, w, s, Wrote, Remounted);
    more := Go(start, at, steps, Alone(w, s, Wrote), RemountState(0), Alone(w, s, Remounted));
    AloneMoves(w, Covered(w, s), s, Remounted, Running);
    more := Go(start, at, more, Alone(w, s, Remounted), Cover(0), Alone(Covered(w, s), s, Running));
  }

  lemma FirstThree(view: View, at: Path, s: Seat)
    ensures Run(Machine(view, map[]), at, [Begin(0, s), MountState(0), WriteConfig(0)]) ==
      Alone(Put(StateMounted(view, at), s), s, Wrote)
  {
    var start, v, w := Machine(view, map[]), StateMounted(view, at), Put(StateMounted(view, at), s);
    var steps := Go(start, at, [], start, Begin(0, s), Alone(view, s, Ready));
    AloneMoves(view, v, s, Ready, Mounted);
    steps := Go(start, at, steps, Alone(view, s, Ready), MountState(0), Alone(v, s, Mounted));
    AloneMoves(v, w, s, Mounted, Wrote);
    steps := Go(start, at, steps, Alone(v, s, Mounted), WriteConfig(0), Alone(w, s, Wrote));
    assert steps == [Begin(0, s), MountState(0), WriteConfig(0)];
  }

  /** The five steps of a start, run without interruption. */
  lemma FiveSteps(view: View, at: Path, s: Seat)
    ensures Run(Machine(view, map[]), at, [Begin(0, s), MountState(0), WriteConfig(0), RemountState(0), Cover(0)]) ==
      Alone(Covered(Put(StateMounted(view, at), s), s), s, Running)
  {
    EnsuredIsState(view.mounts, at);
    FirstThree(view, at, s);
    var three := [Begin(0, s), MountState(0), WriteConfig(0)];
    var steps := LastTwo(Machine(view, map[]), at, Put(StateMounted(view, at), s), s, three);
    ThreeAndTwo(Begin(0, s), MountState(0), WriteConfig(0), RemountState(0), Cover(0));
  }

  lemma ThreeAndTwo<T>(a: T, b: T, c: T, d: T, e: T)
    ensures [a, b, c] + [d] + [e] == [a, b, c, d, e]
  {}
}
