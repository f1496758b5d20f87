/**
  The VM lock file (vm/lock/lock.go): `Acquire` opens a path and takes an flock on the inode it
  got, `Release` unlocks, closes and removes whatever is linked at the path by then.

  Any number of processes run these calls; each system call is one step, and a process may crash
  between any two. `Closed` is a process that has closed its file and not yet removed the path.
*/
module FileLock {
  import opened Prelude

  datatype Pc = Idle | Opened(ino: nat) | Holding(ino: nat) | Unlocked(ino: nat) | Closed

  /** The directory entry, the inodes with an flock and who holds it, and where each process is. */
  datatype World = World(entry: Option<nat>, next: nat, flock: map<nat, nat>, pcs: map<nat, Pc>) {
    function Move(p: nat, pc: Pc): (w: World)
      ensures forall q :: At(w.pcs, q) == if q == p then pc else At(pcs, q)
    {
      this.(pcs := pcs[p := pc])
    }
  }

  function At(pcs: map<nat, Pc>, p: nat): Pc { if p in pcs then pcs[p] else Idle }

  const Init: World := World(None, 0, map[], map[])

  datatype Step =
    | Open(p: nat)        // os.OpenFile(path, O_CREATE|O_RDWR)
    | FlockOk(p: nat)     // Flock(LOCK_EX|LOCK_NB) succeeds
    | FlockBusy(p: nat)   // EWOULDBLOCK, then f.Close
    | Unlock(p: nat)      // Flock(LOCK_UN)
    | Close(p: nat)       // file.Close
    | Remove(p: nat)      // os.Remove(path)
    | Crash(p: nat)       // the kernel closes the file and drops its flock

  function Apply(w: World, step: Step): Option<World> {
    match step
    case Open(p) =>
      if !At(w.pcs, p).Idle? then None
      else if w.entry.Some? then Some(w.Move(p, Opened(w.entry.value)))
      else Some(w.(entry := Some(w.next), next := w.next + 1).Move(p, Opened(w.next)))
    case FlockOk(p) =>
      if At(w.pcs, p).Opened? && At(w.pcs, p).ino !in w.flock then
        Some(w.(flock := w.flock[At(w.pcs, p).ino := p]).Move(p, Holding(At(w.pcs, p).ino)))
      else None
    case FlockBusy(p) =>
      if At(w.pcs, p).Opened? && At(w.pcs, p).ino in w.flock then Some(w.Move(p, Idle)) else None
    case Unlock(p) =>
      if At(w.pcs, p).Holding? then Some(w.(flock := w.flock - {At(w.pcs, p).ino}).Move(p, Unlocked(At(w.pcs, p).ino)))
      else None
    case Close(p) => if At(w.pcs, p).Unlocked? then Some(w.Move(p, Closed)) else None
    case Remove(p) => if At(w.pcs, p).Closed? then Some(w.(entry := None).Move(p, Idle)) else None
    case Crash(p) =>
      Some(w.(flock := if At(w.pcs, p).Holding? then w.flock - {At(w.pcs, p).ino} else w.flock).Move(p, Idle))
  }

  function From(w: World, steps: seq<Step>): Option<World> {
    if steps == [] then Some(w)
    else match From(w, steps[..|steps| - 1])
         case None => None
         case Some(v) => Apply(v, steps[|steps| - 1])
  }

  lemma Extend(w: World, steps: seq<Step>, step: Step)
    requires From(w, steps).Some?
    ensures From(w, steps + [step]) == Apply(From(w, steps).value, step)
  {
    assert (steps + [step])[..|steps|] == steps;
  }

  ghost predicate TwoHolders(w: World) {
    exists p, q :: p != q && At(w.pcs, p).Holding? && At(w.pcs, q).Holding?
  }

  /** An inode's flock belongs to the one process that holds it, and inodes are never reused. */
  ghost predicate Kernel(w: World) {
    && (forall p :: At(w.pcs, p).Holding? ==> At(w.pcs, p).ino in w.flock && w.flock[At(w.pcs, p).ino] == p)
    && (forall i :: i in w.flock ==> At(w.pcs, w.flock[i]) == Holding(i))
    && (forall p :: (At(w.pcs, p).Opened? || At(w.pcs, p).Holding?) ==> At(w.pcs, p).ino < w.next)
    && (w.entry.Some? ==> w.entry.value < w.next)
  }

  lemma StepKeepsKernel(w: World, step: Step)
    requires Kernel(w) && Apply(w, step).Some?
    ensures Kernel(Apply(w, step).value)
  {}

  /** Whoever has a lock file open has the one that is linked. */
  ghost predicate Linked(w: World) {
    forall p :: (At(w.pcs, p).Opened? || At(w.pcs, p).Holding?) ==> w.entry == Some(At(w.pcs, p).ino)
  }

  /** A removal is clean when nobody has the linked file open. */
  ghost predicate CleanStep(w: World, step: Step) {
    step.Remove? ==>
      forall q :: (At(w.pcs, q).Opened? || At(w.pcs, q).Holding?) ==> w.entry != Some(At(w.pcs, q).ino)
  }

  lemma StepKeepsLinked(w: World, step: Step)
    requires Linked(w) && CleanStep(w, step) && Apply(w, step).Some?
    ensures Linked(Apply(w, step).value)
  {
    match step
    case Open(_) =>
    case FlockOk(_) =>
    case FlockBusy(_) =>
    case Unlock(_) =>
    case Close(_) =>
    case Remove(_) =>
    case Crash(_) =>
  }

  ghost predicate CleanRun(w: World, steps: seq<Step>) {
    steps != [] ==>
      var init := steps[..|steps| - 1];
      CleanRun(w, init) && (From(w, init).Some? ==> CleanStep(From(w, init).value, steps[|steps| - 1]))
  }

  lemma {:induction false} CleanRunKeepsLinked(w: World, steps: seq<Step>)
    requires Kernel(w) && Linked(w) && CleanRun(w, steps) && From(w, steps).Some?
    ensures Kernel(From(w, steps).value) && Linked(From(w, steps).value)
  {
    if steps != [] {
      var init := steps[..|steps| - 1];
      CleanRunKeepsLinked(w, init);
      StepKeepsKernel(From(w, init).value, steps[|steps| - 1]);
      StepKeepsLinked(From(w, init).value, steps[|steps| - 1]);
    }
  }

  /**
    Mutual exclusion: in every run whose removals are clean at most one process holds the lock, and
    the inode it has locked is the one linked at the path.
  */
  lemma MutualExclusion(steps: seq<Step>)
    requires CleanRun(Init, steps) && From(Init, steps).Some?
    ensures var w := From(Init, steps).value;
      !TwoHolders(w) && forall p :: At(w.pcs, p).Holding? ==> w.entry == Some(At(w.pcs, p).ino)
  {
    CleanRunKeepsLinked(Init, steps);
  }

  // The windows of the two calls.

  /** Between open and flock, and between unlock and remove. */
  predicate InOpenWindow(pc: Pc) { pc.Opened? }

  predicate InRemoveWindow(pc: Pc) { pc.Unlocked? || pc.Closed? }

  ghost predicate Overlap(w: World) {
    exists p, q :: p != q && InOpenWindow(At(w.pcs, p)) && InRemoveWindow(At(w.pcs, q))
  }

  ghost predicate NeverOverlaps(steps: seq<Step>) {
    (steps != [] ==> NeverOverlaps(steps[..|steps| - 1])) && (From(Init, steps).Some? ==> !Overlap(From(Init, steps).value))
  }

  /** Holding the lock or giving it back. */
  predicate Busy(pc: Pc) { pc.Holding? || InRemoveWindow(pc) }

  ghost predicate OneBusy(w: World) {
    forall p, q :: Busy(At(w.pcs, p)) && Busy(At(w.pcs, q)) ==> p == q
  }

  lemma StepKeepsOneBusy(w: World, step: Step)
    requires Kernel(w) && Linked(w) && OneBusy(w) && !Overlap(w) && Apply(w, step).Some? && !Overlap(Apply(w, step).value)
    ensures OneBusy(Apply(w, step).value) && CleanStep(w, step)
  {
    match step
    case Open(_) =>
    case FlockOk(p) => OnlyTheNewHolderIsBusy(w, p);
    case FlockBusy(_) =>
    case Unlock(_) =>
    case Close(_) =>
    case Remove(_) =>
    case Crash(_) =>
  }

  /** Whoever gets the flock finds no other holder and nobody on the way out. */
  lemma OnlyTheNewHolderIsBusy(w: World, p: nat)
    requires Kernel(w) && Linked(w) && !Overlap(w) && Apply(w, FlockOk(p)).Some?
    ensures forall q :: !Busy(At(w.pcs, q))
  {}

  lemma {:induction false} NoOverlapRunsAreClean(steps: seq<Step>)
    requires NeverOverlaps(steps) && From(Init, steps).Some?
    ensures CleanRun(Init, steps) && OneBusy(From(Init, steps).value)
  {
    if steps != [] {
      var init := steps[..|steps| - 1];
      NoOverlapRunsAreClean(init);
      CleanRunKeepsLinked(Init, init);
      StepKeepsOneBusy(From(Init, init).value, steps[|steps| - 1]);
    }
  }

  /**
    Mutual exclusion as the two calls promise it: any number of processes and crashes, as long as
    no process is between its open and its flock while another is between its unlock and its remove.
  */
  lemma MutualExclusionWithoutOverlap(steps: seq<Step>)
    requires NeverOverlaps(steps) && From(Init, steps).Some?
    ensures var w := From(Init, steps).value;
      !TwoHolders(w) && forall p :: At(w.pcs, p).Holding? ==> w.entry == Some(At(w.pcs, p).ino)
  {
    NoOverlapRunsAreClean(steps);
    MutualExclusion(steps);
  }

  // What happens without it.

  lemma FreshProcess(w: World) returns (x: nat)
    ensures x !in w.pcs
  {
    x := Above(w.pcs.Keys);
    assert x !in w.pcs.Keys;
  }

  lemma {:induction false} Above(s: set<nat>) returns (x: nat)
    ensures forall y :: y in s ==> y < x
    decreases |s|
  {
    if s == {} { return 0; }
    var y :| y in s;
    var z := Above(s - {y});
    x := if y < z then z else y + 1;
    forall w | w in s ensures w < x {
      assert w == y || w in s - {y};
    }
  }

  /** Once nothing is linked, a new process gets the lock whoever holds one already. */
  lemma NewcomerLocks(v: World, h: nat) returns (more: seq<Step>)
    requires Kernel(v) && v.entry == None && At(v.pcs, h).Holding?
    ensures From(v, more).Some? && TwoHolders(From(v, more).value)
    ensures forall step :: step in more ==> !step.Remove?
  {
    var x := FreshProcess(v);
    OpenAndLock(v, h, x);
    Extend(v, [], Open(x));
    Extend(v, [] + [Open(x)], FlockOk(x));
    more := [] + [Open(x)] + [FlockOk(x)];
  }

  lemma OpenAndLock(v: World, h: nat, x: nat)
    requires Kernel(v) && v.entry == None && At(v.pcs, h).Holding? && x !in v.pcs
    ensures Apply(v, Open(x)).Some? && Apply(Apply(v, Open(x)).value, FlockOk(x)).Some?
    ensures TwoHolders(Apply(Apply(v, Open(x)).value, FlockOk(x)).value)
  {
    assert v.next !in v.flock;
    var v2 := Apply(Apply(v, Open(x)).value, FlockOk(x)).value;
    assert At(v2.pcs, h).Holding? && At(v2.pcs, x).Holding? && h != x;
  }

  lemma {:induction false} Concat(w: World, first: seq<Step>, second: seq<Step>)
    requires From(w, first).Some?
    ensures From(w, first + second) == From(From(w, first).value, second)
  {
    if second == [] {
      assert first + second == first;
    } else {
      Concat(w, first, second[..|second| - 1]);
      assert (first + second)[..|first + second| - 1] == first + second[..|second| - 1];
    }
  }

  /** Somebody who opened the file before it was unlinked gets its lock, and then a newcomer another. */
  lemma OpenerLocks(v: World, q: nat) returns (more: seq<Step>)
    requires Kernel(v) && v.entry == None && At(v.pcs, q).Opened? && At(v.pcs, q).ino !in v.flock
    ensures From(v, more).Some? && TwoHolders(From(v, more).value)
    ensures forall step :: step in more ==> !step.Remove?
  {
    StepKeepsKernel(v, FlockOk(q));
    Extend(v, [], FlockOk(q));
    var rest := NewcomerLocks(Apply(v, FlockOk(q)).value, q);
    Concat(v, [] + [FlockOk(q)], rest);
    more := [] + [FlockOk(q)] + rest;
  }

  /** After an unclean removal two processes get the lock without any further removal. */
  lemma UncleanRemovalBreaks(w: World, r: nat) returns (more: seq<Step>)
    requires Kernel(w) && Linked(w) && Apply(w, Remove(r)).Some? && !CleanStep(w, Remove(r))
    ensures var v := Apply(w, Remove(r)).value;
      CleanRun(v, more) && From(v, more).Some? && TwoHolders(From(v, more).value)
  {
    var v := Apply(w, Remove(r)).value;
    StepKeepsKernel(w, Remove(r));
    var q :| (At(w.pcs, q).Opened? || At(w.pcs, q).Holding?) && w.entry == Some(At(w.pcs, q).ino);
    if At(v.pcs, q).Holding? {
      more := NewcomerLocks(v, q);
    } else if At(v.pcs, q).ino in v.flock {
      more := NewcomerLocks(v, v.flock[At(v.pcs, q).ino]);
    } else {
      more := OpenerLocks(v, q);
    }
    OnlyRemovalsCanBeUnclean(v, more);
  }

  lemma {:induction false} OnlyRemovalsCanBeUnclean(w: World, steps: seq<Step>)
    requires forall step :: step in steps ==> !step.Remove?
    ensures CleanRun(w, steps)
  {
    if steps != [] {
      OnlyRemovalsCanBeUnclean(w, steps[..|steps| - 1]);
    }
  }

  /**
    Exactly when a removal endangers the lock: after a clean run, a removal can be followed by a
    clean run with two holders if and only if somebody had the linked file open.
  */
  lemma RemovalIsSafeExactlyWhenClean(steps: seq<Step>, r: nat)
    requires CleanRun(Init, steps) && From(Init, steps).Some?
    requires Apply(From(Init, steps).value, Remove(r)).Some?
    ensures var w := From(Init, steps).value;
      var v := Apply(w, Remove(r)).value;
      CleanStep(w, Remove(r)) <==>
      (forall more :: CleanRun(v, more) && From(v, more).Some? ==> !TwoHolders(From(v, more).value))
  {
    var w := From(Init, steps).value;
    var v := Apply(w, Remove(r)).value;
    CleanRunKeepsLinked(Init, steps);
    if CleanStep(w, Remove(r)) {
      StepKeepsKernel(w, Remove(r));
      forall more | CleanRun(v, more) && From(v, more).Some?
        ensures !TwoHolders(From(v, more).value)
      {
        CleanRunKeepsLinked(v, more);
      }
    } else {
      var more := UncleanRemovalBreaks(w, r);
    }
  }

  /**
    Two holders: process 1 opens and locks the file between process 0's unlock and its remove, and
    process 2 then finds nothing linked.
  */
  lemma TwoHoldersRun() returns (steps: seq<Step>)
    ensures steps == [Open(0), FlockOk(0), Unlock(0), Open(1), FlockOk(1), Close(0), Remove(0), Open(2), FlockOk(2)]
    ensures From(Init, steps).Some? && TwoHolders(From(Init, steps).value)
  {
    var w;
    steps, w := [], Init;
    steps, w := Next(steps, w, Open(0));
    steps, w := Next(steps, w, FlockOk(0));
    steps, w := Next(steps, w, Unlock(0));
    steps, w := Next(steps, w, Open(1));
    steps, w := Next(steps, w, FlockOk(1));
    steps, w := Next(steps, w, Close(0));
    steps, w := Next(steps, w, Remove(0));
    steps, w := Next(steps, w, Open(2));
    steps, w := Next(steps, w, FlockOk(2));
    assert At(w.pcs, 1).Holding? && At(w.pcs, 2).Holding?;
  }

  lemma Next(steps: seq<Step>, w: World, step: Step) returns (more: seq<Step>, v: World)
    requires From(Init, steps) == Some(w) && Apply(w, step).Some?
    ensures more == steps + [step] && v == Apply(w, step).value && From(Init, more) == Some(v)
  {
    Extend(Init, steps, step);
    more, v := steps + [step], Apply(w, step).value;
  }
}

/** The two calls as the code writes them, run without interleaving on the file system they change. */
module LockCalls {
  import opened Prelude
  import opened FileLock

  datatype Acquired = NoLock | Locked(ino: nat) | AlreadyHeld | Failed

  /** Which system calls the environment lets succeed: the directory, the open, and an flock that is not merely busy. */
  datatype Calls = Calls(dirMade: bool, fileOpened: bool, flockable: bool)

  class LockDir {
    var entry: Option<nat>
    var next: nat
    var flock: map<nat, nat>
    var pcs: map<nat, Pc>

    ghost function View(): World
      reads this
    {
      World(entry, next, flock, pcs)
    }

    constructor ()
      ensures View() == Init
    {
      entry, next, flock, pcs := None, 0, map[], map[];
    }

    /**
      `Acquire` (vm/lock/lock.go:13-35) for process `p`; a blank path asks for no lock. A failing
      flock leaves the file that the open may have created.
    */
    method Acquire(p: nat, blankPath: bool, calls: Calls) returns (r: Acquired)
      requires At(pcs, p).Idle? && Kernel(View())
      modifies this
      ensures Kernel(View())
      ensures blankPath ==> r.NoLock? && View() == old(View())
      ensures !blankPath && !(calls.dirMade && calls.fileOpened) ==> r.Failed? && View() == old(View())
      ensures !blankPath && calls.dirMade && calls.fileOpened ==>
        if !calls.flockable then r.Failed? && From(old(View()), [Open(p), Crash(p)]) == Some(View())
        else if old(entry).Some? && old(entry).value in old(flock) then
          r.AlreadyHeld? && From(old(View()), [Open(p), FlockBusy(p)]) == Some(View())
        else
          r.Locked? && From(old(View()), [Open(p), FlockOk(p)]) == Some(View())
          && At(pcs, p) == Holding(r.ino) && entry == Some(r.ino)
      ensures !r.Locked? ==> At(pcs, p).Idle? && flock == old(flock)
      ensures forall q :: q != p ==> At(pcs, q) == At(old(pcs), q)
    {
      if blankPath { return NoLock; }
      if !calls.dirMade || !calls.fileOpened { return Failed; }
      ghost var w0 := View();
      var ino;
      if entry.Some? {
        ino := entry.value;
      } else {
        ino := next;
        entry, next := Some(ino), next + 1;
      }
      pcs := pcs[p := Opened(ino)];
      assert Apply(w0, Open(p)) == Some(View());
      StepKeepsKernel(w0, Open(p));
      ghost var w1 := View();
      if !calls.flockable {
        pcs := pcs[p := Idle];
        Both(w0, Open(p), w1, Crash(p), View());
        return Failed;
      }
      if ino in flock {
        pcs := pcs[p := Idle];
        Both(w0, Open(p), w1, FlockBusy(p), View());
        return AlreadyHeld;
      }
      flock, pcs := flock[ino := p], pcs[p := Holding(ino)];
      Both(w0, Open(p), w1, FlockOk(p), View());
      return Locked(ino);
    }

    /** `Release` (vm/lock/lock.go:37-46) of a held lock; a nil file is the NoLock case. */
    method Release(p: nat, r: Acquired)
      requires r.Locked? ==> At(pcs, p) == Holding(r.ino)
      modifies this
      ensures !r.Locked? ==> View() == old(View())
      ensures r.Locked? ==> From(old(View()), [Unlock(p), Close(p), Remove(p)]) == Some(View())
      ensures r.Locked? ==> entry == None && At(pcs, p).Idle? && flock == old(flock) - {r.ino}
    {
      if !r.Locked? { return; }
      ghost var w0 := View();
      flock, pcs := flock - {r.ino}, pcs[p := Unlocked(r.ino)];
      pcs := pcs[p := Closed];
      entry, pcs := None, pcs[p := Idle];
      Extend(w0, [], Unlock(p));
      Extend(w0, [] + [Unlock(p)], Close(p));
      Extend(w0, [] + [Unlock(p)] + [Close(p)], Remove(p));
      assert [] + [Unlock(p)] + [Close(p)] + [Remove(p)] == [Unlock(p), Close(p), Remove(p)];
    }
  }

  lemma Both(w0: World, a: Step, w1: World, b: Step, w2: World)
    requires Apply(w0, a) == Some(w1) && Apply(w1, b) == Some(w2) && Kernel(w1)
    ensures From(w0, [a, b]) == Some(w2) && Kernel(w2)
  {
    Extend(w0, [], a);
    Extend(w0, [] + [a], b);
    assert [] + [a] + [b] == [a, b];
    StepKeepsKernel(w1, b);
  }
}
