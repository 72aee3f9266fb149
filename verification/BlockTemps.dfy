/** What becomes of temporary files, in every interleaving of stores and loads. */
module BlockTemps {
  import opened BlockFiles
  import opened BlockProtocol

  /** Process `pid` owns the temporary file `p`. */
  predicate Owns(s: Sys, pid: Pid, p: Path) { Owner(ProcOf(s, pid)) && TmpOf(ProcOf(s, pid).j) == p }

  ghost predicate Owned(s: Sys, p: Path) { exists x :: Owns(s, x, p) }

  /** A process other than `pid` owns it. */
  ghost predicate OwnedByOther(s: Sys, pid: Pid, p: Path) { exists x :: x != pid && Owns(s, x, p) }

  /** The temporary file that a step leaves behind: its owner dies, or fails to remove it. */
  function Dropped(s: Sys, pid: Pid, c: Choice): set<Path> {
    var p := ProcOf(s, pid);
    if Owner(p) && (c.Die? || (p.Unlinking? && !c.Ok? && !c.Begin?)) then {TmpOf(p.j)} else {}
  }

  /** The temporary files that a schedule leaves behind. */
  function AllDropped(w: Names, s: Sys, steps: seq<(Pid, Choice)>): set<Path> {
    if steps == [] then {}
    else
      var n := |steps| - 1;
      AllDropped(w, s, steps[..n]) + Dropped(Run(w, s, steps[..n]), steps[n].0, steps[n].1)
  }

  lemma OwnersOf(w: Names, s: Sys, h: History, pid: Pid, p: Path)
    requires Safe(w, s, h)
    ensures Owned(s, p) <==> OwnedByOther(s, pid, p) || Owns(s, pid, p)
    ensures Owned(s, p) ==> p in s.dir
    ensures !(OwnedByOther(s, pid, p) && Owns(s, pid, p))
  {
    hide Linked, Complete, Served, Allowed;
  }

  /** A step changes at most the state of the process that takes it. */
  lemma OnlyItself(w: Names, s: Sys, pid: Pid, c: Choice, x: Pid)
    requires x != pid
    ensures ProcOf(Next(w, s, pid, c), x) == ProcOf(s, x)
  {
    hide Allowed, Take, Call;
    var p := ProcOf(s, pid);
    if !p.Dead? && WellTyped(p) && !c.Die? && !c.Begin? { CallsItself(s, pid, p, c, x); }
  }

  lemma CallsItself(s: Sys, pid: Pid, p: Proc, c: Choice, x: Pid)
    requires x != pid && WellTyped(p)
    ensures ProcOf(Call(s, pid, p, c), x) == ProcOf(s, x)
  {
    hide Take;
    match p {
      case Checking(_) =>
      case Creating(_) =>
      case Writing(_, _) =>
      case Renaming(_, _) =>
      case Unlinking(_, _, _) =>
      case Reading(_, _) =>
      case _ =>
    }
  }

  lemma OthersOwn(w: Names, s: Sys, pid: Pid, c: Choice, p: Path)
    ensures OwnedByOther(Next(w, s, pid, c), pid, p) <==> OwnedByOther(s, pid, p)
  {
    hide Next, ProcOf;
    forall x | x != pid ensures ProcOf(Next(w, s, pid, c), x) == ProcOf(s, x) { OnlyItself(w, s, pid, c, x); }
    assert forall x | x != pid :: Owns(Next(w, s, pid, c), x, p) <==> Owns(s, x, p);
  }

  /** What a step of `pid` does to the temporary name `p`, in terms of whether `pid` owns it. */
  ghost predicate Moves(s: Sys, t: Sys, pid: Pid, p: Path, drop: set<Path>) {
    && (p in drop ==> Owns(s, pid, p))
    && (Owns(s, pid, p) ==> if Owns(t, pid, p) then p in t.dir && p !in drop else p in t.dir <==> p in drop)
    && (!Owns(s, pid, p) && Owns(t, pid, p) ==> p !in s.dir && p in t.dir)
    && (!Owns(s, pid, p) && !Owns(t, pid, p) ==> (p in s.dir <==> p in t.dir))
  }

  lemma OwnerMoves(w: Names, s: Sys, h: History, pid: Pid, c: Choice, p: Path)
    requires Safe(w, s, h) && w.isTemp(p) && Owner(ProcOf(s, pid)) && !c.Die? && !c.Begin?
    ensures Moves(s, Call(s, pid, ProcOf(s, pid), c), pid, p, Dropped(s, pid, c))
  {
    hide Safe, Linked, Complete, Served, Take;
    SafeLinked(w, s, h);
    SafeProc(w, s, h, pid);
    match ProcOf(s, pid)
    case Writing(j, ino) =>
    case Closing(j, ino) =>
    case Renaming(j, ino) =>
    case Aborting(j, ino, err) =>
    case Unlinking(j, _, err) =>
    case _ =>
  }

  lemma CreateMoves(w: Names, s: Sys, h: History, pid: Pid, c: Choice, p: Path)
    requires Safe(w, s, h) && w.isTemp(p) && ProcOf(s, pid).Creating?
    ensures Moves(s, Create(s, pid, ProcOf(s, pid).j, c), pid, p, Dropped(s, pid, c))
  {
    hide Linked, Complete, Served, Apart;
  }

  /** A process that owns no temporary file, and is not about to create one, leaves the directory alone. */
  lemma OtherMoves(w: Names, s: Sys, h: History, pid: Pid, c: Choice, p: Path)
    requires Safe(w, s, h) && WellTyped(ProcOf(s, pid)) && !Owner(ProcOf(s, pid)) && !ProcOf(s, pid).Creating?
    ensures Moves(s, Call(s, pid, ProcOf(s, pid), c), pid, p, Dropped(s, pid, c))
  {
    hide Safe, ProcOk, Create, Write, Close, Rename;
    assert !ProcOf(s, pid).Discarding? by { if pid in s.procs { NeverDiscards(w, s, h, pid); } }
  }

  lemma NeverDiscards(w: Names, s: Sys, h: History, pid: Pid)
    requires Safe(w, s, h) && pid in s.procs
    ensures !s.procs[pid].Discarding?
  {
    SafeProc(w, s, h, pid);
  }

  lemma CallCreates(s: Sys, pid: Pid, r: Proc, c: Choice)
    requires r.Creating? && WellTyped(r)
    ensures Call(s, pid, r, c) == Create(s, pid, r.j, c)
  {}

  lemma OneTemp(w: Names, s: Sys, h: History, pid: Pid, c: Choice, p: Path)
    requires Safe(w, s, h) && w.isTemp(p)
    ensures Moves(s, Next(w, s, pid, c), pid, p, Dropped(s, pid, c))
  {
    hide Safe, Call, Served, Linked, Complete, Allowed, Take;
    SafeLinked(w, s, h);
    if pid in s.procs { SafeProc(w, s, h, pid); }
    var r := ProcOf(s, pid);
    if !r.Dead? && WellTyped(r) && !c.Die? && !c.Begin? {
      if Owner(r) {
        OwnerMoves(w, s, h, pid, c, p);
      } else if r.Creating? {
        CreateMoves(w, s, h, pid, c, p);
        assert Call(s, pid, r, c) == Create(s, pid, r.j, c) by { CallCreates(s, pid, r, c); }
      } else {
        OtherMoves(w, s, h, pid, c, p);
      }
    }
  }

  /** A temporary file is there exactly if it was there at the start, some process owns it, or it was left behind;
      and what has an owner is neither of the other two. */
  ghost predicate Accounted(s: Sys, t: Sys, left: set<Path>, p: Path) {
    && (p in t.dir <==> p in s.dir || Owned(t, p) || p in left)
    && !(Owned(t, p) && (p in s.dir || p in left))
  }

  lemma StepAccounts(w: Names, s: Sys, t: Sys, h: History, left: set<Path>, pid: Pid, c: Choice, p: Path)
    requires Safe(w, t, h) && w.isTemp(p) && Accounted(s, t, left, p)
    requires Safe(w, Next(w, t, pid, c), h + Asked(w, t, pid, c))
    ensures Accounted(s, Next(w, t, pid, c), left + Dropped(t, pid, c), p)
  {
    hide Safe, Owned, OwnedByOther, Owns, Next, Dropped;
    var u := Next(w, t, pid, c);
    OwnersOf(w, t, h, pid, p);
    OwnersOf(w, u, h + Asked(w, t, pid, c), pid, p);
    OthersOwn(w, t, pid, c, p);
    OneTemp(w, t, h, pid, c, p);
  }

  /** In every interleaving, deaths and failures included, the temporary files in the directory are exactly those
      that were there before, those whose stores are still at work, and those whose owner died or failed to remove
      them.  So a store that ends without either leaves none. */
  lemma {:induction false} TempsAccounted(w: Names, s: Sys, steps: seq<(Pid, Choice)>, p: Path)
    requires Quiet(w, s) && NoneShort(w, s) && w.isTemp(p)
    ensures Accounted(s, Run(w, s, steps), AllDropped(w, s, steps), p)
  {
    hide Safe, Next, Dropped, NoneShort, Present, Asked;
    if steps != [] {
      var (n, h) := (|steps| - 1, Present(w, s));
      TempsAccounted(w, s, steps[..n], p);
      StartSafe(w, s);
      RunSafe(w, s, h, steps[..n]);
      RunSafe(w, s, h, steps);
      StepAccounts(w, s, Run(w, s, steps[..n]), Seen(w, s, h, steps[..n]), AllDropped(w, s, steps[..n]),
                   steps[n].0, steps[n].1, p);
    }
  }
}
