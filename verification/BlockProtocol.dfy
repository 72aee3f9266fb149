/** What every interleaving of stores and loads keeps, deaths included. */
module BlockProtocol {
  import opened BlockFiles

  /** A change to the file system that concerns only the temporary name `own` and its file: block files stay,
      other temporary names stay, and other contents stay. */
  ghost predicate Gentle(w: Names, s: Sys, t: Sys, own: Path) {
    && s.next <= t.next
    && (forall p | p in s.dir && w.isDest(p) :: p in t.dir)
    && (forall p | p in s.dir && w.isTemp(p) && p != own :: p in t.dir && t.dir[p] == s.dir[p])
    && (forall p | p in t.dir && w.isTemp(p) && p != own :: p in s.dir)
    && (forall i | i in s.data :: i in t.data && (s.data[i] == t.data[i] || (own in s.dir && s.dir[own] == i)))
    && (own in t.dir ==> (own in s.dir && s.dir[own] == t.dir[own]) || s.next <= t.dir[own])
  }

  /** Such a change does not disturb a process that does not own `own`. */
  lemma Undisturbed(w: Names, s: Sys, t: Sys, h: History, k: History, own: Path, p: Proc)
    requires w.Valid() && Linked(s) && w.isTemp(own) && ProcOk(w, s, h, p) && Gentle(w, s, t, own) && h <= k
    requires Owner(p) ==> p.j.tmp != own
    ensures ProcOk(w, t, k, p)
  {
    if p.Reading? {
      forall q | q in t.dir && w.isTemp(q) ensures t.dir[q] != p.ino {
        if q != own { assert q in s.dir && t.dir[q] == s.dir[q]; }
      }
    }
    if p.Finished? && p.err == 0 && p.j.Load? {
      var b :| (p.j.path, b) in h && p.j.size <= |b| && p.read == b[..p.j.size];
      assert (p.j.path, b) in k;
    }
  }

  /** The same for a step that leaves the file system alone. */
  lemma Untouched(w: Names, s: Sys, t: Sys, h: History, k: History, p: Proc)
    requires ProcOk(w, s, h, p) && s.dir == t.dir && s.data == t.data && h <= k
    ensures ProcOk(w, t, k, p)
  {
    if p.Finished? && p.err == 0 && p.j.Load? {
      var b :| (p.j.path, b) in h && p.j.size <= |b| && p.read == b[..p.j.size];
      assert (p.j.path, b) in k;
    }
  }

  /** A step that leaves the file system alone and takes `pid` to a sound state. */
  lemma LocalStep(w: Names, s: Sys, h: History, k: History, pid: Pid, q: Proc)
    requires Safe(w, s, h) && h <= k
    requires forall e | e in k :: w.isDest(e.0) && w.size(e.0) <= |e.1|
    requires ProcOk(w, s, k, q)
    requires Owner(q) ==> Owner(ProcOf(s, pid)) && TmpOf(q.j) == TmpOf(ProcOf(s, pid).j)
    ensures Safe(w, To(s, pid, q), k)
  {
    hide ProcOk, Allowed, Served, WellTyped;
    var t := To(s, pid, q);
    forall x | x in t.procs ensures ProcOk(w, t, k, t.procs[x]) {
      Untouched(w, s, t, if x == pid then k else h, k, t.procs[x]);
    }
  }

  /** A step of a temporary file's owner (or of the process that becomes its owner). */
  lemma OwnerStep(w: Names, s: Sys, t: Sys, h: History, pid: Pid, own: Path, q: Proc)
    requires Safe(w, s, h) && w.isTemp(own) && Gentle(w, s, t, own)
    requires t.procs == s.procs[pid := q]
    requires Linked(t) && Complete(w, t, h) && ProcOk(w, t, h, q)
    requires Owner(q) ==> q.j.tmp == own
    requires forall x | x in s.procs && x != pid && Owner(s.procs[x]) :: s.procs[x].j.tmp != own
    ensures Safe(w, t, h)
  {
    hide Gentle, Linked, Complete;
    forall x | x in t.procs ensures ProcOk(w, t, h, t.procs[x]) {
      if x != pid { Undisturbed(w, s, t, h, h, own, s.procs[x]); }
    }
  }

  /** Nobody else owns the temporary file that `pid` owns. */
  lemma OnlyOwner(w: Names, s: Sys, h: History, pid: Pid)
    requires Safe(w, s, h) && Owner(ProcOf(s, pid))
    ensures forall x | x in s.procs && x != pid && Owner(s.procs[x]) :: s.procs[x].j.tmp != ProcOf(s, pid).j.tmp
  {
    forall x | x in s.procs && x != pid && Owner(s.procs[x]) ensures s.procs[x].j.tmp != ProcOf(s, pid).j.tmp {
      assert TmpOf(s.procs[x].j) != TmpOf(s.procs[pid].j);
    }
  }

  lemma CreateSafe(w: Names, s: Sys, h: History, pid: Pid, c: Choice)
    requires Safe(w, s, h) && ProcOf(s, pid).Creating?
    ensures Safe(w, Create(s, pid, ProcOf(s, pid).j, c), h)
  {
    var j := ProcOf(s, pid).j;
    var t := Create(s, pid, j, c);
    if j.tmp in s.dir || !c.Ok? {
      LocalStep(w, s, h, h, pid, t.procs[pid]);
    } else {
      assert Gentle(w, s, t, j.tmp);
      OwnerStep(w, s, t, h, pid, j.tmp, t.procs[pid]);
    }
  }

  /** Writing `b` to the file that `pid` owns, on the way to state `q`. */
  lemma FillSafe(w: Names, s: Sys, h: History, pid: Pid, b: Bytes, q: Proc)
    requires Safe(w, s, h) && ProcOf(s, pid).Writing?
    requires q == Dead || q == Closing(ProcOf(s, pid).j, ProcOf(s, pid).ino)
             || (q.Aborting? && q.j == ProcOf(s, pid).j && q.ino == ProcOf(s, pid).ino && q.err > 0)
    requires q.Closing? ==> b == q.j.src
    ensures Safe(w, To(s.(data := s.data[ProcOf(s, pid).ino := b]), pid, q), h)
  {
    var p := ProcOf(s, pid);
    var t := To(s.(data := s.data[p.ino := b]), pid, q);
    OnlyOwner(w, s, h, pid);
    assert Complete(w, t, h) by {
      forall f | f in t.dir && w.isDest(f) ensures (f, t.data[t.dir[f]]) in h { assert s.dir[f] != p.ino; }
    }
    assert Gentle(w, s, t, p.j.tmp);
    OwnerStep(w, s, t, h, pid, p.j.tmp, q);
  }

  lemma WriteSafe(w: Names, s: Sys, h: History, pid: Pid, c: Choice)
    requires Safe(w, s, h) && ProcOf(s, pid).Writing?
    ensures Safe(w, Write(s, pid, ProcOf(s, pid).j, ProcOf(s, pid).ino, c), h)
  {
    hide Safe;
    var (j, ino) := (ProcOf(s, pid).j, ProcOf(s, pid).ino);
    assert pid in s.procs && j.Store? && ProcOk(w, s, h, s.procs[pid]) by { SafeProc(w, s, h, pid); }
    match c
    case Ok => FillSafe(w, s, h, pid, j.src, Closing(j, ino));
    case Partial(n, e) =>
      FillSafe(w, s, h, pid, Take(j.src, n), if n >= |j.src| then Closing(j, ino) else Aborting(j, ino, EIO));
    case _ => SafeLinked(w, s, h); LocalStep(w, s, h, h, pid, Aborting(j, ino, Errno(c)));
  }

  lemma SafeProc(w: Names, s: Sys, h: History, pid: Pid)
    requires Safe(w, s, h) && pid in s.procs
    ensures ProcOk(w, s, h, s.procs[pid])
  {}

  lemma SafeLinked(w: Names, s: Sys, h: History)
    requires Safe(w, s, h)
    ensures w.Valid() && Linked(s) && Complete(w, s, h)
    ensures forall e | e in h :: w.isDest(e.0) && w.size(e.0) <= |e.1|
  {}

  lemma RenameSafe(w: Names, s: Sys, h: History, pid: Pid, c: Choice)
    requires Safe(w, s, h) && ProcOf(s, pid).Renaming?
    ensures Safe(w, Rename(s, pid, ProcOf(s, pid).j, ProcOf(s, pid).ino, c), h)
  {
    var p := ProcOf(s, pid);
    var t := Rename(s, pid, p.j, p.ino, c);
    if !c.Ok? {
      LocalStep(w, s, h, h, pid, t.procs[pid]);
    } else {
      OnlyOwner(w, s, h, pid);
      assert p.j.dest != p.j.tmp;
      assert Gentle(w, s, t, p.j.tmp);
      OwnerStep(w, s, t, h, pid, p.j.tmp, t.procs[pid]);
    }
  }

  lemma UnlinkSafe(w: Names, s: Sys, h: History, pid: Pid, c: Choice)
    requires Safe(w, s, h) && ProcOf(s, pid).Unlinking?
    ensures Safe(w, To(Unlink(s, ProcOf(s, pid).j.tmp, c), pid, Finished(ProcOf(s, pid).j, ProcOf(s, pid).err, [])), h)
  {
    var p := ProcOf(s, pid);
    var t := To(Unlink(s, p.j.tmp, c), pid, Finished(p.j, p.err, []));
    OnlyOwner(w, s, h, pid);
    assert Gentle(w, s, t, p.j.tmp);
    OwnerStep(w, s, t, h, pid, p.j.tmp, t.procs[pid]);
  }

  /** Any step, with any outcome, of any process. */
  lemma NextSafe(w: Names, s: Sys, h: History, pid: Pid, c: Choice)
    requires Safe(w, s, h)
    ensures Safe(w, Next(w, s, pid, c), h + Asked(w, s, pid, c))
  {
    hide Safe, ProcOk, Allowed, Served;
    var p := ProcOf(s, pid);
    assert h + {} == h;
    if p.Dead? || !WellTyped(p) {
    } else if c.Die? {
      DeathSafe(w, s, h, pid, c.n);
    } else if c.Begin? {
      if Begins(w, p, c.j) { BeginSafe(w, s, h, pid, c.j); }
    } else {
      CallSafe(w, s, h, pid, c);
    }
  }

  lemma DeathSafe(w: Names, s: Sys, h: History, pid: Pid, n: nat)
    requires Safe(w, s, h)
    ensures Safe(w, Death(s, pid, n), h)
  {
    hide Safe;
    SafeLinked(w, s, h);
    if ProcOf(s, pid).Writing? {
      SafeProc(w, s, h, pid);
      FillSafe(w, s, h, pid, Take(ProcOf(s, pid).j.src, n), Dead);
    } else {
      LocalStep(w, s, h, h, pid, Dead);
    }
  }

  lemma BeginSafe(w: Names, s: Sys, h: History, pid: Pid, j: Job)
    requires Safe(w, s, h) && Begins(w, ProcOf(s, pid), j)
    ensures Safe(w, Next(w, s, pid, Begin(j)), h + Asked(w, s, pid, Begin(j)))
  {
    hide Safe, Served;
    SafeLinked(w, s, h);
    LocalStep(w, s, h, h + Asked(w, s, pid, Begin(j)), pid, if j.Store? then Checking(j) else Opening(j));
  }

  lemma CallSafe(w: Names, s: Sys, h: History, pid: Pid, c: Choice)
    requires Safe(w, s, h) && WellTyped(ProcOf(s, pid))
    ensures Safe(w, Call(s, pid, ProcOf(s, pid), c), h)
  {
    hide Safe, Served, Allowed, Linked, Complete, Owner;
    if pid in s.procs { SafeProc(w, s, h, pid); }
    match ProcOf(s, pid)
    case Creating(_) => CreateSafe(w, s, h, pid, c);
    case Writing(_, _) => WriteSafe(w, s, h, pid, c);
    case Renaming(_, _) => RenameSafe(w, s, h, pid, c);
    case Unlinking(_, _, _) => UnlinkSafe(w, s, h, pid, c);
    case Opening(_) => OpenSafe(w, s, h, pid, c);
    case Reading(_, _) => ReadSafe(w, s, h, pid, c);
    case Checking(_) => CheckSafe(w, s, h, pid, c);
    case _ => LocalCallSafe(w, s, h, pid, c);
  }

  lemma CheckSafe(w: Names, s: Sys, h: History, pid: Pid, c: Choice)
    requires Safe(w, s, h) && ProcOf(s, pid).Checking?
    ensures Safe(w, Check(s, pid, ProcOf(s, pid).j, c), h)
  {
    hide Served, Linked, Apart;
    LocalStep(w, s, h, h, pid, Check(s, pid, ProcOf(s, pid).j, c).procs[pid]);
  }

  predicate CallsLocally(p: Proc) {
    p.MakingDirs? || p.Closing? || p.Aborting? || p.Idle? || p.Finished? || p.Dead? || p.Discarding?
  }

  /** The calls that leave the files alone. */
  lemma LocalCallSafe(w: Names, s: Sys, h: History, pid: Pid, c: Choice)
    requires Safe(w, s, h) && WellTyped(ProcOf(s, pid)) && CallsLocally(ProcOf(s, pid))
    ensures Safe(w, Call(s, pid, ProcOf(s, pid), c), h)
  {
    hide Safe, Served, Allowed, Linked, Complete;
    SafeLinked(w, s, h);
    if pid in s.procs { SafeProc(w, s, h, pid); }
    match ProcOf(s, pid)
    case MakingDirs(j) => LocalStep(w, s, h, h, pid, MakeDirs(s, pid, j, c).procs[pid]);
    case Closing(j, ino) => LocalStep(w, s, h, h, pid, Close(s, pid, j, ino, c).procs[pid]);
    case Aborting(j, ino, err) => LocalStep(w, s, h, h, pid, Unlinking(j, ino, err));
    case _ =>
  }

  lemma OpenSafe(w: Names, s: Sys, h: History, pid: Pid, c: Choice)
    requires Safe(w, s, h) && ProcOf(s, pid).Opening?
    ensures Safe(w, Open(s, pid, ProcOf(s, pid).j, c), h)
  {
    hide Served, Apart;
    LocalStep(w, s, h, h, pid, Open(s, pid, ProcOf(s, pid).j, c).procs[pid]);
  }

  /** A full-size read of an open block file never comes out short. */
  lemma ReadSafe(w: Names, s: Sys, h: History, pid: Pid, c: Choice)
    requires Safe(w, s, h) && ProcOf(s, pid).Reading?
    ensures Safe(w, Read(s, pid, ProcOf(s, pid).j, ProcOf(s, pid).ino, c), h)
  {
    hide Apart, Linked;
    var p := ProcOf(s, pid);
    LocalStep(w, s, h, h, pid, Read(s, pid, p.j, p.ino, c).procs[pid]);
  }

  // ----- Whole runs -----

  /** Every reachable state is safe: each block file is absent or holds, whole, one block that some store was
      asked to write there (or that was there first), and no two processes own one temporary file. */
  lemma {:induction false} RunSafe(w: Names, s: Sys, h: History, steps: seq<(Pid, Choice)>)
    requires Safe(w, s, h)
    ensures Safe(w, Run(w, s, steps), Seen(w, s, h, steps))
  {
    hide Safe, Next, Asked;
    if steps != [] {
      var n := |steps| - 1;
      RunSafe(w, s, h, steps[..n]);
      NextSafe(w, Run(w, s, steps[..n]), Seen(w, s, h, steps[..n]), steps[n].0, steps[n].1);
    }
  }

  /** A block file that is there stays there, whatever happens next. */
  lemma StepKeeps(w: Names, s: Sys, h: History, pid: Pid, c: Choice, f: Path)
    requires Safe(w, s, h) && w.isDest(f) && f in s.dir
    ensures f in Next(w, s, pid, c).dir
  {
    hide Served, Linked, Complete, Apart;
    if pid in s.procs { SafeProc(w, s, h, pid); }
  }

  lemma {:induction false} RunKeeps(w: Names, s: Sys, h: History, steps: seq<(Pid, Choice)>, f: Path)
    requires Safe(w, s, h) && w.isDest(f) && f in s.dir
    ensures f in Run(w, s, steps).dir
  {
    hide Safe, Next;
    if steps != [] {
      var n := |steps| - 1;
      RunKeeps(w, s, h, steps[..n], f);
      RunSafe(w, s, h, steps[..n]);
      StepKeeps(w, Run(w, s, steps[..n]), Seen(w, s, h, steps[..n]), steps[n].0, steps[n].1, f);
    }
  }

  /** Runs compose. */
  lemma {:induction false} RunConcat(w: Names, s: Sys, a: seq<(Pid, Choice)>, b: seq<(Pid, Choice)>)
    ensures Run(w, s, a + b) == Run(w, Run(w, s, a), b)
  {
    hide Next;
    if b == [] {
      assert a + b == a;
    } else {
      var n := |b| - 1;
      RunConcat(w, s, a, b[..n]);
      assert (a + b)[..|a + b| - 1] == a + b[..n];
    }
  }

  // ----- What callers see -----

  /** Before anything runs: distinct files, and no process. */
  ghost predicate Quiet(w: Names, s: Sys) { w.Valid() && Linked(s) && s.procs == map[] }

  /** No block file is shorter than its block. */
  ghost predicate NoneShort(w: Names, s: Sys)
    requires Linked(s)
  {
    forall p | p in s.dir && w.isDest(p) :: w.size(p) <= |s.data[s.dir[p]]|
  }

  /** The blocks that are there to begin with. */
  function Present(w: Names, s: Sys): History
    requires Linked(s)
  {
    set p | p in s.dir && w.isDest(p) :: (p, s.data[s.dir[p]])
  }

  lemma StartSafe(w: Names, s: Sys)
    requires Quiet(w, s) && NoneShort(w, s)
    ensures Safe(w, s, Present(w, s))
  {}

  ghost predicate StoredAt(s: Sys, pid: Pid, f: Path) {
    var p := ProcOf(s, pid);
    p.Finished? && p.j.Store? && p.j.dest == f && p.err == 0
  }

  /** Once a store of `f` has returned 0, `f` is there for ever, in every run from `s`. */
  ghost predicate StoresStick(w: Names, s: Sys) {
    forall a: seq<(Pid, Choice)>, b: seq<(Pid, Choice)>, pid: Pid, f: Path |
      StoredAt(Run(w, s, a), pid, f) :: Exists(Run(w, s, a + b), f)
  }

  /** A store that returned 0 makes its block visible to every later lookup and to every later load: a load that is
      about to open the file opens it unless the call fails, and one that has it open returns 0 with a whole block
      unless the read raises an error. */
  lemma StoredIsVisible(w: Names, s: Sys, a: seq<(Pid, Choice)>, b: seq<(Pid, Choice)>, pid: Pid, f: Path, q: Pid)
    requires Quiet(w, s) && NoneShort(w, s) && StoredAt(Run(w, s, a), pid, f)
    ensures var t := Run(w, s, a + b);
            && Exists(t, f)
            && OpensIt(w, t, q, f)
            && ReturnsIt(w, t, q, f, Seen(w, s, Present(w, s), a + b))
  {
    hide Run, Seen, Linked, Complete, Apart, Present, OpensIt, ReturnsIt;
    var h := Present(w, s);
    StartSafe(w, s);
    RunSafe(w, s, h, a);
    SafeProc(w, Run(w, s, a), Seen(w, s, h, a), pid);
    RunKeeps(w, Run(w, s, a), Seen(w, s, h, a), b, f);
    RunConcat(w, s, a, b);
    RunSafe(w, s, h, a + b);
    OpensWhatIsThere(w, Run(w, s, a + b), q, f);
    ReturnsWhatIsOpen(w, Run(w, s, a + b), Seen(w, s, h, a + b), q, f);
  }

  /** If process `q` is about to open `f` for a load, its next call opens it, if it succeeds. */
  ghost predicate OpensIt(w: Names, t: Sys, q: Pid, f: Path) {
    var p := ProcOf(t, q);
    p.Opening? && p.j.Load? && p.j.path == f ==> f in t.dir && ProcOf(Next(w, t, q, Ok), q) == Reading(p.j, t.dir[f])
  }

  /** If process `q` is about to read `f` for a load, its next call ends the load with result 0 and a whole block known
      to be one of `f`, if it succeeds. */
  ghost predicate ReturnsIt(w: Names, t: Sys, q: Pid, f: Path, h: History) {
    var p := ProcOf(t, q);
    p.Reading? && p.j.Load? && p.j.path == f ==>
      var r := ProcOf(Next(w, t, q, Ok), q);
      r.Finished? && r.j == p.j && r.err == 0 && |r.read| == w.size(f) && Served(h, f, w.size(f), r.read)
  }

  lemma OpensWhatIsThere(w: Names, t: Sys, q: Pid, f: Path)
    requires Exists(t, f)
    ensures OpensIt(w, t, q, f)
  {}

  lemma ReturnsWhatIsOpen(w: Names, t: Sys, h: History, q: Pid, f: Path)
    requires Safe(w, t, h)
    ensures ReturnsIt(w, t, q, f, h)
  {
    hide Linked, Apart, Safe, Served;
    var p := ProcOf(t, q);
    if p.Reading? && p.j.Load? && p.j.path == f {
      SafeProc(w, t, h, q);
      SafeLinked(w, t, h);
      ServedFrom(h, f, t.data[p.ino], w.size(f));
    }
  }

  lemma ServedFrom(h: History, f: Path, b: Bytes, n: nat)
    requires (f, b) in h && n <= |b|
    ensures Served(h, f, n, b[..n])
  {}

  /** A load never finds a short file, never removes one, and what it returns is a whole known block. */
  lemma LoadsAreWhole(w: Names, s: Sys, a: seq<(Pid, Choice)>, pid: Pid)
    requires Quiet(w, s) && NoneShort(w, s)
    ensures var t := Run(w, s, a); var p := ProcOf(t, pid);
            && !p.Discarding?
            && (p.Reading? ==> p.ino in t.data && p.j.Load? && p.j.size <= |t.data[p.ino]|)
            && (p.Finished? && p.j.Load? && p.err == 0 ==>
                  Served(Seen(w, s, Present(w, s), a), p.j.path, p.j.size, p.read))
  {
    hide Run, Seen, Linked, Apart, Present;
    StartSafe(w, s);
    RunSafe(w, s, Present(w, s), a);
    var t := Run(w, s, a);
    if pid in t.procs { SafeProc(w, t, Seen(w, s, Present(w, s), a), pid); }
  }

  /** In a schedule from a quiet start, every block known is one that was there or one that some store began. */
  lemma {:induction false} SeenIsAsked(w: Names, s: Sys, h: History, steps: seq<(Pid, Choice)>, e: (Path, Bytes))
    requires e in Seen(w, s, h, steps) && e !in h
    ensures exists i | 0 <= i < |steps| :: steps[i].1.Begin? && steps[i].1.j.Store?
              && Allowed(w, steps[i].1.j) && e == (steps[i].1.j.dest, steps[i].1.j.src)
  {
    hide Run;
    var n := |steps| - 1;
    if e in Seen(w, s, h, steps[..n]) {
      SeenIsAsked(w, s, h, steps[..n], e);
      var i :| 0 <= i < n && steps[..n][i].1.Begin? && steps[..n][i].1.j.Store?
        && Allowed(w, steps[..n][i].1.j) && e == (steps[..n][i].1.j.dest, steps[..n][i].1.j.src);
      assert steps[i] == steps[..n][i];
    } else {
      assert steps[n].1.Begin?;
    }
  }

  /** Some step of `steps` begins a store of `b` to `f`. */
  ghost predicate StoreBegun(w: Names, steps: seq<(Pid, Choice)>, f: Path, b: Bytes) {
    exists i | 0 <= i < |steps| :: steps[i].1.Begin? && steps[i].1.j.Store?
      && Allowed(w, steps[i].1.j) && (f, b) == (steps[i].1.j.dest, steps[i].1.j.src)
  }

  /** In every interleaving, deaths included, a block file is absent, or holds what it held at the start, or
      holds exactly what one store was given for it, with the right size. */
  lemma BlocksAreWhole(w: Names, s: Sys, steps: seq<(Pid, Choice)>, f: Path)
    requires Quiet(w, s) && NoneShort(w, s) && w.isDest(f)
    ensures var t := Run(w, s, steps);
            f in t.dir ==>
              && t.dir[f] in t.data
              && var b := t.data[t.dir[f]];
                 || (f in s.dir && s.data[s.dir[f]] == b)
                 || (StoreBegun(w, steps, f, b) && |b| == w.size(f))
  {
    hide Run, Seen;
    StartSafe(w, s);
    RunSafe(w, s, Present(w, s), steps);
    var t := Run(w, s, steps);
    if f in t.dir {
      var e := (f, t.data[t.dir[f]]);
      if e !in Present(w, s) { SeenIsAsked(w, s, Present(w, s), steps, e); }
    }
  }

  /** At most one process at a time owns a temporary file: has created it and not yet renamed or removed it. */
  lemma OneOwner(w: Names, s: Sys, steps: seq<(Pid, Choice)>, x: Pid, y: Pid)
    requires Quiet(w, s) && NoneShort(w, s)
    ensures var t := Run(w, s, steps);
            Owner(ProcOf(t, x)) && Owner(ProcOf(t, y)) && TmpOf(ProcOf(t, x).j) == TmpOf(ProcOf(t, y).j) ==> x == y
  {
    hide Run, Seen, ProcOk, Complete, Linked, Present;
    StartSafe(w, s);
    RunSafe(w, s, Present(w, s), steps);
  }

  /** The owner of a temporary file goes on owning it; or ends its job with the file under the block's name if it
      succeeded, and with the file gone if it failed, unless the removal itself failed; or dies and leaves the file. */
  lemma TempIsGone(w: Names, s: Sys, h: History, pid: Pid, c: Choice)
    requires Safe(w, s, h) && Owner(ProcOf(s, pid))
    ensures var (t, tmp) := (Next(w, s, pid, c), ProcOf(s, pid).j.tmp);
            var q := ProcOf(t, pid);
            || (Owner(q) && q.j == ProcOf(s, pid).j && tmp in t.dir && t.dir[tmp] == s.dir[tmp])
            || (q.Finished? && q.err == 0 && tmp !in t.dir && q.j.dest in t.dir && t.dir[q.j.dest] == s.dir[tmp])
            || (q.Finished? && q.err > 0 && (tmp in t.dir <==> !c.Ok?))
            || (q.Dead? && c.Die? && tmp in t.dir)
  {
    hide Served, Complete, Apart, Take;
    SafeProc(w, s, h, pid);
    assert w.Valid();
  }

  /** From a state where `f` is short: a store of `f` reports success, */
  lemma StoreBelieves(w: Names, s: Sys, t: Path, f: Path)
    requires Quiet(w, s) && w.isTemp(t) && w.isDest(f) && f in s.dir
    ensures StoredAt(Run(w, s, Believing(w, t, f)), 0, f)
    ensures Run(w, s, Believing(w, t, f)) == s.(procs := map[0 := Finished(Zeros(w, t, f), 0, [])])
  {
    hide Run;
    var r := Believing(w, t, f);
    assert Run(w, s, r[..0]) == s by { RunNothing(w, s, r); }
    RunStep(w, s, r, 0);
    RunStep(w, s, r, 1);
    assert r[..2] == r;
    assert Run(w, s, r).procs == map[0 := Finished(Zeros(w, t, f), 0, [])];
  }

  function Zeros(w: Names, t: Path, f: Path): Job { Store(t, f, seq(w.size(f), i => 0)) }

  function Believing(w: Names, t: Path, f: Path): seq<(Pid, Choice)> { [(0, Begin(Zeros(w, t, f))), (0, Ok)] }

  function Removing(w: Names, f: Path): seq<(Pid, Choice)> {
    [(1, Begin(Load(f, w.size(f)))), (1, Ok), (1, Ok), (1, Ok)]
  }

  /** and a load of `f` then removes it. */
  lemma LoadRemoves(w: Names, s: Sys, f: Path)
    requires w.isDest(f) && f in s.dir && s.dir[f] in s.data && |s.data[s.dir[f]]| < w.size(f)
    requires 1 !in s.procs
    ensures !Exists(Run(w, s, Removing(w, f)), f)
  {
    hide Run, Next, Allowed;
    var (j, r) := (Load(f, w.size(f)), Removing(w, f));
    var s1 := To(s, 1, Opening(j));
    var s2 := To(s1, 1, Reading(j, s.dir[f]));
    RunNothing(w, s, r);
    RunStep(w, s, r, 0);
    RunStep(w, s, r, 1);
    RunStep(w, s, r, 2);
    RunStep(w, s, r, 3);
    assert Allowed(w, j) by { MayLoad(w, f); }
    BeginsLoad(w, s, j);
    OpensFile(w, s1, j);
    FindsShort(w, s2, j);
    Discards(w, To(s2, 1, Discarding(j)), j);
    assert r[..4] == r;
  }

  lemma MayLoad(w: Names, f: Path)
    requires w.isDest(f)
    ensures Allowed(w, Load(f, w.size(f)))
  {}

  lemma BeginsLoad(w: Names, s: Sys, j: Job)
    requires 1 !in s.procs && j.Load? && Allowed(w, j)
    ensures Next(w, s, 1, Begin(j)) == To(s, 1, Opening(j))
  {}

  lemma OpensFile(w: Names, s: Sys, j: Job)
    requires 1 in s.procs && j.Load? && s.procs[1] == Opening(j) && j.path in s.dir
    ensures Next(w, s, 1, Ok) == To(s, 1, Reading(j, s.dir[j.path]))
  {}

  lemma FindsShort(w: Names, s: Sys, j: Job)
    requires 1 in s.procs && j.Load? && s.procs[1].Reading? && s.procs[1].j == j
    requires s.procs[1].ino in s.data && |s.data[s.procs[1].ino]| < j.size
    ensures Next(w, s, 1, Ok) == To(s, 1, Discarding(j))
  {}

  lemma Discards(w: Names, s: Sys, j: Job)
    requires 1 in s.procs && j.Load? && s.procs[1] == Discarding(j)
    ensures j.path !in Next(w, s, 1, Ok).dir
  {}

  lemma RunNothing(w: Names, s: Sys, steps: seq<(Pid, Choice)>)
    ensures Run(w, s, steps[..0]) == s
  {}

  lemma RunStep(w: Names, s: Sys, steps: seq<(Pid, Choice)>, n: nat)
    requires n < |steps|
    ensures Run(w, s, steps[..n + 1]) == Next(w, Run(w, s, steps[..n]), steps[n].0, steps[n].1)
  {
    assert steps[..n + 1][..n] == steps[..n];
  }

  /** Stores keep their promise in every run exactly when no block file is too short to begin with: the store
      trusts any file it finds, and the load that discovers the truth removes it. */
  lemma SticksIffNoneShort(w: Names, s: Sys, t: Path)
    requires Quiet(w, s) && w.isTemp(t)
    ensures StoresStick(w, s) <==> NoneShort(w, s)
  {
    hide Run;
    if NoneShort(w, s) {
      forall a: seq<(Pid, Choice)>, b: seq<(Pid, Choice)>, pid: Pid, f: Path | StoredAt(Run(w, s, a), pid, f)
        ensures Exists(Run(w, s, a + b), f)
      {
        StoredIsVisible(w, s, a, b, pid, f, 0);
      }
    } else {
      var f :| f in s.dir && w.isDest(f) && |s.data[s.dir[f]]| < w.size(f);
      StoreBelieves(w, s, t, f);
      var a, b := Believing(w, t, f), Removing(w, f);
      LoadRemoves(w, Run(w, s, a), f);
      RunConcat(w, s, a, b);
      assert StoredAt(Run(w, s, a), 0, f) && !Exists(Run(w, s, a + b), f);
    }
  }
}
