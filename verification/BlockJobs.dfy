/**
 * When stores and loads succeed.  A run is looked at from one process: the calls that it has made for its present job, each
 * with its outcome and the state it met, tell how the job ends.
 */
module BlockJobs {
  import opened BlockFiles
  import opened BlockProtocol
  import opened BlockTemps

  /** A call: its outcome, and the state in which it was made. */
  datatype Did = Did(c: Choice, at: Sys)

  /** The last job of a process, and the calls it has made for it. */
  datatype JobLog = NoJob | JobLog(j: Job, log: seq<Did>)

  ghost function LogOf(w: Names, s: Sys, steps: seq<(Pid, Choice)>, me: Pid): JobLog {
    if steps == [] then NoJob
    else
      var n := |steps| - 1;
      var (l, t, (pid, c)) := (LogOf(w, s, steps[..n], me), Run(w, s, steps[..n]), steps[n]);
      if pid != me then l
      else if c.Begin? then if Begins(w, ProcOf(t, me), c.j) then JobLog(c.j, []) else l
      else if l.NoJob? then l
      else JobLog(l.j, l.log + [Did(c, t)])
  }

  /** The process has died. */
  ghost predicate Died(log: seq<Did>) { exists i | 0 <= i < |log| :: log[i].c.Die? }

  // ----- Stores -----

  /** The first call finds the block's file. */
  predicate Found(j: Job, log: seq<Did>)
    requires j.Store?
  {
    |log| >= 1 && log[0].c.Ok? && j.dest in log[0].at.dir
  }

  /** The write transfers the whole block. */
  predicate Wrote(j: Job, c: Choice)
    requires j.Store?
  {
    c.Ok? || (c.Partial? && c.n >= |j.src|)
  }

  /** The calls after the first make the directories, a temporary file whose name was free, write the whole block, close it
      and rename it. */
  predicate Made(j: Job, log: seq<Did>)
    requires j.Store?
  {
    && |log| >= 6 && log[1].c.Ok? && log[2].c.Ok? && j.tmp !in log[2].at.dir
    && Wrote(j, log[3].c) && log[4].c.Ok? && log[5].c.Ok?
  }

  /** The block's name refers to a file that holds exactly the block. */
  predicate Holds(s: Sys, f: Path, b: Bytes) { f in s.dir && s.dir[f] in s.data && s.data[s.dir[f]] == b }

  /** The error of the first call after the check that goes wrong, among the calls so far; 0 if there is none. */
  function FirstError(j: Job, log: seq<Did>): int
    requires j.Store?
  {
    if |log| >= 2 && !log[1].c.Ok? then Errno(log[1].c)
    else if |log| >= 3 && j.tmp in log[2].at.dir then EEXIST
    else if |log| >= 3 && !log[2].c.Ok? then Errno(log[2].c)
    else if |log| >= 4 && !Wrote(j, log[3].c) then if log[3].c.Partial? then EIO else Errno(log[3].c)
    else if |log| >= 5 && !log[4].c.Ok? then Errno(log[4].c)
    else if |log| >= 6 && !log[5].c.Ok? then Errno(log[5].c)
    else 0
  }

  /** The error of a call that fails is the one it fails with. */
  lemma ErrorIsKept(c: Choice)
    ensures Errno(c) > 0
    ensures (c.Fail? || c.Partial?) && c.err > 0 ==> Errno(c) == c.err
  {}

  predicate Gave(j: Job, p: Proc, err: int) { p == Finished(j, err, []) && err > 0 }

  /** Where a failed store is: it closes (if it has to) and removes its temporary file, and reports the error. */
  predicate Undoing(j: Job, p: Proc, err: int, done: nat, calls: nat) {
    if done >= calls then Gave(j, p, err)
    else if done == calls - 1 then p.Unlinking? && p.j == j && p.err == err > 0
    else p.Aborting? && p.j == j && p.err == err > 0
  }

  /** Where a store is, after these calls. */
  ghost predicate StoreAt(w: Names, me: Pid, j: Job, log: seq<Did>, p: Proc)
    requires j.Store?
  {
    var err := FirstError(j, log);
    if Died(log) then p == Dead
    else if |log| == 0 then p == Checking(j)
    else if Found(j, log) then p == Finished(j, 0, [])
    else if |log| == 1 then p == MakingDirs(j)
    else if !log[1].c.Ok? then Gave(j, p, err)
    else if |log| == 2 then p == Creating(j)
    else if !log[2].c.Ok? || j.tmp in log[2].at.dir then Gave(j, p, err)
    else if |log| == 3 then p.Writing? && p.j == j
    else if !Wrote(j, log[3].c) then Undoing(j, p, err, |log| - 4, 2)
    else if |log| == 4 then p.Closing? && p.j == j
    else if !log[4].c.Ok? then Undoing(j, p, err, |log| - 5, 1)
    else if |log| == 5 then p.Renaming? && p.j == j
    else if !log[5].c.Ok? then Undoing(j, p, err, |log| - 6, 1)
    else p == Finished(j, 0, []) && Holds(Next(w, log[5].at, me, log[5].c), j.dest, j.src)
  }

  lemma DiedNext(log: seq<Did>, d: Did)
    ensures Died(log + [d]) <==> Died(log) || d.c.Die?
  {
    var all := log + [d];
    assert all[|log|] == d && forall i | 0 <= i < |log| :: all[i] == log[i];
  }

  lemma StoreNext(w: Names, s: Sys, h: History, me: Pid, j: Job, log: seq<Did>, c: Choice)
    requires Safe(w, s, h) && j.Store? && !c.Begin? && StoreAt(w, me, j, log, ProcOf(s, me))
    ensures StoreAt(w, me, j, log + [Did(c, s)], ProcOf(Next(w, s, me, c), me))
  {
    hide Safe, ProcOk, Take, Died;
    DiedNext(log, Did(c, s));
    assert forall i | 0 <= i < |log| :: (log + [Did(c, s)])[i] == log[i];
    if c.Ok? && ProcOf(s, me).Renaming? { RenamesWhole(w, s, h, me, c); }
  }

  lemma RenamesWhole(w: Names, s: Sys, h: History, me: Pid, c: Choice)
    requires Safe(w, s, h) && ProcOf(s, me).Renaming? && c.Ok?
    ensures var p := ProcOf(s, me);
            p.j.Store? && p.j.tmp in s.dir && Holds(Next(w, s, me, c), p.j.dest, p.j.src)
  {
    SafeProc(w, s, h, me);
    SafeLinked(w, s, h);
  }

  // ----- Loads -----

  /** The file is there when it is opened, and open and read succeed. */
  predicate Opened(j: Job, log: seq<Did>)
    requires j.Load?
  {
    |log| >= 1 && log[0].c.Ok? && j.path in log[0].at.dir
  }

  predicate Loads(j: Job, log: seq<Did>)
    requires j.Load?
  {
    Opened(j, log) && |log| >= 2 && log[1].c.Ok?
  }

  /** The bytes that the read finds in the file that was opened. */
  ghost predicate ReadFrom(j: Job, log: seq<Did>, read: Bytes)
    requires j.Load? && Loads(j, log)
  {
    var (ino, data) := (log[0].at.dir[j.path], log[1].at.data);
    ino in data && j.size <= |data[ino]| && read == data[ino][..j.size]
  }

  ghost predicate LoadAt(j: Job, log: seq<Did>, p: Proc)
    requires j.Load?
  {
    if Died(log) then p == Dead
    else if |log| == 0 then p == Opening(j)
    else if !Opened(j, log) then Gave(j, p, if j.path in log[0].at.dir then Errno(log[0].c) else ENOENT)
    else if |log| == 1 then p == Reading(j, log[0].at.dir[j.path])
    else if !log[1].c.Ok? then Gave(j, p, Errno(log[1].c))
    else p.Finished? && p.j == j && p.err == 0 && ReadFrom(j, log, p.read)
  }

  lemma LoadNext(w: Names, s: Sys, h: History, me: Pid, j: Job, log: seq<Did>, c: Choice)
    requires Safe(w, s, h) && j.Load? && !c.Begin? && LoadAt(j, log, ProcOf(s, me))
    ensures LoadAt(j, log + [Did(c, s)], ProcOf(Next(w, s, me, c), me))
  {
    hide Safe, ProcOk, Take, Died;
    DiedNext(log, Did(c, s));
    assert forall i | 0 <= i < |log| :: (log + [Did(c, s)])[i] == log[i];
    if ProcOf(s, me).Reading? { ReadsWhole(w, s, h, me); }
  }

  lemma ReadsWhole(w: Names, s: Sys, h: History, me: Pid)
    requires Safe(w, s, h) && ProcOf(s, me).Reading?
    ensures var p := ProcOf(s, me); p.j.Load? && p.ino in s.data && p.j.size <= |s.data[p.ino]|
  {
    SafeProc(w, s, h, me);
    SafeLinked(w, s, h);
  }

  // ----- Whole runs -----

  /** The process is where its calls have brought it. */
  ghost predicate Tracked(w: Names, me: Pid, l: JobLog, p: Proc) {
    match l
    case NoJob => p == Idle || p == Dead
    case JobLog(j, log) => if j.Store? then StoreAt(w, me, j, log, p) else LoadAt(j, log, p)
  }

  lemma TrackedNext(w: Names, s: Sys, h: History, me: Pid, l: JobLog, c: Choice)
    requires Safe(w, s, h) && Tracked(w, me, l, ProcOf(s, me)) && !c.Begin? && l.JobLog?
    ensures Tracked(w, me, JobLog(l.j, l.log + [Did(c, s)]), ProcOf(Next(w, s, me, c), me))
  {
    hide Safe, Next, StoreAt, LoadAt;
    if l.j.Store? { StoreNext(w, s, h, me, l.j, l.log, c); } else { LoadNext(w, s, h, me, l.j, l.log, c); }
  }

  /** Before its first job a process only dies, and a job begins with its first call ahead. */
  lemma TrackedStart(w: Names, s: Sys, me: Pid, l: JobLog, c: Choice)
    requires Tracked(w, me, l, ProcOf(s, me)) && (c.Begin? || l.NoJob?)
    ensures var begins := c.Begin? && Begins(w, ProcOf(s, me), c.j);
            Tracked(w, me, if begins then JobLog(c.j, []) else l, ProcOf(Next(w, s, me, c), me))
  {
    hide Call, Allowed, StoreAt, LoadAt, Take;
    if c.Begin? && Begins(w, ProcOf(s, me), c.j) {
      Fresh(w, me, c.j);
    } else if !c.Begin? && ProcOf(s, me).Idle? {
      IdleCall(s, me, c);
    }
  }

  lemma IdleCall(s: Sys, me: Pid, c: Choice)
    ensures Call(s, me, Idle, c) == s
  {}

  lemma Fresh(w: Names, me: Pid, j: Job)
    ensures if j.Store? then StoreAt(w, me, j, [], Checking(j)) else LoadAt(j, [], Opening(j))
  {}

  lemma {:induction false} RunTracked(w: Names, s: Sys, steps: seq<(Pid, Choice)>, me: Pid)
    requires Quiet(w, s) && NoneShort(w, s)
    ensures Tracked(w, me, LogOf(w, s, steps, me), ProcOf(Run(w, s, steps), me))
  {
    hide Safe, Next, Tracked, NoneShort, Present, Linked, Begins;
    if steps == [] {
      NobodyYet(w, s, me);
    } else {
      var n := |steps| - 1;
      var (t, (pid, c)) := (Run(w, s, steps[..n]), steps[n]);
      RunTracked(w, s, steps[..n], me);
      StartSafe(w, s);
      RunSafe(w, s, Present(w, s), steps[..n]);
      var l := LogOf(w, s, steps[..n], me);
      if pid != me {
        OnlyItself(w, t, pid, c, me);
      } else if c.Begin? || l.NoJob? {
        TrackedStart(w, t, me, l, c);
      } else {
        TrackedNext(w, t, Seen(w, s, Present(w, s), steps[..n]), me, l, c);
      }
    }
  }

  lemma NobodyYet(w: Names, s: Sys, me: Pid)
    requires Quiet(w, s)
    ensures Tracked(w, me, NoJob, ProcOf(s, me))
  {}

  /** When a store succeeds, in every interleaving: it has result 0 if and only if its first call found the block's file, or
      all its other calls went well and its temporary name was free; in the second case the block's name referred, when the
      rename was done, to a file that holds exactly the block.  Otherwise the error reported is that of the first call that
      went wrong, whatever the clean-up does.  And it ends: after 7 calls at most. */
  lemma StoreSucceedsIff(w: Names, s: Sys, steps: seq<(Pid, Choice)>, me: Pid)
    requires Quiet(w, s) && NoneShort(w, s)
    ensures var (l, p) := (LogOf(w, s, steps, me), ProcOf(Run(w, s, steps), me));
            l.JobLog? && l.j.Store? && !Died(l.log) ==>
              && (p.Finished? && p.err == 0 <==> Found(l.j, l.log) || Made(l.j, l.log))
              && (!Found(l.j, l.log) && Made(l.j, l.log) ==> Holds(Next(w, l.log[5].at, me, l.log[5].c), l.j.dest, l.j.src))
              && (p.Finished? && p.err != 0 ==> p.err == FirstError(l.j, l.log))
              && (|l.log| >= 7 ==> p.Finished?)
  {
    hide Died, Next, Run, LogOf;
    RunTracked(w, s, steps, me);
  }

  /** When a load succeeds: if and only if the file was there when it was opened and neither call failed; the bytes are then
      those found by the read in the file that was opened. */
  lemma LoadSucceedsIff(w: Names, s: Sys, steps: seq<(Pid, Choice)>, me: Pid)
    requires Quiet(w, s) && NoneShort(w, s)
    ensures var (l, p) := (LogOf(w, s, steps, me), ProcOf(Run(w, s, steps), me));
            l.JobLog? && l.j.Load? && !Died(l.log) ==>
              && (p.Finished? && p.err == 0 <==> Loads(l.j, l.log))
              && (Loads(l.j, l.log) ==> p.Finished? && ReadFrom(l.j, l.log, p.read))
              && (|l.log| >= 2 ==> p.Finished?)
  {
    hide Died, Next, Run, LogOf;
    RunTracked(w, s, steps, me);
  }
}
