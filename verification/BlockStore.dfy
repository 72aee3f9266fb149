/** The batch operations on block files, as one process runs them while others do what they like. */
module BlockStore {
  import opened BlockFiles
  import opened BlockProtocol
  import opened BlockTemps
  import opened BlockJobs

  /** Calls a job still has to make, at most. */
  function CallsLeft(p: Proc): nat {
    match p
    case Checking(_) => 8
    case MakingDirs(_) => 7
    case Creating(_) => 6
    case Writing(_, _) => 5
    case Closing(_, _) => 4
    case Renaming(_, _) => 3
    case Aborting(_, _, _) => 3
    case Unlinking(_, _, _) => 2
    case Opening(_) => 3
    case Reading(_, _) => 2
    case Discarding(_) => 1
    case _ => 0
  }

  /** What may have happened between `s` and `t`: no block file has gone. */
  ghost predicate Grown(w: Names, s: Sys, t: Sys) {
    forall f | f in s.dir && w.isDest(f) :: f in t.dir
  }

  lemma GrownStep(w: Names, s: Sys, h: History, pid: Pid, c: Choice)
    requires Safe(w, s, h)
    ensures Grown(w, s, Next(w, s, pid, c))
  {
    hide Safe, Next;
    forall f | f in s.dir && w.isDest(f) ensures f in Next(w, s, pid, c).dir { StepKeeps(w, s, h, pid, c, f); }
  }

  /** One more step of a run. */
  lemma OneMoreStep(w: Names, s: Sys, h: History, steps: seq<(Pid, Choice)>, pid: Pid, c: Choice)
    ensures Run(w, s, steps + [(pid, c)]) == Next(w, Run(w, s, steps), pid, c)
    ensures Seen(w, s, h, steps + [(pid, c)]) == Seen(w, s, h, steps) + Asked(w, Run(w, s, steps), pid, c)
  {
    hide Next, Asked;
    assert (steps + [(pid, c)])[..|steps|] == steps;
  }

  /** What it adds to what is known of process `me`. */
  lemma OneMoreCall(w: Names, s: Sys, steps: seq<(Pid, Choice)>, pid: Pid, c: Choice, me: Pid)
    ensures var (l, t) := (LogOf(w, s, steps, me), Run(w, s, steps));
            LogOf(w, s, steps + [(pid, c)], me) ==
              if pid != me then l
              else if c.Begin? then if Begins(w, ProcOf(t, me), c.j) then JobLog(c.j, []) else l
              else if l.NoJob? then l
              else JobLog(l.j, l.log + [Did(c, t)])
  {
    assert (steps + [(pid, c)])[..|steps|] == steps;
  }

  /** Every call of a job brings it closer to its end, and the job stays the same. */
  lemma CallProgress(w: Names, s: Sys, h: History, pid: Pid, c: Choice)
    requires Safe(w, s, h) && CallsLeft(ProcOf(s, pid)) > 0 && !c.Die? && !c.Begin?
    ensures var p := ProcOf(s, pid); var q := ProcOf(Next(w, s, pid, c), pid);
            && CallsLeft(q) < CallsLeft(p)
            && !q.Idle? && !q.Dead? && q.j == p.j
  {
    hide Safe, Served, Allowed, Take, Errno, Owner;
    SafeProc(w, s, h, pid);
  }

  /** How a store ended, by its calls. */
  ghost predicate StoreEnds(w: Names, me: Pid, l: JobLog, err: int)
    requires l.JobLog? && l.j.Store?
  {
    && (err == 0 <==> Found(l.j, l.log) || Made(l.j, l.log))
    && (err != 0 ==> err == FirstError(l.j, l.log))
    && (err == 0 && !Found(l.j, l.log) ==> Holds(Next(w, l.log[5].at, me, l.log[5].c), l.j.dest, l.j.src))
  }

  /** How a load ended, by its calls. */
  ghost predicate LoadEnds(l: JobLog, err: int, read: Bytes)
    requires l.JobLog? && l.j.Load?
  {
    (err == 0 <==> Loads(l.j, l.log)) && (err == 0 ==> ReadFrom(l.j, l.log, read))
  }

  lemma NotYetDead()
    ensures !Died([])
  {}

  class Volume {
    const w: Names
    /** The files at the start, and every step that any process has taken since. */
    ghost const start: Sys
    ghost var trace: seq<(Pid, Choice)>
    var s: Sys
    ghost var h: History

    ghost predicate Valid()
      reads this
    {
      && Quiet(w, start) && NoneShort(w, start)
      && s == Run(w, start, trace) && h == Seen(w, start, Present(w, start), trace)
    }

    /** The calls that a process has made for its last job. */
    ghost function Log(me: Pid): JobLog
      reads this
    {
      LogOf(w, start, trace, me)
    }

    lemma ValidSafe()
      requires Valid()
      ensures Safe(w, s, h)
    {
      hide Run, Seen, Present;
      StartSafe(w, start);
      RunSafe(w, start, Present(w, start), trace);
    }

    /** Files that nobody uses yet, none of them too short for its block. */
    constructor (w: Names, s: Sys)
      requires Quiet(w, s) && NoneShort(w, s)
      ensures Valid() && this.w == w && this.s == s && h == Present(w, s) && trace == []
    {
      this.w, this.s, this.h, this.start, this.trace := w, s, Present(w, s), s, [];
    }

    /** Process `pid` takes a step. */
    method Move(pid: Pid, c: Choice, ghost me: Pid)
      requires Valid()
      modifies this
      ensures Valid() && s == Next(w, old(s), pid, c) && trace == old(trace) + [(pid, c)]
      ensures h == old(h) + Asked(w, old(s), pid, c) && Grown(w, old(s), s)
      ensures pid != me ==> ProcOf(s, me) == old(ProcOf(s, me)) && Log(me) == old(Log(me))
      ensures pid == me && !c.Begin? && old(Log(me)).JobLog? ==> Log(me) == JobLog(old(Log(me)).j, old(Log(me)).log + [Did(c, old(s))])
      ensures pid == me && c.Begin? && Begins(w, old(ProcOf(s, me)), c.j) ==> Log(me) == JobLog(c.j, [])
    {
      hide Run, Seen, Next, Asked, LogOf, Present, Begins, Linked, NoneShort, Safe;
      ValidSafe();
      GrownStep(w, s, h, pid, c);
      OneMoreStep(w, start, Present(w, start), trace, pid, c);
      OneMoreCall(w, start, trace, pid, c, me);
      if pid != me { OnlyItself(w, s, pid, c, me); }
      trace, h := trace + [(pid, c)], h + Asked(w, s, pid, c);
      s := Next(w, s, pid, c);
    }

    /** Other processes take any number of steps, with any outcomes. */
    method Interfere(me: Pid)
      requires Valid()
      modifies this
      ensures Valid() && old(h) <= h && old(trace) <= trace && Grown(w, old(s), s)
      ensures ProcOf(s, me) == old(ProcOf(s, me)) && Log(me) == old(Log(me))
    {
      hide Valid, Next, Asked, LogOf;
      var n: nat := *;
      while n > 0
        invariant Valid() && old(h) <= h && old(trace) <= trace && Grown(w, old(s), s)
        invariant ProcOf(s, me) == old(ProcOf(s, me)) && Log(me) == old(Log(me))
      {
        var pid: Pid := *;
        var c: Choice := *;
        if pid != me { Move(pid, c, me); }
        n := n - 1;
      }
    }

    /** The job that `me` has begun runs to its end, other processes interfering before every call. */
    method Finish(me: Pid)
      requires Valid() && CallsLeft(ProcOf(s, me)) > 0 && Log(me).JobLog? && !Died(Log(me).log)
      modifies this
      ensures Valid() && old(h) <= h && old(trace) <= trace && Grown(w, old(s), s)
      ensures ProcOf(s, me).Finished? && ProcOf(s, me).j == old(ProcOf(s, me).j)
      ensures Log(me).JobLog? && Log(me).j == old(Log(me)).j && !Died(Log(me).log)
    {
      hide Valid, Safe, Next, Asked, LogOf, Died;
      ghost var j := ProcOf(s, me).j;
      while CallsLeft(ProcOf(s, me)) > 0
        invariant Valid() && old(h) <= h && old(trace) <= trace && Grown(w, old(s), s)
        invariant !ProcOf(s, me).Idle? && !ProcOf(s, me).Dead? && ProcOf(s, me).j == j
        invariant Log(me).JobLog? && Log(me).j == old(Log(me)).j && !Died(Log(me).log)
        decreases CallsLeft(ProcOf(s, me))
      {
        Interfere(me);
        var c: Choice := *;
        if c.Die? || c.Begin? { c := Ok; }
        ValidSafe();
        CallProgress(w, s, h, me, c);
        DiedNext(Log(me).log, Did(c, s));
        Move(me, c, me);
      }
    }

    ghost predicate Free(me: Pid)
      reads this
    {
      ProcOf(s, me).Idle? || ProcOf(s, me).Finished?
    }

    /** One store.  Its result is 0 if and only if its first call found the block's file, or all other calls went well and the
        temporary name was free; then the file is there, and in the second case the rename gave it the block.  Otherwise
        the result is the error of the first call that went wrong. */
    method StoreBlock(me: Pid, tmp: Path, dest: Path, src: Bytes) returns (err: int)
      requires Valid() && Free(me) && Allowed(w, Store(tmp, dest, src))
      modifies this
      ensures Valid() && Free(me) && old(h) <= h && old(trace) <= trace && Grown(w, old(s), s)
      ensures (dest, src) in h
      ensures err == 0 ==> dest in s.dir
      ensures ProcOf(s, me).Finished? && ProcOf(s, me).j == Store(tmp, dest, src) && ProcOf(s, me).err == err
      ensures Log(me).JobLog? && Log(me).j == Store(tmp, dest, src) && StoreEnds(w, me, Log(me), err)
    {
      hide Valid, Safe, Asked, Call, LogOf, Died, Run, StoreEnds;
      var c := Begin(Store(tmp, dest, src));
      assert (dest, src) in h + Asked(w, s, me, c) by { AskedNow(w, s, me, tmp, dest, src); }
      Move(me, c, me);
      NotYetDead();
      Finish(me);
      err := ProcOf(s, me).err;
      ValidSafe();
      SafeProc(w, s, h, me);
      assert StoreEnds(w, me, Log(me), err) by { StoreEnded(me); }
    }

    lemma StoreEnded(me: Pid)
      requires Valid() && Log(me).JobLog? && Log(me).j.Store? && !Died(Log(me).log) && ProcOf(s, me).Finished?
      ensures StoreEnds(w, me, Log(me), ProcOf(s, me).err)
    {
      hide Run, LogOf, Died, Next, Seen, Present;
      StoreSucceedsIff(w, start, trace, me);
    }

    lemma LoadEnded(me: Pid)
      requires Valid() && Log(me).JobLog? && Log(me).j.Load? && !Died(Log(me).log) && ProcOf(s, me).Finished?
      ensures LoadEnds(Log(me), ProcOf(s, me).err, ProcOf(s, me).read)
    {
      hide Run, LogOf, Died, Next, Seen, Present;
      LoadSucceedsIff(w, start, trace, me);
    }

    /** One load.  Its result is 0 if and only if the file was there when it was opened and neither call failed; it comes with
        the first `size` bytes of a whole block of that file, those that the read found. */
    method LoadBlock(me: Pid, path: Path, size: nat) returns (err: int, read: Bytes)
      requires Valid() && Free(me) && Allowed(w, Load(path, size))
      modifies this
      ensures Valid() && Free(me) && old(h) <= h && old(trace) <= trace && Grown(w, old(s), s)
      ensures err == 0 ==> Served(h, path, size, read)
      ensures ProcOf(s, me) == Finished(Load(path, size), err, read)
      ensures Log(me).JobLog? && Log(me).j == Load(path, size) && LoadEnds(Log(me), err, read)
    {
      hide Valid, Safe, Asked, Call, LogOf, Died, Run, LoadEnds;
      var c := Begin(Load(path, size));
      Move(me, c, me);
      NotYetDead();
      Finish(me);
      err, read := ProcOf(s, me).err, ProcOf(s, me).read;
      ValidSafe();
      SafeProc(w, s, h, me);
      assert LoadEnds(Log(me), err, read) by { LoadEnded(me); }
    }

    /** One flag per path: set if the file was there before the call, and only if it is there after it. */
    method BatchLookup(me: Pid, paths: seq<Path>) returns (flags: seq<bool>)
      requires Valid() && forall i | 0 <= i < |paths| :: w.isDest(paths[i])
      modifies this
      ensures Valid() && ProcOf(s, me) == old(ProcOf(s, me)) && old(h) <= h && Grown(w, old(s), s)
      ensures |flags| == |paths|
      ensures forall i | 0 <= i < |paths| :: paths[i] in old(s).dir ==> flags[i]
      ensures forall i | 0 <= i < |paths| :: flags[i] ==> paths[i] in s.dir
    {
      hide Valid, Safe, LogOf;
      flags := [];
      for i := 0 to |paths|
        invariant Valid() && ProcOf(s, me) == old(ProcOf(s, me)) && old(h) <= h && Grown(w, old(s), s)
        invariant |flags| == i
        invariant forall k | 0 <= k < i :: paths[k] in old(s).dir ==> flags[k]
        invariant forall k | 0 <= k < i :: flags[k] ==> paths[k] in s.dir
      {
        Interfere(me);
        flags := flags + [Exists(s, paths[i])];
      }
    }

    /** Stores in order up to the first failure.  `failed` is its index, or -1; all blocks before it, or all
        blocks, are there when the call returns.  The store that failed did so because of one of its calls. */
    method BatchStore(me: Pid, tmps: seq<Path>, dests: seq<Path>, bufs: seq<Bytes>) returns (failed: int, errno: int)
      requires Valid() && Free(me)
      requires |tmps| == |dests| == |bufs|
      requires forall i | 0 <= i < |dests| :: Allowed(w, Store(tmps[i], dests[i], bufs[i]))
      modifies this
      ensures Valid() && Free(me) && old(h) <= h && Grown(w, old(s), s)
      ensures -1 <= failed < |dests| && (failed >= 0 <==> errno != 0)
      ensures forall i | 0 <= i < (if failed < 0 then |dests| else failed) :: dests[i] in s.dir
      ensures failed >= 0 ==> && Log(me).JobLog? && Log(me).j == Store(tmps[failed], dests[failed], bufs[failed])
                              && StoreEnds(w, me, Log(me), errno)
    {
      hide Valid, Safe, LogOf, StoreEnds, LoadEnds;
      failed, errno := -1, 0;
      for i := 0 to |dests|
        invariant Valid() && Free(me) && old(h) <= h && Grown(w, old(s), s)
        invariant forall k | 0 <= k < i :: w.isDest(dests[k]) && dests[k] in s.dir
      {
        var err := StoreBlock(me, tmps[i], dests[i], bufs[i]);
        if err != 0 { return i, err; }
      }
    }

    /** Loads in order up to the first failure.  `failed` is its index, or -1; the buffers before it hold whole
        blocks of their files, and those after it are as they were. */
    method BatchLoad(me: Pid, paths: seq<Path>, bufs: seq<Bytes>) returns (failed: int, errno: int, filled: seq<Bytes>)
      requires Valid() && Free(me) && |paths| == |bufs|
      requires forall i | 0 <= i < |paths| :: Allowed(w, Load(paths[i], |bufs[i]|))
      modifies this
      ensures Valid() && Free(me) && old(h) <= h && Grown(w, old(s), s)
      ensures |filled| == |bufs| && -1 <= failed < |paths| && (failed >= 0 <==> errno != 0)
      ensures forall i | 0 <= i < (if failed < 0 then |paths| else failed) :: Served(h, paths[i], |bufs[i]|, filled[i])
      ensures failed >= 0 ==> filled[failed + 1..] == bufs[failed + 1..]
      ensures failed >= 0 ==> && Log(me).JobLog? && Log(me).j == Load(paths[failed], |bufs[failed]|)
                              && LoadEnds(Log(me), errno, filled[failed])
    {
      hide Valid, Safe, LogOf, StoreEnds, LoadEnds;
      failed, errno, filled := -1, 0, bufs;
      for i := 0 to |paths|
        invariant Valid() && Free(me) && old(h) <= h && Grown(w, old(s), s)
        invariant |filled| == |bufs| && filled[i..] == bufs[i..]
        invariant forall k | 0 <= k < i :: Served(h, paths[k], |bufs[k]|, filled[k])
      {
        ghost var known := h;
        var err, read := LoadBlock(me, paths[i], |bufs[i]|);
        ServedLater(known, h, paths[..i], bufs[..i], filled[..i]);
        assert forall k | 0 <= k < i :: Served(h, paths[..i][k], |bufs[..i][k]|, filled[..i][k]);
        assert forall k | 0 <= k < i :: Served(h, paths[k], |bufs[k]|, filled[k]);
        ghost var rest := filled[i + 1..];
        assert rest == filled[i..][1..] && bufs[i + 1..] == bufs[i..][1..];
        filled := filled[i := read];
        if err != 0 { return i, err, filled; }
      }
    }
  }

  /** What was served from the blocks known earlier is served from those known later. */
  lemma ServedLater(h: History, k: History, paths: seq<Path>, bufs: seq<Bytes>, filled: seq<Bytes>)
    requires h <= k && |paths| == |bufs| == |filled|
    requires forall i | 0 <= i < |paths| :: Served(h, paths[i], |bufs[i]|, filled[i])
    ensures forall i | 0 <= i < |paths| :: Served(k, paths[i], |bufs[i]|, filled[i])
  {
    forall i | 0 <= i < |paths| ensures Served(k, paths[i], |bufs[i]|, filled[i]) {
      var b :| (paths[i], b) in h && |bufs[i]| <= |b| && filled[i] == b[..|bufs[i]|];
      assert (paths[i], b) in k;
    }
  }

  lemma AskedNow(w: Names, s: Sys, me: Pid, tmp: Path, dest: Path, src: Bytes)
    requires Begins(w, ProcOf(s, me), Store(tmp, dest, src))
    ensures (dest, src) in Asked(w, s, me, Begin(Store(tmp, dest, src)))
  {}
}
