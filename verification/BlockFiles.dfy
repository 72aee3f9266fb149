/**
 * Storing and loading key-value blocks as files, by any number of processes at once.  A store writes a
 * temporary file that it created exclusively and renames it into place; a load removes a file that turns
 * out too short.  Every system call is one step, its outcome is arbitrary within what POSIX allows, and a
 * process may die before, between and during calls.
 */
module BlockFiles {

  type Path = string
  type Bytes = seq<int>
  type Inode = nat
  type Pid = nat

  const EIO := 5
  const ENOENT := 2
  const EEXIST := 17

  /** Which names are block files and which are temporary files, and the size of each block. */
  datatype Names = Names(isDest: Path -> bool, isTemp: Path -> bool, size: Path -> nat) {
    ghost predicate Valid() { forall p :: !(isDest(p) && isTemp(p)) }
  }

  datatype Job =
    | Store(tmp: Path, dest: Path, src: Bytes)
    | Load(path: Path, size: nat)

  /** What callers may ask for: blocks go to their files under temporary names, and have their file's size. */
  predicate Allowed(w: Names, j: Job) {
    match j
    case Store(tmp, dest, src) => w.isTemp(tmp) && w.isDest(dest) && |src| == w.size(dest)
    case Load(path, size) => w.isDest(path) && size == w.size(path)
  }

  /** The call a process is about to make, or how its last job ended. */
  datatype Proc =
    | Idle
    | Checking(j: Job)
    | MakingDirs(j: Job)
    | Creating(j: Job)
    | Writing(j: Job, ino: Inode)
    | Closing(j: Job, ino: Inode)
    | Renaming(j: Job, ino: Inode)
    | Aborting(j: Job, ino: Inode, err: int)
    | Unlinking(j: Job, ino: Inode, err: int)
    | Opening(j: Job)
    | Reading(j: Job, ino: Inode)
    | Discarding(j: Job)
    | Finished(j: Job, err: int, read: Bytes)
    | Dead

  /** The directory, the contents of the inodes (those still open included), the next inode, the processes. */
  datatype Sys = Sys(dir: map<Path, Inode>, data: map<Inode, Bytes>, next: Inode, procs: map<Pid, Proc>)

  /** What happens at a step: a job begins, a call succeeds, fails, transfers `n` bytes, or the process dies
      (having written `n` bytes, if it was writing). */
  datatype Choice = Begin(j: Job) | Ok | Fail(err: int) | Partial(n: nat, err: int) | Die(n: nat)

  function ProcOf(s: Sys, pid: Pid): Proc { if pid in s.procs then s.procs[pid] else Idle }

  function To(s: Sys, pid: Pid, p: Proc): Sys { s.(procs := s.procs[pid := p]) }

  function Errno(c: Choice): int {
    match c
    case Fail(e) => if e > 0 then e else EIO
    case Partial(_, e) => if e > 0 then e else EIO
    case _ => EIO
  }

  function Take(b: Bytes, n: nat): Bytes { if n <= |b| then b[..n] else b }

  predicate Exists(s: Sys, p: Path) { p in s.dir }

  // ----- The calls -----

  /** access(dest): success means the block is already there. */
  function Check(s: Sys, pid: Pid, j: Job, c: Choice): Sys
    requires j.Store?
  {
    if c.Ok? && j.dest in s.dir then To(s, pid, Finished(j, 0, [])) else To(s, pid, MakingDirs(j))
  }

  function MakeDirs(s: Sys, pid: Pid, j: Job, c: Choice): Sys {
    if c.Ok? then To(s, pid, Creating(j)) else To(s, pid, Finished(j, Errno(c), []))
  }

  /** open(tmp, O_CREAT | O_EXCL): fails if the name exists, otherwise makes a new empty file. */
  function Create(s: Sys, pid: Pid, j: Job, c: Choice): Sys
    requires j.Store?
  {
    if j.tmp in s.dir then To(s, pid, Finished(j, EEXIST, []))
    else if !c.Ok? then To(s, pid, Finished(j, Errno(c), []))
    else
      To(Sys(s.dir[j.tmp := s.next], s.data[s.next := []], s.next + 1, s.procs), pid, Writing(j, s.next))
  }

  /** write(fd, src): all bytes, or fewer, or an error. */
  function Write(s: Sys, pid: Pid, j: Job, ino: Inode, c: Choice): Sys
    requires j.Store?
  {
    match c
    case Ok => To(s.(data := s.data[ino := j.src]), pid, Closing(j, ino))
    case Partial(n, e) =>
      var t := s.(data := s.data[ino := Take(j.src, n)]);
      if n >= |j.src| then To(t, pid, Closing(j, ino)) else To(t, pid, Aborting(j, ino, EIO))
    case _ => To(s, pid, Aborting(j, ino, Errno(c)))
  }

  function Close(s: Sys, pid: Pid, j: Job, ino: Inode, c: Choice): Sys {
    if c.Ok? then To(s, pid, Renaming(j, ino)) else To(s, pid, Unlinking(j, ino, Errno(c)))
  }

  /** rename(tmp, dest): atomic; the name `dest` refers to the new file from now on. */
  function Rename(s: Sys, pid: Pid, j: Job, ino: Inode, c: Choice): Sys
    requires j.Store?
  {
    if c.Ok? && j.tmp in s.dir then
      To(s.(dir := (s.dir - {j.tmp})[j.dest := s.dir[j.tmp]]), pid, Finished(j, 0, []))
    else To(s, pid, Unlinking(j, ino, Errno(c)))
  }

  function Unlink(s: Sys, p: Path, c: Choice): Sys {
    if c.Ok? then s.(dir := s.dir - {p}) else s
  }

  function Open(s: Sys, pid: Pid, j: Job, c: Choice): Sys
    requires j.Load?
  {
    if j.path !in s.dir then To(s, pid, Finished(j, ENOENT, []))
    else if c.Ok? then To(s, pid, Reading(j, s.dir[j.path]))
    else To(s, pid, Finished(j, Errno(c), []))
  }

  /** read(fd, size): an error leaves the file alone; fewer bytes than asked for mean a corrupt file. */
  function Read(s: Sys, pid: Pid, j: Job, ino: Inode, c: Choice): Sys
    requires j.Load?
  {
    if !c.Ok? || ino !in s.data then To(s, pid, Finished(j, Errno(c), []))
    else if |s.data[ino]| < j.size then To(s, pid, Discarding(j))
    else To(s, pid, Finished(j, 0, s.data[ino][..j.size]))
  }

  /** A process dies; a write in progress may have got anywhere. */
  function Death(s: Sys, pid: Pid, n: nat): Sys {
    match ProcOf(s, pid)
    case Writing(j, ino) => To(if j.Store? then s.(data := s.data[ino := Take(j.src, n)]) else s, pid, Dead)
    case _ => To(s, pid, Dead)
  }

  predicate WellTyped(p: Proc) {
    match p
    case Checking(j) => j.Store?
    case MakingDirs(j) => j.Store?
    case Creating(j) => j.Store?
    case Writing(j, _) => j.Store?
    case Closing(j, _) => j.Store?
    case Renaming(j, _) => j.Store?
    case Aborting(j, _, err) => j.Store? && err > 0
    case Unlinking(j, _, err) => j.Store? && err > 0
    case Opening(j) => j.Load?
    case Reading(j, _) => j.Load?
    case Discarding(j) => j.Load?
    case _ => true
  }

  /** A process starts a job when it has none. */
  predicate Begins(w: Names, p: Proc, j: Job) { (p.Idle? || p.Finished?) && Allowed(w, j) }

  /** Process `pid` makes its next call (or begins a job, or dies), with outcome `c`. */
  function Next(w: Names, s: Sys, pid: Pid, c: Choice): Sys {
    var p := ProcOf(s, pid);
    if p.Dead? || !WellTyped(p) then s
    else if c.Die? then Death(s, pid, c.n)
    else if c.Begin? then
      if Begins(w, p, c.j) then To(s, pid, if c.j.Store? then Checking(c.j) else Opening(c.j)) else s
    else Call(s, pid, p, c)
  }

  function Call(s: Sys, pid: Pid, p: Proc, c: Choice): Sys
    requires WellTyped(p)
  {
    match p
    case Checking(j) => Check(s, pid, j, c)
    case MakingDirs(j) => MakeDirs(s, pid, j, c)
    case Creating(j) => Create(s, pid, j, c)
    case Writing(j, ino) => Write(s, pid, j, ino, c)
    case Closing(j, ino) => Close(s, pid, j, ino, c)
    case Renaming(j, ino) => Rename(s, pid, j, ino, c)
    case Aborting(j, ino, err) => To(s, pid, Unlinking(j, ino, err))
    case Unlinking(j, _, err) => To(Unlink(s, j.tmp, c), pid, Finished(j, err, []))
    case Opening(j) => Open(s, pid, j, c)
    case Reading(j, ino) => Read(s, pid, j, ino, c)
    case Discarding(j) => To(Unlink(s, j.path, c), pid, Finished(j, EIO, []))
    case _ => s
  }

  /** The state after a whole schedule: which process moves, and with what outcome, at every step. */
  function Run(w: Names, s: Sys, steps: seq<(Pid, Choice)>): Sys {
    if steps == [] then s
    else
      var (pid, c) := steps[|steps| - 1];
      Next(w, Run(w, s, steps[..|steps| - 1]), pid, c)
  }

  // ----- The invariant -----

  /** The blocks seen so far: (path, contents) pairs that some store was asked to write, or that were there first. */
  type History = set<(Path, Bytes)>

  function Asked(w: Names, s: Sys, pid: Pid, c: Choice): History {
    if c.Begin? && c.j.Store? && Begins(w, ProcOf(s, pid), c.j) then {(c.j.dest, c.j.src)} else {}
  }

  /** The pairs known after a schedule. */
  function Seen(w: Names, s: Sys, h: History, steps: seq<(Pid, Choice)>): History {
    if steps == [] then h
    else
      var before := steps[..|steps| - 1];
      var (pid, c) := steps[|steps| - 1];
      Seen(w, s, h, before) + Asked(w, Run(w, s, before), pid, c)
  }

  predicate Owner(p: Proc) {
    p.Writing? || p.Closing? || p.Renaming? || p.Aborting? || p.Unlinking?
  }

  /** Directory entries are distinct existing inodes. */
  ghost predicate Linked(s: Sys) {
    && (forall p | p in s.dir :: s.dir[p] in s.data)
    && (forall i | i in s.data :: i < s.next)
    && (forall p, q | p in s.dir && q in s.dir && s.dir[p] == s.dir[q] :: p == q)
  }

  /** Every block file holds one known block, completely. */
  ghost predicate Complete(w: Names, s: Sys, h: History)
    requires Linked(s)
  {
    && (forall p | p in s.dir && w.isDest(p) :: (p, s.data[s.dir[p]]) in h)
    && (forall e | e in h :: w.isDest(e.0) && w.size(e.0) <= |e.1|)
  }

  ghost predicate Served(h: History, path: Path, size: nat, read: Bytes) {
    exists b :: (path, b) in h && size <= |b| && read == b[..size]
  }

  /** What holds of a process at each point of its job. */
  ghost predicate ProcOk(w: Names, s: Sys, h: History, p: Proc) {
    && WellTyped(p)
    && (!p.Idle? && !p.Dead? ==> Allowed(w, p.j) && (p.j.Store? ==> (p.j.dest, p.j.src) in h))
    && (Owner(p) ==> p.j.tmp in s.dir && s.dir[p.j.tmp] == p.ino)
    && (p.Closing? || p.Renaming? ==> p.ino in s.data && s.data[p.ino] == p.j.src)
    && (p.Reading? ==>
          && p.ino in s.data && (p.j.path, s.data[p.ino]) in h
          && forall q | q in s.dir && w.isTemp(q) :: s.dir[q] != p.ino)
    && !p.Discarding?
    && (p.Finished? && p.err == 0 ==>
          if p.j.Store? then p.j.dest in s.dir else Served(h, p.j.path, p.j.size, p.read))
  }

  /** No two processes own the same temporary file. */
  ghost predicate Apart(s: Sys) {
    forall x, y | x in s.procs && y in s.procs && x != y && Owner(s.procs[x]) && Owner(s.procs[y]) ::
      TmpOf(s.procs[x].j) != TmpOf(s.procs[y].j)
  }

  function TmpOf(j: Job): Path { if j.Store? then j.tmp else "" }

  ghost predicate Safe(w: Names, s: Sys, h: History) {
    && w.Valid()
    && Linked(s)
    && Complete(w, s, h)
    && (forall x | x in s.procs :: ProcOk(w, s, h, s.procs[x]))
    && Apart(s)
  }
}
