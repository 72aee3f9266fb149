/** What operations on the allocator come to, one by one and in any sequence, stated on snapshots of its state. */
module SleepRuns {
  import opened Arithmetic
  import opened Options
  import opened MemoryChunks
  import opened DeviceMemory
  import opened SleepFleet
  import opened SleepAccount

  /** None of the three 64-bit sums of the chunk arithmetic wraps. */
  predicate NoWrap(size: nat, setting: Setting, g: nat)
    requires setting.Megabytes? ==> setting.value < ULL
  {
    && 0 < g < ULL && size + g - 1 < ULL && BaseChunk(setting) + g - 1 < ULL
    && AlignUp(size, g) + AlignUp(BaseChunk(setting), g) - 1 < ULL
  }

  datatype Op = Malloc(size: nat) | Sleep(p: Addr) | Wake(p: Addr) | Free(p: Addr, given: nat)

  /** The granularity, the configured chunk size, and the device as the allocator found it. */
  datatype Config = Config(setting: Setting, g: nat, base: Dev) {
    predicate Ok() { 0 < g < ULL && (setting.Megabytes? ==> setting.value < ULL) }
  }

  /** The state of the allocator and its device, with the counts of calls against the rules, of failures that left something
      behind, of calls refused, and of ranges granted elsewhere than wished for. */
  datatype Snapshot = Snapshot(reg: Registry, lost: set<Addr>, hurt: set<Addr>, d: Dev, bad: nat, slips: nat, refused: nat, astray: nat)
  {
    function Broken(): set<Addr> { lost + hurt }
  }

  /** How operations went: how many sleeps raised, whether one crashed or reported an error, the allocations that are no longer
      sound, the entry left by an allocation that failed, and whether one was on an allocation that was not sound before. */
  datatype Report = Report(raised: nat, crashed: bool, failed: bool, harmed: set<Addr>, stale: set<Addr>, reckless: bool)

  /** Nothing to report. */
  const NOTHING := Report(0, false, false, {}, {}, false)

  /** The addresses that are freed. */
  function Freed(ops: seq<Op>): set<Addr> { set i | 0 <= i < |ops| && ops[i].Free? :: ops[i].p }

  /** The addresses that are put to sleep or woken. */
  function Addressed(ops: seq<Op>): set<Addr> { set i | 0 <= i < |ops| && (ops[i].Sleep? || ops[i].Wake?) :: ops[i].p }

  // ----- What operations are for -----

  /** What callers know of an allocation. */
  datatype Status = Status(asleep: bool, size: nat)

  ghost function Statuses(reg: Registry): map<Addr, Status> { map p | p in reg :: Status(reg[p].asleep, reg[p].Size()) }

  /** What an operation is for; `made` is the address that a new allocation gets. */
  ghost function Effect(m: map<Addr, Status>, op: Op, made: Addr, g: nat): map<Addr, Status>
    requires g > 0
  {
    match op
    case Malloc(size) => m[made := Status(false, AlignUp(size, g))]
    case Sleep(p) => if p in m then m[p := m[p].(asleep := true)] else m
    case Wake(p) => if p in m then m[p := m[p].(asleep := false)] else m
    case Free(p, _) => m - {p}
  }

  ghost function Effects(m: map<Addr, Status>, ops: seq<Op>, made: seq<Addr>, g: nat): map<Addr, Status>
    requires g > 0 && |made| == |ops|
  {
    if ops == [] then m
    else
      var n := |ops| - 1;
      Effect(Effects(m, ops[..n], made[..n], g), ops[n], made[n], g)
  }

  /** The caller does its part: the size of a new allocation does not wrap, and one that is freed is freed with its own
      size. */
  ghost predicate Proper(c: Config, m: map<Addr, Status>, op: Op)
    requires c.Ok()
  {
    && (op.Malloc? ==> NoWrap(op.size, c.setting, c.g))
    && (op.Free? && op.p in m ==> op.given == m[op.p].size)
  }

  ghost predicate AllProper(c: Config, m: map<Addr, Status>, ops: seq<Op>, made: seq<Addr>)
    requires c.Ok() && |made| == |ops|
  {
    ops == [] ||
    var n := |ops| - 1;
    AllProper(c, m, ops[..n], made[..n]) && Proper(c, Effects(m, ops[..n], made[..n], c.g), ops[n])
  }

  /** All allocations were sound, no call was refused and no range granted elsewhere. */
  ghost predicate Calm(s: Snapshot, t: Snapshot) { s.Broken() == {} && t.refused == s.refused && t.astray == s.astray }

  /** Nothing raised or failed, nothing was left behind, and all allocations are sound. */
  ghost predicate Well(s: Snapshot, t: Snapshot, r: Report) {
    r.raised == 0 && !r.crashed && !r.failed && t.slips == s.slips && t.Broken() == {}
  }

  /** If all was calm, and the caller did its part, the operation went well and did what it is for. */
  ghost predicate Smooth(c: Config, s: Snapshot, t: Snapshot, op: Op, made: Addr, r: Report)
    requires c.Ok()
  {
    Calm(s, t) && Proper(c, Statuses(s.reg), op) ==> Well(s, t, r) && Statuses(t.reg) == Effect(Statuses(s.reg), op, made, c.g)
  }

  ghost predicate AllSmooth(c: Config, s: Snapshot, t: Snapshot, ops: seq<Op>, made: seq<Addr>, r: Report)
    requires c.Ok() && |made| == |ops|
  {
    Calm(s, t) && AllProper(c, Statuses(s.reg), ops, made) ==>
      Well(s, t, r) && Statuses(t.reg) == Effects(Statuses(s.reg), ops, made, c.g)
  }

  // ----- What else they do -----

  /** Every allocation that was sound, and is neither freed nor harmed, is at its address and sound; counts only grow. */
  ghost predicate Kept(s: Snapshot, t: Snapshot, freed: set<Addr>, r: Report) {
    && t.slips >= s.slips && t.refused >= s.refused && t.astray >= s.astray
    && t.Broken() <= s.Broken() + r.harmed + r.stale && t.hurt <= s.hurt + r.harmed
    && |r.stale| <= 1 && (!r.failed ==> r.stale == {})
    && AllKept(s.reg, s.Broken(), t.reg, t.Broken(), r.harmed + freed)
  }

  /** As long as nothing is left behind and nothing reckless done, no call breaks the driver's rules (if no size wraps), and
      nothing leaks (if no sleep raises). */
  ghost predicate Clean(c: Config, s: Snapshot, t: Snapshot, wraps: bool, r: Report) {
    t.slips == s.slips && !r.reckless ==>
      && (!wraps ==> t.bad == s.bad)
      && (r.raised == 0 && !r.crashed && Accounted(c.base, s.d, s.reg, s.Broken()) ==> Accounted(c.base, t.d, t.reg, t.Broken()))
  }

  /** Which allocations an operation harms: allocating and freeing none; a sleep its own, if and only if it raises; a wake
      its own, if and only if something is left behind, or, if it is reckless, sleeping ones whose ranges meet its own. */
  ghost predicate HarmIs(s: Snapshot, t: Snapshot, op: Op, r: Report) {
    match op
    case Malloc(_) => r.harmed == {}
    case Sleep(p) => r.harmed == if r.raised > 0 then {p} else {}
    case Wake(p) =>
      if !r.reckless then r.harmed == if t.slips > s.slips then {p} else {}
      else p in s.reg && r.harmed <= Exposed(s.reg, p, s.reg[p].Size()) && (Reserved(s.d, p, s.reg[p]) ==> r.harmed == {})
    case Free(_, _) => r.harmed == {}
  }

  /** Everything about one operation. */
  ghost predicate StepOk(c: Config, s: Snapshot, t: Snapshot, op: Op, made: Addr, r: Report)
    requires c.Ok()
  {
    && Kept(s, t, Freed([op]), r)
    && HarmIs(s, t, op, r)
    && r.raised <= (if op.Sleep? then 1 else 0)
    && (r.reckless ==> (op.Wake? || op.Free?) && op.p in s.hurt)
    && Clean(c, s, t, op.Malloc? && !NoWrap(op.size, c.setting, c.g), r)
    && Smooth(c, s, t, op, made, r)
  }

  /** Unless some operation was on an allocation that was not sound, only allocations put to sleep or woken are harmed, at
      most one for each of the `mishaps`. */
  ghost predicate HarmBounded(ops: seq<Op>, hurt: set<Addr>, harmed: set<Addr>, mishaps: int, reckless: bool) {
    && (!reckless ==> harmed <= Addressed(ops) && |harmed| <= mishaps)
    && (reckless ==> exists i | 0 <= i < |ops| :: (ops[i].Wake? || ops[i].Free?) && ops[i].p in hurt + harmed)
    && (mishaps == 0 && hurt == {} ==> !reckless)
  }

  /** Everything about a sequence of operations. */
  ghost predicate RunOk(c: Config, s: Snapshot, t: Snapshot, ops: seq<Op>, made: seq<Addr>, r: Report)
    requires c.Ok() && |made| == |ops|
  {
    && Kept(s, t, Freed(ops), r)
    && HarmBounded(ops, s.hurt, r.harmed, r.raised + t.slips - s.slips, r.reckless)
    && Clean(c, s, t, exists i | 0 <= i < |ops| :: ops[i].Malloc? && !NoWrap(ops[i].size, c.setting, c.g), r)
    && AllSmooth(c, s, t, ops, made, r)
  }

  lemma NothingYet(c: Config, s: Snapshot)
    requires c.Ok()
    ensures RunOk(c, s, s, [], [], NOTHING)
  {
    hide Accounted;
  }

  // ----- One more operation -----

  /** The report on a run that one operation is added to. */
  function Then(r: Report, q: Report): Report {
    Report(r.raised + q.raised, q.crashed, q.failed, r.harmed + q.harmed, q.stale, r.reckless || q.reckless)
  }

  lemma FreedMore(ops: seq<Op>, op: Op)
    ensures Freed(ops + [op]) == Freed(ops) + Freed([op]) && Addressed(ops) <= Addressed(ops + [op])
    ensures op.Sleep? || op.Wake? ==> op.p in Addressed(ops + [op])
  {
    var all := ops + [op];
    assert all[|ops|] == op && [op][0] == op;
    assert forall i | 0 <= i < |ops| :: all[i] == ops[i];
    forall p | p in Freed(ops) + Freed([op]) ensures p in Freed(all) {
      if p in Freed(ops) { var i :| 0 <= i < |ops| && ops[i].Free? && ops[i].p == p; assert all[i].Free?; }
    }
    forall p | p in Addressed(ops) ensures p in Addressed(all) {
      var i :| 0 <= i < |ops| && (ops[i].Sleep? || ops[i].Wake?) && ops[i].p == p;
      assert all[i].Sleep? || all[i].Wake?;
    }
  }

  lemma KeptNext(s: Snapshot, t: Snapshot, u: Snapshot, ops: seq<Op>, op: Op, r: Report, q: Report)
    requires Kept(s, t, Freed(ops), r) && Kept(t, u, Freed([op]), q) && !r.failed
    ensures Kept(s, u, Freed(ops + [op]), Then(r, q))
  {
    hide Freed, AllKept;
    FreedMore(ops, op);
    KeptTwice(s.reg, s.Broken(), t.reg, t.Broken(), u.reg, u.Broken(), r.harmed + Freed(ops), q.harmed + Freed([op]),
              r.harmed + q.harmed + Freed(ops + [op]));
  }

  lemma SizeOfBoth(a: set<Addr>, b: set<Addr>)
    ensures |a + b| <= |a| + |b|
  {
    assert |a + b| == |a| + |b| - |a * b|;
  }

  lemma HarmNext(s: Snapshot, t: Snapshot, u: Snapshot, ops: seq<Op>, op: Op, r: Report, q: Report)
    requires HarmBounded(ops, s.hurt, r.harmed, r.raised + t.slips - s.slips, r.reckless)
    requires s.slips <= t.slips <= u.slips && t.hurt <= s.hurt + r.harmed
    requires HarmIs(t, u, op, q) && q.raised <= (if op.Sleep? then 1 else 0)
    requires q.reckless ==> (op.Wake? || op.Free?) && op.p in t.hurt
    ensures HarmBounded(ops + [op], s.hurt, r.harmed + q.harmed, r.raised + q.raised + u.slips - s.slips, r.reckless || q.reckless)
  {
    hide Exposed, Reserved, Addressed;
    FreedMore(ops, op);
    SizeOfBoth(r.harmed, q.harmed);
    var all := ops + [op];
    if r.reckless {
      var i :| 0 <= i < |ops| && (ops[i].Wake? || ops[i].Free?) && ops[i].p in s.hurt + r.harmed;
      assert all[i] == ops[i] && all[i].p in s.hurt + (r.harmed + q.harmed);
    } else if q.reckless {
      assert all[|ops|] == op && op.p in s.hurt + (r.harmed + q.harmed);
    }
  }

  lemma CleanNext(c: Config, s: Snapshot, t: Snapshot, u: Snapshot, wraps0: bool, wraps1: bool, r: Report, q: Report)
    requires Clean(c, s, t, wraps0, r) && Clean(c, t, u, wraps1, q) && s.slips <= t.slips <= u.slips && !r.crashed
    ensures Clean(c, s, u, wraps0 || wraps1, Then(r, q))
  {
    hide Accounted;
  }

  lemma SmoothNext(c: Config, s: Snapshot, t: Snapshot, u: Snapshot, ops: seq<Op>, made: seq<Addr>, op: Op, a: Addr, r: Report, q: Report)
    requires c.Ok() && |made| == |ops| && AllSmooth(c, s, t, ops, made, r) && Smooth(c, t, u, op, a, q)
    requires s.refused <= t.refused <= u.refused && s.astray <= t.astray <= u.astray
    ensures AllSmooth(c, s, u, ops + [op], made + [a], Then(r, q))
  {
    hide Effect, Proper, Statuses;
    assert (ops + [op])[..|ops|] == ops && (made + [a])[..|ops|] == made;
  }

  /** A run and one more operation are a run. */
  lemma RunNext(c: Config, s: Snapshot, t: Snapshot, u: Snapshot, ops: seq<Op>, made: seq<Addr>, op: Op, a: Addr, r: Report, q: Report)
    requires c.Ok() && |made| == |ops| && RunOk(c, s, t, ops, made, r) && StepOk(c, t, u, op, a, q) && !r.failed && !r.crashed
    ensures RunOk(c, s, u, ops + [op], made + [a], Then(r, q))
  {
    hide Clean, AllSmooth, Smooth, HarmBounded, HarmIs, Freed, NoWrap;
    assert s.slips <= t.slips <= u.slips && t.hurt <= s.hurt + r.harmed;
    KeptNext(s, t, u, ops, op, r, q);
    HarmNext(s, t, u, ops, op, r, q);
    SmoothNext(c, s, t, u, ops, made, op, a, r, q);
    var w0 := exists i | 0 <= i < |ops| :: ops[i].Malloc? && !NoWrap(ops[i].size, c.setting, c.g);
    var w1 := op.Malloc? && !NoWrap(op.size, c.setting, c.g);
    CleanNext(c, s, t, u, w0, w1, r, q);
    var all := ops + [op];
    assert all[|ops|] == op && forall i | 0 <= i < |ops| :: all[i] == ops[i];
    assert w0 || w1 <==> exists i | 0 <= i < |all| :: all[i].Malloc? && !NoWrap(all[i].size, c.setting, c.g);
  }

  // ----- The operations -----

  lemma StatusesHave(reg: Registry, p: Addr)
    ensures p in Statuses(reg) <==> p in reg
    ensures p in reg ==> Statuses(reg)[p] == Status(reg[p].asleep, reg[p].Size())
  {
    hide Sum;
  }

  /** An operation that does not apply changes nothing. */
  lemma IdleOk(c: Config, s: Snapshot, op: Op, made: Addr)
    requires c.Ok() && !op.Malloc? && (op.p in s.reg && op.p !in s.lost ==> !op.Free? && s.reg[op.p].asleep == op.Sleep?)
    ensures StepOk(c, s, s, op, made, NOTHING)
  {
    hide Statuses, Accounted, Sum, Freed, Exposed, Reserved;
    StatusesHave(s.reg, op.p);
  }

  lemma MallocEffect(reg: Registry, reg': Registry, p: Addr, size: nat, g: nat)
    requires g > 0 && reg'.Keys == reg.Keys + {p} && !reg'[p].asleep && reg'[p].Size() == AlignUp(size, g) && p !in reg
    requires forall q | q in reg :: reg'[q] == reg[q]
    ensures Statuses(reg') == Effect(Statuses(reg), Op.Malloc(size), p, g)
  {
    hide Sum, AlignUp;
  }

  lemma MallocKept(s: Snapshot, t: Snapshot, p: Option<Addr>, made: Addr, freed: set<Addr>, r: Report)
    requires t.slips >= s.slips && t.refused >= s.refused && t.astray == s.astray && t.hurt <= s.hurt && r.harmed == {}
    requires p.Some? ==> t.Broken() == s.Broken() - {made} && r.stale == {}
    requires (p.None? ==> |r.stale| <= 1 && t.Broken() == s.Broken() + r.stale) && (!r.failed ==> r.stale == {})
    requires forall q | q in s.reg && q !in s.Broken() :: q in t.reg && q !in t.Broken() && t.reg[q] == s.reg[q]
    ensures Kept(s, t, freed, r)
  {
    hide AllKept;
    SoundKept(s.reg, s.Broken(), t.reg, t.Broken());
    KeptMore(s.reg, s.Broken(), t.reg, t.Broken(), {}, r.harmed + freed);
  }

  lemma MallocSmooth(c: Config, s: Snapshot, t: Snapshot, size: nat, made: Addr, r: Report)
    requires c.Ok() && (Calm(s, t) && NoWrap(size, c.setting, c.g) ==>
      && Well(s, t, r) && t.reg.Keys == s.reg.Keys + {made} && made !in s.reg
      && !t.reg[made].asleep && t.reg[made].Size() == AlignUp(size, c.g) && forall q | q in s.reg :: t.reg[q] == s.reg[q])
    ensures Smooth(c, s, t, Op.Malloc(size), made, r)
  {
    hide Sum, AlignUp, NoWrap, Statuses, Effect, Well;
    if Calm(s, t) && NoWrap(size, c.setting, c.g) { MallocEffect(s.reg, t.reg, made, size, c.g); }
  }

  lemma MallocOk(c: Config, s: Snapshot, t: Snapshot, size: nat, p: Option<Addr>, made: Addr, r: Report)
    requires c.Ok() && r == Report(0, r.crashed, r.failed, {}, r.stale, false)
    requires t.slips >= s.slips && t.refused >= s.refused && t.astray == s.astray && t.hurt <= s.hurt
    requires (p.Some? <==> !r.failed && !r.crashed) && (p.Some? ==> p.value == made)
    requires p.Some? ==> && t.slips == s.slips && t.reg.Keys == s.reg.Keys + {made} && t.Broken() == s.Broken() - {made}
                         && (made in s.reg ==> made in s.Broken())
                         && !t.reg[made].asleep && t.reg[made].Size() == AlignUp(size, c.g) && r.stale == {}
    requires (p.None? ==> |r.stale| <= 1 && t.Broken() == s.Broken() + r.stale) && (r.crashed ==> r.stale == {})
    requires forall q | q in s.reg && q !in s.Broken() :: q in t.reg && q !in t.Broken() && t.reg[q] == s.reg[q]
    requires NoWrap(size, c.setting, c.g) && t.refused == s.refused ==> p.Some?
    requires NoWrap(size, c.setting, c.g) && t.slips == s.slips ==> t.bad == s.bad
    requires Accounted(c.base, s.d, s.reg, s.Broken()) && !r.crashed && t.slips == s.slips ==> Accounted(c.base, t.d, t.reg, t.Broken())
    ensures StepOk(c, s, t, Op.Malloc(size), made, r)
  {
    hide Accounted, Sum, Freed, AlignUp, NoWrap, AllKept, Smooth, Kept;
    assert Kept(s, t, Freed([Op.Malloc(size)]), r) by { MallocKept(s, t, p, made, Freed([Op.Malloc(size)]), r); }
    MallocSmooth(c, s, t, size, made, r);
  }

  lemma SleepOk(c: Config, s: Snapshot, t: Snapshot, p: Addr, made: Addr, r: Report)
    requires c.Ok() && r == Report(r.raised, false, false, if r.raised > 0 then {p} else {}, {}, false) && r.raised <= 1
    requires p in s.reg && t.reg == s.reg[p := s.reg[p].(asleep := true)]
    requires t.slips >= s.slips && t.refused >= s.refused && t.astray >= s.astray && t.bad == s.bad
    requires t.lost == s.lost && t.hurt == if r.raised > 0 then s.hurt + {p} else s.hurt
    requires AllKept(s.reg, s.Broken(), t.reg, t.Broken(), r.harmed)
    requires r.raised > 0 <==> t.refused > s.refused || t.astray > s.astray
    requires r.raised == 0 ==> t.slips == s.slips
    requires Accounted(c.base, s.d, s.reg, s.Broken()) && r.raised == 0 ==> Accounted(c.base, t.d, t.reg, t.Broken())
    ensures StepOk(c, s, t, Op.Sleep(p), made, r)
  {
    hide Accounted, Sum, Freed, AllKept;
    KeptMore(s.reg, s.Broken(), t.reg, t.Broken(), r.harmed, r.harmed + Freed([Op.Sleep(p)]));
  }

  lemma WakeEffect(reg: Registry, reg': Registry, p: Addr, made: Addr, g: nat)
    requires g > 0 && reg'.Keys == reg.Keys && p in reg && reg'[p].sizes == reg[p].sizes && !reg'[p].asleep
    requires forall q | q in reg && q != p :: reg'[q] == reg[q]
    ensures Statuses(reg') == Effect(Statuses(reg), Op.Wake(p), made, g)
  {
    hide Sum;
  }

  lemma WakeSmooth(c: Config, s: Snapshot, t: Snapshot, p: Addr, made: Addr, r: Report)
    requires c.Ok() && p in s.reg && t.reg.Keys == s.reg.Keys && t.reg[p].sizes == s.reg[p].sizes
    requires forall q | q in s.reg && q != p :: t.reg[q] == s.reg[q]
    requires Calm(s, t) ==> Well(s, t, r) && !t.reg[p].asleep
    ensures Smooth(c, s, t, Op.Wake(p), made, r)
  {
    hide Statuses, Effect, Well, Sum;
    if Calm(s, t) { WakeEffect(s.reg, t.reg, p, made, c.g); }
  }

  lemma WakeClean(c: Config, s: Snapshot, t: Snapshot, p: Addr, r: Report)
    requires r.reckless == (p in s.hurt) && (p !in s.hurt ==> t.bad == s.bad)
    requires p !in s.hurt && t.slips == s.slips && Accounted(c.base, s.d, s.reg, s.Broken()) ==> Accounted(c.base, t.d, t.reg, t.Broken())
    ensures Clean(c, s, t, false, r)
  {
    hide Accounted;
  }

  lemma WakeOk(c: Config, s: Snapshot, t: Snapshot, p: Addr, made: Addr, again: bool, r: Report)
    requires c.Ok() && r == Report(0, false, false, r.harmed, {}, p in s.hurt)
    requires p in s.reg && t.reg.Keys == s.reg.Keys && t.reg[p].sizes == s.reg[p].sizes && t.reg[p].asleep == again
    requires forall q | q in s.reg && q != p :: t.reg[q] == s.reg[q]
    requires t.slips >= s.slips && t.refused >= s.refused && t.astray == s.astray && t.bad >= s.bad
    requires t.Broken() <= s.Broken() + r.harmed && t.hurt <= s.hurt + r.harmed
    requires AllKept(s.reg, s.Broken(), t.reg, t.Broken(), r.harmed)
    requires again <==> t.refused > s.refused || t.bad > s.bad
    requires p !in s.hurt ==> r.harmed == (if t.slips == s.slips then {} else {p}) && t.bad == s.bad && (!again ==> t.slips == s.slips)
    requires p !in s.hurt && t.slips == s.slips && Accounted(c.base, s.d, s.reg, s.Broken()) ==> Accounted(c.base, t.d, t.reg, t.Broken())
    requires p in s.hurt ==> r.harmed <= Exposed(s.reg, p, s.reg[p].Size()) && (Reserved(s.d, p, s.reg[p]) ==> r.harmed == {})
    ensures StepOk(c, s, t, Op.Wake(p), made, r)
  {
    hide Accounted, Sum, Freed, AllKept, Exposed, Reserved, Smooth, Clean;
    KeptMore(s.reg, s.Broken(), t.reg, t.Broken(), r.harmed, r.harmed + Freed([Op.Wake(p)]));
    assert Clean(c, s, t, false, r) by { WakeClean(c, s, t, p, r); }
    WakeSmooth(c, s, t, p, made, r);
  }

  lemma FreeOk(c: Config, s: Snapshot, t: Snapshot, p: Addr, given: nat, made: Addr, r: Report)
    requires c.Ok() && r == Report(0, false, r.failed, {}, {}, p in s.hurt)
    requires p in s.reg && t.reg == s.reg - {p} && t.lost == s.lost && t.hurt == s.hurt - {p}
    requires t.slips >= s.slips && t.refused >= s.refused && t.astray == s.astray
    requires AllKept(s.reg, s.Broken(), t.reg, t.Broken(), {p})
    requires (t.slips == s.slips <==> !r.failed) && (!r.failed ==> t.bad == s.bad)
    requires p !in s.hurt && given == s.reg[p].Size() ==> (!r.failed <==> t.refused == s.refused)
    requires Accounted(c.base, s.d, s.reg, s.Broken()) && p !in s.hurt && !r.failed ==> Accounted(c.base, t.d, t.reg, t.Broken())
    ensures StepOk(c, s, t, Op.Free(p, given), made, r)
  {
    hide Accounted, Sum, Freed, AllKept;
    FreedOne(Op.Free(p, given));
    KeptMore(s.reg, s.Broken(), t.reg, t.Broken(), {p}, r.harmed + Freed([Op.Free(p, given)]));
  }

  lemma FreedOne(op: Op)
    requires op.Free?
    ensures op.p in Freed([op])
  {
    assert [op][0] == op;
  }
}
