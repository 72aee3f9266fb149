/**
 * Waiting for a condition on a shared buffer: check, arm the monitor on the buffer's cache line, check again,
 * sleep until the line is written.  Other threads may store to the line between any two steps.
 */
module SpinLoop {
  const WRAP := 0x1_0000_0000

  datatype Outcome = Running | Returned(result: bool) | Raised

  /** Where the waiter is: about to check, to look at the clock, to arm, to check again, asleep on the monitor,
      pausing (no monitor), or finished. */
  datatype Pc = Check | Clock | Arm | Recheck | Asleep | Pause | Finished(outcome: Outcome)

  /** The condition, the monitor (armed; triggered since), the waiter, its pass counter. */
  datatype State = State(condition: bool, armed: bool, triggered: bool, pc: Pc, iteration: nat)

  /** What does not change during a wait. */
  datatype Setup = Setup(haveTimeout: bool, monitors: bool)

  /** A step: another thread stores to the line (and so sets the condition), the waiter's callback or clock raises
      an error or not, the clock shows that the time is up or not, or a sleeping waiter wakes without cause. */
  datatype Event = Store(condition: bool) | Go(timeUp: bool, raises: bool) | Stir

  const START := State(false, false, false, Check, 0)

  function Waiter(u: Setup, s: State, timeUp: bool, raises: bool): State {
    match s.pc
    case Check =>
      if raises then s.(pc := Finished(Raised))
      else if s.condition then s.(pc := Finished(Returned(true)))
      else s.(pc := Clock)
    case Clock =>
      if u.haveTimeout && s.iteration % 16 == 0 && (raises || timeUp) then
        s.(pc := Finished(if raises then Raised else Returned(false)))
      else s.(iteration := (s.iteration + 1) % WRAP, pc := if u.monitors then Arm else Pause)
    case Arm => s.(armed := true, triggered := false, pc := Recheck)
    case Recheck =>
      if raises then s.(pc := Finished(Raised))
      else if s.condition then s.(pc := Finished(Returned(true)))
      else s.(pc := Asleep)
    case Asleep => if s.triggered then s.(armed := false, pc := Check) else s
    case Pause => s.(pc := Check)
    case Finished(_) => s
  }

  function Next(u: Setup, s: State, e: Event): State {
    match e
    case Store(c) => s.(condition := c, triggered := s.triggered || s.armed)
    case Go(timeUp, raises) => Waiter(u, s, timeUp, raises)
    case Stir => if s.pc == Asleep then s.(armed := false, pc := Check) else s
  }

  function Run(u: Setup, s: State, events: seq<Event>): State {
    if events == [] then s else Next(u, Run(u, s, events[..|events| - 1]), events[|events| - 1])
  }

  /** From arming to waking the monitor is armed, and a condition that came true after the second check has
      triggered it. */
  ghost predicate Inv(s: State) {
    && s.iteration < WRAP
    && (s.pc == Recheck || s.pc == Asleep ==> s.armed)
    && (s.pc == Asleep && s.condition ==> s.triggered)
  }

  lemma NextInv(u: Setup, s: State, e: Event)
    requires Inv(s)
    ensures Inv(Next(u, s, e))
  {}

  lemma {:induction false} RunInv(u: Setup, initially: bool, events: seq<Event>)
    ensures Inv(Run(u, START.(condition := initially), events))
  {
    hide Next;
    if events != [] {
      RunInv(u, initially, events[..|events| - 1]);
      NextInv(u, Run(u, START.(condition := initially), events[..|events| - 1]), events[|events| - 1]);
    }
  }

  /** No wake-up is lost: in every interleaving, a waiter asleep while the condition holds has been triggered, so
      that its next step is to wake, and the one after that to return (unless the condition goes away or the
      callback raises an error). */
  lemma NoLostWakeUp(u: Setup, initially: bool, events: seq<Event>, timeUp: bool)
    ensures var s := Run(u, START.(condition := initially), events);
            s.pc == Asleep && s.condition ==>
              && s.triggered
              && Run(u, s, [Go(timeUp, false), Go(timeUp, false)]).pc == Finished(Returned(true))
  {
    RunInv(u, initially, events);
    var s := Run(u, START.(condition := initially), events);
    if s.pc == Asleep && s.condition {
      var two := [Go(timeUp, false), Go(timeUp, false)];
      assert two[..1] == [Go(timeUp, false)] && two[..1][..0] == [];
      assert Run(u, s, two[..1]) == Next(u, s, Go(timeUp, false));
    }
  }

  // ----- The clock -----

  /** What one pass of the loop meets: what the callback says before and after arming, and the time passed. */
  datatype Pass = Pass(first: Reply, elapsed: real, clockFails: bool, second: Reply)

  datatype Reply = Yes | No | Error

  predicate HaveTimeout(timeout: real) { timeout > 0.000000001 }

  /** Whether pass number `i` of a loop whose counter started at `start` looks at the clock. */
  predicate Looks(timeout: real, start: nat, i: nat) { HaveTimeout(timeout) && (start + i) % 16 == 0 }

  predicate ClockQuiet(passes: seq<Pass>, timeout: real, start: nat, i: nat)
    requires i < |passes|
  {
    Looks(timeout, start, i) ==> passes[i].elapsed < timeout && !passes[i].clockFails
  }

  /** Nothing ends the loop in the first `n` passes. */
  ghost predicate Quiet(passes: seq<Pass>, timeout: real, monitors: bool, start: nat, n: nat)
    requires n <= |passes|
  {
    forall i | 0 <= i < n ::
      passes[i].first == No && ClockQuiet(passes, timeout, start, i) && (monitors ==> passes[i].second == No)
  }

  /** The callback gives `reply` in pass `i`, before or after arming. */
  predicate Replies(passes: seq<Pass>, timeout: real, monitors: bool, start: nat, i: nat, reply: Reply)
    requires i < |passes|
  {
    || passes[i].first == reply
    || (passes[i].first == No && ClockQuiet(passes, timeout, start, i) && monitors && passes[i].second == reply)
  }

  // ----- The loop is the machine, pass by pass -----

  lemma {:induction false} RunConcat(u: Setup, s: State, a: seq<Event>, b: seq<Event>)
    ensures Run(u, s, a + b) == Run(u, Run(u, s, a), b)
  {
    hide Next;
    if b == [] {
      assert a + b == a;
    } else {
      RunConcat(u, s, a, b[..|b| - 1]);
      assert (a + b)[..|a + b| - 1] == a + b[..|b| - 1];
    }
  }

  lemma RunOne(u: Setup, s: State, e: Event)
    ensures Run(u, s, [e]) == Next(u, s, e)
  {
    assert [e][..0] == [];
  }

  lemma RunTwo(u: Setup, s: State, e: Event, e': Event)
    ensures Run(u, s, [e, e']) == Next(u, Next(u, s, e), e')
  {
    hide Next;
    RunOne(u, s, e);
    assert [e, e'][..1] == [e];
  }

  lemma {:induction false} FinishedStays(u: Setup, s: State, events: seq<Event>)
    requires s.pc.Finished?
    ensures Run(u, s, events).pc == s.pc
  {
    if events != [] { FinishedStays(u, s, events[..|events| - 1]); }
  }

  /** The callback replies: the condition is what it says, unless it raises an error. */
  function Asking(r: Reply): seq<Event> { [Store(r == Yes), Go(false, r == Error)] }

  /** The events of one pass: the first reply, the clock, and either arming, the second reply and waking, or a pause. */
  function PassEvents(u: Setup, p: Pass, timeout: real): seq<Event> {
    Asking(p.first) + ([Go(p.elapsed >= timeout, p.clockFails)]
      + if u.monitors then [Go(false, false)] + (Asking(p.second) + [Stir]) else [Go(false, false)])
  }

  function AllEvents(u: Setup, passes: seq<Pass>, timeout: real): seq<Event> {
    if passes == [] then [] else AllEvents(u, passes[..|passes| - 1], timeout) + PassEvents(u, passes[|passes| - 1], timeout)
  }

  /** What a pass comes to when the counter shows `iteration`. */
  function PassOutcome(u: Setup, p: Pass, timeout: real, iteration: nat): Outcome {
    if p.first == Error then Raised
    else if p.first == Yes then Returned(true)
    else if u.haveTimeout && iteration % 16 == 0 && p.clockFails then Raised
    else if u.haveTimeout && iteration % 16 == 0 && p.elapsed >= timeout then Returned(false)
    else if !u.monitors || p.second == No then Running
    else if p.second == Error then Raised
    else Returned(true)
  }

  ghost predicate After(t: State, o: Outcome, iteration: nat) {
    if o.Running? then t.pc == Check && t.iteration == iteration else t.pc == Finished(o)
  }

  /** The second half of a pass, from the clock on. */
  lemma ClockOn(u: Setup, s: State, p: Pass, timeout: real)
    requires s.pc == Clock && p.first == No
    ensures var rest := if u.monitors then [Go(false, false)] + (Asking(p.second) + [Stir]) else [Go(false, false)];
            After(Run(u, s, [Go(p.elapsed >= timeout, p.clockFails)] + rest), PassOutcome(u, p, timeout, s.iteration), (s.iteration + 1) % WRAP)
  {
    hide Run;
    var rest := if u.monitors then [Go(false, false)] + (Asking(p.second) + [Stir]) else [Go(false, false)];
    var e := Go(p.elapsed >= timeout, p.clockFails);
    var t := Next(u, s, e);
    RunConcat(u, s, [e], rest);
    RunOne(u, s, e);
    if t.pc.Finished? {
      FinishedStays(u, t, rest);
    } else if u.monitors {
      ArmOn(u, t, p);
    } else {
      RunOne(u, t, Go(false, false));
    }
  }

  /** Arming, asking again, and waking. */
  lemma ArmOn(u: Setup, s: State, p: Pass)
    requires s.pc == Arm
    ensures After(Run(u, s, [Go(false, false)] + (Asking(p.second) + [Stir])),
                  if p.second == No then Running else if p.second == Error then Raised else Returned(true), s.iteration)
  {
    hide Run;
    var armed := Next(u, s, Go(false, false));
    RunConcat(u, s, [Go(false, false)], Asking(p.second) + [Stir]);
    RunOne(u, s, Go(false, false));
    RunConcat(u, armed, Asking(p.second), [Stir]);
    RunTwo(u, armed, Store(p.second == Yes), Go(false, p.second == Error));
    RunOne(u, Run(u, armed, Asking(p.second)), Stir);
  }

  /** One pass of the loop is one run of its events. */
  lemma PassIsRun(u: Setup, s: State, p: Pass, timeout: real)
    requires s.pc == Check
    ensures After(Run(u, s, PassEvents(u, p, timeout)), PassOutcome(u, p, timeout, s.iteration), (s.iteration + 1) % WRAP)
  {
    hide Run;
    var rest := [Go(p.elapsed >= timeout, p.clockFails)]
      + if u.monitors then [Go(false, false)] + (Asking(p.second) + [Stir]) else [Go(false, false)];
    RunConcat(u, s, Asking(p.first), rest);
    RunTwo(u, s, Store(p.first == Yes), Go(false, p.first == Error));
    var t := Run(u, s, Asking(p.first));
    if t.pc.Finished? {
      FinishedStays(u, t, rest);
    } else {
      ClockOn(u, t, p, timeout);
    }
  }

  /** The machine after the events of the first `n` passes. */
  ghost function PassRun(u: Setup, passes: seq<Pass>, timeout: real, start: nat, n: nat): State
    requires n <= |passes|
  {
    Run(u, START.(iteration := start), AllEvents(u, passes[..n], timeout))
  }

  lemma PassRunNext(u: Setup, passes: seq<Pass>, timeout: real, start: nat, n: nat)
    requires n < |passes|
    ensures PassRun(u, passes, timeout, start, n + 1) == Run(u, PassRun(u, passes, timeout, start, n), PassEvents(u, passes[n], timeout))
  {
    hide Run, PassEvents;
    assert passes[..n + 1][..n] == passes[..n];
    RunConcat(u, START.(iteration := start), AllEvents(u, passes[..n], timeout), PassEvents(u, passes[n], timeout));
  }

  /** Once the machine has finished, further passes do not matter. */
  lemma {:induction false} PassRunStays(u: Setup, passes: seq<Pass>, timeout: real, start: nat, n: nat)
    requires n <= |passes| && PassRun(u, passes, timeout, start, n).pc.Finished?
    ensures PassRun(u, passes, timeout, start, |passes|).pc == PassRun(u, passes, timeout, start, n).pc
    decreases |passes| - n
  {
    hide PassRun, Run;
    if n < |passes| {
      PassRunNext(u, passes, timeout, start, n);
      FinishedStays(u, PassRun(u, passes, timeout, start, n), PassEvents(u, passes[n], timeout));
      PassRunStays(u, passes, timeout, start, n + 1);
    }
  }

  /** What pass `n` decides is what the machine ends with. */
  lemma Decided(u: Setup, passes: seq<Pass>, timeout: real, start: nat, n: nat)
    requires n < |passes| && PassRun(u, passes, timeout, start, n).pc == Check
    requires PassRun(u, passes, timeout, start, n).iteration == (start + n) % WRAP
    ensures var o := PassOutcome(u, passes[n], timeout, (start + n) % WRAP);
            && After(PassRun(u, passes, timeout, start, n + 1), o, (start + n + 1) % WRAP)
            && (!o.Running? ==> PassRun(u, passes, timeout, start, |passes|).pc == Finished(o))
  {
    hide PassRun, Run, PassEvents;
    PassRunNext(u, passes, timeout, start, n);
    PassIsRun(u, PassRun(u, passes, timeout, start, n), passes[n], timeout);
    NextIteration(start + n);
    if !PassOutcome(u, passes[n], timeout, (start + n) % WRAP).Running? { PassRunStays(u, passes, timeout, start, n + 1); }
  }

  /** The loop over given passes; its counter wraps at 32 bits.  It ends in the first pass that is not quiet, for
      the reason that pass gives; `Running` means that all passes were quiet.  It ends as the machine does when it
      meets the same replies and times. */
  method Spin(passes: seq<Pass>, timeout: real, monitors: bool, start: nat) returns (r: Outcome)
    requires start < WRAP
    ensures r.Running? ==> Quiet(passes, timeout, monitors, start, |passes|)
    ensures r == Returned(true) ==>
              exists i | 0 <= i < |passes| :: Quiet(passes, timeout, monitors, start, i) && Replies(passes, timeout, monitors, start, i, Yes)
    ensures r == Returned(false) ==> timeout > 0.000000001
    ensures r == Returned(false) ==>
              exists i | 0 <= i < |passes| :: Quiet(passes, timeout, monitors, start, i) && Looks(timeout, start, i) && passes[i].elapsed >= timeout
    ensures r == Raised ==>
              exists i | 0 <= i < |passes| :: Quiet(passes, timeout, monitors, start, i)
                && (Replies(passes, timeout, monitors, start, i, Error) || (Looks(timeout, start, i) && passes[i].clockFails))
    ensures PassRun(Setup(HaveTimeout(timeout), monitors), passes, timeout, start, |passes|).pc == if r.Running? then Check else Finished(r)
  {
    hide PassRun;
    ghost var u := Setup(HaveTimeout(timeout), monitors);
    PassRunStarts(u, passes, timeout, start);
    var iteration := start;
    for i := 0 to |passes|
      invariant iteration == (start + i) % WRAP
      invariant Quiet(passes, timeout, monitors, start, i)
      invariant PassRun(u, passes, timeout, start, i).pc == Check && PassRun(u, passes, timeout, start, i).iteration == iteration
    {
      var p := passes[i];
      Decided(u, passes, timeout, start, i);
      if p.first == Error { return Raised; }
      if p.first == Yes { return Returned(true); }
      SixteenDividesWrap(start + i);
      if HaveTimeout(timeout) && iteration % 16 == 0 {
        if p.clockFails { return Raised; }
        if p.elapsed >= timeout { return Returned(false); }
      }
      NextIteration(start + i);
      iteration := (iteration + 1) % WRAP;
      if monitors {
        if p.second == Error { return Raised; }
        if p.second == Yes { return Returned(true); }
      }
    }
    return Running;
  }

  lemma PassRunStarts(u: Setup, passes: seq<Pass>, timeout: real, start: nat)
    ensures PassRun(u, passes, timeout, start, 0) == START.(iteration := start)
  {}

  lemma SixteenDividesWrap(x: nat)
    ensures x % WRAP % 16 == x % 16
  {
    assert x == x / WRAP * WRAP + x % WRAP && WRAP == 16 * 0x1000_0000;
  }

  lemma NextIteration(x: nat)
    ensures (x % WRAP + 1) % WRAP == (x + 1) % WRAP
  {}

  /** Once the time is up, no 16 passes in a row are quiet, wherever the 32-bit counter stands. */
  lemma TimeUpIsNoticed(passes: seq<Pass>, timeout: real, monitors: bool, start: nat, n: nat)
    requires timeout > 0.000000001 && n + 16 <= |passes|
    requires forall i | n <= i < n + 16 :: passes[i].elapsed >= timeout
    ensures !Quiet(passes, timeout, monitors, start, n + 16)
  {
    var i := n + (16 - (start + n) % 16) % 16;
    assert (start + i) % 16 == 0 && n <= i < n + 16;
    assert passes[i].elapsed >= timeout && !ClockQuiet(passes, timeout, start, i);
  }
}
