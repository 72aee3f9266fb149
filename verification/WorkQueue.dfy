/**
 * Clients that share one queue of prompts.  The queue is filled with all prompts and then with one sentinel
 * per client; a client that takes a sentinel stops.
 */
module WorkQueue {
  datatype Item<T> = Prompt(job: T) | Sentinel

  datatype Client<T> = Waiting | Working(job: T) | Stopped

  datatype State<T> = State(queue: seq<Item<T>>, clients: seq<Client<T>>, results: seq<T>)

  function Prompts<T>(jobs: seq<T>): seq<Item<T>> { seq(|jobs|, i requires 0 <= i < |jobs| => Prompt(jobs[i])) }

  function Idle<T>(n: nat): seq<Client<T>> { seq(n, i => Waiting) }

  function Start<T>(jobs: seq<T>, n: nat): State<T> {
    State(Prompts(jobs) + seq(n, i => Sentinel), Idle(n), [])
  }

  /** One turn of client `c`: take the next item, or finish the prompt at hand.  Waiting on an empty queue and
      having stopped change nothing. */
  function Turn<T>(s: State<T>, c: nat): State<T> {
    if c >= |s.clients| then s
    else
      match s.clients[c]
      case Stopped => s
      case Working(job) => State(s.queue, s.clients[c := Waiting], s.results + [job])
      case Waiting =>
        if s.queue == [] then s
        else
          match s.queue[0]
          case Sentinel => State(s.queue[1..], s.clients[c := Stopped], s.results)
          case Prompt(job) => State(s.queue[1..], s.clients[c := Working(job)], s.results)
  }

  function Run<T>(s: State<T>, turns: seq<nat>): State<T> {
    if turns == [] then s else Turn(Run(s, turns[..|turns| - 1]), turns[|turns| - 1])
  }

  predicate AllStopped<T(==)>(s: State<T>) { forall c | 0 <= c < |s.clients| :: s.clients[c] == Stopped }

  // ----- Counting -----

  /** How often a prompt is in the queue, and how often in the hands of clients. */
  ghost function Queued<T>(q: seq<Item<T>>, job: T): nat {
    if q == [] then 0 else (if q[0] == Prompt(job) then 1 else 0) + Queued(q[1..], job)
  }

  ghost function InHand<T>(cs: seq<Client<T>>, job: T): nat {
    if cs == [] then 0 else (if cs[0] == Working(job) then 1 else 0) + InHand(cs[1..], job)
  }

  function Sentinels<T>(q: seq<Item<T>>): nat {
    if q == [] then 0 else (if q[0].Sentinel? then 1 else 0) + Sentinels(q[1..])
  }

  function StoppedCount<T>(cs: seq<Client<T>>): nat {
    if cs == [] then 0 else (if cs[0].Stopped? then 1 else 0) + StoppedCount(cs[1..])
  }

  function WorkingCount<T>(cs: seq<Client<T>>): nat {
    if cs == [] then 0 else (if cs[0].Working? then 1 else 0) + WorkingCount(cs[1..])
  }

  /** All prompts come before all sentinels. */
  ghost predicate Ordered<T>(q: seq<Item<T>>) {
    forall i, j | 0 <= i < j < |q| && q[i].Sentinel? :: q[j].Sentinel?
  }

  ghost predicate Inv<T(!new)>(s: State<T>, jobs: seq<T>, n: nat) {
    && |s.clients| == n
    && (forall job :: Queued(s.queue, job) + InHand(s.clients, job) + multiset(s.results)[job] == multiset(jobs)[job])
    && Sentinels(s.queue) + StoppedCount(s.clients) == n
    && Ordered(s.queue)
    && (StoppedCount(s.clients) > 0 ==> forall i | 0 <= i < |s.queue| :: s.queue[i].Sentinel?)
  }

  function Count(b: bool): nat { if b then 1 else 0 }

  lemma {:induction false} OneClient<T>(cs: seq<Client<T>>, c: nat, x: Client<T>, job: T)
    requires c < |cs|
    ensures InHand(cs[c := x], job) + Count(cs[c] == Working(job)) == InHand(cs, job) + Count(x == Working(job))
  {
    if c == 0 {
      assert cs[c := x][1..] == cs[1..];
    } else {
      assert cs[c := x][1..] == cs[1..][c - 1 := x];
      OneClient(cs[1..], c - 1, x, job);
    }
  }

  lemma {:induction false} OneStop<T>(cs: seq<Client<T>>, c: nat, x: Client<T>)
    requires c < |cs|
    ensures StoppedCount(cs[c := x]) + Count(cs[c].Stopped?) == StoppedCount(cs) + Count(x.Stopped?)
    ensures WorkingCount(cs[c := x]) + Count(cs[c].Working?) == WorkingCount(cs) + Count(x.Working?)
  {
    if c == 0 {
      assert cs[c := x][1..] == cs[1..];
    } else {
      assert cs[c := x][1..] == cs[1..][c - 1 := x];
      OneStop(cs[1..], c - 1, x);
    }
  }

  lemma {:induction false} StartCounts<T>(jobs: seq<T>, n: nat, job: T)
    ensures Queued(Start(jobs, n).queue, job) == multiset(jobs)[job]
    decreases |jobs|, n
  {
    var q := Start(jobs, n).queue;
    if jobs != [] {
      StartCounts(jobs[1..], n, job);
      assert q[1..] == Start(jobs[1..], n).queue;
      assert jobs == [jobs[0]] + jobs[1..];
    } else if n > 0 {
      StartCounts(jobs, n - 1, job);
      assert q[1..] == Start(jobs, n - 1).queue;
    }
  }

  lemma {:induction false} StartSentinels<T>(jobs: seq<T>, n: nat)
    ensures Sentinels(Start(jobs, n).queue) == n
    decreases |jobs|, n
  {
    var q := Start(jobs, n).queue;
    if jobs != [] {
      StartSentinels(jobs[1..], n);
      assert q[1..] == Start(jobs[1..], n).queue;
    } else if n > 0 {
      StartSentinels(jobs, n - 1);
      assert q[1..] == Start(jobs, n - 1).queue;
    }
  }

  lemma {:induction false} NobodyYet<T(!new)>(n: nat)
    ensures forall job: T :: InHand(Idle(n), job) == 0
    ensures StoppedCount<T>(Idle(n)) == 0
  {
    if n > 0 {
      NobodyYet<T>(n - 1);
      assert Idle<T>(n)[1..] == Idle<T>(n - 1);
    }
  }

  lemma StartInv<T(!new)>(jobs: seq<T>, n: nat)
    ensures Inv(Start(jobs, n), jobs, n)
  {
    hide Queued, InHand, Sentinels, StoppedCount;
    forall job ensures Queued(Start(jobs, n).queue, job) == multiset(jobs)[job] { StartCounts(jobs, n, job); }
    StartSentinels(jobs, n);
    NobodyYet<T>(n);
  }

  lemma TurnInv<T(!new)>(s: State<T>, jobs: seq<T>, n: nat, c: nat)
    requires Inv(s, jobs, n)
    ensures Inv(Turn(s, c), jobs, n)
  {
    hide InHand, StoppedCount, WorkingCount;
    var t := Turn(s, c);
    if t != s {
      OneStop(s.clients, c, t.clients[c]);
      forall job
        ensures Queued(t.queue, job) + InHand(t.clients, job) + multiset(t.results)[job] == multiset(jobs)[job]
      {
        OneClient(s.clients, c, t.clients[c], job);
      }
    }
  }

  lemma {:induction false} RunInv<T(!new)>(jobs: seq<T>, n: nat, turns: seq<nat>)
    ensures Inv(Run(Start(jobs, n), turns), jobs, n)
  {
    hide Turn, Inv, Start;
    if turns == [] {
      StartInv(jobs, n);
    } else {
      RunInv(jobs, n, turns[..|turns| - 1]);
      TurnInv(Run(Start(jobs, n), turns[..|turns| - 1]), jobs, n, turns[|turns| - 1]);
    }
  }

  // ----- The end of a run -----

  lemma {:induction false} AllStoppedCounts<T(!new)>(cs: seq<Client<T>>)
    requires forall c | 0 <= c < |cs| :: cs[c].Stopped?
    ensures StoppedCount(cs) == |cs| && WorkingCount(cs) == 0 && forall job :: InHand(cs, job) == 0
  {
    if cs != [] { AllStoppedCounts(cs[1..]); }
  }

  /** When all clients have stopped, each has taken one sentinel, the queue is empty, and the results hold every
      prompt exactly once; in every interleaving, given that there is a client at all. */
  lemma EveryPromptOnce<T(!new)>(jobs: seq<T>, n: nat, turns: seq<nat>)
    requires n > 0 && AllStopped(Run(Start(jobs, n), turns))
    ensures var s := Run(Start(jobs, n), turns);
            s.queue == [] && multiset(s.results) == multiset(jobs) && |s.results| == |jobs|
  {
    var s := Run(Start(jobs, n), turns);
    RunInv(jobs, n, turns);
    AllStoppedCounts(s.clients);
    assert s.queue == [];
    forall job ensures multiset(s.results)[job] == multiset(jobs)[job] { assert Queued(s.queue, job) == 0; }
    assert multiset(s.results) == multiset(jobs);
    assert |multiset(s.results)| == |multiset(jobs)|;
  }

  /** Without clients nothing is ever done: the run is complete exactly when there was nothing to do. */
  lemma CompleteIff<T(!new)>(jobs: seq<T>, n: nat)
    ensures (forall turns: seq<nat> | AllStopped(Run(Start(jobs, n), turns)) ::
              multiset(Run(Start(jobs, n), turns).results) == multiset(jobs))
       <==> n > 0 || jobs == []
  {
    if n > 0 {
      forall turns: seq<nat> | AllStopped(Run(Start(jobs, n), turns))
        ensures multiset(Run(Start(jobs, n), turns).results) == multiset(jobs)
      {
        EveryPromptOnce(jobs, n, turns);
      }
    } else {
      forall turns: seq<nat> ensures Run(Start(jobs, n), turns).results == [] { NoClients(jobs, turns); }
      var none: seq<nat> := [];
      assert AllStopped(Run(Start(jobs, n), none)) && Run(Start(jobs, n), none).results == [];
      if jobs != [] { assert jobs[0] in multiset(jobs) && multiset(Run(Start(jobs, n), none).results) != multiset(jobs); }
    }
  }

  lemma {:induction false} NoClients<T>(jobs: seq<T>, turns: seq<nat>)
    ensures Run(Start(jobs, 0), turns) == Start(jobs, 0)
  {
    if turns != [] { NoClients(jobs, turns[..|turns| - 1]); }
  }

  // ----- Progress -----

  /** How many turns the items of a queue take: one for a sentinel, and for a prompt one to take it and one to
      finish it. */
  function TurnsFor<T>(q: seq<Item<T>>): nat {
    if q == [] then 0 else (if q[0].Prompt? then 2 else 1) + TurnsFor(q[1..])
  }

  /** How many turns are left to do. */
  function Left<T>(s: State<T>): nat { TurnsFor(s.queue) + WorkingCount(s.clients) }

  /** A client that has not stopped is never stuck: its turn brings the run one turn closer to its end. */
  lemma NeverStuck<T(!new)>(s: State<T>, jobs: seq<T>, n: nat, c: nat)
    requires Inv(s, jobs, n) && c < n && !s.clients[c].Stopped?
    ensures Left(Turn(s, c)) == Left(s) - 1
  {
    hide InHand, Queued, WorkingCount, StoppedCount;
    OneStop(s.clients, c, Turn(s, c).clients[c]);
    SomeoneWaits(s.clients, c);
  }

  lemma {:induction false} SomeoneWaits<T>(cs: seq<Client<T>>, c: nat)
    requires c < |cs| && !cs[c].Stopped?
    ensures StoppedCount(cs) < |cs|
  {
    if c > 0 {
      SomeoneWaits(cs[1..], c - 1);
    } else {
      StoppedAtMost(cs[1..]);
    }
  }

  lemma {:induction false} StoppedAtMost<T>(cs: seq<Client<T>>)
    ensures StoppedCount(cs) <= |cs|
  {
    if cs != [] { StoppedAtMost(cs[1..]); }
  }

  /** Client `c` has not stopped. */
  predicate Going<T>(s: State<T>, c: nat) { c < |s.clients| && !s.clients[c].Stopped? }

  /** How many of the turns go to a client that has not stopped. */
  function Useful<T>(s: State<T>, turns: seq<nat>): nat {
    if turns == [] then 0
    else
      var n := |turns| - 1;
      Useful(s, turns[..n]) + Count(Going(Run(s, turns[..n]), turns[n]))
  }

  /** What is left and what was done add up to the same, all the time. */
  lemma {:induction false} TurnsCount<T(!new)>(jobs: seq<T>, n: nat, turns: seq<nat>)
    ensures Left(Run(Start(jobs, n), turns)) + Useful(Start(jobs, n), turns) == Left(Start(jobs, n))
  {
    hide Inv, Left, Start;
    if turns != [] {
      var i := |turns| - 1;
      var s := Run(Start(jobs, n), turns[..i]);
      TurnsCount(jobs, n, turns[..i]);
      RunInv(jobs, n, turns[..i]);
      if Going(s, turns[i]) { GoesOn(s, jobs, n, turns[i]); } else { assert Turn(s, turns[i]) == s; }
    }
  }

  lemma GoesOn<T(!new)>(s: State<T>, jobs: seq<T>, n: nat, c: nat)
    requires Inv(s, jobs, n) && Going(s, c)
    ensures Left(Turn(s, c)) == Left(s) - 1
  {
    NeverStuck(s, jobs, n, c);
  }

  lemma {:induction false} NobodyWorks<T>(n: nat)
    ensures WorkingCount<T>(Idle(n)) == 0
  {
    if n > 0 {
      NobodyWorks<T>(n - 1);
      assert Idle<T>(n)[1..] == Idle<T>(n - 1);
    }
  }

  lemma {:induction false} StartTurns<T>(jobs: seq<T>, n: nat)
    ensures TurnsFor(Start(jobs, n).queue) == 2 * |jobs| + n
    decreases |jobs|, n
  {
    var q := Start(jobs, n).queue;
    if jobs != [] {
      StartTurns(jobs[1..], n);
      assert q[1..] == Start(jobs[1..], n).queue;
    } else if n > 0 {
      StartTurns(jobs, n - 1);
      assert q[1..] == Start(jobs, n - 1).queue;
    }
  }

  /** Every run ends, and when: no schedule has more than two useful turns for each prompt and one for each client,
      and all clients have stopped exactly when it has had them all. */
  lemma EveryRunEnds<T(!new)>(jobs: seq<T>, n: nat, turns: seq<nat>)
    ensures Useful(Start(jobs, n), turns) <= 2 * |jobs| + n
    ensures n > 0 ==> (AllStopped(Run(Start(jobs, n), turns)) <==> Useful(Start(jobs, n), turns) == 2 * |jobs| + n)
  {
    hide Inv, Useful, Run, TurnsFor, WorkingCount;
    var s := Run(Start(jobs, n), turns);
    TurnsCount(jobs, n, turns);
    RunInv(jobs, n, turns);
    NobodyWorks<T>(n);
    StartTurns(jobs, n);
    assert Left(Start(jobs, n)) == 2 * |jobs| + n;
    if AllStopped(s) {
      if n > 0 { EveryPromptOnce(jobs, n, turns); }
      AllStoppedCounts(s.clients);
      NoTurns<T>();
    } else {
      var c :| 0 <= c < |s.clients| && s.clients[c] != Stopped;
      GoesOn(s, jobs, n, c);
    }
  }

  lemma NoTurns<T>()
    ensures TurnsFor<T>([]) == 0
  {}

  // ----- Order -----

  function JobsIn<T>(q: seq<Item<T>>): seq<T> {
    if q == [] then [] else (if q[0].Prompt? then [q[0].job] else []) + JobsIn(q[1..])
  }

  function HeldBy<T>(c: Client<T>): seq<T> { if c.Working? then [c.job] else [] }

  lemma {:induction false} StartJobs<T>(jobs: seq<T>, n: nat)
    ensures JobsIn(Start(jobs, n).queue) == jobs
    decreases |jobs|, n
  {
    var q := Start(jobs, n).queue;
    if jobs != [] {
      StartJobs(jobs[1..], n);
      assert q[1..] == Start(jobs[1..], n).queue;
    } else if n > 0 {
      StartJobs(jobs, n - 1);
      assert q[1..] == Start(jobs, n - 1).queue;
    }
  }

  /** Results are recorded in the order in which prompts are finished: what is recorded stays, and more comes after it. */
  lemma {:induction false} ResultsGrow<T>(s: State<T>, turns: seq<nat>)
    ensures s.results <= Run(s, turns).results
  {
    if turns != [] { ResultsGrow(s, turns[..|turns| - 1]); }
  }

  /** What a single client has done, what it has in hand, and what is queued. */
  ghost predicate Keeps<T>(s: State<T>, jobs: seq<T>) {
    |s.clients| == 1 && s.results + HeldBy(s.clients[0]) + JobsIn(s.queue) == jobs
  }

  lemma TurnKeeps<T>(s: State<T>, jobs: seq<T>, c: nat)
    requires Keeps(s, jobs)
    ensures Keeps(Turn(s, c), jobs)
  {
    var t := Turn(s, c);
    if c == 0 && s.clients[0].Waiting? && s.queue != [] {
      assert HeldBy(t.clients[0]) + JobsIn(t.queue) == JobsIn(s.queue);
      assert t.results + HeldBy(t.clients[0]) + JobsIn(t.queue) == t.results + (HeldBy(t.clients[0]) + JobsIn(t.queue));
      assert s.results + HeldBy(s.clients[0]) == s.results;
    } else if c == 0 && s.clients[0].Working? {
      assert t.results + HeldBy(t.clients[0]) == s.results + HeldBy(s.clients[0]);
    }
  }

  /** A single client takes the prompts in order: what it has done, what it has in hand and what is queued make up the list. */
  lemma {:induction false} InOrder<T>(jobs: seq<T>, turns: seq<nat>)
    ensures Keeps(Run(Start(jobs, 1), turns), jobs)
  {
    hide Turn;
    if turns == [] {
      StartJobs(jobs, 1);
    } else {
      hide Keeps;
      InOrder(jobs, turns[..|turns| - 1]);
      TurnKeeps(Run(Start(jobs, 1), turns[..|turns| - 1]), jobs, turns[|turns| - 1]);
    }
  }
}
