/** The device-aware job scheduler: a FIFO queue, a device pool, a parallelism cap and fail-fast.

    A child process is an oracle: the return code it will exit with and the number of the first
    `poll` call (counted over the whole run) that finds it gone. Every relative timing of children
    and polls is some choice of these numbers. */
module JobScheduler {
  import opened Prelude

  datatype Job = Job(name: string, deviceCount: int)
  datatype Child = Child(returncode: int, exitAt: nat)

  // Jobs are named by their position in the input list.
  datatype Running = Running(job: nat, devices: seq<int>)
  datatype JobResult = JobResult(job: nat, returncode: int, devices: seq<int>)

  // ---- Conservation ----------------------------------------------------------------------------

  function Held(rs: seq<Running>): multiset<int> {
    if rs == [] then multiset{} else multiset(rs[0].devices) + Held(rs[1..])
  }

  function RunningJobs(rs: seq<Running>): multiset<nat> {
    if rs == [] then multiset{} else multiset{rs[0].job} + RunningJobs(rs[1..])
  }

  function ResultJobs(rs: seq<JobResult>): multiset<nat> {
    if rs == [] then multiset{} else multiset{rs[0].job} + ResultJobs(rs[1..])
  }

  // The first n jobs, each once.
  function Prefix(n: nat): multiset<nat> {
    if n == 0 then multiset{} else Prefix(n - 1) + multiset{n - 1}
  }

  lemma {:induction false} Launched(rs: seq<Running>, r: Running)
    ensures Held(rs + [r]) == Held(rs) + multiset(r.devices)
    ensures RunningJobs(rs + [r]) == RunningJobs(rs) + multiset{r.job}
  {
    if rs == [] {
      assert rs + [r] == [r] && [r][1..] == [];
    } else {
      assert (rs + [r])[1..] == rs[1..] + [r];
      Launched(rs[1..], r);
    }
  }

  lemma {:induction false} Reaped(rs: seq<Running>, i: nat)
    requires i < |rs|
    ensures Held(rs[..i] + rs[i + 1..]) + multiset(rs[i].devices) == Held(rs)
    ensures RunningJobs(rs[..i] + rs[i + 1..]) + multiset{rs[i].job} == RunningJobs(rs)
  {
    hide Held, RunningJobs;
    var rest := rs[..i] + rs[i + 1..];
    Cons(rs);
    if i == 0 {
      assert rest == rs[1..];
    } else {
      var tail := rs[1..];
      var tailRest := tail[..i - 1] + tail[i..];
      WithoutAt(rs, i);
      Cons(rest);
      Reaped(tail, i - 1);
      Regroup(multiset(rs[0].devices), Held(tailRest), multiset(rs[i].devices));
      Regroup(multiset{rs[0].job}, RunningJobs(tailRest), multiset{rs[i].job});
    }
  }

  lemma Cons(rs: seq<Running>)
    requires rs != []
    ensures Held(rs) == multiset(rs[0].devices) + Held(rs[1..])
    ensures RunningJobs(rs) == multiset{rs[0].job} + RunningJobs(rs[1..])
  {
  }

  lemma Regroup<T>(a: multiset<T>, b: multiset<T>, c: multiset<T>)
    ensures (a + b) + c == a + (b + c)
  {
  }

  lemma WithoutAt(rs: seq<Running>, i: nat)
    requires 0 < i < |rs|
    ensures var rest := rs[..i] + rs[i + 1..];
            rest != [] && rest[0] == rs[0] && rest[1..] == rs[1..][..i - 1] + rs[1..][i..] && rs[i] == rs[1..][i - 1]
  {
  }

  lemma {:induction false} Recorded(rs: seq<JobResult>, r: JobResult)
    ensures ResultJobs(rs + [r]) == ResultJobs(rs) + multiset{r.job}
  {
    if rs == [] {
      assert rs + [r] == [r] && [r][1..] == [];
    } else {
      assert (rs + [r])[1..] == rs[1..] + [r];
      Recorded(rs[1..], r);
    }
  }

  lemma {:induction false} Sizes(rs: seq<Running>, qs: seq<JobResult>, n: nat)
    ensures |RunningJobs(rs)| == |rs| && |ResultJobs(qs)| == |qs| && |Prefix(n)| == n
    decreases |rs| + |qs| + n
  {
    if rs != [] { Sizes(rs[1..], qs, n); }
    if qs != [] { Sizes(rs, qs[1..], n); }
    if n > 0 { Sizes(rs, qs, n - 1); }
  }

  // ---- States ----------------------------------------------------------------------------------

  // The arguments of a run, with the children it will launch.
  datatype Plan = Plan(jobs: seq<Job>, pool: seq<int>, maxParallel: Option<int>, failFast: bool, children: seq<Child>)

  // `launched` counts the jobs started so far; `launchedAt` is its value when each result was
  // recorded. Both are history.
  datatype State = State(queue: seq<nat>, free: seq<int>, running: seq<Running>, results: seq<JobResult>,
                         failed: bool, cancelled: bool, polls: nat, launched: nat, launchedAt: seq<nat>)

  // No job needs more than the whole pool: what the static check establishes.
  ghost predicate Placeable(p: Plan) {
    |p.children| == |p.jobs| && forall j | 0 <= j < |p.jobs| :: p.jobs[j].deviceCount <= |p.pool|
  }

  // The jobs not started yet, in input order.
  function Rest(from: nat, to: nat): (q: seq<nat>)
    requires from <= to
    ensures |q| == to - from && forall i | 0 <= i < |q| :: q[i] == from + i
  {
    seq(to - from, i requires 0 <= i < to - from => from + i)
  }

  // Free devices and running jobs' devices together are the pool, and the jobs started so far are
  // the first ones of the list, each either running or with one result.
  ghost predicate Conserved(p: Plan, s: State) {
    && multiset(s.free) + Held(s.running) == multiset(p.pool)
    && s.launched <= |p.jobs|
    && RunningJobs(s.running) + ResultJobs(s.results) == Prefix(s.launched)
  }

  // A job holds as many devices as it asked for.
  predicate Exact(p: Plan, job: nat, devices: seq<int>) {
    job < |p.jobs| && (p.jobs[job].deviceCount >= 0 ==> |devices| == p.jobs[job].deviceCount)
  }

  // The cap lets nothing start at all.
  predicate AdmitsNothing(p: Plan) { p.maxParallel.Some? && p.maxParallel.value <= 0 }

  ghost predicate RunningOk(p: Plan, s: State) {
    && (forall r | r in s.running :: r.job < s.launched && Exact(p, r.job, r.devices))
    && (p.maxParallel.Some? ==> |s.running| <= p.maxParallel.value || s.running == [])
    && (AdmitsNothing(p) ==> s.launched == 0)
  }

  ghost predicate ResultsOk(p: Plan, s: State) {
    && (forall r | r in s.results ::
          r.job < s.launched && Exact(p, r.job, r.devices)
          && r.job < |p.children| && r.returncode == p.children[r.job].returncode)
    && (s.failed <==> exists r | r in s.results :: r.returncode != 0)
    && |s.launchedAt| == |s.results|
  }

  // What is queued is what has not been started, unless the run was cancelled; and under fail-fast
  // nothing has been started since a failing result.
  ghost predicate QueueOk(p: Plan, s: State) {
    && s.launched <= |p.jobs|
    && (if s.cancelled then s.queue == [] else s.queue == Rest(s.launched, |p.jobs|))
    && (s.cancelled ==> p.failFast && s.failed)
    && (p.failFast ==> forall i | 0 <= i < |s.results| && i < |s.launchedAt| && s.results[i].returncode != 0 ::
          s.launchedAt[i] == s.launched)
  }

  ghost predicate Valid(p: Plan, s: State) {
    Placeable(p) && Conserved(p, s) && RunningOk(p, s) && ResultsOk(p, s) && QueueOk(p, s)
  }

  lemma {:induction false} HeldBy(rs: seq<Running>, i: nat)
    requires i < |rs|
    ensures multiset(rs[i].devices) <= Held(rs)
  {
    if i > 0 { HeldBy(rs[1..], i - 1); }
  }

  // Exclusive use: from a pool without repetition, a device of a running job is held once and not free.
  lemma HeldDeviceIsNotFree(p: Plan, s: State, i: nat, d: int)
    requires Conserved(p, s) && (forall x :: multiset(p.pool)[x] <= 1)
    requires i < |s.running| && d in s.running[i].devices
    ensures d !in s.free && multiset(s.running[i].devices)[d] == 1
  {
    HeldBy(s.running, i);
    assert multiset(p.pool)[d] == multiset(s.free)[d] + Held(s.running)[d];
    assert d in multiset(s.running[i].devices);
    assert d in s.free <==> multiset(s.free)[d] > 0;
  }

  // ... and no two running jobs hold the same one.
  lemma JobsShareNoDevice(p: Plan, s: State, i: nat, j: nat, d: int)
    requires Conserved(p, s) && (forall x :: multiset(p.pool)[x] <= 1)
    requires i < j < |s.running| && d in s.running[i].devices
    ensures d !in s.running[j].devices
  {
    var rs := s.running;
    var rest := rs[..i] + rs[i + 1..];
    Reaped(rs, i);
    assert rest[j - 1] == rs[j];
    HeldBy(rest, j - 1);
    assert multiset(p.pool)[d] == multiset(s.free)[d] + Held(rs)[d];
    assert Held(rs)[d] == Held(rest)[d] + multiset(rs[i].devices)[d];
    assert d in multiset(rs[i].devices);
    assert d in rs[j].devices <==> multiset(rs[j].devices)[d] > 0;
  }

  // ---- Starting and collecting one job ---------------------------------------------------------

  // Where `list[:count]` and `list[count:]` cut a list of this length.
  function Cut(length: nat, count: int): (i: nat)
    requires count <= length
    ensures i <= length && (count >= 0 ==> i == count)
  {
    if count >= 0 then count else if length + count >= 0 then length + count else 0
  }

  predicate Capped(p: Plan, s: State) { p.maxParallel.Some? && |s.running| >= p.maxParallel.value }

  // The head of the queue cannot be started now.
  predicate Blocked(p: Plan, s: State)
    requires s.queue != [] && s.queue[0] < |p.jobs|
  {
    Capped(p, s) || |s.free| < p.jobs[s.queue[0]].deviceCount
  }

  // The head of the queue gets the first devices of the free list.
  function Launch(p: Plan, s: State): State
    requires s.queue != [] && s.queue[0] < |p.jobs| && !Blocked(p, s)
  {
    var cut := Cut(|s.free|, p.jobs[s.queue[0]].deviceCount);
    s.(queue := s.queue[1..], free := s.free[cut..],
       running := s.running + [Running(s.queue[0], s.free[..cut])], launched := s.launched + 1)
  }

  // The i-th running child has exited: its devices go to the end of the free list.
  function Collect(p: Plan, s: State, i: nat): State
    requires i < |s.running| && s.running[i].job < |p.children|
  {
    var r := s.running[i];
    var result := JobResult(r.job, p.children[r.job].returncode, r.devices);
    s.(running := s.running[..i] + s.running[i + 1..], free := s.free + r.devices, results := s.results + [result],
       failed := s.failed || result.returncode != 0, polls := s.polls + i + 1, launchedAt := s.launchedAt + [s.launched])
  }

  lemma QueueHead(p: Plan, s: State)
    requires Valid(p, s) && s.queue != []
    ensures s.queue[0] == s.launched < |p.jobs| && !s.cancelled
  {
  }

  lemma LaunchConserves(p: Plan, s: State)
    requires Conserved(p, s) && s.queue != [] && s.queue[0] < |p.jobs| && !Blocked(p, s) && s.queue[0] == s.launched
    ensures Conserved(p, Launch(p, s))
  {
    var cut := Cut(|s.free|, p.jobs[s.queue[0]].deviceCount);
    SplitMultiset(s.free, cut);
    Launched(s.running, Running(s.queue[0], s.free[..cut]));
    hide Held, RunningJobs, ResultJobs;
    Moved(multiset(s.free), multiset(s.free[..cut]), multiset(s.free[cut..]), Held(s.running), multiset(p.pool));
    Added(RunningJobs(s.running), ResultJobs(s.results), Prefix(s.launched), multiset{s.launched});
  }

  lemma Moved<T>(whole: multiset<T>, taken: multiset<T>, left: multiset<T>, held: multiset<T>, pool: multiset<T>)
    requires taken + left == whole && whole + held == pool
    ensures left + (held + taken) == pool
  {
  }

  lemma Added<T>(a: multiset<T>, b: multiset<T>, c: multiset<T>, x: multiset<T>)
    requires a + b == c
    ensures (a + x) + b == c + x
  {
  }

  lemma SplitMultiset(a: seq<int>, cut: nat)
    requires cut <= |a|
    ensures multiset(a[..cut]) + multiset(a[cut..]) == multiset(a)
  {
    assert a == a[..cut] + a[cut..];
  }

  lemma LaunchQueue(p: Plan, s: State)
    requires QueueOk(p, s) && ResultsOk(p, s) && s.queue != [] && s.queue[0] < |p.jobs| && !Blocked(p, s)
    requires p.failFast ==> !s.failed
    ensures QueueOk(p, Launch(p, s)) && ResultsOk(p, Launch(p, s))
  {
    var t := Launch(p, s);
    assert t.queue == Rest(t.launched, |p.jobs|);
    forall i | 0 <= i < |s.results| && s.results[i].returncode != 0 ensures s.failed { assert s.results[i] in s.results; }
  }

  lemma LaunchKeepsValid(p: Plan, s: State)
    requires Valid(p, s) && s.queue != [] && s.queue[0] < |p.jobs| && !Blocked(p, s)
    requires p.failFast ==> !s.failed
    ensures Valid(p, Launch(p, s))
  {
    QueueHead(p, s);
    LaunchConserves(p, s);
    LaunchQueue(p, s);
    hide Conserved, QueueOk, ResultsOk;
    assert RunningOk(p, Launch(p, s));
  }

  lemma CollectKeepsValid(p: Plan, s: State, i: nat)
    requires Valid(p, s) && i < |s.running| && s.running[i].job < |p.children|
    ensures Valid(p, Collect(p, s, i))
  {
    var t := Collect(p, s, i);
    Reaped(s.running, i);
    Recorded(s.results, t.results[|s.results|]);
    assert s.running[i] in s.running;
    assert Conserved(p, t);
    assert RunningOk(p, t);
    CollectResults(p, s, i);
  }

  lemma CollectResults(p: Plan, s: State, i: nat)
    requires ResultsOk(p, s) && RunningOk(p, s) && QueueOk(p, s) && i < |s.running| && s.running[i].job < |p.children|
    ensures ResultsOk(p, Collect(p, s, i)) && QueueOk(p, Collect(p, s, i))
  {
    var t := Collect(p, s, i);
    assert s.running[i] in s.running;
    var added := t.results[|s.results|];
    assert added in t.results && forall r :: r in t.results <==> r in s.results || r == added;
  }

  // Clearing the queue after the first failing result.
  lemma CancelKeepsValid(p: Plan, s: State)
    requires Valid(p, s) && p.failFast && s.failed
    ensures Valid(p, s.(cancelled := true, queue := []))
  {
  }

  // ---- The run ---------------------------------------------------------------------------------

  lemma {:induction false} WholePool(p: Plan, s: State)
    requires Valid(p, s) && s.running == []
    ensures |s.free| == |p.pool|
  {
    assert |multiset(s.free)| == |s.free| && |multiset(p.pool)| == |p.pool|;
  }

  // The `break` of the main loop is reached with jobs still queued only when the cap admits nothing.
  lemma OnlyTheCapStalls(p: Plan, s: State)
    requires Valid(p, s) && s.queue != [] && s.running == [] && s.queue[0] < |p.jobs| && Blocked(p, s)
    ensures p.maxParallel.Some? && p.maxParallel.value <= 0
  {
    WholePool(p, s);
  }

  // A bound on the polls that can still find a child running.
  function LastExit(children: seq<Child>): (n: nat)
    ensures forall c | c in children :: c.exitAt <= n
  {
    if children == [] then 0
    else
      var n := LastExit(children[1..]);
      if children[0].exitAt <= n then n else children[0].exitAt
  }

  // Polled one after the other, the i-th running child is the first found gone.
  ghost predicate FirstGone(p: Plan, running: seq<Running>, polls: nat, i: nat) {
    && i < |running| && (forall k | 0 <= k <= i :: running[k].job < |p.children|)
    && polls + i >= p.children[running[i].job].exitAt
    && forall k | 0 <= k < i :: polls + k < p.children[running[k].job].exitAt
  }

  /** One `run_jobs` call in flight. */
  class Scheduler {
    const plan: Plan
    var queue: seq<nat>
    var free: seq<int>
    var running: seq<Running>
    var results: seq<JobResult>
    var failed: bool
    var cancelled: bool
    var polls: nat
    ghost var launched: nat
    ghost var launchedAt: seq<nat>

    ghost function Value(): State
      reads this
    {
      State(queue, free, running, results, failed, cancelled, polls, launched, launchedAt)
    }

    constructor (plan: Plan)
      requires Placeable(plan)
      ensures this.plan == plan && Valid(plan, Value())
      ensures running == [] && results == [] && !failed && !cancelled && polls == 0
    {
      this.plan := plan;
      queue, free, running, results := Rest(0, |plan.jobs|), plan.pool, [], [];
      failed, cancelled, polls, launched, launchedAt := false, false, 0, 0, [];
    }

    // Start the head of the queue if the cap and the free devices allow it; never skip ahead.
    method TryLaunchHead() returns (started: bool)
      requires Valid(plan, Value()) && queue != [] && queue[0] < |plan.jobs|
      modifies this
      ensures started <==> !Blocked(plan, old(Value()))
      ensures Value() == if started then Launch(plan, old(Value())) else old(Value())
    {
      if plan.maxParallel.Some? && |running| >= plan.maxParallel.value { return false; }
      var head := queue[0];
      if |free| < plan.jobs[head].deviceCount { return false; }
      var cut := Cut(|free|, plan.jobs[head].deviceCount);
      var granted := free[..cut];
      free, queue := free[cut..], queue[1..];
      running := running + [Running(head, granted)];
      launched := launched + 1;
      started := true;
    }

    // Start jobs until the head is blocked or the queue is empty.
    method Fill()
      requires Valid(plan, Value()) && (plan.failFast ==> !failed)
      modifies this
      ensures Valid(plan, Value())
      ensures results == old(results) && failed == old(failed) && cancelled == old(cancelled) && polls == old(polls)
      ensures |queue| + |running| == old(|queue| + |running|)
      ensures queue != [] ==> queue[0] < |plan.jobs| && Blocked(plan, Value())
    {
      hide Valid, Blocked;
      var more := true;
      while queue != [] && more
        invariant Valid(plan, Value())
        invariant results == old(results) && failed == old(failed) && cancelled == old(cancelled) && polls == old(polls)
        invariant |queue| + |running| == old(|queue| + |running|)
        invariant !more ==> queue != [] && queue[0] < |plan.jobs| && Blocked(plan, Value())
        decreases |queue|, more
      {
        QueueHead(plan, Value());
        if !Blocked(plan, Value()) { LaunchKeepsValid(plan, Value()); }
        more := TryLaunchHead();
      }
    }

    // Cancel on the first failing result under fail-fast; otherwise refill the freed slot.
    method AfterReap()
      requires Valid(plan, Value())
      modifies this
      ensures Valid(plan, Value()) && |queue| + |running| <= old(|queue| + |running|)
      ensures plan.failFast ==> !failed || cancelled
      ensures queue != [] ==> queue[0] < |plan.jobs| && Blocked(plan, Value())
    {
      CancelledQueue(plan, Value());
      hide Valid, Blocked;
      if plan.failFast && failed && !cancelled {
        CancelKeepsValid(plan, Value());
        cancelled, queue := true, [];
        return;
      }
      if queue != [] { Fill(); }
    }

    // Poll the running children in launch order up to the first one that has exited.
    method PollFirst() returns (at: Option<nat>)
      requires forall k | 0 <= k < |running| :: running[k].job < |plan.children|
      modifies this`polls
      ensures at.Some? ==> at.value < |running| && polls == old(polls) + at.value + 1
      ensures at.Some? ==> FirstGone(plan, running, old(polls), at.value)
      ensures at.None? ==> polls == old(polls) + |running|
      ensures at.None? ==> forall k | 0 <= k < |running| :: old(polls) + k < plan.children[running[k].job].exitAt
    {
      var i := 0;
      while i < |running|
        invariant 0 <= i <= |running| && polls == old(polls) + i
        invariant forall k | 0 <= k < i :: old(polls) + k < plan.children[running[k].job].exitAt
      {
        polls := polls + 1;
        if polls - 1 >= plan.children[running[i].job].exitAt { return Some(i); }
        i := i + 1;
      }
      at := None;
    }

    // Collect the first child found gone: free its devices, record its result.
    method ReapOne() returns (reaped: bool, ghost at: nat)
      requires Valid(plan, Value())
      modifies this
      ensures Valid(plan, Value())
      ensures reaped ==> at < |old(running)| && old(running)[at].job < |plan.children|
      ensures reaped ==> Value() == Collect(plan, old(Value()), at) && FirstGone(plan, old(running), old(polls), at)
      ensures !reaped ==> Value() == old(Value()).(polls := old(polls) + |running|)
      ensures !reaped ==> forall i | 0 <= i < |running| ::
                            running[i].job < |plan.children| && old(polls) + i < plan.children[running[i].job].exitAt
    {
      hide Valid;
      ghost var before := Value();
      JobsKnown(plan, before);
      var found := PollFirst();
      if found.None? {
        PollsKeepValid(plan, before, |running|);
        return false, 0;
      }
      CollectKeepsValid(plan, before, found.value);
      var r := running[found.value];
      var result := JobResult(r.job, plan.children[r.job].returncode, r.devices);
      running := running[..found.value] + running[found.value + 1..];
      free := free + r.devices;
      results := results + [result];
      if result.returncode != 0 { failed := true; }
      launchedAt := launchedAt + [launched];
      reaped, at := true, found.value;
    }
  }

  lemma JobsKnown(p: Plan, s: State)
    requires Valid(p, s)
    ensures forall i | 0 <= i < |s.running| :: s.running[i].job < |p.children|
  {
    forall i | 0 <= i < |s.running| ensures s.running[i].job < |p.children| { assert s.running[i] in s.running; }
  }

  lemma PollsKeepValid(p: Plan, s: State, n: nat)
    requires Valid(p, s)
    ensures Valid(p, s.(polls := s.polls + n))
  {
  }

  lemma PollsKeepBlocked(p: Plan, s: State, n: nat)
    requires s.queue != [] ==> s.queue[0] < |p.jobs| && Blocked(p, s)
    ensures s.queue != [] ==> s.queue[0] < |p.jobs| && Blocked(p, s.(polls := s.polls + n))
  {
  }

  // What a finished run leaves: one result for each job it started, the jobs it started being the
  // first ones; every job is started unless the cap admits none or fail-fast cut the run short, and
  // under fail-fast no job is started after a failing result.
  ghost predicate Outcome(p: Plan, rs: seq<JobResult>, at: seq<nat>) {
    && |at| == |rs| <= |p.jobs| == |p.children|
    && ResultJobs(rs) == Prefix(|rs|)
    && (forall r | r in rs :: Exact(p, r.job, r.devices) && r.returncode == p.children[r.job].returncode)
    && (AdmitsNothing(p) ==> rs == [])
    && (!AdmitsNothing(p) && (p.failFast ==> forall r | r in rs :: r.returncode == 0) ==> |rs| == |p.jobs|)
    && (p.failFast ==> forall i | 0 <= i < |rs| && rs[i].returncode != 0 :: at[i] == |rs|)
  }

  lemma OutcomeOf(p: Plan, s: State)
    requires Valid(p, s) && s.running == []
    requires s.queue == [] || AdmitsNothing(p)
    ensures Outcome(p, s.results, s.launchedAt)
  {
    Sizes(s.running, s.results, s.launched);
    assert RunningJobs(s.running) + ResultJobs(s.results) == ResultJobs(s.results);
    assert |s.results| == s.launched;
  }

  lemma PollingEnds(p: Plan, s: State)
    requires Valid(p, s) && s.running != []
    requires s.running[0].job < |p.children| && s.polls < p.children[s.running[0].job].exitAt
    ensures s.polls < LastExit(p.children)
  {
    assert p.children[s.running[0].job] in p.children;
  }

  lemma CollectFacts(p: Plan, s: State, i: nat)
    requires i < |s.running| && s.running[i].job < |p.children|
    ensures var t := Collect(p, s, i);
            |t.running| == |s.running| - 1 && t.queue == s.queue && t.launched == s.launched && t.cancelled == s.cancelled
  {
  }

  lemma CancelledQueue(p: Plan, s: State)
    requires Valid(p, s)
    ensures s.cancelled ==> s.queue == []
  {
  }

  // What holds between two turns of the main loop.
  ghost predicate Steady(p: Plan, s: State) {
    && Valid(p, s) && (p.failFast ==> !s.failed || s.cancelled)
    && (s.queue != [] ==> s.queue[0] < |p.jobs| && Blocked(p, s))
  }

  // Fewer jobs are left, or as many and one more round of polls has passed before the last exit.
  ghost predicate Progressed(p: Plan, s: State, t: State) {
    || |t.queue| + |t.running| < |s.queue| + |s.running|
    || (|t.queue| + |t.running| == |s.queue| + |s.running| && s.polls < LastExit(p.children) && s.polls < t.polls)
  }

  // One turn: collect a child and refill, or stop when nothing runs and nothing can be started.
  method Turn(sched: Scheduler) returns (stop: bool)
    requires Steady(sched.plan, sched.Value()) && (sched.running != [] || sched.queue != [])
    modifies sched
    ensures Steady(sched.plan, sched.Value())
    ensures stop ==> sched.running == [] && AdmitsNothing(sched.plan)
    ensures !stop ==> Progressed(sched.plan, old(sched.Value()), sched.Value())
  {
    hide Valid, Collect, FirstGone, LastExit, Blocked;
    CancelledQueue(sched.plan, sched.Value());
    if sched.cancelled { sched.queue := []; }
    ghost var before := sched.Value();
    var reaped, at := sched.ReapOne();
    if reaped {
      CollectFacts(sched.plan, before, at);
      sched.AfterReap();
      return false;
    }
    PollsKeepBlocked(sched.plan, before, |sched.running|);
    if sched.running == [] {
      OnlyTheCapStalls(sched.plan, before);
      return true;
    }
    PollingEnds(sched.plan, before);
    stop := false;
  }

  // Collect and refill until nothing is running and nothing is queued. The `break` leaves jobs
  // behind only when the cap admits none.
  method MainLoop(sched: Scheduler)
    requires Steady(sched.plan, sched.Value())
    modifies sched
    ensures Steady(sched.plan, sched.Value()) && sched.running == []
    ensures sched.queue == [] || AdmitsNothing(sched.plan)
  {
    hide Steady, LastExit;
    ghost var last := LastExit(sched.plan.children);
    while sched.running != [] || sched.queue != []
      invariant Steady(sched.plan, sched.Value())
      decreases |sched.queue| + |sched.running|, if sched.polls < last then last - sched.polls else 0
    {
      var stop := Turn(sched);
      if stop { break; }
    }
  }

  // The whole call. The static check rejects the first job that can never be placed; otherwise the
  // run ends with the outcome above. Nothing is left running, so the terminate branch of the
  // clean-up has nothing to do.
  method RunJobs(plan: Plan) returns (r: Result<seq<JobResult>, nat>, ghost launchedAt: seq<nat>)
    requires |plan.children| == |plan.jobs|
    ensures r.Err? <==> exists j | 0 <= j < |plan.jobs| :: plan.jobs[j].deviceCount > |plan.pool|
    ensures r.Err? ==> r.error < |plan.jobs| && plan.jobs[r.error].deviceCount > |plan.pool|
                       && forall j | 0 <= j < r.error :: plan.jobs[j].deviceCount <= |plan.pool|
    ensures r.Ok? ==> Outcome(plan, r.value, launchedAt)
  {
    for j := 0 to |plan.jobs|
      invariant forall k | 0 <= k < j :: plan.jobs[k].deviceCount <= |plan.pool|
    {
      if plan.jobs[j].deviceCount > |plan.pool| { return Err(j), []; }
    }
    var sched := new Scheduler(plan);
    sched.Fill();
    MainLoop(sched);
    OutcomeOf(plan, sched.Value());
    r, launchedAt := Ok(sched.results), sched.launchedAt;
  }
}
