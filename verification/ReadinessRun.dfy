/** The readiness pool with the probes it really runs: each phase lasts what
    `_inspect_image` and the probe tail of scripts/harness/verifier_readiness.py make of the
    commands' behaviour.  Such a pool is a run of the budgeted pool, so the timeout that
    preflight grants covers it end to end. */
module ReadinessRun {
  import opened ReadinessSchedule
  import Tail = TailDeadline

  /** A task and everything its probe meets. */
  datatype Job = Job(file: TaskFile, cache: Command, again: Command, pull: Command, post: Command,
                     transitions: bool, behaviour: Tail.Behaviour, cleanup: Tail.Cleanup)

  /** The commands keep their timeouts and termination bounds, and what the tail costs beyond
      its allowances stays within the reserve. */
  ghost predicate Bounded(j: Job) {
    && EntryBudget(j.file).Some?
    && Legal(j.cache, INSPECT_SECONDS) && Legal(j.again, INSPECT_SECONDS)
    && Legal(j.pull, j.file.build) && Legal(j.post, INSPECT_SECONDS)
    && Tail.SaneBehaviour(j.behaviour) && Tail.SaneCleanup(j.cleanup)
    && forall t0: real :: Tail.Excess(t0, Tail.ProbePlan(j.file, j.transitions), j.behaviour, j.cleanup) <= TERMINATION_SECONDS
  }

  /** What a probe's phases come to: the seconds of its image inspection outside and inside
      the lane, what the inspection of the cache and of the lane end in, and the seconds of
      its tail by when that starts. */
  datatype Phases = Phases(pinned: bool, outside: real, lane: real, hits: bool, misses: bool, pulls: bool, tail: real -> real)

  function PhasesOf(j: Job): (ph: Phases)
    requires EntryBudget(j.file).Some?
  {
    var m := InspectImage(j.file.pinned, j.file.build, j.cache, j.again, j.pull, j.post);
    Phases(j.file.pinned, m.outside, m.lane, j.cache.Exits? && j.cache.ok && j.cache.parses, j.cache.Exits? && !j.cache.ok,
           m.source.Some?, t0 => Tail.TailEnd(t0, Tail.ProbePlan(j.file, j.transitions), j.behaviour, j.cleanup) - t0)
  }

  function AllPhases(jobs: seq<Job>): (phs: seq<Phases>)
    requires forall j <- jobs :: EntryBudget(j.file).Some?
    ensures |phs| == |jobs| && forall i :: 0 <= i < |jobs| ==> phs[i] == PhasesOf(jobs[i])
  {
    seq(|jobs|, i requires 0 <= i < |jobs| && jobs[i] in jobs => PhasesOf(jobs[i]))
  }

  predicate InRange(phs: seq<Phases>, p: Pool) {
    && |p.outcomes| == |phs| && p.next <= |phs|
    && forall s <- p.workers :: s.Busy() ==> s.task < |phs|
  }

  /** A phase is over exactly when it has lasted its time. */
  predicate Over(s: Slot) { s.Active() && s.left == 0.0 }

  predicate May(phs: seq<Phases>, p: Pool, a: Step)
    requires InRange(phs, p)
  {
    match a
    case Claim(w) => w < |p.workers| && p.workers[w].Free? && !p.closed && p.next < |phs|
    case Leave(w) => w < |p.workers| && p.workers[w].Free? && (p.closed || p.next >= |phs|)
    case CacheHit(w) => w < |p.workers| && p.workers[w].Inspecting? && Over(p.workers[w]) && phs[p.workers[w].task].hits
    case CacheMiss(w) => w < |p.workers| && p.workers[w].Inspecting? && Over(p.workers[w]) && phs[p.workers[w].task].misses
    case EnterLane(w) => w < |p.workers| && p.workers[w].Waiting? && LaneFree(p)
    case Materialized(w) => w < |p.workers| && p.workers[w].Pulling? && Over(p.workers[w]) && phs[p.workers[w].task].pulls
    case Record(w) => w < |p.workers| && p.workers[w].Probing? && Over(p.workers[w])
    case Fail(w) =>
      && w < |p.workers| && Over(p.workers[w])
      && (p.workers[w].Inspecting? ==> !phs[p.workers[w].task].hits && !phs[p.workers[w].task].misses)
      && (p.workers[w].Pulling? ==> !phs[p.workers[w].task].pulls)
    case Elapse(dt) => MayElapse(p, dt)
  }

  /** The pool's step, with phases as long as the probe makes them. */
  function Does(phs: seq<Phases>, p: Pool, a: Step): Pool
    requires InRange(phs, p) && May(phs, p, a)
  {
    match a
    case Claim(w) =>
      var ph := phs[p.next];
      p.(next := p.next + 1,
         workers := p.workers[w := if ph.pinned then Inspecting(p.next, ph.outside) else Waiting(p.next, ph.lane)])
    case Leave(w) => p.(workers := p.workers[w := Exited])
    case CacheHit(w) => p.(workers := p.workers[w := Probing(p.workers[w].task, phs[p.workers[w].task].tail(p.now))])
    case CacheMiss(w) => p.(workers := p.workers[w := Waiting(p.workers[w].task, phs[p.workers[w].task].lane)])
    case EnterLane(w) => p.(workers := p.workers[w := Pulling(p.workers[w].task, p.workers[w].left)])
    case Materialized(w) => p.(workers := p.workers[w := Probing(p.workers[w].task, phs[p.workers[w].task].tail(p.now))])
    case Record(w) => p.(outcomes := p.outcomes[p.workers[w].task := Recorded], workers := p.workers[w := Free])
    case Fail(w) =>
      p.(outcomes := p.outcomes[p.workers[w].task := Failed], closed := true, workers := p.workers[w := Free])
    case Elapse(dt) => p.(now := p.now + dt, workers := Aged(p.workers, dt))
  }

  ghost predicate Happens(phs: seq<Phases>, p: Pool, steps: seq<Step>, q: Pool)
    decreases |steps|
  {
    if steps == [] then p == q
    else InRange(phs, p) && May(phs, p, steps[0]) && Happens(phs, Does(phs, p, steps[0]), steps[1..], q)
  }

  // ---- The budgeted pool can do everything this one does -------------------------------

  function Files(jobs: seq<Job>): (files: seq<TaskFile>)
    ensures |files| == |jobs| && forall i :: 0 <= i < |jobs| ==> files[i] == jobs[i].file
  {
    seq(|jobs|, i requires 0 <= i < |jobs| => jobs[i].file)
  }

  /** Each task's budget covers its image and its tail, whenever that starts. */
  ghost predicate Covers(phs: seq<Phases>, tasks: seq<Task>) {
    |tasks| == |phs| && forall i :: 0 <= i < |phs| ==> CoversOne(phs[i], tasks[i])
  }

  ghost predicate CoversOne(ph: Phases, t: Task) {
    && t.pinned == ph.pinned && ph.outside >= 0.0 && ph.lane >= 0.0 && ph.outside + ph.lane <= t.mat
    && (!t.pinned ==> ph.outside == 0.0)
    && forall t0: real :: 0.0 <= ph.tail(t0) <= t.tail
  }

  lemma BudgetCovers(j: Job)
    requires Bounded(j)
    ensures CoversOne(PhasesOf(j), EntryBudget(j.file).value)
  {
    MaterializationFitsBudget(j.file, j.cache, j.again, j.pull, j.post);
    forall t0: real ensures 0.0 <= PhasesOf(j).tail(t0) <= EntryBudget(j.file).value.tail {
      Tail.TailFitsBudget(t0, j.file, j.behaviour, j.cleanup, j.transitions);
    }
  }

  /** The budgeted worker is in the same phase and has at least as much left, the lane's
      share included. */
  predicate Matches(phs: seq<Phases>, s: Slot, b: Slot) {
    match s
    case Free => b.Free?
    case Exited => b.Exited?
    case Inspecting(i, left) => i < |phs| && b.Inspecting? && b.task == i && 0.0 <= left <= b.left - phs[i].lane && phs[i].lane >= 0.0
    case Waiting(i, left) => i < |phs| && b.Waiting? && b.task == i && 0.0 <= left <= b.left
    case Pulling(i, left) => i < |phs| && b.Pulling? && b.task == i && 0.0 <= left <= b.left
    case Probing(i, left) => i < |phs| && b.Probing? && b.task == i && 0.0 <= left <= b.left
  }

  predicate AllMatch(phs: seq<Phases>, ws: seq<Slot>, bs: seq<Slot>) {
    |bs| == |ws| && forall k :: 0 <= k < |ws| ==> Matches(phs, ws[k], bs[k])
  }

  predicate Simulates(phs: seq<Phases>, p: Pool, b: Pool) {
    && b.now == p.now && b.next == p.next && b.closed == p.closed && b.outcomes == p.outcomes
    && AllMatch(phs, p.workers, b.workers)
  }

  lemma SameShape(phs: seq<Phases>, p: Pool, b: Pool)
    requires Simulates(phs, p, b)
    ensures LaneFree(p) <==> LaneFree(b)
    ensures (exists s <- p.workers :: s.Active()) ==> exists s <- b.workers :: s.Active()
  {
    if s :| s in p.workers && s.Pulling? {
      var k :| 0 <= k < |p.workers| && p.workers[k] == s;
      assert b.workers[k] in b.workers;
    }
    if s :| s in b.workers && s.Pulling? {
      var k :| 0 <= k < |b.workers| && b.workers[k] == s;
      assert p.workers[k] in p.workers;
    }
    if s :| s in p.workers && s.Active() {
      var k :| 0 <= k < |p.workers| && p.workers[k] == s;
      assert b.workers[k] in b.workers;
    }
  }

  lemma MayElapseToo(phs: seq<Phases>, p: Pool, b: Pool, dt: real)
    requires Simulates(phs, p, b) && MayElapse(p, dt)
    ensures MayElapse(b, dt)
  {
    SameShape(phs, p, b);
    forall s | s in b.workers
      ensures !s.Free? && (s.Active() ==> dt <= s.left) && (LaneFree(b) ==> !s.Waiting?)
    {
      var k :| 0 <= k < |b.workers| && b.workers[k] == s;
      assert p.workers[k] in p.workers;
    }
  }

  lemma AgedMatch(phs: seq<Phases>, ws: seq<Slot>, bs: seq<Slot>, dt: real)
    requires AllMatch(phs, ws, bs) && forall s <- ws :: s.Active() ==> dt <= s.left
    ensures AllMatch(phs, Aged(ws, dt), Aged(bs, dt))
  {
    forall k | 0 <= k < |ws| ensures Matches(phs, Aged(ws, dt)[k], Aged(bs, dt)[k]) {
      assert Matches(phs, ws[k], bs[k]);
    }
  }

  lemma SimulateElapse(phs: seq<Phases>, tasks: seq<Task>, p: Pool, b: Pool, dt: real)
    requires InRange(phs, p) && Simulates(phs, p, b) && WellFormed(tasks, b) && MayElapse(p, dt)
    ensures MayElapse(b, dt) && Simulates(phs, Does(phs, p, Elapse(dt)), Next(tasks, b, Elapse(dt)))
  {
    MayElapseToo(phs, p, b, dt);
    AgedMatch(phs, p.workers, b.workers, dt);
    assert Next(tasks, b, Elapse(dt)).workers == Aged(b.workers, dt);
  }

  /** A worker's move changes its own slot only. */
  lemma SimulateSlot(phs: seq<Phases>, ws: seq<Slot>, bs: seq<Slot>, w: nat, s: Slot, b: Slot)
    requires AllMatch(phs, ws, bs) && w < |ws| && Matches(phs, s, b)
    ensures AllMatch(phs, ws[w := s], bs[w := b])
  {}

  lemma SimulateMove(phs: seq<Phases>, tasks: seq<Task>, p: Pool, b: Pool, a: Step)
    requires Covers(phs, tasks) && InRange(phs, p) && Simulates(phs, p, b) && WellFormed(tasks, b)
    requires !a.Elapse? && May(phs, p, a)
    ensures Enabled(tasks, b, a) && Simulates(phs, Does(phs, p, a), Next(tasks, b, a))
  {
    SameShape(phs, p, b);
    assert Matches(phs, p.workers[a.w], b.workers[a.w]);
    var q, c := Does(phs, p, a), Next(tasks, b, a);
    MovedSlot(phs, tasks, p, b, a);
    SimulateSlot(phs, p.workers, b.workers, a.w, q.workers[a.w], c.workers[a.w]);
  }

  lemma MovedSlot(phs: seq<Phases>, tasks: seq<Task>, p: Pool, b: Pool, a: Step)
    requires Covers(phs, tasks) && InRange(phs, p) && Simulates(phs, p, b) && WellFormed(tasks, b)
    requires !a.Elapse? && May(phs, p, a) && Enabled(tasks, b, a)
    ensures Matches(phs, Does(phs, p, a).workers[a.w], Next(tasks, b, a).workers[a.w])
  {
    assert Matches(phs, p.workers[a.w], b.workers[a.w]);
    if a.Claim? {
      assert CoversOne(phs[p.next], tasks[p.next]);
    } else if p.workers[a.w].Busy() {
      assert CoversOne(phs[p.workers[a.w].task], tasks[p.workers[a.w].task]);
    }
  }

  lemma {:induction false} Simulated(phs: seq<Phases>, tasks: seq<Task>, p: Pool, b: Pool, steps: seq<Step>, q: Pool) returns (c: Pool)
    requires Covers(phs, tasks) && Simulates(phs, p, b) && Inv(tasks, b) && Happens(phs, p, steps, q)
    ensures Run(tasks, b, steps, c) && Simulates(phs, q, c)
    decreases |steps|
  {
    if steps == [] {
      c := b;
    } else {
      if steps[0].Elapse? {
        SimulateElapse(phs, tasks, p, b, steps[0].dt);
      } else {
        SimulateMove(phs, tasks, p, b, steps[0]);
      }
      StepInv(tasks, b, steps[0]);
      c := Simulated(phs, tasks, Does(phs, p, steps[0]), Next(tasks, b, steps[0]), steps[1..], q);
    }
  }

  lemma {:induction false} BudgetsExist(files: seq<TaskFile>)
    requires forall f <- files :: EntryBudget(f).Some?
    ensures EntryBudgets(files).Some?
  {
    if files != [] {
      assert files[0] in files;
      BudgetsExist(files[1..]);
    }
  }

  function Start(jobs: seq<Job>, maxConcurrency: nat): Pool {
    Pool(0.0, 0, false, seq(|jobs|, _ => Pending), seq(if maxConcurrency < |jobs| then maxConcurrency else |jobs|, _ => Free))
  }

  /** Preflight has a budget for every task, and it covers what that task does. */
  lemma BudgetsCover(jobs: seq<Job>)
    requires forall j <- jobs :: EntryBudget(j.file).Some? && Bounded(j)
    ensures EntryBudgets(Files(jobs)).Some? && Covers(AllPhases(jobs), EntryBudgets(Files(jobs)).value)
  {
    var phs, files := AllPhases(jobs), Files(jobs);
    forall f | f in files ensures EntryBudget(f).Some? {
      var i :| 0 <= i < |files| && files[i] == f;
      assert jobs[i] in jobs;
    }
    BudgetsExist(files);
    var tasks := EntryBudgets(files).value;
    forall i | 0 <= i < |jobs| ensures CoversOne(phs[i], tasks[i]) {
      assert jobs[i] in jobs;
      BudgetCovers(jobs[i]);
    }
  }

  lemma StartIsInit(jobs: seq<Job>, tasks: seq<Task>, phs: seq<Phases>, maxConcurrency: nat)
    requires |tasks| == |jobs|
    ensures Start(jobs, maxConcurrency) == Init(tasks, maxConcurrency)
    ensures Simulates(phs, Start(jobs, maxConcurrency), Init(tasks, maxConcurrency))
  {}

  /** Every run is one of the budgeted pool's. */
  lemma RunIsBudgeted(jobs: seq<Job>, maxConcurrency: nat, steps: seq<Step>, q: Pool) returns (tasks: seq<Task>, c: Pool)
    requires jobs != [] && maxConcurrency > 0 && forall j <- jobs :: EntryBudget(j.file).Some? && Bounded(j)
    requires Happens(AllPhases(jobs), Start(jobs, maxConcurrency), steps, q)
    ensures EntryBudgets(Files(jobs)) == Some(tasks) && |tasks| == |jobs| && ValidTasks(tasks)
    ensures Run(tasks, Init(tasks, maxConcurrency), steps, c) && Simulates(AllPhases(jobs), q, c)
    ensures Inv(tasks, c)
  {
    var phs, files := AllPhases(jobs), Files(jobs);
    BudgetsCover(jobs);
    tasks := EntryBudgets(files).value;
    StartIsInit(jobs, tasks, phs, maxConcurrency);
    InitInv(tasks, maxConcurrency);
    c := Simulated(phs, tasks, Start(jobs, maxConcurrency), Init(tasks, maxConcurrency), steps, q);
    RunInv(tasks, Init(tasks, maxConcurrency), steps, c);
  }

  /** The timeout preflight computes from task files covers every run of their probes,
      from the first inspection to the last cleanup. */
  lemma ProbesEndInTime(jobs: seq<Job>, maxConcurrency: nat, steps: seq<Step>, q: Pool)
    requires jobs != [] && maxConcurrency > 0 && forall j <- jobs :: EntryBudget(j.file).Some? && Bounded(j)
    requires Happens(AllPhases(jobs), Start(jobs, maxConcurrency), steps, q)
    ensures ReadinessTimeout(Files(jobs), maxConcurrency).Some?
    ensures q.now <= ReadinessTimeout(Files(jobs), maxConcurrency).value
  {
    var _, c := RunIsBudgeted(jobs, maxConcurrency, steps, q);
    ReadinessTimeoutSuffices(Files(jobs), maxConcurrency, steps, c);
  }

  // ---- The probes are never stuck ------------------------------------------------------

  ghost predicate CanMove(phs: seq<Phases>, p: Pool) {
    InRange(phs, p) && exists a: Step :: May(phs, p, a) && !a.Elapse?
  }

  /** What a finished phase leads to. */
  lemma OverMoves(phs: seq<Phases>, p: Pool, w: nat) returns (a: Step)
    requires InRange(phs, p) && w < |p.workers| && Over(p.workers[w])
    ensures May(phs, p, a) && !a.Elapse?
  {
    var s := p.workers[w];
    assert s in p.workers;
    var ph := phs[s.task];
    match s
    case Inspecting(_, _) => a := if ph.hits then CacheHit(w) else if ph.misses then CacheMiss(w) else Fail(w);
    case Pulling(_, _) => a := if ph.pulls then Materialized(w) else Fail(w);
    case Probing(_, _) => a := Record(w);
  }

  /** The active worker whose phase is over first. */
  lemma {:induction false} First(ws: seq<Slot>) returns (k: nat)
    requires exists s <- ws :: s.Active()
    ensures k < |ws| && ws[k].Active() && forall s <- ws :: s.Active() ==> ws[k].left <= s.left
  {
    var front, last := ws[..|ws| - 1], ws[|ws| - 1];
    if s :| s in front && s.Active() {
      k := First(front);
      if last.Active() && last.left < ws[k].left { k := |ws| - 1; }
    } else {
      k := |ws| - 1;
    }
    forall s | s in ws && s.Active() ensures ws[k].left <= s.left {
      assert s in front || s == last;
    }
  }

  /** When no worker can move, time can pass until the first phase is over; then one can. */
  lemma WaitsForMove(phs: seq<Phases>, p: Pool) returns (a: Step)
    requires InRange(phs, p) && exists s <- p.workers :: s.Active()
    requires forall s <- p.workers :: !s.Free? && (s.Active() ==> s.left > 0.0) && (LaneFree(p) ==> !s.Waiting?)
    ensures May(phs, p, a) && CanMove(phs, Does(phs, p, a))
  {
    var k := First(p.workers);
    a := Elapse(p.workers[k].left);
    assert p.workers[k] in p.workers;
    var q := Does(phs, p, a);
    forall s | s in q.workers && s.Busy() ensures s.task < |phs| {
      var i :| 0 <= i < |q.workers| && q.workers[i] == s;
      assert p.workers[i] in p.workers;
    }
    var _ := OverMoves(phs, q, k);
  }

  /** A pool that has not finished has a move, or has one once time has passed. */
  lemma MoveOrWait(phs: seq<Phases>, p: Pool) returns (a: Step)
    requires InRange(phs, p) && !Finished(p) && forall s <- p.workers :: s.Active() ==> s.left >= 0.0
    ensures May(phs, p, a) && (a.Elapse? ==> CanMove(phs, Does(phs, p, a)))
  {
    if w :| 0 <= w < |p.workers| && p.workers[w].Free? {
      a := if !p.closed && p.next < |phs| then Claim(w) else Leave(w);
    } else if w :| 0 <= w < |p.workers| && Over(p.workers[w]) {
      a := OverMoves(phs, p, w);
    } else if w :| 0 <= w < |p.workers| && p.workers[w].Waiting? && LaneFree(p) {
      a := EnterLane(w);
    } else {
      SomeActive(p);
      a := WaitsForMove(phs, p);
    }
  }

  lemma SomeActive(p: Pool)
    requires !Finished(p) && forall s <- p.workers :: !s.Free? && (LaneFree(p) ==> !s.Waiting?)
    ensures exists s <- p.workers :: s.Active()
  {
    var s :| s in p.workers && !s.Exited?;
    if s.Waiting? {
      var r :| r in p.workers && r.Pulling?;
      assert r.Active();
    }
  }

  lemma {:induction false} OneMore(phs: seq<Phases>, p: Pool, steps: seq<Step>, q: Pool, a: Step)
    requires Happens(phs, p, steps, q) && InRange(phs, q) && May(phs, q, a)
    ensures Happens(phs, p, steps + [a], Does(phs, q, a))
    ensures Moves(steps + [a]) == Moves(steps) + (if a.Elapse? then 0 else 1)
    decreases |steps|
  {
    if steps != [] {
      assert (steps + [a])[1..] == steps[1..] + [a];
      OneMore(phs, Does(phs, p, steps[0]), steps[1..], q, a);
    } else {
      assert steps + [a] == [a] && [a][1..] == [];
    }
  }

  /** What a state shares with its budgeted one. */
  lemma SharedShape(phs: seq<Phases>, tasks: seq<Task>, q: Pool, c: Pool)
    requires Simulates(phs, q, c) && WellFormed(tasks, c) && |tasks| == |phs|
    ensures InRange(phs, q) && (forall s <- q.workers :: s.Active() ==> s.left >= 0.0)
    ensures Finished(q) ==> Finished(c)
  {
    forall s | s in q.workers ensures s.Busy() ==> s.task < |phs| && s.left >= 0.0 {
      var k :| 0 <= k < |q.workers| && q.workers[k] == s;
      assert Matches(phs, q.workers[k], c.workers[k]);
    }
    if Finished(q) {
      forall s | s in c.workers ensures s.Exited? {
        var k :| 0 <= k < |c.workers| && c.workers[k] == s;
        assert q.workers[k] in q.workers && Matches(phs, q.workers[k], c.workers[k]);
      }
    }
  }

  /** A state has a next step, which is a move or lets time pass until there is one; unless it
      has finished, and then every task is recorded or one failed. */
  ghost predicate Advances(phs: seq<Phases>, q: Pool, a: Step) {
    && InRange(phs, q)
    && (!Finished(q) ==> May(phs, q, a) && (a.Elapse? ==> CanMove(phs, Does(phs, q, a))))
    && (Finished(q) ==> Failed in q.outcomes || forall o <- q.outcomes :: o == Recorded)
  }

  lemma BudgetedAdvances(phs: seq<Phases>, tasks: seq<Task>, maxConcurrency: nat, steps: seq<Step>, q: Pool, c: Pool)
    returns (a: Step)
    requires ValidTasks(tasks) && tasks != [] && maxConcurrency > 0 && |tasks| == |phs|
    requires Run(tasks, Init(tasks, maxConcurrency), steps, c) && Inv(tasks, c) && Simulates(phs, q, c)
    ensures Advances(phs, q, a) && Moves(steps) <= 7 * |phs|
  {
    PoolCompletes(tasks, maxConcurrency, steps, c);
    SharedShape(phs, tasks, q, c);
    if Finished(q) { return Leave(0); }
    a := MoveOrWait(phs, q);
  }

  /** So does every reachable state, after at most seven moves a task. */
  lemma Progress(jobs: seq<Job>, maxConcurrency: nat, steps: seq<Step>, q: Pool) returns (a: Step)
    requires jobs != [] && maxConcurrency > 0 && forall j <- jobs :: EntryBudget(j.file).Some? && Bounded(j)
    requires Happens(AllPhases(jobs), Start(jobs, maxConcurrency), steps, q)
    ensures Advances(AllPhases(jobs), q, a) && Moves(steps) <= 7 * |jobs|
  {
    var tasks, c := RunIsBudgeted(jobs, maxConcurrency, steps, q);
    a := BudgetedAdvances(AllPhases(jobs), tasks, maxConcurrency, steps, q, c);
  }

  /** Every run can be brought to its end, and a run that takes a move whenever it has one is:
      a run makes at most seven moves a task, and one that has not finished has a move, now or
      once time has passed.  At the end every task is recorded, or one failed. */
  lemma {:induction false} ProbesComplete(jobs: seq<Job>, maxConcurrency: nat, steps: seq<Step>, q: Pool)
    returns (more: seq<Step>, end: Pool)
    requires jobs != [] && maxConcurrency > 0 && forall j <- jobs :: EntryBudget(j.file).Some? && Bounded(j)
    requires Happens(AllPhases(jobs), Start(jobs, maxConcurrency), steps, q)
    ensures steps <= more && Happens(AllPhases(jobs), Start(jobs, maxConcurrency), more, end)
    ensures Finished(end) && (Failed in end.outcomes || forall o <- end.outcomes :: o == Recorded)
    ensures Moves(more) <= 7 * |jobs|
    decreases 7 * |jobs| - Moves(steps)
  {
    var phs, p := AllPhases(jobs), Start(jobs, maxConcurrency);
    var a := Progress(jobs, maxConcurrency, steps, q);
    if Finished(q) { return steps, q; }
    OneMore(phs, p, steps, q, a);
    var further, r := steps + [a], Does(phs, q, a);
    if a.Elapse? {
      var b: Step :| May(phs, r, b) && !b.Elapse?;
      OneMore(phs, p, further, r, b);
      further, r := further + [b], Does(phs, r, b);
    }
    var _ := Progress(jobs, maxConcurrency, further, r);
    more, end := ProbesComplete(jobs, maxConcurrency, further, r);
  }
}
