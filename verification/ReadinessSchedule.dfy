/** The verifier-readiness worker pool (scripts/harness/verifier_readiness.py) and
    the closed-form time budget that preflight grants it (scripts/harness/preflight.py).

    Each task first materializes its image and then runs its probe tail.  A
    digest-pinned image is inspected once outside the image lane; every other
    materialization command runs inside the lane, which admits one worker at a time.
    A phase carries the part of its budget that is still unspent, so a run may end
    any phase early but never overspends it.  The event loop itself takes no time:
    `Elapse` is enabled only when no worker can make an instantaneous move. */
module ReadinessSchedule {

  datatype Task = Task(pinned: bool, mat: real, tail: real)

  datatype Slot =
    | Free
    | Inspecting(task: nat, left: real)
    | Waiting(task: nat, left: real)
    | Pulling(task: nat, left: real)
    | Probing(task: nat, left: real)
    | Exited
  {
    predicate Materializing() { Inspecting? || Waiting? || Pulling? }
    predicate Active() { Inspecting? || Pulling? || Probing? }
    predicate Busy() { Materializing() || Probing? }
  }

  datatype Outcome = Pending | Recorded | Failed

  datatype Pool = Pool(now: real, next: nat, closed: bool, outcomes: seq<Outcome>, workers: seq<Slot>)

  datatype Step =
    | Claim(w: nat)
    | Leave(w: nat)
    | CacheHit(w: nat)
    | CacheMiss(w: nat)
    | EnterLane(w: nat)
    | Materialized(w: nat)
    | Record(w: nat)
    | Fail(w: nat)
    | Elapse(dt: real)

  predicate ValidTasks(tasks: seq<Task>) {
    forall t <- tasks :: t.mat >= 0.0 && t.tail >= 0.0
  }

  function Workers(tasks: seq<Task>, maxConcurrency: nat): nat {
    if maxConcurrency < |tasks| then maxConcurrency else |tasks|
  }

  function Init(tasks: seq<Task>, maxConcurrency: nat): Pool {
    Pool(0.0, 0, false, seq(|tasks|, _ => Pending), seq(Workers(tasks, maxConcurrency), _ => Free))
  }

  predicate LaneFree(p: Pool) {
    forall s <- p.workers :: !s.Pulling?
  }

  /** Time may pass only while every free worker has left, nobody waits for a free
      lane, somebody is working, and no running phase has less than dt to spend. */
  predicate MayElapse(p: Pool, dt: real) {
    && dt > 0.0
    && (exists s <- p.workers :: s.Active())
    && (forall s <- p.workers :: !s.Free? && (s.Active() ==> dt <= s.left))
    && (LaneFree(p) ==> forall s <- p.workers :: !s.Waiting?)
  }

  function Age(s: Slot, dt: real): Slot {
    match s
    case Inspecting(i, left) => Inspecting(i, left - dt)
    case Pulling(i, left) => Pulling(i, left - dt)
    case Probing(i, left) => Probing(i, left - dt)
    case _ => s
  }

  predicate Enabled(tasks: seq<Task>, p: Pool, a: Step) {
    match a
    case Claim(w) => w < |p.workers| && p.workers[w].Free? && !p.closed && p.next < |tasks|
    case Leave(w) => w < |p.workers| && p.workers[w].Free? && (p.closed || p.next >= |tasks|)
    case CacheHit(w) => w < |p.workers| && p.workers[w].Inspecting?
    case CacheMiss(w) => w < |p.workers| && p.workers[w].Inspecting?
    case EnterLane(w) => w < |p.workers| && p.workers[w].Waiting? && LaneFree(p)
    case Materialized(w) => w < |p.workers| && p.workers[w].Pulling?
    case Record(w) => w < |p.workers| && p.workers[w].Probing?
    case Fail(w) => w < |p.workers| && p.workers[w].Active()
    case Elapse(dt) => MayElapse(p, dt)
  }

  predicate WellFormed(tasks: seq<Task>, p: Pool) {
    && |p.outcomes| == |tasks|
    && p.next <= |tasks|
    && forall s <- p.workers :: s.Busy() ==> s.task < |tasks| && s.left >= 0.0
  }

  function Next(tasks: seq<Task>, p: Pool, a: Step): (q: Pool)
    requires WellFormed(tasks, p) && Enabled(tasks, p, a)
  {
    match a
    case Claim(w) =>
      var t := tasks[p.next];
      p.(next := p.next + 1,
         workers := p.workers[w := if t.pinned then Inspecting(p.next, t.mat) else Waiting(p.next, t.mat)])
    case Leave(w) => p.(workers := p.workers[w := Exited])
    case CacheHit(w) =>
      var i := p.workers[w].task;
      p.(workers := p.workers[w := Probing(i, tasks[i].tail)])
    case CacheMiss(w) => p.(workers := p.workers[w := Waiting(p.workers[w].task, p.workers[w].left)])
    case EnterLane(w) => p.(workers := p.workers[w := Pulling(p.workers[w].task, p.workers[w].left)])
    case Materialized(w) =>
      var i := p.workers[w].task;
      p.(workers := p.workers[w := Probing(i, tasks[i].tail)])
    case Record(w) =>
      p.(outcomes := p.outcomes[p.workers[w].task := Recorded], workers := p.workers[w := Free])
    case Fail(w) =>
      p.(outcomes := p.outcomes[p.workers[w].task := Failed], closed := true, workers := p.workers[w := Free])
    case Elapse(dt) =>
      p.(now := p.now + dt, workers := seq(|p.workers|, k requires 0 <= k < |p.workers| => Age(p.workers[k], dt)))
  }

  // ---- What preflight computes -------------------------------------------------

  function MatFrom(tasks: seq<Task>, k: nat): real
    decreases |tasks| - k
  {
    if k >= |tasks| then 0.0 else tasks[k].mat + MatFrom(tasks, k + 1)
  }

  function TailFrom(tasks: seq<Task>, k: nat): real
    decreases |tasks| - k
  {
    if k >= |tasks| then 0.0 else tasks[k].tail + TailFrom(tasks, k + 1)
  }

  function MaxTailFrom(tasks: seq<Task>, k: nat): (m: real)
    ensures forall i :: k <= i < |tasks| ==> tasks[i].tail <= m
    ensures m == 0.0 || exists i :: k <= i < |tasks| && m == tasks[i].tail
    ensures m >= 0.0
    decreases |tasks| - k
  {
    if k >= |tasks| then 0.0
    else
      var rest := MaxTailFrom(tasks, k + 1);
      if tasks[k].tail > rest then tasks[k].tail else rest
  }

  /** preflight.py: serial materialization plus the list-scheduling bound on tails. */
  function Bound(tasks: seq<Task>, maxConcurrency: nat): real
    requires tasks != [] && maxConcurrency > 0
  {
    var c := Workers(tasks, maxConcurrency) as real;
    MatFrom(tasks, 0) + (TailFrom(tasks, 0) / c + (1.0 - 1.0 / c) * MaxTailFrom(tasks, 0))
  }

  // ---- Scaling by a worker count, by repeated addition ------------------------------

  function Times(n: nat, x: real): real {
    if n == 0 then 0.0 else x + Times(n - 1, x)
  }

  lemma {:induction false} TimesAdds(n: nat, x: real, y: real)
    ensures Times(n, x + y) == Times(n, x) + Times(n, y)
  {
    if n > 0 { TimesAdds(n - 1, x, y); }
  }

  lemma {:induction false} TimesMonotone(n: nat, x: real, y: real)
    requires x <= y
    ensures Times(n, x) <= Times(n, y)
  {
    if n > 0 { TimesMonotone(n - 1, x, y); }
  }

  lemma {:induction false} TimesIsProduct(n: nat, x: real)
    ensures Times(n, x) == n as real * x
  {
    if n > 0 { TimesIsProduct(n - 1, x); }
  }

  // ---- Unspent work --------------------------------------------------------------

  function MatLeft(s: Slot): real {
    if s.Materializing() then s.left else 0.0
  }

  function TailLeft(tasks: seq<Task>, s: Slot): real
    requires s.Busy() ==> s.task < |tasks|
  {
    if s.Materializing() then tasks[s.task].tail else if s.Probing? then s.left else 0.0
  }

  function SumMat(ws: seq<Slot>): real {
    if ws == [] then 0.0 else MatLeft(ws[0]) + SumMat(ws[1..])
  }

  predicate SlotsOk(tasks: seq<Task>, ws: seq<Slot>) {
    forall s <- ws :: s.Busy() ==> s.task < |tasks| && s.left >= 0.0
  }

  function SumTail(tasks: seq<Task>, ws: seq<Slot>): real
    requires SlotsOk(tasks, ws)
  {
    if ws == [] then 0.0 else TailLeft(tasks, ws[0]) + SumTail(tasks, ws[1..])
  }

  lemma {:induction false} SumMatUpdate(ws: seq<Slot>, w: nat, s: Slot)
    requires w < |ws|
    ensures SumMat(ws[w := s]) == SumMat(ws) - MatLeft(ws[w]) + MatLeft(s)
  {
    if w == 0 {
      assert ws[w := s][1..] == ws[1..];
    } else {
      SumMatUpdate(ws[1..], w - 1, s);
      assert ws[w := s][1..] == ws[1..][w - 1 := s];
    }
  }

  lemma {:induction false} SumTailUpdate(tasks: seq<Task>, ws: seq<Slot>, w: nat, s: Slot)
    requires w < |ws| && SlotsOk(tasks, ws) && SlotsOk(tasks, ws[w := s]) && SlotsOk(tasks, [s])
    ensures SumTail(tasks, ws[w := s]) == SumTail(tasks, ws) - TailLeft(tasks, ws[w]) + TailLeft(tasks, s)
  {
    assert s in [s];
    if w == 0 {
      assert ws[w := s][1..] == ws[1..];
    } else {
      assert ws[w := s][1..] == ws[1..][w - 1 := s];
      SumTailUpdate(tasks, ws[1..], w - 1, s);
    }
  }

  lemma {:induction false} SumsNonNegative(tasks: seq<Task>, ws: seq<Slot>)
    requires ValidTasks(tasks) && SlotsOk(tasks, ws)
    ensures SumMat(ws) >= 0.0 && SumTail(tasks, ws) >= 0.0
    ensures forall s <- ws :: (s.Materializing() ==> s.left <= SumMat(ws)) && (s.Probing? ==> s.left <= SumTail(tasks, ws))
  {
    if ws != [] {
      assert ws[0] in ws;
      SumsNonNegative(tasks, ws[1..]);
      assert TailLeft(tasks, ws[0]) >= 0.0;
      assert ws == [ws[0]] + ws[1..];
    }
  }

  function Aged(ws: seq<Slot>, dt: real): (r: seq<Slot>) {
    seq(|ws|, k requires 0 <= k < |ws| => Age(ws[k], dt))
  }

  /** Spending: with a worker inspecting or pulling, the materialization work shrinks
      by at least dt; with every worker probing, the tail work shrinks by |ws| * dt. */
  lemma {:induction false} AgeSpends(tasks: seq<Task>, ws: seq<Slot>, dt: real)
    requires dt > 0.0 && SlotsOk(tasks, ws)
    requires forall s <- ws :: s.Active() ==> dt <= s.left
    ensures SlotsOk(tasks, Aged(ws, dt))
    ensures SumMat(Aged(ws, dt)) <= SumMat(ws) && SumTail(tasks, Aged(ws, dt)) <= SumTail(tasks, ws)
    ensures (exists s <- ws :: s.Inspecting? || s.Pulling?) ==> SumMat(Aged(ws, dt)) <= SumMat(ws) - dt
    ensures (forall s <- ws :: s.Probing?) ==> SumTail(tasks, Aged(ws, dt)) == SumTail(tasks, ws) - Times(|ws|, dt)
  {
    if ws != [] {
      assert ws[0] in ws && ws == [ws[0]] + ws[1..];
      AgeSpends(tasks, ws[1..], dt);
      assert Aged(ws, dt)[1..] == Aged(ws[1..], dt);
    }
  }

  // ---- The makespan invariant ------------------------------------------------------

  /** Some image is still to be materialized. */
  predicate MatPending(tasks: seq<Task>, p: Pool) {
    || (exists s <- p.workers :: s.Materializing())
    || (!p.closed && p.next < |tasks|)
  }

  function Capacity(tasks: seq<Task>, c: nat): real {
    Times(c, MatFrom(tasks, 0)) + TailFrom(tasks, 0)
  }

  /** Materialization time already elapsed or still unspent, on the lane's scale. */
  function Elapsed(tasks: seq<Task>, p: Pool): real {
    p.now + MatFrom(tasks, p.next) + SumMat(p.workers)
  }

  function TailOwed(tasks: seq<Task>, p: Pool): real
    requires WellFormed(tasks, p)
  {
    TailFrom(tasks, p.next) + SumTail(tasks, p.workers)
  }

  /** Elapsed worker time plus unspent work never exceeds the admitted work. */
  predicate WorkConserved(tasks: seq<Task>, p: Pool)
    requires WellFormed(tasks, p)
  {
    Times(|p.workers|, Elapsed(tasks, p)) + TailOwed(tasks, p) <= Capacity(tasks, |p.workers|)
  }

  function Limit(tasks: seq<Task>, c: nat): real
    requires c > 0
  {
    Capacity(tasks, c) + Times(c - 1, MaxTailFrom(tasks, 0))
  }

  /** The clock, and the latest end of every running tail, stay within c times the bound. */
  predicate EndsInTime(tasks: seq<Task>, p: Pool)
    requires |p.workers| > 0
  {
    && Times(|p.workers|, p.now) <= Limit(tasks, |p.workers|)
    && forall s <- p.workers :: s.Probing? ==> Times(|p.workers|, p.now + s.left) <= Limit(tasks, |p.workers|)
  }

  predicate TailsWithinBudget(tasks: seq<Task>, ws: seq<Slot>)
    requires SlotsOk(tasks, ws)
  {
    forall s <- ws :: s.Probing? ==> s.left <= tasks[s.task].tail
  }

  predicate Inv(tasks: seq<Task>, p: Pool) {
    && ValidTasks(tasks)
    && WellFormed(tasks, p)
    && |p.workers| > 0
    && TailsWithinBudget(tasks, p.workers)
    && (Exited in p.workers ==> p.closed || p.next >= |tasks|)
    && (MatPending(tasks, p) ==> WorkConserved(tasks, p))
    && EndsInTime(tasks, p)
  }

  lemma {:induction false} FromNonNegative(tasks: seq<Task>, k: nat)
    requires ValidTasks(tasks)
    ensures MatFrom(tasks, k) >= 0.0 && TailFrom(tasks, k) >= 0.0
    decreases |tasks| - k
  {
    if k < |tasks| {
      assert tasks[k] in tasks;
      FromNonNegative(tasks, k + 1);
    }
  }

  /** One tail of length `left` on top of `now`, when now costs c workers and left one. */
  lemma LastTail(c: nat, now: real, left: real, most: real, cap: real)
    requires c > 0 && left <= most && Times(c, now) + left <= cap
    ensures Times(c, now + left) <= cap + Times(c - 1, most)
  {
    TimesAdds(c, now, left);
    TimesMonotone(c - 1, left, most);
  }

  lemma ConservedEndsInTime(tasks: seq<Task>, p: Pool)
    requires ValidTasks(tasks) && WellFormed(tasks, p) && |p.workers| > 0 && WorkConserved(tasks, p)
    requires TailsWithinBudget(tasks, p.workers)
    ensures EndsInTime(tasks, p)
  {
    var c, most, cap := |p.workers|, MaxTailFrom(tasks, 0), Capacity(tasks, |p.workers|);
    FromNonNegative(tasks, p.next);
    SumsNonNegative(tasks, p.workers);
    TimesMonotone(c, p.now, Elapsed(tasks, p));
    LastTail(c, p.now, 0.0, most, cap);
    forall s | s in p.workers && s.Probing?
      ensures Times(c, p.now + s.left) <= Limit(tasks, c)
    {
      LastTail(c, p.now, s.left, most, cap);
    }
  }

  lemma {:induction false} FreeSlotsOweNothing(tasks: seq<Task>, ws: seq<Slot>)
    requires forall s <- ws :: s.Free?
    ensures SumMat(ws) == 0.0 && SumTail(tasks, ws) == 0.0
  {
    if ws != [] {
      assert ws[0] in ws;
      FreeSlotsOweNothing(tasks, ws[1..]);
    }
  }

  lemma InitInv(tasks: seq<Task>, maxConcurrency: nat)
    requires ValidTasks(tasks) && tasks != [] && maxConcurrency > 0
    ensures Inv(tasks, Init(tasks, maxConcurrency))
  {
    var p := Init(tasks, maxConcurrency);
    FreeSlotsOweNothing(tasks, p.workers);
    ConservedEndsInTime(tasks, p);
  }

  /** What an instantaneous move of one worker does to the two sums. */
  lemma MoveOwesNoMore(tasks: seq<Task>, p: Pool, a: Step)
    requires ValidTasks(tasks) && WellFormed(tasks, p) && Enabled(tasks, p, a) && !a.Elapse?
    ensures var q := Next(tasks, p, a);
      && WellFormed(tasks, q)
      && q.now == p.now && |q.workers| == |p.workers|
      && Elapsed(tasks, q) <= Elapsed(tasks, p)
      && TailOwed(tasks, q) <= TailOwed(tasks, p)
  {
    var q := Next(tasks, p, a);
    var s := q.workers[a.w];
    assert p.workers[a.w] in p.workers;
    if a.Claim? { assert tasks[p.next] in tasks; }
    if a.CacheHit? || a.Materialized? || a.Fail? { assert tasks[p.workers[a.w].task] in tasks; }
    assert SlotsOk(tasks, [s]);
    assert q.workers == p.workers[a.w := s];
    SumMatUpdate(p.workers, a.w, s);
    SumTailUpdate(tasks, p.workers, a.w, s);
  }

  lemma MoveInv(tasks: seq<Task>, p: Pool, a: Step)
    requires Inv(tasks, p) && Enabled(tasks, p, a) && !a.Elapse?
    ensures Inv(tasks, Next(tasks, p, a))
  {
    var q := Next(tasks, p, a);
    MoveOwesNoMore(tasks, p, a);
    assert TailsWithinBudget(tasks, q.workers);
    if MatPending(tasks, p) {
      TimesMonotone(|p.workers|, Elapsed(tasks, q), Elapsed(tasks, p));
      ConservedEndsInTime(tasks, q);
    } else {
      assert p.workers[a.w] in p.workers;
      assert !MatPending(tasks, q);
    }
  }

  /** With the lane idle and nobody inspecting, an image can only be pending in the queue,
      so every worker is occupied by a tail. */
  lemma AllProbing(tasks: seq<Task>, p: Pool, dt: real)
    requires MayElapse(p, dt) && MatPending(tasks, p) && (Exited in p.workers ==> p.closed || p.next >= |tasks|)
    requires !exists s <- p.workers :: s.Inspecting? || s.Pulling?
    ensures forall s <- p.workers :: s.Probing?
  {
    assert LaneFree(p);
  }

  lemma ElapseConserves(tasks: seq<Task>, p: Pool, dt: real)
    requires WellFormed(tasks, p) && WorkConserved(tasks, p) && MayElapse(p, dt) && MatPending(tasks, p)
    requires Exited in p.workers ==> p.closed || p.next >= |tasks|
    ensures WellFormed(tasks, Next(tasks, p, Elapse(dt))) && WorkConserved(tasks, Next(tasks, p, Elapse(dt)))
  {
    var c := |p.workers|;
    AgeSpends(tasks, p.workers, dt);
    var q := Next(tasks, p, Elapse(dt));
    assert q.workers == Aged(p.workers, dt);
    if exists s <- p.workers :: s.Inspecting? || s.Pulling? {
      TimesMonotone(c, Elapsed(tasks, q), Elapsed(tasks, p));
    } else {
      AllProbing(tasks, p, dt);
      TimesMonotone(c, Elapsed(tasks, q), Elapsed(tasks, p) + dt);
      TimesAdds(c, Elapsed(tasks, p), dt);
    }
  }

  /** Once every image is materialized, time only brings running tails closer to an
      end that is already accounted for. */
  lemma ElapseEndsInTime(tasks: seq<Task>, p: Pool, dt: real)
    requires WellFormed(tasks, p) && |p.workers| > 0 && EndsInTime(tasks, p) && MayElapse(p, dt) && !MatPending(tasks, p)
    ensures EndsInTime(tasks, Next(tasks, p, Elapse(dt)))
  {
    var c := |p.workers|;
    var q := Next(tasks, p, Elapse(dt));
    forall s | s in q.workers && s.Probing? ensures Times(c, q.now + s.left) <= Limit(tasks, c) {
      var k :| 0 <= k < |q.workers| && q.workers[k] == s;
      WorkerElapses(tasks, p, dt, k);
    }
    var r :| r in p.workers && r.Active();
    TimesMonotone(c, q.now, p.now + r.left);
  }

  lemma ElapseStaysDone(tasks: seq<Task>, p: Pool, dt: real)
    requires WellFormed(tasks, p) && MayElapse(p, dt) && !MatPending(tasks, p)
    ensures !MatPending(tasks, Next(tasks, p, Elapse(dt)))
  {
    var q := Next(tasks, p, Elapse(dt));
    forall k | 0 <= k < |q.workers| ensures !q.workers[k].Materializing() { WorkerElapses(tasks, p, dt, k); }
  }

  lemma WorkerElapses(tasks: seq<Task>, p: Pool, dt: real, k: nat)
    requires WellFormed(tasks, p) && MayElapse(p, dt) && k < |p.workers|
    ensures var q := Next(tasks, p, Elapse(dt));
      && |q.workers| == |p.workers| && p.workers[k] in p.workers
      && (q.workers[k].Materializing() <==> p.workers[k].Materializing())
      && (q.workers[k].Probing? ==> p.workers[k].Probing? && q.now + q.workers[k].left == p.now + p.workers[k].left)
  {}

  lemma ElapseInv(tasks: seq<Task>, p: Pool, dt: real)
    requires Inv(tasks, p) && MayElapse(p, dt)
    ensures Inv(tasks, Next(tasks, p, Elapse(dt)))
  {
    var q := Next(tasks, p, Elapse(dt));
    AgeSpends(tasks, p.workers, dt);
    assert q.workers == Aged(p.workers, dt);
    forall s | s in q.workers
      ensures s.Probing? ==> s.left <= tasks[s.task].tail
      ensures s == Exited ==> Exited in p.workers
    {
      var k :| 0 <= k < |q.workers| && q.workers[k] == s;
      assert p.workers[k] in p.workers;
    }
    if MatPending(tasks, p) {
      ElapseConserves(tasks, p, dt);
      ConservedEndsInTime(tasks, q);
    } else {
      ElapseStaysDone(tasks, p, dt);
      ElapseEndsInTime(tasks, p, dt);
    }
  }

  lemma StepInv(tasks: seq<Task>, p: Pool, a: Step)
    requires Inv(tasks, p) && Enabled(tasks, p, a)
    ensures Inv(tasks, Next(tasks, p, a))
  {
    if a.Elapse? { ElapseInv(tasks, p, a.dt); } else { MoveInv(tasks, p, a); }
  }

  // ---- Whole runs ----------------------------------------------------------------------

  predicate Run(tasks: seq<Task>, p: Pool, steps: seq<Step>, q: Pool)
    decreases |steps|
  {
    if steps == [] then p == q
    else WellFormed(tasks, p) && Enabled(tasks, p, steps[0]) && Run(tasks, Next(tasks, p, steps[0]), steps[1..], q)
  }

  lemma {:induction false} RunInv(tasks: seq<Task>, p: Pool, steps: seq<Step>, q: Pool)
    requires Inv(tasks, p) && Run(tasks, p, steps, q)
    ensures Inv(tasks, q) && |q.workers| == |p.workers|
    decreases |steps|
  {
    if steps != [] {
      StepInv(tasks, p, steps[0]);
      RunInv(tasks, Next(tasks, p, steps[0]), steps[1..], q);
    }
  }

  lemma BoundFromLimit(c: real, now: real, mat: real, tail: real, most: real)
    requires c > 0.0 && c * now <= c * mat + tail + (c - 1.0) * most
    ensures now <= mat + (tail / c + (1.0 - 1.0 / c) * most)
  {
    var bound := mat + (tail / c + (1.0 - 1.0 / c) * most);
    assert c * (tail / c) == tail;
    assert c * ((1.0 - 1.0 / c) * most) == (c - 1.0) * most by {
      assert c * (1.0 - 1.0 / c) == c - 1.0;
    }
    assert c * bound == c * mat + tail + (c - 1.0) * most;
    assert c * (now - bound) <= 0.0;
  }

  lemma WithinBound(tasks: seq<Task>, maxConcurrency: nat, now: real)
    requires tasks != [] && maxConcurrency > 0
    requires Times(Workers(tasks, maxConcurrency), now) <= Limit(tasks, Workers(tasks, maxConcurrency))
    ensures now <= Bound(tasks, maxConcurrency)
  {
    var c := Workers(tasks, maxConcurrency);
    TimesIsProduct(c, now);
    TimesIsProduct(c, MatFrom(tasks, 0));
    TimesIsProduct(c - 1, MaxTailFrom(tasks, 0));
    BoundFromLimit(c as real, now, MatFrom(tasks, 0), TailFrom(tasks, 0), MaxTailFrom(tasks, 0));
  }

  /** No run, with any failures and any use of the budgets, outlives the preflight bound. */
  lemma Makespan(tasks: seq<Task>, maxConcurrency: nat, steps: seq<Step>, q: Pool)
    requires ValidTasks(tasks) && tasks != [] && maxConcurrency > 0
    requires Run(tasks, Init(tasks, maxConcurrency), steps, q)
    ensures q.now <= Bound(tasks, maxConcurrency)
  {
    InitInv(tasks, maxConcurrency);
    RunInv(tasks, Init(tasks, maxConcurrency), steps, q);
    WithinBound(tasks, maxConcurrency, q.now);
  }

  // ---- Every task is accounted for -------------------------------------------------------

  /** Which task a worker has in hand, or -1. */
  function Held(s: Slot): int {
    if s.Busy() then s.task else -1
  }

  function Hands(ws: seq<Slot>): seq<int> {
    seq(|ws|, k requires 0 <= k < |ws| => Held(ws[k]))
  }

  /** A claimed task without an outcome is in some worker's hands; a held task has no
      outcome yet; and no two workers hold the same task. */
  predicate HandsCover(next: nat, outcomes: seq<Outcome>, hands: seq<int>) {
    && next <= |outcomes|
    && (forall i :: 0 <= i < next && outcomes[i].Pending? ==> i in hands)
    && (forall i :: next <= i < |outcomes| ==> outcomes[i].Pending?)
    && (forall w :: 0 <= w < |hands| && hands[w] >= 0 ==> hands[w] < next && outcomes[hands[w]].Pending?)
    && (forall v, w :: 0 <= v < w < |hands| && hands[v] >= 0 ==> hands[v] != hands[w])
  }

  predicate Accounted(tasks: seq<Task>, p: Pool) {
    && WellFormed(tasks, p)
    && HandsCover(p.next, p.outcomes, Hands(p.workers))
    && (p.closed <==> Failed in p.outcomes)
    && (Exited in p.workers ==> p.closed || p.next >= |tasks|)
  }

  lemma HandsClaim(next: nat, outcomes: seq<Outcome>, hands: seq<int>, w: nat)
    requires HandsCover(next, outcomes, hands) && w < |hands| && hands[w] == -1 && next < |outcomes|
    ensures HandsCover(next + 1, outcomes, hands[w := next])
  {
    var after := hands[w := next];
    forall i | 0 <= i < next + 1 && outcomes[i].Pending? ensures i in after {
      if i < next {
        var k :| 0 <= k < |hands| && hands[k] == i;
        assert after[k] == i;
      } else {
        assert after[w] == i;
      }
    }
  }

  lemma HandsSettle(next: nat, outcomes: seq<Outcome>, hands: seq<int>, w: nat, o: Outcome)
    requires HandsCover(next, outcomes, hands) && w < |hands| && hands[w] >= 0 && !o.Pending?
    ensures HandsCover(next, outcomes[hands[w] := o], hands[w := -1])
  {
    var after := hands[w := -1];
    forall i | 0 <= i < next && outcomes[hands[w] := o][i].Pending? ensures i in after {
      var k :| 0 <= k < |hands| && hands[k] == i;
      assert after[k] == i;
    }
  }

  lemma StepHands(tasks: seq<Task>, p: Pool, a: Step)
    requires Accounted(tasks, p) && Enabled(tasks, p, a)
    ensures var q := Next(tasks, p, a); HandsCover(q.next, q.outcomes, Hands(q.workers))
  {
    var q, hands := Next(tasks, p, a), Hands(p.workers);
    if a.Elapse? {
      assert Hands(q.workers) == hands;
    } else {
      assert Hands(q.workers) == hands[a.w := Held(q.workers[a.w])];
      if a.Claim? {
        HandsClaim(p.next, p.outcomes, hands, a.w);
      } else if a.Record? || a.Fail? {
        HandsSettle(p.next, p.outcomes, hands, a.w, if a.Fail? then Failed else Recorded);
      } else {
        assert Hands(q.workers) == hands;
      }
    }
  }

  lemma StepAccounted(tasks: seq<Task>, p: Pool, a: Step)
    requires Accounted(tasks, p) && ValidTasks(tasks) && Enabled(tasks, p, a)
    ensures Accounted(tasks, Next(tasks, p, a))
  {
    StepHands(tasks, p, a);
    if a.Elapse? {
      AgeSpends(tasks, p.workers, a.dt);
      AgedExits(p.workers, a.dt);
      assert Next(tasks, p, a).workers == Aged(p.workers, a.dt);
    } else {
      MoveOwesNoMore(tasks, p, a);
      FailureCloses(tasks, p, a);
    }
  }

  lemma AgedExits(ws: seq<Slot>, dt: real)
    ensures Exited in Aged(ws, dt) ==> Exited in ws
  {
    if Exited in Aged(ws, dt) {
      var w :| 0 <= w < |ws| && Aged(ws, dt)[w] == Exited;
      assert ws[w] == Exited;
    }
  }

  /** Admission is closed exactly when some task has failed. */
  lemma FailureCloses(tasks: seq<Task>, p: Pool, a: Step)
    requires Accounted(tasks, p) && Enabled(tasks, p, a) && !a.Elapse?
    ensures Next(tasks, p, a).closed <==> Failed in Next(tasks, p, a).outcomes
  {
    var q := Next(tasks, p, a);
    if a.Fail? {
      assert q.outcomes[p.workers[a.w].task] == Failed;
    } else if a.Record? {
      var i := p.workers[a.w].task;
      assert Hands(p.workers)[a.w] == i && p.outcomes[i].Pending?;
      if Failed in p.outcomes {
        var k :| 0 <= k < |p.outcomes| && p.outcomes[k] == Failed;
        assert q.outcomes[k] == Failed;
      }
    }
  }

  /** A slot's distance, in moves, from leaving the pool. */
  function SlotRank(s: Slot): nat {
    match s
    case Exited => 0
    case Free => 1
    case Probing(_, _) => 2
    case Pulling(_, _) => 3
    case Waiting(_, _) => 4
    case Inspecting(_, _) => 5
  }

  function SumRank(ws: seq<Slot>): nat {
    if ws == [] then 0 else SlotRank(ws[0]) + SumRank(ws[1..])
  }

  function Rank(tasks: seq<Task>, p: Pool): nat
    requires p.next <= |tasks|
  {
    6 * (|tasks| - p.next) + SumRank(p.workers)
  }

  lemma {:induction false} SumRankUpdate(ws: seq<Slot>, w: nat, s: Slot)
    requires w < |ws|
    ensures SumRank(ws[w := s]) == SumRank(ws) - SlotRank(ws[w]) + SlotRank(s)
  {
    if w == 0 {
      assert ws[w := s][1..] == ws[1..];
    } else {
      SumRankUpdate(ws[1..], w - 1, s);
      assert ws[w := s][1..] == ws[1..][w - 1 := s];
    }
  }

  lemma {:induction false} AgedRank(ws: seq<Slot>, dt: real)
    ensures SumRank(Aged(ws, dt)) == SumRank(ws)
  {
    if ws != [] {
      AgedRank(ws[1..], dt);
      assert Aged(ws, dt)[1..] == Aged(ws[1..], dt);
    }
  }

  lemma {:induction false} FreeRank(ws: seq<Slot>)
    requires forall s <- ws :: s.Free?
    ensures SumRank(ws) == |ws|
  {
    if ws != [] {
      assert ws[0] in ws;
      FreeRank(ws[1..]);
    }
  }

  function Moves(steps: seq<Step>): nat {
    if steps == [] then 0 else (if steps[0].Elapse? then 0 else 1) + Moves(steps[1..])
  }

  lemma StepRank(tasks: seq<Task>, p: Pool, a: Step)
    requires Accounted(tasks, p) && ValidTasks(tasks) && Enabled(tasks, p, a)
    ensures Next(tasks, p, a).next <= |tasks|
    ensures Rank(tasks, Next(tasks, p, a)) + Moves([a]) <= Rank(tasks, p)
  {
    var q := Next(tasks, p, a);
    if a.Elapse? {
      assert q.workers == Aged(p.workers, a.dt);
      AgedRank(p.workers, a.dt);
    } else {
      SumRankUpdate(p.workers, a.w, q.workers[a.w]);
    }
  }

  lemma {:induction false} RunAccounted(tasks: seq<Task>, p: Pool, steps: seq<Step>, q: Pool)
    requires Accounted(tasks, p) && ValidTasks(tasks) && Run(tasks, p, steps, q)
    ensures Accounted(tasks, q)
    ensures Rank(tasks, q) + Moves(steps) <= Rank(tasks, p)
    decreases |steps|
  {
    if steps != [] {
      StepAccounted(tasks, p, steps[0]);
      StepRank(tasks, p, steps[0]);
      RunAccounted(tasks, Next(tasks, p, steps[0]), steps[1..], q);
    }
  }

  predicate Finished(p: Pool) {
    forall s <- p.workers :: s.Exited?
  }

  /** A pool that has not finished can always move. */
  lemma NeverStuck(tasks: seq<Task>, p: Pool)
    requires WellFormed(tasks, p) && !Finished(p)
    ensures exists a: Step :: Enabled(tasks, p, a)
  {
    var w :| 0 <= w < |p.workers| && !p.workers[w].Exited?;
    if p.workers[w].Free? {
      assert Enabled(tasks, p, Claim(w)) || Enabled(tasks, p, Leave(w));
    } else if p.workers[w].Active() {
      assert Enabled(tasks, p, Fail(w));
    } else if LaneFree(p) {
      assert Enabled(tasks, p, EnterLane(w));
    } else {
      var v :| 0 <= v < |p.workers| && p.workers[v].Pulling?;
      assert Enabled(tasks, p, Materialized(v));
    }
  }

  /** A finished pool has a failure or a record for every task: the "lost a task
      result" error of the source is unreachable. */
  lemma NoResultLost(tasks: seq<Task>, q: Pool)
    requires Accounted(tasks, q) && |q.workers| > 0 && Finished(q)
    ensures Failed in q.outcomes || forall o <- q.outcomes :: o == Recorded
  {
    forall k | 0 <= k < |q.workers| ensures Hands(q.workers)[k] == -1 && q.workers[k] == Exited {
      assert q.workers[k] in q.workers;
    }
    if Failed !in q.outcomes {
      assert q.workers[0] == Exited;
      forall i | 0 <= i < |q.outcomes| ensures q.outcomes[i] == Recorded {
        assert q.outcomes[i] in q.outcomes;
      }
    }
  }

  /** Every run makes boundedly many moves, is never stuck before the pool empties,
      probes only tasks without an outcome, and loses no result. */
  lemma PoolCompletes(tasks: seq<Task>, maxConcurrency: nat, steps: seq<Step>, q: Pool)
    requires ValidTasks(tasks) && tasks != [] && maxConcurrency > 0
    requires Run(tasks, Init(tasks, maxConcurrency), steps, q)
    ensures Moves(steps) <= 6 * |tasks| + Workers(tasks, maxConcurrency)
    ensures !Finished(q) ==> exists a: Step :: Enabled(tasks, q, a)
    ensures Finished(q) ==> Failed in q.outcomes || forall o <- q.outcomes :: o == Recorded
    ensures HandsCover(q.next, q.outcomes, Hands(q.workers))
  {
    var p := Init(tasks, maxConcurrency);
    FreeRank(p.workers);
    RunAccounted(tasks, p, steps, q);
    InitInv(tasks, maxConcurrency);
    RunInv(tasks, p, steps, q);
    if Finished(q) { NoResultLost(tasks, q); } else { NeverStuck(tasks, q); }
  }

  // ---- Budgets: what preflight reads from a task and what the prober enforces ----------

  const INSPECT_SECONDS := 15.0
  const MAX_INSPECTIONS := 3.0
  const TERMINATION_SECONDS := 4.0
  const NETWORK_TRANSITION_SECONDS := 60.0
  const NETWORK_TRANSITIONS := 2.0
  const CLEANUP_GRACE_SECONDS := 64.0

  datatype Healthcheck = Healthcheck(timeout: real, interval: real, startPeriod: real, startInterval: real, retries: int)
  datatype Option<T> = None | Some(value: T)
  datatype TaskFile = TaskFile(pinned: bool, build: real, verifierTimeout: real, separate: bool, healthcheck: Option<Healthcheck>)

  predicate ValidHealthcheck(h: Healthcheck) {
    h.timeout > 0.0 && h.interval >= 0.0 && h.startPeriod >= 0.0 && h.startInterval >= 0.0 && h.retries > 0
  }

  function HealthcheckBound(h: Option<Healthcheck>): Option<real> {
    match h
    case None => Some(0.0)
    case Some(h) =>
      if !ValidHealthcheck(h) then None
      else Some(h.startPeriod + h.timeout + h.startInterval + h.retries as real * h.timeout + (h.retries - 1) as real * h.interval)
  }

  /** preflight.py: one entry's budgets, or None where it raises. */
  function EntryBudget(t: TaskFile): (r: Option<Task>)
    ensures r.Some? ==> r.value.mat > 0.0 && r.value.tail > 0.0
  {
    if t.build <= 0.0 || t.verifierTimeout <= 0.0 then None
    else
      var health := if t.separate then Some(0.0) else HealthcheckBound(t.healthcheck);
      if health.None? then None
      else
        HealthcheckNonNegative(t.healthcheck);
        Some(Task(t.pinned,
                  t.build + MAX_INSPECTIONS * INSPECT_SECONDS + TERMINATION_SECONDS,
                  t.build + t.verifierTimeout + health.value
                    + NETWORK_TRANSITIONS * NETWORK_TRANSITION_SECONDS + CLEANUP_GRACE_SECONDS + TERMINATION_SECONDS))
  }

  lemma HealthcheckNonNegative(h: Option<Healthcheck>)
    ensures HealthcheckBound(h).Some? ==> HealthcheckBound(h).value >= 0.0
  {
    if h.Some? && ValidHealthcheck(h.value) {
      Product(h.value.retries as real, h.value.timeout);
      Product((h.value.retries - 1) as real, h.value.interval);
    }
  }

  lemma Product(x: real, y: real)
    requires x >= 0.0 && y >= 0.0
    ensures x * y >= 0.0
  {}

  function EntryBudgets(files: seq<TaskFile>): (r: Option<seq<Task>>)
    ensures r.Some? ==> |r.value| == |files| && ValidTasks(r.value)
    ensures r.Some? ==> forall i :: 0 <= i < |files| ==> EntryBudget(files[i]) == Some(r.value[i])
  {
    if files == [] then Some([])
    else
      var first := EntryBudget(files[0]);
      var rest := EntryBudgets(files[1..]);
      if first.None? || rest.None? then None else Some([first.value] + rest.value)
  }

  /** preflight.py `verifier_readiness_timeout`, with None for its ValueErrors. */
  function ReadinessTimeout(files: seq<TaskFile>, maxConcurrency: int): Option<real> {
    if maxConcurrency <= 0 || files == [] then None
    else
      var tasks := EntryBudgets(files);
      if tasks.None? then None else Some(Bound(tasks.value, maxConcurrency))
  }

  // ---- Image materialization: one probe's commands against its budget -------------------

  /** One owned docker command: it exits within its timeout, is killed after the
      timeout at the price of a bounded termination, or cannot be started. */
  datatype Command = Exits(seconds: real, ok: bool, parses: bool) | Killed(overrun: real) | NotStarted

  predicate Legal(c: Command, timeout: real) {
    match c
    case Exits(s, _, _) => 0.0 <= s <= timeout
    case Killed(o) => 0.0 <= o <= TERMINATION_SECONDS
    case NotStarted => true
  }

  function Spent(c: Command, timeout: real): real {
    match c
    case Exits(s, _, _) => s
    case Killed(o) => timeout + o
    case NotStarted => 0.0
  }

  datatype Source = PinnedCache | Pulled
  datatype Materialization = Materialization(outside: real, lane: real, source: Option<Source>)

  /** verifier_readiness.py `_inspect_image`: seconds outside and inside the lane, and
      the image source, None where it raises. */
  function InspectImage(pinned: bool, build: real, cache: Command, again: Command, pull: Command, post: Command): Materialization {
    var outside := if pinned then Spent(cache, INSPECT_SECONDS) else 0.0;
    if pinned && (!cache.Exits? || cache.ok) then
      Materialization(outside, 0.0, if cache.Exits? && cache.parses then Some(PinnedCache) else None)
    else
      var recheck := if pinned then Spent(again, INSPECT_SECONDS) else 0.0;
      if pinned && (!again.Exits? || again.ok) then
        Materialization(outside, recheck, if again.Exits? && again.parses then Some(PinnedCache) else None)
      else if !pull.Exits? || !pull.ok then
        Materialization(outside, recheck + Spent(pull, build), None)
      else
        Materialization(outside, recheck + Spent(pull, build) + Spent(post, INSPECT_SECONDS),
                        if post.Exits? && post.ok && post.parses then Some(Pulled) else None)
  }

  /** Every path through `_inspect_image` fits the materialization budget, a mutable
      tag is never answered from the cache, and a cache hit never takes the lane
      first; the budget is the least one with this property. */
  lemma MaterializationFitsBudget(t: TaskFile, cache: Command, again: Command, pull: Command, post: Command)
    requires EntryBudget(t).Some?
    requires Legal(cache, INSPECT_SECONDS) && Legal(again, INSPECT_SECONDS) && Legal(pull, t.build) && Legal(post, INSPECT_SECONDS)
    ensures var m := InspectImage(t.pinned, t.build, cache, again, pull, post);
      && 0.0 <= m.outside && 0.0 <= m.lane
      && m.outside + m.lane <= EntryBudget(t).value.mat
      && (!t.pinned ==> m.outside == 0.0 && m.source != Some(PinnedCache))
      && (m.source == Some(PinnedCache) ==> m.outside + m.lane <= 2.0 * INSPECT_SECONDS)
    ensures t.pinned ==> exists c: Command, a: Command, p: Command, q: Command ::
      && Legal(c, INSPECT_SECONDS) && Legal(a, INSPECT_SECONDS) && Legal(p, t.build) && Legal(q, INSPECT_SECONDS)
      && InspectImage(true, t.build, c, a, p, q).outside + InspectImage(true, t.build, c, a, p, q).lane == EntryBudget(t).value.mat
  {
    var miss := Exits(INSPECT_SECONDS, false, false);
    var full := Exits(t.build, true, true);
    var killed := Killed(TERMINATION_SECONDS);
    assert Legal(full, t.build);
    assert InspectImage(true, t.build, miss, miss, full, killed).outside + InspectImage(true, t.build, miss, miss, full, killed).lane
        == 3.0 * INSPECT_SECONDS + t.build + TERMINATION_SECONDS;
  }

  /** The timeout preflight grants covers every run of the pool on the same tasks. */
  lemma ReadinessTimeoutSuffices(files: seq<TaskFile>, maxConcurrency: int, steps: seq<Step>, q: Pool)
    requires ReadinessTimeout(files, maxConcurrency).Some?
    requires Run(EntryBudgets(files).value, Init(EntryBudgets(files).value, maxConcurrency), steps, q)
    ensures q.now <= ReadinessTimeout(files, maxConcurrency).value
  {
    Makespan(EntryBudgets(files).value, maxConcurrency, steps, q);
  }
}
