/** The probe tail's deadline arithmetic: scripts/harness/verifier_readiness.py,
    `probe_task_readiness`, `_await_tail_stage`, `_verifier_phase` and
    `_strict_delete_environment`.  Times are reals on the event loop's clock. */
module TailDeadline {
  import Schedule = ReadinessSchedule

  /** How an awaited operation behaves: the seconds it needs, whether it then raises,
      and the seconds its cancellation takes should it be cut off. */
  datatype Operation = Operation(seconds: real, raises: bool, overrun: real)

  predicate Sane(o: Operation) { o.seconds >= 0.0 && o.overrun >= 0.0 }

  /** The clock after an awaited stage, whether it succeeded, and the cancellation
      time it cost beyond its timeout. */
  datatype StageEnd = StageEnd(now: real, ok: bool, overrun: real)

  function Min(x: real, y: real): real { if x <= y then x else y }

  /** `asyncio.wait_for` with a timeout. */
  function WaitFor(now: real, timeout: real, o: Operation): StageEnd {
    if o.seconds <= timeout then StageEnd(now + o.seconds, !o.raises, 0.0)
    else StageEnd(now + timeout + o.overrun, false, o.overrun)
  }

  /** `_await_tail_stage`: nothing is started once the tail deadline has passed. */
  function AwaitStage(now: real, deadline: real, allowance: real, o: Operation): StageEnd {
    if deadline - now <= 0.0 then StageEnd(now, false, 0.0)
    else WaitFor(now, Min(allowance, deadline - now), o)
  }

  /** The allowances of one probe: image start, healthcheck (0 when absent), verifier
      setup, and whether the verifier phase needs its own network policy. */
  datatype Plan = Plan(build: real, health: real, setup: real, transitions: bool)

  datatype Behaviour = Behaviour(start: Operation, health: Operation, enter: Operation, probe: Operation, restore: Operation)

  predicate SaneBehaviour(b: Behaviour) {
    Sane(b.start) && Sane(b.health) && Sane(b.enter) && Sane(b.probe) && Sane(b.restore)
  }

  /** `_task_tail_timeout_bound`. */
  function TailBound(p: Plan): real {
    p.build + p.health + Schedule.NETWORK_TRANSITIONS * Schedule.NETWORK_TRANSITION_SECONDS + p.setup
      + Schedule.CLEANUP_GRACE_SECONDS + Schedule.TERMINATION_SECONDS
  }

  /** `_verifier_phase` around the probe: leaving it restores the network policy whether or
      not the probe succeeded. */
  function VerifierPhase(now: real, deadline: real, p: Plan, b: Behaviour): StageEnd {
    if !p.transitions then AwaitStage(now, deadline, p.setup, b.probe)
    else
      var enter := AwaitStage(now, deadline, Schedule.NETWORK_TRANSITION_SECONDS, b.enter);
      if !enter.ok then enter
      else
        var probe := AwaitStage(enter.now, deadline, p.setup, b.probe);
        var restore := AwaitStage(probe.now, deadline, Schedule.NETWORK_TRANSITION_SECONDS, b.restore);
        StageEnd(restore.now, probe.ok && restore.ok, enter.overrun + probe.overrun + restore.overrun)
  }

  /** Everything before cleanup: the clock when cleanup starts, whether a receipt was
      produced, and the total cancellation overrun. */
  function BeforeCleanup(t0: real, p: Plan, b: Behaviour): StageEnd {
    var deadline := t0 + TailBound(p);
    var start := AwaitStage(t0, deadline, p.build, b.start);
    if !start.ok then start
    else
      var health := if p.health == 0.0 then StageEnd(start.now, true, 0.0) else AwaitStage(start.now, deadline, p.health, b.health);
      if !health.ok then StageEnd(health.now, false, start.overrun + health.overrun)
      else
        var phase := VerifierPhase(health.now, deadline, p, b);
        StageEnd(phase.now, phase.ok, start.overrun + health.overrun + phase.overrun)
  }

  /** A stage takes no more than its allowance and its own overrun, does not pass the tail
      deadline but for that overrun, and succeeds exactly if it fits both and does not raise. */
  lemma StageFits(now: real, deadline: real, allowance: real, o: Operation)
    requires allowance >= 0.0 && Sane(o)
    ensures var s := AwaitStage(now, deadline, allowance, o); now <= s.now <= now + allowance + s.overrun && s.overrun >= 0.0
    ensures now < deadline ==> AwaitStage(now, deadline, allowance, o).now <= deadline + AwaitStage(now, deadline, allowance, o).overrun
    ensures AwaitStage(now, deadline, allowance, o).ok <==>
      now < deadline && o.seconds <= allowance && now + o.seconds <= deadline && !o.raises
  {}

  lemma PhaseFits(now: real, deadline: real, p: Plan, b: Behaviour)
    requires p.setup >= 0.0 && SaneBehaviour(b)
    ensures var s := VerifierPhase(now, deadline, p, b);
      && now <= s.now && s.overrun >= 0.0
      && s.now <= now + Schedule.NETWORK_TRANSITIONS * Schedule.NETWORK_TRANSITION_SECONDS + p.setup + s.overrun
  {
    if !p.transitions {
      StageFits(now, deadline, p.setup, b.probe);
    } else {
      var enter := AwaitStage(now, deadline, Schedule.NETWORK_TRANSITION_SECONDS, b.enter);
      var probe := AwaitStage(enter.now, deadline, p.setup, b.probe);
      StageFits(now, deadline, Schedule.NETWORK_TRANSITION_SECONDS, b.enter);
      StageFits(enter.now, deadline, p.setup, b.probe);
      StageFits(probe.now, deadline, Schedule.NETWORK_TRANSITION_SECONDS, b.restore);
    }
  }

  /** Whatever the stages do, cleanup starts so early that its grace and the termination
      reserve still fit before the tail deadline, but for what cancellations cost. */
  lemma CleanupStartsBy(t0: real, p: Plan, b: Behaviour)
    requires p.build >= 0.0 && p.health >= 0.0 && p.setup >= 0.0 && SaneBehaviour(b)
    ensures var s := BeforeCleanup(t0, p, b);
      && t0 <= s.now && s.overrun >= 0.0
      && s.now + Schedule.CLEANUP_GRACE_SECONDS + Schedule.TERMINATION_SECONDS <= t0 + TailBound(p) + s.overrun
  {
    var deadline := t0 + TailBound(p);
    var start := AwaitStage(t0, deadline, p.build, b.start);
    StageFits(t0, deadline, p.build, b.start);
    if start.ok {
      var health := if p.health == 0.0 then StageEnd(start.now, true, 0.0) else AwaitStage(start.now, deadline, p.health, b.health);
      StageFits(start.now, deadline, p.health, b.health);
      if health.ok { PhaseFits(health.now, deadline, p, b); }
    }
  }

  /** So it starts with its full grace ahead as long as they cost at most the reserve. */
  lemma CleanupKeepsGrace(t0: real, p: Plan, b: Behaviour)
    requires p.build >= 0.0 && p.health >= 0.0 && p.setup >= 0.0 && SaneBehaviour(b)
    requires BeforeCleanup(t0, p, b).overrun <= Schedule.TERMINATION_SECONDS
    ensures t0 <= BeforeCleanup(t0, p, b).now
    ensures BeforeCleanup(t0, p, b).now + Schedule.CLEANUP_GRACE_SECONDS <= t0 + TailBound(p)
  {
    CleanupStartsBy(t0, p, b);
  }

  // ---- Cleanup under one shared deadline ---------------------------------------------

  function Share(now: real, deadline: real, stagesRemaining: nat): real
    requires stagesRemaining > 0
  {
    if deadline - now <= 0.0 then 0.0 else (deadline - now) / stagesRemaining as real
  }

  function Attempt(now: real, deadline: real, stagesRemaining: nat, o: Operation): real
    requires stagesRemaining > 0
  {
    if deadline - now <= 0.0 then now else WaitFor(now, Share(now, deadline, stagesRemaining), o).now
  }

  /** `attempt` over a list of layers, each allowed an equal share of what is left:
      every layer may use at least g seconds and ends by the deadline. */
  predicate LayersGet(now: real, deadline: real, layers: seq<Operation>, g: real)
    decreases |layers|
  {
    layers == [] ||
    (var end := Attempt(now, deadline, |layers|, layers[0]);
     && g <= Share(now, deadline, |layers|)
     && now <= end <= deadline
     && LayersGet(end, deadline, layers[1..], g))
  }

  lemma {:induction false} TimesStrict(n: nat, x: real, y: real)
    requires n > 0 && x < y
    ensures Schedule.Times(n, x) < Schedule.Times(n, y)
  {
    if n > 1 { TimesStrict(n - 1, x, y); }
  }

  /** An equal share of what is left, taken n times, is what is left. */
  lemma ShareTimes(now: real, deadline: real, n: nat)
    requires n > 0 && now <= deadline
    ensures Schedule.Times(n, Share(now, deadline, n)) == deadline - now
    ensures 0.0 <= Share(now, deadline, n) <= deadline - now
  {
    var share := Share(now, deadline, n);
    Schedule.TimesIsProduct(n, share);
    if share < 0.0 {
      TimesStrict(n, share, 0.0);
      Schedule.TimesIsProduct(n, 0.0);
    }
    Schedule.TimesMonotone(n - 1, 0.0, share);
    Schedule.TimesIsProduct(n - 1, 0.0);
  }

  lemma ShareAtLeast(now: real, deadline: real, n: nat, g: real)
    requires n > 0 && g >= 0.0 && deadline - now >= Schedule.Times(n, g) && now <= deadline
    ensures g <= Share(now, deadline, n) <= deadline - now
    ensures deadline - (now + Share(now, deadline, n)) >= Schedule.Times(n - 1, g)
  {
    var share := Share(now, deadline, n);
    ShareTimes(now, deadline, n);
    if share < g { TimesStrict(n, share, g); }
    Schedule.TimesMonotone(n - 1, g, share);
  }

  /** With n layers whose cancellation is immediate and a grace of at least n * g left,
      every layer may use g seconds, and the last one ends by the shared deadline. */
  lemma {:induction false} EveryLayerGetsItsShare(now: real, deadline: real, layers: seq<Operation>, g: real)
    requires g >= 0.0 && now <= deadline && deadline - now >= Schedule.Times(|layers|, g)
    requires forall o <- layers :: Sane(o) && o.overrun == 0.0
    ensures LayersGet(now, deadline, layers, g)
    decreases |layers|
  {
    if layers != [] {
      assert layers[0] in layers;
      ShareAtLeast(now, deadline, |layers|, g);
      EveryLayerGetsItsShare(Attempt(now, deadline, |layers|, layers[0]), deadline, layers[1..], g);
    }
  }

  /** The cleanup of `_strict_delete_environment`: three asynchronous layers, the four
      synchronous file removals (`sync` seconds) between the second and the third. */
  datatype Cleanup = Cleanup(logs: Operation, down: Operation, sync: real, quiescence: Operation)

  function CleanupDeadline(start: real, tailDeadline: real): real {
    Min(start + Schedule.CLEANUP_GRACE_SECONDS, tailDeadline)
  }

  function StrictDelete(start: real, tailDeadline: real, c: Cleanup): (end: real) {
    var deadline := CleanupDeadline(start, tailDeadline);
    var t1 := Attempt(start, deadline, 3, c.logs);
    var t2 := Attempt(t1, deadline, 2, c.down);
    Attempt(t2 + c.sync, deadline, 1, c.quiescence)
  }

  lemma AttemptEnds(now: real, deadline: real, n: nat, o: Operation)
    requires n > 0 && Sane(o)
    ensures now <= Attempt(now, deadline, n, o)
    ensures Attempt(now, deadline, n, o) <= (if now <= deadline then deadline else now) + o.overrun
  {
    if now <= deadline { ShareTimes(now, deadline, n); }
  }

  /** A cleanup that starts by a deadline ends by it, up to synchronous work and the
      cancellation of its own layers. */
  lemma CleanupEndsByDeadline(start: real, tailDeadline: real, c: Cleanup)
    requires start <= tailDeadline && Sane(c.logs) && Sane(c.down) && Sane(c.quiescence) && c.sync >= 0.0
    ensures StrictDelete(start, tailDeadline, c)
         <= CleanupDeadline(start, tailDeadline) + c.sync + c.logs.overrun + c.down.overrun + c.quiescence.overrun
  {
    var deadline := CleanupDeadline(start, tailDeadline);
    var t1 := Attempt(start, deadline, 3, c.logs);
    var t2 := Attempt(t1, deadline, 2, c.down);
    AttemptEnds(start, deadline, 3, c.logs);
    AttemptEnds(t1, deadline, 2, c.down);
    AttemptEnds(t2 + c.sync, deadline, 1, c.quiescence);
  }

  /** With immediate cancellations and instantaneous file removal, each of the three
      layers of a cleanup that keeps its grace is allowed a third of it. */
  lemma CleanupShares(start: real, tailDeadline: real, c: Cleanup)
    requires start + Schedule.CLEANUP_GRACE_SECONDS <= tailDeadline
    requires Sane(c.logs) && Sane(c.down) && Sane(c.quiescence)
    requires c.logs.overrun == c.down.overrun == c.quiescence.overrun == c.sync == 0.0
    ensures
      var deadline := CleanupDeadline(start, tailDeadline);
      var third := Schedule.CLEANUP_GRACE_SECONDS / 3.0;
      var t1 := Attempt(start, deadline, 3, c.logs);
      var t2 := Attempt(t1, deadline, 2, c.down);
      Share(start, deadline, 3) >= third && Share(t1, deadline, 2) >= third && Share(t2, deadline, 1) >= third
        && StrictDelete(start, tailDeadline, c) <= deadline
  {
    var deadline := CleanupDeadline(start, tailDeadline);
    var layers := [c.logs, c.down, c.quiescence];
    Schedule.TimesIsProduct(3, Schedule.CLEANUP_GRACE_SECONDS / 3.0);
    var third := Schedule.CLEANUP_GRACE_SECONDS / 3.0;
    EveryLayerGetsItsShare(start, deadline, layers, third);
    var t1 := Attempt(start, deadline, 3, c.logs);
    var t2 := Attempt(t1, deadline, 2, c.down);
    assert layers[1..] == [c.down, c.quiescence] && layers[1..][1..] == [c.quiescence];
    assert LayersGet(t1, deadline, layers[1..], third) && LayersGet(t2, deadline, layers[1..][1..], third);
    CleanupEndsByDeadline(start, tailDeadline, c);
  }

  predicate SaneCleanup(c: Cleanup) {
    Sane(c.logs) && Sane(c.down) && Sane(c.quiescence) && c.sync >= 0.0
  }

  /** What the tail costs beyond its allowances: every cancellation, before cleanup and in
      it, and the synchronous removals. */
  function Excess(t0: real, p: Plan, b: Behaviour, c: Cleanup): real {
    BeforeCleanup(t0, p, b).overrun + c.sync + c.logs.overrun + c.down.overrun + c.quiescence.overrun
  }

  /** When the tail ends, cleanup included. */
  function TailEnd(t0: real, p: Plan, b: Behaviour, c: Cleanup): real {
    StrictDelete(BeforeCleanup(t0, p, b).now, t0 + TailBound(p), c)
  }

  /** The whole tail, cleanup included, ends within the tail budget preflight grants a task
      and what it costs beyond the termination reserve; so within the budget, whenever all
      its cancellations and synchronous removals together take at most the reserve. */
  lemma TailFitsBudget(t0: real, t: Schedule.TaskFile, b: Behaviour, c: Cleanup, transitions: bool)
    requires Schedule.EntryBudget(t).Some? && SaneBehaviour(b) && SaneCleanup(c)
    requires Excess(t0, ProbePlan(t, transitions), b, c) <= Schedule.TERMINATION_SECONDS
    ensures t0 <= TailEnd(t0, ProbePlan(t, transitions), b, c) <= t0 + Schedule.EntryBudget(t).value.tail
  {
    var p := ProbePlan(t, transitions);
    var start := BeforeCleanup(t0, p, b).now;
    CleanupStartsBy(t0, p, b);
    CleanupEndsByDeadline(start, t0 + TailBound(p), c);
    CleanupEndsAfter(start, t0 + TailBound(p), c);
  }

  lemma CleanupEndsAfter(start: real, tailDeadline: real, c: Cleanup)
    requires SaneCleanup(c)
    ensures start <= StrictDelete(start, tailDeadline, c)
  {
    var deadline := CleanupDeadline(start, tailDeadline);
    var t1 := Attempt(start, deadline, 3, c.logs);
    var t2 := Attempt(t1, deadline, 2, c.down);
    AttemptEnds(start, deadline, 3, c.logs);
    AttemptEnds(t1, deadline, 2, c.down);
    AttemptEnds(t2 + c.sync, deadline, 1, c.quiescence);
  }

  /** The allowances `probe_task_readiness` derives from a task. */
  function ProbePlan(t: Schedule.TaskFile, transitions: bool): (p: Plan)
    requires Schedule.EntryBudget(t).Some?
    ensures p.build >= 0.0 && p.health >= 0.0 && p.setup >= 0.0
    ensures TailBound(p) == Schedule.EntryBudget(t).value.tail
  {
    Schedule.HealthcheckNonNegative(t.healthcheck);
    Plan(t.build, if t.separate then 0.0 else Schedule.HealthcheckBound(t.healthcheck).value, t.verifierTimeout, transitions)
  }

  /** The probe that takes every allowance in full, and no cancellation. */
  function SlowBehaviour(p: Plan): Behaviour {
    Behaviour(Operation(p.build, false, 0.0), Operation(p.health, false, 0.0),
              Operation(Schedule.NETWORK_TRANSITION_SECONDS, false, 0.0), Operation(p.setup, false, 0.0),
              Operation(Schedule.NETWORK_TRANSITION_SECONDS, false, 0.0))
  }

  /** And the cleanup whose last layer is cut off and takes the whole reserve to stop. */
  function SlowCleanup(): Cleanup {
    Cleanup(Operation(0.0, false, 0.0), Operation(0.0, false, 0.0), 0.0,
            Operation(Schedule.CLEANUP_GRACE_SECONDS + 1.0, false, Schedule.TERMINATION_SECONDS))
  }

  lemma SlowStart(t0: real, p: Plan)
    requires p.build >= 0.0 && p.health >= 0.0 && p.setup >= 0.0 && p.transitions
    ensures BeforeCleanup(t0, p, SlowBehaviour(p)) ==
      StageEnd(t0 + TailBound(p) - Schedule.CLEANUP_GRACE_SECONDS - Schedule.TERMINATION_SECONDS, true, 0.0)
  {
    var deadline, b := t0 + TailBound(p), SlowBehaviour(p);
    var start := AwaitStage(t0, deadline, p.build, b.start);
    assert start == StageEnd(t0 + p.build, true, 0.0);
    var health := if p.health == 0.0 then StageEnd(start.now, true, 0.0) else AwaitStage(start.now, deadline, p.health, b.health);
    assert health == StageEnd(t0 + p.build + p.health, true, 0.0);
    var enter := AwaitStage(health.now, deadline, Schedule.NETWORK_TRANSITION_SECONDS, b.enter);
    assert enter == StageEnd(health.now + Schedule.NETWORK_TRANSITION_SECONDS, true, 0.0);
    var probe := AwaitStage(enter.now, deadline, p.setup, b.probe);
    assert probe == StageEnd(enter.now + p.setup, true, 0.0);
  }

  lemma SlowEnd(start: real, tailDeadline: real)
    requires tailDeadline == start + Schedule.CLEANUP_GRACE_SECONDS + Schedule.TERMINATION_SECONDS
    ensures StrictDelete(start, tailDeadline, SlowCleanup()) == tailDeadline
  {
    var deadline := CleanupDeadline(start, tailDeadline);
    ShareTimes(start, deadline, 3);
    ShareTimes(start, deadline, 2);
    assert Attempt(start, deadline, 3, SlowCleanup().logs) == start;
    assert Attempt(start, deadline, 2, SlowCleanup().down) == start;
    assert Share(start, deadline, 1) == Schedule.CLEANUP_GRACE_SECONDS;
  }

  /** The tail budget is the least one with that property: for every task some behaviour
      within the reserve takes all of it. */
  lemma TailTakesBudget(t0: real, t: Schedule.TaskFile)
    requires Schedule.EntryBudget(t).Some?
    ensures exists b: Behaviour, c: Cleanup ::
      && SaneBehaviour(b) && SaneCleanup(c) && Excess(t0, ProbePlan(t, true), b, c) <= Schedule.TERMINATION_SECONDS
      && TailEnd(t0, ProbePlan(t, true), b, c) == t0 + Schedule.EntryBudget(t).value.tail
  {
    var p := ProbePlan(t, true);
    SlowStart(t0, p);
    SlowEnd(BeforeCleanup(t0, p, SlowBehaviour(p)).now, t0 + TailBound(p));
    assert SaneBehaviour(SlowBehaviour(p)) && SaneCleanup(SlowCleanup());
    assert Excess(t0, p, SlowBehaviour(p), SlowCleanup()) == Schedule.TERMINATION_SECONDS;
  }

  // ---- The healthcheck's share -------------------------------------------------------------------

  /** A healthcheck's last attempt of its start period begins at `last` and takes `first`, and
      after it come counted attempts of these durations. */
  datatype Checking = Checking(last: real, first: real, counted: seq<real>)

  /** The last one begins within the start period, if there is one, none takes more than its
      timeout, and at most `retries` are counted. */
  predicate Allowed(h: Schedule.Healthcheck, k: Checking) {
    && (if h.startPeriod > 0.0 then 0.0 <= k.last < h.startPeriod && 0.0 <= k.first <= h.timeout else k.last == k.first == 0.0)
    && |k.counted| <= h.retries
    && forall c <- k.counted :: 0.0 <= c <= h.timeout
  }

  /** When the counted attempts end, an interval between each two of them. */
  function CountedEnd(h: Schedule.Healthcheck, now: real, counted: seq<real>): real
    decreases |counted|
  {
    if counted == [] then now
    else if |counted| == 1 then now + counted[0]
    else CountedEnd(h, now + counted[0] + h.interval, counted[1..])
  }

  function CheckingEnd(h: Schedule.Healthcheck, k: Checking): real {
    CountedEnd(h, k.last + k.first + h.startInterval, k.counted)
  }

  lemma {:induction false} CountedEnds(h: Schedule.Healthcheck, now: real, counted: seq<real>, n: nat)
    requires h.interval >= 0.0 && h.timeout > 0.0 && |counted| <= n && n > 0 && forall c <- counted :: 0.0 <= c <= h.timeout
    ensures CountedEnd(h, now, counted) <= now + Schedule.Times(n, h.timeout) + Schedule.Times(n - 1, h.interval)
    ensures |counted| == n && (forall c <- counted :: c == h.timeout) ==>
      CountedEnd(h, now, counted) == now + Schedule.Times(n, h.timeout) + Schedule.Times(n - 1, h.interval)
    decreases n
  {
    Nonnegative(n, h.timeout);
    Nonnegative(n - 1, h.interval);
    if counted != [] { assert counted[0] in counted; }
    if |counted| > 1 {
      assert forall c <- counted[1..] :: c in counted;
      CountedEnds(h, now + counted[0] + h.interval, counted[1..], n - 1);
    } else if n == 1 {
      assert Schedule.Times(1, h.timeout) == h.timeout + Schedule.Times(0, h.timeout);
    }
  }

  lemma {:induction false} Nonnegative(n: nat, x: real)
    requires x >= 0.0
    ensures Schedule.Times(n, x) >= 0.0 && (n > 0 ==> Schedule.Times(n, x) >= x)
  {
    if n > 0 { Nonnegative(n - 1, x); }
  }

  lemma HealthcheckTimes(h: Schedule.Healthcheck)
    requires Schedule.ValidHealthcheck(h)
    ensures Schedule.HealthcheckBound(Schedule.Some(h)) ==
      Schedule.Some(h.startPeriod + h.timeout + h.startInterval + Schedule.Times(h.retries, h.timeout) + Schedule.Times(h.retries - 1, h.interval))
  {
    var counted, between := h.retries as real * h.timeout, (h.retries - 1) as real * h.interval;
    Schedule.TimesIsProduct(h.retries, h.timeout);
    Schedule.TimesIsProduct(h.retries - 1, h.interval);
    assert Schedule.Times(h.retries, h.timeout) == counted && Schedule.Times(h.retries - 1, h.interval) == between;
    assert Schedule.HealthcheckBound(Schedule.Some(h)).value == h.startPeriod + h.timeout + h.startInterval + counted + between;
  }

  /** Every checking ends within the bound. */
  lemma HealthcheckFitsBound(h: Schedule.Healthcheck, k: Checking)
    requires Schedule.ValidHealthcheck(h) && Allowed(h, k)
    ensures CheckingEnd(h, k) <= Schedule.HealthcheckBound(Schedule.Some(h)).value
  {
    HealthcheckTimes(h);
    CountedEnds(h, k.last + k.first + h.startInterval, k.counted, h.retries);
  }

  /** With a start period no smaller bound would do: for every shorter time some checking
      takes longer. */
  lemma HealthcheckBoundIsLeast(h: Schedule.Healthcheck, shorter: real)
    requires Schedule.ValidHealthcheck(h) && h.startPeriod > 0.0
    requires shorter < Schedule.HealthcheckBound(Schedule.Some(h)).value
    ensures exists x: Checking :: Allowed(h, x) && CheckingEnd(h, x) > shorter
  {
    HealthcheckTimes(h);
    var bound := Schedule.HealthcheckBound(Schedule.Some(h)).value;
    var gap := (if bound - shorter < h.startPeriod then bound - shorter else h.startPeriod) / 2.0;
    var x := Checking(h.startPeriod - gap, h.timeout, seq(h.retries, _ => h.timeout));
    CountedEnds(h, x.last + x.first + h.startInterval, x.counted, h.retries);
    assert Allowed(h, x) && CheckingEnd(h, x) > shorter;
  }
}
