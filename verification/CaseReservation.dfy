/** The case reservation allocator of scripts/harness/case_history.py.  A task's
    reservation is a directory that holds the lease of an owner incarnation (pid and
    start time); every operation runs under one allocator lock. */
module CaseReservation {

  datatype Option<T> = None | Some(value: T)

  type Task = string
  datatype Owner = Owner(pid: nat, start: string)

  /** A reservation directory's content: a lease, or nothing readable. */
  datatype Entry = Unreadable | Lease(owner: Owner)

  type Directory = map<Task, Entry>

  /** /proc: the start time of each live pid. */
  type Processes = map<nat, string>

  predicate Alive(procs: Processes, o: Owner) { o.pid in procs && procs[o.pid] == o.start }

  /** `_reservation_is_live`. */
  predicate Live(procs: Processes, e: Entry) { e.Lease? && Alive(procs, e.owner) }

  predicate LiveAt(procs: Processes, dir: Directory, t: Task) { t in dir && Live(procs, dir[t]) }

  function Elements(tasks: seq<Task>): set<Task> { set t <- tasks }

  predicate Distinct(tasks: seq<Task>) {
    forall j, k :: 0 <= j < k < |tasks| ==> tasks[j] != tasks[k]
  }

  function Publish(dir: Directory, tasks: seq<Task>, o: Owner): Directory {
    dir + map t <- tasks :: Lease(o)
  }

  lemma PublishOneMore(dir: Directory, tasks: seq<Task>, k: nat, o: Owner)
    requires k < |tasks|
    ensures Publish(dir, tasks[..k], o)[tasks[k] := Lease(o)] == Publish(dir, tasks[..k + 1], o)
  {
    assert tasks[..k + 1] == tasks[..k] + [tasks[k]];
  }

  /** Publishing the first k leases leaves the k-th task's entry as it was. */
  lemma PublishLeaves(procs: Processes, dir: Directory, tasks: seq<Task>, k: nat, o: Owner)
    requires k < |tasks| && Distinct(tasks)
    ensures LiveAt(procs, Publish(dir, tasks[..k], o), tasks[k]) <==> LiveAt(procs, dir, tasks[k])
  {
    assert tasks[k] !in tasks[..k];
  }

  /** Nothing was added or altered, and only dead entries of these tasks are gone. */
  predicate Reclaimed(procs: Processes, before: Directory, after: Directory, tasks: seq<Task>) {
    && (forall t <- after :: t in before && after[t] == before[t])
    && (forall t <- before :: t in after || (t in tasks && !LiveAt(procs, before, t)))
  }

  /** Removing the published leases leaves only reclaimed entries missing. */
  lemma ReclaimedPrefix(procs: Processes, before: Directory, tasks: seq<Task>, k: nat, o: Owner)
    requires k <= |tasks| && forall i :: 0 <= i < k ==> !LiveAt(procs, before, tasks[i])
    ensures Reclaimed(procs, before, Publish(before, tasks[..k], o) - Elements(tasks[..k]), tasks)
  {}

  /** The same after the k-th entry was removed and its lease not written. */
  lemma ReclaimedOneMore(procs: Processes, before: Directory, tasks: seq<Task>, k: nat, o: Owner)
    requires k < |tasks| && forall i :: 0 <= i <= k ==> !LiveAt(procs, before, tasks[i])
    ensures Reclaimed(procs, before, Publish(before, tasks[..k], o) - {tasks[k]} - Elements(tasks[..k]), tasks)
  {}

  datatype Outcome = Published | NoOwner | Held(task: Task) | Faulted

  /** The first task whose lease is live or cannot be written, or all of them. */
  function FirstStop(procs: Processes, dir: Directory, tasks: seq<Task>, fault: nat -> bool, i: nat): (k: nat)
    requires i <= |tasks|
    ensures i <= k <= |tasks| && (k < |tasks| ==> LiveAt(procs, dir, tasks[k]) || fault(k))
    ensures forall n :: i <= n < k ==> !LiveAt(procs, dir, tasks[n]) && !fault(n)
    decreases |tasks| - i
  {
    if i == |tasks| || LiveAt(procs, dir, tasks[i]) || fault(i) then i else FirstStop(procs, dir, tasks, fault, i + 1)
  }

  /** What a reserve comes to, by the first obstacle in its way. */
  function Decided(procs: Processes, dir: Directory, tasks: seq<Task>, pid: nat, manifest: bool, fault: nat -> bool): Outcome {
    var k := FirstStop(procs, dir, tasks, fault, 0);
    if pid !in procs then NoOwner
    else if k == |tasks| then if manifest && fault(k) then Faulted else Published
    else if LiveAt(procs, dir, tasks[k]) then Held(tasks[k])
    else Faulted
  }

  /** A reserve publishes exactly if its owner is alive, every lease is free, and nothing
      fails. */
  lemma PublishedIff(procs: Processes, dir: Directory, tasks: seq<Task>, pid: nat, manifest: bool, fault: nat -> bool)
    ensures Decided(procs, dir, tasks, pid, manifest, fault).Published? <==>
      && pid in procs && (forall k :: 0 <= k < |tasks| ==> !LiveAt(procs, dir, tasks[k]) && !fault(k))
      && !(manifest && fault(|tasks|))
  {
    var k := FirstStop(procs, dir, tasks, fault, 0);
  }

  class Allocator {
    var dir: Directory
    var procs: Processes

    /** `_reserve_selection_locked` on the sorted distinct task names; fault(k) is an I/O
        error while the k-th lease is being written, and fault(|tasks|) one while the
        manifest is.  Everything is published, or nothing new is and no live lease is
        touched. */
    method Reserve(tasks: seq<Task>, pid: nat, manifest: bool, fault: nat -> bool) returns (r: Outcome)
      requires Distinct(tasks)
      modifies this`dir
      ensures r == Decided(procs, old(dir), tasks, pid, manifest, fault)
      ensures r.Published? ==> dir == Publish(old(dir), tasks, Owner(pid, procs[pid]))
      ensures !r.Published? ==> Reclaimed(procs, old(dir), dir, tasks)
    {
      if pid !in procs { return NoOwner; }
      var k := AcquireEach(tasks, Owner(pid, procs[pid]), fault);
      if k == |tasks| {
        assert tasks[..k] == tasks;
        if manifest && fault(k) {
          RollBack(tasks, k);
          ReclaimedPrefix(procs, old(dir), tasks, k, Owner(pid, procs[pid]));
          return Faulted;
        }
        return Published;
      }
      if LiveAt(procs, dir, tasks[k]) {
        RollBack(tasks, k);
        ReclaimedPrefix(procs, old(dir), tasks, k, Owner(pid, procs[pid]));
        return Held(tasks[k]);
      }
      RollBack(tasks, k);
      ReclaimedOneMore(procs, old(dir), tasks, k, Owner(pid, procs[pid]));
      r := Faulted;
    }

    /** Unless the lease is live, remove what is there and write the new one. */
    method AcquireOne(t: Task, owner: Owner, fault: bool) returns (ok: bool)
      modifies this`dir
      ensures ok <==> !LiveAt(procs, old(dir), t) && !fault
      ensures ok ==> dir == old(dir)[t := Lease(owner)]
      ensures !ok ==> dir == if LiveAt(procs, old(dir), t) then old(dir) else old(dir) - {t}
    {
      if LiveAt(procs, dir, t) { return false; }
      dir := dir - {t};
      if fault { return false; }
      dir := dir[t := Lease(owner)];
      ok := true;
    }

    /** Reclaim and lease task by task, up to the first one that is live or fails. */
    method AcquireEach(tasks: seq<Task>, owner: Owner, fault: nat -> bool) returns (k: nat)
      requires Distinct(tasks)
      modifies this`dir
      ensures k == FirstStop(procs, old(dir), tasks, fault, 0)
      ensures k == |tasks| ==> dir == Publish(old(dir), tasks[..k], owner)
      ensures k < |tasks| ==> (LiveAt(procs, dir, tasks[k]) <==> LiveAt(procs, old(dir), tasks[k]))
      ensures k < |tasks| ==> if LiveAt(procs, old(dir), tasks[k])
        then dir == Publish(old(dir), tasks[..k], owner)
        else fault(k) && dir == Publish(old(dir), tasks[..k], owner) - {tasks[k]}
    {
      k := 0;
      while k < |tasks|
        invariant 0 <= k <= |tasks|
        invariant dir == Publish(old(dir), tasks[..k], owner)
        invariant FirstStop(procs, old(dir), tasks, fault, k) == FirstStop(procs, old(dir), tasks, fault, 0)
      {
        var t := tasks[k];
        PublishLeaves(procs, old(dir), tasks, k, owner);
        PublishOneMore(old(dir), tasks, k, owner);
        var ok := AcquireOne(t, owner, fault(k));
        if !ok { return; }
        k := k + 1;
      }
    }

    /** The exception handler: remove the acquired reservations again. */
    method RollBack(tasks: seq<Task>, acquired: nat)
      requires acquired <= |tasks|
      modifies this`dir
      ensures dir == old(dir) - Elements(tasks[..acquired])
    {
      var k := 0;
      while k < acquired
        invariant 0 <= k <= acquired
        invariant dir == old(dir) - Elements(tasks[..k])
      {
        assert tasks[..k + 1] == tasks[..k] + [tasks[k]];
        dir := dir - {tasks[k]};
        k := k + 1;
      }
    }

    /** `release_selection`, with the start time its caller read for the owner's pid before
        taking the lock. */
    method Release(tasks: set<Task>, pid: nat, start: Option<string>)
      modifies this`dir
      ensures dir == ReleaseFrom(old(dir), tasks, pid, start)
    {
      var rest := tasks;
      while rest != {}
        invariant rest <= tasks
        invariant dir == ReleaseFrom(old(dir), tasks - rest, pid, start)
        decreases |rest|
      {
        var t :| t in rest;
        if t in dir && Names(dir[t], pid, start) { dir := dir - {t}; }
        rest := rest - {t};
      }
      assert tasks - rest == tasks;
    }
  }

  /** The lease names exactly this pid and start time; a dead owner's read names nothing. */
  predicate Names(e: Entry, pid: nat, start: Option<string>) {
    e.Lease? && e.owner.pid == pid && start == Some(e.owner.start)
  }

  function ReleaseFrom(dir: Directory, tasks: set<Task>, pid: nat, start: Option<string>): Directory {
    map t <- dir | !(t in tasks && Names(dir[t], pid, start)) :: dir[t]
  }

  /** A release by an owner undoes its own publication, task by task, and nothing else: the
      leases of every other owner, and its own of other tasks, stay. */
  lemma ReleaseUndoesPublish(dir: Directory, tasks: seq<Task>, o: Owner)
    ensures ReleaseFrom(Publish(dir, tasks, o), Elements(tasks), o.pid, Some(o.start)) == dir - Elements(tasks)
  {}

  /** A task is gone exactly if it was asked for and leased to that incarnation; the owner that
      was dead when its start time was read releases nothing. */
  lemma ReleaseIsExact(dir: Directory, tasks: set<Task>, o: Owner, t: Task)
    ensures t in ReleaseFrom(dir, tasks, o.pid, Some(o.start)) <==> t in dir && !(t in tasks && dir[t] == Lease(o))
    ensures t in ReleaseFrom(dir, tasks, o.pid, Some(o.start)) ==> ReleaseFrom(dir, tasks, o.pid, Some(o.start))[t] == dir[t]
    ensures ReleaseFrom(dir, tasks, o.pid, None) == dir
  {
    if t in dir && dir[t].Lease? && dir[t].owner.pid == o.pid && dir[t].owner.start == o.start { assert dir[t] == Lease(o); }
  }

  // ---- Selecting a round -----------------------------------------------------------------------

  datatype Selection = Selection(newTasks: set<Task>, regression: set<Task>)

  /** `validate_selection`, None where it raises. */
  function Validate(requested: seq<Task>, recorded: set<Task>, allowed: set<Task>): Option<Selection> {
    var asked := Elements(requested);
    if |requested| < 3 || !Distinct(requested) || !(allowed <= asked) || asked * recorded - allowed != {} then None
    else Some(Selection(asked - recorded, asked * recorded))
  }

  /** An accepted round is split into tasks never measured and tasks measured before, each
      of the latter on the allowlist. */
  lemma ValidSelectionPartitions(requested: seq<Task>, recorded: set<Task>, allowed: set<Task>)
    ensures var v := Validate(requested, recorded, allowed);
      v.Some? ==>
        && v.value.newTasks + v.value.regression == Elements(requested) && v.value.newTasks !! v.value.regression
        && v.value.newTasks !! recorded && v.value.regression <= recorded && v.value.regression <= allowed
        && |v.value.newTasks| + |v.value.regression| == |requested| >= 3
  {
    if Validate(requested, recorded, allowed).Some? {
      DistinctSize(requested);
      var asked := Elements(requested);
      assert asked - recorded + asked * recorded == asked;
      forall t | t in asked * recorded ensures t in allowed { assert t !in asked * recorded - allowed; }
    }
  }

  /** A round is accepted exactly if it has three tasks or more, none twice, the allowlist names
      only tasks of the round, and every task of it measured before is on the allowlist. */
  lemma ValidSelectionIff(requested: seq<Task>, recorded: set<Task>, allowed: set<Task>)
    ensures Validate(requested, recorded, allowed).Some? <==>
      && |requested| >= 3 && (forall j, k :: 0 <= j < k < |requested| ==> requested[j] != requested[k])
      && (forall t <- allowed :: t in requested) && (forall t <- requested :: t in recorded ==> t in allowed)
  {
    var asked := Elements(requested);
    if asked * recorded - allowed != {} { var t :| t in asked * recorded - allowed; }
    if t :| t in requested && t in recorded && t !in allowed { assert t in asked * recorded - allowed; }
  }

  lemma {:induction false} DistinctSize(tasks: seq<Task>)
    requires Distinct(tasks)
    ensures |Elements(tasks)| == |tasks|
  {
    if tasks != [] {
      var n := |tasks| - 1;
      DistinctSize(tasks[..n]);
      assert Elements(tasks) == Elements(tasks[..n]) + {tasks[n]};
    }
  }

  // ---- Whole histories -----------------------------------------------------------------------------

  /** An admitted round: its owner, which tasks it classified as new, and what processes,
      rewards and releases there were at the time. */
  datatype Round = Round(owner: Owner, newTasks: set<Task>, procs: Processes, recorded: set<Task>, released: set<(Owner, Task)>)

  datatype World = World(
    procs: Processes, seen: set<Owner>, dir: Directory,
    recorded: set<Task>,            // tasks with an official reward
    rounds: seq<Round>, released: set<(Owner, Task)>)

  const EMPTY := World(map[], {}, map[], {}, [], {})

  datatype Step =
    | Start(o: Owner)
    | Exit(pid: nat)
    | Reward(task: Task)
    | Admit(pid: nat, requested: seq<Task>, allowed: set<Task>)
    | Cut(pid: nat, requested: seq<Task>, upTo: nat)  // the reserving process is killed midway
    | Refuse(lost: set<Task>)                         // a failed reserve reclaims stale entries only
    | Release(tasks: set<Task>, o: Owner)

  predicate Free(w: World, tasks: seq<Task>) {
    forall t <- tasks :: !LiveAt(w.procs, w.dir, t)
  }

  function RoundOf(w: World, o: Owner, chosen: Selection): Round {
    Round(o, chosen.newTasks, w.procs, w.recorded, w.released)
  }

  predicate Enabled(w: World, a: Step) {
    match a
    case Start(o) => o !in w.seen && o.pid !in w.procs
    case Exit(pid) => pid in w.procs
    case Reward(_) => true
    case Admit(pid, requested, allowed) =>
      pid in w.procs && Validate(requested, w.recorded, allowed).Some? && Free(w, requested)
    case Cut(pid, requested, upTo) => pid in w.procs && upTo <= |requested| && Distinct(requested) && Free(w, requested[..upTo])
    case Refuse(lost) => forall t <- lost :: !LiveAt(w.procs, w.dir, t)
    case Release(_, _) => true
  }

  function Next(w: World, a: Step): World
    requires Enabled(w, a)
  {
    match a
    case Start(o) => w.(procs := w.procs[o.pid := o.start], seen := w.seen + {o})
    case Exit(pid) => w.(procs := w.procs - {pid})
    case Reward(t) => w.(recorded := w.recorded + {t})
    case Admit(pid, requested, allowed) =>
      var o := Owner(pid, w.procs[pid]);
      w.(dir := Publish(w.dir, requested, o), rounds := w.rounds + [RoundOf(w, o, Validate(requested, w.recorded, allowed).value)])
    case Cut(pid, requested, upTo) => w.(dir := Publish(w.dir, requested[..upTo], Owner(pid, w.procs[pid])))
    case Refuse(lost) => w.(dir := w.dir - lost)
    case Release(tasks, o) =>
      w.(dir := ReleaseFrom(w.dir, tasks, o.pid, Some(o.start)), released := w.released + set t <- tasks :: (o, t))
  }

  /** A round's new task is still leased to its owner, was released by that incarnation, or
      the incarnation is dead. */
  predicate Tracked(w: World, r: Round, t: Task) {
    || !Alive(w.procs, r.owner)
    || (r.owner, t) in w.released
    || (t in w.dir && w.dir[t] == Lease(r.owner))
  }

  ghost predicate Inv(w: World) {
    && (forall o: Owner :: o.pid in w.procs && w.procs[o.pid] == o.start ==> o in w.seen)
    && forall k :: 0 <= k < |w.rounds| ==> w.rounds[k].owner in w.seen && forall t <- w.rounds[k].newTasks :: Tracked(w, w.rounds[k], t)
  }

  /** A live lease leaves the directory only by a release that names its incarnation. */
  lemma LiveLeaseIsKept(w: World, a: Step, t: Task)
    requires Enabled(w, a) && LiveAt(w.procs, w.dir, t)
    ensures (t in Next(w, a).dir && Next(w, a).dir[t] == w.dir[t]) || (a.Release? && t in a.tasks && a.o == w.dir[t].owner)
  {
    match a {
      case Admit(_, requested, _) => assert t !in requested;
      case Cut(_, requested, upTo) => assert t !in requested[..upTo];
      case _ =>
    }
  }

  lemma StepTracked(w: World, a: Step, r: Round, t: Task)
    requires Enabled(w, a) && r.owner in w.seen && Tracked(w, r, t)
    ensures Tracked(Next(w, a), r, t)
  {
    if Alive(w.procs, r.owner) && (r.owner, t) !in w.released {
      assert LiveAt(w.procs, w.dir, t);
      LiveLeaseIsKept(w, a, t);
    }
  }

  lemma StepInv(w: World, a: Step)
    requires Inv(w) && Enabled(w, a)
    ensures Inv(Next(w, a))
  {
    var v := Next(w, a);
    forall k | 0 <= k < |v.rounds|
      ensures v.rounds[k].owner in v.seen && forall t <- v.rounds[k].newTasks :: Tracked(v, v.rounds[k], t)
    {
      if k < |w.rounds| {
        forall t | t in v.rounds[k].newTasks ensures Tracked(v, v.rounds[k], t) { StepTracked(w, a, w.rounds[k], t); }
      } else {
        NewRoundTracked(w, a);
      }
    }
  }

  lemma NewRoundTracked(w: World, a: Step)
    requires Inv(w) && Enabled(w, a) && a.Admit?
    ensures var v := Next(w, a); var r := v.rounds[|w.rounds|];
      r.owner in v.seen && forall t <- r.newTasks :: Tracked(v, r, t)
  {
    var v := Next(w, a);
    var r := v.rounds[|w.rounds|];
    forall t | t in r.newTasks ensures Tracked(v, r, t) {
      assert t in a.requested;
      assert v.dir[t] == Lease(r.owner);
    }
  }

  predicate Run(w: World, steps: seq<Step>, v: World)
    decreases |steps|
  {
    if steps == [] then w == v else Enabled(w, steps[0]) && Run(Next(w, steps[0]), steps[1..], v)
  }

  lemma {:induction false} RunInv(w: World, steps: seq<Step>, v: World)
    requires Inv(w) && Run(w, steps, v)
    ensures Inv(v)
    decreases |steps|
  {
    if steps != [] {
      StepInv(w, steps[0]);
      RunInv(Next(w, steps[0]), steps[1..], v);
    }
  }

  /** In every history, a task that an earlier round took as new is taken as new again only
      if it has no recorded reward and the earlier owner has released it or is dead. */
  lemma NewTwiceMeansUnrewarded(steps: seq<Step>, w: World, a: Step, k: nat, t: Task)
    requires Run(EMPTY, steps, w) && Enabled(w, a) && a.Admit?
    requires k < |w.rounds| && t in w.rounds[k].newTasks
    requires t in Validate(a.requested, w.recorded, a.allowed).value.newTasks
    ensures t !in w.recorded
    ensures !Alive(w.procs, w.rounds[k].owner) || (w.rounds[k].owner, t) in w.released
  {
    RunInv(EMPTY, steps, w);
    assert Tracked(w, w.rounds[k], t);
    assert t in a.requested && !LiveAt(w.procs, w.dir, t);
  }

  /** The later round took a task as new with no reward recorded, after the earlier
      round's owner released it or died. */
  predicate TakesOver(earlier: Round, later: Round, t: Task) {
    t !in later.recorded && (!Alive(later.procs, earlier.owner) || (earlier.owner, t) in later.released)
  }

  ghost predicate TurnsTaken(rounds: seq<Round>) {
    forall j, k :: 0 <= j < k < |rounds| ==>
      forall t :: t in rounds[j].newTasks && t in rounds[k].newTasks ==> TakesOver(rounds[j], rounds[k], t)
  }

  lemma StepTurns(w: World, a: Step)
    requires Inv(w) && TurnsTaken(w.rounds) && Enabled(w, a)
    ensures TurnsTaken(Next(w, a).rounds)
  {
    var v := Next(w, a);
    forall j, k, t | 0 <= j < k < |v.rounds| && t in v.rounds[j].newTasks && t in v.rounds[k].newTasks
      ensures TakesOver(v.rounds[j], v.rounds[k], t)
    {
      if k < |w.rounds| {
        assert v.rounds[j] == w.rounds[j] && v.rounds[k] == w.rounds[k];
      } else {
        assert Tracked(w, w.rounds[j], t);
        assert t in a.requested && !LiveAt(w.procs, w.dir, t);
      }
    }
  }

  lemma {:induction false} RunTurns(w: World, steps: seq<Step>, v: World)
    requires Inv(w) && TurnsTaken(w.rounds) && Run(w, steps, v)
    ensures TurnsTaken(v.rounds)
    decreases |steps|
  {
    if steps != [] {
      StepInv(w, steps[0]);
      StepTurns(w, steps[0]);
      RunTurns(Next(w, steps[0]), steps[1..], v);
    }
  }

  /** In every history, of any two rounds that took a task as new the later one did so with
      no reward recorded, and only after the earlier owner had released it or died: no two
      live owners ever hold one task as new. */
  lemma RoundsTakeTurns(steps: seq<Step>, w: World, j: nat, k: nat, t: Task)
    requires Run(EMPTY, steps, w) && j < k < |w.rounds| && t in w.rounds[j].newTasks && t in w.rounds[k].newTasks
    ensures TakesOver(w.rounds[j], w.rounds[k], t)
  {
    RunTurns(EMPTY, steps, w);
  }

  // ---- All or nothing, except under a kill --------------------------------------------------------

  /** Which tasks are newly leased to owner o by a step. */
  function NewlyLeased(w: World, v: World, o: Owner): set<Task> {
    set t <- v.dir | v.dir[t] == Lease(o) && !(t in w.dir && w.dir[t] == Lease(o))
  }

  predicate AllOrNothing(w: World, v: World, o: Owner, requested: seq<Task>) {
    NewlyLeased(w, v, o) == {} || NewlyLeased(w, v, o) == Elements(requested)
  }

  /** A reserve that is killed after publishing `upTo` leases leaves them behind, live with
      their owner: publication is all-or-nothing exactly when the kill does not fall
      strictly between the first and the last lease. */
  lemma KilledReserveIsPartial(w: World, a: Step)
    requires Enabled(w, a) && a.Cut?
    ensures AllOrNothing(w, Next(w, a), Owner(a.pid, w.procs[a.pid]), a.requested) <==> a.upTo == 0 || a.upTo == |a.requested|
  {
    var o := Owner(a.pid, w.procs[a.pid]);
    var v := Next(w, a);
    var done := a.requested[..a.upTo];
    forall t | t in done ensures t in NewlyLeased(w, v, o) {
      assert !LiveAt(w.procs, w.dir, t);
      assert v.dir[t] == Lease(o);
    }
    assert NewlyLeased(w, v, o) == Elements(done);
    if 0 < a.upTo < |a.requested| {
      assert a.requested[0] in done;
      var last := a.requested[|a.requested| - 1];
      assert last in Elements(a.requested) && last !in done;
    } else if a.upTo == |a.requested| {
      assert done == a.requested;
    }
  }

  /** What a reserve finds right after the kill, whichever processes then live: it can publish
      if and only if none of its tasks has a lease that was live before, and none has one of
      those left behind, unless their owner is dead. */
  lemma FoundAfterKill(w: World, a: Step, procs: Processes, tasks: seq<Task>, pid: nat)
    requires Enabled(w, a) && a.Cut?
    ensures var o, done := Owner(a.pid, w.procs[a.pid]), a.requested[..a.upTo];
      Decided(procs, Next(w, a).dir, tasks, pid, false, _ => false).Published? <==>
      && pid in procs
      && (Alive(procs, o) ==> Elements(tasks) !! Elements(done))
      && forall t <- tasks :: t in done || !LiveAt(procs, w.dir, t)
  {
    PublishedIff(procs, Next(w, a).dir, tasks, pid, false, _ => false);
  }

  /** An incarnation that is dead stays dead. */
  lemma {:induction false} DeadStaysDead(w: World, steps: seq<Step>, v: World, o: Owner)
    requires Run(w, steps, v) && o in w.seen && !Alive(w.procs, o)
    ensures !Alive(v.procs, o)
    decreases |steps|
  {
    if steps != [] { DeadStaysDead(Next(w, steps[0]), steps[1..], v, o); }
  }

  /** A release among the steps names that incarnation and task. */
  predicate Releases(steps: seq<Step>, o: Owner, t: Task) {
    exists a <- steps :: a.Release? && a.o == o && t in a.tasks
  }

  lemma {:induction false} LeaseStands(w: World, steps: seq<Step>, v: World, o: Owner, t: Task)
    requires Run(w, steps, v) && o in w.seen && t in w.dir && w.dir[t] == Lease(o)
    requires Alive(v.procs, o) && !Releases(steps, o, t)
    ensures t in v.dir && v.dir[t] == Lease(o)
    decreases |steps|
  {
    if steps != [] {
      if !Alive(w.procs, o) { DeadStaysDead(w, steps, v, o); }
      LiveLeaseIsKept(w, steps[0], t);
      assert steps[0] in steps;
      LeaseStands(Next(w, steps[0]), steps[1..], v, o, t);
    }
  }

  /** And at every later point of every history: as long as the owner lives and has not
      released the task, every reserve that asks for it comes to nothing. */
  lemma KilledLeaseBlocks(before: seq<Step>, w: World, a: Step, steps: seq<Step>, v: World, t: Task,
                          tasks: seq<Task>, pid: nat, manifest: bool, fault: nat -> bool)
    requires Run(EMPTY, before, w) && Enabled(w, a) && a.Cut? && t in a.requested[..a.upTo]
    requires Run(Next(w, a), steps, v) && t in tasks
    requires var o := Owner(a.pid, w.procs[a.pid]); Alive(v.procs, o) && !Releases(steps, o, t)
    ensures !Decided(v.procs, v.dir, tasks, pid, manifest, fault).Published?
  {
    RunInv(EMPTY, before, w);
    LeaseStands(Next(w, a), steps, v, Owner(a.pid, w.procs[a.pid]), t);
    PublishedIff(v.procs, v.dir, tasks, pid, manifest, fault);
    var k :| 0 <= k < |tasks| && tasks[k] == t;
  }

  /** Once the owner is dead, no reserve is ever held up by a lease of its again: whoever holds
      a task up then is another owner, and alive. */
  lemma DeadOwnerBlocksNone(w: World, steps: seq<Step>, v: World, o: Owner, t: Task,
                            tasks: seq<Task>, pid: nat, manifest: bool, fault: nat -> bool)
    requires o in w.seen && !Alive(w.procs, o) && Run(w, steps, v)
    requires Decided(v.procs, v.dir, tasks, pid, manifest, fault) == Held(t)
    ensures t in v.dir && v.dir[t].Lease? && v.dir[t].owner != o && Alive(v.procs, v.dir[t].owner)
  {
    DeadStaysDead(w, steps, v, o);
  }
}
