/** The witness / guardian / runner protocol of scripts/harness/lifecycle_domain.py as a
    transition system: processes fork, exec, close descriptors and die in any order, the
    kernel keeps a socket name while any process holds its description, and a launcher
    may recover a state directory whose witness is gone.

    A process is an incarnation (pid, start time); pids are reused, incarnations are
    not.  Distinct `Name`s are distinct socket addresses (LifecycleLease). */
module LifecycleDomain {
  import opened LifecycleLease

  datatype Proc = Proc(pid: nat, start: nat)
  datatype Name = Database(scope: Scope, identity: string) | Gateway(scope: Scope, port: int)

  /** owner.json: the leased identity and port, and the witness incarnation. */
  datatype Record = Record(identity: string, port: int, owner: Proc)

  /** A recovery in progress: how many of the six names have been taken so far. */
  datatype Recovery = Recovery(dir: nat, record: Record, taken: nat)

  type Held = map<Name, set<Proc>>

  datatype World = World(
    created: set<Proc>,
    alive: set<Proc>,
    launch: map<Proc, Proc>,            // the launcher each process descends from
    request: map<Proc, (string, int)>,  // the identity and port each launcher asked for
    runner: map<Proc, Proc>,            // the runner each launch has spawned
    held: Held,                         // who holds each bound name's description
    dirs: map<nat, Record>,
    usedDirs: set<nat>,
    recovering: map<Proc, Recovery>)

  const EMPTY := World({}, {}, map[], map[], map[], map[], map[], {}, map[])

  datatype Step =
    | Launch(p: Proc, identity: string, port: int)
    | Fork(p: Proc, child: Proc, keep: set<Name>)  // descriptors not in keep are closed on exec
    | Spawn(p: Proc, child: Proc)                  // the guardian starts the runner
    | Bind(p: Proc, name: Name)
    | Close(p: Proc, name: Name)
    | Die(p: Proc)
    | MakeDir(p: Proc, dir: nat)
    | RemoveDir(p: Proc, dir: nat)                 // the witness removes its own state
    | FindStale(p: Proc, dir: nat)
    | TakeNext(p: Proc)
    | DeleteState(p: Proc)
    | GiveBack(p: Proc)

  // ---- Names and holders ---------------------------------------------------------------------

  function RuntimeNames(request: (string, int)): set<Name> {
    {Database(Runtime, request.0), Gateway(Runtime, request.1)}
  }

  /** The order of `recover_stale_domains`: witness, primary, runtime; database first. */
  function RecoveryName(r: Record, k: nat): Name
    requires k < 6
  {
    var scope := if k < 2 then Witness else if k < 4 then Primary else Runtime;
    if k % 2 == 0 then Database(scope, r.identity) else Gateway(scope, r.port)
  }

  function TakenNames(r: Record, k: nat): set<Name>
    requires k <= 6
  {
    set i | 0 <= i < k :: RecoveryName(r, i)
  }

  predicate HeldBy(held: Held, n: Name, p: Proc) { n in held && p in held[n] }

  function Share(held: Held, keep: set<Name>, p: Proc, child: Proc): Held {
    map n <- held :: if n in keep && p in held[n] then held[n] + {child} else held[n]
  }

  /** A name is freed with its last holder. */
  function Drop(held: Held, names: set<Name>, p: Proc): Held {
    map n <- held | n !in names || held[n] - {p} != {} :: if n in names then held[n] - {p} else held[n]
  }

  // ---- Steps -----------------------------------------------------------------------------------

  predicate Fresh(w: World, p: Proc) {
    p !in w.created && forall q <- w.alive :: q.pid != p.pid
  }

  /** `_same_process`: the process that has this pid now also has this start time. */
  predicate SameProcess(w: World, pid: nat, start: nat) {
    exists q <- w.alive :: q.pid == pid && q.start == start
  }

  predicate Idle(w: World, p: Proc) { p in w.alive && p !in w.recovering }

  predicate Enabled(w: World, a: Step) {
    match a
    case Launch(p, _, _) => Fresh(w, p)
    case Fork(p, child, _) => Idle(w, p) && p in w.launch && Fresh(w, child)
    case Spawn(p, child) =>
      && Idle(w, p) && p in w.launch && w.launch[p] in w.request && w.launch[p] !in w.runner && Fresh(w, child)
      && forall n <- RuntimeNames(w.request[w.launch[p]]) :: HeldBy(w.held, n, p)
    case Bind(p, n) => Idle(w, p) && n !in w.held
    case Close(p, n) => Idle(w, p) && HeldBy(w.held, n, p)
    case Die(p) => p in w.alive
    case MakeDir(p, d) => Idle(w, p) && p in w.request && d !in w.usedDirs
    case RemoveDir(p, d) => Idle(w, p) && d in w.dirs && w.dirs[d].owner == p
    case FindStale(p, d) => Idle(w, p) && d in w.dirs && !SameProcess(w, w.dirs[d].owner.pid, w.dirs[d].owner.start)
    case TakeNext(p) => p in w.alive && p in w.recovering && w.recovering[p].taken < 6
    case DeleteState(p) => p in w.alive && p in w.recovering && w.recovering[p].taken == 6 && w.recovering[p].dir in w.dirs
    case GiveBack(p) => p in w.alive && p in w.recovering && w.recovering[p].taken == 6
  }

  function Next(w: World, a: Step): World
    requires Enabled(w, a)
  {
    match a
    case Launch(p, identity, port) =>
      w.(created := w.created + {p}, alive := w.alive + {p}, launch := w.launch[p := p], request := w.request[p := (identity, port)])
    case Fork(p, child, keep) =>
      w.(created := w.created + {child}, alive := w.alive + {child}, launch := w.launch[child := w.launch[p]],
         held := Share(w.held, keep, p, child))
    case Spawn(p, child) =>
      w.(created := w.created + {child}, alive := w.alive + {child}, launch := w.launch[child := w.launch[p]],
         held := Share(w.held, RuntimeNames(w.request[w.launch[p]]), p, child), runner := w.runner[w.launch[p] := child])
    case Bind(p, n) => w.(held := w.held[n := {p}])
    case Close(p, n) => w.(held := Drop(w.held, {n}, p))
    case Die(p) => w.(alive := w.alive - {p}, held := Drop(w.held, w.held.Keys, p), recovering := w.recovering - {p})
    case MakeDir(p, d) =>
      w.(dirs := w.dirs[d := Record(w.request[p].0, w.request[p].1, p)], usedDirs := w.usedDirs + {d})
    case RemoveDir(p, d) => w.(dirs := w.dirs - {d})
    case FindStale(p, d) => w.(recovering := w.recovering[p := Recovery(d, w.dirs[d], 0)])
    case TakeNext(p) =>
      var r := w.recovering[p];
      var n := RecoveryName(r.record, r.taken);
      if n !in w.held then w.(held := w.held[n := {p}], recovering := w.recovering[p := r.(taken := r.taken + 1)])
      else w.(held := w.held - TakenNames(r.record, r.taken), recovering := w.recovering - {p})
    case DeleteState(p) => w.(dirs := w.dirs - {w.recovering[p].dir})
    case GiveBack(p) =>
      w.(held := w.held - TakenNames(w.recovering[p].record, 6), recovering := w.recovering - {p})
  }

  // ---- The invariant -----------------------------------------------------------------------------

  /** Live processes have their own pids, every process descends from a launch, and a
      launch's runner is one of its descendants. */
  predicate ProcsOk(created: set<Proc>, alive: set<Proc>, launch: map<Proc, Proc>, runner: map<Proc, Proc>) {
    && alive <= created <= launch.Keys
    && (forall p, q :: p in alive && q in alive && p.pid == q.pid ==> p == q)
    && (forall l <- runner :: runner[l] in created && launch[runner[l]] == l)
  }

  /** A bound name has a live holder, and all its holders descend from one launch. */
  predicate HeldOk(alive: set<Proc>, launch: map<Proc, Proc>, held: Held) {
    && alive <= launch.Keys
    && (forall n <- held :: held[n] != {} && held[n] <= alive && OneLaunch(launch, held[n]))
  }

  predicate OneLaunch(launch: map<Proc, Proc>, ps: set<Proc>) {
    ps <= launch.Keys && forall p, q :: p in ps && q in ps ==> launch[p] == launch[q]
  }

  /** The recoverer alone holds the names it has taken. */
  predicate TakenOk(held: Held, p: Proc, r: Recovery) {
    && r.taken <= 6
    && forall k :: 0 <= k < r.taken ==> RecoveryName(r.record, k) in held && held[RecoveryName(r.record, k)] == {p}
  }

  predicate RecoveryOk(w: World, p: Proc, r: Recovery) {
    && p in w.alive
    && r.record.owner in w.created && r.record.owner !in w.alive
    && r.dir in w.usedDirs && (r.dir in w.dirs ==> w.dirs[r.dir] == r.record)
    && TakenOk(w.held, p, r)
  }

  predicate DirsOk(w: World) {
    && w.dirs.Keys <= w.usedDirs
    && (forall d <- w.dirs :: w.dirs[d].owner in w.created)
  }

  predicate Inv(w: World) {
    && ProcsOk(w.created, w.alive, w.launch, w.runner)
    && HeldOk(w.alive, w.launch, w.held)
    && DirsOk(w)
    && forall p <- w.recovering :: RecoveryOk(w, p, w.recovering[p])
  }

  lemma SameProcessIsAlive(w: World, p: Proc)
    ensures SameProcess(w, p.pid, p.start) <==> p in w.alive
  {
    if q :| q in w.alive && q.pid == p.pid && q.start == p.start { assert q == p; }
  }

  lemma BirthProcs(w: World, c: Proc, l: Proc)
    requires ProcsOk(w.created, w.alive, w.launch, w.runner) && Fresh(w, c)
    ensures ProcsOk(w.created + {c}, w.alive + {c}, w.launch[c := l], w.runner)
    ensures ProcsOk(w.created + {c}, w.alive + {c}, w.launch[c := l], w.runner[l := c])
  {}

  lemma OneLaunchGrows(launch: map<Proc, Proc>, ps: set<Proc>, c: Proc, l: Proc)
    requires OneLaunch(launch, ps) && c !in ps
    ensures OneLaunch(launch[c := l], ps)
    ensures (exists p :: p in ps && launch[p] == l) ==> OneLaunch(launch[c := l], ps + {c})
  {}

  lemma BirthHeld(w: World, keep: set<Name>, p: Proc, c: Proc)
    requires ProcsOk(w.created, w.alive, w.launch, w.runner) && HeldOk(w.alive, w.launch, w.held)
    requires p in w.alive && Fresh(w, c)
    ensures HeldOk(w.alive + {c}, w.launch[c := w.launch[p]], Share(w.held, keep, p, c))
  {
    var l := w.launch[p];
    forall n | n in w.held ensures OneLaunch(w.launch[c := l], Share(w.held, keep, p, c)[n]) {
      OneLaunchGrows(w.launch, w.held[n], c, l);
    }
  }

  lemma LaunchHeld(w: World, p: Proc)
    requires ProcsOk(w.created, w.alive, w.launch, w.runner) && HeldOk(w.alive, w.launch, w.held) && Fresh(w, p)
    ensures HeldOk(w.alive + {p}, w.launch[p := p], w.held)
  {
    forall n | n in w.held ensures OneLaunch(w.launch[p := p], w.held[n]) {
      OneLaunchGrows(w.launch, w.held[n], p, p);
    }
  }

  lemma DropHeld(alive: set<Proc>, launch: map<Proc, Proc>, held: Held, names: set<Name>, p: Proc)
    requires HeldOk(alive, launch, held)
    ensures HeldOk(alive, launch, Drop(held, names, p))
    ensures held.Keys <= names ==> HeldOk(alive - {p}, launch, Drop(held, names, p))
  {}

  lemma BindHeld(alive: set<Proc>, launch: map<Proc, Proc>, held: Held, n: Name, p: Proc)
    requires HeldOk(alive, launch, held) && p in alive
    ensures HeldOk(alive, launch, held[n := {p}])
  {}

  lemma RemoveHeld(alive: set<Proc>, launch: map<Proc, Proc>, held: Held, names: set<Name>)
    requires HeldOk(alive, launch, held)
    ensures HeldOk(alive, launch, held - names)
  {}

  lemma StepCore(w: World, a: Step)
    requires Inv(w) && Enabled(w, a)
    ensures var v := Next(w, a); ProcsOk(v.created, v.alive, v.launch, v.runner) && HeldOk(v.alive, v.launch, v.held)
  {
    match a {
      case Launch(p, _, _) => BirthProcs(w, p, p); LaunchHeld(w, p);
      case Fork(p, c, keep) => BirthProcs(w, c, w.launch[p]); BirthHeld(w, keep, p, c);
      case Spawn(p, c) => BirthProcs(w, c, w.launch[p]); BirthHeld(w, RuntimeNames(w.request[w.launch[p]]), p, c);
      case Bind(p, n) => BindHeld(w.alive, w.launch, w.held, n, p);
      case Close(p, n) => DropHeld(w.alive, w.launch, w.held, {n}, p);
      case Die(p) => DropHeld(w.alive, w.launch, w.held, w.held.Keys, p);
      case TakeNext(p) =>
        var r := w.recovering[p];
        BindHeld(w.alive, w.launch, w.held, RecoveryName(r.record, r.taken), p);
        RemoveHeld(w.alive, w.launch, w.held, TakenNames(r.record, r.taken));
      case GiveBack(p) => RemoveHeld(w.alive, w.launch, w.held, TakenNames(w.recovering[p].record, 6));
      case _ =>
    }
  }

  lemma StepDirs(w: World, a: Step)
    requires Inv(w) && Enabled(w, a)
    ensures DirsOk(Next(w, a))
  {}

  /** Names taken by a recoverer q are out of reach of every other process's steps. */
  lemma TakenFrame(w: World, a: Step, q: Proc)
    requires Inv(w) && Enabled(w, a) && q in w.recovering && a.p != q && (a.Fork? || a.Spawn? ==> a.child != q)
    ensures TakenOk(Next(w, a).held, q, w.recovering[q])
  {
    var r := w.recovering[q];
    assert RecoveryOk(w, q, r);
    forall k | 0 <= k < r.taken
      ensures RecoveryName(r.record, k) in Next(w, a).held && Next(w, a).held[RecoveryName(r.record, k)] == {q}
    {
      NameFrame(w, a, q, RecoveryName(r.record, k));
    }
  }

  /** A name that q alone holds is untouched by another process's step. */
  lemma NameFrame(w: World, a: Step, q: Proc, n: Name)
    requires Inv(w) && Enabled(w, a) && a.p != q && (a.Fork? || a.Spawn? ==> a.child != q)
    requires n in w.held && w.held[n] == {q}
    ensures n in Next(w, a).held && Next(w, a).held[n] == {q}
  {
    if a.TakeNext? || a.GiveBack? {
      assert RecoveryOk(w, a.p, w.recovering[a.p]);
      NotTaken(w.held, a.p, w.recovering[a.p], q, n);
    } else {
      NameKept(w, a, q, n);
    }
  }

  lemma NameKept(w: World, a: Step, q: Proc, n: Name)
    requires Enabled(w, a) && a.p != q && !a.TakeNext? && !a.GiveBack? && n in w.held && w.held[n] == {q}
    ensures n in Next(w, a).held && Next(w, a).held[n] == {q}
  {
    assert a.p !in w.held[n] && w.held[n] - {a.p} == {q};
  }

  lemma NotTaken(held: Held, p: Proc, r: Recovery, q: Proc, n: Name)
    requires TakenOk(held, p, r) && n in held && held[n] == {q} && p != q
    ensures n !in TakenNames(r.record, r.taken)
  {
    assert p !in held[n];
  }

  lemma OthersRecovery(w: World, a: Step, q: Proc)
    requires Inv(w) && Enabled(w, a) && q in w.recovering && a.p != q
    ensures q in Next(w, a).recovering && Next(w, a).recovering[q] == w.recovering[q]
    ensures RecoveryOk(Next(w, a), q, w.recovering[q])
  {
    assert RecoveryOk(w, q, w.recovering[q]);
    TakenFrame(w, a, q);
  }

  lemma FoundRecovery(w: World, p: Proc, d: nat)
    requires Inv(w) && Enabled(w, FindStale(p, d))
    ensures RecoveryOk(Next(w, FindStale(p, d)), p, Recovery(d, w.dirs[d], 0))
  {
    SameProcessIsAlive(w, w.dirs[d].owner);
  }

  lemma TookNext(w: World, p: Proc)
    requires Inv(w) && Enabled(w, TakeNext(p)) && RecoveryName(w.recovering[p].record, w.recovering[p].taken) !in w.held
    ensures var r := w.recovering[p]; RecoveryOk(Next(w, TakeNext(p)), p, r.(taken := r.taken + 1))
  {
    assert RecoveryOk(w, p, w.recovering[p]);
  }

  lemma DeletedState(w: World, p: Proc)
    requires Inv(w) && Enabled(w, DeleteState(p))
    ensures RecoveryOk(Next(w, DeleteState(p)), p, w.recovering[p])
  {
    assert RecoveryOk(w, p, w.recovering[p]);
  }

  lemma OwnRecovery(w: World, a: Step)
    requires Inv(w) && Enabled(w, a) && a.p in Next(w, a).recovering && (a.FindStale? || a.TakeNext? || a.DeleteState?)
    ensures RecoveryOk(Next(w, a), a.p, Next(w, a).recovering[a.p])
  {
    match a {
      case FindStale(p, d) => FoundRecovery(w, p, d);
      case TakeNext(p) => TookNext(w, p);
      case DeleteState(p) => DeletedState(w, p);
      case _ =>
    }
  }

  lemma StepRecovery(w: World, a: Step, q: Proc)
    requires Inv(w) && Enabled(w, a) && q in Next(w, a).recovering
    ensures RecoveryOk(Next(w, a), q, Next(w, a).recovering[q])
  {
    forall x | x in w.recovering ensures x in w.created { assert RecoveryOk(w, x, w.recovering[x]); }
    if q == a.p {
      OwnRecovery(w, a);
    } else {
      OthersRecovery(w, a, q);
    }
  }

  lemma StepInv(w: World, a: Step)
    requires Inv(w) && Enabled(w, a)
    ensures Inv(Next(w, a))
  {
    StepCore(w, a);
    StepDirs(w, a);
    forall q | q in Next(w, a).recovering ensures RecoveryOk(Next(w, a), q, Next(w, a).recovering[q]) {
      StepRecovery(w, a, q);
    }
  }

  // ---- Whole runs ---------------------------------------------------------------------------------

  predicate Run(w: World, steps: seq<Step>, v: World)
    decreases |steps|
  {
    if steps == [] then w == v else Enabled(w, steps[0]) && Run(Next(w, steps[0]), steps[1..], v)
  }

  lemma {:induction false} RunInv(w: World, steps: seq<Step>, v: World)
    requires Inv(w) && Run(w, steps, v)
    ensures Inv(v)
    decreases |steps|
  {
    if steps != [] {
      StepInv(w, steps[0]);
      RunInv(Next(w, steps[0]), steps[1..], v);
    }
  }

  /** r is the runner of launch l, alive, and still holds both inherited sockets. */
  predicate HoldingRunner(w: World, l: Proc, r: Proc) {
    && l in w.runner && w.runner[l] == r && r in w.alive && l in w.request
    && HeldBy(w.held, Database(Runtime, w.request[l].0), r) && HeldBy(w.held, Gateway(Runtime, w.request[l].1), r)
  }

  /** In every run, two runners that still hold their inherited runtime sockets serve
      different databases on different ports, whoever else has died. */
  lemma RunnersAreExclusive(steps: seq<Step>, w: World, l: Proc, r: Proc, m: Proc, s: Proc)
    requires Run(EMPTY, steps, w) && HoldingRunner(w, l, r) && HoldingRunner(w, m, s) && r != s
    ensures w.request[l].0 != w.request[m].0 && w.request[l].1 != w.request[m].1
  {
    RunInv(EMPTY, steps, w);
    assert w.launch[r] == l && w.launch[s] == m && l != m;
    var i, j := w.request[l], w.request[m];
    assert HeldBy(w.held, Database(Runtime, i.0), r) && HeldBy(w.held, Database(Runtime, j.0), s);
    assert HeldBy(w.held, Gateway(Runtime, i.1), r) && HeldBy(w.held, Gateway(Runtime, j.1), s);
    assert OneLaunch(w.launch, w.held[Database(Runtime, i.0)]) && OneLaunch(w.launch, w.held[Gateway(Runtime, i.1)]);
  }

  /** Exactly the runner that a guardian starts holds both runtime sockets of its launch. */
  lemma SpawnedRunnerHolds(steps: seq<Step>, w: World, a: Step)
    requires Run(EMPTY, steps, w) && Enabled(w, a) && a.Spawn?
    ensures HoldingRunner(Next(w, a), w.launch[a.p], a.child)
  {
    var request := w.request[w.launch[a.p]];
    assert Database(Runtime, request.0) in RuntimeNames(request) && Gateway(Runtime, request.1) in RuntimeNames(request);
  }

  /** The six names taken are the domain's: its database and its gateway in every scope. */
  lemma RecoveryNamesAreTheDomains(r: Record, n: Name)
    ensures (exists k :: 0 <= k < 6 && RecoveryName(r, k) == n) <==>
      exists s: Scope :: n == Database(s, r.identity) || n == Gateway(s, r.port)
  {
    if s: Scope :| n == Database(s, r.identity) || n == Gateway(s, r.port) {
      var k := (match s case Witness => 0 case Primary => 2 case Runtime => 4) + if n.Database? then 0 else 1;
      assert RecoveryName(r, k) == n;
    }
  }

  /** A state directory disappears only by its own live witness, or by a recoverer that
      alone holds its database and its gateway in every scope while its witness is dead. */
  lemma DirectoryRemovalIsAuthorized(steps: seq<Step>, w: World, a: Step, d: nat)
    requires Run(EMPTY, steps, w) && Enabled(w, a) && d in w.dirs && d !in Next(w, a).dirs
    ensures || (a == RemoveDir(w.dirs[d].owner, d) && w.dirs[d].owner in w.alive)
            || (a.DeleteState? && w.dirs[d].owner !in w.alive && forall s: Scope :: AloneHolds(w, s, w.dirs[d], a.p))
  {
    RunInv(EMPTY, steps, w);
    if a.DeleteState? {
      var r := w.recovering[a.p];
      assert RecoveryOk(w, a.p, r);
      forall s: Scope ensures AloneHolds(w, s, w.dirs[d], a.p) {
        RecoveryNamesAreTheDomains(w.dirs[d], Database(s, w.dirs[d].identity));
        RecoveryNamesAreTheDomains(w.dirs[d], Gateway(s, w.dirs[d].port));
      }
    }
  }

  predicate AloneHolds(w: World, s: Scope, r: Record, p: Proc) {
    && Database(s, r.identity) in w.held && w.held[Database(s, r.identity)] == {p}
    && Gateway(s, r.port) in w.held && w.held[Gateway(s, r.port)] == {p}
  }

  lemma RemoverHolds(steps: seq<Step>, w: World, a: Step, d: nat, s: Scope)
    requires Run(EMPTY, steps, w) && Enabled(w, a) && d in w.dirs && d !in Next(w, a).dirs
    ensures a == RemoveDir(w.dirs[d].owner, d) || (a.DeleteState? && AloneHolds(w, s, w.dirs[d], a.p))
  {
    DirectoryRemovalIsAuthorized(steps, w, a, d);
  }

  /** While a process other than the one that would delete it, be it another recoverer, holds
      a domain's database or gateway in any scope, no step but its own witness's removes the
      domain's state. */
  lemma HeldDomainIsNotRecovered(steps: seq<Step>, w: World, a: Step, d: nat, s: Scope, q: Proc)
    requires Run(EMPTY, steps, w) && Enabled(w, a) && d in w.dirs && (a.DeleteState? ==> q != a.p)
    requires HeldBy(w.held, Database(s, w.dirs[d].identity), q) || HeldBy(w.held, Gateway(s, w.dirs[d].port), q)
    ensures d in Next(w, a).dirs || a == RemoveDir(w.dirs[d].owner, d)
  {
    if d !in Next(w, a).dirs { RemoverHolds(steps, w, a, d, s); }
  }

  /** A directory records what its witness asked for. */
  predicate RecordsOk(w: World) {
    forall d <- w.dirs :: w.dirs[d].owner in w.request && w.request[w.dirs[d].owner] == (w.dirs[d].identity, w.dirs[d].port)
  }

  lemma StepRecords(w: World, a: Step)
    requires Inv(w) && RecordsOk(w) && Enabled(w, a)
    ensures RecordsOk(Next(w, a))
  {}

  lemma {:induction false} RunRecords(w: World, steps: seq<Step>, v: World)
    requires Inv(w) && RecordsOk(w) && Run(w, steps, v)
    ensures RecordsOk(v)
    decreases |steps|
  {
    if steps != [] {
      StepRecords(w, steps[0]);
      StepInv(w, steps[0]);
      RunRecords(Next(w, steps[0]), steps[1..], v);
    }
  }

  /** So a runner that still holds its sockets keeps its domain's state from every recovery
      by another process, although its witness is dead. */
  lemma HoldingRunnerKeepsState(steps: seq<Step>, w: World, a: Step, d: nat, r: Proc)
    requires Run(EMPTY, steps, w) && Enabled(w, a) && d in w.dirs && (a.DeleteState? ==> r != a.p)
    requires HoldingRunner(w, w.dirs[d].owner, r)
    ensures d in Next(w, a).dirs || a == RemoveDir(w.dirs[d].owner, d)
  {
    RunRecords(EMPTY, steps, w);
    HeldDomainIsNotRecovered(steps, w, a, d, Runtime, r);
  }

  /** A witness that recovery found dead is never taken for alive again, although its pid
      may be: an incarnation does not come back. */
  lemma {:induction false} DeadStaysDead(w: World, steps: seq<Step>, v: World, p: Proc)
    requires Run(w, steps, v) && p in w.created && p !in w.alive
    ensures p in v.created && !SameProcess(v, p.pid, p.start)
    decreases |steps|
  {
    if steps == [] {
      SameProcessIsAlive(v, p);
    } else {
      StepLeavesDead(w, steps[0], p);
      DeadStaysDead(Next(w, steps[0]), steps[1..], v, p);
    }
  }

  lemma StepLeavesDead(w: World, a: Step, p: Proc)
    requires Enabled(w, a) && p in w.created && p !in w.alive
    ensures p in Next(w, a).created && p !in Next(w, a).alive
  {}

  // ---- One recovery, undisturbed -------------------------------------------------------------------

  /** Take names until one is refused or all six are held. */
  function TakeAll(w: World, p: Proc): World
    requires p in w.alive && p in w.recovering && w.recovering[p].taken <= 6
    decreases 6 - w.recovering[p].taken
  {
    if w.recovering[p].taken == 6 then w
    else
      var v := Next(w, TakeNext(p));
      if p in v.recovering then TakeAll(v, p) else v
  }

  /** The body of `recover_stale_domains` for one directory. */
  function Recover(w: World, p: Proc, d: nat): World
    requires Idle(w, p) && d in w.dirs
  {
    if !Enabled(w, FindStale(p, d)) then w
    else
      var v := TakeAll(Next(w, FindStale(p, d)), p);
      if p !in v.recovering || !Enabled(v, DeleteState(p)) then v
      else Next(Next(v, DeleteState(p)), GiveBack(p))
  }

  predicate NamesFree(held: Held, r: Record, k: nat) {
    forall i :: k <= i < 6 ==> RecoveryName(r, i) !in held
  }

  /** The table after taking the names from the k-th on, None where one is refused. */
  function TakeNames(held: Held, p: Proc, r: Record, k: nat): Option<Held>
    requires k <= 6
    decreases 6 - k
  {
    if k == 6 then Some(held)
    else if RecoveryName(r, k) in held then None
    else TakeNames(held[RecoveryName(r, k) := {p}], p, r, k + 1)
  }

  lemma {:induction false} TakeNamesOutcome(held: Held, p: Proc, r: Record, k: nat)
    requires k <= 6
    ensures TakeNames(held, p, r, k).Some? <==> NamesFree(held, r, k)
    ensures TakeNames(held, p, r, k).Some? ==> TakeNames(held, p, r, k).value - TakenNames(r, 6) == held - TakenNames(r, 6)
    decreases 6 - k
  {
    if k < 6 && RecoveryName(r, k) !in held {
      var n := RecoveryName(r, k);
      TakeNamesOutcome(held[n := {p}], p, r, k + 1);
      forall i | k < i < 6 ensures RecoveryName(r, i) != n {}
      assert n in TakenNames(r, 6);
      assert held[n := {p}] - TakenNames(r, 6) == held - TakenNames(r, 6);
    }
  }

  lemma TakenOneMore(held: Held, p: Proc, r: Record, k: nat)
    requires k < 6 && RecoveryName(r, k) !in held
    ensures held[RecoveryName(r, k) := {p}] - TakenNames(r, k + 1) == held - TakenNames(r, k)
  {
    assert TakenNames(r, k + 1) == TakenNames(r, k) + {RecoveryName(r, k)};
  }

  /** The steps of one process come to taking the names from the table. */
  lemma {:induction false} TakeAllTakesNames(w: World, p: Proc)
    requires p in w.alive && p in w.recovering && w.recovering[p].taken <= 6
    ensures var r := w.recovering[p];
      TakeAll(w, p) == match TakeNames(w.held, p, r.record, r.taken)
        case Some(held) => w.(held := held, recovering := w.recovering[p := r.(taken := 6)])
        case None => w.(held := w.held - TakenNames(r.record, r.taken), recovering := w.recovering - {p})
    decreases 6 - w.recovering[p].taken
  {
    var r := w.recovering[p];
    if r.taken == 6 {
      assert w.recovering[p := r.(taken := 6)] == w.recovering;
    } else if RecoveryName(r.record, r.taken) !in w.held {
      var v := Next(w, TakeNext(p));
      TakeAllTakesNames(v, p);
      TakenOneMore(w.held, p, r.record, r.taken);
      Overwritten(w.recovering, p, v.recovering[p], r.(taken := 6));
    }
  }

  lemma Overwritten(m: map<Proc, Recovery>, p: Proc, x: Recovery, y: Recovery)
    ensures m[p := x][p := y] == m[p := y] && m[p := x] - {p} == m - {p}
  {}

  lemma FinishRecovery(w: World, p: Proc, d: nat, held: Held, v: World)
    requires Idle(w, p) && d in w.dirs && held - TakenNames(w.dirs[d], 6) == w.held
    requires v == w.(held := held, recovering := w.recovering[p := Recovery(d, w.dirs[d], 6)])
    ensures Enabled(v, DeleteState(p))
    ensures Next(Next(v, DeleteState(p)), GiveBack(p)) == w.(dirs := w.dirs - {d})
  {
    assert v.recovering - {p} == w.recovering;
  }

  lemma TakenNamesWereFree(held: Held, r: Record)
    requires NamesFree(held, r, 0)
    ensures held - TakenNames(r, 6) == held
  {
    assert TakenNames(r, 6) !! held.Keys;
  }

  lemma StaleAndFree(w: World, p: Proc, d: nat)
    requires Idle(w, p) && d in w.dirs && Enabled(w, FindStale(p, d)) && NamesFree(w.held, w.dirs[d], 0)
    ensures Recover(w, p, d) == w.(dirs := w.dirs - {d})
  {
    var r := w.dirs[d];
    var start := Next(w, FindStale(p, d));
    TakeAllTakesNames(start, p);
    TakeNamesOutcome(w.held, p, r, 0);
    TakenNamesWereFree(w.held, r);
    Overwritten(w.recovering, p, Recovery(d, r, 0), Recovery(d, r, 6));
    FinishRecovery(w, p, d, TakeAll(start, p).held, TakeAll(start, p));
  }

  lemma StaleButHeld(w: World, p: Proc, d: nat)
    requires Idle(w, p) && d in w.dirs && Enabled(w, FindStale(p, d)) && !NamesFree(w.held, w.dirs[d], 0)
    ensures Recover(w, p, d) == w
  {
    var r := w.dirs[d];
    var start := Next(w, FindStale(p, d));
    TakeAllTakesNames(start, p);
    TakeNamesOutcome(w.held, p, r, 0);
    assert TakenNames(r, 0) == {} && w.held - {} == w.held;
    assert start.recovering - {p} == w.recovering;
  }

  predicate DomainFree(held: Held, r: Record, s: Scope) {
    Database(s, r.identity) !in held && Gateway(s, r.port) !in held
  }

  lemma FreeInEveryScope(held: Held, r: Record)
    ensures NamesFree(held, r, 0) <==> forall s: Scope :: DomainFree(held, r, s)
  {
    if NamesFree(held, r, 0) {
      forall s: Scope ensures DomainFree(held, r, s) {
        RecoveryNamesAreTheDomains(r, Database(s, r.identity));
        RecoveryNamesAreTheDomains(r, Gateway(s, r.port));
      }
    }
    if forall s: Scope :: DomainFree(held, r, s) {
      forall k | 0 <= k < 6 ensures RecoveryName(r, k) !in held {
        RecoveryNamesAreTheDomains(r, RecoveryName(r, k));
        var s: Scope :| RecoveryName(r, k) == Database(s, r.identity) || RecoveryName(r, k) == Gateway(s, r.port);
        assert DomainFree(held, r, s);
      }
    }
  }

  /** Undisturbed, a recovery deletes the directory exactly when the witness incarnation is
      dead and its database and gateway are free in every scope; otherwise it leaves the lease
      table, and everything else, as it found it. */
  lemma RecoveryExact(w: World, p: Proc, d: nat)
    requires Idle(w, p) && d in w.dirs
    ensures Recover(w, p, d) ==
      if w.dirs[d].owner !in w.alive && (forall s: Scope :: DomainFree(w.held, w.dirs[d], s)) then w.(dirs := w.dirs - {d}) else w
  {
    FreeInEveryScope(w.held, w.dirs[d]);
    SameProcessIsAlive(w, w.dirs[d].owner);
    if w.dirs[d].owner !in w.alive {
      if NamesFree(w.held, w.dirs[d], 0) { StaleAndFree(w, p, d); } else { StaleButHeld(w, p, d); }
    }
  }
}
