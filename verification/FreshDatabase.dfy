/** The one-use database proof of scripts/harness/fresh_database_contract.py: `begin`,
    `seal` and `verify` as interleaved operations over shared proof files, one consumption
    directory and databases that change from outside between any two reads.  A proof file
    is read and replaced as a whole, and a content hash stands for the content itself. */
module FreshDatabase {

  type Path = nat
  type Database = string
  type Caller = nat

  /** The row counts a seeded database has in its boot tables. */
  const BOOT_COUNTS := map["astra_schema_contracts" := 1, "infra_llm_models" := 1,
                           "maintenance_sweep_cursors" := 1, "sweeper_leases" := 1]

  /** The row counts the one bootstrap administrator leaves, if there is one. */
  const ADMIN_COUNTS := map["auth_users" := 1, "auth_roles" := 2, "auth_user_roles" := 2, "auth_refresh_tokens" := 1]

  const TABLE_CONTRACTS := "astra_schema_table_contracts"

  /** Row counts by table and boot metadata (one read), the selected model and when it was
      last checked (another read). */
  datatype Content = Content(counts: map<string, nat>, boot: nat, model: nat, checked: int)

  type Databases = map<Database, Content>

  datatype Phase = Absent | Sealed(content: Content) | Consumed(content: Content)

  /** The nonce tells apart the runs of `begin`. */
  datatype Proof = Proof(nonce: nat, db: Database, begun: int, phase: Phase)

  /** How far a caller's operation has come, with what it has read. */
  datatype Op =
    | BeginChecked(path: Path, db: Database)
    | BeginAbsent(path: Path, db: Database, nonce: nat)
    | SealLoaded(path: Path, loaded: Proof)
    | SealCounted(path: Path, loaded: Proof, counts: map<string, nat>, boot: nat)
    | SealObserved(path: Path, loaded: Proof, content: Content)
    | VerifyLoaded(path: Path, loaded: Proof)
    | VerifyReserved(path: Path, loaded: Proof)
    | VerifyCounted(path: Path, loaded: Proof, atCounts: Databases)
    | VerifyMatched(path: Path, loaded: Proof, atCounts: Databases, atModel: Databases)
    | VerifyReloaded(path: Path, loaded: Proof, atCounts: Databases, atModel: Databases)

  /** A `verify` that returned: the sealed proof it consumed and the databases as they were
      at its two reads. */
  datatype Success = Success(caller: Caller, proof: Proof, atCounts: Databases, atModel: Databases)

  /** `markers` is the consumption directory, with the creator of each marker; `absences`
      records the databases as they were when each nonce's `begin` looked. */
  datatype World = World(
    dbs: Databases,
    proofs: map<Path, Proof>,
    markers: map<Database, Caller>,
    ops: map<Caller, Op>,
    callers: set<Caller>,
    absences: seq<Databases>,
    successes: seq<Success>)

  const EMPTY := World(map[], map[], map[], map[], {}, [], [])

  datatype Step =
    | StartBegin(c: Caller, path: Path, db: Database)
    | SeeAbsent(c: Caller)
    | WriteBegin(c: Caller, now: int)
    | LoadSeal(c: Caller, path: Path, db: Database)
    | CountSeal(c: Caller)
    | ModelSeal(c: Caller)
    | WriteSeal(c: Caller)
    | LoadVerify(c: Caller, path: Path, expected: Proof)
    | Reserve(c: Caller)
    | CountVerify(c: Caller)
    | ModelVerify(c: Caller)
    | Reload(c: Caller)
    | WriteVerify(c: Caller)
    | Fail(c: Caller)
    | SetDatabase(db: Database, content: Content)
    | DropDatabase(db: Database)

  predicate Fresh(w: World, c: Caller) { c !in w.callers }

  predicate Is(w: World, c: Caller, stage: Op -> bool) { c in w.ops && stage(w.ops[c]) }

  function Rows(counts: map<string, nat>, table: string): nat {
    if table in counts then counts[table] else 0
  }

  /** Only a seed has written: no rows outside the boot tables, and those as seeding leaves
      them. */
  predicate Seeded(counts: map<string, nat>) {
    && (forall t <- counts ::
          t in BOOT_COUNTS || t in ADMIN_COUNTS || t == TABLE_CONTRACTS || counts[t] == 0)
    && (forall t <- BOOT_COUNTS :: Rows(counts, t) == BOOT_COUNTS[t])
    && (forall t <- ADMIN_COUNTS :: Rows(counts, t) in {0, ADMIN_COUNTS[t]})
    && Rows(counts, TABLE_CONTRACTS) > 0
  }

  predicate Enabled(w: World, a: Step) {
    match a
    case StartBegin(c, path, _) => Fresh(w, c) && path !in w.proofs
    case SeeAbsent(c) => Is(w, c, (o: Op) => o.BeginChecked? && o.db !in w.dbs)
    case WriteBegin(c, _) => Is(w, c, (o: Op) => o.BeginAbsent?)
    case LoadSeal(c, path, db) => Fresh(w, c) && path in w.proofs && w.proofs[path].db == db && w.proofs[path].phase.Absent?
    case CountSeal(c) => Is(w, c, (o: Op) => o.SealLoaded? && o.loaded.db in w.dbs && Seeded(w.dbs[o.loaded.db].counts))
    case ModelSeal(c) => Is(w, c, (o: Op) => o.SealCounted? && o.loaded.db in w.dbs && o.loaded.begun <= w.dbs[o.loaded.db].checked)
    case WriteSeal(c) => Is(w, c, (o: Op) => o.SealObserved?)
    case LoadVerify(c, path, expected) => Fresh(w, c) && path in w.proofs && w.proofs[path] == expected && expected.phase.Sealed?
    case Reserve(c) => Is(w, c, (o: Op) => o.VerifyLoaded? && o.loaded.db !in w.markers)
    case CountVerify(c) => Is(w, c, (o: Op) => o.VerifyReserved? && SameCounts(o.loaded, w.dbs))
    case ModelVerify(c) => Is(w, c, (o: Op) => o.VerifyCounted? && SameModel(o.loaded, w.dbs))
    case Reload(c) => Is(w, c, (o: Op) => o.VerifyMatched? && o.path in w.proofs && w.proofs[o.path] == o.loaded)
    case WriteVerify(c) => Is(w, c, (o: Op) => o.VerifyReloaded? && o.loaded.phase.Sealed?)
    case Fail(c) => c in w.ops
    case SetDatabase(_, _) => true
    case DropDatabase(_) => true
  }

  predicate SameCounts(p: Proof, dbs: Databases) {
    && p.phase.Sealed? && p.db in dbs
    && dbs[p.db].counts == p.phase.content.counts && dbs[p.db].boot == p.phase.content.boot
  }

  predicate SameModel(p: Proof, dbs: Databases) {
    && p.phase.Sealed? && p.db in dbs
    && dbs[p.db].model == p.phase.content.model && dbs[p.db].checked == p.phase.content.checked
  }

  function Advance(w: World, c: Caller, op: Op): World { w.(ops := w.ops[c := op]) }

  function Start(w: World, c: Caller, op: Op): World { Advance(w, c, op).(callers := w.callers + {c}) }

  function Finish(w: World, c: Caller, path: Path, proof: Proof): World {
    w.(ops := w.ops - {c}, proofs := w.proofs[path := proof])
  }

  function Next(w: World, a: Step): World
    requires Enabled(w, a)
  {
    match a
    case StartBegin(c, path, db) => Start(w, c, BeginChecked(path, db))
    case SeeAbsent(c) =>
      var o := w.ops[c];
      Advance(w, c, BeginAbsent(o.path, o.db, |w.absences|)).(absences := w.absences + [w.dbs])
    case WriteBegin(c, now) =>
      var o := w.ops[c];
      Finish(w, c, o.path, Proof(o.nonce, o.db, now, Absent))
    case LoadSeal(c, path, _) => Start(w, c, SealLoaded(path, w.proofs[path]))
    case CountSeal(c) =>
      var o := w.ops[c];
      var content := w.dbs[o.loaded.db];
      Advance(w, c, SealCounted(o.path, o.loaded, content.counts, content.boot))
    case ModelSeal(c) =>
      var o := w.ops[c];
      var content := w.dbs[o.loaded.db];
      Advance(w, c, SealObserved(o.path, o.loaded, Content(o.counts, o.boot, content.model, content.checked)))
    case WriteSeal(c) =>
      var o := w.ops[c];
      Finish(w, c, o.path, o.loaded.(phase := Sealed(o.content)))
    case LoadVerify(c, path, expected) => Start(w, c, VerifyLoaded(path, expected))
    case Reserve(c) =>
      var o := w.ops[c];
      Advance(w, c, VerifyReserved(o.path, o.loaded)).(markers := w.markers[o.loaded.db := c])
    case CountVerify(c) =>
      var o := w.ops[c];
      Advance(w, c, VerifyCounted(o.path, o.loaded, w.dbs))
    case ModelVerify(c) =>
      var o := w.ops[c];
      Advance(w, c, VerifyMatched(o.path, o.loaded, o.atCounts, w.dbs))
    case Reload(c) =>
      var o := w.ops[c];
      Advance(w, c, VerifyReloaded(o.path, o.loaded, o.atCounts, o.atModel))
    case WriteVerify(c) =>
      var o := w.ops[c];
      Finish(w, c, o.path, o.loaded.(phase := Consumed(o.loaded.phase.content)))
        .(successes := w.successes + [Success(c, o.loaded, o.atCounts, o.atModel)])
    case Fail(c) => w.(ops := w.ops - {c})
    case SetDatabase(db, content) => w.(dbs := w.dbs[db := content])
    case DropDatabase(db) => w.(dbs := w.dbs - {db})
  }

  ghost predicate Run(w: World, steps: seq<Step>, v: World)
    decreases |steps|
  {
    if steps == [] then v == w
    else Enabled(w, steps[0]) && Run(Next(w, steps[0]), steps[1..], v)
  }

  // ---- What every reachable state keeps --------------------------------------------------------

  /** The `begin` behind the proof saw its database absent; a sealed state was that of a seed,
      with a model checked since. */
  predicate Genuine(absences: seq<Databases>, p: Proof) {
    && p.nonce < |absences| && p.db !in absences[p.nonce]
    && (!p.phase.Absent? ==> Seeded(p.phase.content.counts) && p.begun <= p.phase.content.checked)
  }

  predicate Owns(markers: map<Database, Caller>, c: Caller, p: Proof) {
    p.db in markers && markers[p.db] == c
  }

  predicate Reserved(absences: seq<Databases>, markers: map<Database, Caller>, c: Caller, p: Proof) {
    Genuine(absences, p) && p.phase.Sealed? && Owns(markers, c, p)
  }

  predicate OpOk(absences: seq<Databases>, markers: map<Database, Caller>, c: Caller, op: Op) {
    match op
    case BeginChecked(_, _) => true
    case BeginAbsent(_, db, nonce) => nonce < |absences| && db !in absences[nonce]
    case SealLoaded(_, p) => Genuine(absences, p) && p.phase.Absent?
    case SealCounted(_, p, counts, _) => Genuine(absences, p) && p.phase.Absent? && Seeded(counts)
    case SealObserved(_, p, content) =>
      Genuine(absences, p) && p.phase.Absent? && Seeded(content.counts) && p.begun <= content.checked
    case VerifyLoaded(_, p) => Genuine(absences, p) && p.phase.Sealed?
    case VerifyReserved(_, p) => Reserved(absences, markers, c, p)
    case VerifyCounted(_, p, atCounts) => Reserved(absences, markers, c, p) && SameCounts(p, atCounts)
    case VerifyMatched(_, p, atCounts, atModel) =>
      Reserved(absences, markers, c, p) && SameCounts(p, atCounts) && SameModel(p, atModel)
    case VerifyReloaded(_, p, atCounts, atModel) =>
      Reserved(absences, markers, c, p) && SameCounts(p, atCounts) && SameModel(p, atModel)
  }

  /** A success matched a genuine proof, holds its database's marker, and its caller is done. */
  predicate SuccessOk(w: World, s: Success) {
    && Reserved(w.absences, w.markers, s.caller, s.proof)
    && SameCounts(s.proof, s.atCounts) && SameModel(s.proof, s.atModel)
    && s.caller in w.callers && s.caller !in w.ops
  }

  predicate CallersDiffer(successes: seq<Success>) {
    forall j, k :: 0 <= j < k < |successes| ==> successes[j].caller != successes[k].caller
  }

  predicate Inv(w: World) {
    && w.ops.Keys <= w.callers
    && (forall path <- w.proofs :: Genuine(w.absences, w.proofs[path]))
    && (forall c <- w.ops :: OpOk(w.absences, w.markers, c, w.ops[c]))
    && (forall s <- w.successes :: SuccessOk(w, s))
    && CallersDiffer(w.successes)
  }

  /** Absences and markers are only ever added. */
  predicate Grows(w: World, v: World) {
    && w.absences <= v.absences
    && (forall db <- w.markers :: db in v.markers && v.markers[db] == w.markers[db])
  }

  lemma StepGrows(w: World, a: Step)
    requires Enabled(w, a)
    ensures Grows(w, Next(w, a))
    ensures w.callers <= Next(w, a).callers
    ensures forall c <- Next(w, a).ops :: c in w.ops || (Fresh(w, c) && c in Next(w, a).callers)
  {}

  predicate Outside(a: Step) { a.SetDatabase? || a.DropDatabase? }

  /** An operation another caller's step leaves alone stays in order. */
  lemma OpStaysOk(w: World, v: World, c: Caller, op: Op)
    requires Grows(w, v) && OpOk(w.absences, w.markers, c, op)
    ensures OpOk(v.absences, v.markers, c, op)
  {}

  /** What its own step makes of an operation is in order. */
  lemma OwnOpOk(w: World, a: Step)
    requires Inv(w) && Enabled(w, a) && !Outside(a) && a.c in Next(w, a).ops
    ensures OpOk(Next(w, a).absences, Next(w, a).markers, a.c, Next(w, a).ops[a.c])
  {
    if a.c in w.ops { assert OpOk(w.absences, w.markers, a.c, w.ops[a.c]); }
  }

  lemma OthersUntouched(w: World, a: Step, c: Caller)
    requires Enabled(w, a) && c in Next(w, a).ops && (Outside(a) || a.c != c)
    ensures c in w.ops && Next(w, a).ops[c] == w.ops[c]
  {}

  /** Every operation a step leaves in flight is in order: it is either untouched, or the
      actor's. */
  lemma StepOps(w: World, a: Step, c: Caller)
    requires Inv(w) && Enabled(w, a) && c in Next(w, a).ops
    ensures OpOk(Next(w, a).absences, Next(w, a).markers, c, Next(w, a).ops[c])
  {
    if Outside(a) || a.c != c {
      OthersUntouched(w, a, c);
      StepGrows(w, a);
      OpStaysOk(w, Next(w, a), c, w.ops[c]);
    } else {
      OwnOpOk(w, a);
    }
  }

  lemma StepProofs(w: World, a: Step, path: Path)
    requires Inv(w) && Enabled(w, a) && path in Next(w, a).proofs
    ensures Genuine(Next(w, a).absences, Next(w, a).proofs[path])
  {
    StepGrows(w, a);
    if a.WriteBegin? || a.WriteSeal? || a.WriteVerify? {
      assert OpOk(w.absences, w.markers, a.c, w.ops[a.c]);
    }
  }

  lemma StepSuccesses(w: World, a: Step)
    requires Inv(w) && Enabled(w, a)
    ensures forall s <- Next(w, a).successes :: SuccessOk(Next(w, a), s)
    ensures CallersDiffer(Next(w, a).successes)
  {
    StepGrows(w, a);
    var v := Next(w, a);
    forall s | s in v.successes ensures SuccessOk(v, s) {
      if s in w.successes {
        assert SuccessOk(w, s);
      } else {
        assert OpOk(w.absences, w.markers, a.c, w.ops[a.c]);
      }
    }
    if a.WriteVerify? {
      forall k | 0 <= k < |w.successes| ensures w.successes[k].caller != a.c {
        assert SuccessOk(w, w.successes[k]);
      }
    }
  }

  lemma StepInv(w: World, a: Step)
    requires Inv(w) && Enabled(w, a)
    ensures Inv(Next(w, a))
  {
    var v := Next(w, a);
    StepGrows(w, a);
    forall c | c in v.ops ensures OpOk(v.absences, v.markers, c, v.ops[c]) { StepOps(w, a, c); }
    forall path | path in v.proofs ensures Genuine(v.absences, v.proofs[path]) { StepProofs(w, a, path); }
    StepSuccesses(w, a);
  }

  lemma {:induction false} RunInv(w: World, steps: seq<Step>, v: World)
    requires Inv(w) && Run(w, steps, v)
    ensures Inv(v) && Grows(w, v)
    decreases |steps|
  {
    if steps != [] {
      StepInv(w, steps[0]);
      StepGrows(w, steps[0]);
      RunInv(Next(w, steps[0]), steps[1..], v);
    }
  }

  // ---- Main results ----------------------------------------------------------------------------

  /** However the operations interleave, a database identity is consumed at most once, by
      whatever proof files and callers. */
  lemma VerifiedAtMostOnce(steps: seq<Step>, v: World, j: nat, k: nat)
    requires Run(EMPTY, steps, v)
    requires j < |v.successes| && k < |v.successes| && v.successes[j].proof.db == v.successes[k].proof.db
    ensures j == k
  {
    RunInv(EMPTY, steps, v);
    assert SuccessOk(v, v.successes[j]) && SuccessOk(v, v.successes[k]);
  }

  const SEED_TABLES := {"astra_schema_contracts", "infra_llm_models", "maintenance_sweep_cursors", "sweeper_leases"}

  const AUTH_TABLES := {"auth_users", "auth_roles", "auth_user_roles", "auth_refresh_tokens"}

  /** A clean seed, table by table: one row in each table that seeding fills, none or the
      bootstrap administrator's in the four of authentication, some table contracts, and no
      row in any other table, whatever its name. */
  ghost predicate CleanSeed(counts: map<string, nat>) {
    && (forall t <- SEED_TABLES :: Rows(counts, t) == 1)
    && Rows(counts, "auth_users") in {0, 1} && Rows(counts, "auth_roles") in {0, 2}
    && Rows(counts, "auth_user_roles") in {0, 2} && Rows(counts, "auth_refresh_tokens") in {0, 1}
    && Rows(counts, "astra_schema_table_contracts") > 0
    && forall t: string :: t !in SEED_TABLES && t !in AUTH_TABLES && t != "astra_schema_table_contracts" ==> Rows(counts, t) == 0
  }

  lemma SeededIffClean(counts: map<string, nat>)
    ensures Seeded(counts) <==> CleanSeed(counts)
  {
    assert BOOT_COUNTS.Keys == SEED_TABLES && ADMIN_COUNTS.Keys == AUTH_TABLES;
    if Seeded(counts) {
      forall t <- SEED_TABLES ensures Rows(counts, t) == 1 { assert t in BOOT_COUNTS; }
      assert "auth_users" in ADMIN_COUNTS && "auth_roles" in ADMIN_COUNTS;
      assert "auth_user_roles" in ADMIN_COUNTS && "auth_refresh_tokens" in ADMIN_COUNTS;
    }
    if CleanSeed(counts) {
      forall t <- BOOT_COUNTS ensures Rows(counts, t) == BOOT_COUNTS[t] { assert t in SEED_TABLES; }
      forall t <- ADMIN_COUNTS ensures Rows(counts, t) in {0, ADMIN_COUNTS[t]} { assert t in AUTH_TABLES; }
    }
  }

  /** A seal that has loaded its proof takes its count step exactly on a clean seed. */
  lemma SealCountsExactlyCleanSeeds(w: World, c: Caller)
    requires c in w.ops && w.ops[c].SealLoaded?
    ensures Enabled(w, CountSeal(c)) <==> w.ops[c].loaded.db in w.dbs && CleanSeed(w.dbs[w.ops[c].loaded.db].counts)
  {
    if w.ops[c].loaded.db in w.dbs { SeededIffClean(w.dbs[w.ops[c].loaded.db].counts); }
  }

  /** A `verify` that returns goes back to a `begin` that saw the database absent; the sealed
      state was a clean seed, with a model checked after `begin`; and the counts, boot
      metadata and model it read were the sealed ones. */
  lemma VerifiedWasFresh(steps: seq<Step>, v: World, k: nat)
    requires Run(EMPTY, steps, v) && k < |v.successes|
    ensures var s := v.successes[k];
      && s.proof.nonce < |v.absences| && s.proof.db !in v.absences[s.proof.nonce]
      && s.proof.db in s.atCounts && CleanSeed(s.atCounts[s.proof.db].counts)
      && s.proof.db in s.atModel && s.proof.begun <= s.atModel[s.proof.db].checked
      && s.proof.phase == Sealed(Content(s.atCounts[s.proof.db].counts, s.atCounts[s.proof.db].boot,
                                         s.atModel[s.proof.db].model, s.atModel[s.proof.db].checked))
  {
    RunInv(EMPTY, steps, v);
    var s := v.successes[k];
    assert SuccessOk(v, s);
    SeededIffClean(s.atCounts[s.proof.db].counts);
  }

  /** The caller that made a database's marker has given up. */
  predicate Burned(w: World, db: Database) {
    db in w.markers && w.markers[db] !in w.ops && w.markers[db] in w.callers
  }

  /** A `verify` that fails after making its marker uses the identity up: nothing that
      happens later verifies that database. */
  lemma {:induction false} FailureBurnsTheIdentity(w: World, steps: seq<Step>, v: World, db: Database, s: Success)
    requires Inv(w) && Burned(w, db) && Run(w, steps, v)
    requires s in v.successes && s.proof.db == db
    ensures s in w.successes
    decreases |steps|
  {
    if steps != [] {
      var next := Next(w, steps[0]);
      StepInv(w, steps[0]);
      StepGrows(w, steps[0]);
      FailureBurnsTheIdentity(next, steps[1..], v, db, s);
    }
  }

  // ---- Phases ----------------------------------------------------------------------------------

  predicate IsBegin(op: Op) { op.BeginChecked? || op.BeginAbsent? }
  predicate IsSeal(op: Op) { op.SealLoaded? || op.SealCounted? || op.SealObserved? }

  predicate Writes(a: Step) { a.WriteBegin? || a.WriteSeal? || a.WriteVerify? }

  /** 0 for no file, then the three phases in order. */
  function Rank(proofs: map<Path, Proof>, path: Path): nat {
    if path !in proofs then 0
    else match proofs[path].phase case Absent => 1 case Sealed(_) => 2 case Consumed(_) => 3
  }

  /** q is p, or p in a later phase: the same `begin`, and the same sealed content. */
  predicate Follows(p: Proof, q: Proof) {
    && q.nonce == p.nonce && q.db == p.db && q.begun == p.begun
    && match p.phase
       case Absent => true
       case Sealed(content) => q.phase == p.phase || q.phase == Consumed(content)
       case Consumed(_) => q.phase == p.phase
  }

  /** The file at `path` is untouched or has moved on. */
  predicate Kept(before: map<Path, Proof>, after: map<Path, Proof>, path: Path) {
    path in before ==> path in after && Follows(before[path], after[path])
  }

  /** On one path, no `begin` starts while a `begin` is in flight, and no `seal` while a
      `seal` is.  Every other overlap is allowed. */
  predicate Disciplined(w: World, a: Step) {
    && (a.StartBegin? ==> forall c <- w.ops :: IsBegin(w.ops[c]) ==> w.ops[c].path != a.path)
    && (a.LoadSeal? ==> forall c <- w.ops :: IsSeal(w.ops[c]) ==> w.ops[c].path != a.path)
  }

  /** A `begin` in flight has no file yet; the file of a `seal` is what it loaded; the file
      of a `verify` is what it loaded, or that consumed. */
  predicate Steady(proofs: map<Path, Proof>, op: Op) {
    if IsBegin(op) then op.path !in proofs
    else if IsSeal(op) then op.path in proofs && proofs[op.path] == op.loaded && op.loaded.phase.Absent?
    else op.path in proofs && op.loaded.phase.Sealed? && Follows(op.loaded, proofs[op.path])
  }

  /** Two begins, or two seals, of one path. */
  predicate Clash(o: Op, n: Op) {
    o.path == n.path && ((IsBegin(o) && IsBegin(n)) || (IsSeal(o) && IsSeal(n)))
  }

  predicate Separate(ops: map<Caller, Op>) {
    forall c, d :: c in ops && d in ops && Clash(ops[c], ops[d]) ==> c == d
  }

  predicate SteadyAll(w: World) {
    Separate(w.ops) && forall c <- w.ops :: Steady(w.proofs, w.ops[c])
  }

  /** Only the writer of a path changes it. */
  lemma StepProofFrame(w: World, a: Step, path: Path)
    requires Enabled(w, a) && (Writes(a) ==> w.ops[a.c].path != path)
    ensures path in w.proofs <==> path in Next(w, a).proofs
    ensures path in w.proofs ==> Next(w, a).proofs[path] == w.proofs[path]
  {}

  /** A step keeps each operation's kind, path and what it loaded, unless it starts or ends it. */
  lemma StepOpFrame(w: World, a: Step, c: Caller)
    requires Enabled(w, a) && c in w.ops && c in Next(w, a).ops
    requires (a.StartBegin? || a.LoadSeal? || a.LoadVerify?) ==> a.c != c
    ensures var o, n := w.ops[c], Next(w, a).ops[c];
      && n.path == o.path && (IsBegin(o) <==> IsBegin(n)) && (IsSeal(o) <==> IsSeal(n))
      && (!IsBegin(o) ==> n.loaded == o.loaded)
  {}

  /** The writer's file moves on, and nobody else but a `verify` of the same proof is on it. */
  lemma WriteMovesOn(w: World, a: Step)
    requires Enabled(w, a) && Writes(a) && Steady(w.proofs, w.ops[a.c])
    ensures var path := w.ops[a.c].path; path in Next(w, a).proofs && Kept(w.proofs, Next(w, a).proofs, path)
  {}

  lemma SteadyAfterWrite(w: World, a: Step, c: Caller)
    requires Enabled(w, a) && Writes(a) && SteadyAll(w) && c in w.ops && c != a.c && w.ops[c].path == w.ops[a.c].path
    ensures Steady(Next(w, a).proofs, w.ops[c])
  {
    assert Steady(w.proofs, w.ops[c]) && Steady(w.proofs, w.ops[a.c]);
  }

  /** An operation in flight stays steady through a step that does not end it. */
  lemma StepSteadyOld(w: World, a: Step, c: Caller)
    requires Inv(w) && SteadyAll(w) && Enabled(w, a) && c in w.ops && c in Next(w, a).ops
    ensures Steady(Next(w, a).proofs, Next(w, a).ops[c])
  {
    StepOpFrame(w, a, c);
    if Writes(a) && w.ops[a.c].path == w.ops[c].path {
      SteadyAfterWrite(w, a, c);
    } else {
      StepProofFrame(w, a, w.ops[c].path);
    }
  }

  /** A disciplined start is steady and separate. */
  lemma StepStarts(w: World, a: Step, c: Caller)
    requires Enabled(w, a) && Disciplined(w, a) && c !in w.ops && c in Next(w, a).ops
    ensures Steady(Next(w, a).proofs, Next(w, a).ops[c])
    ensures forall d <- w.ops :: !Clash(w.ops[d], Next(w, a).ops[c])
    ensures Next(w, a).ops == w.ops[c := Next(w, a).ops[c]]
  {}

  lemma StepSeparate(w: World, a: Step)
    requires Inv(w) && SteadyAll(w) && Enabled(w, a) && Disciplined(w, a)
    ensures Separate(Next(w, a).ops)
  {
    var v := Next(w, a);
    forall c, d | c in v.ops && d in v.ops && Clash(v.ops[c], v.ops[d]) ensures c == d {
      if c in w.ops { StepOpFrame(w, a, c); } else { StepStarts(w, a, c); }
      if d in w.ops { StepOpFrame(w, a, d); } else { StepStarts(w, a, d); }
    }
  }

  lemma StepSteady(w: World, a: Step)
    requires Inv(w) && SteadyAll(w) && Enabled(w, a) && Disciplined(w, a)
    ensures SteadyAll(Next(w, a))
  {
    var v := Next(w, a);
    StepSeparate(w, a);
    forall c | c in v.ops ensures Steady(v.proofs, v.ops[c]) {
      if c in w.ops { StepSteadyOld(w, a, c); } else { StepStarts(w, a, c); }
    }
  }

  lemma StepKeeps(w: World, a: Step, path: Path)
    requires SteadyAll(w) && Enabled(w, a)
    ensures Kept(w.proofs, Next(w, a).proofs, path)
  {
    if Writes(a) && w.ops[a.c].path == path { WriteMovesOn(w, a); } else { StepProofFrame(w, a, path); }
  }

  ghost predicate DisciplinedRun(w: World, steps: seq<Step>, v: World)
    decreases |steps|
  {
    if steps == [] then v == w
    else Enabled(w, steps[0]) && Disciplined(w, steps[0]) && DisciplinedRun(Next(w, steps[0]), steps[1..], v)
  }

  lemma {:induction false} StaysSteady(w: World, steps: seq<Step>, v: World, path: Path)
    requires Inv(w) && SteadyAll(w) && DisciplinedRun(w, steps, v)
    ensures Kept(w.proofs, v.proofs, path) && Inv(v) && SteadyAll(v)
    decreases |steps|
  {
    if steps != [] {
      var next := Next(w, steps[0]);
      StepInv(w, steps[0]);
      StepSteady(w, steps[0]);
      StepKeeps(w, steps[0], path);
      StaysSteady(next, steps[1..], v, path);
      KeptTwice(w.proofs, next.proofs, v.proofs, path);
    }
  }

  lemma KeptTwice(a: map<Path, Proof>, b: map<Path, Proof>, c: map<Path, Proof>, path: Path)
    requires Kept(a, b, path) && Kept(b, c, path)
    ensures Kept(a, c, path)
  {}

  /** If no two begins and no two seals overlap on a path, then from any point of the run to
      any later one every proof only moves on: the same `begin`, a later or equal phase, and
      the content it was sealed with. */
  lemma PhasesOnlyMoveOn(before: seq<Step>, w: World, steps: seq<Step>, v: World, path: Path)
    requires DisciplinedRun(EMPTY, before, w) && DisciplinedRun(w, steps, v)
    ensures Kept(w.proofs, v.proofs, path) && Rank(w.proofs, path) <= Rank(v.proofs, path)
  {
    StaysSteady(EMPTY, before, w, path);
    StaysSteady(w, steps, v, path);
  }

  // ---- Every clash can move a phase back -------------------------------------------------------

  ghost predicate Reaches(w: World, v: World) { exists steps :: Run(w, steps, v) }

  lemma {:induction false} RunOneMore(w: World, steps: seq<Step>, v: World, a: Step)
    requires Run(w, steps, v) && Enabled(v, a)
    ensures Run(w, steps + [a], Next(v, a))
    decreases |steps|
  {
    if steps == [] {
      assert (steps + [a])[1..] == [];
    } else {
      assert (steps + [a])[1..] == steps[1..] + [a];
      RunOneMore(Next(w, steps[0]), steps[1..], v, a);
    }
  }

  lemma Reach(w: World, v: World, a: Step)
    requires Reaches(w, v) && Enabled(v, a)
    ensures Reaches(w, Next(v, a))
  {
    var steps :| Run(w, steps, v);
    RunOneMore(w, steps, v, a);
  }

  lemma ReachesItself(w: World)
    ensures Reaches(w, w)
  {
    assert Run(w, [], w);
  }

  /** Some run from w has a step that takes the file at `path` back to an earlier phase. */
  ghost predicate CanMoveBack(w: World, path: Path) {
    exists v, a :: Reaches(w, v) && Enabled(v, a) && Rank(Next(v, a).proofs, path) < Rank(v.proofs, path)
  }

  /** Nothing but c's operation, the databases and what was observed has changed. */
  predicate OnlyOp(v: World, u: World, c: Caller) {
    && u.proofs == v.proofs && u.markers == v.markers && u.callers == v.callers && u.ops.Keys == v.ops.Keys
    && c in u.ops && forall d <- v.ops :: d != c ==> u.ops[d] == v.ops[d]
  }

  /** The operations in flight are still there. */
  predicate OpsKept(v: World, u: World) {
    forall d <- v.ops :: d in u.ops && u.ops[d] == v.ops[d]
  }

  lemma {:induction false} FreshCaller(callers: set<Caller>) returns (c: Caller)
    ensures forall d <- callers :: d < c
    decreases |callers|
  {
    if callers == {} {
      c := 0;
    } else {
      var d :| d in callers;
      var e := FreshCaller(callers - {d});
      c := if d < e then e else d + 1;
      assert callers == (callers - {d}) + {d};
    }
  }

  /** A `begin` in flight can come to its write. */
  lemma BeginComes(w: World, v: World, c: Caller) returns (u: World)
    requires Reaches(w, v) && c in v.ops && IsBegin(v.ops[c])
    ensures Reaches(w, u) && OnlyOp(v, u, c) && u.ops[c].BeginAbsent? && u.ops[c].path == v.ops[c].path && u.ops[c].db == v.ops[c].db
  {
    u := v;
    if v.ops[c].BeginChecked? {
      var drop := DropDatabase(v.ops[c].db);
      Reach(w, u, drop);
      u := Next(u, drop);
      Reach(w, u, SeeAbsent(c));
      u := Next(u, SeeAbsent(c));
    }
  }

  /** A `seal` that has loaded its proof can read the row counts. */
  lemma SealCounts(w: World, v: World, c: Caller, content: Content) returns (u: World)
    requires Reaches(w, v) && c in v.ops && v.ops[c].SealLoaded? && Seeded(content.counts)
    ensures Reaches(w, u) && OnlyOp(v, u, c) && u.ops[c].SealCounted?
    ensures u.ops[c].path == v.ops[c].path && u.ops[c].loaded == v.ops[c].loaded
  {
    var load := SetDatabase(v.ops[c].loaded.db, content);
    Reach(w, v, load);
    u := Next(v, load);
    Reach(w, u, CountSeal(c));
    u := Next(u, CountSeal(c));
  }

  /** And then the model. */
  lemma SealModels(w: World, v: World, c: Caller, content: Content) returns (u: World)
    requires Reaches(w, v) && c in v.ops && v.ops[c].SealCounted? && v.ops[c].loaded.begun <= content.checked
    ensures Reaches(w, u) && OnlyOp(v, u, c) && u.ops[c].SealObserved? && u.ops[c].content.model == content.model
    ensures u.ops[c].path == v.ops[c].path && u.ops[c].loaded == v.ops[c].loaded
  {
    var load := SetDatabase(v.ops[c].loaded.db, content);
    Reach(w, v, load);
    u := Next(v, load);
    Reach(w, u, ModelSeal(c));
    u := Next(u, ModelSeal(c));
  }

  /** So a `seal` in flight can come to its write, with any model if it has not read one. */
  lemma SealComes(w: World, v: World, c: Caller, content: Content) returns (u: World)
    requires Reaches(w, v) && c in v.ops && IsSeal(v.ops[c])
    requires Seeded(content.counts) && v.ops[c].loaded.begun <= content.checked
    ensures Reaches(w, u) && OnlyOp(v, u, c) && u.ops[c].SealObserved?
    ensures u.ops[c].path == v.ops[c].path && u.ops[c].loaded == v.ops[c].loaded
    ensures if v.ops[c].SealObserved? then u.ops[c] == v.ops[c] else u.ops[c].content.model == content.model
  {
    u := v;
    if u.ops[c].SealLoaded? { u := SealCounts(w, u, c, content); }
    if u.ops[c].SealCounted? { u := SealModels(w, u, c, content); }
  }

  /** An absent proof can be sealed by a new caller. */
  lemma SealsNow(w: World, v: World, path: Path, content: Content) returns (u: World)
    requires Reaches(w, v) && v.ops.Keys <= v.callers && path in v.proofs && v.proofs[path].phase.Absent?
    requires Seeded(content.counts) && v.proofs[path].begun <= content.checked
    ensures Reaches(w, u) && OpsKept(v, u) && path in u.proofs && u.proofs[path].phase.Sealed?
  {
    var c := FreshCaller(v.callers);
    var load := LoadSeal(c, path, v.proofs[path].db);
    Reach(w, v, load);
    var loaded := Next(v, load);
    var ready := SealComes(w, loaded, c, content);
    Reach(w, ready, WriteSeal(c));
    u := Next(ready, WriteSeal(c));
  }

  /** A new caller's `verify` of a sealed proof whose database is unmarked, up to its
      reservation. */
  lemma VerifyStarts(w: World, v: World, path: Path, c: Caller) returns (u: World)
    requires Reaches(w, v) && c !in v.callers && v.ops.Keys <= v.callers
    requires path in v.proofs && v.proofs[path].phase.Sealed? && v.proofs[path].db !in v.markers
    ensures Reaches(w, u) && OpsKept(v, u) && u.proofs == v.proofs && c in u.ops && u.ops[c] == VerifyReserved(path, v.proofs[path])
    ensures v.proofs[path].db in u.dbs && u.dbs[v.proofs[path].db] == v.proofs[path].phase.content
  {
    var p := v.proofs[path];
    var seed := SetDatabase(p.db, p.phase.content);
    Reach(w, v, seed);
    u := Next(v, seed);
    Reach(w, u, LoadVerify(c, path, p));
    u := Next(u, LoadVerify(c, path, p));
    Reach(w, u, Reserve(c));
    u := Next(u, Reserve(c));
  }

  /** It can see the sealed state. */
  lemma VerifyMatches(w: World, v: World, c: Caller) returns (u: World)
    requires Reaches(w, v) && c in v.ops && v.ops[c].VerifyReserved?
    requires SameCounts(v.ops[c].loaded, v.dbs) && SameModel(v.ops[c].loaded, v.dbs)
    ensures Reaches(w, u) && OnlyOp(v, u, c) && u.ops[c] == VerifyMatched(v.ops[c].path, v.ops[c].loaded, v.dbs, v.dbs)
  {
    Reach(w, v, CountVerify(c));
    u := Next(v, CountVerify(c));
    Reach(w, u, ModelVerify(c));
    u := Next(u, ModelVerify(c));
  }

  /** And consume the proof. */
  lemma VerifyEnds(w: World, v: World, c: Caller) returns (u: World)
    requires Reaches(w, v) && c in v.ops && v.ops[c].VerifyMatched? && v.ops[c].loaded.phase.Sealed?
    requires v.ops[c].path in v.proofs && v.proofs[v.ops[c].path] == v.ops[c].loaded
    ensures Reaches(w, u) && u.ops == v.ops - {c}
    ensures v.ops[c].path in u.proofs && u.proofs[v.ops[c].path].phase.Consumed?
  {
    Reach(w, v, Reload(c));
    u := Next(v, Reload(c));
    Reach(w, u, WriteVerify(c));
    u := Next(u, WriteVerify(c));
  }

  /** So it can be consumed. */
  lemma VerifiesNow(w: World, v: World, path: Path) returns (u: World)
    requires Reaches(w, v) && v.ops.Keys <= v.callers
    requires path in v.proofs && v.proofs[path].phase.Sealed? && v.proofs[path].db !in v.markers
    ensures Reaches(w, u) && OpsKept(v, u) && path in u.proofs && u.proofs[path].phase.Consumed?
  {
    var c := FreshCaller(v.callers);
    u := VerifyStarts(w, v, path, c);
    u := VerifyMatches(w, u, c);
    u := VerifyEnds(w, u, c);
  }

  const SEED := BOOT_COUNTS[TABLE_CONTRACTS := 1]

  lemma SeedIsSeeded()
    ensures Seeded(SEED)
  {
    forall t | t in ADMIN_COUNTS ensures t !in SEED {
      assert |t| == 10 || |t| == 15 || |t| == 19;
    }
    assert |TABLE_CONTRACTS| == 28;
  }

  lemma BeginsMoveBack(o: World, w: World, path: Path, c: Caller, d: Caller)
    requires Reaches(o, w) && w.ops.Keys <= w.callers && c != d && c in w.ops && d in w.ops
    requires IsBegin(w.ops[c]) && IsBegin(w.ops[d]) && w.ops[c].path == w.ops[d].path == path
    ensures CanMoveBack(o, path)
  {
    var content := Content(SEED, 0, 0, 0);
    SeedIsSeeded();
    var v := BeginComes(o, w, c);
    v := BeginComes(o, v, d);
    Reach(o, v, WriteBegin(c, 0));
    v := Next(v, WriteBegin(c, 0));
    v := SealsNow(o, v, path, content);
    var a := WriteBegin(d, 0);
    assert Reaches(o, v) && Enabled(v, a) && Rank(Next(v, a).proofs, path) == 1 < Rank(v.proofs, path);
  }

  lemma SealsMoveBack(o: World, w: World, path: Path, c: Caller, d: Caller)
    requires Reaches(o, w) && w.ops.Keys <= w.callers && c != d && c in w.ops && d in w.ops
    requires IsSeal(w.ops[c]) && IsSeal(w.ops[d]) && w.ops[c].path == w.ops[d].path == path
    requires w.ops[c].loaded.db !in w.markers
    ensures CanMoveBack(o, path)
  {
    var begun, other := w.ops[c].loaded.begun, w.ops[d].loaded.begun;
    var content := Content(SEED, 0, 0, if begun < other then other else begun);
    SeedIsSeeded();
    var v := SealComes(o, w, c, content);
    v := SealComes(o, v, d, content);
    v := SealThenVerify(o, v, c);
    MovesBackBySeal(o, v, d);
  }

  lemma SealThenVerify(o: World, w: World, c: Caller) returns (v: World)
    requires Reaches(o, w) && w.ops.Keys <= w.callers && c in w.ops && w.ops[c].SealObserved? && w.ops[c].loaded.db !in w.markers
    ensures Reaches(o, v) && w.ops[c].path in v.proofs && v.proofs[w.ops[c].path].phase.Consumed?
    ensures forall d <- w.ops :: d != c ==> d in v.ops && v.ops[d] == w.ops[d]
  {
    Reach(o, w, WriteSeal(c));
    v := Next(w, WriteSeal(c));
    v := VerifiesNow(o, v, w.ops[c].path);
  }

  lemma MovesBackBySeal(o: World, v: World, d: Caller)
    requires Reaches(o, v) && d in v.ops && v.ops[d].SealObserved? && Rank(v.proofs, v.ops[d].path) == 3
    ensures CanMoveBack(o, v.ops[d].path)
  {
    assert Enabled(v, WriteSeal(d)) && Rank(Next(v, WriteSeal(d)).proofs, v.ops[d].path) == 2;
  }

  /** The discipline is needed: in every reachable state in which two begins of one path are
      in flight, or two seals one of whose databases is not consumed, some continuation
      takes that path's proof back to an earlier phase. */
  lemma ClashMovesBack(steps: seq<Step>, w: World, c: Caller, d: Caller)
    requires Run(EMPTY, steps, w) && c != d && c in w.ops && d in w.ops && Clash(w.ops[c], w.ops[d])
    requires IsSeal(w.ops[c]) ==> w.ops[c].loaded.db !in w.markers
    ensures CanMoveBack(w, w.ops[c].path)
  {
    RunInv(EMPTY, steps, w);
    ReachesItself(w);
    if IsBegin(w.ops[c]) {
      BeginsMoveBack(w, w, w.ops[c].path, c, d);
    } else {
      SealsMoveBack(w, w, w.ops[c].path, c, d);
    }
  }

  /** And such states are reached: on every path and for every database the operations,
      without a lease around them, can undo one another. */
  lemma OverlapMovesBack(path: Path, db: Database)
    ensures CanMoveBack(EMPTY, path)
  {
    ReachesItself(EMPTY);
    Reach(EMPTY, EMPTY, StartBegin(0, path, db));
    var w := Next(EMPTY, StartBegin(0, path, db));
    Reach(EMPTY, w, StartBegin(1, path, db));
    w := Next(w, StartBegin(1, path, db));
    BeginsMoveBack(EMPTY, w, path, 0, 1);
  }

  // ---- And every clash can break what PhasesOnlyMoveOn promises ------------------------------------

  /** Some run from w has a step after which the file at `path` has not merely moved on. */
  ghost predicate CanBreak(w: World, path: Path) {
    exists v, a :: Reaches(w, v) && Enabled(v, a) && !Kept(v.proofs, Next(v, a).proofs, path)
  }

  lemma MovingBackBreaks(w: World, path: Path)
    requires CanMoveBack(w, path)
    ensures CanBreak(w, path)
  {
    var v, a :| Reaches(w, v) && Enabled(v, a) && Rank(Next(v, a).proofs, path) < Rank(v.proofs, path);
    assert !Kept(v.proofs, Next(v, a).proofs, path);
  }

  /** Both seals have read everything, and would write the same. */
  predicate SameSeal(o: Op, n: Op) {
    o.SealObserved? && n.SealObserved? && o.loaded == n.loaded && o.content == n.content
  }

  /** Two seals that would write different proofs: the second write replaces the first. */
  lemma SecondSealReplaces(o: World, v: World, c: Caller, d: Caller)
    requires Reaches(o, v) && c != d && c in v.ops && d in v.ops && v.ops[c].path == v.ops[d].path
    requires v.ops[c].SealObserved? && v.ops[d].SealObserved? && !SameSeal(v.ops[c], v.ops[d])
    requires v.ops[c].loaded.phase.Absent? && v.ops[d].loaded.phase.Absent?
    ensures CanBreak(o, v.ops[c].path)
  {
    Reach(o, v, WriteSeal(c));
    var u := Next(v, WriteSeal(c));
    assert Enabled(u, WriteSeal(d)) && !Kept(u.proofs, Next(u, WriteSeal(d)).proofs, v.ops[c].path);
  }

  /** Two seals in flight that can still write different proofs, d's model being open unless
      both have read theirs. */
  lemma SealsBreak(o: World, w: World, c: Caller, d: Caller)
    requires Reaches(o, w) && c != d && c in w.ops && d in w.ops && w.ops[c].path == w.ops[d].path
    requires IsSeal(w.ops[c]) && IsSeal(w.ops[d]) && !SameSeal(w.ops[c], w.ops[d])
    requires w.ops[c].loaded.phase.Absent? && w.ops[d].loaded.phase.Absent?
    requires w.ops[d].SealObserved? ==> w.ops[c].SealObserved?
    ensures CanBreak(o, w.ops[c].path)
  {
    var begun, other := w.ops[c].loaded.begun, w.ops[d].loaded.begun;
    var checked := if begun < other then other else begun;
    SeedIsSeeded();
    var v := SealComes(o, w, c, Content(SEED, 0, 0, checked));
    v := SealComes(o, v, d, Content(SEED, 0, v.ops[c].content.model + 1, checked));
    SecondSealReplaces(o, v, c, d);
  }

  /** A `verify` in flight that holds its marker. */
  predicate Holds(op: Op) {
    op.VerifyReserved? || op.VerifyCounted? || op.VerifyMatched? || op.VerifyReloaded?
  }

  /** It can come to see its sealed state. */
  lemma VerifySees(w: World, v: World, e: Caller) returns (u: World)
    requires Reaches(w, v) && e in v.ops && (v.ops[e].VerifyReserved? || v.ops[e].VerifyCounted?) && v.ops[e].loaded.phase.Sealed?
    ensures Reaches(w, u) && OnlyOp(v, u, e) && u.ops[e].VerifyMatched?
    ensures u.ops[e].path == v.ops[e].path && u.ops[e].loaded == v.ops[e].loaded
  {
    var p := v.ops[e].loaded;
    var seed := SetDatabase(p.db, p.phase.content);
    Reach(w, v, seed);
    u := Next(v, seed);
    if u.ops[e].VerifyReserved? {
      Reach(w, u, CountVerify(e));
      u := Next(u, CountVerify(e));
    }
    Reach(w, u, ModelVerify(e));
    u := Next(u, ModelVerify(e));
  }

  /** And to consume it, if the file still holds it. */
  lemma VerifyComes(w: World, v: World, e: Caller) returns (u: World)
    requires Reaches(w, v) && e in v.ops && Holds(v.ops[e]) && v.ops[e].loaded.phase.Sealed?
    requires v.ops[e].path in v.proofs && v.proofs[v.ops[e].path] == v.ops[e].loaded
    ensures Reaches(w, u) && v.ops[e].path in u.proofs && u.proofs[v.ops[e].path].phase.Consumed?
    ensures forall d <- v.ops :: d != e ==> d in u.ops && u.ops[d] == v.ops[d]
  {
    u := v;
    if u.ops[e].VerifyReserved? || u.ops[e].VerifyCounted? { u := VerifySees(w, u, e); }
    if u.ops[e].VerifyMatched? {
      u := VerifyEnds(w, u, e);
    } else {
      Reach(w, u, WriteVerify(e));
      u := Next(u, WriteVerify(e));
    }
  }

  /** A `verify` in flight on what two seals would both write: it consumes the first one's
      write, and the second takes that back. */
  lemma VerifyBetweenSeals(o: World, w: World, c: Caller, d: Caller, e: Caller)
    requires Reaches(o, w) && c != d && c in w.ops && d in w.ops && e in w.ops
    requires SameSeal(w.ops[c], w.ops[d]) && w.ops[c].path == w.ops[d].path == w.ops[e].path
    requires Holds(w.ops[e]) && w.ops[e].loaded == w.ops[c].loaded.(phase := Sealed(w.ops[c].content))
    ensures CanMoveBack(o, w.ops[c].path)
  {
    Reach(o, w, WriteSeal(c));
    var v := Next(w, WriteSeal(c));
    v := VerifyComes(o, v, e);
    MovesBackBySeal(o, v, d);
  }

  /** What two seals in flight leave open: to write different proofs, or a consumption between
      their writes, by a `verify` to come or by one that holds its marker already. */
  ghost predicate Open(w: World, c: Caller, d: Caller)
    requires c in w.ops && d in w.ops && IsSeal(w.ops[c]) && IsSeal(w.ops[d])
  {
    || !SameSeal(w.ops[c], w.ops[d])
    || w.ops[c].loaded.db !in w.markers
    || exists e <- w.ops :: Holds(w.ops[e]) && w.ops[e].path == w.ops[c].path
                            && w.ops[e].loaded == w.ops[c].loaded.(phase := Sealed(w.ops[c].content))
  }

  lemma OpenSealsBreak(w: World, c: Caller, d: Caller)
    requires Inv(w) && c != d && c in w.ops && d in w.ops && w.ops[c].path == w.ops[d].path
    requires IsSeal(w.ops[c]) && IsSeal(w.ops[d]) && Open(w, c, d)
    ensures CanBreak(w, w.ops[c].path)
  {
    ReachesItself(w);
    assert OpOk(w.absences, w.markers, c, w.ops[c]) && OpOk(w.absences, w.markers, d, w.ops[d]);
    if !SameSeal(w.ops[c], w.ops[d]) {
      if w.ops[d].SealObserved? && !w.ops[c].SealObserved? { SealsBreak(w, w, d, c); } else { SealsBreak(w, w, c, d); }
    } else {
      if w.ops[c].loaded.db !in w.markers {
        SealsMoveBack(w, w, w.ops[c].path, c, d);
      } else {
        var e :| e in w.ops && Holds(w.ops[e]) && w.ops[e].path == w.ops[c].path
                 && w.ops[e].loaded == w.ops[c].loaded.(phase := Sealed(w.ops[c].content));
        VerifyBetweenSeals(w, w, c, d, e);
      }
      MovingBackBreaks(w, w.ops[c].path);
    }
  }

  /** From every reachable state with two begins of a path in flight, or two seals, marked or
      not, that are not both bound to write the same proof with nothing to consume it in
      between, some run replaces or takes back what the file holds. */
  lemma ClashBreaks(steps: seq<Step>, w: World, c: Caller, d: Caller)
    requires Run(EMPTY, steps, w) && c != d && c in w.ops && d in w.ops && Clash(w.ops[c], w.ops[d])
    requires IsSeal(w.ops[c]) ==> Open(w, c, d)
    ensures CanBreak(w, w.ops[c].path)
  {
    RunInv(EMPTY, steps, w);
    if IsBegin(w.ops[c]) {
      ReachesItself(w);
      BeginsMoveBack(w, w, w.ops[c].path, c, d);
      MovingBackBreaks(w, w.ops[c].path);
    } else {
      OpenSealsBreak(w, c, d);
    }
  }

  /** So the discipline is exact: as long as it is kept nothing breaks, and the first step that
      does not keep it leads to a state from which some run breaks that path. */
  lemma FirstOverlapBreaks(before: seq<Step>, w: World, a: Step)
    requires DisciplinedRun(EMPTY, before, w) && Enabled(w, a)
    ensures forall path :: Kept(w.proofs, Next(w, a).proofs, path)
    ensures !Disciplined(w, a) ==> CanBreak(Next(w, a), a.path)
  {
    forall path ensures Kept(w.proofs, Next(w, a).proofs, path) {
      StaysSteady(EMPTY, before, w, path);
      StepKeeps(w, a, path);
    }
    if !Disciplined(w, a) {
      StaysSteady(EMPTY, before, w, a.path);
      StepInv(w, a);
      OverlapBreaks(w, a);
    }
  }

  lemma OverlapBreaks(w: World, a: Step)
    requires Inv(w) && Enabled(w, a) && !Disciplined(w, a) && Inv(Next(w, a))
    ensures CanBreak(Next(w, a), a.path)
  {
    var v := Next(w, a);
    if a.StartBegin? {
      var c :| c in w.ops && IsBegin(w.ops[c]) && w.ops[c].path == a.path;
      ReachesItself(v);
      BeginsMoveBack(v, v, a.path, c, a.c);
      MovingBackBreaks(v, a.path);
    } else {
      var c :| c in w.ops && IsSeal(w.ops[c]) && w.ops[c].path == a.path;
      OpenSealsBreak(v, c, a.c);
    }
  }
}
