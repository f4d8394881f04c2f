/** The no-score dependency plan compiler: scripts/harness/verifier_readiness.py,
    `build_dependency_setup_plan`.  Shell tokenization and the per-command allowlists
    stay abstract: a `Unit` carries the answers the classifiers give for one logical
    shell unit, and the compiler decides what to do with them. */
module SetupPlan {

  datatype Kind =
    | PackageSetup | Installer | ArtifactFetch | BuildSetup | CompoundSetup | FilesystemSetup
    | GitSetup | HelperSetup | FixtureStage | Environment | EnvironmentGuard | EnvironmentSource
    | VenvCreate | Resolver | ResolverEntrypoint | MinimalEntrypoint

  /** The kinds `_classify_setup_command` can answer. */
  predicate SetupKind(k: Kind) {
    !k.FixtureStage? && !k.EnvironmentGuard? && !Entrypoint(k)
  }

  predicate Entrypoint(k: Kind) { k.ResolverEntrypoint? || k.MinimalEntrypoint? }

  /** A classifier's answer about a unit. */
  datatype Answer<T> = Raises | No | Yes(value: T)
  datatype Option<T> = None | Some(value: T)

  datatype FixtureSource = FixtureSource(relative: string, basename: string, digest: string)
  datatype Setup = Setup(kind: Kind, buildOnly: bool)
  datatype Scorer = Scorer(family: string, entrypoint: Option<string>, resolves: bool)

  datatype Unit = Unit(
    text: string,
    dependencyIntent: bool,
    changesDirectory: bool,
    binding: Answer<string>,        // a standalone declaration of this name
    fixture: Answer<FixtureSource>, // a `cp` of an authoritative test file
    expands: bool,                  // has a ${...} expansion other than ${HOME}
    mentions: set<string>,          // names n with a plain $n
    resolved: Answer<set<string>>,  // names a well-shaped scorer expands
    isIf: bool,
    safeGuard: bool,
    setup: Answer<Setup>,
    scorer: Answer<Scorer>)

  predicate Classified(units: seq<Unit>) {
    forall u <- units :: u.setup.Yes? ==> SetupKind(u.setup.value.kind)
  }

  datatype Step = Step(kind: Kind, command: string, buildOnly: bool, changesDirectory: bool)
  datatype Fixture = Fixture(sequence: nat, stepIndex: nat, source: FixtureSource)
  datatype Plan = Plan(family: string, steps: seq<Step>, scoring: string, fixtures: seq<Fixture>)
  datatype Result<T> = Ok(value: T) | Err

  // ---- What one unit before the scoring boundary means ------------------------------

  datatype Role =
    | Rejected
    | Declares(name: string)
    | Runs(step: Step)
    | Stages(source: FixtureSource)
    | Scores(scorer: Scorer, used: set<string>, text: string)
  {
    predicate Steps() { Runs? || Stages? }
  }

  predicate References(u: Unit, names: set<string>) {
    u.expands || u.mentions * names != {}
  }

  predicate Resolves(u: Unit, names: set<string>) {
    u.resolved.Yes? && u.resolved.value != {} && u.resolved.value <= names
  }

  function RoleOf(u: Unit, names: set<string>): Role {
    if u.binding.Raises? || u.fixture.Raises? then Rejected
    else if u.binding.Yes? then
      if u.binding.value in names then Rejected else Declares(u.binding.value)
    else if References(u, names) && !Resolves(u, names) then Rejected
    else if u.isIf then
      if References(u, names) || !u.safeGuard then Rejected
      else Runs(Step(EnvironmentGuard, u.text, false, u.changesDirectory))
    else if u.fixture.Yes? then
      if References(u, names) then Rejected else Stages(u.fixture.value)
    else if !References(u, names) && u.setup.Raises? then Rejected
    else if !References(u, names) && u.setup.Yes? then
      Runs(Step(u.setup.value.kind, u.text, u.setup.value.buildOnly, u.changesDirectory))
    else if u.scorer.Yes? then Scores(u.scorer.value, if References(u, names) then u.resolved.value else {}, u.text)
    else Rejected
  }

  function Declared(roles: seq<Role>): set<string> {
    set r <- roles | r.Declares? :: r.name
  }

  /** Each unit's role, given the names that the units before it declare. */
  predicate AreRoles(units: seq<Unit>, roles: seq<Role>) {
    && |roles| == |units|
    && forall i :: 0 <= i < |units| ==> roles[i] == RoleOf(units[i], Declared(roles[..i]))
  }

  function Roles(units: seq<Unit>): (roles: seq<Role>)
    ensures AreRoles(units, roles)
  {
    if units == [] then []
    else
      var last := |units| - 1;
      var roles := Roles(units[..last]);
      var all := roles + [RoleOf(units[last], Declared(roles))];
      assert all[..last] == roles;
      assert forall i :: 0 <= i < last ==> all[..i] == roles[..i];
      all
  }

  // ---- What a plan is, over the script's roles -----------------------------------------

  /** The units before i that become steps, in script order. */
  function Origins(roles: seq<Role>, i: nat): (o: seq<nat>)
    requires i <= |roles|
    ensures forall k :: 0 <= k < |o| ==> o[k] < i && roles[o[k]].Steps()
    ensures forall j, k :: 0 <= j < k < |o| ==> o[j] < o[k]
  {
    if i == 0 then []
    else if roles[i - 1].Steps() then Origins(roles, i - 1) + [i - 1]
    else Origins(roles, i - 1)
  }

  /** No step is dropped: every stepping unit before i is the origin of one step. */
  lemma {:induction false} OriginsComplete(roles: seq<Role>, i: nat, n: nat)
    requires n < i <= |roles| && roles[n].Steps()
    ensures n in Origins(roles, i)
  {
    if n < i - 1 { OriginsComplete(roles, i - 1, n); }
  }

  function StageStep(receipt: Fixture -> string, f: Fixture): Step {
    Step(FixtureStage, receipt(f), false, false)
  }

  /** The step unit i contributes when it is the k-th step. */
  function StepFrom(receipt: Fixture -> string, roles: seq<Role>, i: nat, k: nat): Step
    requires i < |roles| && roles[i].Steps()
  {
    match roles[i]
    case Runs(step) => step
    case Stages(source) => StageStep(receipt, Fixture(i, k, source))
  }

  function EntryStep(scorer: Scorer): Step
    requires scorer.entrypoint.Some?
  {
    Step(if scorer.resolves then ResolverEntrypoint else MinimalEntrypoint, scorer.entrypoint.value, false, false)
  }

  /** Step k comes from unit o[k]. */
  predicate StepsOf(receipt: Fixture -> string, roles: seq<Role>, o: seq<nat>, steps: seq<Step>)
    requires forall k :: 0 <= k < |o| ==> o[k] < |roles| && roles[o[k]].Steps()
  {
    |steps| == |o| && forall k :: 0 <= k < |o| ==> steps[k] == StepFrom(receipt, roles, o[k], k)
  }

  /** The fixtures are the staging steps, in step order, each bound to its position. */
  predicate FixturesOf(roles: seq<Role>, o: seq<nat>, fixtures: seq<Fixture>)
    requires forall k :: 0 <= k < |o| ==> o[k] < |roles|
  {
    && (forall j :: 0 <= j < |fixtures| ==> FixtureAt(roles, o, fixtures[j]))
    && (forall j, k :: 0 <= j < k < |fixtures| ==> fixtures[j].stepIndex < fixtures[k].stepIndex)
    && (forall k :: 0 <= k < |o| && roles[o[k]].Stages? ==> exists j :: 0 <= j < |fixtures| && fixtures[j].stepIndex == k)
  }

  predicate FixtureAt(roles: seq<Role>, o: seq<nat>, f: Fixture)
    requires forall k :: 0 <= k < |o| ==> o[k] < |roles|
  {
    f.stepIndex < |o| && f.sequence == o[f.stepIndex] && roles[f.sequence] == Stages(f.source)
  }

  /** A fixture is refused after a directory change or under a repeated basename. */
  predicate StageAllowed(roles: seq<Role>, i: nat)
    requires i < |roles| && roles[i].Stages?
  {
    && (forall n: nat :: n < i && roles[n].Stages? ==> roles[n].source.basename != roles[i].source.basename)
    && (forall n: nat :: n < i && roles[n].Runs? ==> !roles[n].step.changesDirectory)
  }

  predicate Planned(roles: seq<Role>, i: nat)
    requires i < |roles|
  {
    roles[i].Declares? || roles[i].Runs? || (roles[i].Stages? && StageAllowed(roles, i))
  }

  predicate NeedsEntrypoint(roles: seq<Role>, b: nat)
    requires b < |roles| && roles[b].Scores?
  {
    Origins(roles, b) != [] || roles[b].scorer.resolves
  }

  /** Unit b is the scorer that closes the plan: everything before it declares a name
      or becomes a step, it uses exactly the declared names, and nothing after it sets
      anything up. */
  predicate Boundary(units: seq<Unit>, roles: seq<Role>, b: nat)
    requires |roles| == |units|
  {
    && b < |roles|
    && (forall i: nat :: i < b ==> Planned(roles, i))
    && roles[b].Scores?
    && roles[b].used == Declared(roles[..b])
    && (NeedsEntrypoint(roles, b) ==> roles[b].scorer.entrypoint.Some?)
    && (forall i :: b < i < |units| ==> !units[i].dependencyIntent)
  }

  /** `plan` is the plan of the script whose scorer is unit b. */
  predicate IsPlanOf(receipt: Fixture -> string, roles: seq<Role>, b: nat, plan: Plan)
    requires b < |roles| && roles[b].Scores?
  {
    var o := Origins(roles, b);
    && plan.family == roles[b].scorer.family
    && plan.scoring == roles[b].text
    && FixturesOf(roles, o, plan.fixtures)
    && if !NeedsEntrypoint(roles, b) then StepsOf(receipt, roles, o, plan.steps)
       else
         && roles[b].scorer.entrypoint.Some?
         && plan.steps != []
         && StepsOf(receipt, roles, o, plan.steps[..|plan.steps| - 1])
         && plan.steps[|plan.steps| - 1] == EntryStep(roles[b].scorer)
  }

  // ---- The compiler ---------------------------------------------------------------------

  /** The compiler's lists after the units before i, none of which scores. */
  predicate Compiled(receipt: Fixture -> string, roles: seq<Role>, i: nat, steps: seq<Step>, fixtures: seq<Fixture>) {
    && i <= |roles|
    && (forall n: nat :: n < i ==> Planned(roles, n))
    && StepsOf(receipt, roles, Origins(roles, i), steps)
    && FixturesOf(roles, Origins(roles, i), fixtures)
  }

  lemma CompiledStage(receipt: Fixture -> string, roles: seq<Role>, i: nat, steps: seq<Step>, fixtures: seq<Fixture>)
    requires Compiled(receipt, roles, i, steps, fixtures) && i < |roles| && roles[i].Stages? && StageAllowed(roles, i)
    ensures var f := Fixture(i, |steps|, roles[i].source);
      Compiled(receipt, roles, i + 1, steps + [StageStep(receipt, f)], fixtures + [f])
  {
    StagedFixtures(roles, i, |steps|, fixtures);
  }

  lemma StagedFixtures(roles: seq<Role>, i: nat, k: nat, fixtures: seq<Fixture>)
    requires i < |roles| && roles[i].Stages? && k == |Origins(roles, i)| && FixturesOf(roles, Origins(roles, i), fixtures)
    ensures FixturesOf(roles, Origins(roles, i + 1), fixtures + [Fixture(i, k, roles[i].source)])
  {
    var o, after := Origins(roles, i), Origins(roles, i + 1);
    var more := fixtures + [Fixture(i, k, roles[i].source)];
    assert after == o + [i];
    forall j | 0 <= j < |more| ensures FixtureAt(roles, after, more[j]) {
      if j < |fixtures| { assert FixtureAt(roles, o, fixtures[j]); }
    }
    forall n | 0 <= n < |after| && roles[after[n]].Stages? ensures exists j :: 0 <= j < |more| && more[j].stepIndex == n {
      if n < k {
        var j :| 0 <= j < |fixtures| && fixtures[j].stepIndex == n;
        assert more[j].stepIndex == n;
      } else {
        assert more[|fixtures|].stepIndex == n;
      }
    }
  }

  lemma CompiledDeclaration(receipt: Fixture -> string, roles: seq<Role>, i: nat, steps: seq<Step>, fixtures: seq<Fixture>)
    requires Compiled(receipt, roles, i, steps, fixtures) && i < |roles| && roles[i].Declares?
    ensures Compiled(receipt, roles, i + 1, steps, fixtures)
  {
    assert Origins(roles, i + 1) == Origins(roles, i);
  }

  lemma CompiledRun(receipt: Fixture -> string, roles: seq<Role>, i: nat, steps: seq<Step>, fixtures: seq<Fixture>)
    requires Compiled(receipt, roles, i, steps, fixtures) && i < |roles| && roles[i].Runs?
    ensures Compiled(receipt, roles, i + 1, steps + [roles[i].step], fixtures)
  {
    var o, after := Origins(roles, i), Origins(roles, i + 1);
    assert after == o + [i];
    FixturesExtend(roles, o, fixtures, i);
  }

  lemma FixturesExtend(roles: seq<Role>, o: seq<nat>, fixtures: seq<Fixture>, i: nat)
    requires forall k :: 0 <= k < |o| ==> o[k] < |roles|
    requires i < |roles| && !roles[i].Stages? && FixturesOf(roles, o, fixtures)
    ensures FixturesOf(roles, o + [i], fixtures)
  {
    forall j | 0 <= j < |fixtures| ensures FixtureAt(roles, o + [i], fixtures[j]) {
      assert FixtureAt(roles, o, fixtures[j]);
    }
  }

  /** The scorer closes the plan, with an entrypoint where there is anything to set up. */
  lemma ClosedByScorer(receipt: Fixture -> string, units: seq<Unit>, roles: seq<Role>, b: nat, steps: seq<Step>, fixtures: seq<Fixture>)
    requires |roles| == |units| && Compiled(receipt, roles, b, steps, fixtures) && b < |roles| && roles[b].Scores?
    ensures NeedsEntrypoint(roles, b) <==> steps != [] || fixtures != [] || roles[b].scorer.resolves
    ensures !NeedsEntrypoint(roles, b) ==>
      Closed(receipt, units, roles, b, b + 1, Plan(roles[b].scorer.family, steps, roles[b].text, fixtures))
    ensures NeedsEntrypoint(roles, b) && roles[b].scorer.entrypoint.Some? ==>
      Closed(receipt, units, roles, b, b + 1, Plan(roles[b].scorer.family, steps + [EntryStep(roles[b].scorer)], roles[b].text, fixtures))
  {
    FixturesNeedSteps(roles, Origins(roles, b), fixtures);
    if roles[b].scorer.entrypoint.Some? {
      assert steps == (steps + [EntryStep(roles[b].scorer)])[..|steps|];
    }
  }

  /** The clash test over the lists built so far is the test over the script. */
  lemma StagingClash(receipt: Fixture -> string, roles: seq<Role>, i: nat, steps: seq<Step>, fixtures: seq<Fixture>)
    requires Compiled(receipt, roles, i, steps, fixtures) && i < |roles| && roles[i].Stages?
    ensures StageAllowed(roles, i) <==>
      (forall f <- fixtures :: f.source.basename != roles[i].source.basename) && (forall s <- steps :: !s.changesDirectory)
  {
    var name := roles[i].source.basename;
    var o := Origins(roles, i);
    if (forall f <- fixtures :: f.source.basename != name) && (forall s <- steps :: !s.changesDirectory) {
      forall n: nat | n < i && roles[n].Steps()
        ensures roles[n].Stages? ==> roles[n].source.basename != name
        ensures roles[n].Runs? ==> !roles[n].step.changesDirectory
      {
        OriginsComplete(roles, i, n);
        var k :| 0 <= k < |o| && o[k] == n;
        assert steps[k] in steps && steps[k] == StepFrom(receipt, roles, n, k);
        if roles[n].Stages? {
          var j :| 0 <= j < |fixtures| && fixtures[j].stepIndex == k;
          assert fixtures[j] in fixtures && FixtureAt(roles, o, fixtures[j]);
        }
      }
    }
    if StageAllowed(roles, i) {
      forall j | 0 <= j < |fixtures| ensures fixtures[j].source.basename != name {
        assert FixtureAt(roles, o, fixtures[j]);
      }
      forall k | 0 <= k < |steps| ensures !steps[k].changesDirectory {
        assert steps[k] == StepFrom(receipt, roles, o[k], k);
      }
    }
  }

  lemma FixturesNeedSteps(roles: seq<Role>, o: seq<nat>, fixtures: seq<Fixture>)
    requires forall k :: 0 <= k < |o| ==> o[k] < |roles|
    requires FixturesOf(roles, o, fixtures)
    ensures fixtures != [] ==> o != []
  {
    if fixtures != [] { assert FixtureAt(roles, o, fixtures[0]); }
  }

  /** Unit b scored with a complete plan, and no later unit before `upto` sets anything up. */
  predicate Closed(receipt: Fixture -> string, units: seq<Unit>, roles: seq<Role>, b: nat, upto: nat, plan: Plan) {
    && |roles| == |units|
    && b < upto <= |roles|
    && (forall n: nat :: n < b ==> Planned(roles, n))
    && roles[b].Scores?
    && IsPlanOf(receipt, roles, b, plan)
    && (forall n :: b < n < upto ==> !units[n].dependencyIntent)
  }

  /** The compiler's variables: what is collected, and the scorer once it is seen. */
  datatype Draft = Draft(steps: seq<Step>, fixtures: seq<Fixture>, names: set<string>, scored: Option<Scored>)
  datatype Scored = Scored(at: nat, family: string, text: string, used: set<string>)

  predicate Drafted(receipt: Fixture -> string, units: seq<Unit>, roles: seq<Role>, upto: nat, d: Draft) {
    && |roles| == |units|
    && upto <= |roles|
    && match d.scored
       case None => Compiled(receipt, roles, upto, d.steps, d.fixtures) && d.names == Declared(roles[..upto])
       case Some(Scored(b, family, text, used)) =>
         && Closed(receipt, units, roles, b, upto, Plan(family, d.steps, text, d.fixtures))
         && d.names == Declared(roles[..b]) && used == roles[b].used
  }

  /** One unit before the scoring boundary. */
  method PlanUnit(receipt: Fixture -> string, unit: Unit, sequence: nat, d: Draft, ghost units: seq<Unit>, ghost roles: seq<Role>)
    returns (r: Result<Draft>)
    requires AreRoles(units, roles) && Drafted(receipt, units, roles, sequence, d) && d.scored.None?
    requires sequence < |units| && unit == units[sequence]
    ensures r.Ok? ==> Drafted(receipt, units, roles, sequence + 1, r.value)
    ensures r.Err? ==> !exists b: nat :: Boundary(units, roles, b)
  {
    var role := RoleOf(unit, d.names);
    assert role == roles[sequence] && roles[..sequence + 1] == roles[..sequence] + [role];
    var Draft(steps, fixtures, names, _) := d;
    match role {
      case Rejected =>
        NoBoundary(units, roles, sequence);
        r := Err;
      case Declares(name) =>
        CompiledDeclaration(receipt, roles, sequence, steps, fixtures);
        r := Ok(d.(names := names + {name}));
      case Runs(step) =>
        CompiledRun(receipt, roles, sequence, steps, fixtures);
        r := Ok(d.(steps := steps + [step]));
      case Stages(source) =>
        StagingClash(receipt, roles, sequence, steps, fixtures);
        if (exists f <- fixtures :: f.source.basename == source.basename) || (exists s <- steps :: s.changesDirectory) {
          NoBoundary(units, roles, sequence);
          return Err;
        }
        CompiledStage(receipt, roles, sequence, steps, fixtures);
        var fixture := Fixture(sequence, |steps|, source);
        r := Ok(d.(steps := steps + [StageStep(receipt, fixture)], fixtures := fixtures + [fixture]));
      case Scores(scorer, used, text) =>
        ClosedByScorer(receipt, units, roles, sequence, steps, fixtures);
        var scored := Some(Scored(sequence, scorer.family, text, used));
        if steps == [] && fixtures == [] && !scorer.resolves {
          r := Ok(d.(scored := scored));
        } else if scorer.entrypoint.None? {
          NoBoundary(units, roles, sequence);
          r := Err;
        } else {
          r := Ok(d.(steps := steps + [EntryStep(scorer)], scored := scored));
        }
    }
  }

  /** `build_dependency_setup_plan` succeeds exactly on scripts with a scoring boundary,
      and then returns the plan of that boundary.  Every script has roles: see `Roles`. */
  method BuildPlan(receipt: Fixture -> string, units: seq<Unit>, ghost roles: seq<Role>) returns (r: Result<Plan>)
    requires AreRoles(units, roles)
    ensures r.Ok? <==> exists b: nat :: Boundary(units, roles, b)
    ensures r.Ok? ==> forall b: nat :: Boundary(units, roles, b) ==> IsPlanOf(receipt, roles, b, r.value)
  {
    var d := Draft([], [], {}, None);
    for sequence := 0 to |units|
      invariant Drafted(receipt, units, roles, sequence, d)
    {
      if d.scored.Some? {
        if units[sequence].dependencyIntent {
          NoBoundary(units, roles, d.scored.value.at);
          return Err;
        }
      } else {
        var next := PlanUnit(receipt, units[sequence], sequence, d, units, roles);
        if next.Err? { return Err; }
        d := next.value;
      }
    }
    if d.scored.None? {
      NeverScored(units, roles);
      return Err;
    }
    ghost var b := d.scored.value.at;
    if d.names != d.scored.value.used {
      NoBoundary(units, roles, b);
      return Err;
    }
    r := Ok(Plan(d.scored.value.family, d.steps, d.scored.value.text, d.fixtures));
    assert Boundary(units, roles, b);
    forall n: nat | Boundary(units, roles, n) ensures IsPlanOf(receipt, roles, n, r.value) {
      OnlyBoundary(units, roles, b, n);
    }
  }

  /** The first unit that does not plan is the only candidate for a boundary. */
  lemma NoBoundary(units: seq<Unit>, roles: seq<Role>, i: nat)
    requires |roles| == |units| && i < |roles|
    requires forall n: nat :: n < i ==> Planned(roles, n)
    requires !Planned(roles, i) && !Boundary(units, roles, i)
    ensures !exists b: nat :: Boundary(units, roles, b)
  {
    forall b: nat ensures !Boundary(units, roles, b) {
      if b < i && b < |roles| { assert Planned(roles, b) && !roles[b].Scores?; }
    }
  }

  lemma NeverScored(units: seq<Unit>, roles: seq<Role>)
    requires |roles| == |units| && forall n: nat :: n < |roles| ==> Planned(roles, n)
    ensures !exists b: nat :: Boundary(units, roles, b)
  {
    forall b: nat ensures !Boundary(units, roles, b) {
      if b < |roles| { assert Planned(roles, b); }
    }
  }

  /** A script has at most one scorer. */
  lemma OnlyBoundary(units: seq<Unit>, roles: seq<Role>, a: nat, b: nat)
    requires |roles| == |units| && Boundary(units, roles, a) && Boundary(units, roles, b)
    ensures a == b
  {
    var low := if a < b then a else b;
    assert low < (if a < b then b else a) ==> Planned(roles, low);
  }

  // ---- What a compiled plan guarantees --------------------------------------------------

  /** Every unit before the scorer is accounted for once: it declares a name, or it is
      the origin of exactly one step (the origins are strictly increasing). */
  lemma UnitsAccountedFor(units: seq<Unit>, roles: seq<Role>, b: nat, n: nat)
    requires AreRoles(units, roles) && Boundary(units, roles, b) && n < b
    ensures roles[n].Declares? <==> n !in Origins(roles, b)
  {
    assert Planned(roles, n);
    if !roles[n].Declares? { OriginsComplete(roles, b, n); }
  }

  /** A declared name is declared by no other unit and used by the scorer. */
  lemma DeclarationsAreUsedOnce(units: seq<Unit>, roles: seq<Role>, b: nat, n: nat)
    requires AreRoles(units, roles) && Boundary(units, roles, b) && n < b && roles[n].Declares?
    ensures roles[n].name in roles[b].used
    ensures forall m: nat :: m < b && m != n && roles[m].Declares? ==> roles[m].name != roles[n].name
  {
    assert roles[n] in roles[..b];
    forall m: nat | m < b && m != n && roles[m].Declares? ensures roles[m].name != roles[n].name {
      if m < n { DeclaredOnce(units, roles, m, n); } else { DeclaredOnce(units, roles, n, m); }
    }
  }

  lemma DeclaredOnce(units: seq<Unit>, roles: seq<Role>, m: nat, n: nat)
    requires AreRoles(units, roles) && m < n < |roles| && roles[m].Declares? && roles[n].Declares?
    ensures roles[m].name != roles[n].name
  {
    assert roles[m] in roles[..n];
    assert roles[n] == RoleOf(units[n], Declared(roles[..n]));
  }

  predicate Increasing(fixtures: seq<Fixture>) {
    forall j, k :: 0 <= j < k < |fixtures| ==> fixtures[j].stepIndex < fixtures[k].stepIndex
  }

  /** A plan the prober can run: fixtures sit exactly at the staging steps, in step
      order, and a plan with any step ends in its only, non-scoring, entrypoint. */
  predicate WellPlanned(plan: Plan) {
    && Increasing(plan.fixtures)
    && (forall f <- plan.fixtures :: f.stepIndex < |plan.steps| && plan.steps[f.stepIndex].kind.FixtureStage?)
    && (forall k :: 0 <= k < |plan.steps| && plan.steps[k].kind.FixtureStage? ==>
          exists j :: 0 <= j < |plan.fixtures| && plan.fixtures[j].stepIndex == k)
    && (forall k :: 0 <= k < |plan.steps| ==> (Entrypoint(plan.steps[k].kind) <==> k == |plan.steps| - 1))
  }

  lemma CompiledSteps(receipt: Fixture -> string, units: seq<Unit>, roles: seq<Role>, b: nat, plan: Plan, k: nat)
    requires Classified(units) && AreRoles(units, roles) && Boundary(units, roles, b) && IsPlanOf(receipt, roles, b, plan)
    requires k < |Origins(roles, b)|
    ensures var n := Origins(roles, b)[k];
      && k < |plan.steps| && plan.steps[k] == StepFrom(receipt, roles, n, k)
      && (plan.steps[k].kind.FixtureStage? <==> roles[n].Stages?)
      && !Entrypoint(plan.steps[k].kind)
  {
    var n := Origins(roles, b)[k];
    assert roles[n] == RoleOf(units[n], Declared(roles[..n]));
    assert units[n] in units;
    if NeedsEntrypoint(roles, b) { assert plan.steps[..|plan.steps| - 1][k] == plan.steps[k]; }
  }

  lemma CompiledFixtures(receipt: Fixture -> string, units: seq<Unit>, roles: seq<Role>, b: nat, plan: Plan)
    requires Classified(units) && AreRoles(units, roles) && Boundary(units, roles, b) && IsPlanOf(receipt, roles, b, plan)
    ensures Increasing(plan.fixtures)
    ensures forall f <- plan.fixtures :: f.stepIndex < |plan.steps| && plan.steps[f.stepIndex].kind.FixtureStage?
  {
    forall j | 0 <= j < |plan.fixtures|
      ensures plan.fixtures[j].stepIndex < |plan.steps| && plan.steps[plan.fixtures[j].stepIndex].kind.FixtureStage?
    {
      assert FixtureAt(roles, Origins(roles, b), plan.fixtures[j]);
      CompiledSteps(receipt, units, roles, b, plan, plan.fixtures[j].stepIndex);
    }
  }

  lemma CompiledStages(receipt: Fixture -> string, units: seq<Unit>, roles: seq<Role>, b: nat, plan: Plan, k: nat)
    requires Classified(units) && AreRoles(units, roles) && Boundary(units, roles, b) && IsPlanOf(receipt, roles, b, plan)
    requires k < |plan.steps| && plan.steps[k].kind.FixtureStage?
    ensures exists j :: 0 <= j < |plan.fixtures| && plan.fixtures[j].stepIndex == k
  {
    var o := Origins(roles, b);
    if k < |o| { CompiledSteps(receipt, units, roles, b, plan, k); }
  }

  lemma CompiledPlanIsWellPlanned(receipt: Fixture -> string, units: seq<Unit>, roles: seq<Role>, b: nat, plan: Plan)
    requires Classified(units) && AreRoles(units, roles) && Boundary(units, roles, b) && IsPlanOf(receipt, roles, b, plan)
    ensures WellPlanned(plan)
  {
    CompiledFixtures(receipt, units, roles, b, plan);
    forall k | 0 <= k < |plan.steps| && plan.steps[k].kind.FixtureStage?
      ensures exists j :: 0 <= j < |plan.fixtures| && plan.fixtures[j].stepIndex == k
    {
      CompiledStages(receipt, units, roles, b, plan, k);
    }
    forall k | 0 <= k < |Origins(roles, b)| ensures !Entrypoint(plan.steps[k].kind) {
      CompiledSteps(receipt, units, roles, b, plan, k);
    }
  }
}
