/** Which verifier scripts `build_dependency_setup_plan` of scripts/harness/verifier_readiness.py
    compiles, and into what, in terms of the classifiers' answers about each unit alone. */
module SetupScript {
  import opened SetupPlan

  /** The unit expands nothing, and mentions none of these names. */
  predicate Plain(u: Unit, names: set<string>) { !u.expands && forall x <- u.mentions :: x !in names }

  lemma PlainIff(u: Unit, names: set<string>)
    ensures Plain(u, names) <==> !References(u, names)
  {
    if x :| x in u.mentions && x in names { assert x in u.mentions * names; }
    if u.mentions * names != {} { var x :| x in u.mentions * names; }
  }

  /** What each role means.  Whatever has none of these four roles is refused. */
  lemma RoleMeans(u: Unit, names: set<string>)
    ensures var r := RoleOf(u, names);
      && (r.Declares? <==> u.binding.Yes? && !u.fixture.Raises? && u.binding.value !in names)
      && (r.Declares? ==> r.name == u.binding.value)
    ensures var r := RoleOf(u, names);
      && (r.Runs? <==>
            u.binding.No? && !u.fixture.Raises? && Plain(u, names) && if u.isIf then u.safeGuard else u.fixture.No? && u.setup.Yes?)
      && (r.Runs? && u.isIf ==> r.step == Step(EnvironmentGuard, u.text, false, u.changesDirectory))
      && (r.Runs? && !u.isIf ==> r.step == Step(u.setup.value.kind, u.text, u.setup.value.buildOnly, u.changesDirectory))
    ensures var r := RoleOf(u, names);
      && (r.Stages? <==> u.binding.No? && !u.isIf && u.fixture.Yes? && Plain(u, names))
      && (r.Stages? ==> r.source == u.fixture.value)
    ensures var r := RoleOf(u, names);
      && (r.Scores? <==>
            && u.binding.No? && !u.isIf && u.fixture.No? && u.scorer.Yes?
            && if Plain(u, names) then u.setup.No? else u.resolved.Yes? && u.resolved.value != {} && u.resolved.value <= names)
      && (r.Scores? ==>
            r.scorer == u.scorer.value && r.text == u.text && r.used == if Plain(u, names) then {} else u.resolved.value)
  {
    PlainIff(u, names);
  }

  // ---- Scripts, by their units --------------------------------------------------------------

  /** The names that the units before n declare. */
  function Given(units: seq<Unit>, n: nat): set<string>
    requires n <= |units|
  {
    set m | 0 <= m < n && units[m].binding.Yes? :: units[m].binding.value
  }

  predicate Staging(u: Unit) { u.binding.No? && !u.isIf && u.fixture.Yes? }

  /** A unit before the scorer: it declares a new name; or it mentions no declared name and
      expands nothing, and is a safe guard, an authoritative fixture under a new basename and
      before any change of directory, or a classified setup command. */
  ghost predicate UnitOk(units: seq<Unit>, n: nat)
    requires n < |units|
  {
    var u := units[n];
    && !u.fixture.Raises?
    && match u.binding
       case Raises => false
       case Yes(name) => name !in Given(units, n)
       case No =>
         && Plain(u, Given(units, n))
         && if u.isIf then u.safeGuard
            else if u.fixture.Yes? then StageOk(units, n)
            else u.setup.Yes?
  }

  ghost predicate StageOk(units: seq<Unit>, n: nat)
    requires n < |units| && units[n].fixture.Yes?
  {
    && (forall m :: 0 <= m < n && Staging(units[m]) ==> units[m].fixture.value.basename != units[n].fixture.value.basename)
    && (forall m :: 0 <= m < n && units[m].binding.No? && !Staging(units[m]) ==> !units[m].changesDirectory)
  }

  /** The scorer: it uses exactly the declared names, and has a harmless entrypoint if there is
      anything to set up. */
  ghost predicate ScorerOk(units: seq<Unit>, b: nat)
    requires b < |units|
  {
    var u, names := units[b], Given(units, b);
    && u.binding.No? && !u.isIf && u.fixture.No? && u.scorer.Yes?
    && (if Plain(u, names) then u.setup.No? && names == {} else u.resolved == Yes(names) && names != {})
    && ((exists n :: 0 <= n < b && units[n].binding.No?) || u.scorer.value.resolves ==> u.scorer.value.entrypoint.Some?)
  }

  /** The script compiles, and unit b is its scorer. */
  ghost predicate Compiles(units: seq<Unit>, b: nat) {
    && b < |units| && ScorerOk(units, b)
    && (forall n :: 0 <= n < b ==> UnitOk(units, n))
    && (forall n :: b < n < |units| ==> !units[n].dependencyIntent)
  }

  // ---- The compiler agrees ------------------------------------------------------------------

  /** Below n the units are what their roles say. */
  ghost predicate Agree(units: seq<Unit>, roles: seq<Role>, n: nat)
    requires n <= |roles| == |units|
  {
    && Declared(roles[..n]) == Given(units, n)
    && (forall m :: 0 <= m < n ==> (roles[m].Declares? <==> units[m].binding.Yes?))
    && (forall m :: 0 <= m < n ==> (roles[m].Steps() <==> units[m].binding.No?))
    && (forall m :: 0 <= m < n ==> (roles[m].Stages? <==> Staging(units[m])))
  }

  lemma AgreeOneMore(units: seq<Unit>, roles: seq<Role>, n: nat)
    requires AreRoles(units, roles) && n < |roles| && Agree(units, roles, n)
    requires roles[n].Declares? || roles[n].Runs? || roles[n].Stages?
    ensures Agree(units, roles, n + 1)
  {
    RoleMeans(units[n], Given(units, n));
    assert roles[..n + 1] == roles[..n] + [roles[n]];
    DeclaredOneMore(roles[..n], roles[n]);
    GivenOneMore(units, n);
  }

  lemma DeclaredOneMore(roles: seq<Role>, r: Role)
    ensures Declared(roles + [r]) == Declared(roles) + if r.Declares? then {r.name} else {}
  {}

  lemma GivenOneMore(units: seq<Unit>, n: nat)
    requires n < |units|
    ensures Given(units, n + 1) == Given(units, n) + if units[n].binding.Yes? then {units[n].binding.value} else {}
  {}

  /** A unit plans if and only if it is acceptable. */
  lemma PlannedIffOk(units: seq<Unit>, roles: seq<Role>, n: nat)
    requires AreRoles(units, roles) && n < |roles| && Agree(units, roles, n)
    ensures Planned(roles, n) <==> UnitOk(units, n)
  {
    RoleMeans(units[n], Given(units, n));
    if roles[n].Stages? { StageAllowedIffOk(units, roles, n); }
  }

  lemma StageAllowedIffOk(units: seq<Unit>, roles: seq<Role>, n: nat)
    requires AreRoles(units, roles) && n < |roles| && Agree(units, roles, n) && roles[n].Stages?
    ensures units[n].fixture == Yes(roles[n].source) && (StageAllowed(roles, n) <==> StageOk(units, n))
  {
    RoleMeans(units[n], Given(units, n));
    forall m: nat | m < n
      ensures roles[m].Stages? ==> units[m].fixture == Yes(roles[m].source)
      ensures roles[m].Runs? ==> roles[m].step.changesDirectory == units[m].changesDirectory
    {
      RoleMeans(units[m], Declared(roles[..m]));
    }
  }

  lemma {:induction false} AgreeUpTo(units: seq<Unit>, roles: seq<Role>, n: nat)
    requires AreRoles(units, roles) && n <= |roles|
    requires (forall m: nat :: m < n ==> Planned(roles, m)) || (forall m :: 0 <= m < n ==> UnitOk(units, m))
    ensures Agree(units, roles, n) && forall m: nat :: m < n ==> Planned(roles, m) && UnitOk(units, m)
  {
    if n > 0 {
      AgreeUpTo(units, roles, n - 1);
      PlannedIffOk(units, roles, n - 1);
      AgreeOneMore(units, roles, n - 1);
    }
  }

  lemma ScoresIffOk(units: seq<Unit>, roles: seq<Role>, b: nat)
    requires AreRoles(units, roles) && b < |roles| && Agree(units, roles, b)
    ensures ScorerOk(units, b) <==>
      && roles[b].Scores? && roles[b].used == Declared(roles[..b])
      && (NeedsEntrypoint(roles, b) ==> roles[b].scorer.entrypoint.Some?)
  {
    RoleMeans(units[b], Given(units, b));
    SomeStep(units, roles, b);
  }

  lemma SomeStep(units: seq<Unit>, roles: seq<Role>, b: nat)
    requires b < |roles| == |units| && Agree(units, roles, b)
    ensures Origins(roles, b) != [] <==> exists n :: 0 <= n < b && units[n].binding.No?
  {
    var o := Origins(roles, b);
    if o != [] { assert roles[o[0]].Steps(); }
    if n :| 0 <= n < b && units[n].binding.No? { OriginsComplete(roles, b, n); }
  }

  /** The compiler's boundary is the scorer of a script that compiles. */
  lemma BoundaryIffCompiles(units: seq<Unit>, roles: seq<Role>, b: nat)
    requires AreRoles(units, roles)
    ensures Boundary(units, roles, b) <==> Compiles(units, b)
  {
    if b < |roles| && ((forall m: nat :: m < b ==> Planned(roles, m)) || (forall m :: 0 <= m < b ==> UnitOk(units, m))) {
      AgreeUpTo(units, roles, b);
      ScoresIffOk(units, roles, b);
    }
  }

  // ---- What the plan holds --------------------------------------------------------------------

  /** The step of unit n, as the k-th step. */
  function StepOf(receipt: Fixture -> string, u: Unit, n: nat, k: nat): Step
    requires u.isIf || u.fixture.Yes? || u.setup.Yes?
  {
    if u.isIf then Step(EnvironmentGuard, u.text, false, u.changesDirectory)
    else if u.fixture.Yes? then Step(FixtureStage, receipt(Fixture(n, k, u.fixture.value)), false, false)
    else Step(u.setup.value.kind, u.text, u.setup.value.buildOnly, u.changesDirectory)
  }

  lemma RoleStep(receipt: Fixture -> string, units: seq<Unit>, roles: seq<Role>, n: nat, k: nat)
    requires AreRoles(units, roles) && n < |roles| && roles[n].Steps()
    ensures var u := units[n]; (u.isIf || u.fixture.Yes? || u.setup.Yes?) && StepFrom(receipt, roles, n, k) == StepOf(receipt, u, n, k)
  {
    RoleMeans(units[n], Declared(roles[..n]));
  }

  /** The k-th step is that of the k-th unit that becomes one. */
  ghost predicate StepAt(receipt: Fixture -> string, units: seq<Unit>, o: seq<nat>, plan: Plan, k: nat) {
    && k < |o| && o[k] < |units| && (units[o[k]].isIf || units[o[k]].fixture.Yes? || units[o[k]].setup.Yes?)
    && k < |plan.steps| && plan.steps[k] == StepOf(receipt, units[o[k]], o[k], k)
  }

  lemma PlanStep(receipt: Fixture -> string, units: seq<Unit>, roles: seq<Role>, b: nat, plan: Plan, k: nat)
    requires AreRoles(units, roles) && b < |roles| && roles[b].Scores? && IsPlanOf(receipt, roles, b, plan) && k < |Origins(roles, b)|
    ensures StepAt(receipt, units, Origins(roles, b), plan, k)
  {
    var o := Origins(roles, b);
    RoleStep(receipt, units, roles, o[k], k);
    if NeedsEntrypoint(roles, b) { assert plan.steps[..|plan.steps| - 1][k] == plan.steps[k]; }
  }

  lemma PlanEnd(receipt: Fixture -> string, units: seq<Unit>, roles: seq<Role>, b: nat, plan: Plan)
    requires AreRoles(units, roles) && b < |roles| && roles[b].Scores? && IsPlanOf(receipt, roles, b, plan)
    ensures units[b].scorer.Yes? && plan.scoring == units[b].text && plan.family == units[b].scorer.value.family
    ensures var o, scorer := Origins(roles, b), units[b].scorer.value;
      if o == [] && !scorer.resolves then plan.steps == []
      else
        && scorer.entrypoint.Some? && |plan.steps| == |o| + 1
        && plan.steps[|o|] == Step(if scorer.resolves then ResolverEntrypoint else MinimalEntrypoint, scorer.entrypoint.value, false, false)
  {
    RoleMeans(units[b], Declared(roles[..b]));
  }

  /** The plan of a compiled script: one step for each unit that declares nothing, in script
      order, with that unit's text, and after them the scorer's entrypoint if there are any or
      the scorer resolves dependencies; the scorer itself is only named. */
  lemma PlanOfScript(receipt: Fixture -> string, units: seq<Unit>, roles: seq<Role>, b: nat, plan: Plan)
    requires AreRoles(units, roles) && Boundary(units, roles, b) && IsPlanOf(receipt, roles, b, plan)
    ensures Compiles(units, b) && plan.scoring == units[b].text && plan.family == units[b].scorer.value.family
    ensures var o, scorer := Origins(roles, b), units[b].scorer.value;
      && (forall n :: 0 <= n < b ==> (n in o <==> units[n].binding.No?))
      && (forall k :: 0 <= k < |o| ==> StepAt(receipt, units, o, plan, k))
      && if o == [] && !scorer.resolves then plan.steps == []
         else
           && scorer.entrypoint.Some? && |plan.steps| == |o| + 1
           && plan.steps[|o|] == Step(if scorer.resolves then ResolverEntrypoint else MinimalEntrypoint, scorer.entrypoint.value, false, false)
  {
    BoundaryIffCompiles(units, roles, b);
    AgreeUpTo(units, roles, b);
    PlanEnd(receipt, units, roles, b, plan);
    var o := Origins(roles, b);
    forall n | 0 <= n < b ensures n in o <==> units[n].binding.No? {
      if units[n].binding.No? { OriginsComplete(roles, b, n); }
    }
    forall k | 0 <= k < |o| ensures StepAt(receipt, units, o, plan, k) { PlanStep(receipt, units, roles, b, plan, k); }
  }

  /** Some unit is the compiler's boundary if and only if the script compiles. */
  lemma SomeBoundaryIff(units: seq<Unit>, roles: seq<Role>)
    requires AreRoles(units, roles)
    ensures (exists b: nat :: Boundary(units, roles, b)) <==> exists b: nat :: Compiles(units, b)
  {
    if b: nat :| Boundary(units, roles, b) { BoundaryIffCompiles(units, roles, b); }
    if b: nat :| Compiles(units, b) { BoundaryIffCompiles(units, roles, b); }
  }

  /** The compiler succeeds exactly on the scripts that compile. */
  method BuildScript(receipt: Fixture -> string, units: seq<Unit>, ghost roles: seq<Role>) returns (r: Result<Plan>)
    requires AreRoles(units, roles)
    ensures r.Ok? <==> exists b: nat :: Compiles(units, b)
  {
    SomeBoundaryIff(units, roles);
    r := BuildPlan(receipt, units, roles);
  }
}
