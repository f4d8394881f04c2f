/** The receipt's producer: `_probe_verifier_container` and
    `_render_dependency_setup_batch` in scripts/harness/verifier_readiness.py.  The
    container is an environment that answers each command; an answer that makes the
    prober raise is None. */
module SetupProbe {
  import opened SetupPlan
  import opened SetupReceipt

  /** What inspecting one environment source found; `candidate` and `quoted` are its path
      expression and its canonical path as shell words. */
  datatype SourceFound = SourceFound(candidate: string, path: string, quoted: string, device: int, inode: int, bytes: int,
                                     delta: string)
  /** What staging one fixture found; `destination` is its destination as a shell word. */
  datatype FixtureFound = FixtureFound(destination: string, content: Hash, bytes: int)

  datatype Container = Container(
    readable: Option<string>,                         // the verifier script, if it is readable
    workdir: bool,                                    // `pwd -P` answers an acceptable directory
    render: (nat, nat, seq<string>) -> string,        // the batch script of steps start..end after its first line
    completes: (nat, nat, seq<string>) -> bool,       // it exits 0 having completed every step
    status: nat -> int,                               // what `$?` holds after step i under `set +e`
    source: nat -> Option<SourceFound>,
    fixture: nat -> Option<FixtureFound>)

  // ---- The commands the prober sends -----------------------------------------------------

  function ReadCommand(path: string): string { "test -r " + path }

  function BatchCommand(c: Container, start: nat, end: nat, delta: seq<string>): string {
    "set -e" + c.render(start, end, delta)
  }

  function ResolveCommand(candidate: string): string {
    "test ! -L " + candidate + " && readlink -f -- " + candidate
  }

  function StatCommand(quoted: string): string { "LC_ALL=C stat -Lc '%d:%i:%s:%f' -- " + quoted }

  function DigestCommand(quoted: string): string { "sha256sum -- " + quoted }

  function AbsentCommand(quoted: string): string { "test ! -e " + quoted + " && test ! -L " + quoted }

  function StagedCommand(quoted: string): string {
    "test -f " + quoted + " && test ! -L " + quoted + " && " + StatCommand(quoted)
  }

  /** The text starts like a command of the prober: its first word is `test`, `set`, `pwd`,
      `sha256sum`, or `stat` after an assignment.  No scorer adapter accepts such a text,
      for each wants its runner there. */
  predicate ProberText(text: string) {
    "test " <= text || "set -e" <= text || "pwd -P" <= text || "LC_ALL=C stat " <= text || "sha256sum " <= text
  }

  lemma ProberWords(word: string)
    ensures ProberText(WORKDIR_COMMAND) && ProberText(ReadCommand(word)) && ProberText(ResolveCommand(word))
    ensures ProberText(StatCommand(word)) && ProberText(DigestCommand(word))
    ensures ProberText(AbsentCommand(word)) && ProberText(StagedCommand(word))
  {
    assert "test " <= "test -r " <= ReadCommand(word);
    assert "test " <= "test ! -L " <= ResolveCommand(word);
    assert "LC_ALL=C stat " <= "LC_ALL=C stat -Lc '%d:%i:%s:%f' -- " <= StatCommand(word);
    assert "sha256sum " <= "sha256sum -- " <= DigestCommand(word);
    assert "test " <= "test ! -e " <= AbsentCommand(word);
    assert "test " <= "test -f " <= StagedCommand(word);
  }

  lemma ProberScript(c: Container, start: nat, end: nat, delta: seq<string>)
    ensures ProberText(BatchCommand(c, start, end, delta))
  {
    assert "set -e" <= BatchCommand(c, start, end, delta);
  }

  /** A shell's exit statuses are bytes. */
  ghost predicate Sane(c: Container) {
    forall n: nat :: 0 <= c.status(n) <= 255
  }

  predicate NonStrict(s: Step) {
    s.kind.BuildSetup? || s.kind.FilesystemSetup? || (s.kind.CompoundSetup? && s.buildOnly)
  }

  /** The exit variable's value when step n starts.  Every batch is a new shell, and
      creating a virtualenv leaves the variable alone. */
  function Inherited(p: Plan, c: Container, n: nat): Option<int>
    requires n <= |p.steps|
    decreases n, 0
  {
    if n == 0 || Special(p.steps[n - 1].kind) then None
    else Reported(p, c, n - 1)
  }

  /** The exit status the batch script prints after step n, None when it prints nothing. */
  function Reported(p: Plan, c: Container, n: nat): Option<int>
    requires n < |p.steps|
    decreases n, 1
  {
    if p.steps[n].kind.VenvCreate? then Inherited(p, c, n)
    else if NonStrict(p.steps[n]) then Some(c.status(n))
    else Some(0)
  }

  predicate Reports(p: Plan, c: Container, start: nat, end: nat)
    requires start <= end <= |p.steps|
  {
    forall n :: start <= n < end ==> Reported(p, c, n).Some?
  }

  function Codes(p: Plan, c: Container, start: nat, end: nat): (r: seq<int>)
    requires start <= end <= |p.steps| && Reports(p, c, start, end)
    ensures |r| == end - start && forall k :: 0 <= k < |r| ==> Some(r[k]) == Reported(p, c, start + k)
  {
    seq(end - start, k requires 0 <= k < end - start => Reported(p, c, start + k).value)
  }

  /** The batch script's effect on its exit variable, step by step. */
  method RunBatch(p: Plan, c: Container, start: nat, end: nat) returns (codes: Option<seq<int>>)
    requires start < end <= |p.steps|
    requires start == 0 || Special(p.steps[start - 1].kind)
    requires forall n :: start <= n < end ==> !Special(p.steps[n].kind)
    ensures codes.Some? <==> Reports(p, c, start, end)
    ensures codes.Some? ==> codes.value == Codes(p, c, start, end)
  {
    var printed: seq<int> := [];
    var variable: Option<int> := None;
    var missing := false;
    for index := start to end
      invariant variable == Inherited(p, c, index)
      invariant missing <==> !Reports(p, c, start, index)
      invariant !missing ==> printed == Codes(p, c, start, index)
    {
      if !p.steps[index].kind.VenvCreate? {
        variable := if NonStrict(p.steps[index]) then Some(c.status(index)) else Some(0);
      }
      if variable.None? { missing := true; } else { printed := printed + [variable.value]; }
    }
    codes := if missing then None else Some(printed);
  }

  // ---- The prober's walk ---------------------------------------------------------------

  function PlanKinds(p: Plan): (ks: seq<Kind>)
    ensures |ks| == |p.steps| && forall k :: 0 <= k < |ks| ==> ks[k] == p.steps[k].kind
  {
    seq(|p.steps|, k requires 0 <= k < |p.steps| => p.steps[k].kind)
  }

  /** The fixture bound to step i in a dictionary built from the list. */
  function FixtureFor(fixtures: seq<Fixture>, i: nat): (f: Option<Fixture>)
    ensures f.Some? ==> f.value in fixtures && f.value.stepIndex == i
    ensures f.None? ==> forall g <- fixtures :: g.stepIndex != i
  {
    if fixtures == [] then None
    else
      var n := |fixtures| - 1;
      assert fixtures == fixtures[..n] + [fixtures[n]];
      if fixtures[n].stepIndex == i then Some(fixtures[n]) else FixtureFor(fixtures[..n], i)
  }

  predicate SourceFoundOk(s: SourceFound) {
    CanonicalPath(s.path) && s.device >= 0 && s.inode > 0 && 0 <= s.bytes <= MAX_SOURCE_BYTES
  }

  function SourceReceipt(d: Digests, i: nat, s: SourceFound): SourceBinding {
    SourceBinding(i, s.path, s.device, s.inode, s.bytes,
                  d.text(ResolveCommand(s.candidate)), d.text(StatCommand(s.quoted)), d.text(DigestCommand(s.quoted)))
  }

  function SourcePath(f: Fixture): string { "/tests/" + f.source.relative }

  function FixtureReceipt(d: Digests, f: Fixture, found: FixtureFound): FixtureBinding {
    FixtureBinding(f.sequence, f.stepIndex, d.text(SourcePath(f)), found.content, found.bytes,
                   d.text(AbsentCommand(found.destination)), d.text(StagedCommand(found.destination)),
                   d.text(DigestCommand(found.destination)))
  }

  predicate FixtureFoundOk(f: Fixture, found: FixtureFound) {
    found.content == f.source.digest && found.bytes >= 0
  }

  /** What the walk collects from some step on. */
  datatype Trace = Trace(batches: seq<Batch>, sources: seq<SourceBinding>, fixtures: seq<FixtureBinding>, ops: seq<Op>)

  function Join(a: Trace, b: Option<Trace>): Option<Trace> {
    match b
    case None => None
    case Some(t) => Some(Trace(a.batches + t.batches, a.sources + t.sources, a.fixtures + t.fixtures, a.ops + t.ops))
  }

  function BatchTrace(d: Digests, p: Plan, c: Container, i: nat, end: nat, delta: seq<string>): Option<Trace>
    requires i < end <= |p.steps|
  {
    if !c.completes(i, end, delta) || !Reports(p, c, i, end) then None
    else
      var command := d.text(BatchCommand(c, i, end, delta));
      Some(Trace([Batch(i, end, command, Codes(p, c, i, end))], [], [], [Op(DependencySetup, Some(command))]))
  }

  function SourceTrace(d: Digests, i: nat, s: SourceFound): Trace {
    Trace([], [SourceReceipt(d, i, s)], [], SourceOps(SourceReceipt(d, i, s)))
  }

  function FixtureTrace(d: Digests, f: Fixture, found: FixtureFound, seen: bool): Trace {
    Trace([], [], [FixtureReceipt(d, f, found)], FixtureOps(FixtureReceipt(d, f, found), seen, d.text(WORKDIR_COMMAND)))
  }

  /** One segment of the walk: what it collects and the walk's state after it. */
  datatype Segment = Segment(front: Trace, next: nat, seen: bool, delta: seq<string>)

  /** A maximal run of ordinary steps is one batch; a source or fixture is inspected
      outside any batch. */
  function First(d: Digests, p: Plan, c: Container, i: nat, seen: bool, delta: seq<string>): (r: Option<Segment>)
    requires i < |p.steps|
    ensures r.Some? ==> i < r.value.next <= |p.steps|
  {
    if p.steps[i].kind.FixtureStage? then
      var f := FixtureFor(p.fixtures, i);
      if f.None? || !c.workdir || c.fixture(i).None? || !FixtureFoundOk(f.value, c.fixture(i).value) then None
      else Some(Segment(FixtureTrace(d, f.value, c.fixture(i).value, seen), i + 1, true, delta))
    else if p.steps[i].kind.EnvironmentSource? then
      var s := c.source(i);
      if s.None? || !SourceFoundOk(s.value) then None
      else Some(Segment(SourceTrace(d, i, s.value), i + 1, seen, delta + [s.value.delta]))
    else
      var end := NextSpecial(PlanKinds(p), i + 1);
      var batch := BatchTrace(d, p, c, i, end, delta);
      if batch.None? then None else Some(Segment(batch.value, end, seen, delta))
  }

  /** The walk from step i on. */
  function Produce(d: Digests, p: Plan, c: Container, i: nat, seen: bool, delta: seq<string>): Option<Trace>
    requires i <= |p.steps|
    decreases |p.steps| - i
  {
    if i == |p.steps| then Some(Trace([], [], [], []))
    else
      match First(d, p, c, i, seen, delta)
      case None => None
      case Some(s) => Join(s.front, Produce(d, p, c, s.next, s.seen, s.delta))
  }

  /** A stateful step before the last source cannot be replayed around it. */
  predicate StateBeforeSource(p: Plan) {
    exists i, j :: 0 <= i < j < |p.steps| && p.steps[i].kind.Environment? && p.steps[j].kind.EnvironmentSource?
  }

  // ---- The receipt ---------------------------------------------------------------------

  function PlanFixture(d: Digests, f: Fixture): FixturePlan {
    FixturePlan(f.sequence, f.stepIndex, d.text(SourcePath(f)), f.source.digest)
  }

  function PlanFixtures(d: Digests, fixtures: seq<Fixture>): (r: seq<FixturePlan>)
    ensures |r| == |fixtures| && forall k :: 0 <= k < |r| ==> r[k] == PlanFixture(d, fixtures[k])
  {
    seq(|fixtures|, k requires 0 <= k < |fixtures| => PlanFixture(d, fixtures[k]))
  }

  function PlanSteps(d: Digests, steps: seq<Step>): (r: seq<StepReceipt>)
    ensures |r| == |steps| && forall k :: 0 <= k < |r| ==> r[k] == StepReceipt(steps[k].kind, d.text(steps[k].command))
  {
    seq(|steps|, k requires 0 <= k < |steps| => StepReceipt(steps[k].kind, d.text(steps[k].command)))
  }

  /** `DependencySetupPlan.receipt_plan`. */
  function ReceiptPlan(d: Digests, p: Plan, c: Container): PlanReceipt {
    var rendered :=
      if p.steps != [] && forall s <- p.steps :: !Special(s.kind) then Some(d.text(BatchCommand(c, 0, |p.steps|, []))) else None;
    PlanReceipt(p.family, rendered, d.text(p.scoring), PlanFixtures(d, p.fixtures), PlanSteps(d, p.steps))
  }

  function Executions(steps: seq<StepReceipt>): (e: seq<Execution>)
    ensures |e| == |steps| && forall k :: 0 <= k < |e| ==> e[k] == Execution(k, steps[k].kind, steps[k].command, 0)
  {
    seq(|steps|, k requires 0 <= k < |steps| => Execution(k, steps[k].kind, steps[k].command, 0))
  }

  function BuildReceipt(d: Digests, p: Plan, c: Container, read: string, t: Trace): Receipt {
    var plan := ReceiptPlan(d, p, c);
    var invocations := Invoked([Op(ReadabilityProbe, Some(d.text(ReadCommand(read))))] + t.ops);
    Receipt(if p.steps != [] || p.fixtures != [] then Executed else NoSetup, plan, d.plan(plan), invocations,
            t.batches, d.batches(t.batches), t.sources, d.sources(t.sources), t.fixtures, d.fixtures(t.fixtures),
            Executions(plan.steps), exists v <- invocations :: v.kind.Scoring? || v.command == plan.scoring)
  }

  /** The receipt of a probe that does not raise. */
  function Probed(d: Digests, p: Plan, c: Container): Option<Receipt> {
    if c.readable.None? || StateBeforeSource(p) then None
    else
      match Produce(d, p, c, 0, false, [])
      case None => None
      case Some(t) => Some(BuildReceipt(d, p, c, c.readable.value, t))
  }

  function Append(a: Trace, b: Trace): Trace {
    Trace(a.batches + b.batches, a.sources + b.sources, a.fixtures + b.fixtures, a.ops + b.ops)
  }

  lemma JoinTwice(a: Trace, b: Trace, rest: Option<Trace>)
    ensures Join(a, Join(b, rest)) == Join(Append(a, b), rest)
  {
    if rest.Some? {
      var t := rest.value;
      assert a.batches + (b.batches + t.batches) == a.batches + b.batches + t.batches;
      assert a.sources + (b.sources + t.sources) == a.sources + b.sources + t.sources;
      assert a.fixtures + (b.fixtures + t.fixtures) == a.fixtures + b.fixtures + t.fixtures;
      assert a.ops + (b.ops + t.ops) == a.ops + b.ops + t.ops;
    }
  }

  lemma JoinNothing(rest: Option<Trace>)
    ensures Join(Trace([], [], [], []), rest) == rest
  {
    if rest.Some? {
      var t := rest.value;
      assert [] + t.batches == t.batches && [] + t.sources == t.sources && [] + t.fixtures == t.fixtures && [] + t.ops == t.ops;
    }
  }

  method ExecuteBatch(d: Digests, p: Plan, c: Container, start: nat, end: nat, delta: seq<string>) returns (t: Option<Trace>)
    requires start < end <= |p.steps| && (start == 0 || Special(p.steps[start - 1].kind))
    requires forall n :: start <= n < end ==> !Special(p.steps[n].kind)
    ensures t == BatchTrace(d, p, c, start, end, delta)
  {
    var command := d.text(BatchCommand(c, start, end, delta));
    if !c.completes(start, end, delta) { return None; }
    var codes := RunBatch(p, c, start, end);
    if codes.None? { return None; }
    t := Some(Trace([Batch(start, end, command, codes.value)], [], [], [Op(DependencySetup, Some(command))]));
  }

  method InspectSpecial(d: Digests, p: Plan, c: Container, index: nat, seen: bool, delta: seq<string>) returns (s: Option<Segment>)
    requires index < |p.steps| && Special(p.steps[index].kind)
    ensures s == First(d, p, c, index, seen, delta)
    ensures s.Some? ==> s.value.next == index + 1
  {
    if p.steps[index].kind.FixtureStage? {
      var f := FixtureFor(p.fixtures, index);
      if f.None? || !c.workdir || c.fixture(index).None? || !FixtureFoundOk(f.value, c.fixture(index).value) { return None; }
      s := Some(Segment(FixtureTrace(d, f.value, c.fixture(index).value, seen), index + 1, true, delta));
    } else {
      var found := c.source(index);
      if found.None? || !SourceFoundOk(found.value) { return None; }
      s := Some(Segment(SourceTrace(d, index, found.value), index + 1, seen, delta + [found.value.delta]));
    }
  }

  /** The whole walk is what `t` holds followed by the walk from `start` on. */
  predicate Resumes(whole: Option<Trace>, d: Digests, p: Plan, c: Container, t: Trace, start: nat, seen: bool, delta: seq<string>)
    requires start <= |p.steps|
  {
    whole == Join(t, Produce(d, p, c, start, seen, delta))
  }

  lemma ResumesAfterBatch(whole: Option<Trace>, d: Digests, p: Plan, c: Container, t: Trace, start: nat, end: nat, seen: bool, delta: seq<string>)
    requires start < end <= |p.steps| && (end < |p.steps| ==> Special(p.steps[end].kind))
    requires forall n :: start <= n < end ==> !Special(p.steps[n].kind)
    requires Resumes(whole, d, p, c, t, start, seen, delta)
    ensures var batch := BatchTrace(d, p, c, start, end, delta);
      if batch.None? then whole.None? else Resumes(whole, d, p, c, Append(t, batch.value), end, seen, delta)
  {
    assert NextSpecial(PlanKinds(p), start + 1) == end;
    var batch := BatchTrace(d, p, c, start, end, delta);
    if batch.Some? { JoinTwice(t, batch.value, Produce(d, p, c, end, seen, delta)); }
  }

  lemma ResumesAfterSpecial(whole: Option<Trace>, d: Digests, p: Plan, c: Container, t: Trace, i: nat, seen: bool, delta: seq<string>)
    requires i < |p.steps| && Resumes(whole, d, p, c, t, i, seen, delta)
    ensures var s := First(d, p, c, i, seen, delta);
      if s.None? then whole.None?
      else Resumes(whole, d, p, c, Append(t, s.value.front), s.value.next, s.value.seen, s.value.delta)
  {
    var s := First(d, p, c, i, seen, delta);
    if s.Some? { JoinTwice(t, s.value.front, Produce(d, p, c, s.value.next, s.value.seen, s.value.delta)); }
  }

  lemma ResumesAtEnd(whole: Option<Trace>, d: Digests, p: Plan, c: Container, t: Trace, seen: bool, delta: seq<string>)
    requires Resumes(whole, d, p, c, t, |p.steps|, seen, delta)
    ensures whole == Some(t)
  {
    assert Append(t, Trace([], [], [], [])) == t;
  }

  /** Run the pending batch, if there is one. */
  method Flush(ghost whole: Option<Trace>, d: Digests, p: Plan, c: Container, t: Trace, start: nat, end: nat, seen: bool, delta: seq<string>) returns (r: Option<Trace>)
    requires start <= end <= |p.steps| && (end < |p.steps| ==> Special(p.steps[end].kind))
    requires forall n :: start <= n < end ==> !Special(p.steps[n].kind)
    requires start == 0 || Special(p.steps[start - 1].kind)
    requires Resumes(whole, d, p, c, t, start, seen, delta)
    ensures if r.None? then whole.None? else Resumes(whole, d, p, c, r.value, end, seen, delta)
  {
    if start == end { return Some(t); }
    ResumesAfterBatch(whole, d, p, c, t, start, end, seen, delta);
    var batch := ExecuteBatch(d, p, c, start, end, delta);
    r := if batch.Some? then Some(Append(t, batch.value)) else None;
  }

  /** The walk's variables: what is collected, where the pending batch starts, and the state
      of the setup shell. */
  datatype Walking = Walking(t: Trace, start: nat, seen: bool, delta: seq<string>)

  /** Before step `index` the pending batch starts where the last source or fixture ended. */
  predicate WalkingOk(whole: Option<Trace>, d: Digests, p: Plan, c: Container, w: Walking, index: nat) {
    && w.start <= index <= |p.steps|
    && (w.start == 0 || Special(p.steps[w.start - 1].kind))
    && (forall n :: w.start <= n < index ==> !Special(p.steps[n].kind))
    && Resumes(whole, d, p, c, w.t, w.start, w.seen, w.delta)
  }

  /** At a source or fixture: flush, then inspect it. */
  method TakeSpecial(ghost whole: Option<Trace>, d: Digests, p: Plan, c: Container, w: Walking, index: nat)
    returns (r: Option<Walking>)
    requires index < |p.steps| && Special(p.steps[index].kind) && WalkingOk(whole, d, p, c, w, index)
    ensures r.None? ==> whole.None?
    ensures r.Some? ==> WalkingOk(whole, d, p, c, r.value, index + 1)
  {
    var flushed := Flush(whole, d, p, c, w.t, w.start, index, w.seen, w.delta);
    if flushed.None? { return None; }
    ResumesAfterSpecial(whole, d, p, c, flushed.value, index, w.seen, w.delta);
    var s := InspectSpecial(d, p, c, index, w.seen, w.delta);
    if s.None? { return None; }
    r := Some(Walking(Append(flushed.value, s.value.front), index + 1, s.value.seen, s.value.delta));
  }

  /** The last batch. */
  method FinishWalk(ghost whole: Option<Trace>, d: Digests, p: Plan, c: Container, w: Walking) returns (r: Option<Trace>)
    requires WalkingOk(whole, d, p, c, w, |p.steps|)
    ensures r == whole
  {
    r := Flush(whole, d, p, c, w.t, w.start, |p.steps|, w.seen, w.delta);
    if r.Some? { ResumesAtEnd(whole, d, p, c, r.value, w.seen, w.delta); }
  }

  /** The steps one after the other, flushing the pending batch at every source and fixture
      and once more at the end. */
  method WalkSteps(ghost whole: Option<Trace>, d: Digests, p: Plan, c: Container, first: Walking) returns (r: Option<Trace>)
    requires WalkingOk(whole, d, p, c, first, 0)
    ensures r == whole
  {
    var w := first;
    for index := 0 to |p.steps|
      invariant WalkingOk(whole, d, p, c, w, index)
    {
      if Special(p.steps[index].kind) {
        var next := TakeSpecial(whole, d, p, c, w, index);
        if next.None? { return None; }
        w := next.value;
      }
    }
    r := FinishWalk(whole, d, p, c, w);
  }

  /** One pass over the steps. */
  method Walk(d: Digests, p: Plan, c: Container) returns (r: Option<Trace>)
    ensures r == Produce(d, p, c, 0, false, [])
  {
    ghost var whole := Produce(d, p, c, 0, false, []);
    JoinNothing(whole);
    r := WalkSteps(whole, d, p, c, Walking(Trace([], [], [], []), 0, false, []));
  }

  /** `_probe_verifier_container`. */
  method Probe(d: Digests, p: Plan, c: Container) returns (r: Option<Receipt>)
    ensures r == Probed(d, p, c)
  {
    if c.readable.None? || StateBeforeSource(p) { return None; }
    var t := Walk(d, p, c);
    if t.None? { return None; }
    r := Some(BuildReceipt(d, p, c, c.readable.value, t.value));
  }

  // ---- Every receipt the prober builds meets the validator ------------------------------

  lemma FirstOps(d: Digests, p: Plan, c: Container, i: nat, seen: bool, delta: seq<string>, rest: Trace)
    requires i < |p.steps| && First(d, p, c, i, seen, delta).Some?
    ensures var s := First(d, p, c, i, seen, delta).value;
      var pwd := d.text(WORKDIR_COMMAND);
      var t := Append(s.front, rest);
      Expected(PlanKinds(p), i, t.batches, t.sources, t.fixtures, seen, pwd)
        == Prepend(s.front.ops, Expected(PlanKinds(p), s.next, rest.batches, rest.sources, rest.fixtures, s.seen, pwd))
  {
    var s := First(d, p, c, i, seen, delta).value;
    var t := Append(s.front, rest);
    if p.steps[i].kind.FixtureStage? {
      assert t.fixtures[1..] == rest.fixtures && t.batches == rest.batches && t.sources == rest.sources;
    } else if p.steps[i].kind.EnvironmentSource? {
      assert t.sources[1..] == rest.sources && t.batches == rest.batches && t.fixtures == rest.fixtures;
    } else {
      assert t.batches[1..] == rest.batches && t.sources == rest.sources && t.fixtures == rest.fixtures;
    }
  }

  /** The expected operations of the produced bindings are the operations performed. */
  lemma {:induction false} ProducedOps(d: Digests, p: Plan, c: Container, i: nat, seen: bool, delta: seq<string>)
    requires i <= |p.steps| && Produce(d, p, c, i, seen, delta).Some?
    ensures var t := Produce(d, p, c, i, seen, delta).value;
      Expected(PlanKinds(p), i, t.batches, t.sources, t.fixtures, seen, d.text(WORKDIR_COMMAND)) == Some(t.ops)
    decreases |p.steps| - i
  {
    if i < |p.steps| {
      var s := First(d, p, c, i, seen, delta).value;
      ProducedOps(d, p, c, s.next, s.seen, s.delta);
      FirstOps(d, p, c, i, seen, delta, Produce(d, p, c, s.next, s.seen, s.delta).value);
    }
  }

  predicate SourcesOk(indexes: seq<int>, ss: seq<SourceBinding>) {
    |ss| == |indexes| && forall k :: 0 <= k < |ss| ==> SourceOk(indexes[k], ss[k])
  }

  lemma SourceInFront(indexes: seq<int>, rest: seq<SourceBinding>, i: nat, s: SourceBinding)
    requires SourcesOk(indexes, rest) && SourceOk(i, s)
    ensures SourcesOk([i] + indexes, [s] + rest)
  {}

  lemma FirstSources(d: Digests, p: Plan, c: Container, i: nat, seen: bool, delta: seq<string>, rest: seq<SourceBinding>)
    requires i < |p.steps| && First(d, p, c, i, seen, delta).Some?
    requires SourcesOk(IndexesFrom(PlanKinds(p), EnvironmentSource, First(d, p, c, i, seen, delta).value.next), rest)
    ensures SourcesOk(IndexesFrom(PlanKinds(p), EnvironmentSource, i), First(d, p, c, i, seen, delta).value.front.sources + rest)
  {
    var s := First(d, p, c, i, seen, delta).value;
    if p.steps[i].kind.EnvironmentSource? {
      SourceInFront(IndexesFrom(PlanKinds(p), EnvironmentSource, i + 1), rest, i, s.front.sources[0]);
    } else {
      IndexesSkip(PlanKinds(p), EnvironmentSource, i, s.next);
      assert [] + rest == rest;
    }
  }

  lemma {:induction false} ProducedSources(d: Digests, p: Plan, c: Container, i: nat, seen: bool, delta: seq<string>)
    requires i <= |p.steps| && Produce(d, p, c, i, seen, delta).Some?
    ensures SourcesOk(IndexesFrom(PlanKinds(p), EnvironmentSource, i), Produce(d, p, c, i, seen, delta).value.sources)
    decreases |p.steps| - i
  {
    if i < |p.steps| {
      var s := First(d, p, c, i, seen, delta).value;
      ProducedSources(d, p, c, s.next, s.seen, s.delta);
      FirstSources(d, p, c, i, seen, delta, Produce(d, p, c, s.next, s.seen, s.delta).value.sources);
    }
  }

  /** The plan's fixtures from the j-th on are those of the steps from i on. */
  predicate SplitAt(fixtures: seq<Fixture>, i: nat, j: nat) {
    && j <= |fixtures|
    && (forall k :: 0 <= k < j ==> fixtures[k].stepIndex < i)
    && (forall k :: j <= k < |fixtures| ==> fixtures[k].stepIndex >= i)
  }

  lemma FixtureForUnique(fixtures: seq<Fixture>, i: nat, j: nat)
    requires Increasing(fixtures) && j < |fixtures| && fixtures[j].stepIndex == i
    ensures FixtureFor(fixtures, i) == Some(fixtures[j])
  {
    assert fixtures[j] in fixtures;
    var f := FixtureFor(fixtures, i).value;
    var m :| 0 <= m < |fixtures| && fixtures[m] == f;
    assert m == j;
  }

  /** In a well-planned plan the next fixture belongs to the next staging step. */
  lemma NextFixture(p: Plan, i: nat, j: nat)
    requires WellPlanned(p) && i < |p.steps| && SplitAt(p.fixtures, i, j)
    ensures p.steps[i].kind.FixtureStage? ==> j < |p.fixtures| && p.fixtures[j].stepIndex == i && SplitAt(p.fixtures, i + 1, j + 1)
    ensures !p.steps[i].kind.FixtureStage? ==> SplitAt(p.fixtures, i + 1, j)
  {
    if p.steps[i].kind.FixtureStage? {
      var k :| 0 <= k < |p.fixtures| && p.fixtures[k].stepIndex == i;
      assert j <= k;
      assert p.fixtures[j].stepIndex <= i;
    } else {
      NotYet(p, i, j);
    }
  }

  lemma NotYet(p: Plan, i: nat, j: nat)
    requires WellPlanned(p) && i < |p.steps| && SplitAt(p.fixtures, i, j) && !p.steps[i].kind.FixtureStage?
    ensures SplitAt(p.fixtures, i + 1, j)
  {
    forall k | j <= k < |p.fixtures| ensures p.fixtures[k].stepIndex >= i + 1 {
      assert p.fixtures[k] in p.fixtures;
    }
  }

  lemma StepAhead(p: Plan, i: nat, j: nat)
    requires WellPlanned(p) && SplitAt(p.fixtures, i, j) && j < |p.fixtures|
    ensures i < |p.steps|
  {
    assert p.fixtures[j] in p.fixtures;
  }

  lemma AllFixturesPassed(p: Plan, j: nat)
    requires WellPlanned(p) && SplitAt(p.fixtures, |p.steps|, j)
    ensures j == |p.fixtures|
  {
    if j < |p.fixtures| { StepAhead(p, |p.steps|, j); }
  }

  lemma {:induction false} SkipFixtures(p: Plan, i: nat, end: nat, j: nat)
    requires WellPlanned(p) && i <= end <= |p.steps| && SplitAt(p.fixtures, i, j)
    requires forall n :: i <= n < end ==> !p.steps[n].kind.FixtureStage?
    ensures SplitAt(p.fixtures, end, j)
    decreases end - i
  {
    if i < end {
      NextFixture(p, i, j);
      SkipFixtures(p, i + 1, end, j);
    }
  }

  function FixturePositions(fixtures: seq<Fixture>): (r: seq<int>)
    ensures |r| == |fixtures| && forall k :: 0 <= k < |r| ==> r[k] == fixtures[k].stepIndex
  {
    seq(|fixtures|, k requires 0 <= k < |fixtures| => fixtures[k].stepIndex)
  }

  predicate FixturesOk(plans: seq<FixturePlan>, fs: seq<FixtureBinding>) {
    |fs| == |plans| && forall k :: 0 <= k < |fs| ==> FixtureOk(plans[k], fs[k])
  }

  lemma FirstFixtures(d: Digests, p: Plan, c: Container, i: nat, j: nat, seen: bool, delta: seq<string>) returns (next: nat)
    requires WellPlanned(p) && i < |p.steps| && SplitAt(p.fixtures, i, j) && First(d, p, c, i, seen, delta).Some?
    ensures var s := First(d, p, c, i, seen, delta).value;
      && j <= next <= |p.fixtures| && SplitAt(p.fixtures, s.next, next)
      && FixturesOk(PlanFixtures(d, p.fixtures[j..next]), s.front.fixtures)
  {
    NextFixture(p, i, j);
    if p.steps[i].kind.FixtureStage? {
      next := j + 1;
      FirstFixture(d, p, c, i, j, seen, delta);
    } else {
      next := j;
      SkipFixtures(p, i, First(d, p, c, i, seen, delta).value.next, j);
    }
  }

  lemma FirstFixture(d: Digests, p: Plan, c: Container, i: nat, j: nat, seen: bool, delta: seq<string>)
    requires Increasing(p.fixtures) && i < |p.steps| && p.steps[i].kind.FixtureStage? && First(d, p, c, i, seen, delta).Some?
    requires j < |p.fixtures| && p.fixtures[j].stepIndex == i
    ensures var s := First(d, p, c, i, seen, delta).value;
      s.next == i + 1 && FixturesOk(PlanFixtures(d, p.fixtures[j..j + 1]), s.front.fixtures)
  {
    FixtureForUnique(p.fixtures, i, j);
    assert FixtureOk(PlanFixture(d, p.fixtures[j]), FixtureReceipt(d, p.fixtures[j], c.fixture(i).value));
  }

  lemma FixturesAppend(d: Digests, fixtures: seq<Fixture>, j: nat, m: nat, front: seq<FixtureBinding>, rest: seq<FixtureBinding>)
    requires j <= m <= |fixtures|
    requires FixturesOk(PlanFixtures(d, fixtures[j..m]), front) && FixturesOk(PlanFixtures(d, fixtures[m..]), rest)
    ensures FixturesOk(PlanFixtures(d, fixtures[j..]), front + rest)
  {
    forall k | 0 <= k < |front + rest| ensures FixtureOk(PlanFixtures(d, fixtures[j..])[k], (front + rest)[k]) {
      if k < |front| {
        assert fixtures[j..][k] == fixtures[j..m][k];
      } else {
        assert fixtures[j..][k] == fixtures[m..][k - |front|];
      }
    }
  }

  lemma {:induction false} ProducedFixtures(d: Digests, p: Plan, c: Container, i: nat, j: nat, seen: bool, delta: seq<string>)
    requires WellPlanned(p) && i <= |p.steps| && SplitAt(p.fixtures, i, j) && Produce(d, p, c, i, seen, delta).Some?
    ensures FixturesOk(PlanFixtures(d, p.fixtures[j..]), Produce(d, p, c, i, seen, delta).value.fixtures)
    decreases |p.steps| - i
  {
    if i == |p.steps| {
      AllFixturesPassed(p, j);
    } else {
      var s := First(d, p, c, i, seen, delta).value;
      var m := FirstFixtures(d, p, c, i, j, seen, delta);
      ProducedFixtures(d, p, c, s.next, m, s.seen, s.delta);
      FixturesAppend(d, p.fixtures, j, m, s.front.fixtures, Produce(d, p, c, s.next, s.seen, s.delta).value.fixtures);
    }
  }

  /** No virtualenv created from step i on is reported with a predecessor's failure. */
  predicate VenvsClean(p: Plan, c: Container, i: nat, end: nat)
    requires end <= |p.steps|
  {
    forall n: nat :: i <= n < end ==> VenvClean(p, c, n)
  }

  predicate VenvClean(p: Plan, c: Container, n: nat)
    requires n < |p.steps|
  {
    p.steps[n].kind.VenvCreate? ==> Inherited(p, c, n) == Some(0)
  }

  lemma {:induction false} ReportedIsByte(p: Plan, c: Container, n: nat)
    requires Sane(c) && n < |p.steps|
    ensures Reported(p, c, n).Some? ==> 0 <= Reported(p, c, n).value <= 255
  {
    if p.steps[n].kind.VenvCreate? && n > 0 && !Special(p.steps[n - 1].kind) { ReportedIsByte(p, c, n - 1); }
  }

  lemma OneBatch(d: Digests, p: Plan, c: Container, i: nat, end: nat, command: Hash)
    requires Sane(c) && i < end <= |p.steps| && Reports(p, c, i, end)
    ensures BatchOk(PlanSteps(d, p.steps), Batch(i, end, command, Codes(p, c, i, end))) <==> VenvsClean(p, c, i, end)
  {
    var steps, codes := PlanSteps(d, p.steps), Codes(p, c, i, end);
    forall k | 0 <= k < |codes| ensures 0 <= codes[k] <= 255 { ReportedIsByte(p, c, i + k); }
    forall k | 0 <= k < |codes| ensures codes[k] == 0 || Lenient(steps[i + k].kind) <==> VenvClean(p, c, i + k) {
      assert Some(codes[k]) == Reported(p, c, i + k);
    }
    if !VenvsClean(p, c, i, end) {
      var n: nat :| i <= n < end && !VenvClean(p, c, n);
      assert codes[n - i] != 0 && !Lenient(steps[i + (n - i)].kind);
    }
  }

  lemma FirstBatches(d: Digests, p: Plan, c: Container, i: nat, seen: bool, delta: seq<string>)
    requires Sane(c) && i < |p.steps| && First(d, p, c, i, seen, delta).Some?
    ensures var s := First(d, p, c, i, seen, delta).value;
      (forall b <- s.front.batches :: BatchOk(PlanSteps(d, p.steps), b)) <==> VenvsClean(p, c, i, s.next)
  {
    var s := First(d, p, c, i, seen, delta).value;
    if !Special(p.steps[i].kind) {
      OneBatch(d, p, c, i, s.next, s.front.batches[0].command);
    }
  }

  lemma {:induction false} ProducedBatches(d: Digests, p: Plan, c: Container, i: nat, seen: bool, delta: seq<string>)
    requires Sane(c) && i <= |p.steps| && Produce(d, p, c, i, seen, delta).Some?
    ensures (forall b <- Produce(d, p, c, i, seen, delta).value.batches :: BatchOk(PlanSteps(d, p.steps), b))
       <==> VenvsClean(p, c, i, |p.steps|)
    decreases |p.steps| - i
  {
    if i < |p.steps| {
      var s := First(d, p, c, i, seen, delta).value;
      FirstBatches(d, p, c, i, seen, delta);
      ProducedBatches(d, p, c, s.next, s.seen, s.delta);
      VenvsSplit(p, c, i, s.next);
    }
  }

  lemma VenvsSplit(p: Plan, c: Container, i: nat, m: nat)
    requires i <= m <= |p.steps|
    ensures VenvsClean(p, c, i, |p.steps|) <==> VenvsClean(p, c, i, m) && VenvsClean(p, c, m, |p.steps|)
  {}

  /** What the compiler's scorer adapters guarantee beyond `WellPlanned`. */
  predicate AdaptedScorer(p: Plan) {
    && KnownFamily(p.family) && !ProberText(p.scoring)
    && (p.steps != [] && p.steps[|p.steps| - 1].kind.MinimalEntrypoint? && StaticEntrypoint(p.family).Some? ==>
          p.steps[|p.steps| - 1].command == StaticEntrypoint(p.family).value)
  }

  lemma ProbedPlanOk(d: Digests, p: Plan, c: Container, read: string, t: Trace)
    requires WellPlanned(p) && AdaptedScorer(p)
    ensures PlanOk(d, BuildReceipt(d, p, c, read, t))
  {
    ProbedIndexes(d, p);
    ProbedFixtures(d, p);
    ProbedMode(d, p);
  }

  lemma ProbedIndexes(d: Digests, p: Plan)
    requires WellPlanned(p)
    ensures StepIndexes(PlanFixtures(d, p.fixtures)) == IndexesFrom(Kinds(PlanSteps(d, p.steps)), FixtureStage, 0)
  {
    assert Kinds(PlanSteps(d, p.steps)) == PlanKinds(p);
    var positions, indexes := FixturePositions(p.fixtures), IndexesFrom(PlanKinds(p), FixtureStage, 0);
    PositionsAreStages(p);
    forall n: int ensures n in positions <==> n in indexes {
      if n in positions { IndexesComplete(PlanKinds(p), FixtureStage, 0, n); }
    }
    IncreasingIsUnique(positions, indexes);
    assert StepIndexes(PlanFixtures(d, p.fixtures)) == positions;
  }

  lemma PositionsAreStages(p: Plan)
    requires WellPlanned(p)
    ensures var kinds, positions := PlanKinds(p), FixturePositions(p.fixtures);
      && StrictlyIncreasing(positions)
      && (forall k :: 0 <= k < |positions| ==> 0 <= positions[k] < |kinds| && kinds[positions[k]] == FixtureStage)
      && (forall n :: 0 <= n < |kinds| && kinds[n] == FixtureStage ==> n in positions)
  {
    var kinds, positions := PlanKinds(p), FixturePositions(p.fixtures);
    forall k | 0 <= k < |positions| ensures 0 <= positions[k] < |kinds| && kinds[positions[k]] == FixtureStage {
      assert p.fixtures[k] in p.fixtures;
    }
    forall n | 0 <= n < |kinds| && kinds[n] == FixtureStage ensures n in positions {
      var j :| 0 <= j < |p.fixtures| && p.fixtures[j].stepIndex == n;
      assert positions[j] == n;
    }
  }

  lemma ProbedFixtures(d: Digests, p: Plan)
    requires WellPlanned(p)
    ensures var steps, fixtures := PlanSteps(d, p.steps), PlanFixtures(d, p.fixtures);
      && (forall f <- fixtures :: f.sequence >= 0 && 0 <= f.stepIndex < |steps| && steps[f.stepIndex].kind.FixtureStage?)
      && (forall j, k :: 0 <= j < k < |fixtures| ==> fixtures[j].stepIndex != fixtures[k].stepIndex)
  {
    var fixtures := PlanFixtures(d, p.fixtures);
    forall f | f in fixtures
      ensures f.sequence >= 0 && 0 <= f.stepIndex < |p.steps| && p.steps[f.stepIndex].kind.FixtureStage?
    {
      var k :| 0 <= k < |fixtures| && fixtures[k] == f;
      assert p.fixtures[k] in p.fixtures;
    }
  }

  lemma ProbedMode(d: Digests, p: Plan)
    requires WellPlanned(p)
    ensures p.steps == [] ==> p.fixtures == []
    ensures (exists s <- PlanSteps(d, p.steps) :: Special(s.kind)) <==> exists s <- p.steps :: Special(s.kind)
  {
    if p.fixtures != [] { assert p.fixtures[0] in p.fixtures; }
    var steps := PlanSteps(d, p.steps);
    if s :| s in steps && Special(s.kind) {
      var k :| 0 <= k < |steps| && steps[k] == s;
      assert p.steps[k] in p.steps;
    }
    if s :| s in p.steps && Special(s.kind) {
      var k :| 0 <= k < |p.steps| && p.steps[k] == s;
      assert steps[k] in steps;
    }
  }

  lemma ProbedBindingsOk(d: Digests, p: Plan, c: Container, read: string)
    requires WellPlanned(p) && Sane(c) && Produce(d, p, c, 0, false, []).Some?
    ensures BindingsOk(d, BuildReceipt(d, p, c, read, Produce(d, p, c, 0, false, []).value)) <==> VenvsClean(p, c, 0, |p.steps|)
  {
    assert Kinds(PlanSteps(d, p.steps)) == PlanKinds(p);
    ProducedSources(d, p, c, 0, false, []);
    ProducedFixtures(d, p, c, 0, 0, false, []);
    assert p.fixtures[0..] == p.fixtures;
    ProducedBatches(d, p, c, 0, false, []);
  }

  lemma ProbedRendered(d: Digests, p: Plan, c: Container)
    requires Produce(d, p, c, 0, false, []).Some? && p.steps != [] && forall s <- p.steps :: !Special(s.kind)
    ensures var bs := Produce(d, p, c, 0, false, []).value.batches; bs != [] && bs[0].command == d.text(BatchCommand(c, 0, |p.steps|, []))
  {
    var end := NextSpecial(PlanKinds(p), 1);
    forall k | 0 <= k < |p.steps| ensures !Special(p.steps[k].kind) { assert p.steps[k] in p.steps; }
    assert end == |p.steps|;
  }

  lemma ProbedRunOk(d: Digests, p: Plan, c: Container, read: string)
    requires WellPlanned(p) && Produce(d, p, c, 0, false, []).Some?
    ensures var r := BuildReceipt(d, p, c, read, Produce(d, p, c, 0, false, []).value);
      RunOk(d, r) <==> !ScoringObserved(r)
  {
    var t := Produce(d, p, c, 0, false, []).value;
    var r := BuildReceipt(d, p, c, read, t);
    assert Kinds(r.plan.steps) == PlanKinds(p);
    ProducedOps(d, p, c, 0, false, []);
    ExpectedCommands(PlanKinds(p), 0, t.batches, t.sources, t.fixtures, false, d.text(WORKDIR_COMMAND));
    InvokedMatches(d.text(ReadCommand(read)), t.ops);
    ProbedMode(d, p);
    if p.steps != [] && forall s <- p.steps :: !Special(s.kind) { ProbedRendered(d, p, c); }
  }

  // ---- The scorer is never sent --------------------------------------------------------

  /** Different texts have different digests. */
  ghost predicate Collisionless(d: Digests) {
    forall a: string, b: string :: d.text(a) == d.text(b) ==> a == b
  }

  lemma Apart(d: Digests, text: string, scoring: string)
    requires Collisionless(d) && ProberText(text) && !ProberText(scoring)
    ensures d.text(text) != d.text(scoring)
  {}

  lemma SourceUnscored(d: Digests, i: nat, s: SourceFound, scoring: string)
    requires Collisionless(d) && !ProberText(scoring)
    ensures Unscored(SourceTrace(d, i, s).ops, d.text(scoring))
  {
    ProberWords(s.candidate);
    ProberWords(s.quoted);
    Apart(d, ResolveCommand(s.candidate), scoring);
    Apart(d, StatCommand(s.quoted), scoring);
    Apart(d, DigestCommand(s.quoted), scoring);
  }

  lemma FixtureUnscored(d: Digests, f: Fixture, found: FixtureFound, seen: bool, scoring: string)
    requires Collisionless(d) && !ProberText(scoring)
    ensures Unscored(FixtureTrace(d, f, found, seen).ops, d.text(scoring))
  {
    ProberWords(found.destination);
    Apart(d, WORKDIR_COMMAND, scoring);
    Apart(d, AbsentCommand(found.destination), scoring);
    Apart(d, StagedCommand(found.destination), scoring);
    Apart(d, DigestCommand(found.destination), scoring);
  }

  lemma FirstUnscored(d: Digests, p: Plan, c: Container, i: nat, seen: bool, delta: seq<string>, scoring: string)
    requires Collisionless(d) && !ProberText(scoring) && i < |p.steps| && First(d, p, c, i, seen, delta).Some?
    ensures Unscored(First(d, p, c, i, seen, delta).value.front.ops, d.text(scoring))
  {
    if p.steps[i].kind.FixtureStage? {
      FixtureUnscored(d, FixtureFor(p.fixtures, i).value, c.fixture(i).value, seen, scoring);
    } else if p.steps[i].kind.EnvironmentSource? {
      SourceUnscored(d, i, c.source(i).value, scoring);
    } else {
      var end := NextSpecial(PlanKinds(p), i + 1);
      ProberScript(c, i, end, delta);
      Apart(d, BatchCommand(c, i, end, delta), scoring);
    }
  }

  lemma {:induction false} ProducedUnscored(d: Digests, p: Plan, c: Container, i: nat, seen: bool, delta: seq<string>, scoring: string)
    requires Collisionless(d) && !ProberText(scoring) && i <= |p.steps| && Produce(d, p, c, i, seen, delta).Some?
    ensures Unscored(Produce(d, p, c, i, seen, delta).value.ops, d.text(scoring))
    decreases |p.steps| - i
  {
    if i < |p.steps| {
      var s := First(d, p, c, i, seen, delta).value;
      FirstUnscored(d, p, c, i, seen, delta, scoring);
      ProducedUnscored(d, p, c, s.next, s.seen, s.delta, scoring);
    }
  }

  /** No command the prober sends is the scorer, and its receipt says so. */
  lemma ScorerIsNeverSent(d: Digests, p: Plan, c: Container)
    requires Collisionless(d) && !ProberText(p.scoring) && Probed(d, p, c).Some?
    ensures !ScoringObserved(Probed(d, p, c).value) && !Probed(d, p, c).value.scoringInvoked
  {
    var t, read := Produce(d, p, c, 0, false, []).value, Op(ReadabilityProbe, Some(d.text(ReadCommand(c.readable.value))));
    ProducedUnscored(d, p, c, 0, false, [], p.scoring);
    ProberWords(c.readable.value);
    Apart(d, ReadCommand(c.readable.value), p.scoring);
    InvokedUnscored([read] + t.ops, d.text(p.scoring));
  }

  /** The validator accepts a receipt of the prober exactly when no virtualenv inherited a
      failed predecessor's status. */
  lemma ProbedReceiptAccepted(d: Digests, p: Plan, c: Container)
    requires Collisionless(d) && WellPlanned(p) && AdaptedScorer(p) && Sane(c) && Probed(d, p, c).Some?
    ensures Accepts(d, Probed(d, p, c).value) <==> VenvsClean(p, c, 0, |p.steps|)
  {
    var read := c.readable.value;
    ProbedPlanOk(d, p, c, read, Produce(d, p, c, 0, false, []).value);
    ProbedBindingsOk(d, p, c, read);
    ProbedRunOk(d, p, c, read);
    ScorerIsNeverSent(d, p, c);
  }

  // ---- When there is a receipt ---------------------------------------------------------

  /** The container answers for step n, should it be a source or a fixture. */
  predicate AnswersAt(p: Plan, c: Container, n: nat)
    requires n < |p.steps|
  {
    && (p.steps[n].kind.EnvironmentSource? ==> c.source(n).Some? && SourceFoundOk(c.source(n).value))
    && (p.steps[n].kind.FixtureStage? ==>
          && FixtureFor(p.fixtures, n).Some? && c.fixture(n).Some?
          && FixtureFoundOk(FixtureFor(p.fixtures, n).value, c.fixture(n).value))
  }

  /** The container completes every batch and answers every other command. */
  ghost predicate Answers(p: Plan, c: Container) {
    && c.readable.Some? && c.workdir
    && (forall start, end, delta :: c.completes(start, end, delta))
    && (forall n: nat :: n < |p.steps| ==> AnswersAt(p, c, n))
  }

  predicate LeadsBatch(p: Plan, n: nat)
    requires n < |p.steps|
  {
    n == 0 || Special(p.steps[n - 1].kind)
  }

  predicate NoLeadingVenv(p: Plan) {
    forall n: nat :: n < |p.steps| && p.steps[n].kind.VenvCreate? ==> !LeadsBatch(p, n)
  }

  lemma {:induction false} ReportedSome(p: Plan, c: Container, n: nat)
    requires NoLeadingVenv(p) && n < |p.steps|
    ensures Reported(p, c, n).Some?
  {
    if p.steps[n].kind.VenvCreate? { ReportedSome(p, c, n - 1); }
  }

  lemma {:induction false} Produces(d: Digests, p: Plan, c: Container, i: nat, seen: bool, delta: seq<string>)
    requires Answers(p, c) && NoLeadingVenv(p) && i <= |p.steps|
    ensures Produce(d, p, c, i, seen, delta).Some?
    decreases |p.steps| - i
  {
    if i < |p.steps| {
      assert AnswersAt(p, c, i);
      if !Special(p.steps[i].kind) {
        forall n | i <= n < NextSpecial(PlanKinds(p), i + 1) ensures Reported(p, c, n).Some? { ReportedSome(p, c, n); }
      }
      var s := First(d, p, c, i, seen, delta).value;
      Produces(d, p, c, s.next, s.seen, s.delta);
    }
  }

  /** From a container that answers, a receipt appears exactly when no stateful step comes
      before a source and no virtualenv is created first in its batch. */
  lemma ReceiptAppearsIff(d: Digests, p: Plan, c: Container)
    requires Answers(p, c)
    ensures Probed(d, p, c).Some? <==> !StateBeforeSource(p) && NoLeadingVenv(p)
  {
    if NoLeadingVenv(p) {
      Produces(d, p, c, 0, false, []);
    } else {
      var n: nat :| n < |p.steps| && p.steps[n].kind.VenvCreate? && LeadsBatch(p, n);
      LeadingVenvFails(d, p, c, n);
    }
  }

  /** And it is an accepted one exactly when each virtualenv besides follows a success. */
  lemma AcceptedReceiptAppearsIff(d: Digests, p: Plan, c: Container)
    requires Collisionless(d) && WellPlanned(p) && AdaptedScorer(p) && Sane(c) && Answers(p, c)
    ensures Probed(d, p, c).Some? && Accepts(d, Probed(d, p, c).value)
       <==> !StateBeforeSource(p) && VenvsClean(p, c, 0, |p.steps|)
  {
    ReceiptAppearsIff(d, p, c);
    if Probed(d, p, c).Some? { ProbedReceiptAccepted(d, p, c); }
    if VenvsClean(p, c, 0, |p.steps|) {
      forall n: nat | n < |p.steps| && p.steps[n].kind.VenvCreate? ensures !LeadsBatch(p, n) { assert VenvClean(p, c, n); }
    }
  }

  /** A scorer adapter knows its family, its static entrypoint is the family's own, and it
      accepts no text that starts like a command of the prober. */
  predicate Adapted(scorer: Scorer, text: string) {
    && KnownFamily(scorer.family) && !ProberText(text)
    && (!scorer.resolves && StaticEntrypoint(scorer.family).Some? && scorer.entrypoint.Some? ==>
          scorer.entrypoint == StaticEntrypoint(scorer.family))
  }

  /** From script to verdict: the receipt of probing a compiled plan is accepted exactly when
      no virtualenv inherited a failure; and from a container that answers, an accepted
      receipt appears exactly when besides no stateful step comes before a source. */
  lemma CompiledReceiptAccepted(receipt: Fixture -> string, units: seq<Unit>, roles: seq<Role>, b: nat, d: Digests, p: Plan, c: Container)
    requires Classified(units) && AreRoles(units, roles) && Boundary(units, roles, b) && Adapted(roles[b].scorer, roles[b].text)
    requires IsPlanOf(receipt, roles, b, p) && Collisionless(d) && Sane(c)
    ensures Probed(d, p, c).Some? ==> (Accepts(d, Probed(d, p, c).value) <==> VenvsClean(p, c, 0, |p.steps|))
    ensures Answers(p, c) ==>
      (Probed(d, p, c).Some? && Accepts(d, Probed(d, p, c).value) <==> !StateBeforeSource(p) && VenvsClean(p, c, 0, |p.steps|))
  {
    CompiledPlanIsWellPlanned(receipt, units, roles, b, p);
    CompiledScorer(receipt, units, roles, b, p);
    if Probed(d, p, c).Some? { ProbedReceiptAccepted(d, p, c); }
    if Answers(p, c) { AcceptedReceiptAppearsIff(d, p, c); }
  }

  lemma CompiledScorer(receipt: Fixture -> string, units: seq<Unit>, roles: seq<Role>, b: nat, p: Plan)
    requires |roles| == |units| && Boundary(units, roles, b) && Adapted(roles[b].scorer, roles[b].text) && IsPlanOf(receipt, roles, b, p)
    ensures AdaptedScorer(p)
  {}

  /** A virtualenv created first in its batch reports no status: the probe ends without a
      receipt. */
  lemma LeadingVenvFails(d: Digests, p: Plan, c: Container, n: nat)
    requires n < |p.steps| && p.steps[n].kind.VenvCreate? && LeadsBatch(p, n)
    ensures Probed(d, p, c).None?
  {
    UnreportedFails(d, p, c, 0, n, false, []);
  }

  lemma {:induction false} UnreportedFails(d: Digests, p: Plan, c: Container, i: nat, n: nat, seen: bool, delta: seq<string>)
    requires i <= n < |p.steps| && !Special(p.steps[n].kind) && Reported(p, c, n).None?
    ensures Produce(d, p, c, i, seen, delta).None?
    decreases n - i
  {
    var s := First(d, p, c, i, seen, delta);
    if s.Some? {
      if s.value.next <= n {
        UnreportedFails(d, p, c, s.value.next, n, s.value.seen, s.value.delta);
      }
    }
  }

  /** A build that fails just before a virtualenv is created. */
  function FailingBuild(): Plan {
    Plan("pytest", [Step(BuildSetup, "make", true, false), Step(VenvCreate, "uv venv v", false, false),
                    Step(MinimalEntrypoint, "pytest --version", false, false)], "pytest", [])
  }

  function FailingContainer(): Container {
    Container(Some("/tests/test.sh"), true, (s, e, delta) => "", (s, e, delta) => true, n => 2, n => None, n => None)
  }

  lemma FailingBuildProbed(d: Digests, p: Plan, c: Container)
    requires p == FailingBuild() && c == FailingContainer()
    ensures Produce(d, p, c, 0, false, []).Some?
    ensures Inherited(p, c, 1) == Some(2)
  {
    assert Reported(p, c, 0) == Some(2) && Reported(p, c, 1) == Some(2) && Reported(p, c, 2) == Some(0);
    assert NextSpecial(PlanKinds(p), 1) == 3;
    assert Reports(p, c, 0, 3);
    assert BatchTrace(d, p, c, 0, 3, []).Some?;
  }

  /** The probe of a plan with a failing build ends with a receipt, and the validator
      rejects it. */
  lemma InheritedFailureRejected(d: Digests)
    ensures Probed(d, FailingBuild(), FailingContainer()).Some?
    ensures !Accepts(d, Probed(d, FailingBuild(), FailingContainer()).value)
  {
    var p, c := FailingBuild(), FailingContainer();
    FailingBuildProbed(d, p, c);
    FailingBuildPlanned(p, c);
    DirtyVenvRejected(d, p, c, 1);
  }

  lemma FailingBuildPlanned(p: Plan, c: Container)
    requires p == FailingBuild() && c == FailingContainer()
    ensures WellPlanned(p) && Sane(c) && !StateBeforeSource(p) && c.readable.Some?
    ensures |p.steps| == 3 && p.steps[1].kind.VenvCreate?
  {}

  lemma DirtyVenvRejected(d: Digests, p: Plan, c: Container, n: nat)
    requires WellPlanned(p) && Sane(c) && Probed(d, p, c).Some?
    requires n < |p.steps| && p.steps[n].kind.VenvCreate? && Inherited(p, c, n) != Some(0)
    ensures !Accepts(d, Probed(d, p, c).value)
  {
    assert !VenvClean(p, c, n);
    ProbedBindingsOk(d, p, c, c.readable.value);
  }
}
