/** The dependency-setup receipt: its producer, the plan walk of
    `_probe_verifier_container` in scripts/harness/verifier_readiness.py, and its
    independent validator, `validate_verifier_readiness_record` in
    scripts/harness/preflight.py.  Digests are values of abstract hash functions. */
module SetupReceipt {
  import opened SetupPlan

  type Hash = string

  datatype StepReceipt = StepReceipt(kind: Kind, command: Hash)
  datatype FixturePlan = FixturePlan(sequence: int, stepIndex: int, sourcePath: Hash, source: Hash)
  datatype PlanReceipt = PlanReceipt(family: string, rendered: Option<Hash>, scoring: Hash,
                                     fixtures: seq<FixturePlan>, steps: seq<StepReceipt>)
  datatype Batch = Batch(start: int, end: int, command: Hash, codes: seq<int>)
  datatype SourceBinding = SourceBinding(stepIndex: int, path: string, device: int, inode: int, bytes: int,
                                         resolve: Hash, stat: Hash, digest: Hash)
  datatype FixtureBinding = FixtureBinding(sequence: int, stepIndex: int, source: Hash, content: Hash, bytes: int,
                                           probe: Hash, stat: Hash, digest: Hash)
  datatype OpKind =
    | ReadabilityProbe | FixtureWorkdirProbe | FixtureDestinationProbe | FixtureStat | FixtureDigest
    | DependencySetup | SourceResolve | SourceStatBefore | SourceDigestBefore | SourceStatAfter | SourceDigestAfter
    | Scoring
  datatype Invocation = Invocation(sequence: int, kind: OpKind, command: Hash, exitCode: int)
  datatype Execution = Execution(index: int, kind: Kind, command: Hash, exitCode: int)
  datatype Mode = NoSetup | Executed
  datatype Receipt = Receipt(
    mode: Mode, plan: PlanReceipt, planHash: Hash, invocations: seq<Invocation>,
    batches: seq<Batch>, batchesHash: Hash, sources: seq<SourceBinding>, sourcesHash: Hash,
    fixtures: seq<FixtureBinding>, fixturesHash: Hash, executions: seq<Execution>, scoringInvoked: bool)

  /** SHA-256 of a text and of the canonical JSON of a receipt part. */
  datatype Digests = Digests(text: string -> Hash, plan: PlanReceipt -> Hash, batches: seq<Batch> -> Hash,
                             sources: seq<SourceBinding> -> Hash, fixtures: seq<FixtureBinding> -> Hash)

  const MAX_SOURCE_BYTES := 64 * 1024
  const WORKDIR_COMMAND := "pwd -P"

  function StaticEntrypoint(family: string): Option<string> {
    if family == "go_test" then Some("go version")
    else if family == "cargo_test" then Some("cargo --version")
    else if family == "npm_test" then Some("npm list --depth=0")
    else if family == "pnpm_test" then Some("pnpm list --depth=0")
    else if family == "yarn_test" then Some("yarn list --depth=0")
    else None
  }

  predicate KnownFamily(family: string) { family == "pytest" || StaticEntrypoint(family).Some? }

  /** An absolute path without a `..` component. */
  predicate CanonicalPath(path: string) {
    && path != "" && path[0] == '/'
    && !exists i :: 0 < i && i + 2 <= |path| && path[i - 1] == '/' && path[i] == '.' && path[i + 1] == '.'
                    && (i + 2 == |path| || path[i + 2] == '/')
  }

  /** The kinds whose nonzero exit the validator tolerates. */
  predicate Lenient(k: Kind) { k.BuildSetup? || k.CompoundSetup? || k.FilesystemSetup? }

  // ---- Walking a plan by its kinds ---------------------------------------------------

  predicate Special(k: Kind) { k.EnvironmentSource? || k.FixtureStage? }

  function NextSpecial(kinds: seq<Kind>, j: nat): (e: nat)
    requires j <= |kinds|
    ensures j <= e <= |kinds|
    ensures forall k :: j <= k < e ==> !Special(kinds[k])
    ensures e < |kinds| ==> Special(kinds[e])
    decreases |kinds| - j
  {
    if j == |kinds| || Special(kinds[j]) then j else NextSpecial(kinds, j + 1)
  }

  function IndexesFrom(kinds: seq<Kind>, kind: Kind, i: nat): (r: seq<int>)
    requires i <= |kinds|
    ensures forall k :: 0 <= k < |r| ==> i <= r[k] < |kinds| && kinds[r[k]] == kind
    ensures forall j, k :: 0 <= j < k < |r| ==> r[j] < r[k]
    decreases |kinds| - i
  {
    if i == |kinds| then []
    else if kinds[i] == kind then [i] + IndexesFrom(kinds, kind, i + 1)
    else IndexesFrom(kinds, kind, i + 1)
  }

  lemma {:induction false} IndexesComplete(kinds: seq<Kind>, kind: Kind, i: nat, n: nat)
    requires i <= n < |kinds| && kinds[n] == kind
    ensures n in IndexesFrom(kinds, kind, i)
    decreases n - i
  {
    if i < n { IndexesComplete(kinds, kind, i + 1, n); }
  }

  lemma {:induction false} IndexesSkip(kinds: seq<Kind>, kind: Kind, i: nat, e: nat)
    requires i <= e <= |kinds| && forall k :: i <= k < e ==> kinds[k] != kind
    ensures IndexesFrom(kinds, kind, i) == IndexesFrom(kinds, kind, e)
    decreases e - i
  {
    if i < e { IndexesSkip(kinds, kind, i + 1, e); }
  }

  /** How many steps of a kind are left from step i on. */
  function Left(kinds: seq<Kind>, kind: Kind, i: nat): nat
    requires i <= |kinds|
    decreases |kinds| - i
  {
    if i == |kinds| then 0 else (if kinds[i] == kind then 1 else 0) + Left(kinds, kind, i + 1)
  }

  lemma {:induction false} LeftAreIndexes(kinds: seq<Kind>, kind: Kind, i: nat)
    requires i <= |kinds|
    ensures |IndexesFrom(kinds, kind, i)| == Left(kinds, kind, i)
    decreases |kinds| - i
  {
    if i < |kinds| { LeftAreIndexes(kinds, kind, i + 1); }
  }

  lemma {:induction false} LeftSkip(kinds: seq<Kind>, kind: Kind, i: nat, e: nat)
    requires i <= e <= |kinds| && Special(kind) && forall k :: i <= k < e ==> !Special(kinds[k])
    ensures Left(kinds, kind, i) == Left(kinds, kind, e)
    decreases e - i
  {
    if i < e { LeftSkip(kinds, kind, i + 1, e); }
  }

  /** One expected invocation; the readability probe's command is not constrained. */
  datatype Op = Op(kind: OpKind, command: Option<Hash>)

  function SourceOps(s: SourceBinding): seq<Op> {
    [Op(SourceResolve, Some(s.resolve)), Op(SourceStatBefore, Some(s.stat)), Op(SourceDigestBefore, Some(s.digest)),
     Op(SourceStatAfter, Some(s.stat)), Op(SourceDigestAfter, Some(s.digest))]
  }

  function FixtureOps(f: FixtureBinding, seen: bool, pwd: Hash): seq<Op> {
    (if seen then [] else [Op(FixtureWorkdirProbe, Some(pwd))])
      + [Op(FixtureDestinationProbe, Some(f.probe)), Op(FixtureStat, Some(f.stat)), Op(FixtureDigest, Some(f.digest))]
  }

  function Prepend<T>(front: seq<T>, rest: Option<seq<T>>): Option<seq<T>> {
    if rest.None? then None else Some(front + rest.value)
  }

  /** The operations the remaining bindings determine from step i on, or None when a
      batch is missing, misplaced or left over. */
  function Expected(kinds: seq<Kind>, i: nat, bs: seq<Batch>, ss: seq<SourceBinding>, fs: seq<FixtureBinding>,
                    seen: bool, pwd: Hash): Option<seq<Op>>
    requires i <= |kinds|
    decreases |kinds| - i
  {
    if i == |kinds| then if bs == [] then Some([]) else None
    else if kinds[i].FixtureStage? then
      if fs == [] then None
      else Prepend(FixtureOps(fs[0], seen, pwd), Expected(kinds, i + 1, bs, ss, fs[1..], true, pwd))
    else if kinds[i].EnvironmentSource? then
      if ss == [] then None
      else Prepend(SourceOps(ss[0]), Expected(kinds, i + 1, bs, ss[1..], fs, seen, pwd))
    else
      var end := NextSpecial(kinds, i + 1);
      if bs == [] || bs[0].start != i || bs[0].end != end then None
      else Prepend([Op(DependencySetup, Some(bs[0].command))], Expected(kinds, end, bs[1..], ss, fs, seen, pwd))
  }

  // ---- The validator -----------------------------------------------------------------

  function Kinds(steps: seq<StepReceipt>): (ks: seq<Kind>)
    ensures |ks| == |steps| && forall k :: 0 <= k < |steps| ==> ks[k] == steps[k].kind
  {
    seq(|steps|, k requires 0 <= k < |steps| => steps[k].kind)
  }

  function StepIndexes(fixtures: seq<FixturePlan>): (r: seq<int>)
    ensures |r| == |fixtures| && forall k :: 0 <= k < |r| ==> r[k] == fixtures[k].stepIndex
  {
    seq(|fixtures|, k requires 0 <= k < |fixtures| => fixtures[k].stepIndex)
  }

  /** Every planned fixture has a staging step of its own, and every staging step one. */
  predicate FixturesPlanned(plan: PlanReceipt) {
    var steps, fixtures := plan.steps, plan.fixtures;
    && (forall f <- fixtures :: f.sequence >= 0 && 0 <= f.stepIndex < |steps| && steps[f.stepIndex].kind.FixtureStage?)
    && (forall j, k :: 0 <= j < k < |fixtures| ==> fixtures[j].stepIndex != fixtures[k].stepIndex)
       // equal sorted lists
    && multiset(StepIndexes(fixtures)) == multiset(IndexesFrom(Kinds(steps), FixtureStage, 0))
  }

  predicate ModeOk(mode: Mode, plan: PlanReceipt) {
    match mode
    case NoSetup => plan.steps == [] && plan.fixtures == [] && plan.rendered.None?
    case Executed =>
      && (plan.steps != [] || plan.fixtures != [])
      && (plan.rendered.None? <==> exists s <- plan.steps :: Special(s.kind))
  }

  predicate EntrypointOk(d: Digests, plan: PlanReceipt) {
    plan.steps != [] ==>
      var last := plan.steps[|plan.steps| - 1];
      && Entrypoint(last.kind)
      && (last.kind.MinimalEntrypoint? && StaticEntrypoint(plan.family).Some? ==>
            last.command == d.text(StaticEntrypoint(plan.family).value))
  }

  predicate PlanOk(d: Digests, r: Receipt) {
    && KnownFamily(r.plan.family) && FixturesPlanned(r.plan) && r.planHash == d.plan(r.plan)
    && ModeOk(r.mode, r.plan) && EntrypointOk(d, r.plan)
  }

  predicate BatchOk(steps: seq<StepReceipt>, b: Batch) {
    && 0 <= b.start < b.end <= |steps|
    && |b.codes| == b.end - b.start
    && (forall c <- b.codes :: 0 <= c <= 255)
    && (forall k :: 0 <= k < |b.codes| && b.codes[k] != 0 ==> Lenient(steps[b.start + k].kind))
  }

  predicate SourceOk(index: int, s: SourceBinding) {
    && s.stepIndex == index && s.device >= 0 && s.inode > 0 && 0 <= s.bytes <= MAX_SOURCE_BYTES
    && CanonicalPath(s.path)
  }

  predicate FixtureOk(planned: FixturePlan, f: FixtureBinding) {
    && f.sequence == planned.sequence && f.stepIndex == planned.stepIndex
    && f.source == planned.sourcePath && f.content == planned.source && f.bytes >= 0
  }

  predicate BindingsOk(d: Digests, r: Receipt) {
    var steps := r.plan.steps;
    var sourceIndexes := IndexesFrom(Kinds(steps), EnvironmentSource, 0);
    && (forall b <- r.batches :: BatchOk(steps, b))
    && r.batchesHash == d.batches(r.batches)
    && |r.sources| == |sourceIndexes|
    && (forall k :: 0 <= k < |r.sources| ==> SourceOk(sourceIndexes[k], r.sources[k]))
    && r.sourcesHash == d.sources(r.sources)
    && |r.fixtures| == |r.plan.fixtures|
    && (forall k :: 0 <= k < |r.fixtures| ==> FixtureOk(r.plan.fixtures[k], r.fixtures[k]))
    && r.fixturesHash == d.fixtures(r.fixtures)
  }

  function ReceiptOps(d: Digests, r: Receipt): Option<seq<Op>> {
    Expected(Kinds(r.plan.steps), 0, r.batches, r.sources, r.fixtures, false, d.text(WORKDIR_COMMAND))
  }

  predicate ScoringObserved(r: Receipt) {
    exists v <- r.invocations :: v.kind.Scoring? || v.command == r.plan.scoring
  }

  predicate Matches(sequence: nat, v: Invocation, op: Op) {
    && v.sequence == sequence && v.kind == op.kind && v.exitCode == 0
    && (op.command.Some? ==> v.command == op.command.value)
  }

  predicate InvocationsMatch(invocations: seq<Invocation>, ops: seq<Op>) {
    && |invocations| == |ops|
    && forall k :: 0 <= k < |ops| ==> Matches(k, invocations[k], ops[k])
  }

  predicate ExecutionsOk(r: Receipt) {
    && |r.executions| == |r.plan.steps|
    && forall k :: 0 <= k < |r.executions| ==>
         r.executions[k] == Execution(k, r.plan.steps[k].kind, r.plan.steps[k].command, 0)
  }

  predicate RunOk(d: Digests, r: Receipt) {
    && ReceiptOps(d, r).Some?
    && ((forall s <- r.plan.steps :: !Special(s.kind)) && r.batches != [] ==> r.plan.rendered == Some(r.batches[0].command))
    && r.scoringInvoked == ScoringObserved(r) == false
    && InvocationsMatch(r.invocations, [Op(ReadabilityProbe, None)] + ReceiptOps(d, r).value)
    && ExecutionsOk(r)
  }

  predicate Accepts(d: Digests, r: Receipt) {
    PlanOk(d, r) && BindingsOk(d, r) && RunOk(d, r)
  }

  method BatchEnd(kinds: seq<Kind>, index: nat) returns (end: nat)
    requires index < |kinds|
    ensures index < end <= |kinds| && end == NextSpecial(kinds, index + 1)
    ensures forall k :: index < k < end ==> !Special(kinds[k])
  {
    end := index + 1;
    while end < |kinds| && !Special(kinds[end])
      invariant index < end <= |kinds| && forall k :: index < k < end ==> !Special(kinds[k])
      invariant NextSpecial(kinds, index + 1) == NextSpecial(kinds, end)
    {
      end := end + 1;
    }
  }

  /** The whole walk is `acc` followed by the walk from step i on. */
  predicate Walked(all: Option<seq<Op>>, acc: seq<Op>, kinds: seq<Kind>, i: nat, bs: seq<Batch>, ss: seq<SourceBinding>,
                   fs: seq<FixtureBinding>, seen: bool, pwd: Hash)
    requires i <= |kinds|
  {
    all == Prepend(acc, Expected(kinds, i, bs, ss, fs, seen, pwd))
  }

  lemma WalkedFixture(all: Option<seq<Op>>, acc: seq<Op>, kinds: seq<Kind>, i: nat, bs: seq<Batch>, ss: seq<SourceBinding>,
                      fs: seq<FixtureBinding>, seen: bool, pwd: Hash)
    requires i < |kinds| && kinds[i].FixtureStage? && fs != [] && Walked(all, acc, kinds, i, bs, ss, fs, seen, pwd)
    ensures Walked(all, acc + FixtureOps(fs[0], seen, pwd), kinds, i + 1, bs, ss, fs[1..], true, pwd)
  {
    PrependTwice(acc, FixtureOps(fs[0], seen, pwd), Expected(kinds, i + 1, bs, ss, fs[1..], true, pwd));
  }

  lemma WalkedSource(all: Option<seq<Op>>, acc: seq<Op>, kinds: seq<Kind>, i: nat, bs: seq<Batch>, ss: seq<SourceBinding>,
                     fs: seq<FixtureBinding>, seen: bool, pwd: Hash)
    requires i < |kinds| && kinds[i].EnvironmentSource? && ss != [] && Walked(all, acc, kinds, i, bs, ss, fs, seen, pwd)
    ensures Walked(all, acc + SourceOps(ss[0]), kinds, i + 1, bs, ss[1..], fs, seen, pwd)
  {
    PrependTwice(acc, SourceOps(ss[0]), Expected(kinds, i + 1, bs, ss[1..], fs, seen, pwd));
  }

  /** A batch is walked if it is the next one, and ends the walk without a result if not. */
  lemma WalkedBatch(all: Option<seq<Op>>, acc: seq<Op>, kinds: seq<Kind>, i: nat, bs: seq<Batch>, ss: seq<SourceBinding>,
                    fs: seq<FixtureBinding>, seen: bool, pwd: Hash)
    requires i < |kinds| && !Special(kinds[i]) && Walked(all, acc, kinds, i, bs, ss, fs, seen, pwd)
    ensures var end := NextSpecial(kinds, i + 1);
      if bs == [] || bs[0].start != i || bs[0].end != end then all == None
      else Walked(all, acc + [Op(DependencySetup, Some(bs[0].command))], kinds, end, bs[1..], ss, fs, seen, pwd)
  {
    var end := NextSpecial(kinds, i + 1);
    if bs != [] {
      PrependTwice(acc, [Op(DependencySetup, Some(bs[0].command))], Expected(kinds, end, bs[1..], ss, fs, seen, pwd));
    }
  }

  /** The validator's walk with its three cursors. */
  method ExpectedOperations(kinds: seq<Kind>, bs: seq<Batch>, ss: seq<SourceBinding>, fs: seq<FixtureBinding>, pwd: Hash)
    returns (ops: Option<seq<Op>>)
    requires |ss| == Left(kinds, EnvironmentSource, 0) && |fs| == Left(kinds, FixtureStage, 0)
    ensures ops == Expected(kinds, 0, bs, ss, fs, false, pwd)
  {
    var acc: seq<Op> := [];
    var b, s, f, seen, index := 0, 0, 0, false, 0;
    ghost var all := Expected(kinds, 0, bs, ss, fs, false, pwd);
    assert bs[0..] == bs && ss[0..] == ss && fs[0..] == fs;
    assert all == Prepend(acc, all) by { if all.Some? { assert acc + all.value == all.value; } }
    while index < |kinds|
      invariant 0 <= index <= |kinds| && 0 <= b <= |bs| && 0 <= s <= |ss| && 0 <= f <= |fs|
      invariant |ss| - s == Left(kinds, EnvironmentSource, index)
      invariant |fs| - f == Left(kinds, FixtureStage, index)
      invariant Walked(all, acc, kinds, index, bs[b..], ss[s..], fs[f..], seen, pwd)
      decreases |kinds| - index
    {
      if kinds[index].FixtureStage? {
        WalkedFixture(all, acc, kinds, index, bs[b..], ss[s..], fs[f..], seen, pwd);
        assert fs[f..][1..] == fs[f + 1..];
        acc := acc + FixtureOps(fs[f], seen, pwd);
        seen, f, index := true, f + 1, index + 1;
      } else if kinds[index].EnvironmentSource? {
        WalkedSource(all, acc, kinds, index, bs[b..], ss[s..], fs[f..], seen, pwd);
        assert ss[s..][1..] == ss[s + 1..];
        acc := acc + SourceOps(ss[s]);
        s, index := s + 1, index + 1;
      } else {
        var end := BatchEnd(kinds, index);
        WalkedBatch(all, acc, kinds, index, bs[b..], ss[s..], fs[f..], seen, pwd);
        if b >= |bs| || bs[b].start != index || bs[b].end != end { return None; }
        assert bs[b..][1..] == bs[b + 1..];
        LeftSkip(kinds, EnvironmentSource, index, end);
        LeftSkip(kinds, FixtureStage, index, end);
        acc := acc + [Op(DependencySetup, Some(bs[b].command))];
        b, index := b + 1, end;
      }
    }
    assert acc + [] == acc;
    ops := if b == |bs| then Some(acc) else None;
  }

  lemma PrependTwice<T>(a: seq<T>, b: seq<T>, rest: Option<seq<T>>)
    ensures Prepend(a, Prepend(b, rest)) == Prepend(a + b, rest)
  {
    if rest.Some? { assert a + (b + rest.value) == a + b + rest.value; }
  }

  /** `validate_verifier_readiness_record`, on the dependency-setup part. */
  method Validate(d: Digests, r: Receipt) returns (ok: bool)
    ensures ok <==> Accepts(d, r)
  {
    if !PlanOk(d, r) || !BindingsOk(d, r) { return false; }
    CursorsFit(d, r);
    ok := ValidateRun(d, r);
  }

  /** Every source and fixture step has a binding for the walk to consume. */
  lemma CursorsFit(d: Digests, r: Receipt)
    requires PlanOk(d, r) && BindingsOk(d, r)
    ensures |r.sources| == Left(Kinds(r.plan.steps), EnvironmentSource, 0)
    ensures |r.fixtures| == Left(Kinds(r.plan.steps), FixtureStage, 0)
  {
    LeftAreIndexes(Kinds(r.plan.steps), EnvironmentSource, 0);
    LeftAreIndexes(Kinds(r.plan.steps), FixtureStage, 0);
    SameLength(StepIndexes(r.plan.fixtures), IndexesFrom(Kinds(r.plan.steps), FixtureStage, 0));
  }

  /** Its last part: the walk, and every invocation against it. */
  method ValidateRun(d: Digests, r: Receipt) returns (ok: bool)
    requires |r.sources| == Left(Kinds(r.plan.steps), EnvironmentSource, 0)
    requires |r.fixtures| == Left(Kinds(r.plan.steps), FixtureStage, 0)
    ensures ok <==> RunOk(d, r)
  {
    var ops := ExpectedOperations(Kinds(r.plan.steps), r.batches, r.sources, r.fixtures, d.text(WORKDIR_COMMAND));
    if ops.None? { return false; }
    if (forall s <- r.plan.steps :: !Special(s.kind)) && r.batches != [] && r.plan.rendered != Some(r.batches[0].command) { return false; }
    if r.scoringInvoked != ScoringObserved(r) || ScoringObserved(r) { return false; }
    var expected := [Op(ReadabilityProbe, None)] + ops.value;
    if |r.invocations| != |expected| { return false; }
    for sequence := 0 to |expected|
      invariant forall k :: 0 <= k < sequence ==> Matches(k, r.invocations[k], expected[k])
    {
      if !Matches(sequence, r.invocations[sequence], expected[sequence]) { return false; }
    }
    ok := ExecutionsOk(r);
  }

  lemma SameLength(a: seq<int>, b: seq<int>)
    requires multiset(a) == multiset(b)
    ensures |a| == |b|
  {
    assert |multiset(a)| == |a| && |multiset(b)| == |b|;
  }

  // ---- What acceptance means ---------------------------------------------------------

  predicate InBatch(b: Batch, n: int) { b.start <= n < b.end }

  /** From step i on, the batches are disjoint, in order, and hold exactly the steps
      that are neither a source nor a fixture. */
  predicate BatchesPartition(kinds: seq<Kind>, i: nat, bs: seq<Batch>) {
    && (forall k :: 0 <= k < |bs| ==> i <= bs[k].start < bs[k].end <= |kinds|)
    && (forall j, k :: 0 <= j < k < |bs| ==> bs[j].end <= bs[k].start)
    && (forall n :: i <= n < |kinds| ==> (!Special(kinds[n]) <==> exists k :: 0 <= k < |bs| && InBatch(bs[k], n)))
  }

  lemma {:induction false} ExpectedBatches(kinds: seq<Kind>, i: nat, bs: seq<Batch>, ss: seq<SourceBinding>, fs: seq<FixtureBinding>, seen: bool, pwd: Hash)
    requires i <= |kinds| && Expected(kinds, i, bs, ss, fs, seen, pwd).Some?
    ensures BatchesPartition(kinds, i, bs)
    decreases |kinds| - i
  {
    if i < |kinds| {
      if kinds[i].FixtureStage? {
        ExpectedBatches(kinds, i + 1, bs, ss, fs[1..], true, pwd);
      } else if kinds[i].EnvironmentSource? {
        ExpectedBatches(kinds, i + 1, bs, ss[1..], fs, seen, pwd);
      } else {
        ExpectedBatches(kinds, bs[0].end, bs[1..], ss, fs, seen, pwd);
        BatchInFront(kinds, i, bs);
      }
    }
  }

  lemma BatchInFront(kinds: seq<Kind>, i: nat, bs: seq<Batch>)
    requires i < |kinds| && bs != [] && bs[0].start == i < bs[0].end <= |kinds|
    requires forall n :: i <= n < bs[0].end ==> !Special(kinds[n])
    requires BatchesPartition(kinds, bs[0].end, bs[1..])
    ensures BatchesPartition(kinds, i, bs)
  {
    var rest := bs[1..];
    forall k | 0 < k < |bs| ensures bs[0].end <= bs[k].start < bs[k].end <= |kinds| { assert bs[k] == rest[k - 1]; }
    forall j, k | 0 <= j < k < |bs| ensures bs[j].end <= bs[k].start {
      if j > 0 { assert bs[j] == rest[j - 1] && bs[k] == rest[k - 1]; }
    }
    forall n | i <= n < |kinds| ensures !Special(kinds[n]) <==> exists k :: 0 <= k < |bs| && InBatch(bs[k], n) {
      if n < bs[0].end {
        assert InBatch(bs[0], n);
      } else {
        if !Special(kinds[n]) {
          var k :| 0 <= k < |rest| && InBatch(rest[k], n);
          assert InBatch(bs[k + 1], n);
        }
        if k :| 0 <= k < |bs| && InBatch(bs[k], n) { assert InBatch(rest[k - 1], n); }
      }
    }
  }

  lemma SourcesAtIndexes(kinds: seq<Kind>, ss: seq<SourceBinding>)
    requires |ss| == |IndexesFrom(kinds, EnvironmentSource, 0)|
    requires forall k :: 0 <= k < |ss| ==> ss[k].stepIndex == IndexesFrom(kinds, EnvironmentSource, 0)[k]
    ensures forall n :: 0 <= n < |kinds| ==> (kinds[n].EnvironmentSource? <==> exists k :: 0 <= k < |ss| && ss[k].stepIndex == n)
    ensures forall j, k :: 0 <= j < k < |ss| ==> ss[j].stepIndex < ss[k].stepIndex
  {
    var indexes := IndexesFrom(kinds, EnvironmentSource, 0);
    forall n | 0 <= n < |kinds| && kinds[n].EnvironmentSource? ensures exists k :: 0 <= k < |ss| && ss[k].stepIndex == n {
      IndexesComplete(kinds, EnvironmentSource, 0, n);
      var k :| 0 <= k < |indexes| && indexes[k] == n;
      assert ss[k].stepIndex == n;
    }
  }

  lemma FixturesAtIndexes(kinds: seq<Kind>, plans: seq<FixturePlan>, fs: seq<FixtureBinding>)
    requires multiset(StepIndexes(plans)) == multiset(IndexesFrom(kinds, FixtureStage, 0))
    requires |fs| == |plans| && forall k :: 0 <= k < |fs| ==> fs[k].stepIndex == plans[k].stepIndex
    ensures forall n :: 0 <= n < |kinds| ==> (kinds[n].FixtureStage? <==> exists k :: 0 <= k < |fs| && fs[k].stepIndex == n)
  {
    var indexes, planned := IndexesFrom(kinds, FixtureStage, 0), StepIndexes(plans);
    forall n | 0 <= n < |kinds| && kinds[n].FixtureStage? ensures exists k :: 0 <= k < |fs| && fs[k].stepIndex == n {
      IndexesComplete(kinds, FixtureStage, 0, n);
      assert n in multiset(indexes) && n in multiset(planned);
      var k :| 0 <= k < |planned| && planned[k] == n;
      assert fs[k].stepIndex == n;
    }
    forall k | 0 <= k < |fs| ensures fs[k].stepIndex in indexes {
      assert planned[k] in multiset(planned) && planned[k] in multiset(indexes);
    }
  }

  /** An accepted receipt partitions the plan: a step is in a batch, or is bound by one
      source, or is bound by one fixture, as its kind says, and by nothing else. */
  lemma AcceptedPartitions(d: Digests, r: Receipt)
    requires Accepts(d, r)
    ensures BatchesPartition(Kinds(r.plan.steps), 0, r.batches)
    ensures forall n :: 0 <= n < |r.plan.steps| ==>
      (r.plan.steps[n].kind.EnvironmentSource? <==> exists k :: 0 <= k < |r.sources| && r.sources[k].stepIndex == n)
    ensures forall n :: 0 <= n < |r.plan.steps| ==>
      (r.plan.steps[n].kind.FixtureStage? <==> exists k :: 0 <= k < |r.fixtures| && r.fixtures[k].stepIndex == n)
    ensures forall j, k :: 0 <= j < k < |r.sources| ==> r.sources[j].stepIndex < r.sources[k].stepIndex
    ensures forall j, k :: 0 <= j < k < |r.fixtures| ==> r.fixtures[j].stepIndex != r.fixtures[k].stepIndex
  {
    ExpectedBatches(Kinds(r.plan.steps), 0, r.batches, r.sources, r.fixtures, false, d.text(WORKDIR_COMMAND));
    AcceptedSources(d, r);
    AcceptedFixtures(d, r);
  }

  lemma AcceptedSources(d: Digests, r: Receipt)
    requires BindingsOk(d, r)
    ensures forall n :: 0 <= n < |r.plan.steps| ==>
      (r.plan.steps[n].kind.EnvironmentSource? <==> exists k :: 0 <= k < |r.sources| && r.sources[k].stepIndex == n)
    ensures forall j, k :: 0 <= j < k < |r.sources| ==> r.sources[j].stepIndex < r.sources[k].stepIndex
  {
    SourcesAtIndexes(Kinds(r.plan.steps), r.sources);
  }

  lemma AcceptedFixtures(d: Digests, r: Receipt)
    requires PlanOk(d, r) && BindingsOk(d, r)
    ensures forall n :: 0 <= n < |r.plan.steps| ==>
      (r.plan.steps[n].kind.FixtureStage? <==> exists k :: 0 <= k < |r.fixtures| && r.fixtures[k].stepIndex == n)
    ensures forall j, k :: 0 <= j < k < |r.fixtures| ==> r.fixtures[j].stepIndex != r.fixtures[k].stepIndex
  {
    assert forall k :: 0 <= k < |r.fixtures| ==> FixtureOk(r.plan.fixtures[k], r.fixtures[k]);
    FixturesAtIndexes(Kinds(r.plan.steps), r.plan.fixtures, r.fixtures);
  }

  /** The plan and its bindings determine the accepted invocations, all successful and
      none of them the scorer; only the readability probe's command is free. */
  lemma AcceptedInvocationsDetermined(d: Digests, a: Receipt, b: Receipt)
    requires Accepts(d, a) && Accepts(d, b)
    requires a.plan == b.plan && a.batches == b.batches && a.sources == b.sources && a.fixtures == b.fixtures
    ensures |a.invocations| == |b.invocations| > 0
    ensures forall k :: 0 < k < |a.invocations| ==> a.invocations[k] == b.invocations[k]
    ensures forall v <- a.invocations :: v.exitCode == 0 && !v.kind.Scoring? && v.command != a.plan.scoring
  {
    var ops := [Op(ReadabilityProbe, None)] + ReceiptOps(d, a).value;
    ExpectedCommands(Kinds(a.plan.steps), 0, a.batches, a.sources, a.fixtures, false, d.text(WORKDIR_COMMAND));
    forall k | 0 < k < |a.invocations| ensures a.invocations[k] == b.invocations[k] {
      assert Matches(k, a.invocations[k], ops[k]) && Matches(k, b.invocations[k], ops[k]);
      assert ops[k] == ReceiptOps(d, a).value[k - 1];
    }
    forall k | 0 <= k < |a.invocations| ensures a.invocations[k].exitCode == 0 {
      assert Matches(k, a.invocations[k], ops[k]);
    }
  }

  lemma {:induction false} ExpectedCommands(kinds: seq<Kind>, i: nat, bs: seq<Batch>, ss: seq<SourceBinding>, fs: seq<FixtureBinding>, seen: bool, pwd: Hash)
    requires i <= |kinds|
    ensures var ops := Expected(kinds, i, bs, ss, fs, seen, pwd); ops.Some? ==> forall op <- ops.value :: op.command.Some?
    decreases |kinds| - i
  {
    if i < |kinds| {
      if kinds[i].FixtureStage? {
        if fs != [] { ExpectedCommands(kinds, i + 1, bs, ss, fs[1..], true, pwd); }
      } else if kinds[i].EnvironmentSource? {
        if ss != [] { ExpectedCommands(kinds, i + 1, bs, ss[1..], fs, seen, pwd); }
      } else if bs != [] {
        ExpectedCommands(kinds, NextSpecial(kinds, i + 1), bs[1..], ss, fs, seen, pwd);
      }
    }
  }

  // ---- The order in which fixtures are walked ----------------------------------------

  predicate StrictlyIncreasing(s: seq<int>) {
    forall j, k :: 0 <= j < k < |s| ==> s[j] < s[k]
  }

  lemma {:induction false} IncreasingIsUnique(a: seq<int>, b: seq<int>)
    requires StrictlyIncreasing(a) && StrictlyIncreasing(b) && forall x: int :: x in a <==> x in b
    ensures a == b
    decreases |a|
  {
    BothEmpty(a, b);
    if a != [] {
      var n, m := |a| - 1, |b| - 1;
      LastIsLargest(a, b);
      LastIsLargest(b, a);
      forall x: int ensures x in a[..n] <==> x in b[..m] {
        WithoutLast(a, x);
        WithoutLast(b, x);
      }
      IncreasingIsUnique(a[..n], b[..m]);
      assert a == a[..n] + [a[n]] && b == b[..m] + [b[m]];
    }
  }

  lemma BothEmpty(a: seq<int>, b: seq<int>)
    requires forall x: int :: x in a <==> x in b
    ensures a == [] <==> b == []
  {
    if a != [] {
      var x: int := a[0];
      assert x in a && x in b;
    }
    if b != [] {
      var x: int := b[0];
      assert x in b && x in a;
    }
  }

  lemma LastIsLargest(a: seq<int>, b: seq<int>)
    requires a != [] && b != [] && StrictlyIncreasing(b) && forall x: int :: x in a ==> x in b
    ensures a[|a| - 1] <= b[|b| - 1]
  {
    assert a[|a| - 1] in a;
    var k :| 0 <= k < |b| && b[k] == a[|a| - 1];
  }

  lemma WithoutLast(a: seq<int>, x: int)
    requires a != [] && StrictlyIncreasing(a)
    ensures x in a[..|a| - 1] <==> x in a && x != a[|a| - 1]
  {
    if x in a {
      var k :| 0 <= k < |a| && a[k] == x;
      if k < |a| - 1 { assert a[..|a| - 1][k] == x; }
    }
  }

  /** The validator checks the k-th fixture invocation against the k-th planned binding.
      That binding belongs to the k-th staging step exactly when the plan lists its
      fixtures in step order, which the validator does not require. */
  lemma FixtureWalkOrder(d: Digests, r: Receipt)
    requires Accepts(d, r)
    ensures |r.fixtures| == |IndexesFrom(Kinds(r.plan.steps), FixtureStage, 0)|
    ensures (forall k :: 0 <= k < |r.fixtures| ==> r.fixtures[k].stepIndex == IndexesFrom(Kinds(r.plan.steps), FixtureStage, 0)[k])
       <==> StrictlyIncreasing(StepIndexes(r.plan.fixtures))
  {
    var planned, indexes := StepIndexes(r.plan.fixtures), IndexesFrom(Kinds(r.plan.steps), FixtureStage, 0);
    SameLength(planned, indexes);
    forall k | 0 <= k < |r.fixtures| ensures r.fixtures[k].stepIndex == planned[k] {
      assert FixtureOk(r.plan.fixtures[k], r.fixtures[k]);
    }
    forall x: int ensures x in planned <==> x in indexes { assert x in multiset(planned) <==> x in multiset(indexes); }
    if StrictlyIncreasing(planned) { IncreasingIsUnique(planned, indexes); }
  }

  // ---- A receipt with its fixtures in reverse ------------------------------------------

  function Sent(op: Op): Hash {
    if op.command.Some? then op.command.value else ""
  }

  /** The invocations of a prober that performs the operations, all successful. */
  function Invoked(ops: seq<Op>): (v: seq<Invocation>)
    ensures |v| == |ops| && forall k :: 0 <= k < |v| ==> v[k] == Invocation(k, ops[k].kind, Sent(ops[k]), 0)
  {
    seq(|ops|, k requires 0 <= k < |ops| => Invocation(k, ops[k].kind, Sent(ops[k]), 0))
  }

  lemma InvokedMatches(read: Hash, ops: seq<Op>)
    requires forall op <- ops :: op.command.Some?
    ensures InvocationsMatch(Invoked([Op(ReadabilityProbe, Some(read))] + ops), [Op(ReadabilityProbe, None)] + ops)
  {
    var sent, expected := [Op(ReadabilityProbe, Some(read))] + ops, [Op(ReadabilityProbe, None)] + ops;
    forall k | 0 <= k < |expected| ensures Matches(k, Invoked(sent)[k], expected[k]) {
      if k > 0 { assert sent[k] == expected[k] == ops[k - 1] && ops[k - 1] in ops; }
    }
  }

  /** None of the operations is the scorer's, by kind or by digest. */
  predicate Unscored(ops: seq<Op>, scoring: Hash) {
    forall op <- ops :: !op.kind.Scoring? && op.command.Some? && op.command.value != scoring
  }

  lemma InvokedUnscored(ops: seq<Op>, scoring: Hash)
    requires Unscored(ops, scoring)
    ensures forall v <- Invoked(ops) :: !v.kind.Scoring? && v.command != scoring
  {
    forall v | v in Invoked(ops) ensures !v.kind.Scoring? && v.command != scoring {
      var k :| 0 <= k < |ops| && Invoked(ops)[k] == v;
      assert ops[k] in ops;
    }
  }

  /** The digests of a probe of two staging steps and an entrypoint: the readability probe,
      the steps, the batch and the scorer. */
  datatype Two = Two(read: Hash, first: Hash, second: Hash, entry: Hash, batch: Hash, scoring: Hash)

  const TWO_STAGES := [FixtureStage, FixtureStage, MinimalEntrypoint]

  function TwoSteps(h: Two): seq<StepReceipt> {
    [StepReceipt(FixtureStage, h.first), StepReceipt(FixtureStage, h.second), StepReceipt(MinimalEntrypoint, h.entry)]
  }

  function Binds(f: FixtureBinding): FixturePlan { FixturePlan(f.sequence, f.stepIndex, f.source, f.content) }

  /** What is performed for step 0, whose binding is f, then for step 1, whose binding is g,
      if the bindings are listed with g first. */
  function ReversedOps(f: FixtureBinding, g: FixtureBinding, h: Two, pwd: Hash): seq<Op> {
    FixtureOps(g, false, pwd) + (FixtureOps(f, true, pwd) + [Op(DependencySetup, Some(h.batch))])
  }

  /** The plan lists the binding of step 1 before that of step 0. */
  function ReversedFixtures(d: Digests, f: FixtureBinding, g: FixtureBinding, h: Two): Receipt {
    var plan := PlanReceipt("pytest", None, h.scoring, [Binds(g), Binds(f)], TwoSteps(h));
    var invocations := Invoked([Op(ReadabilityProbe, Some(h.read))] + ReversedOps(f, g, h, d.text(WORKDIR_COMMAND)));
    var batches := [Batch(2, 3, h.batch, [0])];
    Receipt(Executed, plan, d.plan(plan), invocations, batches, d.batches(batches), [], d.sources([]), [g, f], d.fixtures([g, f]),
            [Execution(0, FixtureStage, h.first, 0), Execution(1, FixtureStage, h.second, 0), Execution(2, MinimalEntrypoint, h.entry, 0)],
            false)
  }

  /** f binds step 0 and g step 1, and no command's digest is the scorer's. */
  predicate TwoStages(d: Digests, f: FixtureBinding, g: FixtureBinding, h: Two) {
    && f.stepIndex == 0 && g.stepIndex == 1 && f.sequence >= 0 && g.sequence >= 0 && f.bytes >= 0 && g.bytes >= 0
    && h.scoring !in {h.read, h.batch, d.text(WORKDIR_COMMAND), f.probe, f.stat, f.digest, g.probe, g.stat, g.digest}
  }

  /** For all digests the receipt is accepted, although the commands it accepts for staging
      step 0 are those of the binding of step 1, and conversely. */
  lemma ReversedFixturesAccepted(d: Digests, f: FixtureBinding, g: FixtureBinding, h: Two)
    requires TwoStages(d, f, g, h)
    ensures var r := ReversedFixtures(d, f, g, h);
      && Accepts(d, r) && !StrictlyIncreasing(StepIndexes(r.plan.fixtures))
      && Kinds(r.plan.steps) == TWO_STAGES && |r.invocations| == 9
      && (forall k :: 0 <= k < 3 ==> r.invocations[2 + k].command == [g.probe, g.stat, g.digest][k])
      && (forall k :: 0 <= k < 3 ==> r.invocations[5 + k].command == [f.probe, f.stat, f.digest][k])
  {
    ReversedPlanOk(d, f, g, h);
    ReversedBindingsOk(d, f, g, h);
    ReversedRunOk(d, f, g, h);
    ReversedCommands(d, f, g, h);
    ReversedKinds(h);
  }

  lemma ReversedCommands(d: Digests, f: FixtureBinding, g: FixtureBinding, h: Two)
    requires TwoStages(d, f, g, h)
    ensures var r := ReversedFixtures(d, f, g, h);
      && !StrictlyIncreasing(StepIndexes(r.plan.fixtures)) && |r.invocations| == 9
      && (forall k :: 0 <= k < 3 ==> r.invocations[2 + k].command == [g.probe, g.stat, g.digest][k])
      && (forall k :: 0 <= k < 3 ==> r.invocations[5 + k].command == [f.probe, f.stat, f.digest][k])
  {
    var r := ReversedFixtures(d, f, g, h);
    assert StepIndexes(r.plan.fixtures)[0] > StepIndexes(r.plan.fixtures)[1];
  }

  lemma ReversedBindingsOk(d: Digests, f: FixtureBinding, g: FixtureBinding, h: Two)
    requires TwoStages(d, f, g, h)
    ensures BindingsOk(d, ReversedFixtures(d, f, g, h))
  {
    var r := ReversedFixtures(d, f, g, h);
    ReversedKinds(h);
    ReversedIndexes();
    forall b | b in r.batches ensures BatchOk(r.plan.steps, b) {}
    forall k | 0 <= k < |r.fixtures| ensures FixtureOk(r.plan.fixtures[k], r.fixtures[k]) {}
  }

  lemma ReversedPlanOk(d: Digests, f: FixtureBinding, g: FixtureBinding, h: Two)
    requires TwoStages(d, f, g, h)
    ensures PlanOk(d, ReversedFixtures(d, f, g, h))
  {
    var r := ReversedFixtures(d, f, g, h);
    ReversedPlanned(d, f, g, h, r.plan);
    assert Special(r.plan.steps[0].kind) && r.plan.steps[0] in r.plan.steps;
  }

  lemma ReversedPlanned(d: Digests, f: FixtureBinding, g: FixtureBinding, h: Two, plan: PlanReceipt)
    requires TwoStages(d, f, g, h) && plan.fixtures == [Binds(g), Binds(f)] && plan.steps == TwoSteps(h)
    ensures FixturesPlanned(plan)
  {
    ReversedKinds(h);
    ReversedIndexes();
    assert StepIndexes(plan.fixtures) == [1, 0];
  }

  lemma ReversedKinds(h: Two)
    ensures Kinds(TwoSteps(h)) == TWO_STAGES
  {}

  lemma ReversedIndexes()
    ensures IndexesFrom(TWO_STAGES, FixtureStage, 0) == [0, 1] && IndexesFrom(TWO_STAGES, EnvironmentSource, 0) == []
    ensures multiset([0, 1]) == multiset([1, 0])
  {
    var kinds := TWO_STAGES;
    assert IndexesFrom(kinds, FixtureStage, 3) == [] == IndexesFrom(kinds, FixtureStage, 2);
    assert IndexesFrom(kinds, FixtureStage, 1) == [1];
    assert IndexesFrom(kinds, EnvironmentSource, 3) == [] == IndexesFrom(kinds, EnvironmentSource, 2);
    assert IndexesFrom(kinds, EnvironmentSource, 1) == [];
  }

  lemma ReversedWalk(f: FixtureBinding, g: FixtureBinding, h: Two, pwd: Hash)
    ensures Expected(TWO_STAGES, 0, [Batch(2, 3, h.batch, [0])], [], [g, f], false, pwd) == Some(ReversedOps(f, g, h, pwd))
  {
    var bs, last := [Batch(2, 3, h.batch, [0])], [Op(DependencySetup, Some(h.batch))];
    assert Expected(TWO_STAGES, 2, bs, [], [], true, pwd) == Some(last) by {
      assert NextSpecial(TWO_STAGES, 3) == 3;
      assert Expected(TWO_STAGES, 3, bs[1..], [], [], true, pwd) == Some([]);
      assert last + [] == last;
    }
    assert [g, f][1..] == [f] && [f][1..] == [];
    assert Expected(TWO_STAGES, 1, bs, [], [f], true, pwd) == Some(FixtureOps(f, true, pwd) + last);
  }

  lemma ReversedUnscored(d: Digests, f: FixtureBinding, g: FixtureBinding, h: Two)
    requires TwoStages(d, f, g, h)
    ensures Unscored(ReversedOps(f, g, h, d.text(WORKDIR_COMMAND)), h.scoring)
  {}

  lemma ReversedReceiptOps(d: Digests, f: FixtureBinding, g: FixtureBinding, h: Two)
    requires TwoStages(d, f, g, h)
    ensures ReceiptOps(d, ReversedFixtures(d, f, g, h)) == Some(ReversedOps(f, g, h, d.text(WORKDIR_COMMAND)))
  {
    ReversedKinds(h);
    ReversedWalk(f, g, h, d.text(WORKDIR_COMMAND));
  }

  lemma ReversedNeverScores(d: Digests, f: FixtureBinding, g: FixtureBinding, h: Two)
    requires TwoStages(d, f, g, h)
    ensures !ScoringObserved(ReversedFixtures(d, f, g, h))
  {
    var ops := ReversedOps(f, g, h, d.text(WORKDIR_COMMAND));
    ReversedUnscored(d, f, g, h);
    InvokedUnscored([Op(ReadabilityProbe, Some(h.read))] + ops, h.scoring);
  }

  lemma ReversedRunOk(d: Digests, f: FixtureBinding, g: FixtureBinding, h: Two)
    requires TwoStages(d, f, g, h)
    ensures RunOk(d, ReversedFixtures(d, f, g, h))
  {
    var r := ReversedFixtures(d, f, g, h);
    ReversedReceiptOps(d, f, g, h);
    ReversedNeverScores(d, f, g, h);
    ReversedUnscored(d, f, g, h);
    InvokedMatches(h.read, ReversedOps(f, g, h, d.text(WORKDIR_COMMAND)));
    assert Special(r.plan.steps[0].kind) && r.plan.steps[0] in r.plan.steps;
  }
}
