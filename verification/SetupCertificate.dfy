/** What an accepted dependency-setup receipt certifies, field by field: the validator of
    scripts/harness/preflight.py against the plan, the bindings and the place of every
    invocation, without reference to the walk by which it checks them. */
module SetupCertificate {
  import opened SetupPlan
  import opened SetupReceipt

  // ---- Where each step's invocations are ---------------------------------------------

  predicate Inspected(k: Kind) { k.EnvironmentSource? || k.FixtureStage? }

  predicate FixtureBefore(kinds: seq<Kind>, n: nat)
    requires n <= |kinds|
  {
    exists j :: 0 <= j < n && kinds[j].FixtureStage?
  }

  /** How many invocations step m accounts for: five for a source; three for a fixture, and
      one more, for the working directory, before the first; one for a batch at its first
      step. */
  function Width(kinds: seq<Kind>, m: nat): nat
    requires m < |kinds|
  {
    if kinds[m].EnvironmentSource? then 5
    else if kinds[m].FixtureStage? then if FixtureBefore(kinds, m) then 3 else 4
    else if m == 0 || Inspected(kinds[m - 1]) then 1 else 0
  }

  /** The place of step n's first invocation; the readability probe has place 0. */
  function Place(kinds: seq<Kind>, n: nat): nat
    requires n <= |kinds|
  {
    if n == 0 then 1 else Place(kinds, n - 1) + Width(kinds, n - 1)
  }

  lemma {:induction false} PlaceGrows(kinds: seq<Kind>, i: nat, n: nat)
    requires i <= n <= |kinds|
    ensures Place(kinds, i) <= Place(kinds, n)
    decreases n - i
  {
    if i < n { PlaceGrows(kinds, i, n - 1); }
  }

  /** A batch is one invocation. */
  lemma {:induction false} PlaceOfBatch(kinds: seq<Kind>, i: nat, n: nat)
    requires i < n <= |kinds| && (i == 0 || Inspected(kinds[i - 1])) && forall k :: i <= k < n ==> !Inspected(kinds[k])
    ensures Place(kinds, n) == Place(kinds, i) + 1
    decreases n - i
  {
    if i + 1 < n { PlaceOfBatch(kinds, i, n - 1); }
  }

  predicate At(ops: seq<Op>, p: int, expected: seq<Op>) {
    0 <= p && p + |expected| <= |ops| && ops[p..p + |expected|] == expected
  }

  lemma AtFront(expected: seq<Op>, rest: seq<Op>)
    ensures At(expected + rest, 0, expected)
  {}

  lemma AtLater(front: seq<Op>, rest: seq<Op>, p: int, expected: seq<Op>)
    requires At(rest, p, expected)
    ensures At(front + rest, |front| + p, expected)
  {
    assert (front + rest)[|front| + p..|front| + p + |expected|] == rest[p..p + |expected|];
  }

  /** The walk is between two segments. */
  predicate Boundary(kinds: seq<Kind>, i: nat, seen: bool)
    requires i <= |kinds|
  {
    && (i == 0 || i == |kinds| || Inspected(kinds[i]) || Inspected(kinds[i - 1]))
    && (seen <==> FixtureBefore(kinds, i))
  }

  function SourcesFrom(kinds: seq<Kind>, i: nat): seq<int>
    requires i <= |kinds|
  {
    IndexesFrom(kinds, EnvironmentSource, i)
  }

  function StagesFrom(kinds: seq<Kind>, i: nat): seq<int>
    requires i <= |kinds|
  {
    IndexesFrom(kinds, FixtureStage, i)
  }

  /** The walk's next segment, and the walk from there on. */
  datatype Walk = Walk(front: seq<Op>, rest: seq<Op>, i: nat, bs: seq<Batch>, ss: seq<SourceBinding>, fs: seq<FixtureBinding>,
                       seen: bool)

  function Follow(kinds: seq<Kind>, i: nat, bs: seq<Batch>, ss: seq<SourceBinding>, fs: seq<FixtureBinding>, seen: bool,
                  pwd: Hash): (w: Walk)
    requires i < |kinds| && Boundary(kinds, i, seen) && Expected(kinds, i, bs, ss, fs, seen, pwd).Some?
    ensures i < w.i <= |kinds| && Boundary(kinds, w.i, w.seen) && Place(kinds, w.i) == Place(kinds, i) + |w.front|
    ensures Expected(kinds, w.i, w.bs, w.ss, w.fs, w.seen, pwd) == Some(w.rest)
    ensures Expected(kinds, i, bs, ss, fs, seen, pwd).value == w.front + w.rest
  {
    if kinds[i].FixtureStage? then
      Walk(FixtureOps(fs[0], seen, pwd), Expected(kinds, i + 1, bs, ss, fs[1..], true, pwd).value, i + 1, bs, ss, fs[1..], true)
    else if kinds[i].EnvironmentSource? then
      Walk(SourceOps(ss[0]), Expected(kinds, i + 1, bs, ss[1..], fs, seen, pwd).value, i + 1, bs, ss[1..], fs, seen)
    else
      var end := NextSpecial(kinds, i + 1);
      PlaceOfBatch(kinds, i, end);
      Walk([Op(DependencySetup, Some(bs[0].command))], Expected(kinds, end, bs[1..], ss, fs, seen, pwd).value, end, bs[1..], ss, fs, seen)
  }

  lemma {:induction false} WalkLength(kinds: seq<Kind>, i: nat, bs: seq<Batch>, ss: seq<SourceBinding>, fs: seq<FixtureBinding>,
                                      seen: bool, pwd: Hash)
    requires i <= |kinds| && Boundary(kinds, i, seen) && Expected(kinds, i, bs, ss, fs, seen, pwd).Some?
    ensures |Expected(kinds, i, bs, ss, fs, seen, pwd).value| == Place(kinds, |kinds|) - Place(kinds, i)
    decreases |kinds| - i
  {
    if i < |kinds| {
      var w := Follow(kinds, i, bs, ss, fs, seen, pwd);
      WalkLength(kinds, w.i, w.bs, w.ss, w.fs, w.seen, pwd);
    }
  }

  /** A source is resolved, then observed, then observed once more. */
  function SourceCalls(s: SourceBinding): seq<Op> {
    [Op(SourceResolve, Some(s.resolve)), Op(SourceStatBefore, Some(s.stat)), Op(SourceDigestBefore, Some(s.digest)),
     Op(SourceStatAfter, Some(s.stat)), Op(SourceDigestAfter, Some(s.digest))]
  }

  /** A fixture's destination is probed, then the staged file observed. */
  function FixtureCalls(f: FixtureBinding): seq<Op> {
    [Op(FixtureDestinationProbe, Some(f.probe)), Op(FixtureStat, Some(f.stat)), Op(FixtureDigest, Some(f.digest))]
  }

  /** The k-th source from step i on has its calls at its place. */
  predicate SourceLaid(kinds: seq<Kind>, i: nat, ops: seq<Op>, ss: seq<SourceBinding>, k: nat)
    requires i <= |kinds|
  {
    && k < |SourcesFrom(kinds, i)| && k < |ss|
    && At(ops, Place(kinds, SourcesFrom(kinds, i)[k]) - Place(kinds, i), SourceCalls(ss[k]))
  }

  /** So has the k-th fixture, after the call for the working directory if it is the first. */
  predicate FixtureLaid(kinds: seq<Kind>, i: nat, ops: seq<Op>, fs: seq<FixtureBinding>, pwd: Hash, k: nat)
    requires i <= |kinds|
  {
    && k < |StagesFrom(kinds, i)| && k < |fs|
    && At(ops, Place(kinds, StagesFrom(kinds, i)[k]) - Place(kinds, i), StageCalls(kinds, StagesFrom(kinds, i)[k], fs[k], pwd))
  }

  function StageCalls(kinds: seq<Kind>, n: nat, f: FixtureBinding, pwd: Hash): seq<Op>
    requires n <= |kinds|
  {
    (if FixtureBefore(kinds, n) then [] else [Op(FixtureWorkdirProbe, Some(pwd))]) + FixtureCalls(f)
  }

  lemma SourceLater(kinds: seq<Kind>, i: nat, front: seq<Op>, rest: seq<Op>, ss: seq<SourceBinding>, k: nat, n: nat, more: seq<SourceBinding>, j: nat)
    requires i <= n <= |kinds| && Place(kinds, n) == Place(kinds, i) + |front| && SourceLaid(kinds, n, rest, more, j)
    requires k < |SourcesFrom(kinds, i)| && SourcesFrom(kinds, i)[k] == SourcesFrom(kinds, n)[j]
    requires k < |ss| && ss[k] == more[j]
    ensures SourceLaid(kinds, i, front + rest, ss, k)
  {
    AtLater(front, rest, Place(kinds, SourcesFrom(kinds, n)[j]) - Place(kinds, n), SourceCalls(more[j]));
  }

  lemma FixtureLater(kinds: seq<Kind>, i: nat, front: seq<Op>, rest: seq<Op>, fs: seq<FixtureBinding>, pwd: Hash, k: nat, n: nat,
                     more: seq<FixtureBinding>, j: nat)
    requires i <= n <= |kinds| && Place(kinds, n) == Place(kinds, i) + |front| && FixtureLaid(kinds, n, rest, more, pwd, j)
    requires k < |StagesFrom(kinds, i)| && StagesFrom(kinds, i)[k] == StagesFrom(kinds, n)[j]
    requires k < |fs| && fs[k] == more[j]
    ensures FixtureLaid(kinds, i, front + rest, fs, pwd, k)
  {
    AtLater(front, rest, Place(kinds, StagesFrom(kinds, n)[j]) - Place(kinds, n),
            StageCalls(kinds, StagesFrom(kinds, n)[j], more[j], pwd));
  }

  /** Whether the walk's next segment is a source, and which sources are left after it. */
  lemma FollowSource(kinds: seq<Kind>, i: nat, bs: seq<Batch>, ss: seq<SourceBinding>, fs: seq<FixtureBinding>, seen: bool, pwd: Hash)
    returns (w: Walk)
    requires i < |kinds| && Boundary(kinds, i, seen) && Expected(kinds, i, bs, ss, fs, seen, pwd).Some?
    ensures i < w.i <= |kinds| && Boundary(kinds, w.i, w.seen) && Place(kinds, w.i) == Place(kinds, i) + |w.front|
    ensures Expected(kinds, w.i, w.bs, w.ss, w.fs, w.seen, pwd) == Some(w.rest)
    ensures Expected(kinds, i, bs, ss, fs, seen, pwd).value == w.front + w.rest
    ensures kinds[i].EnvironmentSource? ==>
      ss != [] && w.ss == ss[1..] && w.front == SourceCalls(ss[0]) && SourcesFrom(kinds, i) == [i] + SourcesFrom(kinds, w.i)
    ensures !kinds[i].EnvironmentSource? ==> w.ss == ss && SourcesFrom(kinds, i) == SourcesFrom(kinds, w.i)
  {
    w := Follow(kinds, i, bs, ss, fs, seen, pwd);
    if !kinds[i].EnvironmentSource? { IndexesSkip(kinds, EnvironmentSource, i, w.i); }
  }

  lemma FollowFixture(kinds: seq<Kind>, i: nat, bs: seq<Batch>, ss: seq<SourceBinding>, fs: seq<FixtureBinding>, seen: bool, pwd: Hash)
    returns (w: Walk)
    requires i < |kinds| && Boundary(kinds, i, seen) && Expected(kinds, i, bs, ss, fs, seen, pwd).Some?
    ensures i < w.i <= |kinds| && Boundary(kinds, w.i, w.seen) && Place(kinds, w.i) == Place(kinds, i) + |w.front|
    ensures Expected(kinds, w.i, w.bs, w.ss, w.fs, w.seen, pwd) == Some(w.rest)
    ensures Expected(kinds, i, bs, ss, fs, seen, pwd).value == w.front + w.rest
    ensures kinds[i].FixtureStage? ==>
      fs != [] && w.fs == fs[1..] && w.front == StageCalls(kinds, i, fs[0], pwd) && StagesFrom(kinds, i) == [i] + StagesFrom(kinds, w.i)
    ensures !kinds[i].FixtureStage? ==> w.fs == fs && StagesFrom(kinds, i) == StagesFrom(kinds, w.i)
  {
    w := Follow(kinds, i, bs, ss, fs, seen, pwd);
    if !kinds[i].FixtureStage? { IndexesSkip(kinds, FixtureStage, i, w.i); }
  }

  lemma {:induction false} SourcePlaced(kinds: seq<Kind>, i: nat, bs: seq<Batch>, ss: seq<SourceBinding>, fs: seq<FixtureBinding>,
                                        seen: bool, pwd: Hash, ops: seq<Op>, k: nat)
    requires i <= |kinds| && Boundary(kinds, i, seen) && Expected(kinds, i, bs, ss, fs, seen, pwd) == Some(ops)
    requires k < |SourcesFrom(kinds, i)|
    ensures SourceLaid(kinds, i, ops, ss, k)
    decreases |kinds| - i
  {
    var w := FollowSource(kinds, i, bs, ss, fs, seen, pwd);
    if !kinds[i].EnvironmentSource? {
      SourcePlaced(kinds, w.i, w.bs, w.ss, w.fs, w.seen, pwd, w.rest, k);
      SourceLater(kinds, i, w.front, w.rest, ss, k, w.i, w.ss, k);
    } else if k == 0 {
      AtFront(w.front, w.rest);
    } else {
      SourcePlaced(kinds, w.i, w.bs, w.ss, w.fs, w.seen, pwd, w.rest, k - 1);
      SourceLater(kinds, i, w.front, w.rest, ss, k, w.i, w.ss, k - 1);
    }
  }

  lemma {:induction false} FixturePlaced(kinds: seq<Kind>, i: nat, bs: seq<Batch>, ss: seq<SourceBinding>, fs: seq<FixtureBinding>,
                                         seen: bool, pwd: Hash, ops: seq<Op>, k: nat)
    requires i <= |kinds| && Boundary(kinds, i, seen) && Expected(kinds, i, bs, ss, fs, seen, pwd) == Some(ops)
    requires k < |StagesFrom(kinds, i)|
    ensures FixtureLaid(kinds, i, ops, fs, pwd, k)
    decreases |kinds| - i
  {
    var w := FollowFixture(kinds, i, bs, ss, fs, seen, pwd);
    if !kinds[i].FixtureStage? {
      FixturePlaced(kinds, w.i, w.bs, w.ss, w.fs, w.seen, pwd, w.rest, k);
      FixtureLater(kinds, i, w.front, w.rest, fs, pwd, k, w.i, w.fs, k);
    } else if k == 0 {
      AtFront(w.front, w.rest);
    } else {
      FixturePlaced(kinds, w.i, w.bs, w.ss, w.fs, w.seen, pwd, w.rest, k - 1);
      FixtureLater(kinds, i, w.front, w.rest, fs, pwd, k, w.i, w.fs, k - 1);
    }
  }

  lemma {:induction false} BatchPlaced(kinds: seq<Kind>, i: nat, bs: seq<Batch>, ss: seq<SourceBinding>, fs: seq<FixtureBinding>,
                                       seen: bool, pwd: Hash, k: nat)
    requires i <= |kinds| && Boundary(kinds, i, seen) && Expected(kinds, i, bs, ss, fs, seen, pwd).Some?
    requires k < |bs|
    ensures i <= bs[k].start < |kinds|
    ensures At(Expected(kinds, i, bs, ss, fs, seen, pwd).value, Place(kinds, bs[k].start) - Place(kinds, i),
               [Op(DependencySetup, Some(bs[k].command))])
    decreases |kinds| - i
  {
    var w := Follow(kinds, i, bs, ss, fs, seen, pwd);
    if !Inspected(kinds[i]) && k == 0 {
      AtFront(w.front, w.rest);
    } else {
      var j := if Inspected(kinds[i]) then k else k - 1;
      BatchPlaced(kinds, w.i, w.bs, w.ss, w.fs, w.seen, pwd, j);
      AtLater(w.front, w.rest, Place(kinds, w.bs[j].start) - Place(kinds, w.i), [Op(DependencySetup, Some(w.bs[j].command))]);
    }
  }

  // ---- The invocations of an accepted receipt ------------------------------------------

  /** From place p on, the invocations are these, numbered by place, and succeeded. */
  predicate Invokes(vs: seq<Invocation>, p: nat, calls: seq<Op>) {
    && p + |calls| <= |vs|
    && forall k :: 0 <= k < |calls| ==>
         calls[k].command.Some? && vs[p + k] == Invocation(p + k, calls[k].kind, calls[k].command.value, 0)
  }

  lemma PlacedIsInvoked(vs: seq<Invocation>, ops: seq<Op>, p: nat, calls: seq<Op>)
    requires InvocationsMatch(vs, [Op(ReadabilityProbe, None)] + ops) && At(ops, p - 1, calls)
    requires forall c <- calls :: c.command.Some?
    ensures Invokes(vs, p, calls)
  {
    var all := [Op(ReadabilityProbe, None)] + ops;
    forall k | 0 <= k < |calls|
      ensures calls[k].command.Some? && vs[p + k] == Invocation(p + k, calls[k].kind, calls[k].command.value, 0)
    {
      assert calls[k] in calls && all[p + k] == ops[p - 1 + k] == ops[p - 1..p - 1 + |calls|][k];
      assert Matches(p + k, vs[p + k], all[p + k]);
    }
  }

  /** The first staging step is the one without another before it. */
  lemma FirstStage(kinds: seq<Kind>, k: nat)
    requires k < |StagesFrom(kinds, 0)|
    ensures FixtureBefore(kinds, StagesFrom(kinds, 0)[k]) <==> k > 0
  {
    var stages := StagesFrom(kinds, 0);
    if k > 0 {
      assert kinds[stages[0]].FixtureStage? && stages[0] < stages[k];
    } else if FixtureBefore(kinds, stages[0]) {
      var j :| 0 <= j < stages[0] && kinds[j].FixtureStage?;
      IndexesComplete(kinds, FixtureStage, 0, j);
    }
  }

  /** The walk of a receipt's bindings, and what it expects of the invocations. */
  ghost predicate Walks(kinds: seq<Kind>, bs: seq<Batch>, ss: seq<SourceBinding>, fs: seq<FixtureBinding>, pwd: Hash,
                        ops: seq<Op>, vs: seq<Invocation>) {
    && Expected(kinds, 0, bs, ss, fs, false, pwd) == Some(ops) && InvocationsMatch(vs, [Op(ReadabilityProbe, None)] + ops)
    && |ss| == |SourcesFrom(kinds, 0)| && |fs| == |StagesFrom(kinds, 0)|
  }

  lemma AcceptedWalks(d: Digests, r: Receipt) returns (ops: seq<Op>)
    requires Accepts(d, r)
    ensures Walks(Kinds(r.plan.steps), r.batches, r.sources, r.fixtures, d.text("pwd -P"), ops, r.invocations)
  {
    ops := ReceiptOps(d, r).value;
    SameLength(StepIndexes(r.plan.fixtures), StagesFrom(Kinds(r.plan.steps), 0));
  }

  /** The five calls of each source, with the digests of its binding, are at its step's place. */
  predicate SourceCalled(kinds: seq<Kind>, ss: seq<SourceBinding>, vs: seq<Invocation>, k: nat) {
    && k < |ss| == |SourcesFrom(kinds, 0)|
    && Invokes(vs, Place(kinds, SourcesFrom(kinds, 0)[k]), SourceCalls(ss[k]))
  }

  /** The three calls of the k-th fixture are at the k-th staging step's place, after the one
      for the working directory if it is the first. */
  predicate FixtureCalled(kinds: seq<Kind>, fs: seq<FixtureBinding>, pwd: Hash, vs: seq<Invocation>, k: nat) {
    && k < |fs| == |StagesFrom(kinds, 0)|
    && Invokes(vs, Place(kinds, StagesFrom(kinds, 0)[k]),
               (if k == 0 then [Op(FixtureWorkdirProbe, Some(pwd))] else []) + FixtureCalls(fs[k]))
  }

  /** The one call of each batch is at its first step's place. */
  predicate BatchCalled(kinds: seq<Kind>, bs: seq<Batch>, vs: seq<Invocation>, k: nat) {
    && k < |bs| && 0 <= bs[k].start < |kinds|
    && Invokes(vs, Place(kinds, bs[k].start), [Op(DependencySetup, Some(bs[k].command))])
  }

  lemma WalksCallSource(kinds: seq<Kind>, bs: seq<Batch>, ss: seq<SourceBinding>, fs: seq<FixtureBinding>, pwd: Hash,
                        ops: seq<Op>, vs: seq<Invocation>, k: nat)
    requires Walks(kinds, bs, ss, fs, pwd, ops, vs) && k < |ss|
    ensures SourceCalled(kinds, ss, vs, k)
  {
    SourcePlaced(kinds, 0, bs, ss, fs, false, pwd, ops, k);
    PlacedIsInvoked(vs, ops, Place(kinds, SourcesFrom(kinds, 0)[k]), SourceCalls(ss[k]));
  }

  lemma WalksCallFixture(kinds: seq<Kind>, bs: seq<Batch>, ss: seq<SourceBinding>, fs: seq<FixtureBinding>, pwd: Hash,
                         ops: seq<Op>, vs: seq<Invocation>, k: nat)
    requires Walks(kinds, bs, ss, fs, pwd, ops, vs) && k < |fs|
    ensures FixtureCalled(kinds, fs, pwd, vs, k)
  {
    FixturePlaced(kinds, 0, bs, ss, fs, false, pwd, ops, k);
    FirstStage(kinds, k);
    PlacedIsInvoked(vs, ops, Place(kinds, StagesFrom(kinds, 0)[k]), StageCalls(kinds, StagesFrom(kinds, 0)[k], fs[k], pwd));
  }

  lemma WalksCallBatch(kinds: seq<Kind>, bs: seq<Batch>, ss: seq<SourceBinding>, fs: seq<FixtureBinding>, pwd: Hash,
                       ops: seq<Op>, vs: seq<Invocation>, k: nat)
    requires Walks(kinds, bs, ss, fs, pwd, ops, vs) && k < |bs|
    ensures BatchCalled(kinds, bs, vs, k)
  {
    BatchPlaced(kinds, 0, bs, ss, fs, false, pwd, k);
    PlacedIsInvoked(vs, ops, Place(kinds, bs[k].start), [Op(DependencySetup, Some(bs[k].command))]);
  }

  lemma WalksInvoke(kinds: seq<Kind>, bs: seq<Batch>, ss: seq<SourceBinding>, fs: seq<FixtureBinding>, pwd: Hash,
                    ops: seq<Op>, vs: seq<Invocation>)
    requires Walks(kinds, bs, ss, fs, pwd, ops, vs)
    ensures |vs| == Place(kinds, |kinds|)
    ensures vs != [] && vs[0].kind.ReadabilityProbe? && vs[0].sequence == 0 == vs[0].exitCode
  {
    WalkLength(kinds, 0, bs, ss, fs, false, pwd);
    assert Matches(0, vs[0], ([Op(ReadabilityProbe, None)] + ops)[0]);
  }

  /** An accepted receipt holds, at the place its step has in the plan, the calls of each
      source, of each fixture and of each batch, with the digests of their bindings, all
      successful; the readability probe before them; no other invocation, and never the
      scorer. */
  lemma AcceptedInvocations(d: Digests, r: Receipt)
    requires Accepts(d, r)
    ensures |r.invocations| == Place(Kinds(r.plan.steps), |Kinds(r.plan.steps)|)
    ensures r.invocations[0].kind.ReadabilityProbe? && r.invocations[0].sequence == 0 == r.invocations[0].exitCode
    ensures forall k :: 0 <= k < |r.sources| ==> SourceCalled(Kinds(r.plan.steps), r.sources, r.invocations, k)
    ensures forall k :: 0 <= k < |r.fixtures| ==>
      FixtureCalled(Kinds(r.plan.steps), r.fixtures, d.text("pwd -P"), r.invocations, k)
    ensures forall k :: 0 <= k < |r.batches| ==> BatchCalled(Kinds(r.plan.steps), r.batches, r.invocations, k)
    ensures forall v <- r.invocations :: !v.kind.Scoring? && v.command != r.plan.scoring
  {
    var kinds, pwd := Kinds(r.plan.steps), d.text("pwd -P");
    var ops := AcceptedWalks(d, r);
    WalksInvoke(kinds, r.batches, r.sources, r.fixtures, pwd, ops, r.invocations);
    forall k | 0 <= k < |r.sources| ensures SourceCalled(kinds, r.sources, r.invocations, k) {
      WalksCallSource(kinds, r.batches, r.sources, r.fixtures, pwd, ops, r.invocations, k);
    }
    forall k | 0 <= k < |r.fixtures| ensures FixtureCalled(kinds, r.fixtures, pwd, r.invocations, k) {
      WalksCallFixture(kinds, r.batches, r.sources, r.fixtures, pwd, ops, r.invocations, k);
    }
    forall k | 0 <= k < |r.batches| ensures BatchCalled(kinds, r.batches, r.invocations, k) {
      WalksCallBatch(kinds, r.batches, r.sources, r.fixtures, pwd, ops, r.invocations, k);
    }
  }

  // ---- The fields of an accepted receipt -----------------------------------------------

  /** Step n is staged by one binding, with the sequence, source path and content that the
      plan has for it. */
  ghost predicate StagedAsPlanned(r: Receipt, n: nat) {
    exists k :: 0 <= k < |r.fixtures| && k < |r.plan.fixtures| && StagedBy(r.fixtures[k], r.plan.fixtures[k], n)
  }

  predicate StagedBy(f: FixtureBinding, planned: FixturePlan, n: nat) {
    && f.stepIndex == planned.stepIndex == n && f.sequence == planned.sequence >= 0
    && f.source == planned.sourcePath && f.content == planned.source && f.bytes >= 0
  }

  lemma AcceptedStages(d: Digests, r: Receipt)
    requires Accepts(d, r)
    ensures |r.fixtures| == |r.plan.fixtures|
    ensures forall n :: 0 <= n < |r.plan.steps| && r.plan.steps[n].kind.FixtureStage? ==> StagedAsPlanned(r, n)
    ensures forall k :: 0 <= k < |r.fixtures| ==>
      && 0 <= r.fixtures[k].stepIndex < |r.plan.steps| && r.plan.steps[r.fixtures[k].stepIndex].kind.FixtureStage?
      && StagedBy(r.fixtures[k], r.plan.fixtures[k], r.fixtures[k].stepIndex)
  {
    AcceptedFixtures(d, r);
    forall k | 0 <= k < |r.fixtures|
      ensures 0 <= r.fixtures[k].stepIndex < |r.plan.steps| && r.plan.steps[r.fixtures[k].stepIndex].kind.FixtureStage?
      ensures StagedBy(r.fixtures[k], r.plan.fixtures[k], r.fixtures[k].stepIndex)
    {
      assert FixtureOk(r.plan.fixtures[k], r.fixtures[k]) && r.plan.fixtures[k] in r.plan.fixtures;
    }
    forall n | 0 <= n < |r.plan.steps| && r.plan.steps[n].kind.FixtureStage? ensures StagedAsPlanned(r, n) {
      var k :| 0 <= k < |r.fixtures| && r.fixtures[k].stepIndex == n;
      assert StagedBy(r.fixtures[k], r.plan.fixtures[k], n);
    }
  }

  /** Each batch reports one exit status a step, and a nonzero one only for a build, a compound
      or a filesystem step. */
  lemma AcceptedCodes(d: Digests, r: Receipt, b: nat)
    requires Accepts(d, r) && b < |r.batches|
    ensures var x := r.batches[b];
      && 0 <= x.start < x.end <= |r.plan.steps| && |x.codes| == x.end - x.start
      && forall k :: 0 <= k < |x.codes| ==>
           && 0 <= x.codes[k] <= 255
           && (x.codes[k] != 0 ==> r.plan.steps[x.start + k].kind in {BuildSetup, CompoundSetup, FilesystemSetup})
  {
    assert r.batches[b] in r.batches;
    assert BatchOk(r.plan.steps, r.batches[b]);
    forall k | 0 <= k < |r.batches[b].codes| ensures 0 <= r.batches[b].codes[k] <= 255 {
      assert r.batches[b].codes[k] in r.batches[b].codes;
    }
  }

  /** An absolute path that has no `..` between slashes and none at its end. */
  ghost predicate Canonical(path: string) {
    && path != "" && path[0] == '/'
    && (forall a: string, b: string :: path != a + "/../" + b) && forall a: string :: path != a + "/.."
  }

  lemma DotsInside(a: string, b: string)
    ensures !CanonicalPath(a + "/../" + b)
  {
    var path := a + "/../" + b;
    assert path[|a|] == '/' && path[|a| + 1] == '.' && path[|a| + 2] == '.' && path[|a| + 3] == '/';
  }

  lemma DotsAtEnd(a: string)
    ensures !CanonicalPath(a + "/..")
  {
    var path := a + "/..";
    assert path[|a|] == '/' && path[|a| + 1] == '.' && path[|a| + 2] == '.';
  }

  lemma CanonicalIff(path: string)
    ensures CanonicalPath(path) <==> Canonical(path)
  {
    if CanonicalPath(path) {
      forall a: string, b: string ensures path != a + "/../" + b { DotsInside(a, b); }
      forall a: string ensures path != a + "/.." { DotsAtEnd(a); }
    } else if path != "" && path[0] == '/' {
      var i :| 0 < i && i + 2 <= |path| && path[i - 1] == '/' && path[i] == '.' && path[i + 1] == '.'
               && (i + 2 == |path| || path[i + 2] == '/');
      if i + 2 == |path| {
        assert path == path[..i - 1] + "/..";
      } else {
        assert path == path[..i - 1] + "/../" + path[i + 3..];
      }
    }
  }

  /** Each source is a file at a canonical absolute path, of at most 64 KiB. */
  lemma AcceptedSourceFiles(d: Digests, r: Receipt, k: nat)
    requires Accepts(d, r) && k < |r.sources|
    ensures var s := r.sources[k];
      && 0 <= s.stepIndex < |r.plan.steps| && r.plan.steps[s.stepIndex].kind.EnvironmentSource?
      && Canonical(s.path) && s.device >= 0 && s.inode > 0 && 0 <= s.bytes <= 65536
  {
    var indexes := IndexesFrom(Kinds(r.plan.steps), EnvironmentSource, 0);
    assert SourceOk(indexes[k], r.sources[k]);
    CanonicalIff(r.sources[k].path);
  }

  /** The steps were executed in order, each as planned, each with status 0. */
  lemma AcceptedExecutions(d: Digests, r: Receipt)
    requires Accepts(d, r)
    ensures |r.executions| == |r.plan.steps| && !r.scoringInvoked
    ensures forall k :: 0 <= k < |r.executions| ==>
      && r.executions[k].index == k && r.executions[k].exitCode == 0
      && r.executions[k].kind == r.plan.steps[k].kind && r.executions[k].command == r.plan.steps[k].command
  {}

  /** What a family's minimal entrypoint runs. */
  const ENTRYPOINTS := map["go_test" := "go version", "cargo_test" := "cargo --version", "npm_test" := "npm list --depth=0",
                           "pnpm_test" := "pnpm list --depth=0", "yarn_test" := "yarn list --depth=0"]

  /** The plan is the one hashed, of a known family, and ends with that family's entrypoint;
      without setup it is empty; and it is rendered as one command, that of its one batch,
      exactly if it has steps and none is inspected. */
  lemma AcceptedPlan(d: Digests, r: Receipt)
    requires Accepts(d, r)
    ensures r.planHash == d.plan(r.plan) && r.batchesHash == d.batches(r.batches)
    ensures r.sourcesHash == d.sources(r.sources) && r.fixturesHash == d.fixtures(r.fixtures)
    ensures r.plan.family == "pytest" || r.plan.family in ENTRYPOINTS
    ensures r.plan.steps != [] ==>
      var last := r.plan.steps[|r.plan.steps| - 1];
      && (last.kind == MinimalEntrypoint || last.kind == ResolverEntrypoint)
      && (last.kind == MinimalEntrypoint && r.plan.family in ENTRYPOINTS ==> last.command == d.text(ENTRYPOINTS[r.plan.family]))
    ensures r.mode == NoSetup <==> r.plan.steps == [] && r.plan.fixtures == []
    ensures r.plan.rendered.Some? <==> r.plan.steps != [] && forall s <- r.plan.steps :: !Inspected(s.kind)
    ensures r.plan.rendered.Some? ==> |r.batches| == 1 && r.plan.rendered == Some(r.batches[0].command)
  {
    FamiliesKnown(r.plan.family);
    if r.plan.fixtures != [] { assert r.plan.fixtures[0] in r.plan.fixtures; }
    if r.plan.rendered.Some? { OneBatch(d, r); }
  }

  lemma FamiliesKnown(family: string)
    ensures KnownFamily(family) <==> family == "pytest" || family in ENTRYPOINTS
    ensures StaticEntrypoint(family) == if family in ENTRYPOINTS then Some(ENTRYPOINTS[family]) else None
  {}

  lemma OneBatch(d: Digests, r: Receipt)
    requires Accepts(d, r) && r.plan.steps != [] && forall s <- r.plan.steps :: !Special(s.kind)
    ensures |r.batches| == 1
  {
    var kinds := Kinds(r.plan.steps);
    forall n | 0 <= n < |kinds| ensures !Special(kinds[n]) { assert r.plan.steps[n] in r.plan.steps; }
    assert NextSpecial(kinds, 1) == |kinds|;
    assert Expected(kinds, |kinds|, r.batches[1..], r.sources, r.fixtures, false, d.text(WORKDIR_COMMAND)).Some?;
  }

  // ---- Tampering -------------------------------------------------------------------------

  /** What the plan fixes of a fixture's binding. */
  predicate SameFixture(f: FixtureBinding, g: FixtureBinding) {
    f.sequence == g.sequence && f.stepIndex == g.stepIndex && f.source == g.source && f.content == g.content
  }

  /** A plan has, up to what was found in the container, one accepted receipt: two of them
      agree in mode, digest of the plan, executions, and in each fixture's sequence, step,
      source and content. */
  lemma AcceptedReceiptsAgree(d: Digests, a: Receipt, b: Receipt)
    requires Accepts(d, a) && Accepts(d, b) && a.plan == b.plan
    ensures a.mode == b.mode && a.planHash == b.planHash && a.executions == b.executions && !a.scoringInvoked && !b.scoringInvoked
    ensures |a.fixtures| == |b.fixtures| && forall k :: 0 <= k < |a.fixtures| ==> SameFixture(a.fixtures[k], b.fixtures[k])
    ensures |a.sources| == |b.sources| && forall k :: 0 <= k < |a.sources| ==> a.sources[k].stepIndex == b.sources[k].stepIndex
  {
    forall k | 0 <= k < |a.fixtures| ensures SameFixture(a.fixtures[k], b.fixtures[k]) {
      assert FixtureOk(a.plan.fixtures[k], a.fixtures[k]) && FixtureOk(b.plan.fixtures[k], b.fixtures[k]);
    }
    var indexes := IndexesFrom(Kinds(a.plan.steps), EnvironmentSource, 0);
    forall k | 0 <= k < |a.sources| ensures a.sources[k].stepIndex == b.sources[k].stepIndex {
      assert SourceOk(indexes[k], a.sources[k]) && SourceOk(indexes[k], b.sources[k]);
    }
  }

  /** Where a receipt b differs from the accepted receipt r of the same plan. */
  datatype Tamper = FixtureTamper(k: nat) | CodeTamper(k: nat, step: nat) | ExecutionTamper | InvocationTamper(k: nat)

  predicate Tampers(r: Receipt, t: Tamper, b: Receipt) {
    && b.plan == r.plan
    && match t
       case FixtureTamper(k) => k < |r.fixtures| && k < |b.fixtures| && !SameFixture(b.fixtures[k], r.fixtures[k])
       case CodeTamper(k, step) => k < |b.batches| && StrictFailure(b, b.batches[k], step)
       case ExecutionTamper => b.executions != r.executions
       case InvocationTamper(k) =>
         && b.batches == r.batches && b.sources == r.sources && b.fixtures == r.fixtures
         && 0 < k < |r.invocations| && k < |b.invocations| && b.invocations[k] != r.invocations[k]
  }

  /** A step that may not fail is reported as failed. */
  predicate StrictFailure(b: Receipt, x: Batch, step: nat) {
    && step < |x.codes| && x.codes[step] != 0 && 0 <= x.start && x.start + step < |b.plan.steps|
    && b.plan.steps[x.start + step].kind !in {BuildSetup, CompoundSetup, FilesystemSetup}
  }

  lemma OtherFixtureRejected(d: Digests, a: Receipt, b: Receipt, k: nat)
    requires Accepts(d, a) && a.plan == b.plan && k < |a.fixtures| && k < |b.fixtures| && !SameFixture(b.fixtures[k], a.fixtures[k])
    ensures !Accepts(d, b)
  {
    if Accepts(d, b) { AcceptedReceiptsAgree(d, b, a); }
  }

  lemma OtherExecutionsRejected(d: Digests, a: Receipt, b: Receipt)
    requires Accepts(d, a) && a.plan == b.plan && a.executions != b.executions
    ensures !Accepts(d, b)
  {
    if Accepts(d, b) { AcceptedReceiptsAgree(d, a, b); }
  }

  lemma OtherInvocationRejected(d: Digests, a: Receipt, b: Receipt, k: nat)
    requires Accepts(d, a) && a.plan == b.plan && a.batches == b.batches && a.sources == b.sources && a.fixtures == b.fixtures
    requires 0 < k < |a.invocations| && k < |b.invocations| && a.invocations[k] != b.invocations[k]
    ensures !Accepts(d, b)
  {
    if Accepts(d, b) { AcceptedInvocationsDetermined(d, a, b); }
  }

  lemma StrictFailureRejected(d: Digests, b: Receipt, k: nat, step: nat)
    requires k < |b.batches| && StrictFailure(b, b.batches[k], step)
    ensures !Accepts(d, b)
  {
    if Accepts(d, b) { AcceptedCodes(d, b, k); }
  }

  /** A receipt tampered with is not accepted, whatever else was changed with it, the digests
      over its parts included. */
  lemma TamperedIsRejected(d: Digests, r: Receipt, t: Tamper, b: Receipt)
    requires Accepts(d, r) && Tampers(r, t, b)
    ensures !Accepts(d, b)
  {
    match t {
      case FixtureTamper(k) => OtherFixtureRejected(d, r, b, k);
      case CodeTamper(k, step) => StrictFailureRejected(d, b, k, step);
      case ExecutionTamper => OtherExecutionsRejected(d, r, b);
      case InvocationTamper(k) => OtherInvocationRejected(d, r, b, k);
    }
  }
}
