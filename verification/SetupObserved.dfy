/** What a receipt of the prober in scripts/harness/verifier_readiness.py says about the
    container it was made in: each batch ran with the environment of every source before it,
    and each binding is what was found at its own step. */
module SetupObserved {
  import opened SetupPlan
  import opened SetupReceipt
  import opened SetupProbe

  /** The environment deltas of the sources before step n, in order. */
  function DeltasBefore(p: Plan, c: Container, n: nat): seq<string>
    requires n <= |p.steps|
  {
    if n == 0 then []
    else
      DeltasBefore(p, c, n - 1)
      + if p.steps[n - 1].kind.EnvironmentSource? && c.source(n - 1).Some? then [c.source(n - 1).value.delta] else []
  }

  /** The batch's script was rendered and completed with those deltas, and it reports one
      status a step, zero unless the step may fail. */
  predicate BatchSeen(d: Digests, p: Plan, c: Container, b: Batch) {
    && 0 <= b.start < b.end <= |p.steps|
    && c.completes(b.start, b.end, DeltasBefore(p, c, b.start))
    && b.command == d.text("set -e" + c.render(b.start, b.end, DeltasBefore(p, c, b.start)))
    && |b.codes| == b.end - b.start
    && forall k :: 0 <= k < |b.codes| ==> CodeSeen(p, c, b, k)
  }

  /** A step that may fail reports its own status, a virtualenv what the step before it in the
      batch reported, which there is, and any other step success. */
  predicate CodeSeen(p: Plan, c: Container, b: Batch, k: nat)
    requires 0 <= b.start && b.end <= |p.steps| && k < |b.codes| == b.end - b.start
  {
    var s := p.steps[b.start + k];
    if s.kind.VenvCreate? then k > 0 && b.codes[k] == b.codes[k - 1]
    else if s.kind.BuildSetup? || s.kind.FilesystemSetup? || (s.kind.CompoundSetup? && s.buildOnly) then
      b.codes[k] == c.status(b.start + k)
    else b.codes[k] == 0
  }

  predicate SourceSeen(d: Digests, p: Plan, c: Container, s: SourceBinding) {
    && 0 <= s.stepIndex < |p.steps| && c.source(s.stepIndex).Some?
    && var found := c.source(s.stepIndex).value;
    && s.path == found.path && s.device == found.device && s.inode == found.inode && s.bytes == found.bytes
    && s.resolve == d.text("test ! -L " + found.candidate + " && readlink -f -- " + found.candidate)
    && s.stat == d.text("LC_ALL=C stat -Lc '%d:%i:%s:%f' -- " + found.quoted) && s.digest == d.text("sha256sum -- " + found.quoted)
  }

  predicate FixtureSeen(d: Digests, p: Plan, c: Container, f: FixtureBinding) {
    && 0 <= f.stepIndex < |p.steps| && c.fixture(f.stepIndex).Some?
    && var found := c.fixture(f.stepIndex).value;
    && f.content == found.content && f.bytes == found.bytes >= 0
    && f.probe == d.text("test ! -e " + found.destination + " && test ! -L " + found.destination)
    && f.stat == d.text("test -f " + found.destination + " && test ! -L " + found.destination + " && "
                        + ("LC_ALL=C stat -Lc '%d:%i:%s:%f' -- " + found.destination))
    && f.digest == d.text("sha256sum -- " + found.destination)
    && exists g <- p.fixtures :: g.stepIndex == f.stepIndex && g.sequence == f.sequence
                                 && f.source == d.text("/tests/" + g.source.relative) && f.content == g.source.digest
  }

  predicate TraceSeen(d: Digests, p: Plan, c: Container, t: Trace) {
    && (forall b <- t.batches :: BatchSeen(d, p, c, b))
    && (forall s <- t.sources :: SourceSeen(d, p, c, s))
    && (forall f <- t.fixtures :: FixtureSeen(d, p, c, f))
  }

  /** A virtualenv reports what the step before it did. */
  lemma VenvReports(p: Plan, c: Container, n: nat)
    requires n < |p.steps| && p.steps[n].kind.VenvCreate? && Reported(p, c, n).Some?
    ensures n > 0 && !Special(p.steps[n - 1].kind) && Reported(p, c, n) == Reported(p, c, n - 1)
  {
    assert Reported(p, c, n) == Inherited(p, c, n);
  }

  lemma CodesSeen(p: Plan, c: Container, b: Batch)
    requires 0 <= b.start < b.end <= |p.steps| && Reports(p, c, b.start, b.end) && b.codes == Codes(p, c, b.start, b.end)
    requires b.start == 0 || Special(p.steps[b.start - 1].kind)
    ensures forall k :: 0 <= k < |b.codes| ==> CodeSeen(p, c, b, k)
  {
    forall k | 0 <= k < |b.codes| ensures CodeSeen(p, c, b, k) {
      var n := b.start + k;
      assert Some(b.codes[k]) == Reported(p, c, n);
      if p.steps[n].kind.VenvCreate? {
        VenvReports(p, c, n);
        assert Some(b.codes[k - 1]) == Reported(p, c, b.start + (k - 1));
      }
    }
  }

  /** A batch changes no delta. */
  lemma {:induction false} DeltasKept(p: Plan, c: Container, i: nat, n: nat)
    requires i <= n <= |p.steps| && forall k :: i <= k < n ==> !Special(p.steps[k].kind)
    ensures DeltasBefore(p, c, n) == DeltasBefore(p, c, i)
    decreases n - i
  {
    if i < n { DeltasKept(p, c, i, n - 1); }
  }

  lemma BatchIsSeen(d: Digests, p: Plan, c: Container, i: nat, end: nat, t: Trace)
    requires i < end <= |p.steps| && BatchTrace(d, p, c, i, end, DeltasBefore(p, c, i)) == Some(t)
    requires i == 0 || Special(p.steps[i - 1].kind)
    ensures TraceSeen(d, p, c, t)
  {
    CodesSeen(p, c, t.batches[0]);
  }

  lemma FixtureIsSeen(d: Digests, p: Plan, c: Container, i: nat, f: Fixture, found: FixtureFound, seen: bool)
    requires i < |p.steps| && f in p.fixtures && f.stepIndex == i && c.fixture(i) == Some(found) && FixtureFoundOk(f, found)
    ensures TraceSeen(d, p, c, FixtureTrace(d, f, found, seen))
  {}

  lemma SourceIsSeen(d: Digests, p: Plan, c: Container, i: nat, s: SourceFound)
    requires i < |p.steps| && c.source(i) == Some(s)
    ensures TraceSeen(d, p, c, SourceTrace(d, i, s))
  {}

  /** The walk is between two segments. */
  predicate Between(p: Plan, i: nat)
    requires i <= |p.steps|
  {
    i == 0 || i == |p.steps| || Special(p.steps[i].kind) || Special(p.steps[i - 1].kind)
  }

  lemma FirstSeen(d: Digests, p: Plan, c: Container, i: nat, seen: bool)
    requires i < |p.steps| && Between(p, i) && First(d, p, c, i, seen, DeltasBefore(p, c, i)).Some?
    ensures var s := First(d, p, c, i, seen, DeltasBefore(p, c, i)).value;
      TraceSeen(d, p, c, s.front) && s.delta == DeltasBefore(p, c, s.next) && Between(p, s.next)
  {
    var s := First(d, p, c, i, seen, DeltasBefore(p, c, i)).value;
    if p.steps[i].kind.FixtureStage? {
      FixtureIsSeen(d, p, c, i, FixtureFor(p.fixtures, i).value, c.fixture(i).value, seen);
    } else if p.steps[i].kind.EnvironmentSource? {
      SourceIsSeen(d, p, c, i, c.source(i).value);
    } else {
      BatchIsSeen(d, p, c, i, s.next, s.front);
      DeltasKept(p, c, i, s.next);
    }
  }

  lemma SeenJoin(d: Digests, p: Plan, c: Container, a: Trace, b: Trace)
    requires TraceSeen(d, p, c, a) && TraceSeen(d, p, c, b)
    ensures TraceSeen(d, p, c, Append(a, b))
  {}

  lemma {:induction false} ProduceSeen(d: Digests, p: Plan, c: Container, i: nat, seen: bool)
    requires i <= |p.steps| && Between(p, i) && Produce(d, p, c, i, seen, DeltasBefore(p, c, i)).Some?
    ensures TraceSeen(d, p, c, Produce(d, p, c, i, seen, DeltasBefore(p, c, i)).value)
    decreases |p.steps| - i
  {
    if i < |p.steps| {
      FirstSeen(d, p, c, i, seen);
      var s := First(d, p, c, i, seen, DeltasBefore(p, c, i)).value;
      ProduceSeen(d, p, c, s.next, s.seen);
      SeenJoin(d, p, c, s.front, Produce(d, p, c, s.next, s.seen, s.delta).value);
    }
  }

  /** Every binding of a receipt is what the container answered at its step: a batch ran in the
      environment that all sources before it leave, a source is the file resolved there, and a
      fixture has the content that the plan has for its step. */
  lemma ReceiptIsObserved(d: Digests, p: Plan, c: Container, r: Receipt)
    requires Probed(d, p, c) == Some(r)
    ensures forall b <- r.batches :: BatchSeen(d, p, c, b)
    ensures forall s <- r.sources :: SourceSeen(d, p, c, s)
    ensures forall f <- r.fixtures :: FixtureSeen(d, p, c, f)
  {
    ProduceSeen(d, p, c, 0, false);
  }

  /** From a container that answers, a receipt appears exactly if no stateful step comes before
      a source, and no virtualenv comes first or right after a source or fixture. */
  lemma ReceiptAppearsExactly(d: Digests, p: Plan, c: Container)
    requires Answers(p, c)
    ensures Probed(d, p, c).Some? <==>
      && (forall i, j :: 0 <= i < j < |p.steps| && p.steps[j].kind == EnvironmentSource ==> p.steps[i].kind != Environment)
      && forall n :: 0 <= n < |p.steps| && p.steps[n].kind == VenvCreate ==>
           n > 0 && p.steps[n - 1].kind !in {EnvironmentSource, FixtureStage}
  {
    ReceiptAppearsIff(d, p, c);
    NoLeadingVenvIff(p);
  }

  lemma NoLeadingVenvIff(p: Plan)
    ensures NoLeadingVenv(p) <==>
      forall n :: 0 <= n < |p.steps| && p.steps[n].kind == VenvCreate ==>
        n > 0 && p.steps[n - 1].kind !in {EnvironmentSource, FixtureStage}
  {}
}
