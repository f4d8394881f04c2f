/** What the progress replay of scripts/ci/manual_harness.py accepts, and what it projects,
    case by case and from the log alone. */
module ProgressCases {
  import opened ProgressReplay

  /** Where a case is in its life. */
  datatype Stage = Unseen | Queued | Running(elapsed: nat) | Done(status: Status, took: Option<nat>)

  /** An event moves its own case: to the queue, to its start, to the time it reports, or to
      its end, which keeps the last time reported while it ran. */
  function Moved(before: Stage, body: Body, k: Key): Stage {
    match body
    case CaseQueued(key) => if key == k then Queued else before
    case CaseStarted(key) => if key == k then Running(0) else before
    case CaseProgress(key, elapsed) => if key == k then Running(elapsed) else before
    case CaseCompleted(key, status) =>
      if key == k then Done(status, if before.Running? then Some(before.elapsed) else None) else before
    case _ => before
  }

  /** Where the log leaves a case. */
  function StageOf(log: seq<Event>, k: Key): Stage {
    if log == [] then Unseen else Moved(StageOf(log[..|log| - 1], k), log[|log| - 1].body, k)
  }

  function Mentions(body: Body): set<Key> {
    match body
    case CaseQueued(k) => {k}
    case CaseStarted(k) => {k}
    case CaseProgress(k, _) => {k}
    case CaseCompleted(k, _) => {k}
    case _ => {}
  }

  /** The cases that the log mentions. */
  function Mentioned(log: seq<Event>): set<Key> {
    if log == [] then {} else Mentioned(log[..|log| - 1]) + Mentions(log[|log| - 1].body)
  }

  lemma {:induction false} MentionedAreSeen(log: seq<Event>, k: Key)
    ensures k in Mentioned(log) <==> !StageOf(log, k).Unseen?
  {
    if log != [] { MentionedAreSeen(log[..|log| - 1], k); }
  }

  /** Where the projection has a case. */
  function Projected(s: State, k: Key): Stage {
    if k in s.queued then Queued
    else if k in s.active then Running(s.active[k])
    else if k in s.rows then Done(s.rows[k].status, s.rows[k].elapsed)
    else Unseen
  }

  lemma CompletionMoves(s: State, commit: string, e: Event, k: Key)
    requires Inv(s) && Acceptable(s, commit, e) && e.body.CaseCompleted?
    ensures Projected(Apply(s, e), k) == Moved(Projected(s, k), e.body, k)
  {
    if k == e.body.key { assert k !in Apply(s, e).queued && k !in Apply(s, e).active; }
  }

  lemma RunMoves(s: State, commit: string, e: Event, k: Key)
    requires Inv(s) && Acceptable(s, commit, e) && (e.body.CaseStarted? || e.body.CaseProgress?)
    ensures Projected(Apply(s, e), k) == Moved(Projected(s, k), e.body, k)
  {
    if k == e.body.key { assert k !in Apply(s, e).queued; }
  }

  lemma ApplyMoves(s: State, commit: string, e: Event, k: Key)
    requires Inv(s) && Acceptable(s, commit, e)
    ensures Projected(Apply(s, e), k) == Moved(Projected(s, k), e.body, k)
  {
    if e.body.CaseCompleted? {
      CompletionMoves(s, commit, e, k);
    } else if e.body.CaseStarted? || e.body.CaseProgress? {
      RunMoves(s, commit, e, k);
    }
  }

  /** An accepted log leaves every case where its own events leave it: a completed case with
      its status and the last time reported while it ran, a running one with the last time
      reported. */
  lemma {:induction false} ReplayIsCaseByCase(commit: string, log: seq<Event>, k: Key)
    requires AcceptAll(INITIAL, commit, log).Some?
    ensures Projected(AcceptAll(INITIAL, commit, log).value, k) == StageOf(log, k)
  {
    if log != [] {
      var n, s := LastEvent(commit, log);
      ReplayIsCaseByCase(commit, log[..n], k);
      LogKeepsInv(commit, log[..n]);
      ApplyMoves(s, commit, log[n], k);
    }
  }

  /** The log has completed the suite. */
  ghost predicate Finished(log: seq<Event>) { exists e <- log :: e.body.SuiteCompleted? }

  lemma FinishedOneMore(log: seq<Event>)
    requires log != []
    ensures Finished(log) <==> Finished(log[..|log| - 1]) || log[|log| - 1].body.SuiteCompleted?
  {
    assert log == log[..|log| - 1] + [log[|log| - 1]];
  }

  lemma ApplyHead(s: State, commit: string, e: Event)
    requires Inv(s) && Acceptable(s, commit, e)
    ensures var t := Apply(s, e);
      && t.sequence == Some(e.sequence) && t.run == e.run && (t.terminal <==> e.body.SuiteCompleted?)
      && (e.body.SuiteStarted? ==> s.total.None? && t.total == Some(e.body.total) && e.body.commit == commit)
      && (!e.body.SuiteStarted? ==> s.total.Some? && t.total == s.total)
  {}

  /** The plan is that of the first event, made at the expected commit, and the log is
      terminal once it has completed the suite. */
  lemma {:induction false} ReplayHead(commit: string, log: seq<Event>)
    requires AcceptAll(INITIAL, commit, log).Some? && log != []
    ensures var s := AcceptAll(INITIAL, commit, log).value;
      && log[0].body.SuiteStarted? && log[0].body.commit == commit && s.total == Some(log[0].body.total)
      && (s.terminal <==> Finished(log)) && s.sequence == Some(log[|log| - 1].sequence) && s.run == log[|log| - 1].run
  {
    var n, s := LastEvent(commit, log);
    LogKeepsInv(commit, log[..n]);
    ApplyHead(s, commit, log[n]);
    FinishedOneMore(log);
    if n > 0 { ReplayHead(commit, log[..n]); }
  }

  // ---- Which logs are accepted -------------------------------------------------------------------

  /** An event may follow a log: it starts the suite at the expected commit, or it continues
      the same run, not yet completed, and its case's life; a new case must fit the plan; and
      the suite is completed with every planned case done and counted. */
  ghost predicate MayFollow(commit: string, log: seq<Event>, e: Event) {
    if log == [] then e.body.SuiteStarted? && e.body.commit == commit && 0 < e.body.total <= 16384
    else
      && e.sequence == log[|log| - 1].sequence + 1 && e.run == log[|log| - 1].run
      && !Finished(log) && log[0].body.SuiteStarted?
      && Continues((k: Key) => StageOf(log, k), Mentioned(log), log[0].body.total, e.body)
  }

  /** The mentioned cases that ended so. */
  function Ended(stages: Key -> Stage, mentioned: set<Key>, status: Status): set<Key> {
    set k <- mentioned | stages(k).Done? && stages(k).status == status
  }

  ghost predicate Continues(stages: Key -> Stage, mentioned: set<Key>, planned: nat, body: Body) {
    match body
    case SuiteStarted(_, _) => false
    case CaseQueued(k) => stages(k).Unseen? && |mentioned| < planned
    case CaseStarted(k) => stages(k).Queued?
    case CaseProgress(k, elapsed) => stages(k).Running? && stages(k).elapsed <= elapsed
    case CaseCompleted(k, status) =>
      && !stages(k).Done?
      && (status in {Passed, Status.Failed} ==> stages(k).Running?)
      && (stages(k).Unseen? ==> |mentioned| < planned)
    case SuiteCompleted(total, counts) =>
      && total == planned == |mentioned| && (forall k <- mentioned :: stages(k).Done?)
      && forall status :: counts(status) == |Ended(stages, mentioned, status)|
  }

  /** The state has every case at its stage. */
  ghost predicate Projects(stages: Key -> Stage, mentioned: set<Key>, s: State) {
    Inv(s) && forall k :: Projected(s, k) == stages(k) && (k in mentioned <==> !stages(k).Unseen?)
  }

  lemma ReplayProjects(commit: string, log: seq<Event>)
    requires AcceptAll(INITIAL, commit, log).Some?
    ensures Projects((k: Key) => StageOf(log, k), Mentioned(log), AcceptAll(INITIAL, commit, log).value)
  {
    LogKeepsInv(commit, log);
    forall k
      ensures Projected(AcceptAll(INITIAL, commit, log).value, k) == StageOf(log, k)
      ensures k in Mentioned(log) <==> !StageOf(log, k).Unseen?
    {
      ReplayIsCaseByCase(commit, log, k);
      MentionedAreSeen(log, k);
    }
  }

  lemma ThreeParts(q: set<Key>, a: set<Key>, r: set<Key>)
    requires q !! a && q !! r && a !! r
    ensures |q + a + r| == |q| + |a| + |r|
  {
    assert q + a !! r;
  }

  lemma KnownKeys(s: State, mentioned: set<Key>)
    requires forall k :: k in mentioned <==> !Projected(s, k).Unseen?
    ensures mentioned == s.queued + s.active.Keys + s.rows.Keys
  {
    forall k ensures k in mentioned <==> k in s.queued + s.active.Keys + s.rows.Keys {
      assert k in mentioned <==> !Projected(s, k).Unseen?;
    }
  }

  lemma KnownAreMentioned(stages: Key -> Stage, mentioned: set<Key>, s: State)
    requires Projects(stages, mentioned, s)
    ensures Known(s) == |mentioned| && (s.queued == {} && s.active == map[] ==> |s.rows| == |mentioned|)
  {
    KnownKeys(s, mentioned);
    ThreeParts(s.queued, s.active.Keys, s.rows.Keys);
  }

  /** A case that is not done leaves room for its completion. */
  lemma RoomLeft(s: State, k: Key)
    requires Inv(s) && s.total.Some? && (k in s.queued || k in s.active)
    ensures |s.rows| < s.total.value
  {
    assert k in s.queued ==> |s.queued| > 0;
    assert k in s.active.Keys ==> |s.active.Keys| > 0;
  }

  lemma AllDoneIff(stages: Key -> Stage, mentioned: set<Key>, s: State)
    requires Projects(stages, mentioned, s)
    ensures s.queued == {} && s.active == map[] <==> forall k <- mentioned :: stages(k).Done?
  {
    if forall k <- mentioned :: stages(k).Done? {
      forall k ensures k !in s.queued && k !in s.active { assert Projected(s, k) == stages(k); }
      assert s.queued == {} && s.active.Keys == {};
    } else {
      var k :| k in mentioned && !stages(k).Done?;
      assert Projected(s, k) == stages(k);
    }
  }

  lemma RowsAreDone(stages: Key -> Stage, mentioned: set<Key>, s: State, k: Key)
    requires Projects(stages, mentioned, s)
    ensures k in s.rows <==> stages(k).Done?
    ensures k in s.rows ==> s.rows[k].status == stages(k).status && k in mentioned
  {
    assert Projected(s, k) == stages(k);
  }

  lemma EndedAreCounted(stages: Key -> Stage, mentioned: set<Key>, s: State, status: Status)
    requires Projects(stages, mentioned, s)
    ensures CountOf(s.rows, status) == |Ended(stages, mentioned, status)|
  {
    var counted := set k <- s.rows | s.rows[k].status == status;
    forall k ensures k in counted <==> k in Ended(stages, mentioned, status) { RowsAreDone(stages, mentioned, s, k); }
    assert counted == Ended(stages, mentioned, status);
  }

  lemma CountsMatchIff(stages: Key -> Stage, mentioned: set<Key>, s: State, counts: Status -> nat)
    requires Projects(stages, mentioned, s)
    ensures CountsMatch(s.rows, counts) <==> forall status :: counts(status) == |Ended(stages, mentioned, status)|
  {
    forall status ensures CountOf(s.rows, status) == |Ended(stages, mentioned, status)| {
      EndedAreCounted(stages, mentioned, s, status);
    }
    if CountsMatch(s.rows, counts) {
      forall status ensures counts(status) == |Ended(stages, mentioned, status)| {
        assert status == Passed || status == Status.Failed || status == Cancelled || status == Unavailable;
      }
    }
  }

  lemma CompletionIff(stages: Key -> Stage, mentioned: set<Key>, s: State, e: Event)
    requires Projects(stages, mentioned, s) && s.total.Some? && e.body.SuiteCompleted?
    ensures (e.body.total == s.total.value == |s.rows| && s.active == map[] && s.queued == {} && CountsMatch(s.rows, e.body.counts))
       <==> Continues(stages, mentioned, s.total.value, e.body)
  {
    KnownAreMentioned(stages, mentioned, s);
    AllDoneIff(stages, mentioned, s);
    CountsMatchIff(stages, mentioned, s, e.body.counts);
  }

  lemma DoneIff(stages: Key -> Stage, mentioned: set<Key>, s: State, k: Key, status: Status)
    requires Projects(stages, mentioned, s) && s.total.Some?
    ensures (&& k !in s.rows && |s.rows| < s.total.value && (k in s.active || !Executed(status))
             && (k in s.active || k in s.queued || Known(s) < s.total.value))
       <==> Continues(stages, mentioned, s.total.value, CaseCompleted(k, status))
  {
    KnownAreMentioned(stages, mentioned, s);
    assert Projected(s, k) == stages(k);
    if k in s.queued || k in s.active { RoomLeft(s, k); }
  }

  lemma CaseIff(stages: Key -> Stage, mentioned: set<Key>, s: State, commit: string, e: Event)
    requires Projects(stages, mentioned, s) && s.total.Some? && s.sequence.Some? && !e.body.SuiteCompleted?
    ensures Acceptable(s, commit, e) <==>
      !s.terminal && e.sequence == s.sequence.value + 1 && e.run == s.run && Continues(stages, mentioned, s.total.value, e.body)
  {
    match e.body {
      case SuiteStarted(_, _) =>
      case CaseCompleted(k, status) => DoneIff(stages, mentioned, s, k, status);
      case CaseQueued(k) => KnownAreMentioned(stages, mentioned, s); assert Projected(s, k) == stages(k);
      case CaseStarted(k) => assert Projected(s, k) == stages(k);
      case CaseProgress(k, _) => assert Projected(s, k) == stages(k);
    }
  }

  lemma AcceptableIff(stages: Key -> Stage, mentioned: set<Key>, s: State, commit: string, e: Event)
    requires Projects(stages, mentioned, s) && s.total.Some? && s.sequence.Some?
    ensures Acceptable(s, commit, e) <==>
      !s.terminal && e.sequence == s.sequence.value + 1 && e.run == s.run && Continues(stages, mentioned, s.total.value, e.body)
  {
    if e.body.SuiteCompleted? {
      CompletionIff(stages, mentioned, s, e);
    } else {
      CaseIff(stages, mentioned, s, commit, e);
    }
  }

  lemma AcceptableIffMayFollow(commit: string, log: seq<Event>, s: State, e: Event)
    requires AcceptAll(INITIAL, commit, log) == Some(s)
    ensures Acceptable(s, commit, e) <==> MayFollow(commit, log, e)
  {
    if log != [] {
      ReplayHead(commit, log);
      ReplayProjects(commit, log);
      AcceptableIff((k: Key) => StageOf(log, k), Mentioned(log), s, commit, e);
    }
  }

  /** Each event of the log may follow those before it. */
  ghost predicate Follows(commit: string, log: seq<Event>) {
    forall n :: 0 <= n < |log| ==> MayFollow(commit, log[..n], log[n])
  }

  lemma FollowsOneMore(commit: string, log: seq<Event>)
    requires log != []
    ensures Follows(commit, log) <==> Follows(commit, log[..|log| - 1]) && MayFollow(commit, log[..|log| - 1], log[|log| - 1])
  {
    var front := log[..|log| - 1];
    forall m | 0 <= m < |front| ensures front[..m] == log[..m] && front[m] == log[m] {}
    if Follows(commit, front) && MayFollow(commit, front, log[|log| - 1]) {
      forall m | 0 <= m < |log| ensures MayFollow(commit, log[..m], log[m]) {
        if m < |front| { assert MayFollow(commit, front[..m], front[m]); }
      }
    }
    if Follows(commit, log) {
      forall m | 0 <= m < |front| ensures MayFollow(commit, front[..m], front[m]) { assert MayFollow(commit, log[..m], log[m]); }
    }
  }

  /** A log is accepted if and only if each of its events may follow those before it. */
  lemma {:induction false} AcceptedIff(commit: string, log: seq<Event>)
    ensures AcceptAll(INITIAL, commit, log).Some? <==> Follows(commit, log)
  {
    if log != [] {
      var n := |log| - 1;
      AcceptedIff(commit, log[..n]);
      FollowsOneMore(commit, log);
      if AcceptAll(INITIAL, commit, log[..n]).Some? {
        AcceptableIffMayFollow(commit, log[..n], AcceptAll(INITIAL, commit, log[..n]).value, log[n]);
      }
    }
  }
}
