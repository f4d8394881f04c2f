/** The suite progress replay of scripts/ci/manual_harness.py, class `Replay`: an
    event-sourced projection fed by an incremental reader of an append-only file. */
module ProgressReplay {

  datatype Option<T> = None | Some(value: T)

  type Bytes = seq<bv8>

  const MAX_RECORD: nat := 262_144
  const MAX_FILE: nat := 32 * 1024 * 1024
  const MAX_TOTAL: nat := 16384

  datatype Key = Key(caseName: string, model: string, runIndex: nat)
  datatype Status = Passed | Failed | Cancelled | Unavailable

  /** The payload of a structurally valid event. */
  datatype Body =
    | SuiteStarted(total: nat, commit: string)
    | CaseQueued(key: Key)
    | CaseStarted(key: Key)
    | CaseProgress(key: Key, elapsed: nat)
    | CaseCompleted(key: Key, status: Status)
    | SuiteCompleted(total: nat, counts: Status -> nat)

  datatype Event = Event(sequence: nat, run: string, body: Body)

  /** What decoding a line gives: a record that fails JSON, schema, field or value
      checks, an observation error, or an event. */
  datatype Parsed = Malformed | Observation | Valid(event: Event)

  datatype Row = Row(status: Status, elapsed: Option<nat>)

  datatype State = State(total: Option<nat>, sequence: Option<nat>, run: string, terminal: bool,
                         queued: set<Key>, active: map<Key, nat>, rows: map<Key, Row>)

  const INITIAL := State(None, None, "", false, {}, map[], map[])

  // ---- Accepting one event -----------------------------------------------------------------

  function Known(s: State): nat { |s.queued| + |s.active.Keys| + |s.rows.Keys| }

  function CountOf(rows: map<Key, Row>, status: Status): nat {
    |set k <- rows | rows[k].status == status|
  }

  predicate Executed(status: Status) { status == Passed || status == Failed }

  /** The checks `accept` makes before it changes anything. */
  predicate Acceptable(s: State, commit: string, e: Event) {
    && !s.terminal
    && (s.sequence.Some? ==> e.sequence == s.sequence.value + 1 && e.run == s.run)
    && (s.total.None? <==> e.body.SuiteStarted?)
    && match e.body
       case SuiteStarted(total, c) => c == commit && 0 < total <= MAX_TOTAL
       case CaseQueued(k) =>
         k !in s.queued && k !in s.active && k !in s.rows && Known(s) < s.total.value
       case CaseStarted(k) => k in s.queued
       case CaseProgress(k, elapsed) => k in s.active && elapsed >= s.active[k]
       case CaseCompleted(k, status) =>
         && k !in s.rows && |s.rows| < s.total.value
         && (k in s.active || !Executed(status))
         && (k in s.active || k in s.queued || Known(s) < s.total.value)
       case SuiteCompleted(total, counts) =>
         && total == s.total.value == |s.rows|
         && s.active == map[] && s.queued == {}
         && CountsMatch(s.rows, counts)
  }

  predicate CountsMatch(rows: map<Key, Row>, counts: Status -> nat) {
    && counts(Passed) == CountOf(rows, Passed) && counts(Failed) == CountOf(rows, Failed)
    && counts(Cancelled) == CountOf(rows, Cancelled) && counts(Unavailable) == CountOf(rows, Unavailable)
  }

  function Apply(s: State, e: Event): State {
    var t := match e.body
      case SuiteStarted(total, _) => s.(total := Some(total))
      case CaseQueued(k) => s.(queued := s.queued + {k})
      case CaseStarted(k) => s.(queued := s.queued - {k}, active := s.active[k := 0])
      case CaseProgress(k, elapsed) => s.(active := s.active[k := elapsed])
      case CaseCompleted(k, status) =>
        var elapsed := if k in s.active then Some(s.active[k]) else None;
        s.(queued := s.queued - {k}, active := s.active - {k}, rows := s.rows[k := Row(status, elapsed)])
      case SuiteCompleted(_, _) => s.(terminal := true);
    t.(sequence := Some(e.sequence), run := e.run)
  }

  // ---- What every log keeps ---------------------------------------------------------------

  /** The queued, active and completed cases are disjoint and within the plan; nothing is
      known before the plan, and a terminal log has completed it. */
  predicate Books(q: set<Key>, a: set<Key>, r: set<Key>, total: Option<nat>, terminal: bool) {
    && q !! a && q !! r && a !! r
    && match total
       case None => |q| + |a| + |r| == 0 && !terminal
       case Some(n) => |q| + |a| + |r| <= n && 0 < n <= MAX_TOTAL && (terminal ==> q == {} && a == {} && |r| == n)
  }

  predicate Inv(s: State) {
    && Books(s.queued, s.active.Keys, s.rows.Keys, s.total, s.terminal)
    && (s.total.Some? <==> s.sequence.Some?)
  }

  lemma StartBooks(q: set<Key>, a: set<Key>, r: set<Key>, total: Option<nat>, k: Key)
    requires Books(q, a, r, total, false) && k in q
    ensures Books(q - {k}, a + {k}, r, total, false)
  {
    assert |q - {k}| == |q| - 1 && |a + {k}| == |a| + 1;
  }

  lemma Without(s: set<Key>, k: Key)
    ensures |s - {k}| == if k in s then |s| - 1 else |s|
  {
    if k !in s { assert s - {k} == s; }
  }

  lemma CompletionBooks(q: set<Key>, a: set<Key>, r: set<Key>, total: Option<nat>, k: Key)
    requires Books(q, a, r, total, false) && total.Some? && k !in r
    requires k in a || k in q || |q| + |a| + |r| < total.value
    ensures Books(q - {k}, a - {k}, r + {k}, total, false)
  {
    Without(q, k);
    Without(a, k);
    assert |r + {k}| == |r| + 1;
  }

  lemma StartKeepsInv(s: State, commit: string, e: Event)
    requires Inv(s) && Acceptable(s, commit, e) && e.body.CaseStarted?
    ensures Inv(Apply(s, e))
  {
    StartBooks(s.queued, s.active.Keys, s.rows.Keys, s.total, e.body.key);
    assert Apply(s, e).active.Keys == s.active.Keys + {e.body.key};
  }

  lemma ProgressKeepsInv(s: State, commit: string, e: Event)
    requires Inv(s) && Acceptable(s, commit, e) && e.body.CaseProgress?
    ensures Inv(Apply(s, e))
  {
    assert Apply(s, e).active.Keys == s.active.Keys;
  }

  lemma CompletionKeepsInv(s: State, commit: string, e: Event)
    requires Inv(s) && Acceptable(s, commit, e) && e.body.CaseCompleted?
    ensures Inv(Apply(s, e))
  {
    CompletionKeys(s, e);
    CompletionBooks(s.queued, s.active.Keys, s.rows.Keys, s.total, e.body.key);
  }

  lemma CompletionKeys(s: State, e: Event)
    requires e.body.CaseCompleted?
    ensures var t, k := Apply(s, e), e.body.key;
      && t.queued == s.queued - {k} && t.active.Keys == s.active.Keys - {k} && t.rows.Keys == s.rows.Keys + {k}
      && t.total == s.total && t.terminal == s.terminal && t.sequence.Some?
  {}

  lemma OtherKeepsInv(s: State, commit: string, e: Event)
    requires Inv(s) && Acceptable(s, commit, e) && (e.body.SuiteStarted? || e.body.CaseQueued? || e.body.SuiteCompleted?)
    ensures Inv(Apply(s, e))
  {}

  lemma ApplyKeepsInv(s: State, commit: string, e: Event)
    requires Inv(s) && Acceptable(s, commit, e)
    ensures Inv(Apply(s, e))
  {
    match e.body {
      case CaseStarted(_) => StartKeepsInv(s, commit, e);
      case CaseProgress(_, _) => ProgressKeepsInv(s, commit, e);
      case CaseCompleted(_, _) => CompletionKeepsInv(s, commit, e);
      case _ => OtherKeepsInv(s, commit, e);
    }
  }

  /** The state after a log, None once an event is not acceptable. */
  function AcceptAll(s: State, commit: string, log: seq<Event>): Option<State> {
    if log == [] then Some(s)
    else
      var n := |log| - 1;
      match AcceptAll(s, commit, log[..n])
      case None => None
      case Some(t) => if Acceptable(t, commit, log[n]) then Some(Apply(t, log[n])) else None
  }

  lemma AcceptOneMore(commit: string, log: seq<Event>, s: State, e: Event)
    requires AcceptAll(INITIAL, commit, log) == Some(s) && Acceptable(s, commit, e)
    ensures AcceptAll(INITIAL, commit, log + [e]) == Some(Apply(s, e))
  {
    assert (log + [e])[..|log|] == log;
  }

  lemma {:induction false} LogKeepsInv(commit: string, log: seq<Event>)
    requires AcceptAll(INITIAL, commit, log).Some?
    ensures Inv(AcceptAll(INITIAL, commit, log).value)
    ensures log != [] ==> AcceptAll(INITIAL, commit, log).value.sequence == Some(log[|log| - 1].sequence)
    ensures log != [] ==> AcceptAll(INITIAL, commit, log).value.run == log[|log| - 1].run
    ensures log == [] <==> AcceptAll(INITIAL, commit, log).value.sequence.None?
  {
    if log != [] {
      var n := |log| - 1;
      LogKeepsInv(commit, log[..n]);
      ApplyKeepsInv(AcceptAll(INITIAL, commit, log[..n]).value, commit, log[n]);
    }
  }

  /** The last event of an accepted log was acceptable after the rest of it. */
  lemma LastEvent(commit: string, log: seq<Event>) returns (n: nat, s: State)
    requires AcceptAll(INITIAL, commit, log).Some? && log != []
    ensures n == |log| - 1 && AcceptAll(INITIAL, commit, log[..n]) == Some(s)
    ensures Acceptable(s, commit, log[n]) && AcceptAll(INITIAL, commit, log) == Some(Apply(s, log[n]))
  {
    n := |log| - 1;
    s := AcceptAll(INITIAL, commit, log[..n]).value;
  }

  lemma LastSequence(commit: string, log: seq<Event>)
    requires AcceptAll(INITIAL, commit, log).Some? && |log| > 1
    ensures log[|log| - 1].sequence == log[|log| - 2].sequence + 1 && log[|log| - 1].run == log[|log| - 2].run
  {
    var n, s := LastEvent(commit, log);
    LogKeepsInv(commit, log[..n]);
  }

  /** Accepted sequence numbers are consecutive and belong to one run. */
  lemma SequenceIsConsecutive(commit: string, log: seq<Event>)
    requires AcceptAll(INITIAL, commit, log).Some?
    ensures forall k :: 0 <= k < |log| ==> log[k].sequence == log[0].sequence + k && log[k].run == log[0].run
  {
    forall k | 0 < k < |log| ensures log[k].sequence == log[k - 1].sequence + 1 && log[k].run == log[k - 1].run {
      AdjacentSequence(commit, log, k);
    }
    StepsAddUp(log, |log|);
  }

  lemma {:induction false} StepsAddUp(log: seq<Event>, n: nat)
    requires n <= |log|
    requires forall k :: 0 < k < |log| ==> log[k].sequence == log[k - 1].sequence + 1 && log[k].run == log[k - 1].run
    ensures forall k :: 0 <= k < n ==> log[k].sequence == log[0].sequence + k && log[k].run == log[0].run
  {
    if n > 1 {
      StepsAddUp(log, n - 1);
      var m := n - 2;
      assert log[m + 1].sequence == log[m].sequence + 1 && log[m].sequence == log[0].sequence + m;
      assert log[m + 1].run == log[m].run && log[m].run == log[0].run;
    }
  }

  lemma AdjacentSequence(commit: string, log: seq<Event>, k: nat)
    requires AcceptAll(INITIAL, commit, log).Some? && 0 < k < |log|
    ensures log[k].sequence == log[k - 1].sequence + 1 && log[k].run == log[k - 1].run
  {
    var front := log[..k + 1];
    PrefixAccepted(commit, log, k + 1);
    LastSequence(commit, front);
    assert front[k] == log[k] && front[k - 1] == log[k - 1];
  }

  lemma {:induction false} PrefixAccepted(commit: string, log: seq<Event>, n: nat)
    requires AcceptAll(INITIAL, commit, log).Some? && n <= |log|
    ensures AcceptAll(INITIAL, commit, log[..n]).Some?
    decreases |log|
  {
    if n == |log| {
      assert log[..n] == log;
    } else {
      var front := log[..|log| - 1];
      assert front[..n] == log[..n];
      PrefixAccepted(commit, front, n);
    }
  }

  /** The log holds a queueing, then a start, of k before position m. */
  predicate StartedBefore(log: seq<Event>, k: Key, m: nat)
    requires m <= |log|
  {
    exists i, j :: 0 <= i < j < m && log[i].body == CaseQueued(k) && log[j].body == CaseStarted(k)
  }

  lemma StartedBeforeGrows(log: seq<Event>, n: nat, k: Key, m: nat)
    requires m <= n <= |log| && StartedBefore(log[..n], k, m)
    ensures StartedBefore(log, k, m)
  {
    var i, j :| 0 <= i < j < m && log[..n][i].body == CaseQueued(k) && log[..n][j].body == CaseStarted(k);
    assert log[i].body == CaseQueued(k) && log[j].body == CaseStarted(k);
  }

  lemma {:induction false} QueuedWasQueued(commit: string, log: seq<Event>, k: Key) returns (i: nat)
    requires AcceptAll(INITIAL, commit, log).Some? && k in AcceptAll(INITIAL, commit, log).value.queued
    ensures i < |log| && log[i].body == CaseQueued(k)
  {
    var n := |log| - 1;
    if log[n].body == CaseQueued(k) {
      i := n;
    } else {
      i := QueuedWasQueued(commit, log[..n], k);
    }
  }

  lemma {:induction false} ActiveWasStarted(commit: string, log: seq<Event>, k: Key)
    requires AcceptAll(INITIAL, commit, log).Some? && k in AcceptAll(INITIAL, commit, log).value.active
    ensures StartedBefore(log, k, |log|)
  {
    var n := |log| - 1;
    var before := AcceptAll(INITIAL, commit, log[..n]).value;
    if log[n].body == CaseStarted(k) {
      var i := QueuedWasQueued(commit, log[..n], k);
      assert log[i].body == CaseQueued(k);
    } else {
      ActiveWasStarted(commit, log[..n], k);
      StartedBeforeGrows(log, n, k, n);
    }
  }

  lemma NewRow(s: State, commit: string, e: Event, k: Key)
    requires Acceptable(s, commit, e) && k !in s.rows && k in Apply(s, e).rows
    ensures e.body == CaseCompleted(k, Apply(s, e).rows[k].status)
    ensures Executed(e.body.status) ==> k in s.active
  {}

  lemma OldRow(s: State, commit: string, e: Event, k: Key)
    requires Acceptable(s, commit, e) && k in s.rows
    ensures k in Apply(s, e).rows && Apply(s, e).rows[k] == s.rows[k]
  {}

  /** A passed or failed row was completed with that status after being queued and
      started; every row was completed with its status. */
  lemma {:induction false} RowsWereExecuted(commit: string, log: seq<Event>, k: Key) returns (m: nat)
    requires AcceptAll(INITIAL, commit, log).Some? && k in AcceptAll(INITIAL, commit, log).value.rows
    ensures m < |log| && log[m].body == CaseCompleted(k, AcceptAll(INITIAL, commit, log).value.rows[k].status)
    ensures Executed(AcceptAll(INITIAL, commit, log).value.rows[k].status) ==> StartedBefore(log, k, m)
  {
    var n, before := LastEvent(commit, log);
    if k !in before.rows {
      m := n;
      NewRow(before, commit, log[n], k);
      if Executed(log[n].body.status) {
        ActiveWasStarted(commit, log[..n], k);
        StartedBeforeGrows(log, n, k, n);
      }
    } else {
      OldRow(before, commit, log[n], k);
      m := RowsWereExecuted(commit, log[..n], k);
      if Executed(before.rows[k].status) { StartedBeforeGrows(log, n, k, m); }
    }
  }

  /** The number of completions in a log. */
  function Completions(log: seq<Event>): nat {
    if log == [] then 0 else Completions(log[..|log| - 1]) + (if log[|log| - 1].body.CaseCompleted? then 1 else 0)
  }

  lemma {:induction false} EveryCompletionIsARow(commit: string, log: seq<Event>)
    requires AcceptAll(INITIAL, commit, log).Some?
    ensures |AcceptAll(INITIAL, commit, log).value.rows| == Completions(log)
  {
    if log != [] {
      var n := |log| - 1;
      EveryCompletionIsARow(commit, log[..n]);
      var s := AcceptAll(INITIAL, commit, log[..n]).value;
      if log[n].body.CaseCompleted? {
        assert Apply(s, log[n]).rows.Keys == s.rows.Keys + {log[n].body.key};
      }
    }
  }

  // ---- Counts and summary -----------------------------------------------------------------

  datatype Counts = Counts(planned: Option<nat>, completed: nat, passed: nat, failed: nat, cancelled: nat,
                           unavailable: nat, running: nat, waiting: nat, unobserved: Option<int>)

  function CountsOf(s: State): Counts {
    Counts(s.total, |s.rows|, CountOf(s.rows, Passed), CountOf(s.rows, Failed), CountOf(s.rows, Cancelled),
           CountOf(s.rows, Unavailable), |s.active|, |s.queued|,
           if s.total.None? then None else Some(s.total.value - |s.rows| - |s.active| - |s.queued|))
  }

  /** The counts add up: every status is counted once, and every planned case is
      completed, running, waiting or not yet observed. */
  lemma CountsAddUp(commit: string, log: seq<Event>)
    requires AcceptAll(INITIAL, commit, log).Some?
    ensures var c := CountsOf(AcceptAll(INITIAL, commit, log).value);
      && c.completed == c.passed + c.failed + c.cancelled + c.unavailable
      && (c.planned.Some? ==> c.unobserved.value >= 0 && c.planned.value == c.completed + c.running + c.waiting + c.unobserved.value)
  {
    LogKeepsInv(commit, log);
    StatusesPartition(AcceptAll(INITIAL, commit, log).value.rows);
  }

  function WithStatus(rows: map<Key, Row>, status: Status): (keys: set<Key>)
    ensures |keys| == CountOf(rows, status)
    ensures forall k :: k in keys <==> k in rows && rows[k].status == status
  {
    set k <- rows | rows[k].status == status
  }

  lemma StatusesPartition(rows: map<Key, Row>)
    ensures |rows| == CountOf(rows, Passed) + CountOf(rows, Failed) + CountOf(rows, Cancelled) + CountOf(rows, Unavailable)
  {
    FourParts(WithStatus(rows, Passed), WithStatus(rows, Failed), WithStatus(rows, Cancelled), WithStatus(rows, Unavailable));
    StatusesCover(rows);
  }

  lemma StatusesCover(rows: map<Key, Row>)
    ensures |rows| == |WithStatus(rows, Passed) + WithStatus(rows, Failed) + WithStatus(rows, Cancelled) + WithStatus(rows, Unavailable)|
  {
    assert rows.Keys == WithStatus(rows, Passed) + WithStatus(rows, Failed) + WithStatus(rows, Cancelled) + WithStatus(rows, Unavailable);
  }

  lemma FourParts(p: set<Key>, f: set<Key>, c: set<Key>, u: set<Key>)
    requires p !! f && p !! c && p !! u && f !! c && f !! u && c !! u
    ensures |p + f + c + u| == |p| + |f| + |c| + |u|
  {
    assert p + f !! c && p + f + c !! u;
  }

  datatype Execution = Execution(exitCode: Option<int>, finished: bool)

  predicate Success(s: State, error: bool, x: Execution, stepSucceeded: bool) {
    && s.terminal && !error
    && x.exitCode == Some(0) && x.finished && stepSucceeded
    && forall k <- s.rows :: s.rows[k].status == Passed
  }

  /** Success means that the log completed exactly the planned number of distinct cases,
      each of them passed after being queued and started. */
  lemma SuccessMeansAllPassed(commit: string, log: seq<Event>, x: Execution, stepSucceeded: bool)
    requires AcceptAll(INITIAL, commit, log).Some? && Success(AcceptAll(INITIAL, commit, log).value, false, x, stepSucceeded)
    ensures var s := AcceptAll(INITIAL, commit, log).value;
      && s.total == Some(|s.rows|) && |s.rows| == Completions(log) > 0
      && CountOf(s.rows, Passed) == |s.rows|
      && forall k <- s.rows :: exists m :: 0 <= m < |log| && log[m].body == CaseCompleted(k, Passed) && StartedBefore(log, k, m)
  {
    var s := AcceptAll(INITIAL, commit, log).value;
    LogKeepsInv(commit, log);
    EveryCompletionIsARow(commit, log);
    assert (set k <- s.rows | s.rows[k].status == Passed) == s.rows.Keys;
    forall k | k in s.rows
      ensures exists m :: 0 <= m < |log| && log[m].body == CaseCompleted(k, Passed) && StartedBefore(log, k, m)
    {
      var m := RowsWereExecuted(commit, log, k);
    }
  }
}
