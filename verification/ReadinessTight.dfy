/** The time preflight grants the readiness pool is not more than the pool can take: for one
    worker every list of tasks has a run that takes all of it, and for any number of workers
    some list has. */
module ReadinessTight {
  import opened ReadinessSchedule

  ghost predicate Reaches(tasks: seq<Task>, p: Pool, q: Pool) { exists steps :: Run(tasks, p, steps, q) }

  lemma {:induction false} RunOneMore(tasks: seq<Task>, p: Pool, steps: seq<Step>, q: Pool, a: Step)
    requires Run(tasks, p, steps, q) && WellFormed(tasks, q) && Enabled(tasks, q, a)
    ensures Run(tasks, p, steps + [a], Next(tasks, q, a))
    decreases |steps|
  {
    if steps == [] {
      assert (steps + [a])[1..] == [];
    } else {
      assert (steps + [a])[1..] == steps[1..] + [a];
      RunOneMore(tasks, Next(tasks, p, steps[0]), steps[1..], q, a);
    }
  }

  /** One more step. */
  lemma Reach(tasks: seq<Task>, p: Pool, q: Pool, a: Step) returns (r: Pool)
    requires Reaches(tasks, p, q) && WellFormed(tasks, q) && Enabled(tasks, q, a)
    ensures r == Next(tasks, q, a) && Reaches(tasks, p, r)
  {
    r := Next(tasks, q, a);
    var steps :| Run(tasks, p, steps, q);
    RunOneMore(tasks, p, steps, q, a);
  }

  /** The first `next` tasks are claimed, and nothing has failed. */
  predicate Open(tasks: seq<Task>, q: Pool, next: nat, now: real) {
    |q.outcomes| == |tasks| && q.next == next <= |tasks| && !q.closed && q.now == now
  }

  /** Worker 0 has this slot, and the others have left. */
  predicate Alone(q: Pool, c: nat, s: Slot) {
    |q.workers| == c > 0 && q.workers[0] == s && forall w :: 0 < w < c ==> q.workers[w] == Exited
  }

  // ---- One worker that takes its time ------------------------------------------------------

  /** The one worker at work lets all its time pass. */
  lemma Passes(tasks: seq<Task>, p: Pool, q: Pool, c: nat, next: nat) returns (r: Pool)
    requires Reaches(tasks, p, q) && Open(tasks, q, next, q.now) && |q.workers| > 0 && Alone(q, c, q.workers[0])
    requires q.workers[0].Active() && q.workers[0].left >= 0.0 && q.workers[0].task < |tasks|
    ensures Reaches(tasks, p, r) && Open(tasks, r, next, q.now + q.workers[0].left)
    ensures Alone(r, c, Age(q.workers[0], q.workers[0].left))
  {
    r := q;
    if q.workers[0].left > 0.0 {
      assert q.workers[0] in q.workers;
      forall s | s in q.workers ensures s == q.workers[0] || s == Exited {
        var k :| 0 <= k < |q.workers| && q.workers[k] == s;
      }
      r := Reach(tasks, p, q, Elapse(q.workers[0].left));
    }
  }

  lemma Moves(tasks: seq<Task>, p: Pool, q: Pool, a: Step, c: nat, next: nat, s: Slot) returns (r: Pool)
    requires Reaches(tasks, p, q) && Open(tasks, q, next, q.now) && |q.workers| > 0 && Alone(q, c, q.workers[0])
    requires q.workers[0].Busy() ==> q.workers[0].left >= 0.0 && q.workers[0].task < |tasks|
    requires a in {CacheHit(0), EnterLane(0), Materialized(0), Record(0)} && Enabled(tasks, q, a)
    requires s == match a
                  case EnterLane(_) => Pulling(q.workers[0].task, q.workers[0].left)
                  case Record(_) => Free
                  case _ => Probing(q.workers[0].task, tasks[q.workers[0].task].tail)
    ensures Reaches(tasks, p, r) && Open(tasks, r, next, q.now) && Alone(r, c, s)
  {
    forall x | x in q.workers ensures x == q.workers[0] || x == Exited {
      var k :| 0 <= k < |q.workers| && q.workers[k] == x;
    }
    r := Reach(tasks, p, q, a);
  }

  /** The slot of a task just claimed. */
  function Claimed(tasks: seq<Task>, i: nat): Slot
    requires i < |tasks|
  {
    if tasks[i].pinned then Inspecting(i, tasks[i].mat) else Waiting(i, tasks[i].mat)
  }

  /** A claimed task takes its whole budget. */
  lemma Serves(tasks: seq<Task>, p: Pool, q: Pool, c: nat, next: nat, i: nat) returns (r: Pool)
    requires ValidTasks(tasks) && i < |tasks| && Reaches(tasks, p, q)
    requires Open(tasks, q, next, q.now) && Alone(q, c, Claimed(tasks, i))
    ensures Reaches(tasks, p, r) && Open(tasks, r, next, q.now + tasks[i].mat + tasks[i].tail) && Alone(r, c, Free)
  {
    assert tasks[i] in tasks;
    r := q;
    if tasks[i].pinned {
      r := Passes(tasks, p, r, c, next);
      r := Moves(tasks, p, r, CacheHit(0), c, next, Probing(i, tasks[i].tail));
    } else {
      forall s | s in r.workers ensures !s.Pulling? {
        var k :| 0 <= k < |r.workers| && r.workers[k] == s;
      }
      r := Moves(tasks, p, r, EnterLane(0), c, next, Pulling(i, tasks[i].mat));
      r := Passes(tasks, p, r, c, next);
      r := Moves(tasks, p, r, Materialized(0), c, next, Probing(i, tasks[i].tail));
    }
    r := Passes(tasks, p, r, c, next);
    r := Moves(tasks, p, r, Record(0), c, next, Free);
  }

  lemma {:induction false} ServesFrom(tasks: seq<Task>, p: Pool, q: Pool, k: nat) returns (r: Pool)
    requires ValidTasks(tasks) && k <= |tasks| && Reaches(tasks, p, q) && Open(tasks, q, k, q.now) && Alone(q, 1, Free)
    ensures Reaches(tasks, p, r) && r.now == q.now + MatFrom(tasks, k) + TailFrom(tasks, k)
    decreases |tasks| - k
  {
    r := q;
    if k < |tasks| {
      forall s | s in q.workers ensures s == Free {
        var j :| 0 <= j < |q.workers| && q.workers[j] == s;
      }
      r := Reach(tasks, p, r, Claim(0));
      r := Serves(tasks, p, r, 1, k + 1, k);
      r := ServesFrom(tasks, p, r, k + 1);
    }
  }

  /** One worker can take exactly the granted time on every list of tasks. */
  lemma AttainedAlone(tasks: seq<Task>)
    requires ValidTasks(tasks) && tasks != []
    ensures exists steps, q :: Run(tasks, Init(tasks, 1), steps, q) && q.now == Bound(tasks, 1)
  {
    var p := Init(tasks, 1);
    assert Run(tasks, p, [], p);
    var q := ServesFrom(tasks, p, p, 0);
    assert Bound(tasks, 1) == MatFrom(tasks, 0) + TailFrom(tasks, 0);
    var steps :| Run(tasks, p, steps, q);
  }

  // ---- Any number of workers -----------------------------------------------------------------

  /** n rounds of c tasks. */
  function Units(n: nat, c: nat): nat { if n == 0 then 0 else c + Units(n - 1, c) }

  /** As many tails of one unit as keep c workers busy for c - 1 units, and then one of c units,
      which also has an image to materialize. */
  function Tight(c: nat, mat: real, unit: real): (tasks: seq<Task>)
    requires c > 0
    ensures |tasks| == Units(c - 1, c) + 1
  {
    seq(Units(c - 1, c), _ => Task(true, 0.0, unit)) + [Task(true, mat, Times(c, unit))]
  }

  /** Workers from `from` to below `to` probe, each its own task from `first` on; the others
      are free. */
  predicate Probe(q: Pool, c: nat, first: nat, from: nat, to: nat, left: real) {
    && |q.workers| == c && from <= to <= c
    && forall w :: 0 <= w < c ==> q.workers[w] == if from <= w < to then Probing(first + w, left) else Free
  }

  lemma ProbeSlots(q: Pool, c: nat, first: nat, from: nat, to: nat, left: real)
    requires Probe(q, c, first, from, to, left)
    ensures forall s <- q.workers :: s == Free || (s.Probing? && first <= s.task < first + c && s.left == left)
    ensures from == 0 && to == c ==> forall s <- q.workers :: s.Probing?
  {
    forall s | s in q.workers
      ensures s == Free || (s.Probing? && first <= s.task < first + c && s.left == left)
      ensures from == 0 && to == c ==> s.Probing?
    {
      var k :| 0 <= k < |q.workers| && q.workers[k] == s;
    }
  }

  predicate UnitTasks(tasks: seq<Task>, first: nat, n: nat, unit: real) {
    first + n <= |tasks| && forall i :: first <= i < first + n ==> tasks[i] == Task(true, 0.0, unit)
  }

  lemma {:induction false} Claims(tasks: seq<Task>, p: Pool, q: Pool, c: nat, first: nat, k: nat, unit: real) returns (r: Pool)
    requires Reaches(tasks, p, q) && k <= c && unit >= 0.0 && UnitTasks(tasks, first, c, unit)
    requires Open(tasks, q, first + k, q.now) && Probe(q, c, first, 0, k, unit)
    ensures Reaches(tasks, p, r) && Open(tasks, r, first + c, q.now) && Probe(r, c, first, 0, c, unit)
    decreases c - k
  {
    r := q;
    if k < c {
      ProbeSlots(q, c, first, 0, k, unit);
      r := Reach(tasks, p, r, Claim(k));
      forall s | s in r.workers ensures s.Busy() ==> s.task < |tasks| && s.left >= 0.0 {
        var j :| 0 <= j < |r.workers| && r.workers[j] == s;
      }
      r := Reach(tasks, p, r, CacheHit(k));
      r := Claims(tasks, p, r, c, first, k + 1, unit);
    }
  }

  lemma {:induction false} Records(tasks: seq<Task>, p: Pool, q: Pool, c: nat, first: nat, k: nat) returns (r: Pool)
    requires Reaches(tasks, p, q) && k <= c && first + c <= |tasks|
    requires Open(tasks, q, first + c, q.now) && Probe(q, c, first, k, c, 0.0)
    ensures Reaches(tasks, p, r) && Open(tasks, r, first + c, q.now) && Probe(r, c, first, c, c, 0.0)
    decreases c - k
  {
    r := q;
    if k < c {
      ProbeSlots(q, c, first, k, c, 0.0);
      r := Reach(tasks, p, r, Record(k));
      r := Records(tasks, p, r, c, first, k + 1);
    }
  }

  /** All workers serve one unit task each at the same time. */
  lemma Round(tasks: seq<Task>, p: Pool, q: Pool, c: nat, first: nat, unit: real) returns (r: Pool)
    requires Reaches(tasks, p, q) && c > 0 && unit > 0.0 && UnitTasks(tasks, first, c, unit)
    requires Open(tasks, q, first, q.now) && Probe(q, c, first, 0, 0, unit)
    ensures Reaches(tasks, p, r) && Open(tasks, r, first + c, q.now + unit) && Probe(r, c, first, c, c, 0.0)
  {
    r := Claims(tasks, p, q, c, first, 0, unit);
    ProbeSlots(r, c, first, 0, c, unit);
    assert r.workers[0] in r.workers;
    r := Reach(tasks, p, r, Elapse(unit));
    r := Records(tasks, p, r, c, first, 0);
  }

  lemma {:induction false} Rounds(tasks: seq<Task>, p: Pool, q: Pool, c: nat, first: nat, n: nat, unit: real) returns (r: Pool)
    requires Reaches(tasks, p, q) && c > 0 && unit > 0.0 && UnitTasks(tasks, first, Units(n, c), unit)
    requires Open(tasks, q, first, q.now) && Probe(q, c, 0, 0, 0, unit)
    ensures Reaches(tasks, p, r) && Open(tasks, r, first + Units(n, c), q.now + Times(n, unit)) && Probe(r, c, 0, 0, 0, unit)
    decreases n
  {
    r := q;
    if n > 0 {
      r := Round(tasks, p, r, c, first, unit);
      r := Rounds(tasks, p, r, c, first + c, n - 1, unit);
    }
  }

  /** Worker 0 serves one task; the workers up to k have left, and the others will. */
  predicate Leaving(q: Pool, c: nat, k: nat, s: Slot) {
    && |q.workers| == c && 0 < k <= c && q.workers[0] == s
    && forall w :: 0 < w < c ==> q.workers[w] == if w < k then Exited else Free
  }

  lemma {:induction false} OthersLeave(tasks: seq<Task>, p: Pool, q: Pool, c: nat, k: nat, s: Slot) returns (r: Pool)
    requires Reaches(tasks, p, q) && Open(tasks, q, |tasks|, q.now) && Leaving(q, c, k, s)
    requires s.Busy() ==> s.task < |tasks| && s.left >= 0.0
    ensures Reaches(tasks, p, r) && Open(tasks, r, |tasks|, q.now) && Alone(r, c, s)
    decreases c - k
  {
    r := q;
    if k < c {
      forall x | x in q.workers ensures x == s || x == Free || x == Exited {
        var j :| 0 <= j < |q.workers| && q.workers[j] == x;
      }
      r := Reach(tasks, p, r, Leave(k));
      r := OthersLeave(tasks, p, r, c, k + 1, s);
    }
  }

  /** The last task is served while the other workers have nothing to do. */
  lemma Last(tasks: seq<Task>, p: Pool, q: Pool, c: nat, unit: real) returns (r: Pool)
    requires Reaches(tasks, p, q) && c > 0 && ValidTasks(tasks) && tasks != []
    requires Open(tasks, q, |tasks| - 1, q.now) && Probe(q, c, 0, 0, 0, unit)
    ensures Reaches(tasks, p, r) && r.now == q.now + tasks[|tasks| - 1].mat + tasks[|tasks| - 1].tail
  {
    var i := |tasks| - 1;
    assert tasks[i] in tasks;
    ProbeSlots(q, c, 0, 0, 0, unit);
    r := Reach(tasks, p, q, Claim(0));
    r := OthersLeave(tasks, p, r, c, 1, Claimed(tasks, i));
    r := Serves(tasks, p, r, c, |tasks|, i);
  }

  // ---- What preflight grants the tight list -----------------------------------------------------

  lemma {:induction false} TightSums(c: nat, mat: real, unit: real, k: nat)
    requires c > 0 && k <= Units(c - 1, c)
    ensures MatFrom(Tight(c, mat, unit), k) == mat
    ensures TailFrom(Tight(c, mat, unit), k) == Times(Units(c - 1, c) - k, unit) + Times(c, unit)
    decreases Units(c - 1, c) - k
  {
    var tasks, n := Tight(c, mat, unit), Units(c - 1, c);
    if k < n {
      TightSums(c, mat, unit, k + 1);
      assert tasks[k] == Task(true, 0.0, unit);
    } else {
      assert tasks[n] == Task(true, mat, Times(c, unit)) && MatFrom(tasks, n + 1) == 0.0 == TailFrom(tasks, n + 1);
    }
  }

  lemma {:induction false} TimesMore(m: nat, n: nat, x: real)
    ensures Times(m + n, x) == Times(m, x) + Times(n, x)
  {
    if m > 0 {
      TimesMore(m - 1, n, x);
      assert m + n - 1 == (m - 1) + n;
    }
  }

  lemma {:induction false} TimesTimes(n: nat, c: nat, unit: real)
    ensures Times(Units(n, c), unit) == Times(n, Times(c, unit))
  {
    if n > 0 {
      TimesTimes(n - 1, c, unit);
      TimesMore(c, Units(n - 1, c), unit);
    }
  }

  lemma {:induction false} TimesPositive(n: nat, unit: real)
    requires unit > 0.0
    ensures Times(n, unit) >= 0.0 && (n > 0 ==> Times(n, unit) >= unit)
  {
    if n > 0 { TimesPositive(n - 1, unit); }
  }

  lemma TightTails(c: nat, mat: real, unit: real)
    requires c > 0 && unit > 0.0
    ensures TailFrom(Tight(c, mat, unit), 0) == Times(c, Times(c, unit))
    ensures MaxTailFrom(Tight(c, mat, unit), 0) == Times(c, unit)
  {
    TightSums(c, mat, unit, 0);
    TimesTimes(c - 1, c, unit);
    TimesPositive(c, unit);
    assert Tight(c, mat, unit)[Units(c - 1, c)].tail == Times(c, unit);
  }

  /** The list-scheduling bound of tails that sum up to c * c units, the longest c units. */
  lemma ListBound(c: real, unit: real, tails: real, longest: real)
    requires c > 0.0 && longest == c * unit && tails == c * longest
    ensures tails / c + (1.0 - 1.0 / c) * longest == longest + (longest - unit)
  {
    assert tails / c == longest;
    assert 1.0 / c * longest == unit by { assert 1.0 / c * (c * unit) == (1.0 / c * c) * unit; }
    assert (1.0 - 1.0 / c) * longest == longest - 1.0 / c * longest;
  }

  lemma Grant(tasks: seq<Task>, c: nat, unit: real)
    requires tasks != [] && c > 0 && Workers(tasks, c) == c
    requires TailFrom(tasks, 0) == Times(c, Times(c, unit)) && MaxTailFrom(tasks, 0) == Times(c, unit)
    ensures Bound(tasks, c) == MatFrom(tasks, 0) + (Times(c, unit) + Times(c - 1, unit))
  {
    var longest := Times(c, unit);
    TimesIsProduct(c, unit);
    TimesIsProduct(c, longest);
    ListBound(c as real, unit, Times(c, longest), longest);
  }

  lemma TightBound(c: nat, mat: real, unit: real)
    requires c > 0 && unit > 0.0
    ensures Workers(Tight(c, mat, unit), c) == c
    ensures Bound(Tight(c, mat, unit), c) == mat + (Times(c, unit) + Times(c - 1, unit))
  {
    TightSums(c, mat, unit, 0);
    TightTails(c, mat, unit);
    assert c > 1 ==> Units(c - 1, c) >= c;
    Grant(Tight(c, mat, unit), c, unit);
  }

  lemma TightRun(tasks: seq<Task>, c: nat, mat: real, unit: real) returns (q: Pool)
    requires c > 0 && unit > 0.0 && ValidTasks(tasks) && tasks != [] && Workers(tasks, c) == c
    requires UnitTasks(tasks, 0, Units(c - 1, c), unit) && |tasks| - 1 == Units(c - 1, c)
    requires tasks[|tasks| - 1] == Task(true, mat, Times(c, unit))
    ensures Reaches(tasks, Init(tasks, c), q) && q.now == Times(c - 1, unit) + mat + Times(c, unit)
  {
    var p := Init(tasks, c);
    assert Run(tasks, p, [], p);
    q := Rounds(tasks, p, p, c, 0, c - 1, unit);
    q := Last(tasks, p, q, c, unit);
  }

  lemma TightTasks(c: nat, mat: real, unit: real)
    requires c > 0 && mat >= 0.0 && unit > 0.0
    ensures ValidTasks(Tight(c, mat, unit)) && |Tight(c, mat, unit)| - 1 == Units(c - 1, c)
    ensures UnitTasks(Tight(c, mat, unit), 0, Units(c - 1, c), unit)
    ensures Tight(c, mat, unit)[Units(c - 1, c)] == Task(true, mat, Times(c, unit))
  {
    TimesPositive(c, unit);
  }

  /** For every number of workers, every materialization time and every unit there is a list
      whose run takes exactly the granted time. */
  lemma Attained(c: nat, mat: real, unit: real)
    requires c > 0 && mat >= 0.0 && unit > 0.0
    ensures var tasks := Tight(c, mat, unit);
      ValidTasks(tasks) && exists steps, q :: Run(tasks, Init(tasks, c), steps, q) && q.now == Bound(tasks, c)
  {
    var tasks := Tight(c, mat, unit);
    TightTasks(c, mat, unit);
    TightBound(c, mat, unit);
    var q := TightRun(tasks, c, mat, unit);
    var steps :| Run(tasks, Init(tasks, c), steps, q);
  }
}
