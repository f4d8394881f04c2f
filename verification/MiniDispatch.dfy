/** Waiting for the mini worker: `check_current`, `workers`, `worker_state` and
    `wait_for_mini` of scripts/ci/macos_dispatch.py. */
module MiniDispatch {
  import opened DispatchApi

  const QUEUE_SECONDS := 3600.0
  const QUEUE_POLL_SECONDS := 360.0
  const EXECUTION_SECONDS := 3600.0
  const RUNNING_POLL_SECONDS := 120.0

  const TEST_STEP := "Run all macOS lanes"
  const PREFLIGHT_STEPS := {"Set up job", "Checkout control policy", "Validate mini dispatch",
                            "Checkout candidate", "Prepare Rust", "Prepare Node"}
  const WORKFLOW_PATH := ".github/workflows/macos-mini.yml"

  /** The source run, and where the API serves it, its pull request and its workers. */
  datatype Source = Source(attempt: int, title: string, pull: bool, headRepo: Option<int>, headSha: string,
                           runPath: Path, pullPath: Path, workersPath: Path, jobsPath: nat -> Path)

  datatype Outcome = Success | Failure | NoResult  // "unavailable"

  // ---- Deciding from what was read -------------------------------------------------------------

  predicate RunCurrent(src: Source, run: RunInfo) { run.attempt == src.attempt && run.status != "completed" }

  /** The pull request's verdict, tested in this order. */
  function PullVerdict(src: Source, pull: PullInfo): Result<()> {
    if pull.state == "closed" then Err(Superseded)
    else if pull.state != "open" then Err(Unavailable)
    else if pull.headRepo != src.headRepo then Err(Unavailable)
    else if pull.headSha != src.headSha then Err(Superseded)
    else Ok(())
  }

  predicate IsWorker(src: Source, run: RunInfo) {
    run.title == src.title && run.path == WORKFLOW_PATH && run.event == "workflow_dispatch"
  }

  function Workers(src: Source, runs: seq<RunInfo>): (r: seq<RunInfo>)
    ensures forall run :: run in r <==> run in runs && IsWorker(src, run)
  {
    if runs == [] then []
    else (if IsWorker(src, runs[0]) then [runs[0]] else []) + Workers(src, runs[1..])
  }

  function Tests(steps: seq<TestStep>): (r: seq<TestStep>)
    ensures forall s :: s in r <==> s in steps && s.name == TEST_STEP
  {
    if steps == [] then []
    else (if steps[0].name == TEST_STEP then [steps[0]] else []) + Tests(steps[1..])
  }

  predicate Failed(steps: seq<TestStep>) { exists s <- steps :: s.conclusion == "failure" }

  predicate PreflightFailed(steps: seq<TestStep>) {
    exists s <- steps :: s.name in PREFLIGHT_STEPS && s.conclusion == "failure"
  }

  /** The worker's outcome, if it has one, and whether a runner is at work. */
  datatype State = State(outcome: Option<Outcome>, busy: bool)

  /** `worker_state` after its reads: the run and the jobs of its first attempt. */
  function WorkerState(run: RunInfo, jobs: seq<Job>): Result<State> {
    if run.attempt != 1 || |jobs| > 1 then Err(Unavailable)
    else
      var job := if jobs == [] then Job(false, "", []) else jobs[0];
      var busy := job.assignedRunner && job.status == "in_progress";
      var tests := Tests(job.steps);
      if Failed(tests) then Ok(State(Some(Failure), true))
      else if run.status != "completed" then Ok(State(None, busy))
      else if |tests| == 1 && run.conclusion == "success" && tests[0].conclusion == "success" then
        Ok(State(Some(Success), true))
      else if run.conclusion == "failure" && !PreflightFailed(job.steps)
              && !(|tests| == 1 && tests[0].conclusion == "success") then
        Ok(State(Some(Failure), busy))
      else Ok(State(Some(NoResult), busy))
  }

  predicate IsTest(steps: seq<TestStep>, k: int) { 0 <= k < |steps| && steps[k].name == TEST_STEP }

  /** The job ran one test step, and it succeeded. */
  ghost predicate OneTestPassed(steps: seq<TestStep>) {
    exists k :: IsTest(steps, k) && steps[k].conclusion == "success" && (forall j :: IsTest(steps, j) ==> j == k)
  }

  /** The worker passed: a completed, successful first attempt with one job that passed. */
  ghost predicate Passed(run: RunInfo, jobs: seq<Job>) {
    && run.attempt == 1 && run.status == "completed" && run.conclusion == "success"
    && |jobs| == 1 && OneTestPassed(jobs[0].steps)
  }

  lemma {:induction false} OneTest(steps: seq<TestStep>, k: int)
    requires IsTest(steps, k) && forall j :: IsTest(steps, j) ==> j == k
    ensures Tests(steps) == [steps[k]]
  {
    forall j | IsTest(steps[1..], j) ensures j == k - 1 { assert IsTest(steps, j + 1); }
    if k == 0 {
      NoTests(steps[1..]);
    } else {
      assert !IsTest(steps, 0);
      assert IsTest(steps[1..], k - 1);
      OneTest(steps[1..], k - 1);
    }
  }

  lemma {:induction false} NoTests(steps: seq<TestStep>)
    requires forall j :: !IsTest(steps, j)
    ensures Tests(steps) == []
  {
    if steps != [] {
      assert !IsTest(steps, 0);
      forall j ensures !IsTest(steps[1..], j) { assert !IsTest(steps, j + 1); }
      NoTests(steps[1..]);
    }
  }

  /** Where the only test step is. */
  lemma {:induction false} OnlyTest(steps: seq<TestStep>) returns (k: nat)
    requires |Tests(steps)| == 1
    ensures IsTest(steps, k) && steps[k] == Tests(steps)[0] && forall j :: IsTest(steps, j) ==> j == k
  {
    if steps[0].name == TEST_STEP {
      k := 0;
      assert forall s :: s in steps[1..] ==> s.name != TEST_STEP;
    } else {
      var m := OnlyTest(steps[1..]);
      k := m + 1;
      forall j | IsTest(steps, j) ensures j == k { assert IsTest(steps[1..], j - 1); }
    }
  }

  /** `success` is said of exactly the workers that passed. */
  lemma SuccessIffPassed(run: RunInfo, jobs: seq<Job>)
    ensures (WorkerState(run, jobs).Ok? && WorkerState(run, jobs).value.outcome == Some(Success)) <==> Passed(run, jobs)
  {
    if |jobs| == 1 {
      TestsPassed(jobs[0].steps);
      TestsFailed(jobs[0].steps);
      assert forall j, k :: IsTest(jobs[0].steps, j) && IsTest(jobs[0].steps, k) && OneTestPassed(jobs[0].steps) ==> j == k;
    }
  }

  predicate TestFailed(steps: seq<TestStep>) {
    exists k :: 0 <= k < |steps| && IsTest(steps, k) && steps[k].conclusion == "failure"
  }

  lemma TestsFailed(steps: seq<TestStep>)
    ensures Failed(Tests(steps)) <==> TestFailed(steps)
  {
    if TestFailed(steps) {
      var k :| 0 <= k < |steps| && IsTest(steps, k) && steps[k].conclusion == "failure";
      assert steps[k] in Tests(steps);
    }
    if Failed(Tests(steps)) {
      var s :| s in Tests(steps) && s.conclusion == "failure";
      var k :| 0 <= k < |steps| && steps[k] == s;
      assert IsTest(steps, k);
    }
  }

  lemma TestsPassed(steps: seq<TestStep>)
    ensures |Tests(steps)| == 1 && Tests(steps)[0].conclusion == "success" <==> OneTestPassed(steps)
  {
    if OneTestPassed(steps) {
      var k :| IsTest(steps, k) && steps[k].conclusion == "success" && forall j :: IsTest(steps, j) ==> j == k;
      OneTest(steps, k);
    }
    if |Tests(steps)| == 1 { var k := OnlyTest(steps); }
  }

  function StepsOf(jobs: seq<Job>): seq<TestStep> { if jobs == [] then [] else jobs[0].steps }

  /** `failure` is said of a first attempt with at most one job exactly if a test step failed,
      whatever else the run says, or the run failed after its preflight without its one test
      passing. */
  lemma FailureIffFailed(run: RunInfo, jobs: seq<Job>)
    ensures WorkerState(run, jobs).Ok? <==> run.attempt == 1 && |jobs| <= 1
    ensures WorkerState(run, jobs).Ok? ==>
      (WorkerState(run, jobs).value.outcome == Some(Failure) <==>
         || TestFailed(StepsOf(jobs))
         || (run.status == "completed" && run.conclusion == "failure" && !PreflightFailed(StepsOf(jobs))
             && !OneTestPassed(StepsOf(jobs))))
  {
    TestsFailed(StepsOf(jobs));
    TestsPassed(StepsOf(jobs));
  }

  /** The worker's one job has a runner and is in progress. */
  predicate AtWork(jobs: seq<Job>) { |jobs| == 1 && jobs[0].assignedRunner && jobs[0].status == "in_progress" }

  /** A first attempt still goes on: at most one job, and no failed test. */
  predicate Unfinished(run: RunInfo, jobs: seq<Job>) {
    run.attempt == 1 && |jobs| <= 1 && run.status != "completed" && !TestFailed(StepsOf(jobs))
  }

  /** No outcome is said of exactly the attempts that go on, and then a runner is said to be at
      work if and only if the one job has a runner and is in progress. */
  lemma BusyIffAtWork(run: RunInfo, jobs: seq<Job>)
    ensures (WorkerState(run, jobs).Ok? && WorkerState(run, jobs).value.outcome.None?) <==> Unfinished(run, jobs)
    ensures Unfinished(run, jobs) ==> WorkerState(run, jobs) == Ok(State(None, AtWork(jobs)))
  {
    TestsFailed(StepsOf(jobs));
  }

  // ---- Evidence --------------------------------------------------------------------------------

  /** What a check of the source read: the run by request `runAt`, and the pull request by
      request `pullAt`, as far as the `answered` ones go. */
  datatype Check = Check(result: Result<()>, answered: nat, runAt: nat, pullAt: nat)

  /** What is behind a verdict: the pages of the worker list and of the worker's jobs, and
      the last check of the source. */
  datatype Evidence = Evidence(list: seq<Page>, jobs: seq<Page>, recheck: Check)

  const NONE := Evidence([], [], Check(Err(Lost), 0, 0, 0))

  ghost function ListedWorkers(site: Site, src: Source, e: Evidence): seq<RunInfo> {
    Workers(src, Collected(site, (b: Body) => b.runs, e.list))
  }

  ghost function ListedJobs(site: Site, e: Evidence): seq<Job> {
    Collected(site, (b: Body) => b.jobs, e.jobs)
  }

  /** The check made its reads by requests numbered from `lo` to below `hi`, and its result
      is what they say; unanswered, it is an error that does not supersede the source. */
  ghost predicate CheckedBetween(site: Site, src: Source, c: Check, lo: nat, hi: nat) {
    && (c.answered == 0 ==> c.result.Err? && c.result.error != Superseded)
    && (c.answered > 0 ==> lo <= c.runAt < hi)
    && (c.answered > 0 && !RunCurrent(src, site(c.runAt, src.runPath).body.run) ==> c.result == Err(Superseded))
    && (c.answered > 0 && RunCurrent(src, site(c.runAt, src.runPath).body.run) && !src.pull ==> c.result == Ok(()))
    && (c.answered == 1 && RunCurrent(src, site(c.runAt, src.runPath).body.run) && src.pull ==>
          c.result.Err? && c.result.error != Superseded)
    && (c.answered > 1 ==> src.pull && c.runAt < c.pullAt < hi && c.result == PullVerdict(src, site(c.pullAt, src.pullPath).body.pull))
  }

  /** The check read a current run, and after it a current pull request, by requests numbered
      from `lo` to below `hi`. */
  ghost predicate CurrentAt(site: Site, src: Source, c: Check, lo: nat, hi: nat) {
    var run, pull := site(c.runAt, src.runPath).body.run, site(c.pullAt, src.pullPath).body.pull;
    && lo <= c.runAt < hi && run.attempt == src.attempt && run.status != "completed"
    && (src.pull ==>
          && c.runAt < c.pullAt < hi
          && pull.state == "open" && pull.headRepo == src.headRepo && pull.headSha == src.headSha)
  }

  /** The check read that the run is over, or that the pull request is closed or updated. */
  ghost predicate SupersededAt(site: Site, src: Source, c: Check, lo: nat, hi: nat) {
    var run, pull := site(c.runAt, src.runPath).body.run, site(c.pullAt, src.pullPath).body.pull;
    && lo <= c.runAt < hi
    && (run.attempt == src.attempt && run.status != "completed" ==>
          && src.pull && c.runAt < c.pullAt < hi
          && (pull.state == "closed"
              || (pull.state == "open" && pull.headRepo == src.headRepo && pull.headSha != src.headSha)))
  }

  /** So a check that succeeds, or that says superseded, says what the server had. */
  lemma CheckedIsCurrent(site: Site, src: Source, c: Check, lo: nat, hi: nat)
    requires CheckedBetween(site, src, c, lo, hi)
    ensures c.result.Ok? ==> CurrentAt(site, src, c, lo, hi)
    ensures c.result == Err(Superseded) ==> SupersededAt(site, src, c, lo, hi)
  {}

  /** The workers listed are the runs listed that a dispatch of this workflow started under the
      source's title. */
  lemma ListedAreDispatched(site: Site, src: Source, e: Evidence, run: RunInfo)
    ensures run in ListedWorkers(site, src, e) <==>
      && run in Collected(site, (b: Body) => b.runs, e.list) && run.title == src.title
      && run.path == ".github/workflows/macos-mini.yml" && run.event == "workflow_dispatch"
  {}

  /** The evidence shows, by requests numbered from `lo` to below `hi`, exactly one worker
      and its jobs, listed one after the other. */
  ghost predicate ShowsWorker(site: Site, src: Source, e: Evidence, lo: nat, hi: nat) {
    && PagesFrom(site, (b: Body) => b.runs, src.workersPath, e.list, lo, hi) && e.list != []
    && |ListedWorkers(site, src, e)| == 1
    && PagesFrom(site, (b: Body) => b.jobs, src.jobsPath(ListedWorkers(site, src, e)[0].id), e.jobs, lo, hi) && e.jobs != []
    && e.list[|e.list| - 1].at < e.jobs[0].at
  }

  /** What the evidence shows has that outcome, and the source was checked afterwards: it is
      current, or the outcome is a failure and the check unanswered or undecided. */
  ghost predicate Shows(site: Site, src: Source, e: Evidence, o: Outcome, lo: nat, hi: nat) {
    && ShowsWorker(site, src, e, lo, hi)
    && var state := WorkerState(ListedWorkers(site, src, e)[0], ListedJobs(site, e));
    && state.Ok? && state.value.outcome == Some(o)
    && CheckedBetween(site, src, e.recheck, e.jobs[|e.jobs| - 1].at + 1, hi)
    && e.recheck.result != Err(Superseded) && (o != Failure ==> e.recheck.result.Ok?)
  }

  /** What a round without an outcome saw: no worker, or one whose state has none. */
  ghost predicate Sees(site: Site, src: Source, e: Evidence, state: State, lo: nat, hi: nat) {
    || (ListedWorkers(site, src, e) == [] && state == State(None, false)
        && PagesFrom(site, (b: Body) => b.runs, src.workersPath, e.list, lo, hi) && e.list != [])
    || (ShowsWorker(site, src, e, lo, hi) && WorkerState(ListedWorkers(site, src, e)[0], ListedJobs(site, e)) == Ok(state))
  }

  /** What a round without an outcome saw, in terms of the run and its job: no worker, or one
      unfinished worker, and whether it is at work. */
  ghost predicate Saw(site: Site, src: Source, e: Evidence, busy: bool, lo: nat, hi: nat) {
    || (ListedWorkers(site, src, e) == [] && !busy
        && PagesFrom(site, (b: Body) => b.runs, src.workersPath, e.list, lo, hi) && e.list != [])
    || (ShowsWorker(site, src, e, lo, hi) && Unfinished(ListedWorkers(site, src, e)[0], ListedJobs(site, e))
        && busy == AtWork(ListedJobs(site, e)))
  }

  lemma SeenSaw(site: Site, src: Source, e: Evidence, state: State, lo: nat, hi: nat)
    requires Sees(site, src, e, state, lo, hi) && state.outcome.None?
    ensures Saw(site, src, e, state.busy, lo, hi)
  {
    if ShowsWorker(site, src, e, lo, hi) { BusyIffAtWork(ListedWorkers(site, src, e)[0], ListedJobs(site, e)); }
  }

  /** The source is current, or why not. */
  method CheckCurrent(api: Api, src: Source) returns (r: Result<()>, ghost c: Check)
    requires api.Ready() && api.Cool()
    modifies api`now, api`log, api`requests, api`cooldown, api`conditional, api`fetched
    ensures api.Ready() && api.now >= old(api.now) && api.requests >= old(api.requests)
    ensures c.result == r && CheckedBetween(api.site, src, c, old(api.requests), api.requests)
    ensures r.Ok? ==> api.cooldown <= api.now && api.requests > old(api.requests)
  {
    var run, _ := api.Read(src.runPath);
    if run.Err? { return Err(run.error), Check(Err(run.error), 0, 0, 0); }
    ghost var runAt := api.requests - 1;
    if !RunCurrent(src, run.value.body.run) { return Err(Superseded), Check(Err(Superseded), 1, runAt, 0); }
    if !src.pull { return Ok(()), Check(Ok(()), 1, runAt, 0); }
    r, c := CheckPull(api, src, runAt, old(api.requests));
  }

  /** The rest of the check, once the run is found current. */
  method CheckPull(api: Api, src: Source, ghost runAt: nat, ghost lo: nat) returns (r: Result<()>, ghost c: Check)
    requires api.Ready() && api.Cool() && src.pull && lo <= runAt < api.requests && RunCurrent(src, api.site(runAt, src.runPath).body.run)
    modifies api`now, api`log, api`requests, api`cooldown, api`conditional, api`fetched
    ensures api.Ready() && api.now >= old(api.now) && api.requests >= old(api.requests)
    ensures c.result == r && CheckedBetween(api.site, src, c, lo, api.requests)
    ensures r.Ok? ==> api.cooldown <= api.now
  {
    var pull, _ := api.Read(src.pullPath);
    if pull.Err? { return Err(pull.error), Check(Err(pull.error), 1, runAt, 0); }
    r := PullVerdict(src, pull.value.body.pull);
    c := Check(r, 2, runAt, api.requests - 1);
  }

  /** The one worker of the source, if it has been dispatched, and its state. */
  method ReadWorker(api: Api, src: Source) returns (r: Result<State>, ghost e: Evidence)
    requires api.Ready() && api.Cool()
    modifies api`now, api`log, api`requests, api`cooldown, api`conditional, api`fetched
    ensures api.Ready() && api.now >= old(api.now) && api.requests >= old(api.requests)
    ensures r.Ok? ==> api.cooldown <= api.now && Sees(api.site, src, e, r.value, old(api.requests), api.requests)
    ensures r.Err? ==> r.error != Superseded
  {
    e := NONE;
    var runs;
    ghost var list;
    runs, list := api.Collection(src.workersPath, (b: Body) => b.runs);
    if runs.Err? { return Err(runs.error), e; }
    e := NONE.(list := list);
    var candidates := Workers(src, runs.value);
    if |candidates| > 1 { return Err(Unavailable), e; }
    if candidates == [] { return Ok(State(None, false)), e; }
    if candidates[0].attempt != 1 { return Err(Unavailable), e; }
    r, e := ReadJobs(api, src, candidates[0], e, old(api.requests));
  }

  /** The one listed worker and then its jobs show the worker. */
  lemma JobsShow(site: Site, src: Source, listed: Evidence, pages: seq<Page>, run: RunInfo, lo: nat, mid: nat, hi: nat)
    requires listed.list != [] && ListedWorkers(site, src, listed) == [run] && lo <= mid <= hi
    requires PagesFrom(site, (b: Body) => b.runs, src.workersPath, listed.list, lo, mid)
    requires PagesFrom(site, (b: Body) => b.jobs, src.jobsPath(run.id), pages, mid, hi) && pages != []
    ensures ShowsWorker(site, src, listed.(jobs := pages), lo, hi)
  {}

  /** The state of the one listed worker, by its jobs. */
  method ReadJobs(api: Api, src: Source, run: RunInfo, ghost listed: Evidence, ghost lo: nat)
    returns (r: Result<State>, ghost e: Evidence)
    requires api.Ready() && api.Cool() && lo <= api.requests && listed.list != [] && ListedWorkers(api.site, src, listed) == [run]
    requires PagesFrom(api.site, (b: Body) => b.runs, src.workersPath, listed.list, lo, api.requests)
    modifies api`now, api`log, api`requests, api`cooldown, api`conditional, api`fetched
    ensures api.Ready() && api.now >= old(api.now) && api.requests >= old(api.requests)
    ensures r.Ok? ==> api.cooldown <= api.now && Sees(api.site, src, e, r.value, lo, api.requests)
    ensures r.Err? ==> r.error != Superseded
  {
    e := listed;
    var jobs;
    ghost var pages;
    jobs, pages := api.Collection(src.jobsPath(run.id), (b: Body) => b.jobs);
    if jobs.Err? { return Err(jobs.error), e; }
    e := listed.(jobs := pages);
    JobsShow(api.site, src, listed, pages, run, lo, old(api.requests), api.requests);
    r := WorkerState(run, jobs.value);
  }

  /** Later checks of the source leave what the worker's evidence shows. */
  lemma StillShows(site: Site, src: Source, e: Evidence, recheck: Check, lo: nat, mid: nat, hi: nat)
    requires ShowsWorker(site, src, e, lo, mid) && mid <= hi
    ensures ShowsWorker(site, src, e.(recheck := recheck), lo, hi)
  {}

  /** Evidence gathered later was gathered since. */
  lemma ShownSince(site: Site, src: Source, e: Evidence, o: Outcome, lo: nat, mid: nat, hi: nat)
    requires Shows(site, src, e, o, mid, hi) && lo <= mid
    ensures Shows(site, src, e, o, lo, hi)
  {}

  lemma SeenSince(site: Site, src: Source, e: Evidence, state: State, lo: nat, mid: nat, hi: nat)
    requires Sees(site, src, e, state, mid, hi) && lo <= mid
    ensures Sees(site, src, e, state, lo, hi)
  {}

  lemma CheckedSince(site: Site, src: Source, c: Check, lo: nat, mid: nat, hi: nat)
    requires CheckedBetween(site, src, c, mid, hi) && lo <= mid
    ensures CheckedBetween(site, src, c, lo, hi)
  {}

  /** One round: the source is current, then its worker's state; an outcome is kept only if
      the source still is, except a failure, which an unanswered check does not undo. */
  method Observe(api: Api, src: Source) returns (r: Result<State>, ghost e: Evidence)
    requires api.Ready() && api.Cool()
    modifies api`now, api`log, api`requests, api`cooldown, api`conditional, api`fetched
    ensures api.Ready() && api.now >= old(api.now) && api.requests >= old(api.requests)
    ensures r.Ok? && r.value.outcome.Some? ==>
      Shows(api.site, src, e, r.value.outcome.value, old(api.requests), api.requests)
    ensures r.Ok? && r.value.outcome.None? ==>
      && Saw(api.site, src, e, r.value.busy, old(api.requests), api.requests)
      && api.cooldown <= api.now && api.requests > old(api.requests)
    ensures r == Err(Superseded) ==> SupersededAt(api.site, src, e.recheck, old(api.requests), api.requests)
  {
    var before;
    ghost var check;
    before, check := CheckCurrent(api, src);
    e := NONE.(recheck := check);
    CheckedIsCurrent(api.site, src, check, old(api.requests), api.requests);
    if before.Err? { return Err(before.error), e; }
    ghost var start := api.requests;
    r, e := ReadWorker(api, src);
    if r.Err? { return r, e; }
    if r.value.outcome.None? {
      SeenSince(api.site, src, e, r.value, old(api.requests), start, api.requests);
      SeenSaw(api.site, src, e, r.value, old(api.requests), api.requests);
      return r, e;
    }
    var kept;
    kept, e := Recheck(api, src, r.value.outcome.value, e, start);
    if kept.Err? { return Err(kept.error), e; }
    ShownSince(api.site, src, e, r.value.outcome.value, old(api.requests), start, api.requests);
  }

  /** Keep an outcome, if the source still allows it. */
  method Recheck(api: Api, src: Source, o: Outcome, ghost seen: Evidence, ghost start: nat)
    returns (r: Result<()>, ghost e: Evidence)
    requires api.Ready() && api.Cool() && ShowsWorker(api.site, src, seen, start, api.requests)
    requires WorkerState(ListedWorkers(api.site, src, seen)[0], ListedJobs(api.site, seen)).Ok?
    requires WorkerState(ListedWorkers(api.site, src, seen)[0], ListedJobs(api.site, seen)).value.outcome == Some(o)
    modifies api`now, api`log, api`requests, api`cooldown, api`conditional, api`fetched
    ensures api.Ready() && api.now >= old(api.now) && api.requests >= old(api.requests)
    ensures r.Ok? ==> Shows(api.site, src, e, o, start, api.requests)
    ensures r == Err(Superseded) ==> SupersededAt(api.site, src, e.recheck, old(api.requests), api.requests)
  {
    ghost var mid := api.requests;
    var after;
    ghost var c;
    after, c := CheckCurrent(api, src);
    e := seen.(recheck := c);
    CheckedIsCurrent(api.site, src, c, mid, api.requests);
    if after.Err? && (after.error == Superseded || o != Failure) { return Err(after.error), e; }
    StillShows(api.site, src, seen, c, start, mid, api.requests);
    CheckedSince(api.site, src, c, seen.jobs[|seen.jobs| - 1].at + 1, mid, api.requests);
    r := Ok(());
  }

  function Min(a: real, b: real): real { if a < b then a else b }

  /** When the current phase ends. */
  function Deadline(queuedAt: real, assignedAt: Option<real>): real {
    if assignedAt.Some? then assignedAt.value + EXECUTION_SECONDS else queuedAt + QUEUE_SECONDS
  }

  /** Rounds left at most before the deadline. */
  ghost function RoundsLeft(deadline: real, now: real): nat {
    if now >= deadline then 0 else 1 + ((deadline - now) / RUNNING_POLL_SECONDS).Floor
  }

  lemma SleepTakesARound(deadline: real, was: real, asked: real, now: real, poll: real)
    requires was <= asked && was < deadline && poll >= RUNNING_POLL_SECONDS
    requires now >= asked + Min(poll, if deadline > asked then deadline - asked else 0.0)
    ensures RoundsLeft(deadline, now) < RoundsLeft(deadline, was)
  {
    if now < deadline {
      assert now >= was + RUNNING_POLL_SECONDS;
      assert (deadline - now) / RUNNING_POLL_SECONDS <= (deadline - was) / RUNNING_POLL_SECONDS - 1.0;
    }
  }

  /** The backoff was to end within the two hours from queueing; the request left within them
      and the observation time, unless it is the call's first one, `first`, a cooldown was
      left over from before the call (`hot`), and its sleep overran by more than an hour and
      a minute. */
  predicate Timely(e: Event, queuedAt: real, first: nat, hot: bool) {
    match e
    case Slept(asked, delay, _) => asked + delay < queuedAt + QUEUE_SECONDS + EXECUTION_SECONDS
    case Started(n, at, over, _, _) =>
      || at < queuedAt + QUEUE_SECONDS + EXECUTION_SECONDS + OBSERVATION_SECONDS
      || (hot && n == first && over > EXECUTION_SECONDS + OBSERVATION_SECONDS)
  }

  /** The budget is held to the two hours, and to the first of them a wait left over from
      before the call. */
  ghost predicate Held(hold: Option<Hold>, queuedAt: real) {
    && hold.Some? && hold.value.cap == queuedAt + QUEUE_SECONDS + EXECUTION_SECONDS
    && hold.value.early == queuedAt + QUEUE_SECONDS
  }

  lemma InTime(log: seq<Event>, h: Hold, queuedAt: real)
    requires Held(Some(h), queuedAt) && (forall e <- log :: InBudget(e))
    requires forall k :: h.since <= k < |log| ==> Bounded(log[k], h)
    ensures forall k :: h.since <= k < |log| ==> Timely(log[k], queuedAt, h.from, h.hot)
  {
    forall k | h.since <= k < |log| ensures Timely(log[k], queuedAt, h.from, h.hot) {
      assert InBudget(log[k]) && Bounded(log[k], h);
    }
  }

  function Poll(assignedAt: Option<real>): real {
    if assignedAt.Some? then RUNNING_POLL_SECONDS else QUEUE_POLL_SECONDS
  }

  /** The end of a round that began at `was`, without an outcome: note a first assignment, see
      whether the phase's budget is spent, or else sleep.  Unless the phase is over, the round
      took one of those left. */
  method EndRound(api: Api, queuedAt: real, assignedAt: Option<real>, busy: bool, ghost was: real)
    returns (spent: bool, assignment: Option<real>)
    requires api.Valid() && was <= api.now
    requires assignedAt.Some? ==> assignedAt.value <= queuedAt + QUEUE_SECONDS
    modifies api`now
    ensures api.Valid() && api.now >= old(api.now)
    ensures assignment.Some? <==> assignedAt.Some? || busy
    ensures assignedAt.Some? ==> assignment == assignedAt
    ensures assignment.Some? && assignedAt.None? ==> Min(old(api.now), queuedAt + QUEUE_SECONDS) <= assignment.value
    ensures assignment.Some? ==> assignment.value <= queuedAt + QUEUE_SECONDS
    ensures spent ==> api.now >= Deadline(queuedAt, assignment)
    ensures !spent && assignment.None? ==> api.now >= Min(old(api.now) + QUEUE_POLL_SECONDS, queuedAt + QUEUE_SECONDS)
    ensures !spent && assignment.Some? ==>
      api.now >= Min(old(api.now) + RUNNING_POLL_SECONDS, assignment.value + EXECUTION_SECONDS)
    ensures !spent && assignment == assignedAt ==>
      RoundsLeft(Deadline(queuedAt, assignment), api.now) < RoundsLeft(Deadline(queuedAt, assignment), was)
  {
    assignment := assignedAt;
    if busy && assignedAt.None? {
      api.Tick();
      assignment := Some(Min(api.now, queuedAt + QUEUE_SECONDS));
    }
    api.Tick();
    var deadline := Deadline(queuedAt, assignment);
    if api.now >= deadline { return true, assignment; }
    api.Tick();
    var poll := Poll(assignment);
    ghost var asked := api.now;
    api.Sleep(Min(poll, if deadline > api.now then deadline - api.now else 0.0));
    SleepTakesARound(deadline, was, asked, api.now, poll);
    spent := false;
  }

  /** A result is shown by evidence from requests numbered from `lo` to below `hi` (`success`:
      by one worker, which passed, and a source read as current after it; superseded: by a
      source read so), or is a spent budget. */
  ghost predicate Justified(site: Site, src: Source, r: Result<Outcome>, e: Evidence, shown: bool, lo: nat, hi: nat) {
    && (r.Ok? && shown ==> Shows(site, src, e, r.value, lo, hi))
    && (r == Ok(Success) ==>
          && shown && Passed(ListedWorkers(site, src, e)[0], ListedJobs(site, e))
          && CurrentAt(site, src, e.recheck, e.jobs[|e.jobs| - 1].at + 1, hi))
    && (r == Err(Superseded) ==> SupersededAt(site, src, e.recheck, lo, hi))
    && (r.Ok? && !shown ==> r.value == NoResult)
  }

  lemma ShownIsJustified(site: Site, src: Source, o: Outcome, e: Evidence, lo: nat, hi: nat)
    requires Shows(site, src, e, o, lo, hi)
    ensures Justified(site, src, Ok(o), e, true, lo, hi)
  {
    SuccessIffPassed(ListedWorkers(site, src, e)[0], ListedJobs(site, e));
    CheckedIsCurrent(site, src, e.recheck, e.jobs[|e.jobs| - 1].at + 1, hi);
  }

  lemma JustifiedSince(site: Site, src: Source, r: Result<Outcome>, e: Evidence, shown: bool, lo: nat, mid: nat, hi: nat)
    requires Justified(site, src, r, e, shown, mid, hi) && lo <= mid
    ensures Justified(site, src, r, e, shown, lo, hi)
  {
    if r.Ok? && shown { ShownSince(site, src, e, r.value, lo, mid, hi); }
  }

  /** The result of a round's observation, if it has one, or else whether a runner is at work. */
  method Concluded(api: Api, src: Source)
    returns (r: Option<Result<Outcome>>, busy: bool, ghost e: Evidence, ghost shown: bool)
    requires api.Ready() && api.Cool()
    modifies api`now, api`log, api`requests, api`cooldown, api`conditional, api`fetched
    ensures api.Ready() && api.now >= old(api.now) && api.requests >= old(api.requests)
    ensures r.Some? ==> Justified(api.site, src, r.value, e, shown, old(api.requests), api.requests)
    ensures r.Some? && r.value.Ok? ==> shown
    ensures r.None? ==> !shown && Saw(api.site, src, e, busy, old(api.requests), api.requests)
    ensures r.None? ==> api.cooldown <= api.now && api.requests > old(api.requests)
  {
    var state;
    state, e := Observe(api, src);
    shown, busy := false, false;
    if state.Err? { return Some(Err(state.error)), busy, e, shown; }
    if state.value.outcome.Some? {
      ShownIsJustified(api.site, src, state.value.outcome.value, e, old(api.requests), api.requests);
      return Some(Ok(state.value.outcome.value)), busy, e, true;
    }
    r, busy := None, state.value.busy;
  }

  /** A round without an outcome: what it saw by requests numbered from `lo` to below `hi`,
      whether that was a runner at work, and when it had seen it. */
  datatype Seen = Seen(e: Evidence, busy: bool, lo: nat, hi: nat, at: real)

  /** The rounds made all the requests numbered from `lo` to below `hi`. */
  predicate Chained(rounds: seq<Seen>, lo: nat, hi: nat) {
    if rounds == [] then lo == hi
    else
      var last := rounds[|rounds| - 1];
      last.hi == hi && Chained(rounds[..|rounds| - 1], lo, last.lo)
  }

  /** And saw, from `since` on, what they say they saw. */
  ghost predicate Watched(site: Site, src: Source, rounds: seq<Seen>, lo: nat, hi: nat, since: real) {
    Chained(rounds, lo, hi) && forall s <- rounds :: SawIn(site, src, s) && s.at >= since
  }

  ghost predicate SawIn(site: Site, src: Source, s: Seen) { Saw(site, src, s.e, s.busy, s.lo, s.hi) }

  lemma ChainedOneMore(rounds: seq<Seen>, s: Seen, lo: nat)
    requires Chained(rounds, lo, s.lo)
    ensures Chained(rounds + [s], lo, s.hi)
  {
    assert (rounds + [s])[..|rounds|] == rounds;
  }

  lemma WatchedOneMore(site: Site, src: Source, rounds: seq<Seen>, s: Seen, lo: nat, since: real)
    requires Watched(site, src, rounds, lo, s.lo, since) && SawIn(site, src, s) && s.at >= since
    ensures Watched(site, src, rounds + [s], lo, s.hi, since)
  {
    ChainedOneMore(rounds, s, lo);
  }

  /** The k-th round is the first to see a runner at work. */
  predicate FirstAtWork(rounds: seq<Seen>, k: int) {
    0 <= k < |rounds| && rounds[k].busy && forall j :: 0 <= j < k ==> !rounds[j].busy
  }

  /** The assignment is noted once a round has seen a runner at work, no earlier than that
      round or the end of the queue budget. */
  ghost predicate Noted(rounds: seq<Seen>, assignedAt: Option<real>, queuedAt: real) {
    && (assignedAt.None? ==> forall k :: 0 <= k < |rounds| ==> !rounds[k].busy)
    && (assignedAt.Some? ==> exists k :: FirstAtWork(rounds, k) && assignedAt.value >= Min(rounds[k].at, queuedAt + QUEUE_SECONDS))
  }

  /** One more round notes an assignment. */
  predicate Notes(s: Seen, assignedAt: Option<real>, assignment: Option<real>, queuedAt: real) {
    && (assignment.Some? <==> assignedAt.Some? || s.busy)
    && (assignedAt.Some? ==> assignment == assignedAt)
    && (assignedAt.None? && s.busy ==> assignment.value >= Min(s.at, queuedAt + QUEUE_SECONDS))
  }

  lemma NotedOneMore(rounds: seq<Seen>, s: Seen, assignedAt: Option<real>, assignment: Option<real>, queuedAt: real)
    requires Noted(rounds, assignedAt, queuedAt) && Notes(s, assignedAt, assignment, queuedAt)
    ensures Noted(rounds + [s], assignment, queuedAt)
  {
    var more := rounds + [s];
    if assignedAt.Some? {
      var k :| FirstAtWork(rounds, k) && assignedAt.value >= Min(rounds[k].at, queuedAt + QUEUE_SECONDS);
      assert FirstAtWork(more, k) && more[k] == rounds[k];
    } else if s.busy {
      assert FirstAtWork(more, |rounds|);
    }
  }

  /** A budget is spent no earlier than the queue time after queueing, or, once a round has
      seen a runner at work, the execution time after the first such round, or after the end
      of the queue time if that was earlier. */
  ghost predicate SpentInTime(rounds: seq<Seen>, now: real, queuedAt: real) {
    && ((forall k :: 0 <= k < |rounds| ==> !rounds[k].busy) ==> now >= queuedAt + QUEUE_SECONDS)
    && (forall k :: FirstAtWork(rounds, k) ==> now >= Min(rounds[k].at, queuedAt + QUEUE_SECONDS) + EXECUTION_SECONDS)
  }

  lemma DeadlineIsSpent(rounds: seq<Seen>, assignedAt: Option<real>, now: real, queuedAt: real)
    requires Noted(rounds, assignedAt, queuedAt) && now >= Deadline(queuedAt, assignedAt)
    ensures SpentInTime(rounds, now, queuedAt)
  {
    if assignedAt.Some? {
      var k :| FirstAtWork(rounds, k) && assignedAt.value >= Min(rounds[k].at, queuedAt + QUEUE_SECONDS);
      forall j | FirstAtWork(rounds, j) ensures j == k {}
    }
  }

  /** Set the deadlines for the current phase. */
  method SetPhase(api: Api, queuedAt: real, assignedAt: Option<real>)
    requires api.Valid() && Held(api.hold, queuedAt)
    requires api.cooldown <= api.now || (api.hold.value.hot && api.requests == api.hold.value.from && assignedAt.None?)
    requires assignedAt.Some? ==> assignedAt.value <= queuedAt + QUEUE_SECONDS
    modifies api`deadline, api`requestDeadline
    ensures api.Ready() && api.Cool() && api.deadline == Some(Deadline(queuedAt, assignedAt))
  {
    api.SetDeadline(Deadline(queuedAt, assignedAt), true);
  }

  /** One turn of the waiting loop: a result, or the assignment to go on with. */
  method Round(api: Api, src: Source, queuedAt: real, assignedAt: Option<real>)
    returns (r: Option<Result<Outcome>>, assignment: Option<real>, ghost e: Evidence, ghost shown: bool, ghost s: Seen)
    requires api.Valid() && Held(api.hold, queuedAt)
    requires api.cooldown <= api.now || (api.hold.value.hot && api.requests == api.hold.value.from && assignedAt.None?)
    requires assignedAt.Some? ==> assignedAt.value <= queuedAt + QUEUE_SECONDS
    modifies api`now, api`log, api`requests, api`cooldown, api`conditional, api`fetched, api`deadline, api`requestDeadline
    ensures api.Valid() && api.now >= old(api.now) && api.requests >= old(api.requests)
    ensures assignedAt.Some? ==> assignment == assignedAt
    ensures assignment.Some? ==> assignment.value <= queuedAt + QUEUE_SECONDS
    ensures r.Some? ==> Justified(api.site, src, r.value, e, shown, old(api.requests), api.requests)
    ensures r.Some? && r.value.Ok? && !shown ==> api.now >= Deadline(queuedAt, assignment)
    ensures r.None? ==> api.cooldown <= api.now
    ensures r.None? || (r.value.Ok? && !shown) ==>
      && s == Seen(e, s.busy, old(api.requests), api.requests, s.at) && old(api.now) <= s.at <= api.now
      && SawIn(api.site, src, s) && Notes(s, assignedAt, assignment, queuedAt)
    ensures r.None? && assignment == assignedAt ==>
      RoundsLeft(Deadline(queuedAt, assignment), api.now) < RoundsLeft(Deadline(queuedAt, assignment), old(api.now))
  {
    assignment, shown := assignedAt, false;
    SetPhase(api, queuedAt, assignedAt);
    var busy;
    r, busy, e, shown := Concluded(api, src);
    s := Seen(e, busy, old(api.requests), api.requests, api.now);
    if r.Some? { return r, assignment, e, shown, s; }
    var spent;
    spent, assignment := EndRound(api, queuedAt, assignedAt, busy, old(api.now));
    r := if spent then Some(Ok(NoResult)) else None;
  }

  /** The rounds so far, and the assignment they noted. */
  ghost predicate History(site: Site, src: Source, rounds: seq<Seen>, assignedAt: Option<real>, queuedAt: real,
                          lo: nat, hi: nat, since: real) {
    Watched(site, src, rounds, lo, hi, since) && Noted(rounds, assignedAt, queuedAt)
  }

  lemma HistoryOneMore(site: Site, src: Source, rounds: seq<Seen>, s: Seen, assignedAt: Option<real>, assignment: Option<real>,
                       queuedAt: real, lo: nat, since: real)
    requires History(site, src, rounds, assignedAt, queuedAt, lo, s.lo, since)
    requires SawIn(site, src, s) && s.at >= since && Notes(s, assignedAt, assignment, queuedAt)
    ensures History(site, src, rounds + [s], assignment, queuedAt, lo, s.hi, since)
  {
    WatchedOneMore(site, src, rounds, s, lo, since);
    NotedOneMore(rounds, s, assignedAt, assignment, queuedAt);
  }

  /** What the wait comes to: a result that is justified, and, if that is a spent budget, by
      rounds that saw it spent no earlier than they should. */
  ghost predicate Waited(site: Site, src: Source, r: Result<Outcome>, e: Evidence, shown: bool, rounds: seq<Seen>,
                         lo: nat, hi: nat, since: real, now: real, queuedAt: real) {
    && Justified(site, src, r, e, shown, lo, hi)
    && (r.Ok? && !shown ==> Watched(site, src, rounds, lo, hi, since) && SpentInTime(rounds, now, queuedAt))
  }

  lemma WaitedSince(site: Site, src: Source, r: Result<Outcome>, e: Evidence, shown: bool, rounds: seq<Seen>,
                    assignedAt: Option<real>, lo: nat, mid: nat, hi: nat, since: real, now: real, queuedAt: real)
    requires Justified(site, src, r, e, shown, mid, hi) && lo <= mid
    requires r.Ok? && !shown ==> History(site, src, rounds, assignedAt, queuedAt, lo, hi, since) && now >= Deadline(queuedAt, assignedAt)
    ensures Waited(site, src, r, e, shown, rounds, lo, hi, since, now, queuedAt)
  {
    JustifiedSince(site, src, r, e, shown, lo, mid, hi);
    if r.Ok? && !shown { DeadlineIsSpent(rounds, assignedAt, now, queuedAt); }
  }

  /** The waiting loop. */
  method WaitRounds(api: Api, src: Source, queuedAt: real)
    returns (r: Result<Outcome>, ghost e: Evidence, ghost shown: bool, ghost rounds: seq<Seen>)
    requires api.Valid() && Held(api.hold, queuedAt)
    requires api.cooldown <= api.now || (api.hold.value.hot && api.requests == api.hold.value.from)
    modifies api`now, api`log, api`requests, api`cooldown, api`conditional, api`fetched, api`deadline, api`requestDeadline
    ensures api.Valid() && api.now >= old(api.now)
    ensures Waited(api.site, src, r, e, shown, rounds, old(api.requests), api.requests, old(api.now), api.now, queuedAt)
  {
    var assignedAt: Option<real> := None;
    e, shown, rounds := NONE, false, [];
    while true
      modifies api`now, api`log, api`requests, api`cooldown, api`conditional, api`fetched, api`deadline, api`requestDeadline
      invariant api.Valid() && api.now >= old(api.now) && api.requests >= old(api.requests)
      invariant api.cooldown <= api.now || (api.hold.value.hot && api.requests == api.hold.value.from && assignedAt.None?)
      invariant History(api.site, src, rounds, assignedAt, queuedAt, old(api.requests), api.requests, old(api.now))
      invariant assignedAt.Some? ==> assignedAt.value <= queuedAt + QUEUE_SECONDS
      decreases assignedAt.None?, RoundsLeft(Deadline(queuedAt, assignedAt), api.now)
    {
      ghost var lo, was := api.requests, assignedAt;
      var result;
      ghost var s;
      result, assignedAt, e, shown, s := Round(api, src, queuedAt, assignedAt);
      if result.None? || (result.value.Ok? && !shown) {
        HistoryOneMore(api.site, src, rounds, s, was, assignedAt, queuedAt, old(api.requests), old(api.now));
        rounds := rounds + [s];
      }
      if result.Some? {
        WaitedSince(api.site, src, result.value, e, shown, rounds, assignedAt, old(api.requests), lo, api.requests,
                    old(api.now), api.now, queuedAt);
        return result.value, e, shown, rounds;
      }
    }
  }

  /** Waiting ends for every clock and every server, and:
      - an outcome other than a spent budget is shown by what the server had at requests made
        in one round, the source being checked after it (`success`: one worker, which passed,
        and a current source);
      - from the call on, no backoff reaches beyond two hours after queueing, and every request
        leaves before the end of the observation minute after that, however long any sleep
        takes; only the first, and only if a cooldown was left over from before the call, can
        leave later, when its own sleep overran by more than an hour and a minute;
      - a spent budget means an hour since queueing if no round saw a runner at work, and
        otherwise an hour since the first round that did, or since the end of the first hour
        if that was earlier; `rounds` are all the rounds there were. */
  method WaitForMini(api: Api, src: Source, queuedAt: real)
    returns (r: Result<Outcome>, ghost e: Evidence, ghost shown: bool, ghost rounds: seq<Seen>)
    requires api.Valid()
    modifies api
    ensures api.Valid() && api.now >= old(api.now)
    ensures Waited(api.site, src, r, e, shown, rounds, old(api.requests), api.requests, old(api.now), api.now, queuedAt)
    ensures |api.log| >= |old(api.log)|
    ensures forall k :: |old(api.log)| <= k < |api.log| ==>
      Timely(api.log[k], queuedAt, old(api.requests), old(api.cooldown > api.now))
  {
    api.HoldTo(queuedAt + QUEUE_SECONDS + EXECUTION_SECONDS, queuedAt + QUEUE_SECONDS);
    r, e, shown, rounds := WaitRounds(api, src, queuedAt);
    InTime(api.log, api.hold.value, queuedAt);
  }
}
