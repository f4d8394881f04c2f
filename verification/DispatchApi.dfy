/** The request layer of scripts/ci/macos_dispatch.py: budgeted requests, bounded retries,
    the ETag cache and pagination.  The server is two functions of the request's number:
    what each resource is when that request arrives, and how the server replies to it; the
    clock moves by any amount whenever time can pass. */
module DispatchApi {

  datatype Option<+T> = None | Some(value: T)

  datatype Error = Superseded | Unavailable | Rejected(code: nat) | Lost

  datatype Result<+T> = Ok(value: T) | Err(error: Error)

  type Path = string
  type Tag = string

  const OBSERVATION_SECONDS := 60.0
  const MAX_PAGES := 5

  // ---- What the API talks about ----------------------------------------------------------------

  datatype TestStep = TestStep(name: string, conclusion: string)

  datatype Job = Job(assignedRunner: bool, status: string, steps: seq<TestStep>)

  datatype RunInfo = RunInfo(id: nat, attempt: int, status: string, conclusion: string,
                             title: string, path: string, event: string)

  datatype PullInfo = PullInfo(state: string, headRepo: Option<int>, headSha: string)

  /** What each reader finds in a response's JSON object. */
  datatype Body = Body(run: RunInfo, pull: PullInfo, runs: Option<seq<RunInfo>>, jobs: Option<seq<Job>>)

  /** An empty tag is no tag. */
  datatype Resource = Resource(body: Body, next: Option<Path>, tag: Tag)

  /** `delay` is the wait a rate limit asks for, `stated` whether its headers state it. */
  datatype Reply = Answer(resource: Resource) | Refused(code: nat, delay: Option<real>, stated: bool) | Broken

  type Site = (nat, Path) -> Resource
  type Server = (nat, Path, Tag) -> Reply

  /** The server answers with the resource as it is; it says 304 only to a request whose
      If-None-Match is the current tag (sections 13.1.2 and 15.4.5 of RFC 9110); resources
      with one tag have one body (section 8.8.3); only 403 and 429 ask for a wait. */
  ghost predicate Conforming(site: Site, server: Server) {
    && (forall n, p, t :: server(n, p, t).Answer? ==> server(n, p, t).resource == site(n, p))
    && (forall n, p, t :: server(n, p, t).Refused? && server(n, p, t).code == 304 ==> t != "" && t == site(n, p).tag)
    && (forall m, n, p :: site(m, p).tag == site(n, p).tag != "" ==> site(m, p).body == site(n, p).body)
    && (forall n, p, t :: server(n, p, t).Refused? && server(n, p, t).delay.Some? ==>
          server(n, p, t).code in {403, 429} && server(n, p, t).delay.value >= 1.0)
  }

  /** A read goes on after these: a lost connection, a server error, a rate limit. */
  predicate Retryable(r: Reply) {
    r.Broken? || (r.Refused? && r.code != 304 && (r.code >= 500 || r.delay.Some?))
  }

  // ---- What the budget allows ------------------------------------------------------------------

  /** What `_pause` decides at a reading of the clock: the request budget has expired, the
      cooldown reaches the deadline, or to go on after `delay` seconds. */
  datatype Decision = Expired | Exceeds | Go(delay: real)

  function Decide(now: real, cooldown: real, deadline: Option<real>, limit: Option<real>): Decision {
    var delay := if cooldown > now then cooldown - now else 0.0;
    if limit.Some? && now >= limit.value then Expired
    else if delay > 0.0 && deadline.Some? && now + delay >= deadline.value then Exceeds
    else Go(delay)
  }

  /** A backoff of `delay` from `asked`, and a request that left at `at`, of which `over` is
      how far the sleep before it overran; each with the deadlines then set. */
  datatype Event =
    | Slept(asked: real, delay: real, deadline: Option<real>)
    | Started(number: nat, at: real, over: real, deadline: Option<real>, limit: Option<real>)

  /** A request that did not wait leaves before the request deadline, and one that did
      before the deadline itself, but for the overrun of its wait. */
  predicate InBudget(e: Event) {
    match e
    case Slept(asked, delay, deadline) => deadline.Some? ==> asked + delay < deadline.value
    case Started(_, at, over, deadline, limit) =>
      && over >= 0.0 && (limit.Some? ==> at - over < limit.value)
      && (over > 0.0 && deadline.Some? ==> at - over < deadline.value)
  }

  /** A request that leaves once `_pause` let it go keeps the budget. */
  lemma GoesInBudget(number: nat, asked: real, cooldown: real, deadline: Option<real>, limit: Option<real>, over: real)
    requires deadline.Some? == limit.Some? && (deadline.Some? ==> deadline.value <= limit.value) && over >= 0.0
    requires Decide(asked, cooldown, deadline, limit).Go?
    requires Decide(asked, cooldown, deadline, limit).delay == 0.0 ==> over == 0.0
    ensures InBudget(Started(number, asked + Decide(asked, cooldown, deadline, limit).delay + over, over, deadline, limit))
  {}

  /** What a caller holds the budget to, from the event `since` and the request `from` on:
      deadlines to `cap`; and to `early` the wait that a cooldown left over from before, if
      there is one (`hot`), asks of the first request. */
  datatype Hold = Hold(since: nat, from: nat, hot: bool, cap: real, early: real)

  /** A deadline is at most the cap, a request deadline at most the observation time later;
      and no request's own pause has overrun, except the first's over a left-over cooldown. */
  predicate Bounded(e: Event, h: Hold) {
    match e
    case Slept(_, _, d) => d.Some? && d.value <= h.cap
    case Started(n, at, over, d, l) =>
      && d.Some? && d.value <= h.cap && l.Some? && l.value <= h.cap + OBSERVATION_SECONDS
      && (over > 0.0 ==> h.hot && n == h.from && at - over < h.early)
  }

  /** How many requests the events start. */
  ghost function Starts(log: seq<Event>): nat {
    if log == [] then 0
    else Starts(log[..|log| - 1]) + (if log[|log| - 1].Started? then 1 else 0)
  }

  lemma StartsOneMore(log: seq<Event>, e: Event)
    ensures Starts(log + [e]) == Starts(log) + (if e.Started? then 1 else 0)
  {
    assert (log + [e])[..|log|] == log;
  }

  /** All events keep the budget, they start these requests, and since the hold they keep to it. */
  ghost predicate LogOk(log: seq<Event>, requests: nat, hold: Option<Hold>) {
    && (forall e <- log :: InBudget(e)) && Starts(log) == requests
    && (hold.Some? ==>
          && hold.value.since <= |log| && hold.value.from <= requests
          && forall k :: hold.value.since <= k < |log| ==> Bounded(log[k], hold.value))
  }

  lemma LogOneMore(log: seq<Event>, requests: nat, hold: Option<Hold>, e: Event)
    requires LogOk(log, requests, hold) && InBudget(e) && (hold.Some? ==> Bounded(e, hold.value))
    ensures LogOk(log + [e], requests + (if e.Started? then 1 else 0), hold)
  {
    StartsOneMore(log, e);
  }

  /** A cached entry is what its resource was at an earlier request, and has a tag. */
  ghost predicate CacheOk(site: Site, conditional: map<Path, Resource>, fetched: map<Path, nat>, requests: nat) {
    && conditional.Keys == fetched.Keys
    && (forall p <- conditional ::
          fetched[p] < requests && conditional[p] == site(fetched[p], p) && conditional[p].tag != "")
  }

  /** The tag cached for a path, empty if there is none. */
  function TagOf(conditional: map<Path, Resource>, path: Path): Tag {
    if path in conditional then conditional[path].tag else ""
  }

  lemma CacheLater(site: Site, conditional: map<Path, Resource>, fetched: map<Path, nat>, requests: nat)
    requires CacheOk(site, conditional, fetched, requests)
    ensures CacheOk(site, conditional, fetched, requests + 1)
  {}

  // ---- How long a read backs off ----------------------------------------------------------------

  function Doubled(x: real, n: nat): (r: real)
    ensures x >= 0.0 ==> r >= x
    ensures n == 1 ==> r == 2.0 * x
  {
    if n == 0 then x else 2.0 * Doubled(x, n - 1)
  }

  predicate RateLimited(reply: Reply) { reply.Refused? && reply.delay.Some? }

  /** The wait before the next attempt: two seconds more each time, or what the rate limit
      asks for, doubled each time unless its headers state it; never less than it asks for. */
  function Backoff(reply: Reply, attempt: nat): (delay: real)
    ensures !RateLimited(reply) ==> delay == 2.0 * (attempt + 1) as real
    ensures RateLimited(reply) && (reply.stated || attempt == 0) ==> delay == reply.delay.value
    ensures RateLimited(reply) && !reply.stated && attempt == 1 ==> delay == 2.0 * reply.delay.value
    ensures RateLimited(reply) && reply.delay.value >= 0.0 ==> delay >= reply.delay.value
  {
    if RateLimited(reply) then if reply.stated then reply.delay.value else Doubled(reply.delay.value, attempt)
    else 2.0 * (attempt + 1) as real
  }

  /** Requests numbered from `lo` on left at these times, each after the one before it has
      been backed off from. */
  ghost predicate Paced(server: Server, path: Path, tag: Tag, lo: nat, starts: seq<real>) {
    forall k :: 0 <= k < |starts| - 1 ==> starts[k + 1] >= starts[k] + Backoff(server(lo + k, path, tag), k)
  }

  lemma PacedOneMore(server: Server, path: Path, tag: Tag, lo: nat, starts: seq<real>, at: real)
    requires Paced(server, path, tag, lo, starts)
    requires starts != [] ==> at >= starts[|starts| - 1] + Backoff(server(lo + |starts| - 1, path, tag), |starts| - 1)
    ensures Paced(server, path, tag, lo, starts + [at])
  {}

  predicate StartedAt(log: seq<Event>, n: nat, at: real) {
    exists k :: 0 <= k < |log| && log[k].Started? && log[k].number == n && log[k].at == at
  }

  /** The log has those requests. */
  predicate Logged(log: seq<Event>, lo: nat, starts: seq<real>) {
    forall k :: 0 <= k < |starts| ==> StartedAt(log, lo + k, starts[k])
  }

  /** So the log has the requests of a read, paced. */
  ghost predicate Trail(server: Server, path: Path, tag: Tag, lo: nat, starts: seq<real>, log: seq<Event>) {
    Paced(server, path, tag, lo, starts) && Logged(log, lo, starts)
  }

  lemma TrailGrows(server: Server, path: Path, tag: Tag, lo: nat, starts: seq<real>, log: seq<Event>, more: seq<Event>)
    requires Trail(server, path, tag, lo, starts, log) && log <= more
    ensures Trail(server, path, tag, lo, starts, more)
  {
    LoggedGrows(log, more, lo, starts);
  }

  lemma TrailOneMore(server: Server, path: Path, tag: Tag, lo: nat, starts: seq<real>, log: seq<Event>)
    requires Trail(server, path, tag, lo, starts, log) && log != []
    requires log[|log| - 1].Started? && log[|log| - 1].number == lo + |starts|
    requires starts != [] ==>
      log[|log| - 1].at >= starts[|starts| - 1] + Backoff(server(lo + |starts| - 1, path, tag), |starts| - 1)
    ensures Trail(server, path, tag, lo, starts + [log[|log| - 1].at], log)
  {
    var at := log[|log| - 1].at;
    PacedOneMore(server, path, tag, lo, starts, at);
    assert StartedAt(log, lo + |starts|, at);
  }

  lemma LoggedGrows(log: seq<Event>, more: seq<Event>, lo: nat, starts: seq<real>)
    requires Logged(log, lo, starts) && log <= more
    ensures Logged(more, lo, starts)
  {
    forall k | 0 <= k < |starts| ensures StartedAt(more, lo + k, starts[k]) {
      assert StartedAt(log, lo + k, starts[k]);
      var j :| 0 <= j < |log| && log[j].Started? && log[j].number == lo + k && log[j].at == starts[k];
      assert more[j] == log[j];
    }
  }

  // ---- What a read makes of the replies -----------------------------------------------------------

  /** The last reply to requests numbered from `lo` to below `hi`, three at most and each but
      the last one retryable; None if the budget ran out. */
  ghost predicate Asked(server: Server, path: Path, tag: Tag, lo: nat, hi: nat, r: Option<Reply>) {
    && lo <= hi <= lo + 3
    && (forall k :: lo <= k < hi - 1 ==> Retryable(server(k, path, tag)))
    && (r.Some? ==> hi > lo && r.value == server(hi - 1, path, tag) && (Retryable(r.value) ==> hi == lo + 3))
  }

  /** One more request after retryable replies only: another retryable one, or the last. */
  lemma AskedOneMore(server: Server, path: Path, tag: Tag, lo: nat, attempt: nat, hi: nat, r: Option<Reply>, again: bool)
    requires attempt <= 2 && RetryableAll(server, path, tag, lo, lo + attempt)
    requires r.None? ==> !again && (hi == lo + attempt || (hi == lo + attempt + 1 && attempt < 2))
    requires r.Some? ==> hi == lo + attempt + 1 && r.value == server(lo + attempt, path, tag)
    requires r.Some? ==> (again <==> attempt < 2 && Retryable(r.value))
    ensures again ==> RetryableAll(server, path, tag, lo, hi)
    ensures !again ==> Asked(server, path, tag, lo, hi, r)
  {}

  ghost predicate RetryableAll(server: Server, path: Path, tag: Tag, lo: nat, hi: nat) {
    forall k :: lo <= k < hi ==> Retryable(server(k, path, tag))
  }

  /** What a reply to request `at` comes to: the body sent, the cached body that a 304 says is
      current, or an error. */
  ghost predicate Settled(site: Site, path: Path, at: nat, reply: Reply, r: Result<Resource>, sent: nat) {
    && (r.Ok? <==> reply.Answer? || (reply.Refused? && reply.code == 304))
    && (r.Ok? ==>
          && r.value == site(sent, path) && Sound(site, Page(path, at, sent))
          && r.value.body == site(at, path).body)
    && (r.Err? ==> r.error != Unavailable && r.error != Superseded)
  }

  /** What a read by requests numbered from `lo` to below `hi` comes to: the body its resource
      has at the last of them; or an error, on a spent budget, on a reply that is not
      retryable, or on the third one that is.  Each reply but the last one was retryable. */
  ghost predicate WasRead(site: Site, server: Server, path: Path, tag: Tag, lo: nat, hi: nat,
                          r: Result<Resource>, sent: nat) {
    && lo <= hi <= lo + 3
    && (forall k :: lo <= k < hi - 1 ==> Retryable(server(k, path, tag)))
    && (r.Ok? ==>
          && hi > lo && r.value.body == site(hi - 1, path).body
          && r.value == site(sent, path) && Sound(site, Page(path, hi - 1, sent))
          && !Retryable(server(hi - 1, path, tag)))
    && (r.Err? ==>
          && r.error != Superseded
          && (r.error != Unavailable ==> hi > lo && (hi == lo + 3 || !Retryable(server(hi - 1, path, tag)))))
  }

  lemma SettledWasRead(site: Site, server: Server, path: Path, tag: Tag, lo: nat, hi: nat,
                       reply: Option<Reply>, r: Result<Resource>, sent: nat)
    requires Asked(server, path, tag, lo, hi, reply)
    requires if reply.None? then r == Err(Unavailable) else Settled(site, path, hi - 1, reply.value, r, sent)
    ensures WasRead(site, server, path, tag, lo, hi, r, sent)
    ensures r.Ok? ==> reply.Some? && !Retryable(reply.value)
    ensures r == Err(Unavailable) ==> reply.None?
  {}

  // ---- Pages -----------------------------------------------------------------------------------

  /** A page that request `at` read, as sent in reply to request `sent`. */
  datatype Page = Page(path: Path, at: nat, sent: nat)

  /** The page was sent to its own request, or to an earlier one with the tag it still has. */
  ghost predicate Sound(site: Site, page: Page) {
    && page.sent <= page.at
    && (page.sent == page.at || site(page.sent, page.path).tag == site(page.at, page.path).tag != "")
  }

  /** Where the pages so far lead: to the first page, or along the last page's link. */
  ghost function Following(site: Site, path: Path, pages: seq<Page>): Option<Path> {
    if pages == [] then Some(path) else site(pages[|pages| - 1].sent, pages[|pages| - 1].path).next
  }

  /** Each page is where the pages before it lead. */
  ghost predicate Linked(site: Site, path: Path, pages: seq<Page>) {
    pages == [] ||
    (var front := pages[..|pages| - 1];
     Following(site, path, front) == Some(pages[|pages| - 1].path) && Linked(site, path, front))
  }

  /** The collection the pages hold, each as it was at its own request. */
  ghost function Collected<T>(site: Site, key: Body -> Option<seq<T>>, pages: seq<Page>): seq<T> {
    if pages == [] then []
    else
      var last := pages[|pages| - 1];
      var items := key(site(last.at, last.path).body);
      Collected(site, key, pages[..|pages| - 1]) + (if items.Some? then items.value else [])
  }

  /** Distinct linked pages from `path` on, at most MAX_PAGES, all listing the collection,
      read in order by requests numbered from `lo` to below `hi`. */
  ghost predicate PagesFrom<T>(site: Site, key: Body -> Option<seq<T>>, path: Path, pages: seq<Page>, lo: nat, hi: nat) {
    && |pages| <= MAX_PAGES && Linked(site, path, pages)
    && (forall k :: 0 <= k < |pages| ==> lo <= pages[k].at < hi && Lists(site, key, pages[k]))
    && (forall j, k :: 0 <= j < k < |pages| ==> pages[j].at < pages[k].at && pages[j].path != pages[k].path)
  }

  ghost predicate Lists<T>(site: Site, key: Body -> Option<seq<T>>, page: Page) {
    Sound(site, page) && key(site(page.at, page.path).body).Some?
  }

  lemma PagesOneMore<T>(site: Site, key: Body -> Option<seq<T>>, path: Path, pages: seq<Page>, page: Page)
    requires Lists(site, key, page) && Linked(site, path, pages) && Following(site, path, pages) == Some(page.path)
    ensures Collected(site, key, pages + [page]) == Collected(site, key, pages) + key(site(page.at, page.path).body).value
    ensures Linked(site, path, pages + [page])
  {
    assert (pages + [page])[..|pages|] == pages;
  }

  /** Pages from `path` on, their paths and their items. */
  ghost predicate Listing<T>(site: Site, key: Body -> Option<seq<T>>, path: Path, pages: seq<Page>,
                             visited: set<Path>, items: seq<T>, lo: nat, hi: nat) {
    && PagesFrom(site, key, path, pages, lo, hi)
    && |visited| == |pages| && (forall k :: 0 <= k < |pages| ==> pages[k].path in visited)
    && items == Collected(site, key, pages)
  }

  lemma ListingOneMore<T>(site: Site, key: Body -> Option<seq<T>>, path: Path, pages: seq<Page>,
                          visited: set<Path>, items: seq<T>, page: Page, lo: nat, mid: nat, hi: nat)
    requires Listing(site, key, path, pages, visited, items, lo, mid) && lo <= mid <= page.at < hi
    requires |visited| < MAX_PAGES && page.path !in visited && Following(site, path, pages) == Some(page.path)
    requires Lists(site, key, page)
    ensures Listing(site, key, path, pages + [page], visited + {page.path},
                    items + key(site(page.at, page.path).body).value, lo, hi)
  {
    PagesOneMore(site, key, path, pages, page);
  }

  // ---- The API object --------------------------------------------------------------------------

  class Api {
    const site: Site
    const server: Server
    var now: real
    var requests: nat
    var conditional: map<Path, Resource>
    var cooldown: real
    var deadline: Option<real>
    var requestDeadline: Option<real>
    ghost var fetched: map<Path, nat>  // the request that filled each cache entry
    ghost var log: seq<Event>
    ghost var hold: Option<Hold>       // what the budget is held to

    constructor (site: Site, server: Server, now: real)
      requires Conforming(site, server)
      ensures Valid() && this.site == site && this.server == server && this.now == now
      ensures requests == 0 && conditional == map[] && deadline == None && log == [] && hold == None
    {
      this.site, this.server, this.now := site, server, now;
      requests, conditional, cooldown := 0, map[], 0.0;
      deadline, requestDeadline := None, None;
      fetched, log, hold := map[], [], None;
    }

    ghost predicate Valid()
      reads this
    {
      && Conforming(site, server) && CacheOk(site, conditional, fetched, requests) && LogOk(log, requests, hold)
      && deadline.Some? == requestDeadline.Some?
      && (deadline.Some? ==> deadline.value <= requestDeadline.value)
    }

    /** The deadlines now set keep to the cap, if there is one. */
    ghost predicate Ready()
      reads this
    {
      && Valid()
      && (hold.Some? ==>
            && deadline.Some? && deadline.value <= hold.value.cap
            && requestDeadline.value <= hold.value.cap + OBSERVATION_SECONDS)
    }

    /** The next request will not sleep in its own pause; or it is the first that is held, and
        the cooldown was left over from before. */
    ghost predicate Cool()
      reads this
    {
      hold.Some? ==>
        || cooldown <= now
        || (hold.value.hot && requests == hold.value.from && deadline.Some? && deadline.value <= hold.value.early)
    }

    /** From here on, hold the deadlines to `cap`, and to `early` a wait left over from before. */
    ghost method HoldTo(cap: real, early: real)
      requires Valid()
      modifies this`hold
      ensures Valid() && hold == Some(Hold(|log|, requests, cooldown > now, cap, early))
    {
      hold := Some(Hold(|log|, requests, cooldown > now, cap, early));
    }

    /** Time passes. */
    method Tick()
      modifies this`now
      ensures now >= old(now)
    {
      var elapsed: real := *;
      if elapsed > 0.0 { now := now + elapsed; }
    }

    method Sleep(delay: real)
      modifies this`now
      ensures now >= old(now) + delay
    {
      now := now + delay;
      Tick();
    }

    method SetDeadline(deadline: real, observe: bool)
      requires Valid()
      modifies this`deadline, this`requestDeadline
      ensures Valid() && this.deadline == Some(deadline)
      ensures requestDeadline == Some(if observe then deadline + OBSERVATION_SECONDS else deadline)
    {
      this.deadline := Some(deadline);
      requestDeadline := Some(deadline + if observe then OBSERVATION_SECONDS else 0.0);
    }

    /** Sleep, and remember having slept. */
    method Doze(delay: real)
      requires Ready() && delay > 0.0 && (deadline.Some? ==> now + delay < deadline.value)
      modifies this`now, this`log
      ensures Ready() && now >= old(now) + delay && log == old(log) + [Slept(old(now), delay, deadline)]
    {
      LogOneMore(log, requests, hold, Slept(now, delay, deadline));
      log := log + [Slept(now, delay, deadline)];
      Sleep(delay);
    }

    /** Wait out the cooldown, or refuse, as decided at one reading `asked` of the clock; a
        wait takes its delay and overruns by `over`.  Nothing else changes, and a refusal
        sleeps not at all.  So once it is done the cooldown is over, and the next one will
        not wait. */
    method Pause() returns (ok: bool, ghost asked: real, ghost over: real)
      requires Ready()
      modifies this`now, this`log
      ensures Ready() && old(now) <= asked <= now && over >= 0.0
      ensures (ok ==> cooldown <= now) && (cooldown <= old(now) ==> over == 0.0)
      ensures var d := Decide(asked, cooldown, deadline, requestDeadline);
        && (ok <==> d.Go?) && (d.Go? ==> now == asked + d.delay + over && (d.delay == 0.0 ==> over == 0.0))
        && (!ok ==> now == asked)
        && log == old(log) + if d.Go? && d.delay > 0.0 then [Slept(asked, d.delay, deadline)] else []
    {
      Tick();
      var delay := if cooldown > now then cooldown - now else 0.0;
      asked, over := now, 0.0;
      if requestDeadline.Some? && now >= requestDeadline.value {
        return false, asked, over;
      }
      if delay > 0.0 && deadline.Some? && now + delay >= deadline.value {
        return false, asked, over;
      }
      assert Decide(asked, cooldown, deadline, requestDeadline) == Go(delay);
      ok := true;
      if delay > 0.0 {
        Doze(delay);
        over := now - (asked + delay);
      }
    }

    /** The next request, leaving now. */
    ghost function Departure(over: real): Event
      reads this
    {
      Started(requests, now, over, deadline, requestDeadline)
    }

    /** Wait for the next request's turn, if the budget allows it. */
    method AwaitTurn() returns (ok: bool, ghost over: real)
      requires Ready() && Cool()
      modifies this`now, this`log
      ensures Ready() && now >= old(now) && old(log) <= log
      ensures ok ==> InBudget(Departure(over)) && (hold.Some? ==> Bounded(Departure(over), hold.value)) && cooldown <= now
      ensures !ok ==> deadline.Some?
    {
      ghost var asked;
      ok, asked, over := Pause();
      if !ok { return; }
      GoesInBudget(requests, asked, cooldown, deadline, requestDeadline, over);
    }

    /** A request leaves. */
    method Depart(ghost over: real)
      requires Ready() && InBudget(Departure(over)) && (hold.Some? ==> Bounded(Departure(over), hold.value))
      modifies this`log, this`requests
      ensures Ready() && requests == old(requests) + 1 && log == old(log) + [old(Departure(over))]
    {
      LogOneMore(log, requests, hold, Departure(over));
      CacheLater(site, conditional, fetched, requests);
      log := log + [Departure(over)];
      requests := requests + 1;
    }

    /** One request, if the budget allows it: its reply is the server's to the next request. */
    method Request(path: Path, tag: Tag) returns (r: Option<Reply>)
      requires Ready() && Cool()
      modifies this`now, this`log, this`requests, this`cooldown
      ensures Ready() && now >= old(now)
      ensures r.None? ==> requests == old(requests) && deadline.Some? && cooldown == old(cooldown)
      ensures r.Some? ==> requests == old(requests) + 1 && r.value == server(old(requests), path, tag)
      ensures r.Some? ==>
        cooldown == if r.value.Refused? && r.value.delay.Some? then now + r.value.delay.value else old(cooldown)
      ensures r.Some? && !Retryable(r.value) ==> cooldown <= now
      ensures old(log) <= log
      ensures r.Some? ==> |log| > |old(log)| && log[|log| - 1].Started? && log[|log| - 1].number == old(requests)
      ensures r.Some? ==> old(now) <= log[|log| - 1].at <= now
    {
      var ok;
      ghost var over;
      ok, over := AwaitTurn();
      if !ok { return None; }
      var reply := server(requests, path, tag);
      Depart(over);
      Tick();
      if reply.Refused? && reply.delay.Some? { cooldown := now + reply.delay.value; }
      r := Some(reply);
    }

    method Remember(path: Path, resource: Resource, ghost at: nat)
      requires Ready() && at < requests && resource == site(at, path)
      modifies this`conditional, this`fetched
      ensures Ready()
      ensures forall p :: p != path ==> TagOf(conditional, p) == TagOf(old(conditional), p)
      ensures TagOf(conditional, path) == resource.tag
    {
      if resource.tag != "" {
        conditional := conditional[path := resource];
        fetched := fetched[path := at];
      } else {
        conditional := conditional - {path};
        fetched := fetched - {path};
      }
    }

    /** What a read makes of a reply it does not retry: the body sent, the cached body that a
        304 says is current, or an error. */
    method Settle(path: Path, reply: Reply) returns (r: Result<Resource>, ghost sent: nat)
      requires Ready() && requests > 0 && reply == server(requests - 1, path, TagOf(conditional, path))
      modifies this`conditional, this`fetched
      ensures Ready() && Settled(site, path, requests - 1, reply, r, sent)
      ensures r.Ok? ==> TagOf(conditional, path) == site(requests - 1, path).tag
      ensures r.Err? ==> conditional == old(conditional)
    {
      sent := requests - 1;
      if reply.Answer? {
        Remember(path, reply.resource, requests - 1);
        return Ok(reply.resource), sent;
      }
      if reply.Refused? && reply.code == 304 {
        if path !in conditional { return Err(Unavailable), sent; }
        return Ok(conditional[path]), fetched[path];
      }
      return Err(if reply.Refused? then Rejected(reply.code) else Lost), sent;
    }

    /** Cool down before another attempt, if the budget allows it. */
    method BackOff(reply: Reply, attempt: nat) returns (ok: bool)
      requires Ready()
      modifies this`now, this`log, this`cooldown
      ensures Ready() && now >= old(now)
      ensures old(log) <= log
      ensures ok ==> now >= old(now) + Backoff(reply, attempt) && cooldown <= now
      ensures !ok ==> deadline.Some?
    {
      cooldown := now + Backoff(reply, attempt);
      var paused, _, _ := Pause();
      ok := paused;
    }

    /** One attempt of a read, once the ones before it have been backed off from. */
    method Attempt(path: Path, tag: Tag, ghost lo: nat, ghost starts: seq<real>) returns (r: Option<Reply>, ghost more: seq<real>)
      requires Ready() && Cool() && requests == lo + |starts| && Trail(server, path, tag, lo, starts, log)
      requires starts != [] ==> now >= starts[|starts| - 1] + Backoff(server(requests - 1, path, tag), |starts| - 1)
      modifies this`now, this`log, this`requests, this`cooldown
      ensures Ready() && now >= old(now) && Trail(server, path, tag, lo, more, log)
      ensures r.None? ==> requests == old(requests) && deadline.Some? && more == starts
      ensures r.Some? ==> requests == old(requests) + 1 && r.value == server(old(requests), path, tag)
      ensures r.Some? ==> |more| == |starts| + 1 && now >= more[|starts|]
      ensures r.Some? && !Retryable(r.value) ==> cooldown <= now
    {
      r := Request(path, tag);
      more := starts;
      TrailGrows(server, path, tag, lo, starts, old(log), log);
      if r.None? { return; }
      TrailOneMore(server, path, tag, lo, starts, log);
      more := starts + [log[|log| - 1].at];
    }

    /** An attempt, and the backoff from it if there is to be another. */
    method Try(path: Path, tag: Tag, attempt: nat, ghost lo: nat, ghost starts: seq<real>)
      returns (r: Option<Reply>, again: bool, ghost more: seq<real>)
      requires Ready() && Cool() && requests == lo + attempt && |starts| == attempt && Trail(server, path, tag, lo, starts, log)
      requires attempt > 0 ==> now >= starts[attempt - 1] + Backoff(server(requests - 1, path, tag), attempt - 1)
      modifies this`now, this`log, this`requests, this`cooldown
      ensures Ready() && now >= old(now) && Trail(server, path, tag, lo, more, log) && requests == lo + |more|
      ensures r.None? ==> !again && deadline.Some? && (requests == lo + attempt || (requests == lo + attempt + 1 && attempt < 2))
      ensures r.Some? ==> requests == lo + attempt + 1 && r.value == server(lo + attempt, path, tag)
      ensures r.Some? ==> (again <==> attempt < 2 && Retryable(r.value))
      ensures again || (r.Some? && !Retryable(r.value)) ==> cooldown <= now
      ensures again ==> now >= more[attempt] + Backoff(server(lo + attempt, path, tag), attempt)
    {
      r, more := Attempt(path, tag, lo, starts);
      again := r.Some? && attempt < 2 && Retryable(r.value);
      if again {
        ghost var before := log;
        var ok := BackOff(r.value, attempt);
        TrailGrows(server, path, tag, lo, more, before, log);
        if !ok { r, again := None, false; }
      }
    }

    /** Request until a reply is not retryable, three times at most; None if the budget ran
        out.  A request leaves only after the one before it has been backed off from, so not
        before a rate limit's wait is over; a reply that is not retryable leaves no cooldown. */
    method Ask(path: Path, tag: Tag) returns (r: Option<Reply>, ghost starts: seq<real>)
      requires Ready() && Cool()
      modifies this`now, this`log, this`requests, this`cooldown
      ensures Ready() && now >= old(now)
      ensures Asked(server, path, tag, old(requests), requests, r)
      ensures |starts| == requests - old(requests) && Trail(server, path, tag, old(requests), starts, log)
      ensures r.None? ==> deadline.Some?
      ensures r.Some? && !Retryable(r.value) ==> cooldown <= now
    {
      var attempt, again := 0, true;
      r, starts := None, [];
      while again
        modifies this`now, this`log, this`requests, this`cooldown
        invariant Ready() && now >= old(now) && Trail(server, path, tag, old(requests), starts, log)
        invariant |starts| == requests - old(requests) && attempt <= 3
        invariant again ==> attempt <= 2 && Cool() && requests == old(requests) + attempt
        invariant again ==> RetryableAll(server, path, tag, old(requests), old(requests) + attempt)
        invariant again && attempt > 0 ==> now >= starts[attempt - 1] + Backoff(server(requests - 1, path, tag), attempt - 1)
        invariant !again ==> Asked(server, path, tag, old(requests), requests, r) && (r.None? ==> deadline.Some?)
        invariant !again && r.Some? && !Retryable(r.value) ==> cooldown <= now
        decreases again, 3 - attempt
      {
        r, again, starts := Try(path, tag, attempt, old(requests), starts);
        AskedOneMore(server, path, tag, old(requests), attempt, requests, r, again);
        attempt := attempt + 1;
      }
    }

    /** The reply alone. */
    method Answered(path: Path, tag: Tag) returns (r: Option<Reply>)
      requires Ready() && Cool()
      modifies this`now, this`log, this`requests, this`cooldown
      ensures Ready() && now >= old(now)
      ensures Asked(server, path, tag, old(requests), requests, r)
      ensures r.None? ==> deadline.Some?
      ensures r.Some? && !Retryable(r.value) ==> cooldown <= now
    {
      ghost var starts;
      r, starts := Ask(path, tag);
    }

    /** A read returns the body its resource has at the read's own last request, whether the
        server sent it or a 304 said that the cached one is current; it leaves the tag of that
        body in the cache and no cooldown.  It makes at most three requests, each but the last
        one retryable; it fails only on a spent budget, on a reply that is not retryable, or
        on the third one that is, and then leaves the cache as it was. */
    method Read(path: Path) returns (r: Result<Resource>, ghost sent: nat)
      requires Ready() && Cool()
      modifies this`now, this`log, this`requests, this`cooldown, this`conditional, this`fetched
      ensures Ready() && now >= old(now)
      ensures WasRead(site, server, path, TagOf(old(conditional), path), old(requests), requests, r, sent)
      ensures r.Ok? ==> TagOf(conditional, path) == site(requests - 1, path).tag && cooldown <= now
      ensures r.Err? ==> conditional == old(conditional)
      ensures r == Err(Unavailable) ==> deadline.Some?
    {
      var reply := Answered(path, TagOf(conditional, path));
      if reply.None? {
        r, sent := Err(Unavailable), 0;
      } else {
        r, sent := Settle(path, reply.value);
      }
      SettledWasRead(site, server, path, TagOf(old(conditional), path), old(requests), requests, reply, r, sent);
    }

    /** Read one more page of a listing that has room for it, and the link to the next. */
    method NextPage<T>(first: Path, key: Body -> Option<seq<T>>, path: Path, visited: set<Path>, items: seq<T>,
                       ghost pages: seq<Page>, ghost lo: nat)
      returns (r: Result<seq<T>>, next: Option<Path>, ghost more: seq<Page>)
      requires Ready() && Cool() && lo <= requests && Listing(site, key, first, pages, visited, items, lo, requests)
      requires |visited| < MAX_PAGES && path !in visited && Following(site, first, pages) == Some(path)
      modifies this`now, this`log, this`requests, this`cooldown, this`conditional, this`fetched
      ensures Ready() && now >= old(now)
      ensures old(requests) <= requests <= old(requests) + 3
      ensures r.Ok? ==> Listing(site, key, first, more, visited + {path}, r.value, lo, requests)
      ensures r.Ok? ==> cooldown <= now && |more| == |pages| + 1 && next == Following(site, first, more)
      ensures r.Err? ==> more == pages && r.error != Superseded
    {
      next, more := None, pages;
      ghost var mid := requests;
      var response;
      ghost var sent;
      response, sent := Read(path);
      if response.Err? { return Err(response.error), next, more; }
      var page := key(response.value.body);
      if page.None? { return Err(Unavailable), next, more; }
      ghost var last := Page(path, requests - 1, sent);
      ListingOneMore(site, key, first, pages, visited, items, last, lo, mid, requests);
      return Ok(items + page.value), response.value.next, pages + [last];
    }

    /** All items of a collection, page after page until one has no link. */
    method Collection<T>(path: Path, key: Body -> Option<seq<T>>) returns (r: Result<seq<T>>, ghost pages: seq<Page>)
      requires Ready() && Cool()
      modifies this`now, this`log, this`requests, this`cooldown, this`conditional, this`fetched
      ensures Ready() && now >= old(now)
      ensures old(requests) <= requests <= old(requests) + 3 * MAX_PAGES
      ensures PagesFrom(site, key, path, pages, old(requests), requests)
      ensures r.Ok? ==> cooldown <= now && pages != [] && Following(site, path, pages).None? && r.value == Collected(site, key, pages)
      ensures r.Err? ==> r.error != Superseded
    {
      var visited: set<Path>, next := {}, Some(path);
      pages, r := [], Ok([]);
      while next.Some?
        modifies this`now, this`log, this`requests, this`cooldown, this`conditional, this`fetched
        invariant Ready() && Cool() && now >= old(now)
        invariant next.None? ==> cooldown <= now
        invariant next == Following(site, path, pages)
        invariant old(requests) <= requests <= old(requests) + 3 * |visited|
        invariant r.Ok? && Listing(site, key, path, pages, visited, r.value, old(requests), requests)
        decreases MAX_PAGES - |visited|
      {
        if next.value in visited || |visited| >= MAX_PAGES { return Err(Unavailable), pages; }
        var current := next.value;
        r, next, pages := NextPage(path, key, current, visited, r.value, pages, old(requests));
        if r.Err? { return; }
        visited := visited + {current};
      }
    }
  }
}
