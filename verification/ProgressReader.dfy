/** Reading the progress file: scripts/ci/manual_harness.py, `Replay.read` and
    `Replay.accept`.  Decoding a line is an arbitrary function of its bytes; a record
    is kept as the line it was decoded from. */
module ProgressReader {
  import opened ProgressReplay

  datatype Error = BudgetExceeded | TruncatedRecord | InvalidProgress | ObservationError

  /** The reader over any projection S of the records accepted so far. */
  datatype Reader<S> = Reader(offset: nat, state: S, records: seq<Bytes>, error: Option<Error>)

  const FRESH: Reader<State> := Reader(0, INITIAL, [], None)

  const NEWLINE: bv8 := 10

  /** `readline(limit)`: up to and including the first newline, the limit, or the end. */
  function LineLength(rest: Bytes, limit: nat): (n: nat)
    ensures n <= limit && n <= |rest|
    ensures forall k :: 0 <= k < n - 1 ==> rest[k] != NEWLINE
    ensures n < limit && n < |rest| ==> n > 0 && rest[n - 1] == NEWLINE
    decreases limit
  {
    if limit == 0 || rest == [] then 0
    else if rest[0] == NEWLINE then 1
    else 1 + LineLength(rest[1..], limit - 1)
  }

  function LineAt(file: Bytes, offset: nat): (line: Bytes)
    requires offset <= |file|
    ensures |line| <= |file| - offset
  {
    var rest := file[offset..];
    rest[..LineLength(rest, MAX_RECORD + 1)]
  }

  predicate Complete(line: Bytes) {
    line != [] && line[|line| - 1] == NEWLINE
  }

  predicate OverBudget(offset: nat, line: Bytes) {
    |line| > MAX_RECORD || offset + |line| > MAX_FILE
  }

  /** What one decoded line does: an error, or the next projection. */
  datatype Effect<S> = Reject(error: Error) | Advance(state: S)

  type Consumer<!S> = (S, Bytes) -> Effect<S>

  function Consume(s: State, commit: string, p: Parsed): Effect<State> {
    match p
    case Malformed => Reject(InvalidProgress)
    case Observation => if s.terminal then Reject(InvalidProgress) else Reject(ObservationError)
    case Valid(e) => if Acceptable(s, commit, e) then Advance(Apply(s, e)) else Reject(InvalidProgress)
  }

  /** `accept` as the reader's consumer. */
  function Accepting(decode: Bytes -> Parsed, commit: string): Consumer<State> {
    (s, line) => Consume(s, commit, decode(line))
  }

  /** One turn of the reading loop: it stops, or goes on after a whole record. */
  datatype Turn<S> = Stop(reader: Reader<S>) | Again(reader: Reader<S>)

  function TurnOf<S>(consume: Consumer<S>, file: Bytes, r: Reader<S>, final: bool): (t: Turn<S>)
    requires r.offset <= |file| && r.error.None?
    ensures t.reader.offset <= |file|
    ensures if t.Again? then r.offset < t.reader.offset else t.reader.offset == r.offset
  {
    var line := LineAt(file, r.offset);
    if line == [] then Stop(r)
    else if OverBudget(r.offset, line) then Stop(r.(error := Some(BudgetExceeded)))
    else if !Complete(line) then Stop(if final then r.(error := Some(TruncatedRecord)) else r)
    else
      match consume(r.state, line)
      case Reject(error) => Stop(r.(error := Some(error)))
      case Advance(state) => Again(Reader(r.offset + |line|, state, r.records + [line], None))
  }

  /** `Replay.read` on a file with these contents. */
  function Read<S>(consume: Consumer<S>, file: Bytes, r: Reader<S>, final: bool): (after: Reader<S>)
    requires r.offset <= |file|
    ensures after.offset <= |file|
    decreases |file| - r.offset
  {
    if r.error.Some? then r
    else
      match TurnOf(consume, file, r, final)
      case Stop(after) => after
      case Again(next) => Read(consume, file, next, final)
  }

  // ---- Polling an append-only file -----------------------------------------------------------

  /** A line that is complete, or already too long, reads the same in a longer file. */
  lemma {:induction false} LineLengthStable(rest: Bytes, more: Bytes, limit: nat)
    requires rest <= more
    ensures LineLength(rest, limit) <= LineLength(more, limit)
    ensures var n := LineLength(rest, limit); n == limit || (n > 0 && rest[n - 1] == NEWLINE) ==> LineLength(more, limit) == n
    decreases limit
  {
    if limit > 0 && rest != [] && rest[0] != NEWLINE {
      LineLengthStable(rest[1..], more[1..], limit - 1);
    }
  }

  lemma LineStable(file: Bytes, longer: Bytes, offset: nat)
    requires file <= longer && offset <= |file|
    ensures |LineAt(file, offset)| <= |LineAt(longer, offset)|
    ensures var line := LineAt(file, offset); Complete(line) || |line| > MAX_RECORD ==> LineAt(longer, offset) == line
  {
    var rest, more := file[offset..], longer[offset..];
    assert rest <= more;
    LineLengthStable(rest, more, MAX_RECORD + 1);
    assert forall k :: 0 <= k < |rest| ==> rest[k] == more[k];
  }

  /** A turn on a prefix is the turn on the longer file, unless the prefix ends in a
      partial record or before one. */
  lemma TurnStable<S>(consume: Consumer<S>, file: Bytes, longer: Bytes, r: Reader<S>, final: bool)
    requires file <= longer && r.offset <= |file| && r.error.None?
    ensures var t := TurnOf(consume, file, r, false); t == Stop(r) || t == TurnOf(consume, longer, r, final)
    ensures TurnOf(consume, file, r, false).Stop? && TurnOf(consume, file, r, false) != Stop(r) ==> TurnOf(consume, file, r, false).reader.error.Some?
  {
    LineStable(file, longer, r.offset);
  }

  /** Reading a prefix first changes nothing about the read that follows. */
  lemma {:induction false} PollThenRead<S>(consume: Consumer<S>, file: Bytes, longer: Bytes, r: Reader<S>, final: bool)
    requires file <= longer && r.offset <= |file|
    ensures Read(consume, longer, Read(consume, file, r, false), final) == Read(consume, longer, r, final)
    decreases |file| - r.offset
  {
    if r.error.None? {
      TurnStable(consume, file, longer, r, final);
      var t := TurnOf(consume, file, r, false);
      if t.Again? { PollThenRead(consume, file, longer, t.reader, final); }
    }
  }

  predicate Cuts(file: Bytes, cuts: seq<nat>, offset: nat) {
    && offset <= |file|
    && (forall k :: 0 <= k < |cuts| ==> offset <= cuts[k] <= |file|)
    && (forall j, k :: 0 <= j < k < |cuts| ==> cuts[j] <= cuts[k])
  }

  /** The reader after polling the first c bytes for each cut c. */
  function Poll<S>(consume: Consumer<S>, file: Bytes, cuts: seq<nat>, r: Reader<S>): (after: Reader<S>)
    requires Cuts(file, cuts, r.offset)
    ensures after.offset <= |file|
    decreases |cuts|
  {
    if cuts == [] then r
    else Poll(consume, file, cuts[1..], Read(consume, file[..cuts[0]], r, false))
  }

  /** However the growing file was polled, the last read leaves the state, records,
      offset and error of a single read of the whole file. */
  lemma {:induction false} PollingIsInvisible<S>(consume: Consumer<S>, file: Bytes, cuts: seq<nat>, r: Reader<S>, final: bool)
    requires Cuts(file, cuts, r.offset)
    ensures Read(consume, file, Poll(consume, file, cuts, r), final) == Read(consume, file, r, final)
    decreases |cuts|
  {
    if cuts != [] {
      PollingIsInvisible(consume, file, cuts[1..], Read(consume, file[..cuts[0]], r, false), final);
      PollThenRead(consume, file[..cuts[0]], file, r, final);
    }
  }

  // ---- What a reader's projection is ---------------------------------------------------------

  function Concat(records: seq<Bytes>): Bytes {
    if records == [] then [] else Concat(records[..|records| - 1]) + records[|records| - 1]
  }

  function Events(decode: Bytes -> Parsed, records: seq<Bytes>): (log: seq<Event>)
    requires forall line <- records :: decode(line).Valid?
    ensures |log| == |records| && forall k :: 0 <= k < |log| ==> decode(records[k]) == Valid(log[k])
  {
    seq(|records|, k requires 0 <= k < |records| && records[k] in records => decode(records[k]).event)
  }

  /** The records are exactly the bytes before the offset, and the projection is the
      replay of their events. */
  predicate Faithful(decode: Bytes -> Parsed, commit: string, file: Bytes, r: Reader<State>) {
    && r.offset <= |file|
    && Concat(r.records) == file[..r.offset]
    && (forall line <- r.records :: decode(line).Valid?)
    && AcceptAll(INITIAL, commit, Events(decode, r.records)) == Some(r.state)
  }

  lemma FaithfulStep(decode: Bytes -> Parsed, commit: string, file: Bytes, r: Reader<State>, e: Event)
    requires Faithful(decode, commit, file, r)
    requires var line := LineAt(file, r.offset); decode(line) == Valid(e) && Acceptable(r.state, commit, e)
    ensures var line := LineAt(file, r.offset);
      Faithful(decode, commit, file, Reader(r.offset + |line|, Apply(r.state, e), r.records + [line], None))
  {
    var line := LineAt(file, r.offset);
    OneMoreRecord(decode, r.records, line);
    assert file[..r.offset + |line|] == file[..r.offset] + line;
    AcceptOneMore(commit, Events(decode, r.records), r.state, e);
  }

  lemma OneMoreRecord(decode: Bytes -> Parsed, records: seq<Bytes>, line: Bytes)
    requires decode(line).Valid? && forall l <- records :: decode(l).Valid?
    ensures Concat(records + [line]) == Concat(records) + line
    ensures Events(decode, records + [line]) == Events(decode, records) + [decode(line).event]
  {
    assert (records + [line])[..|records|] == records;
  }

  lemma AdvancedByAnEvent(s: State, commit: string, p: Parsed)
    requires Consume(s, commit, p).Advance?
    ensures p.Valid? && Acceptable(s, commit, p.event) && Consume(s, commit, p).state == Apply(s, p.event)
  {}

  lemma TurnStaysFaithful(decode: Bytes -> Parsed, commit: string, file: Bytes, r: Reader<State>, final: bool)
    requires Faithful(decode, commit, file, r) && r.error.None?
    ensures Faithful(decode, commit, file, TurnOf(Accepting(decode, commit), file, r, final).reader)
  {
    var t := TurnOf(Accepting(decode, commit), file, r, final);
    if t.Again? {
      var line := LineAt(file, r.offset);
      assert Accepting(decode, commit)(r.state, line) == Consume(r.state, commit, decode(line));
      AdvancedByAnEvent(r.state, commit, decode(line));
      FaithfulStep(decode, commit, file, r, decode(line).event);
    } else {
      assert t.reader.offset == r.offset && t.reader.state == r.state && t.reader.records == r.records;
    }
  }

  lemma {:induction false} ReadStaysFaithful(decode: Bytes -> Parsed, commit: string, file: Bytes, r: Reader<State>, final: bool)
    requires Faithful(decode, commit, file, r)
    ensures Faithful(decode, commit, file, Read(Accepting(decode, commit), file, r, final))
    decreases |file| - r.offset
  {
    if r.error.None? {
      TurnStaysFaithful(decode, commit, file, r, final);
      var t := TurnOf(Accepting(decode, commit), file, r, final);
      if t.Again? { ReadStaysFaithful(decode, commit, file, t.reader, final); }
    }
  }

  /** A read of any file, however it was polled before, yields the replay of an accepted
      log, so everything proved about accepted logs holds of what the reader reports. */
  lemma ReadReplaysALog(decode: Bytes -> Parsed, commit: string, file: Bytes, cuts: seq<nat>, final: bool)
    requires Cuts(file, cuts, 0)
    ensures var consume := Accepting(decode, commit);
      var r := Read(consume, file, Poll(consume, file, cuts, FRESH), final);
      Faithful(decode, commit, file, r) && Inv(r.state)
  {
    var consume := Accepting(decode, commit);
    PollingIsInvisible(consume, file, cuts, FRESH, final);
    ReadStaysFaithful(decode, commit, file, FRESH, final);
    LogKeepsInv(commit, Events(decode, Read(consume, file, FRESH, final).records));
  }

  // ---- The class -------------------------------------------------------------------------------

  class Replay {
    const commit: string
    const decode: Bytes -> Parsed
    var offset: nat
    var total: Option<nat>
    var sequence: Option<nat>
    var runId: string
    var terminal: bool
    var error: Option<Error>
    var queued: set<Key>
    var active: map<Key, nat>
    var rows: map<Key, Row>
    var records: seq<Bytes>

    function Projection(): State
      reads this
    {
      State(total, sequence, runId, terminal, queued, active, rows)
    }

    function View(): Reader<State>
      reads this
    {
      Reader(offset, Projection(), records, error)
    }

    constructor (commit: string, decode: Bytes -> Parsed)
      ensures this.commit == commit && this.decode == decode && View() == FRESH
    {
      this.commit, this.decode := commit, decode;
      offset, total, sequence, runId, terminal, error := 0, None, None, "", false, None;
      queued, active, rows, records := {}, map[], map[], [];
    }

    predicate CompletionAllowed(k: Key, status: Status)
      requires total.Some?
      reads this
    {
      && k !in rows && |rows| < total.value
      && (k in active || status == Unavailable || status == Cancelled)
      && (k in active || k in queued || |queued| + |active| + |rows| < total.value)
    }

    /** `accept` on an event: a refused one leaves the projection as it was. */
    method Accept(event: Event) returns (ok: bool)
      modifies this`total, this`sequence, this`runId, this`terminal, this`queued, this`active, this`rows
      ensures ok <==> Acceptable(old(Projection()), commit, event)
      ensures Projection() == if ok then Apply(old(Projection()), event) else old(Projection())
    {
      if terminal { return false; }
      if sequence.Some? && (event.sequence != sequence.value + 1 || event.run != runId) { return false; }
      if total.None? {
        if !event.body.SuiteStarted? || event.body.commit != commit || !(0 < event.body.total <= MAX_TOTAL) { return false; }
      } else if event.body.SuiteStarted? {
        return false;
      }
      match event.body {
        case SuiteStarted(planned, _) =>
          total := Some(planned);
        case CaseQueued(k) =>
          if k in queued || k in active || k in rows || |queued| + |active| + |rows| >= total.value { return false; }
          queued := queued + {k};
        case CaseStarted(k) =>
          if k !in queued { return false; }
          queued, active := queued - {k}, active[k := 0];
        case CaseProgress(k, elapsed) =>
          if k !in active || elapsed < active[k] { return false; }
          active := active[k := elapsed];
        case CaseCompleted(k, status) =>
          if !CompletionAllowed(k, status) { return false; }
          var elapsed := if k in active then Some(active[k]) else None;
          active, queued := active - {k}, queued - {k};
          rows := rows[k := Row(status, elapsed)];
        case SuiteCompleted(planned, counts) =>
          if planned != total.value || |rows| != total.value || active != map[] || queued != {} { return false; }
          if !CountsMatch(rows, counts) { return false; }
          terminal := true;
      }
      sequence, runId := Some(event.sequence), event.run;
      ok := true;
    }

    /** One decoded line. */
    method Step(line: Bytes)
      requires error.None?
      modifies this
      ensures View() == match Accepting(decode, commit)(old(Projection()), line)
        case Reject(e) => old(View()).(error := Some(e))
        case Advance(state) => Reader(old(offset) + |line|, state, old(records) + [line], None)
    {
      match decode(line) {
        case Malformed => error := Some(InvalidProgress);
        case Observation => error := Some(if terminal then InvalidProgress else ObservationError);
        case Valid(event) =>
          var ok := Accept(event);
          if ok {
            records, offset := records + [line], offset + |line|;
          } else {
            error := Some(InvalidProgress);
          }
      }
    }

    /** One turn of the reading loop. */
    method TakeTurn(file: Bytes, final: bool) returns (again: bool)
      requires error.None? && offset <= |file|
      modifies this
      ensures TurnOf(Accepting(decode, commit), file, old(View()), final) == if again then Again(View()) else Stop(View())
    {
      var line := LineAt(file, offset);
      if line == [] { return false; }
      if OverBudget(offset, line) {
        error := Some(BudgetExceeded);
        return false;
      }
      if !Complete(line) {
        if final { error := Some(TruncatedRecord); }
        return false;
      }
      Step(line);
      again := error.None?;
    }

    /** `read`: consume whole records from the offset on. */
    method ReadFile(file: Bytes, final: bool)
      requires offset <= |file|
      modifies this
      ensures View() == Read(Accepting(decode, commit), file, old(View()), final)
    {
      ghost var result := Read(Accepting(decode, commit), file, View(), final);
      var again := error.None?;
      while again
        invariant offset <= |file| && (again ==> error.None?)
        invariant result == if again then Read(Accepting(decode, commit), file, View(), final) else View()
        decreases |file| - offset, again
      {
        again := TakeTurn(file, final);
      }
    }
  }
}
