/** Two workers can turn a delivered, PUBLISHED row into a FAILED one, and can fail
    more rounds on a row than its budget. The fetch takes no lock and the updates
    match on the id alone, so a worker may judge a row by what it fetched before
    another worker published it. The last theorem says exactly when PUBLISHED is
    final. */
module TwoWorkers {
  import opened Domain
  import opened Routing
  import opened Protocol
  import opened Safety
  import opened Faults
  import opened LifeCycle
  import opened Counting
  import opened Overlap
  import opened Serial

  /** Two workers among `ws`; the others stay idle. */
  datatype Duo = Duo(ws: set<WorkerId>, a: WorkerId, b: WorkerId) {
    predicate Valid() { a in ws && b in ws && a != b }
  }

  function Workers(d: Duo, pa: Pc, pb: Pc): map<WorkerId, Pc> {
    (map w | w in d.ws :: Idle)[d.a := pa][d.b := pb]
  }

  /** One row in the table, and the two workers at the given points. */
  ghost predicate Stand(s: State, row: Row, d: Duo, pa: Pc, pb: Pc) {
    d.Valid() && s.table == map[0 := row] && |s.past| == 1 && s.workers == Workers(d, pa, pb)
  }

  /** A run in which every write commits and nothing crashes. */
  ghost predicate CalmRun(c: Config, s0: State, ls: seq<Label>, s: State) {
    Run(c, s0, ls, s) && AllCalm(ls)
  }

  lemma OneMoves(d: Duo, pa: Pc, pb: Pc, pc: Pc)
    requires d.Valid()
    ensures Workers(d, pa, pb)[d.a := pc] == Workers(d, pc, pb)
    ensures Workers(d, pa, pb)[d.b := pc] == Workers(d, pa, pc)
  {
  }

  /** A step of worker `a` moves that worker alone. */
  lemma FirstDoes(
    c: Config, s0: State, ls: seq<Label>, s: State, l: Label, row: Row, row': Row, d: Duo, pa: Pc, pa': Pc, pb: Pc)
    returns (ls': seq<Label>, s': State)
    requires CalmRun(c, s0, ls, s) && Stand(s, row, d, pa, pb) && Enabled(c, s, l) && !l.Insert? && Calm(l)
    requires NextTable(c, s, l) == map[0 := row'] && NextWorkers(c, s, l) == s.workers[d.a := pa']
    ensures CalmRun(c, s0, ls', s') && Stand(s', row', d, pa', pb)
  {
    ls', s' := ls + [l], Apply(c, s, l);
    Extend(c, s0, ls, s, l);
    OneMoves(d, pa, pb, pa');
  }

  lemma SecondDoes(
    c: Config, s0: State, ls: seq<Label>, s: State, l: Label, row: Row, row': Row, d: Duo, pa: Pc, pb: Pc, pb': Pc)
    returns (ls': seq<Label>, s': State)
    requires CalmRun(c, s0, ls, s) && Stand(s, row, d, pa, pb) && Enabled(c, s, l) && !l.Insert? && Calm(l)
    requires NextTable(c, s, l) == map[0 := row'] && NextWorkers(c, s, l) == s.workers[d.b := pb']
    ensures CalmRun(c, s0, ls', s') && Stand(s', row', d, pa, pb')
  {
    ls', s' := ls + [l], Apply(c, s, l);
    Extend(c, s0, ls, s, l);
    OneMoves(d, pa, pb, pb');
  }

  lemma OneRowFetch(t: map<nat, Row>, limit: int, row: Row)
    requires t == map[0 := row] && row.id == 0 && row.status.Pending? && limit >= 1
    ensures OldestPending(t, limit, [row])
  {
    assert IsPending(t, 0);
    assert forall id :: IsPending(t, id) ==> id == 0;
    assert Holds([row], 0) by { assert [row][0].id == 0; }
  }

  /** The settings of the example: a row that parses, and a client that reaches it. */
  ghost predicate Deliverable(c: Config, row: Row, e: Event) {
    && c.batch >= 1 && row.id == 0 && row.status.Pending?
    && c.codec.decode(row.payload) == Some(e) && e.typ == row.eventType
    && Speaks(c.client, Resolve(c.routing, e.typ))
  }

  lemma StartRound(c: Config, s0: State, ls: seq<Label>, s: State, row: Row, e: Event, d: Duo, pb: Pc)
    returns (ls': seq<Label>, s': State)
    requires Deliverable(c, row, e) && CalmRun(c, s0, ls, s) && Stand(s, row, d, Idle, pb)
    ensures CalmRun(c, s0, ls', s') && Stand(s', row, d, Busy([row], 0, Sending(e)), pb)
  {
    OneRowFetch(s.table, c.batch, row);
    var entry, sending := Busy([row], 0, Entry), Busy([row], 0, Sending(e));
    ls', s' := FirstDoes(c, s0, ls, s, Fetch(d.a, [row]), row, row, d, Idle, entry, pb);
    ls', s' := FirstDoes(c, s0, ls', s', Parse(d.a), row, row, d, entry, sending, pb);
  }

  /** The row after a failed round, judged by a possibly stale copy of it. */
  ghost function Judged(c: Config, stale: Row, row: Row): Row {
    var up := row.(retryCount := row.retryCount + 1);
    if Exhausted(c, stale) then up.(status := Failed) else up
  }

  lemma Abandon(c: Config, s0: State, ls: seq<Label>, s: State, stale: Row, row: Row, e: Event, d: Duo, pb: Pc)
    returns (ls': seq<Label>, s': State)
    requires CalmRun(c, s0, ls, s) && Stand(s, row, d, Busy([stale], 0, Sending(e)), pb)
    ensures CalmRun(c, s0, ls', s') && Stand(s', row, d, Busy([stale], 0, Errored), pb)
  {
    var sending, errored := Busy([stale], 0, Sending(e)), Busy([stale], 0, Errored);
    ls', s' := FirstDoes(c, s0, ls, s, GiveUp(d.a), row, row, d, sending, errored, pb);
  }

  lemma Count(c: Config, s0: State, ls: seq<Label>, s: State, stale: Row, row: Row, d: Duo, pb: Pc)
    returns (ls': seq<Label>, s': State)
    requires stale.id == 0 && row.id == 0
    requires CalmRun(c, s0, ls, s) && Stand(s, row, d, Busy([stale], 0, Errored), pb)
    ensures CalmRun(c, s0, ls', s')
    ensures Stand(s', row.(retryCount := row.retryCount + 1), d, Busy([stale], 0, Judging), pb)
  {
    var up := row.(retryCount := row.retryCount + 1);
    var errored, judging := Busy([stale], 0, Errored), Busy([stale], 0, Judging);
    ls', s' := FirstDoes(c, s0, ls, s, Increment(d.a, true), row, up, d, errored, judging, pb);
  }

  lemma Conclude(c: Config, s0: State, ls: seq<Label>, s: State, stale: Row, row: Row, d: Duo, pb: Pc)
    returns (ls': seq<Label>, s': State)
    requires stale.id == 0 && row.id == 0
    requires CalmRun(c, s0, ls, s) && Stand(s, row, d, Busy([stale], 0, Judging), pb)
    ensures CalmRun(c, s0, ls', s')
    ensures
      Stand(s', if Exhausted(c, stale) then row.(status := Failed) else row, d, Busy([stale], 1, Entry), pb)
  {
    var row' := if Exhausted(c, stale) then row.(status := Failed) else row;
    var judging, next := Busy([stale], 0, Judging), Busy([stale], 1, Entry);
    ls', s' := FirstDoes(c, s0, ls, s, Judge(d.a, true), row, row', d, judging, next, pb);
  }

  /** Worker `a` gives up, counts the failure and judges by its copy `stale`. */
  lemma Fail(c: Config, s0: State, ls: seq<Label>, s: State, stale: Row, row: Row, e: Event, d: Duo, pb: Pc)
    returns (ls': seq<Label>, s': State)
    requires stale.id == 0 && row.id == 0
    requires CalmRun(c, s0, ls, s) && Stand(s, row, d, Busy([stale], 0, Sending(e)), pb)
    ensures CalmRun(c, s0, ls', s') && Stand(s', Judged(c, stale, row), d, Busy([stale], 1, Entry), pb)
  {
    ls', s' := Abandon(c, s0, ls, s, stale, row, e, d, pb);
    ls', s' := Count(c, s0, ls', s', stale, row, d, pb);
    ls', s' := Conclude(c, s0, ls', s', stale, row.(retryCount := row.retryCount + 1), d, pb);
  }

  /** Worker `a` fetches the row, gives up on it, counts the failure and goes idle. */
  lemma FailedRound(c: Config, s0: State, ls: seq<Label>, s: State, row: Row, e: Event, d: Duo)
    returns (ls': seq<Label>, s': State, row': Row)
    requires Deliverable(c, row, e) && !Exhausted(c, row)
    requires CalmRun(c, s0, ls, s) && Stand(s, row, d, Idle, Idle)
    ensures row' == row.(retryCount := row.retryCount + 1)
    ensures CalmRun(c, s0, ls', s') && Stand(s', row', d, Idle, Idle)
  {
    row' := row.(retryCount := row.retryCount + 1);
    ls', s' := StartRound(c, s0, ls, s, row, e, d, Idle);
    ls', s' := Fail(c, s0, ls', s', row, row, e, d, Idle);
    ls', s' := FirstDoes(c, s0, ls', s', Finish(d.a), row', row', d, Busy([row], 1, Entry), Idle, Idle);
  }

  lemma {:induction false} FailedRounds(
    c: Config, s0: State, ls: seq<Label>, s: State, row: Row, e: Event, d: Duo, n: nat)
    returns (ls': seq<Label>, s': State, row': Row)
    requires Deliverable(c, row, e) && row.retryCount + n <= MaxRetries(c.routing, row.eventType)
    requires CalmRun(c, s0, ls, s) && Stand(s, row, d, Idle, Idle)
    ensures row' == row.(retryCount := row.retryCount + n)
    ensures CalmRun(c, s0, ls', s') && Stand(s', row', d, Idle, Idle)
    decreases n
  {
    if n == 0 {
      ls', s', row' := ls, s, row;
    } else {
      ls', s', row' := FailedRound(c, s0, ls, s, row, e, d);
      ls', s', row' := FailedRounds(c, s0, ls', s', row', e, d, n - 1);
    }
  }

  /** Both workers fetch the row and parse it. */
  lemma BothFetch(c: Config, s0: State, ls: seq<Label>, s: State, row: Row, e: Event, d: Duo)
    returns (ls': seq<Label>, s': State)
    requires Deliverable(c, row, e) && CalmRun(c, s0, ls, s) && Stand(s, row, d, Idle, Idle)
    ensures CalmRun(c, s0, ls', s')
    ensures Stand(s', row, d, Busy([row], 0, Sending(e)), Busy([row], 0, Sending(e)))
  {
    var sending := Busy([row], 0, Sending(e));
    ls', s' := StartRound(c, s0, ls, s, row, e, d, Idle);
    OneRowFetch(s'.table, c.batch, row);
    var entry := Busy([row], 0, Entry);
    ls', s' := SecondDoes(c, s0, ls', s', Fetch(d.b, [row]), row, row, d, sending, Idle, entry);
    ls', s' := SecondDoes(c, s0, ls', s', Parse(d.b), row, row, d, sending, entry, sending);
  }

  /** Worker `b` publishes the row and marks it. */
  lemma Publish(c: Config, s0: State, ls: seq<Label>, s: State, row: Row, e: Event, d: Duo, pa: Pc, now: int)
    returns (ls': seq<Label>, s': State)
    requires Deliverable(c, row, e) && CalmRun(c, s0, ls, s) && Stand(s, row, d, pa, Busy([row], 0, Sending(e)))
    ensures CalmRun(c, s0, ls', s')
    ensures Stand(s', row.(status := Published, publishedAt := Some(now)), d, pa, Busy([row], 1, Entry))
  {
    var published := row.(status := Published, publishedAt := Some(now));
    var sending, sent, next := Busy([row], 0, Sending(e)), Busy([row], 0, Sent), Busy([row], 1, Entry);
    ls', s' := SecondDoes(c, s0, ls, s, Attempt(d.b, Acked), row, row, d, pa, sending, sent);
    ls', s' := SecondDoes(c, s0, ls', s', Mark(d.b, true, now), row, published, d, pa, sent, next);
  }

  ghost predicate Reaches(c: Config, e: Event) {
    c.codec.encode(e).Some? && Speaks(c.client, Resolve(c.routing, e.typ))
  }

  lemma FirstInsert(c: Config, e: Event, at: int, d: Duo) returns (s: State, row: Row, parsed: Event)
    requires c.codec.Lawful() && c.batch >= 1 && Reaches(c, e) && d.Valid()
    ensures CalmRun(c, Start(d.ws), [Insert(e, at)], s) && Stand(s, row, d, Idle, Idle)
    ensures Deliverable(c, row, parsed) && row.retryCount == 0 && row.eventType == e.typ
  {
    var s0 := Start(d.ws);
    row, parsed := NewRow(0, e, c.codec.encode(e).value, at), c.codec.decode(c.codec.encode(e).value).value;
    s := Apply(c, s0, Insert(e, at));
    Extend(c, s0, [], s0, Insert(e, at));
    assert [] + [Insert(e, at)] == [Insert(e, at)];
    assert s.workers == Workers(d, Idle, Idle);
  }

  /** PUBLISHED is not final: for every event that can be delivered, every retry
      budget and any two workers there is a run in which every write commits and
      nothing crashes, whose row is PUBLISHED at one moment and FAILED later. */
  lemma PublishedCanBecomeFailed(c: Config, e: Event, at: int, now: int, d: Duo)
    returns (first: seq<Label>, mid: State, later: seq<Label>, s: State)
    requires c.codec.Lawful() && c.batch >= 1 && Reaches(c, e) && d.Valid()
    ensures Run(c, Start(d.ws), first, mid) && Run(c, mid, later, s) && AllCalm(first) && AllCalm(later)
    ensures 0 in mid.table && mid.table[0].status.Published?
    ensures 0 in s.table && s.table[0].status.Failed? && s.table[0].publishedAt == Some(now)
    ensures Deliveries(s.log, 0) >= 1
  {
    var row, parsed;
    mid, row, parsed := FirstInsert(c, e, at, d);
    var last;
    first, mid, last :=
      FailedRounds(c, Start(d.ws), [Insert(e, at)], mid, row, parsed, d, MaxRetries(c.routing, e.typ));
    first, mid := BothFetch(c, Start(d.ws), first, mid, last, parsed, d);
    first, mid := Publish(c, Start(d.ws), first, mid, last, parsed, d, Busy([last], 0, Sending(parsed)), now);
    later, s := Fail(c, mid, [], mid, last, mid.table[0], parsed, d, Busy([last], 1, Entry));
    Chain(c, Start(d.ws), first, mid, later, s);
    RunIsSafe(c, d.ws, first + later, s);
    assert RowDelivered(s, 0);
  }

  // ---- the bound on failed rounds is reached ----

  function Swapped(d: Duo): Duo { Duo(d.ws, d.b, d.a) }

  lemma StandSwapped(s: State, row: Row, d: Duo, pa: Pc, pb: Pc)
    requires Stand(s, row, d, pa, pb)
    ensures Stand(s, row, Swapped(d), pb, pa)
  {
  }

  /** Worker `a` fails a round on a copy from below the limit and fetches the row anew. */
  lemma Retried(c: Config, s0: State, ls: seq<Label>, s: State, stale: Row, row: Row, e: Event, d: Duo, pb: Pc)
    returns (ls': seq<Label>, s': State)
    requires stale.id == 0 && !Exhausted(c, stale) && Deliverable(c, row, e)
    requires CalmRun(c, s0, ls, s) && Stand(s, row, d, Busy([stale], 0, Sending(e)), pb)
    ensures CalmRun(c, s0, ls', s')
    ensures
      var up := row.(retryCount := row.retryCount + 1);
      Stand(s', up, d, Busy([up], 0, Sending(e)), pb)
  {
    var up := row.(retryCount := row.retryCount + 1);
    ls', s' := Fail(c, s0, ls, s, stale, row, e, d, pb);
    ls', s' := FirstDoes(c, s0, ls', s', Finish(d.a), up, up, d, Busy([stale], 1, Entry), Idle, pb);
    ls', s' := StartRound(c, s0, ls', s', up, e, d, pb);
  }

  /** Both workers hold a copy from just below the limit, fail on it, fetch the row
      again, and fail once more before either judges it. */
  lemma FourRounds(c: Config, s0: State, ls: seq<Label>, s: State, row: Row, e: Event, d: Duo)
    returns (ls': seq<Label>, s': State)
    requires Deliverable(c, row, e) && row.retryCount + 1 == MaxRetries(c.routing, row.eventType)
    requires CalmRun(c, s0, ls, s) && Stand(s, row, d, Idle, Idle)
    ensures CalmRun(c, s0, ls', s')
    ensures |s'.past| == 1 && 0 in s'.table && s'.table[0] == row.(retryCount := row.retryCount + 4)
  {
    var r1 := row.(retryCount := row.retryCount + 1);
    var r2 := row.(retryCount := row.retryCount + 2);
    var r3 := row.(retryCount := row.retryCount + 3);
    ls', s' := BothFetch(c, s0, ls, s, row, e, d);
    ls', s' := Retried(c, s0, ls', s', row, row, e, d, Busy([row], 0, Sending(e)));
    StandSwapped(s', r1, d, Busy([r1], 0, Sending(e)), Busy([row], 0, Sending(e)));
    ls', s' := Retried(c, s0, ls', s', row, r1, e, Swapped(d), Busy([r1], 0, Sending(e)));
    StandSwapped(s', r2, Swapped(d), Busy([r2], 0, Sending(e)), Busy([r1], 0, Sending(e)));
    ls', s' := Abandon(c, s0, ls', s', r1, r2, e, d, Busy([r2], 0, Sending(e)));
    ls', s' := Count(c, s0, ls', s', r1, r2, d, Busy([r2], 0, Sending(e)));
    StandSwapped(s', r3, d, Busy([r1], 0, Judging), Busy([r2], 0, Sending(e)));
    ls', s' := Abandon(c, s0, ls', s', r2, r3, e, Swapped(d), Busy([r1], 0, Judging));
    ls', s' := Count(c, s0, ls', s', r2, r3, Swapped(d), Busy([r1], 0, Judging));
  }

  /** For every deliverable event and every budget two workers have an undisturbed run
      with as many failed rounds on its row as there can be, the limit plus three. */
  lemma TwoReachTheBound(c: Config, e: Event, at: int, d: Duo) returns (ls: seq<Label>, s: State)
    requires c.codec.Lawful() && c.batch >= 1 && Reaches(c, e) && d.Valid() && |d.ws| == 2
    ensures Run(c, Start(d.ws), ls, s) && AllCalm(ls) && |s.past| == 1
    ensures s.past[0].rounds == MaxRetries(c.routing, e.typ) - 1 + 2 * |d.ws|
  {
    var row, parsed;
    s, row, parsed := FirstInsert(c, e, at, d);
    var last;
    ls, s, last :=
      FailedRounds(c, Start(d.ws), [Insert(e, at)], s, row, parsed, d, MaxRetries(c.routing, e.typ) - 1);
    ls, s := FourRounds(c, Start(d.ws), ls, s, last, parsed, d);
    CalmKeeps(FailuresRecorded, c, Start(d.ws), ls, s);
    RunIsSafe(c, d.ws, ls, s);
    assert RowSound(s, 0);
    NoPrematureGiveUp(c, d.ws, ls, s, 0);
    RoundsPerWorker(c, d.ws, ls, s, 0);
  }

  // ---- exactly when PUBLISHED is final ----

  ghost predicate StaysPublished(s: State, s': State) {
    forall id :: id in s.table && s.table[id].status.Published? && id in s'.table ==> s'.table[id].status.Published?
  }

  /** Which runs are considered: all of them, those in which every write commits and
      nothing crashes, or those in which no write that follows an abandoned round
      commits. */
  datatype Regime = AllRuns | Undisturbed | Traceless

  predicate Admits(g: Regime, l: Label) {
    match g
    case AllRuns => true
    case Undisturbed => Calm(l)
    case Traceless => LeavesNoTrace(l)
  }

  ghost predicate RunIn(g: Regime, c: Config, s0: State, ls: seq<Label>, s: State) {
    Run(c, s0, ls, s) && forall k :: 0 <= k < |ls| ==> Admits(g, ls[k])
  }

  ghost predicate PublishedIsFinal(g: Regime, c: Config, ws: set<WorkerId>) {
    forall first, s, later, s' ::
      RunIn(g, c, Start(ws), first, s) && RunIn(g, c, s, later, s') ==> StaysPublished(s, s')
  }

  /** Some event can be stored and its destination is one the client speaks to. */
  ghost predicate SomethingSendable(c: Config) {
    c.batch >= 1 && exists e :: Reaches(c, e)
  }

  ghost predicate NothingFetched(s: State) {
    s.log == [] && forall w :: w in s.workers && s.workers[w].Busy? ==> s.workers[w].snap == []
  }

  lemma {:induction false} EmptyBatches(c: Config, ws: set<WorkerId>, ls: seq<Label>, s: State)
    requires c.batch < 1 && Run(c, Start(ws), ls, s)
    ensures NothingFetched(s)
    decreases |ls|
  {
    if ls != [] {
      var mid := LastStep(c, Start(ws), ls, s);
      EmptyBatches(c, ws, ls[..|ls| - 1], mid);
    }
  }

  lemma NothingSent(c: Config, ws: set<WorkerId>, ls: seq<Label>, s: State)
    requires c.codec.Lawful() && Run(c, Start(ws), ls, s) && !SomethingSendable(c)
    ensures s.log == []
  {
    if c.batch < 1 {
      EmptyBatches(c, ws, ls, s);
    } else if s.log != [] {
      RunIsSafe(c, ws, ls, s);
      var m := s.log[0];
      assert MessageSound(c, s, m) && BornSound(c, s, m.row);
      assert Reaches(c, s.past[m.row].source);
    }
  }

  lemma UnsentIsUnpublished(c: Config, ws: set<WorkerId>, ls: seq<Label>, s: State, id: nat)
    requires c.codec.Lawful() && Run(c, Start(ws), ls, s) && s.log == [] && id in s.table
    ensures !s.table[id].status.Published?
  {
    RunIsSafe(c, ws, ls, s);
    assert RowSound(s, id) && RowDelivered(s, id);
  }

  lemma FinalIfSafe(c: Config, ws: set<WorkerId>, first: seq<Label>, s: State, later: seq<Label>, s': State)
    requires c.codec.Lawful() && (|ws| <= 1 || !SomethingSendable(c))
    requires Run(c, Start(ws), first, s) && Run(c, s, later, s')
    ensures StaysPublished(s, s')
  {
    if |ws| <= 1 {
      FewNeverOverlap(c, ws, Start(ws), first, s);
      WorkersKept(c, Start(ws), first, s);
      FewNeverOverlap(c, ws, s, later, s');
      SerialFinalStays(c, ws, first, s, later, s');
    } else {
      NothingSent(c, ws, first, s);
      forall id | id in s.table ensures !s.table[id].status.Published? { UnsentIsUnpublished(c, ws, first, s, id); }
    }
  }

  /** Overlapping workers do no harm as long as abandoned rounds leave no trace: then
      a PUBLISHED row stays PUBLISHED for any number of workers. */
  lemma PublishedStaysWithoutTraces(
    c: Config, ws: set<WorkerId>, first: seq<Label>, s: State, later: seq<Label>, s': State)
    requires c.codec.Lawful() && RunIn(Traceless, c, Start(ws), first, s) && RunIn(Traceless, c, s, later, s')
    ensures StaysPublished(s, s')
  {
    RowsOnlyAge(c, ws, first, s, later, s');
    Chain(c, Start(ws), first, s, later, s');
    forall k | 0 <= k < |first + later| ensures LeavesNoTrace((first + later)[k]) {
      assert Admits(Traceless, if k < |first| then first[k] else later[k - |first|]);
    }
    forall id | id in s'.table ensures !s'.table[id].status.Failed? {
      CancelledRoundsLeaveNoTrace(c, ws, first + later, s', id);
    }
  }

  lemma TwoOf(ws: set<WorkerId>) returns (d: Duo)
    requires |ws| > 1
    ensures d.ws == ws && d.Valid()
  {
    var a :| a in ws;
    assert |ws - {a}| > 0;
    var b :| b in ws - {a};
    d := Duo(ws, a, b);
  }

  lemma NotFinal(g: Regime, c: Config, ws: set<WorkerId>)
    requires c.codec.Lawful() && |ws| > 1 && SomethingSendable(c) && !g.Traceless?
    ensures !PublishedIsFinal(g, c, ws)
  {
    var e :| Reaches(c, e);
    var d := TwoOf(ws);
    var first, mid, later, s := PublishedCanBecomeFailed(c, e, 0, 0, d);
    assert RunIn(g, c, Start(ws), first, mid) && RunIn(g, c, mid, later, s) && !StaysPublished(mid, s);
  }

  /** Whatever the workers, configuration and events: a PUBLISHED row stays PUBLISHED if
      and only if no write that follows an abandoned round commits, or there is at most
      one worker, or nothing can be sent at all. To consider only undisturbed runs makes
      no difference. */
  lemma PublishedIsFinalIff(g: Regime, c: Config, ws: set<WorkerId>)
    requires c.codec.Lawful()
    ensures PublishedIsFinal(g, c, ws) <==> g.Traceless? || |ws| <= 1 || !SomethingSendable(c)
  {
    if g.Traceless? || |ws| <= 1 || !SomethingSendable(c) {
      forall first, s, later, s' | RunIn(g, c, Start(ws), first, s) && RunIn(g, c, s, later, s')
        ensures StaysPublished(s, s')
      {
        if g.Traceless? {
          PublishedStaysWithoutTraces(c, ws, first, s, later, s');
        } else {
          FinalIfSafe(c, ws, first, s, later, s');
        }
      }
    } else {
      NotFinal(g, c, ws);
    }
  }
}
