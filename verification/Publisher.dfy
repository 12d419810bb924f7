/** The publisher: turns an event into a PENDING outbox row. */
module Publisher {
  import opened Domain
  import opened Protocol
  import opened Outbox

  /** What one save attempt does, and the time it is stamped with. */
  datatype SaveAttempt = SaveAttempt(now: int, fate: Fate)

  /** The protocol steps of storing the event once for each of the given times. */
  function InsertLabels(e: Event, times: seq<int>): seq<Label> {
    seq(|times|, i requires 0 <= i < |times| => Insert(e, times[i]))
  }

  /** Some attempt of the loop succeeds. */
  function Saved(attempts: seq<SaveAttempt>): bool {
    attempts != [] && (attempts[0].fate.Commits? || Saved(attempts[1..]))
  }

  /** The times of the rows a retry loop leaves behind, up to its first success. */
  function StoredAt(attempts: seq<SaveAttempt>): seq<int> {
    if attempts == [] then []
    else match attempts[0].fate
      case Commits => [attempts[0].now]
      case Refuses => StoredAt(attempts[1..])
      case CommitsButErrs => [attempts[0].now] + StoredAt(attempts[1..])
  }

  ghost predicate Atomic(attempts: seq<SaveAttempt>) {
    forall k :: 0 <= k < |attempts| ==> !attempts[k].fate.CommitsButErrs?
  }

  /** A loop that succeeds leaves at least one row, and with atomic saves exactly
      one; a loop that gives up leaves, with atomic saves, none. */
  lemma {:induction false} RowsLeft(attempts: seq<SaveAttempt>)
    ensures Saved(attempts) ==> |StoredAt(attempts)| >= 1
    ensures Atomic(attempts) ==> |StoredAt(attempts)| == if Saved(attempts) then 1 else 0
  {
    if attempts != [] {
      RowsLeft(attempts[1..]);
      assert Atomic(attempts) ==> Atomic(attempts[1..]);
    }
  }

  lemma {:induction false} SavedIff(attempts: seq<SaveAttempt>)
    ensures Saved(attempts) <==> exists k :: 0 <= k < |attempts| && attempts[k].fate.Commits?
  {
    if attempts != [] {
      SavedIff(attempts[1..]);
      if k :| 0 <= k < |attempts| && attempts[k].fate.Commits? {
        assert k > 0 ==> attempts[1..][k - 1] == attempts[k];
      }
      if k :| 0 <= k < |attempts[1..]| && attempts[1..][k].fate.Commits? { assert attempts[k + 1].fate.Commits?; }
    }
  }

  /** The save was made, the loop not having succeeded before, and took effect. */
  ghost predicate Took(attempts: seq<SaveAttempt>, k: nat) {
    && k < |attempts| && !attempts[k].fate.Refuses?
    && forall j :: 0 <= j < k ==> !attempts[j].fate.Commits?
  }

  lemma TookLater(attempts: seq<SaveAttempt>, k: nat)
    requires attempts != [] && k > 0 && !attempts[0].fate.Commits?
    ensures Took(attempts, k) <==> Took(attempts[1..], k - 1)
  {
    assert forall j :: 0 < j < |attempts| ==> attempts[1..][j - 1] == attempts[j];
    if Took(attempts[1..], k - 1) {
      forall j | 0 <= j < k ensures !attempts[j].fate.Commits? {
        if j > 0 { assert attempts[1..][j - 1] == attempts[j]; }
      }
    }
    if Took(attempts, k) {
      forall j | 0 <= j < k - 1 ensures !attempts[1..][j].fate.Commits? { assert attempts[1..][j] == attempts[j + 1]; }
    }
  }

  ghost predicate Increasing(ks: seq<nat>) {
    forall i, j :: 0 <= i < j < |ks| ==> ks[i] < ks[j]
  }

  lemma Shifted(attempts: seq<SaveAttempt>, later: seq<nat>) returns (ks: seq<nat>)
    requires Increasing(later)
    ensures |ks| == |later| && forall i :: 0 <= i < |ks| ==> ks[i] == later[i] + 1
    ensures Increasing(ks) && Increasing([0] + ks)
  {
    ks := seq(|later|, i requires 0 <= i < |later| => later[i] + 1);
  }

  lemma ShiftedHas(attempts: seq<SaveAttempt>, later: seq<nat>, ks: seq<nat>, k: nat)
    requires attempts != [] && !attempts[0].fate.Commits? && k > 0 && Took(attempts, k)
    requires forall i :: Took(attempts[1..], i) ==> i in later
    requires |ks| == |later| && forall i :: 0 <= i < |ks| ==> ks[i] == later[i] + 1
    ensures k in ks
  {
    TookLater(attempts, k);
    var i :| 0 <= i < |later| && later[i] == k - 1;
    assert ks[i] == k;
  }

  /** These are, in order, the saves that left a row at these times. */
  ghost predicate LeftRows(attempts: seq<SaveAttempt>, ks: seq<nat>, times: seq<int>) {
    && |ks| == |times| && Increasing(ks)
    && (forall i :: 0 <= i < |ks| ==> Took(attempts, ks[i]) && times[i] == attempts[ks[i]].now)
    && (forall k :: Took(attempts, k) ==> k in ks)
  }

  /** What a first try that was not a success adds to what the others leave. */
  lemma FirstTryLeft(attempts: seq<SaveAttempt>, later: seq<nat>, times: seq<int>) returns (ks: seq<nat>)
    requires attempts != [] && attempts[0].fate.Refuses? && LeftRows(attempts[1..], later, times)
    ensures LeftRows(attempts, ks, times)
  {
    ks := Shifted(attempts, later);
    forall i | 0 <= i < |ks| ensures Took(attempts, ks[i]) && times[i] == attempts[ks[i]].now {
      TookLater(attempts, ks[i]);
      assert attempts[1..][later[i]] == attempts[ks[i]];
    }
    forall k: nat | Took(attempts, k) ensures k in ks { ShiftedHas(attempts, later, ks, k); }
  }

  lemma FirstTryStored(attempts: seq<SaveAttempt>, later: seq<nat>, times: seq<int>) returns (ks: seq<nat>)
    requires attempts != [] && attempts[0].fate.CommitsButErrs? && LeftRows(attempts[1..], later, times)
    ensures LeftRows(attempts, ks, [attempts[0].now] + times)
  {
    var shifted := Shifted(attempts, later);
    ks := [0] + shifted;
    forall i | 0 <= i < |ks|
      ensures Took(attempts, ks[i]) && ([attempts[0].now] + times)[i] == attempts[ks[i]].now
    {
      if i > 0 {
        TookLater(attempts, ks[i]);
        assert attempts[1..][later[i - 1]] == attempts[ks[i]];
      }
    }
    forall k: nat | Took(attempts, k) ensures k in ks {
      if k > 0 { ShiftedHas(attempts, later, shifted, k); }
    }
  }

  lemma OnlyFirst(attempts: seq<SaveAttempt>)
    requires attempts != [] && attempts[0].fate.Commits?
    ensures forall k :: Took(attempts, k) <==> k == 0
  {
  }

  lemma {:induction false} LeftBy(attempts: seq<SaveAttempt>) returns (ks: seq<nat>)
    ensures LeftRows(attempts, ks, StoredAt(attempts))
  {
    if attempts == [] {
      ks := [];
    } else if attempts[0].fate.Commits? {
      ks := [0];
      OnlyFirst(attempts);
    } else {
      ks := LeftBy(attempts[1..]);
      if attempts[0].fate.Refuses? {
        ks := FirstTryLeft(attempts, ks, StoredAt(attempts[1..]));
      } else {
        ks := FirstTryStored(attempts, ks, StoredAt(attempts[1..]));
      }
    }
  }

  /** Which saves leave a row: in order, exactly those up to the first success that
      take effect, each with its own time. */
  lemma {:induction false} StoredAtExactly(attempts: seq<SaveAttempt>) returns (ks: seq<nat>)
    ensures |ks| == |StoredAt(attempts)|
    ensures forall i, j :: 0 <= i < j < |ks| ==> ks[i] < ks[j]
    ensures forall i :: 0 <= i < |ks| ==> ks[i] < |attempts| && StoredAt(attempts)[i] == attempts[ks[i]].now
    ensures
      forall k: nat ::
        k in ks <==>
          k < |attempts| && !attempts[k].fate.Refuses? && forall j :: 0 <= j < k ==> !attempts[j].fate.Commits?
  {
    ks := LeftBy(attempts);
    forall k: nat ensures k in ks <==> Took(attempts, k) { }
  }

  lemma InsertTaken(c: Config, s0: State, tr: seq<Label>, s: State, e: Event, at: int) returns (s': State)
    requires Run(c, s0, tr, s) && c.codec.encode(e).Some?
    ensures Run(c, s0, tr + [Insert(e, at)], s')
    ensures s'.table == s.table[|s.past| := NewRow(|s.past|, e, c.codec.encode(e).value, at)]
    ensures |s'.past| == |s.past| + 1 && s'.log == s.log && s'.workers == s.workers
  {
    Extend(c, s0, tr, s, Insert(e, at));
    s' := Apply(c, s, Insert(e, at));
  }

  /** Index of the first event whose publication returns an error, or the number of events. */
  function FirstError(c: Config, events: seq<Event>, saves: nat -> SaveAttempt, from: nat): (i: nat)
    requires from <= |events|
    ensures from <= i <= |events|
    ensures forall k :: from <= k < i ==> c.codec.encode(events[k]).Some? && !saves(k).fate.Errs()
    ensures i < |events| ==> c.codec.encode(events[i]).None? || saves(i).fate.Errs()
    decreases |events| - from
  {
    if from == |events| || c.codec.encode(events[from]).None? || saves(from).fate.Errs() then from
    else FirstError(c, events, saves, from + 1)
  }

  /** The inserts of the first `n` events, each with its own time. */
  function BatchInserts(events: seq<Event>, saves: nat -> SaveAttempt, n: nat): (ls: seq<Label>)
    requires n <= |events|
  {
    seq(n, i requires 0 <= i < n => Insert(events[i], saves(i).now))
  }

  /** The table after the first `n` events were stored from id `first` on: old rows
      as they were, and one new row per event, in order. */
  ghost predicate Stored(
    c: Config, before: map<nat, Row>, first: nat, after: map<nat, Row>, events: seq<Event>, saves: nat -> SaveAttempt,
    n: nat)
    requires n <= |events|
  {
    && (forall k :: 0 <= k < n ==> c.codec.encode(events[k]).Some?)
    && (forall id :: id in after <==> id in before || first <= id < first + n)
    && (forall id :: id in before && id < first ==> id in after && after[id] == before[id])
    && (forall id :: id in after && first <= id < first + n ==>
          after[id] == NewRow(id, events[id - first], c.codec.encode(events[id - first]).value, saves(id - first).now))
  }

  lemma StoredNext(
    c: Config, before: map<nat, Row>, first: nat, t: map<nat, Row>, t': map<nat, Row>, events: seq<Event>,
    saves: nat -> SaveAttempt, n: nat)
    requires 0 < n <= |events| && Stored(c, before, first, t, events, saves, n - 1)
    requires c.codec.encode(events[n - 1]).Some?
    requires
      var id := first + n - 1;
      t' == t[id := NewRow(id, events[n - 1], c.codec.encode(events[n - 1]).value, saves(n - 1).now)]
    ensures Stored(c, before, first, t', events, saves, n)
  {
  }

  lemma InsertStores(c: Config, s: State, e: Event, at: int)
    requires Enabled(c, s, Insert(e, at))
    ensures |Apply(c, s, Insert(e, at)).past| == |s.past| + 1 && c.codec.encode(e).Some?
    ensures Apply(c, s, Insert(e, at)).table == s.table[|s.past| := NewRow(|s.past|, e, c.codec.encode(e).value, at)]
  {
  }

  lemma LastInsert(c: Config, s0: State, events: seq<Event>, saves: nat -> SaveAttempt, m: nat, s: State)
    returns (mid: State)
    requires m < |events| && Run(c, s0, BatchInserts(events, saves, m + 1), s)
    ensures Run(c, s0, BatchInserts(events, saves, m), mid)
    ensures c.codec.encode(events[m]).Some? && |s.past| == |mid.past| + 1
    ensures
      s.table == mid.table[|mid.past| := NewRow(|mid.past|, events[m], c.codec.encode(events[m]).value, saves(m).now)]
  {
    var ls := BatchInserts(events, saves, m + 1);
    assert ls[..m] == BatchInserts(events, saves, m);
    mid := LastStep(c, s0, ls, s);
    InsertStores(c, mid, events[m], saves(m).now);
  }

  lemma NoneStored(c: Config, t: map<nat, Row>, first: nat, events: seq<Event>, saves: nat -> SaveAttempt)
    ensures Stored(c, t, first, t, events, saves, 0)
  {
  }

  /** The steps of a batch leave exactly the rows of its events. */
  lemma {:induction false} BatchIsStored(
    c: Config, s0: State, events: seq<Event>, saves: nat -> SaveAttempt, n: nat, s: State)
    requires n <= |events| && Run(c, s0, BatchInserts(events, saves, n), s)
    ensures |s.past| == |s0.past| + n && Stored(c, s0.table, |s0.past|, s.table, events, saves, n)
  {
    if n == 0 {
      NoneStored(c, s0.table, |s0.past|, events, saves);
    } else {
      var mid := LastInsert(c, s0, events, saves, n - 1, s);
      BatchIsStored(c, s0, events, saves, n - 1, mid);
      StoredNext(c, s0.table, |s0.past|, mid.table, s.table, events, saves, n);
    }
  }

  /** The rows of a batch, column by column; the rows before it are as they were, and
      there are no others. */
  lemma StoredRows(
    c: Config, before: map<nat, Row>, first: nat, after: map<nat, Row>, events: seq<Event>, saves: nat -> SaveAttempt,
    n: nat)
    requires n <= |events| && Stored(c, before, first, after, events, saves, n)
    ensures
      forall id :: first <= id < first + n ==>
        var k := id - first;
        var payload := c.codec.encode(events[k]);
        && payload.Some? && id in after
        && after[id] == Row(id, events[k].id, events[k].typ, payload.value, Pending, 0, saves(k).now, None)
    ensures forall id :: id in before && id < first ==> id in after && after[id] == before[id]
    ensures forall id :: id in after ==> id in before || first <= id < first + n
  {
  }

  /** The steps of a retry loop leave one row for each time. */
  lemma LoopIsStored(c: Config, s0: State, e: Event, times: seq<int>, s: State)
    requires Run(c, s0, InsertLabels(e, times), s)
    ensures |s.past| == |s0.past| + |times| && (times != [] ==> c.codec.encode(e).Some?)
    ensures
      forall id :: |s0.past| <= id < |s.past| ==>
        && id in s.table
        && s.table[id] == Row(id, e.id, e.typ, c.codec.encode(e).value, Pending, 0, times[id - |s0.past|], None)
    ensures forall id :: id in s.table ==> id in s0.table || |s0.past| <= id < |s.past|
    ensures forall id :: id in s0.table && id < |s0.past| ==> id in s.table && s.table[id] == s0.table[id]
  {
    var n := |times|;
    var events := seq(n, i => e);
    var saves := (i: nat) => SaveAttempt(if i < n then times[i] else 0, Commits);
    assert InsertLabels(e, times) == BatchInserts(events, saves, n);
    BatchIsStored(c, s0, events, saves, n, s);
    StoredRows(c, s0.table, |s0.past|, s.table, events, saves, n);
  }

  function Lands(c: Config, events: seq<Event>, saves: nat -> SaveAttempt, n: nat): bool
    requires n < |events|
  {
    c.codec.encode(events[n]).Some? && saves(n).fate.Lands()
  }

  /** After the first `n` events of a batch: how many are stored and by which steps. */
  ghost predicate BatchAt(
    c: Config, events: seq<Event>, saves: nat -> SaveAttempt, n: nat, err: bool, stored: nat, tr: seq<Label>)
    requires n <= |events|
  {
    && stored == (if err && n > 0 && !Lands(c, events, saves, n - 1) then n - 1 else n)
    && tr == BatchInserts(events, saves, stored)
    && (if err then n > 0 && FirstError(c, events, saves, 0) == n - 1
        else FirstError(c, events, saves, 0) == FirstError(c, events, saves, n))
  }

  lemma BatchNext(c: Config, events: seq<Event>, saves: nat -> SaveAttempt, n: nat, tr: seq<Label>)
    requires n < |events| && BatchAt(c, events, saves, n, false, n, tr)
    ensures
      BatchAt(c, events, saves, n + 1, c.codec.encode(events[n]).None? || saves(n).fate.Errs(),
        if Lands(c, events, saves, n) then n + 1 else n,
        tr + if Lands(c, events, saves, n) then [Insert(events[n], saves(n).now)] else [])
  {
    assert tr + [] == tr;
    assert tr + [Insert(events[n], saves(n).now)] == BatchInserts(events, saves, n + 1);
  }

  /** After `n` tries of the retry loop the steps `tr` are taken. */
  ghost predicate Looped(c: Config, e: Event, attempts: seq<SaveAttempt>, n: nat, err: bool, tr: seq<Label>)
    requires n <= |attempts|
  {
    if c.codec.encode(e).None? then err && tr == []
    else
      InsertLabels(e, StoredAt(attempts)) == tr + (if err then InsertLabels(e, StoredAt(attempts[n..])) else [])
      && Saved(attempts) == (!err || Saved(attempts[n..]))
  }

  lemma LoopNext(c: Config, e: Event, attempts: seq<SaveAttempt>, n: nat, tr: seq<Label>)
    requires n < |attempts| && Looped(c, e, attempts, n, true, tr)
    ensures
      var a := attempts[n];
      Looped(c, e, attempts, n + 1, c.codec.encode(e).None? || a.fate.Errs(),
        tr + if c.codec.encode(e).Some? && a.fate.Lands() then [Insert(e, a.now)] else [])
  {
    var a, rest := attempts[n], attempts[n + 1..];
    assert attempts[n..][1..] == rest;
    if c.codec.encode(e).Some? {
      var l := [Insert(e, a.now)];
      if a.fate.CommitsButErrs? {
        assert InsertLabels(e, [a.now] + StoredAt(rest)) == l + InsertLabels(e, StoredAt(rest));
        assert tr + (l + InsertLabels(e, StoredAt(rest))) == tr + l + InsertLabels(e, StoredAt(rest));
      } else if a.fate.Commits? {
        assert InsertLabels(e, [a.now]) == l;
        assert tr + l + [] == tr + l;
      } else {
        assert tr + [] == tr;
      }
    } else {
      assert tr + [] == [];
    }
  }

  class EventPublisher {
    const repo: OutboxRepository
    const c: Config

    constructor (repo: OutboxRepository, c: Config)
      ensures this.repo == repo && this.c == c
    {
      this.repo, this.c := repo, c;
    }

    ghost predicate Mirrors(s: State)
      reads this, repo
    {
      repo.Valid() && s.table == repo.rows && |s.past| == repo.nextId
    }

    /** Stores one PENDING row with a retry count of zero. */
    method PublishEvent(e: Event, a: SaveAttempt) returns (err: bool)
      requires repo.Valid()
      modifies repo
      ensures repo.Valid() && err == (c.codec.encode(e).None? || !a.fate.Commits?)
      ensures
        var payload, id := c.codec.encode(e), old(repo.nextId);
        if payload.Some? && !a.fate.Refuses? then
          repo.nextId == id + 1
          && repo.rows == old(repo.rows)[id := Row(id, e.id, e.typ, payload.value, Pending, 0, a.now, None)]
        else repo.nextId == id && repo.rows == old(repo.rows)
    {
      var payload := c.codec.encode(e);
      if payload.None? { return true; }
      var entry := Row(0, e.id, e.typ, payload.value, Pending, 0, a.now, None);
      err := repo.Save(entry, a.fate);
    }

    /** One save within a longer run `tr` of the protocol. */
    method PublishTraced(e: Event, a: SaveAttempt, ghost s0: State, ghost tr: seq<Label>, ghost s: State)
      returns (err: bool, ghost tr': seq<Label>, ghost s': State)
      requires Mirrors(s) && Run(c, s0, tr, s)
      modifies repo
      ensures err == (c.codec.encode(e).None? || a.fate.Errs())
      ensures tr' == tr + if c.codec.encode(e).Some? && a.fate.Lands() then [Insert(e, a.now)] else []
      ensures Mirrors(s') && Run(c, s0, tr', s')
    {
      err := PublishEvent(e, a);
      tr', s' := tr, s;
      if c.codec.encode(e).Some? && a.fate.Lands() {
        s' := InsertTaken(c, s0, tr, s, e, a.now);
        tr' := tr + [Insert(e, a.now)];
      }
    }

    /** Publishes events until the first error. Exactly the events before it are
        stored, in order, under increasing ids; the failing one only if its save
        took effect and still returned an error. Existing rows are untouched. */
    method PublishEventBatch(events: seq<Event>, saves: nat -> SaveAttempt, ghost s0: State)
      returns (err: bool, ghost stored: nat, ghost s1: State)
      requires Mirrors(s0)
      modifies repo
      ensures
        var i := FirstError(c, events, saves, 0);
        && err == (i < |events|)
        && stored ==
           i + if i < |events| && c.codec.encode(events[i]).Some? && saves(i).fate.CommitsButErrs? then 1 else 0
      ensures Mirrors(s1) && Run(c, s0, BatchInserts(events, saves, stored), s1)
      ensures repo.nextId == old(repo.nextId) + stored
      ensures Stored(c, old(repo.rows), old(repo.nextId), repo.rows, events, saves, stored)
    {
      s1, stored, err := s0, 0, false;
      ghost var tr: seq<Label> := [];
      var n := 0;
      while n < |events| && !err
        invariant n <= |events| && BatchAt(c, events, saves, n, err, stored, tr)
        invariant Mirrors(s1) && Run(c, s0, tr, s1)
      {
        BatchNext(c, events, saves, n, tr);
        err, tr, s1 := PublishTraced(events[n], saves(n), s0, tr, s1);
        stored := if Lands(c, events, saves, n) then n + 1 else n;
        n := n + 1;
      }
      BatchIsStored(c, s0, events, saves, stored, s1);
    }

    /** Publishing in the retry loop: every save that takes effect leaves a row,
        also those that return an error and are therefore tried again. */
    method PublishWithRetry(e: Event, attempts: seq<SaveAttempt>, ghost s0: State)
      returns (err: bool, ghost s1: State)
      requires Mirrors(s0)
      modifies repo
      ensures
        err == !(c.codec.encode(e).Some? && exists k :: 0 <= k < |attempts| && attempts[k].fate.Commits?)
      ensures
        var times := if c.codec.encode(e).Some? then StoredAt(attempts) else [];
        && Mirrors(s1) && Run(c, s0, InsertLabels(e, times), s1)
        && repo.nextId == old(repo.nextId) + |times|
        && (forall id :: old(repo.nextId) <= id < repo.nextId ==>
              && id in repo.rows
              && repo.rows[id] ==
                 Row(id, e.id, e.typ, c.codec.encode(e).value, Pending, 0, times[id - old(repo.nextId)], None))
        && (forall id :: id in repo.rows ==> id in old(repo.rows) || old(repo.nextId) <= id < repo.nextId)
      ensures forall id :: id in old(repo.rows) ==> id in repo.rows && repo.rows[id] == old(repo.rows)[id]
    {
      SavedIff(attempts);
      s1, err := s0, true;
      ghost var tr: seq<Label> := [];
      var n := 0;
      assert attempts[0..] == attempts;
      while n < |attempts| && err
        invariant n <= |attempts| && Looped(c, e, attempts, n, err, tr)
        invariant Mirrors(s1) && Run(c, s0, tr, s1)
      {
        LoopNext(c, e, attempts, n, tr);
        err, tr, s1 := PublishTraced(e, attempts[n], s0, tr, s1);
        n := n + 1;
      }
      ghost var times := if c.codec.encode(e).Some? then StoredAt(attempts) else [];
      assert tr == InsertLabels(e, times);
      LoopIsStored(c, s0, e, times, s1);
    }
  }
}
