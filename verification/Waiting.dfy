/** How long a pending row can be kept waiting by the rows in front of it. */
module Waiting {
  import opened Domain
  import opened Protocol
  import opened Faults
  import opened Safety
  import opened Counting
  import opened Budget
  import opened Draining

  /** The pending rows that may be fetched before row `r`: those not created later. */
  ghost function InFront(s: State, r: nat): iset<nat>
    requires r in s.table
  {
    iset id: nat | id != r && IsPending(s.table, id) && s.table[id].createdAt <= s.table[r].createdAt
  }

  /** Publish rounds of a row in which the broker gave its answer: acknowledged, or
      given up. */
  ghost function Tries(h: History): nat { h.rounds + h.acks }

  ghost predicate Tried(s: State, r: nat, before: nat) {
    r < |s.past| && Tries(s.past[r]) > before
  }

  /** Entry `k` of the batch is to come, or it is being parsed or sent. */
  ghost predicate TurnAt(pc: Pc, k: nat) {
    pc.Busy? && pc.i <= k < |pc.snap| && (k == pc.i ==> pc.stage.Entry? || pc.stage.Sending?)
  }

  /** A worker that fetched the row has yet to come to it. */
  ghost predicate TurnComes(pc: Pc, r: nat) {
    pc.Busy? && Holds(pc.snap, r) ==> exists k: nat :: TurnAt(pc, k) && pc.snap[k].id == r
  }

  ghost predicate FrontClosed(s: State, front: iset<nat>, row: Row) {
    forall id: nat :: IsPending(s.table, id) && id != row.id && s.table[id].createdAt <= row.createdAt ==> id in front
  }

  /** The row is as it was and nobody has come to it. */
  ghost predicate Untouched(s: State, row: Row, before: nat) {
    && row.id in s.table && s.table[row.id] == row && row.status.Pending?
    && row.id < |s.past| && Tries(s.past[row.id]) >= before
    && forall w :: w in s.workers ==> TurnComes(s.workers[w], row.id)
  }

  /** Nobody has come to the row, and the rows in front of it have paid for every call. */
  ghost predicate InLine(
    c: Config, s: State, row: Row, before: nat, front: iset<nat>, m: nat, calls: nat, start: nat)
    requires c.batch >= 1
  {
    && Untouched(s, row, before) && FrontClosed(s, front, row)
    && Bulky(s, iset{row.id}, front, c.batch) && Paid(c, s, iset{row.id}, front, c.batch, m, calls, start)
  }

  ghost predicate Waits(
    c: Config, s: State, row: Row, before: nat, front: iset<nat>, m: nat, calls: nat, start: nat)
    requires c.batch >= 1
  {
    Tried(s, row.id, before) || InLine(c, s, row, before, front, m, calls, start)
  }

  lemma TriesGrow(c: Config, s: State, l: Label, r: nat)
    requires Enabled(c, s, l) && r < |s.past|
    ensures r < |Apply(c, s, l).past| && Tries(Apply(c, s, l).past[r]) >= Tries(s.past[r])
  {
    HistoryGrows(c, s, l, r);
  }

  /** A worker whose turn on the row is coming parses it, sends it, or tries it. */
  lemma OnTurn(c: Config, s: State, l: Label, r: nat)
    requires Shape(c, s) && Enabled(c, s, l) && About(s, l, r) && TurnComes(s.workers[l.w], r)
    ensures s.workers[l.w].stage.Entry? || s.workers[l.w].stage.Sending?
    ensures l.Parse? || l.Attempt? || l.GiveUp? || l.Crash?
  {
    var pc := s.workers[l.w];
    assert PcSound(c, s, pc);
    assert pc.snap[pc.i].id == r;
    var k: nat :| TurnAt(pc, k) && pc.snap[k].id == r;
  }

  lemma TurnAfterFetch(c: Config, s: State, l: Label, r: nat)
    requires Enabled(c, s, l) && l.Fetch?
    ensures TurnComes(Apply(c, s, l).workers[l.w], r)
  {
    var pc' := Apply(c, s, l).workers[l.w];
    if Holds(l.snap, r) {
      var k :| 0 <= k < |l.snap| && l.snap[k].id == r;
      assert TurnAt(pc', k) && pc'.snap[k].id == r;
    }
  }

  /** Coming to the row means trying it, unless the worker crashes. */
  lemma TurnStays(c: Config, s: State, l: Label, w: WorkerId, r: nat, k: nat)
    requires c.codec.Lawful() && Shape(c, s) && Enabled(c, s, l) && w in s.workers && r < |s.past|
    requires TurnAt(s.workers[w], k) && s.workers[w].snap[k].id == r && TurnComes(s.workers[w], r)
    requires Tries(NextHistory(c, s, l, r)) == Tries(s.past[r])
    requires Apply(c, s, l).workers[w].Busy? && !(l.Fetch? && l.w == w)
    ensures TurnAt(Apply(c, s, l).workers[w], k) && Apply(c, s, l).workers[w].snap == s.workers[w].snap
  {
    if k == s.workers[w].i && Apply(c, s, l).workers[w] != s.workers[w] {
      OnTurn(c, s, l, r);
      PcSoundStep(c, s, l, w);
    }
  }

  lemma TurnComesStep(c: Config, s: State, l: Label, w: WorkerId, r: nat)
    requires c.codec.Lawful() && Shape(c, s) && Enabled(c, s, l) && w in s.workers && r < |s.past|
    requires TurnComes(s.workers[w], r) && Tries(NextHistory(c, s, l, r)) == Tries(s.past[r])
    ensures TurnComes(Apply(c, s, l).workers[w], r)
  {
    var pc, pc' := s.workers[w], Apply(c, s, l).workers[w];
    if l.Fetch? && l.w == w {
      TurnAfterFetch(c, s, l, r);
    } else if pc'.Busy? && Holds(pc'.snap, r) {
      SnapOrigin(c, s, l, w);
      var k: nat :| TurnAt(pc, k) && pc.snap[k].id == r;
      TurnStays(c, s, l, w, r, k);
    }
  }

  lemma UntouchedStep(c: Config, s: State, l: Label, row: Row, before: nat)
    requires c.codec.Lawful() && Shape(c, s) && Enabled(c, s, l) && Untouched(s, row, before)
    requires Tries(NextHistory(c, s, l, row.id)) == Tries(s.past[row.id])
    ensures Untouched(Apply(c, s, l), row, before)
  {
    assert NextPast(c, s, l)[row.id] == NextHistory(c, s, l, row.id);
    if About(s, l, row.id) { OnTurn(c, s, l, row.id); }
    assert NextTable(c, s, l)[row.id] == row;
    forall w | w in Apply(c, s, l).workers ensures TurnComes(Apply(c, s, l).workers[w], row.id) {
      TurnComesStep(c, s, l, w, row.id);
    }
  }

  lemma FrontClosedStep(c: Config, s: State, l: Label, front: iset<nat>, row: Row)
    requires Working(c, s) && Enabled(c, s, l) && FrontClosed(s, front, row) && (l.Insert? ==> l.at > row.createdAt)
    ensures FrontClosed(Apply(c, s, l), front, row)
  {
    var t' := NextTable(c, s, l);
    forall id: nat | IsPending(t', id) && id != row.id && t'[id].createdAt <= row.createdAt
      ensures id in front
    {
      assert RowSound(s, id);
      assert IsPending(s.table, id);
    }
  }

  /** A fetch that passes over the row takes a full batch from the rows in front. */
  lemma PassedOver(c: Config, s: State, l: Label, row: Row, before: nat, front: iset<nat>)
    requires Enabled(c, s, l) && l.Fetch? && Untouched(s, row, before) && FrontClosed(s, front, row)
    requires Clear(Busy(l.snap, 0, Entry), iset{row.id})
    ensures |l.snap| == c.batch && forall k :: 0 <= k < |l.snap| ==> l.snap[k].id in front
  {
    assert IsPending(s.table, row.id) && !Holds(l.snap, row.id);
    forall k | 0 <= k < |l.snap| ensures l.snap[k].id in front {
      assert IsPending(s.table, l.snap[k].id) && l.snap[k].id != row.id;
    }
  }

  /** A call that holds the row does not come to its end before the row is tried. */
  lemma EndsClear(c: Config, s: State, l: Label, row: Row, before: nat)
    requires Shape(c, s) && Enabled(c, s, l) && l.Finish? && Untouched(s, row, before)
    ensures Clear(s.workers[l.w], iset{row.id})
  {
    var pc := s.workers[l.w];
    assert TurnComes(pc, row.id);
    if k: nat :| k < |pc.snap| && pc.snap[k].id == row.id { assert Holds(pc.snap, row.id); }
  }

  lemma WaitsStep(
    c: Config, s: State, l: Label, row: Row, before: nat, front: iset<nat>, m: nat, calls: nat, start: nat)
    requires c.codec.Lawful() && Working(c, s) && Enabled(c, s, l) && Keeps(WritesCommit, c, s, l)
    requires c.batch >= 1 && WorkersBelow(s, m) && (l.Insert? ==> l.at > row.createdAt && |s.past| !in front)
    requires Waits(c, s, row, before, front, m, calls, start)
    ensures Waits(c, Apply(c, s, l), row, before, front, m, calls + (if l.Finish? then 1 else 0), start)
  {
    TriesGrow(c, s, l, row.id);
    if !Tried(Apply(c, s, l), row.id, before) {
      assert NextPast(c, s, l)[row.id] == NextHistory(c, s, l, row.id);
      UntouchedStep(c, s, l, row, before);
      FrontClosedStep(c, s, l, front, row);
      if l.Fetch? && Clear(Busy(l.snap, 0, Entry), iset{row.id}) { PassedOver(c, s, l, row, before, front); }
      BulkyStep(c, s, l, iset{row.id}, front, c.batch);
      if l.Finish? { EndsClear(c, s, l, row, before); }
      PaidStaysPaid(c, s, l, iset{row.id}, front, c.batch, m, calls, start);
    }
  }

  lemma WaitsNext(
    c: Config, mid: State, front: seq<Label>, ls: seq<Label>, s: State, row: Row, before: nat, ids: iset<nat>, m: nat,
    start: nat)
    requires c.codec.Lawful() && Working(c, mid) && c.batch >= 1 && WorkersBelow(mid, m)
    requires ls != [] && front == ls[..|ls| - 1]
    requires Enabled(c, mid, ls[|ls| - 1]) && s == Apply(c, mid, ls[|ls| - 1])
    requires Keeps(WritesCommit, c, mid, ls[|ls| - 1])
    requires ls[|ls| - 1].Insert? ==> ls[|ls| - 1].at > row.createdAt && |mid.past| !in ids
    requires Waits(c, mid, row, before, ids, m, Calls(front), start)
    ensures Waits(c, s, row, before, ids, m, Calls(ls), start)
  {
    WaitsStep(c, mid, ls[|ls| - 1], row, before, ids, m, Calls(front), start);
  }

  ghost predicate InsertsAfter(ls: seq<Label>, at: int) {
    forall k :: 0 <= k < |ls| ==> ls[k].Insert? ==> ls[k].at > at
  }

  lemma {:induction false} WaitsRun(
    c: Config, s0: State, ls: seq<Label>, s: State, row: Row, before: nat, front: iset<nat>, m: nat, start: nat)
    requires c.codec.Lawful() && c.batch >= 1 && Working(c, s0) && WorkersBelow(s0, m)
    requires Run(c, s0, ls, s) && AllKeep(WritesCommit, c, s0, ls) && InsertsAfter(ls, row.createdAt)
    requires forall id: nat :: id in front ==> id < |s0.past|
    requires Waits(c, s0, row, before, front, m, 0, start)
    ensures Waits(c, s, row, before, front, m, Calls(ls), start)
    decreases |ls|
  {
    if ls != [] {
      var mid := LastStep(c, s0, ls, s);
      RunWorks(c, s0, ls[..|ls| - 1], mid);
      WaitsRun(c, s0, ls[..|ls| - 1], mid, row, before, front, m, start);
      WaitsNext(c, mid, ls[..|ls| - 1], ls, s, row, before, front, m, start);
    }
  }

  lemma QuotientExceeds(total: nat, size: int, n: nat)
    requires size >= 1 && n >= total / size + 1
    ensures size * n > total
  {
    assert size * n >= size * (total / size + 1);
  }

  lemma WaitsAtRest(c: Config, s: State, r: nat, m: nat)
    requires c.batch >= 1 && Working(c, s) && AllIdle(s) && IsPending(s.table, r)
    ensures r < |s.past|
    ensures
      var row, front := s.table[r], InFront(s, r);
      && row.id == r && (forall id: nat :: id in front ==> id < |s.past|)
      && Waits(c, s, row, Tries(s.past[r]), front, m, 0, Outstanding(c, s, front, Crew(s)))
  {
    assert RowSound(s, r);
    var row, front := s.table[r], InFront(s, r);
    assert row.id == r by { assert BornSound(c, s, r); }
    forall id: nat | id in front ensures id < |s.past| { assert RowSound(s, id); }
    LiabilityAtRest(c, s, front);
    NoProgressAtRest(s, iset{r}, m);
    assert InLine(c, s, row, Tries(s.past[r]), front, m, 0, Outstanding(c, s, front, Crew(s)));
  }

  /** The waiting bound, for any number of overlapping workers that may crash at any
      point: let B be the budget of the pending rows not created later than row r.
      However many rows are inserted after it, after B / batch + 1 completed calls
      row r has been through a publish round. */
  lemma WaitingBound(c: Config, s0: State, ls: seq<Label>, s: State, r: nat, n: nat)
    requires c.codec.Lawful() && c.batch >= 1 && Working(c, s0) && AllIdle(s0) && n == Crew(s0)
    requires IsPending(s0.table, r)
    requires Run(c, s0, ls, s) && AllKeep(WritesCommit, c, s0, ls) && InsertsAfter(ls, s0.table[r].createdAt)
    requires Calls(ls) >= Outstanding(c, s0, InFront(s0, r), n) / c.batch + 1
    ensures r < |s0.past| && r < |s.past| && Tries(s.past[r]) > Tries(s0.past[r])
  {
    var m := WorkerBound(s0.workers.Keys);
    WaitsAtRest(c, s0, r, m);
    var row, front := s0.table[r], InFront(s0, r);
    var start := Outstanding(c, s0, front, n);
    WaitsRun(c, s0, ls, s, row, Tries(s0.past[r]), front, m, start);
    QuotientExceeds(start, c.batch, Calls(ls));
  }
}
