/** The books of overlapping calls: a call that comes to its end has worked off its
    whole batch, so completed calls are paid for out of the outstanding budget. */
module Draining {
  import opened Protocol
  import opened Faults
  import opened Safety
  import opened Counting
  import opened Sums
  import opened Budget

  /** The batch holds no row of `apart`. */
  ghost predicate Clear(pc: Pc, apart: iset<nat>) {
    pc.Busy? && forall k :: 0 <= k < |pc.snap| ==> pc.snap[k].id !in apart
  }

  ghost function Position(pc: Pc, apart: iset<nat>): nat {
    if Clear(pc, apart) then pc.i else 0
  }

  ghost function PositionOf(s: State, apart: iset<nat>): nat -> nat {
    (w: nat) => if w in s.workers then Position(s.workers[w], apart) else 0
  }

  /** How far the workers below `m` have come in batches without a row of `apart`. */
  ghost function Progress(s: State, apart: iset<nat>, m: nat): nat {
    Sum(PositionOf(s, apart), m)
  }

  /** Such batches have at least `b` rows, all of them in `ids`. */
  ghost predicate Bulky(s: State, apart: iset<nat>, ids: iset<nat>, b: nat) {
    forall w :: w in s.workers && Clear(s.workers[w], apart) ==>
      && |s.workers[w].snap| >= b
      && forall k :: 0 <= k < |s.workers[w].snap| ==> s.workers[w].snap[k].id in ids
  }

  lemma BulkyStep(c: Config, s: State, l: Label, apart: iset<nat>, ids: iset<nat>, b: nat)
    requires Enabled(c, s, l) && Bulky(s, apart, ids, b)
    requires
      l.Fetch? && Clear(Busy(l.snap, 0, Entry), apart) ==>
        |l.snap| >= b && forall k :: 0 <= k < |l.snap| ==> l.snap[k].id in ids
    ensures Bulky(Apply(c, s, l), apart, ids, b)
  {
    var s' := Apply(c, s, l);
    forall w | w in s'.workers && Clear(s'.workers[w], apart)
      ensures |s'.workers[w].snap| >= b
      ensures forall k :: 0 <= k < |s'.workers[w].snap| ==> s'.workers[w].snap[k].id in ids
    {
      SnapOrigin(c, s, l, w);
      if l.Fetch? && s'.workers[w].snap == l.snap {
        assert Clear(Busy(l.snap, 0, Entry), apart);
      } else {
        assert Clear(s.workers[w], apart);
      }
    }
  }

  ghost predicate WorkersBelow(s: State, m: nat) {
    forall w :: w in s.workers ==> w < m
  }

  /** What `calls` completed calls, and the calls under way, have cost so far. */
  ghost predicate Paid(
    c: Config, s: State, apart: iset<nat>, ids: iset<nat>, b: nat, m: nat, calls: nat, start: nat)
  {
    Liability(c, s, ids) + b * calls + Progress(s, apart, m) <= start
  }

  lemma WorkerBound(ws: set<WorkerId>) returns (m: nat)
    ensures forall w :: w in ws ==> w < m
    decreases ws
  {
    if ws == {} {
      m := 0;
    } else {
      var w :| w in ws;
      m := WorkerBound(ws - {w});
      assert forall v :: v in ws ==> v == w || v in ws - {w};
      m := if m > w then m else w + 1;
    }
  }

  lemma NoProgressAtRest(s: State, apart: iset<nat>, m: nat)
    requires AllIdle(s)
    ensures Progress(s, apart, m) == 0
  {
    SumOfZeros(PositionOf(s, apart), m);
  }

  /** The worker of a step is the only one whose position changes. */
  lemma OthersKeepPosition(c: Config, s: State, l: Label, apart: iset<nat>, w: WorkerId)
    requires Enabled(c, s, l) && (l.Insert? || l.Cleanup? || w != l.w)
    ensures PositionOf(Apply(c, s, l), apart)(w) == PositionOf(s, apart)(w)
  {
  }

  lemma PositionStep(c: Config, s: State, l: Label, apart: iset<nat>)
    requires Shape(c, s) && Enabled(c, s, l) && !l.Insert? && !l.Cleanup?
    ensures
      var before, after := PositionOf(s, apart)(l.w), PositionOf(Apply(c, s, l), apart)(l.w);
      if (l.Judge? || l.Mark?) && Clear(s.workers[l.w], apart) then after <= before + 1
      else if l.Finish? && Clear(s.workers[l.w], apart) then after == 0 && before == |s.workers[l.w].snap|
      else after <= before
  {
    NeverBroken(c, s, l);
    assert PcSound(c, s, s.workers[l.w]);
  }

  lemma ProgressStep(c: Config, s: State, l: Label, apart: iset<nat>, m: nat)
    requires Shape(c, s) && Enabled(c, s, l) && WorkersBelow(s, m)
    ensures
      var before, after := Progress(s, apart, m), Progress(Apply(c, s, l), apart, m);
      if l.Insert? || l.Cleanup? then after <= before
      else if (l.Judge? || l.Mark?) && Clear(s.workers[l.w], apart) then after <= before + 1
      else if l.Finish? && Clear(s.workers[l.w], apart) then after + |s.workers[l.w].snap| <= before
      else after <= before
  {
    var f, g := PositionOf(s, apart), PositionOf(Apply(c, s, l), apart);
    if l.Insert? || l.Cleanup? {
      forall w: nat ensures g(w) == f(w) { OthersKeepPosition(c, s, l, apart, w); }
      SumLowers(f, g, m);
    } else {
      forall w: nat | w != l.w ensures g(w) == f(w) { OthersKeepPosition(c, s, l, apart, w); }
      PositionStep(c, s, l, apart);
      SumMoves(f, g, l.w, m);
    }
  }

  lemma ClearRoundEnds(c: Config, s: State, l: Label, apart: iset<nat>, ids: iset<nat>, b: nat)
    requires Shape(c, s) && Enabled(c, s, l) && Keeps(WritesCommit, c, s, l) && (l.Judge? || l.Mark?)
    requires Bulky(s, apart, ids, b) && Clear(s.workers[l.w], apart)
    ensures EndedIn(c, s, l, ids) == 1
  {
    assert About(s, l, CurrentOf(s, l.w).id) && CurrentOf(s, l.w).id in ids;
  }

  /** Each step is paid for; the calls that hold a row of `apart` must not end. */
  lemma PaidStaysPaid(
    c: Config, s: State, l: Label, apart: iset<nat>, ids: iset<nat>, b: nat, m: nat, calls: nat, start: nat)
    requires Working(c, s) && Enabled(c, s, l) && Keeps(WritesCommit, c, s, l) && WorkersBelow(s, m)
    requires Bulky(s, apart, ids, b) && Paid(c, s, apart, ids, b, m, calls, start)
    requires l.Insert? ==> |s.past| !in ids
    requires l.Finish? ==> Clear(s.workers[l.w], apart)
    ensures Paid(c, Apply(c, s, l), apart, ids, b, m, calls + (if l.Finish? then 1 else 0), start)
  {
    LiabilityStep(c, s, l, ids);
    ProgressStep(c, s, l, apart, m);
    if (l.Judge? || l.Mark?) && Clear(s.workers[l.w], apart) { ClearRoundEnds(c, s, l, apart, ids, b); }
    assert b * (calls + 1) == b * calls + b;
  }

  // ---- draining ----

  lemma NoNewPending(c: Config, s: State, l: Label)
    requires Enabled(c, s, l) && !l.Insert?
    ensures PendingIds(NextTable(c, s, l)) <= PendingIds(s.table)
  {
  }

  /** Either the outbox is empty, or no batch is and every completed call was paid for. */
  ghost predicate Drains(c: Config, s: State, m: nat, calls: nat, start: nat) {
    || PendingIds(s.table) == {}
    || (Bulky(s, iset{}, Everything(), 1) && Paid(c, s, iset{}, Everything(), 1, m, calls, start))
  }

  lemma FetchFindsRows(c: Config, s: State, l: Label)
    requires Enabled(c, s, l) && l.Fetch? && c.batch >= 1 && PendingIds(s.table) != {}
    ensures |l.snap| >= 1
  {
    FetchSize(s.table, c.batch, l.snap);
  }

  lemma DrainsStep(c: Config, s: State, l: Label, m: nat, calls: nat, start: nat)
    requires Working(c, s) && Enabled(c, s, l) && Keeps(WritesCommit, c, s, l) && WorkersBelow(s, m)
    requires c.batch >= 1 && !l.Insert? && Drains(c, s, m, calls, start)
    ensures Drains(c, Apply(c, s, l), m, calls + (if l.Finish? then 1 else 0), start)
  {
    NoNewPending(c, s, l);
    if PendingIds(Apply(c, s, l).table) != {} {
      if l.Fetch? { FetchFindsRows(c, s, l); }
      assert l.Finish? ==> Clear(s.workers[l.w], iset{});
      PaidStaysPaid(c, s, l, iset{}, Everything(), 1, m, calls, start);
      BulkyStep(c, s, l, iset{}, Everything(), 1);
    }
  }

  lemma {:induction false} DrainsRun(c: Config, s0: State, ls: seq<Label>, s: State, m: nat, start: nat)
    requires c.codec.Lawful() && c.batch >= 1 && Working(c, s0) && WorkersBelow(s0, m)
    requires Run(c, s0, ls, s) && AllKeep(WritesCommit, c, s0, ls) && NoInserts(ls)
    requires Drains(c, s0, m, 0, start)
    ensures Drains(c, s, m, Calls(ls), start)
    decreases |ls|
  {
    if ls != [] {
      var l := ls[|ls| - 1];
      var mid := LastStep(c, s0, ls, s);
      RunWorks(c, s0, ls[..|ls| - 1], mid);
      DrainsRun(c, s0, ls[..|ls| - 1], mid, m, start);
      DrainsStep(c, mid, l, m, Calls(ls[..|ls| - 1]), start);
    }
  }

  lemma PendingIsOutstanding(c: Config, s: State)
    requires Working(c, s) && PendingIds(s.table) != {} && Crew(s) >= 1
    ensures Liability(c, s, Everything()) >= 1
  {
    var id :| id in PendingIds(s.table);
    assert RowSound(s, id) && AnyId(id);
    assert PotentialIn(c, s, Everything())(id) >= 1;
    TermInSum(PotentialIn(c, s, Everything()), id, |s.past|);
  }

  /** The drain bound, for any number of overlapping workers that may crash at any
      point: without new inserts, after as many completed calls as there is budget
      outstanding no row is PENDING, whatever the broker refused. */
  lemma DrainBound(c: Config, s0: State, ls: seq<Label>, s: State, n: nat)
    requires c.codec.Lawful() && c.batch >= 1 && Working(c, s0) && AllIdle(s0) && n == Crew(s0) >= 1
    requires Run(c, s0, ls, s) && AllKeep(WritesCommit, c, s0, ls) && NoInserts(ls)
    requires Calls(ls) >= Outstanding(c, s0, Everything(), n)
    ensures PendingIds(s.table) == {}
  {
    var start := Outstanding(c, s0, Everything(), n);
    var m := WorkerBound(s0.workers.Keys);
    LiabilityAtRest(c, s0, Everything());
    NoProgressAtRest(s0, iset{}, m);
    DrainsRun(c, s0, ls, s, m, start);
    RunWorks(c, s0, ls, s);
    if PendingIds(s.table) != {} { PendingIsOutstanding(c, s); }
  }
}
