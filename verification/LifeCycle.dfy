/** The life of a row: which columns never change and which status moves exist,
    for any number of workers and for one. */
module LifeCycle {
  import opened Domain
  import opened Protocol
  import opened Safety
  import opened SingleWorker

  /** How a row may differ between an earlier and a later table. A row that is
      not PENDING never becomes PENDING, so the only moves after the first are
      between PUBLISHED and FAILED. */
  ghost predicate Ages(before: Row, after: Row) {
    && SameIdentity(before, after)
    && (after.status.Pending? ==> before.status.Pending?)
    && (before.publishedAt.Some? ==> after.publishedAt.Some?)
    && (after.status.Published? && !before.status.Published? ==> after.publishedAt.Some?)
    && before.retryCount <= after.retryCount
  }

  /** Rows of the later table are aged rows of the earlier one, or were inserted
      in between under an id that had never been used. */
  ghost predicate TableAges(s: State, s': State) {
    && |s.past| <= |s'.past|
    && forall id: nat :: id in s'.table ==>
         if id in s.table then Ages(s.table[id], s'.table[id]) else |s.past| <= id < |s'.past|
  }

  lemma TableAgesStep(c: Config, s: State, l: Label)
    requires Shape(c, s) && Enabled(c, s, l)
    ensures TableAges(s, Apply(c, s, l))
  {
    forall id: nat | id in NextTable(c, s, l) && id in s.table
      ensures Ages(s.table[id], NextTable(c, s, l)[id])
    {
      assert RowSound(s, id);
    }
  }

  lemma AgesTrans(a: Row, b: Row, d: Row)
    requires Ages(a, b) && Ages(b, d)
    ensures Ages(a, d)
  {
  }

  lemma TableAgesTrans(a: State, b: State, d: State)
    requires TableAges(a, b) && TableAges(b, d)
    requires forall id: nat :: id in a.table ==> id < |a.past|
    ensures TableAges(a, d)
  {
    forall id: nat | id in d.table
      ensures if id in a.table then Ages(a.table[id], d.table[id]) else |a.past| <= id < |d.past|
    {
      if id in a.table {
        assert id in b.table;
        AgesTrans(a.table[id], b.table[id], d.table[id]);
      }
    }
  }

  lemma {:induction false} AgesOverRuns(c: Config, s: State, ls: seq<Label>, s': State)
    requires c.codec.Lawful() && Shape(c, s) && Run(c, s, ls, s')
    ensures Shape(c, s') && TableAges(s, s')
    decreases |ls|
  {
    forall id: nat | id in s.table ensures id < |s.past| { assert RowSound(s, id); }
    if ls != [] {
      var mid := LastStep(c, s, ls, s');
      AgesOverRuns(c, s, ls[..|ls| - 1], mid);
      ShapeStep(c, mid, ls[|ls| - 1]);
      TableAgesStep(c, mid, ls[|ls| - 1]);
      TableAgesTrans(s, mid, s');
    }
  }

  /** Any number of workers: between any two moments of any run, rows only age. */
  lemma RowsOnlyAge(c: Config, ws: set<WorkerId>, first: seq<Label>, s: State, later: seq<Label>, s': State)
    requires c.codec.Lawful() && Run(c, Start(ws), first, s) && Run(c, s, later, s')
    ensures TableAges(s, s')
  {
    RunIsSafe(c, ws, first, s);
    AgesOverRuns(c, s, later, s');
  }

  /** A cleanup removes exactly the PUBLISHED rows marked before its cutoff, and
      changes no other. */
  lemma CleanupRemovesExactly(c: Config, s: State, cutoff: int, id: nat)
    requires id in s.table
    ensures
      var t' := Apply(c, s, Cleanup(cutoff)).table;
      && (id !in t' <==>
            s.table[id].status.Published? && s.table[id].publishedAt.Some? && s.table[id].publishedAt.value < cutoff)
      && (id in t' ==> t'[id] == s.table[id])
  {
  }

  /** A row marked at `now` survives every cleanup with a cutoff up to `now`. */
  lemma FreshMarkSurvives(c: Config, s: State, w: WorkerId, now: int, cutoff: int)
    requires Enabled(c, s, Mark(w, true, now)) && CurrentOf(s, w).id in s.table && cutoff <= now
    ensures
      var marked := Apply(c, s, Mark(w, true, now));
      var after := Apply(c, marked, Cleanup(cutoff)).table;
      var id := CurrentOf(s, w).id;
      id in after && after[id].status.Published? && after[id].publishedAt == Some(now)
  {
  }

  // ---- one worker: final states are final ----

  ghost predicate MarkedOnce(s: State) {
    forall id :: id in s.table ==> (s.table[id].publishedAt.Some? <==> s.table[id].status.Published?)
  }

  /** With one worker a row that left PENDING never changes again; it can only be
      cleaned up, and only if it was PUBLISHED. */
  ghost predicate FinalStays(s: State, s': State) {
    forall id :: id in s.table && !s.table[id].status.Pending? ==>
      if id in s'.table then s'.table[id] == s.table[id] else s.table[id].status.Published?
  }

  lemma FinalStaysStep(c: Config, s: State, l: Label, w: WorkerId)
    requires Solo(s, w) && Shape(c, s) && InStep(s, s.workers[w]) && Enabled(c, s, l)
    ensures FinalStays(s, Apply(c, s, l))
  {
    assert PcSound(c, s, s.workers[w]);
    forall id | id in s.table && !s.table[id].status.Pending?
      ensures if id in NextTable(c, s, l) then NextTable(c, s, l)[id] == s.table[id] else s.table[id].status.Published?
    {
      assert RowSound(s, id);
    }
  }

  lemma MarkedOnceStep(c: Config, s: State, l: Label, w: WorkerId)
    requires Solo(s, w) && Shape(c, s) && InStep(s, s.workers[w]) && MarkedOnce(s) && Enabled(c, s, l)
    ensures MarkedOnce(Apply(c, s, l))
  {
    assert PcSound(c, s, s.workers[w]);
    forall id | id in NextTable(c, s, l)
      ensures NextTable(c, s, l)[id].publishedAt.Some? <==> NextTable(c, s, l)[id].status.Published?
    {
      if id in s.table { assert RowSound(s, id); }
    }
  }

  lemma {:induction false} SoloMarkedOnce(c: Config, w: WorkerId, ls: seq<Label>, s: State)
    requires c.codec.Lawful() && Run(c, Start({w}), ls, s)
    ensures MarkedOnce(s)
    decreases |ls|
  {
    if ls != [] {
      var mid := LastStep(c, Start({w}), ls, s);
      SoloMarkedOnce(c, w, ls[..|ls| - 1], mid);
      SoloRun(c, w, ls[..|ls| - 1], mid);
      MarkedOnceStep(c, mid, ls[|ls| - 1], w);
    }
  }

  lemma FinalStaysTrans(a: State, b: State, d: State)
    requires FinalStays(a, b) && FinalStays(b, d) && TableAges(b, d)
    requires forall id: nat :: id in a.table ==> id < |b.past|
    ensures FinalStays(a, d)
  {
    forall id | id in a.table && !a.table[id].status.Pending?
      ensures if id in d.table then d.table[id] == a.table[id] else a.table[id].status.Published?
    {
      if id in d.table { assert id in b.table; }
    }
  }

  lemma {:induction false} SoloFinalStays(
    c: Config, w: WorkerId, first: seq<Label>, s: State, later: seq<Label>, s': State)
    requires c.codec.Lawful() && Run(c, Start({w}), first, s) && Run(c, s, later, s')
    ensures FinalStays(s, s')
    decreases |later|
  {
    if later != [] {
      var front, l := later[..|later| - 1], later[|later| - 1];
      var mid := LastStep(c, s, later, s');
      SoloFinalStays(c, w, first, s, front, mid);
      Chain(c, Start({w}), first, s, front, mid);
      SoloRun(c, w, first, s);
      SoloRun(c, w, first + front, mid);
      FinalStaysStep(c, mid, l, w);
      TableAgesStep(c, mid, l);
      AgesOverRuns(c, s, front, mid);
      forall id: nat | id in s.table ensures id < |mid.past| { assert RowSound(s, id); }
      FinalStaysTrans(s, mid, s');
    }
  }
}
