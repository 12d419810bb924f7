/** Any number of workers whose calls never overlap are, seen from outside, one
    worker: the workers can be merged into one that takes the same steps. */
module Serial {
  import opened Routing
  import opened Protocol
  import opened Faults
  import opened Safety
  import opened SingleWorker
  import opened LifeCycle
  import opened Order
  import opened Sums
  import opened Budget
  import opened Waiting
  import opened Outcome

  /** At most one worker is inside a call. */
  ghost predicate Alone(s: State) {
    forall v, w :: v in s.workers && w in s.workers && s.workers[v].Busy? && s.workers[w].Busy? ==> v == w
  }

  /** At no moment of the run, its end included, do two calls overlap. */
  ghost predicate NeverOverlaps(c: Config, s: State, ls: seq<Label>)
    requires Legal(c, s, ls)
    decreases |ls|
  {
    Alone(Exec(c, s, ls)) && (ls != [] ==> NeverOverlaps(c, s, ls[..|ls| - 1]))
  }

  // ---- merging the workers ----

  const MERGED: WorkerId := 0

  ghost function ActivePc(s: State): Pc {
    if AllIdle(s) then Idle
    else
      var w :| w in s.workers && s.workers[w].Busy?;
      s.workers[w]
  }

  ghost function Merged(s: State): State {
    s.(workers := map[MERGED := ActivePc(s)])
  }

  function AsMerged(l: Label): Label {
    if l.Insert? || l.Cleanup? then l else l.(w := MERGED)
  }

  /** A crash of an idle worker changes nothing and has no counterpart. */
  ghost predicate Vanishes(s: State, l: Label) {
    l.Crash? && l.w in s.workers && s.workers[l.w].Idle?
  }

  lemma ActiveIs(s: State, w: WorkerId)
    requires Alone(s) && w in s.workers && s.workers[w].Busy?
    ensures ActivePc(s) == s.workers[w]
  {
  }

  lemma VanishingStep(c: Config, s: State, l: Label)
    requires Enabled(c, s, l) && Vanishes(s, l)
    ensures Apply(c, s, l) == s
  {
    forall id | 0 <= id < |s.past| ensures NextPast(c, s, l)[id] == s.past[id] {
      assert NextPast(c, s, l)[id] == NextHistory(c, s, l, id);
    }
    assert NextPast(c, s, l) == s.past;
    assert s.workers[l.w := Idle] == s.workers;
  }

  lemma MergedEnabled(c: Config, s: State, l: Label)
    requires Enabled(c, s, l) && Alone(s) && Alone(Apply(c, s, l)) && !Vanishes(s, l)
    ensures Enabled(c, Merged(s), AsMerged(l))
    ensures !l.Insert? && !l.Cleanup? ==> l.w in s.workers && ActivePc(s) == s.workers[l.w]
  {
    if !l.Insert? && !l.Cleanup? {
      if s.workers[l.w].Busy? {
        ActiveIs(s, l.w);
      } else {
        assert l.Fetch? && Apply(c, s, l).workers[l.w].Busy?;
        forall v | v in s.workers ensures s.workers[v].Idle? {
          assert v != l.w ==> Apply(c, s, l).workers[v] == s.workers[v];
        }
      }
    }
  }

  lemma MergedHistory(c: Config, s: State, l: Label, id: nat)
    requires Enabled(c, s, l) && Enabled(c, Merged(s), AsMerged(l)) && id < |s.past|
    requires !l.Insert? && !l.Cleanup? ==> l.w in s.workers && ActivePc(s) == s.workers[l.w]
    ensures NextHistory(c, Merged(s), AsMerged(l), id) == NextHistory(c, s, l, id)
  {
  }

  lemma MergedActive(c: Config, s: State, l: Label)
    requires Enabled(c, s, l) && Alone(s) && Alone(Apply(c, s, l)) && Enabled(c, Merged(s), AsMerged(l))
    requires !l.Insert? && !l.Cleanup? ==> l.w in s.workers && ActivePc(s) == s.workers[l.w]
    ensures NextWorkers(c, Merged(s), AsMerged(l)) == map[MERGED := ActivePc(Apply(c, s, l))]
  {
    var s' := Apply(c, s, l);
    if l.Insert? || l.Cleanup? {
      assert s'.workers == s.workers;
      if !AllIdle(s) {
        var w :| w in s.workers && s.workers[w].Busy?;
        ActiveIs(s, w);
        ActiveIs(s', w);
      }
    } else if s'.workers[l.w].Busy? {
      ActiveIs(s', l.w);
    } else {
      forall v | v in s'.workers ensures s'.workers[v].Idle? {
        assert v != l.w ==> s'.workers[v] == s.workers[v];
      }
    }
  }

  /** A step of one of the workers is that step of the merged worker. */
  lemma MergedStep(c: Config, s: State, l: Label)
    requires Enabled(c, s, l) && Alone(s) && Alone(Apply(c, s, l)) && !Vanishes(s, l)
    ensures Enabled(c, Merged(s), AsMerged(l)) && Apply(c, Merged(s), AsMerged(l)) == Merged(Apply(c, s, l))
  {
    MergedEnabled(c, s, l);
    MergedActive(c, s, l);
    var past', merged' := NextPast(c, s, l), NextPast(c, Merged(s), AsMerged(l));
    forall id | 0 <= id < |s.past| ensures merged'[id] == past'[id] {
      MergedHistory(c, s, l, id);
      assert past'[id] == NextHistory(c, s, l, id) && merged'[id] == NextHistory(c, Merged(s), AsMerged(l), id);
    }
    assert merged' == past';
  }

  lemma AloneAtEnd(c: Config, s0: State, ls: seq<Label>, s: State)
    requires Run(c, s0, ls, s) && NeverOverlaps(c, s0, ls)
    ensures Alone(s)
  {
  }

  /** Each step of the merged worker is a step of one of the workers. */
  ghost predicate ComesFrom(l: Label, ls: seq<Label>) {
    exists j :: 0 <= j < |ls| && l == AsMerged(ls[j])
  }

  ghost predicate FromSome(solo: seq<Label>, ls: seq<Label>) {
    forall k :: 0 <= k < |solo| ==> ComesFrom(solo[k], ls)
  }

  lemma ComesFromLonger(x: Label, ls: seq<Label>, l: Label)
    requires ComesFrom(x, ls)
    ensures ComesFrom(x, ls + [l])
  {
    var j :| 0 <= j < |ls| && x == AsMerged(ls[j]);
    assert (ls + [l])[j] == ls[j];
  }

  /** What theorems ask of the labels of a run carries over to the merged run. */
  ghost predicate Alike(solo: seq<Label>, ls: seq<Label>) {
    FromSome(solo, ls) && Calls(solo) == Calls(ls) && (InsertsInOrder(ls) ==> InsertsInOrder(solo))
  }

  lemma OrderOfFront(ls: seq<Label>, l: Label)
    requires InsertsInOrder(ls + [l])
    ensures InsertsInOrder(ls)
    ensures forall j :: 0 <= j < |ls| && ls[j].Insert? && l.Insert? ==> ls[j].at <= l.at
  {
    var all := ls + [l];
    assert forall j :: 0 <= j < |ls| ==> all[j] == ls[j];
    assert all[|ls|] == l;
  }

  lemma AlikeDropped(solo: seq<Label>, ls: seq<Label>, l: Label)
    requires Alike(solo, ls) && l.Crash?
    ensures Alike(solo, ls + [l])
  {
    assert (ls + [l])[..|ls|] == ls;
    forall k | 0 <= k < |solo| ensures ComesFrom(solo[k], ls + [l]) { ComesFromLonger(solo[k], ls, l); }
    if InsertsInOrder(ls + [l]) { OrderOfFront(ls, l); }
  }

  lemma FromSomeTaken(solo: seq<Label>, ls: seq<Label>, l: Label)
    requires FromSome(solo, ls)
    ensures FromSome(solo + [AsMerged(l)], ls + [l])
  {
    var solo' := solo + [AsMerged(l)];
    forall k | 0 <= k < |solo'| ensures ComesFrom(solo'[k], ls + [l]) {
      if k < |solo| {
        ComesFromLonger(solo[k], ls, l);
      } else {
        assert (ls + [l])[|ls|] == l;
      }
    }
  }

  lemma AlikeTaken(solo: seq<Label>, ls: seq<Label>, l: Label)
    requires Alike(solo, ls)
    ensures Alike(solo + [AsMerged(l)], ls + [l])
  {
    assert (ls + [l])[..|ls|] == ls && (solo + [AsMerged(l)])[..|solo|] == solo;
    FromSomeTaken(solo, ls, l);
    if InsertsInOrder(ls + [l]) {
      OrderOfFront(ls, l);
      forall k | 0 <= k < |solo| && solo[k].Insert? && l.Insert? ensures solo[k].at <= l.at {
        assert ComesFrom(solo[k], ls);
      }
    }
  }

  lemma KeepsMerged(p: Promise, c: Config, s: State, l: Label)
    requires Enabled(c, s, l) && Alone(s) && Alone(Apply(c, s, l)) && !Vanishes(s, l) && Keeps(p, c, s, l)
    ensures Enabled(c, Merged(s), AsMerged(l)) && Keeps(p, c, Merged(s), AsMerged(l))
  {
    MergedEnabled(c, s, l);
  }

  /** Merging the workers turns a run without overlap into a run of one worker with
      the same table, histories and broker log, made of the same steps. */
  lemma {:induction false} SerialRunsAreSolo(c: Config, s0: State, ls: seq<Label>, s: State) returns (solo: seq<Label>)
    requires Run(c, s0, ls, s) && NeverOverlaps(c, s0, ls)
    ensures Run(c, Merged(s0), solo, Merged(s)) && Alike(solo, ls)
    ensures forall p :: AllKeep(p, c, s0, ls) ==> AllKeep(p, c, Merged(s0), solo)
    decreases |ls|
  {
    if ls == [] {
      solo := [];
    } else {
      var front, l := ls[..|ls| - 1], ls[|ls| - 1];
      var mid := LastStep(c, s0, ls, s);
      solo := SerialRunsAreSolo(c, s0, front, mid);
      AloneAtEnd(c, s0, front, mid);
      assert front + [l] == ls;
      if Vanishes(mid, l) {
        VanishingStep(c, mid, l);
        AlikeDropped(solo, front, l);
      } else {
        MergedStep(c, mid, l);
        Extend(c, Merged(s0), solo, Merged(mid), AsMerged(l));
        AlikeTaken(solo, front, l);
        assert (solo + [AsMerged(l)])[..|solo|] == solo;
        forall p | AllKeep(p, c, s0, ls) ensures AllKeep(p, c, Merged(s0), solo + [AsMerged(l)]) {
          KeepsMerged(p, c, mid, l);
        }
        solo := solo + [AsMerged(l)];
      }
    }
  }

  lemma MergedStart(c: Config, ws: set<WorkerId>, ls: seq<Label>, s: State) returns (solo: seq<Label>)
    requires Run(c, Start(ws), ls, s) && NeverOverlaps(c, Start(ws), ls)
    ensures Run(c, Start({MERGED}), solo, Merged(s)) && Alike(solo, ls)
    ensures forall p :: AllKeep(p, c, Start(ws), ls) ==> AllKeep(p, c, Start({MERGED}), solo)
  {
    assert AllIdle(Start(ws));
    assert Merged(Start(ws)) == Start({MERGED});
    solo := SerialRunsAreSolo(c, Start(ws), ls, s);
  }

  lemma {:induction false} WorkersKept(c: Config, s0: State, ls: seq<Label>, s: State)
    requires Run(c, s0, ls, s)
    ensures s.workers.Keys == s0.workers.Keys
    decreases |ls|
  {
    if ls != [] {
      var mid := LastStep(c, s0, ls, s);
      WorkersKept(c, s0, ls[..|ls| - 1], mid);
    }
  }

  lemma SmallSet(ws: set<WorkerId>, v: WorkerId, w: WorkerId)
    requires |ws| <= 1 && v in ws && w in ws
    ensures v == w
  {
    assert |ws - {v}| == |ws| - 1;
    assert ws - {v} == {};
  }

  /** One worker, or none, never overlaps with another. */
  lemma {:induction false} FewNeverOverlap(c: Config, ws: set<WorkerId>, s0: State, ls: seq<Label>, s: State)
    requires |ws| <= 1 && s0.workers.Keys == ws && Run(c, s0, ls, s)
    ensures NeverOverlaps(c, s0, ls)
    decreases |ls|
  {
    WorkersKept(c, s0, ls, s);
    forall v, w | v in s.workers && w in s.workers ensures v == w { SmallSet(ws, v, w); }
    if ls != [] {
      var mid := LastStep(c, s0, ls, s);
      FewNeverOverlap(c, ws, s0, ls[..|ls| - 1], mid);
    }
  }

  // ---- what one worker guarantees, for any number that never overlap ----

  lemma SerialFinalStays(c: Config, ws: set<WorkerId>, first: seq<Label>, s: State, later: seq<Label>, s': State)
    requires c.codec.Lawful() && Run(c, Start(ws), first, s) && NeverOverlaps(c, Start(ws), first)
    requires Run(c, s, later, s') && NeverOverlaps(c, s, later)
    ensures FinalStays(s, s')
  {
    var before := MergedStart(c, ws, first, s);
    var after := SerialRunsAreSolo(c, s, later, s');
    SoloFinalStays(c, MERGED, before, Merged(s), after, Merged(s'));
    assert FinalStays(Merged(s), Merged(s')) ==> FinalStays(s, s');
  }

  lemma SerialMarkedOnce(c: Config, ws: set<WorkerId>, ls: seq<Label>, s: State)
    requires c.codec.Lawful() && Run(c, Start(ws), ls, s) && NeverOverlaps(c, Start(ws), ls)
    ensures MarkedOnce(s)
  {
    var solo := MergedStart(c, ws, ls, s);
    SoloMarkedOnce(c, MERGED, solo, Merged(s));
    assert MarkedOnce(Merged(s)) ==> MarkedOnce(s);
  }

  lemma SerialDuplicateBound(c: Config, ws: set<WorkerId>, ls: seq<Label>, s: State, id: nat)
    requires c.codec.Lawful() && Run(c, Start(ws), ls, s) && NeverOverlaps(c, Start(ws), ls) && id < |s.past|
    ensures Deliveries(s.log, id) <= 1 + s.past[id].lostMarks + s.past[id].ambiguous
    ensures
      id in s.table && s.table[id].status.Published? && s.past[id].lostMarks == 0 && s.past[id].ambiguous == 0 ==>
        Deliveries(s.log, id) == 1
  {
    var solo := MergedStart(c, ws, ls, s);
    SoloDuplicateBound(c, MERGED, solo, Merged(s), id);
  }

  lemma AlikeLabels(solo: seq<Label>, ls: seq<Label>)
    requires Alike(solo, ls)
    ensures NoInserts(ls) ==> NoInserts(solo)
    ensures forall at :: InsertsAfter(ls, at) ==> InsertsAfter(solo, at)
    ensures (forall k :: 0 <= k < |ls| ==> Smooth(ls[k])) ==> forall k :: 0 <= k < |solo| ==> Smooth(solo[k])
  {
  }

  lemma SerialAccounting(c: Config, ws: set<WorkerId>, ls: seq<Label>, s: State, id: nat)
    requires c.codec.Lawful() && Run(c, Start(ws), ls, s) && NeverOverlaps(c, Start(ws), ls)
    requires AllKeep(FailuresRecorded, c, Start(ws), ls) && id in s.table
    requires forall w :: w in s.workers ==> !OnRow(s.workers[w], Errored, id) && !OnRow(s.workers[w], Judging, id)
    ensures id < |s.past| && Settled(c, s.table[id], s.past[id].rounds)
  {
    var solo := MergedStart(c, ws, ls, s);
    ExactRetryAccounting(c, MERGED, solo, Merged(s), id);
  }

  lemma SerialDeliveryOrder(c: Config, ws: set<WorkerId>, ls: seq<Label>, s: State, j: nat, k: nat)
    requires c.codec.Lawful() && Run(c, Start(ws), ls, s) && NeverOverlaps(c, Start(ws), ls) && InsertsInOrder(ls)
    requires forall n :: 0 <= n < |ls| ==> Smooth(ls[n])
    requires j < k < |s.log|
    ensures s.log[j].row < |s.past| && s.log[k].row < |s.past|
    ensures s.past[s.log[j].row].born.createdAt <= s.past[s.log[k].row].born.createdAt
  {
    var solo := MergedStart(c, ws, ls, s);
    AlikeLabels(solo, ls);
    DeliveryOrder(c, MERGED, solo, Merged(s), j, k);
  }

  lemma MergedOutstanding(c: Config, s: State, ids: iset<nat>, n: nat)
    ensures Outstanding(c, Merged(s), ids, n) == Outstanding(c, s, ids, n)
  {
    SumLowers(AllowanceIn(c, s, ids, n), AllowanceIn(c, Merged(s), ids, n), |s.past|);
    SumLowers(AllowanceIn(c, Merged(s), ids, n), AllowanceIn(c, s, ids, n), |s.past|);
  }

  /** Workers that take turns drain the outbox together: the calls of all of them
      count against the budget of one. */
  lemma SerialRowsSettle(
    c: Config, ws: set<WorkerId>, first: seq<Label>, s0: State, ls: seq<Label>, s: State, id: nat)
    requires c.codec.Lawful() && c.batch >= 1
    requires Run(c, Start(ws), first, s0) && NeverOverlaps(c, Start(ws), first) && AllIdle(s0)
    requires Run(c, s0, ls, s) && NeverOverlaps(c, s0, ls) && NoInserts(ls)
    requires AllKeep(FailuresRecorded, c, Start(ws), first) && AllKeep(MarksRecorded, c, Start(ws), first)
    requires AllKeep(FailuresRecorded, c, s0, ls) && AllKeep(MarksRecorded, c, s0, ls)
    requires Calls(ls) >= Outstanding(c, s0, Everything(), 1)
    requires id < |s.past|
    ensures PendingIds(s.table) == {}
    ensures
      var h, n := s.past[id], Deliveries(s.log, id);
      if id in s.table && s.table[id].status.Failed? then
        h.rounds == MaxRetries(c.routing, s.table[id].eventType) + 1 && n == h.ambiguous
      else
        n == 1 + h.ambiguous && (id in s.table ==> s.table[id].status.Published?)
  {
    var before := MergedStart(c, ws, first, s0);
    var after := SerialRunsAreSolo(c, s0, ls, s);
    AlikeLabels(after, ls);
    MergedOutstanding(c, s0, Everything(), 1);
    EveryRowSettles(c, MERGED, before, Merged(s0), after, Merged(s), id);
  }

  lemma MergedFront(c: Config, s: State, r: nat)
    requires r in s.table
    ensures InFront(Merged(s), r) == InFront(s, r)
    ensures Outstanding(c, Merged(s), InFront(Merged(s), r), 1) == Outstanding(c, s, InFront(s, r), 1)
  {
    assert InFront(Merged(s), r) == InFront(s, r);
    MergedOutstanding(c, s, InFront(s, r), 1);
  }

  lemma MergedWorks(c: Config, ws: set<WorkerId>, ls: seq<Label>, s: State)
    requires c.codec.Lawful() && Run(c, Start(ws), ls, s) && NeverOverlaps(c, Start(ws), ls)
    ensures Working(c, Merged(s))
  {
    var solo := MergedStart(c, ws, ls, s);
    ReachableWorks(c, {MERGED}, solo, Merged(s));
  }

  lemma MergedLater(c: Config, s0: State, ls: seq<Label>, s: State, at: int) returns (solo: seq<Label>)
    requires Run(c, s0, ls, s) && NeverOverlaps(c, s0, ls) && AllKeep(WritesCommit, c, s0, ls) && InsertsAfter(ls, at)
    ensures Run(c, Merged(s0), solo, Merged(s)) && AllKeep(WritesCommit, c, Merged(s0), solo)
    ensures InsertsAfter(solo, at) && Calls(solo) == Calls(ls)
  {
    solo := SerialRunsAreSolo(c, s0, ls, s);
    AlikeLabels(solo, ls);
  }

  lemma SerialWaits(c: Config, s0: State, ls: seq<Label>, s: State, r: nat)
    requires c.codec.Lawful() && c.batch >= 1 && Working(c, Merged(s0)) && AllIdle(s0) && IsPending(s0.table, r)
    requires Run(c, s0, ls, s) && NeverOverlaps(c, s0, ls) && AllKeep(WritesCommit, c, s0, ls)
    requires InsertsAfter(ls, s0.table[r].createdAt)
    requires Calls(ls) >= Outstanding(c, s0, InFront(s0, r), 1) / c.batch + 1
    ensures r < |s0.past| && r < |s.past| && Tries(s.past[r]) > Tries(s0.past[r])
  {
    var after := MergedLater(c, s0, ls, s, s0.table[r].createdAt);
    MergedFront(c, s0, r);
    WaitingBound(c, Merged(s0), after, Merged(s), r, 1);
  }

  lemma SerialWaitingBound(
    c: Config, ws: set<WorkerId>, first: seq<Label>, s0: State, ls: seq<Label>, s: State, r: nat)
    requires c.codec.Lawful() && c.batch >= 1
    requires Run(c, Start(ws), first, s0) && NeverOverlaps(c, Start(ws), first) && AllIdle(s0) && IsPending(s0.table, r)
    requires Run(c, s0, ls, s) && NeverOverlaps(c, s0, ls) && AllKeep(WritesCommit, c, s0, ls)
    requires InsertsAfter(ls, s0.table[r].createdAt)
    requires Calls(ls) >= Outstanding(c, s0, InFront(s0, r), 1) / c.batch + 1
    ensures r < |s0.past| && r < |s.past| && Tries(s.past[r]) > Tries(s0.past[r])
  {
    MergedWorks(c, ws, first, s0);
    SerialWaits(c, s0, ls, s, r);
  }
}
