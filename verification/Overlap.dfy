/** What overlapping calls can cost at most: how often a row is sent and how many
    rounds fail on it, in terms of the number of workers. */
module Overlap {
  import opened Routing
  import opened Protocol
  import opened Faults
  import opened Safety
  import opened Counting
  import opened Budget
  import opened Draining

  // ---- acknowledged sends ----

  /** The workers whose send of the row was acknowledged and is not yet marked. */
  ghost function SentBy(s: State, id: nat): set<WorkerId> {
    set w | w in s.workers && OnRow(s.workers[w], Sent, id)
  }

  /** Each acknowledgement is being marked, or its mark was lost, until one mark goes
      through; after that only the workers that fetched the row before can send it. */
  ghost predicate SendsBounded(s: State, id: nat)
    requires id < |s.past|
  {
    var h := s.past[id];
    if IsPending(s.table, id) then h.acks <= h.lostMarks + |SentBy(s, id)|
    else h.acks + |Ahead(s, id)| <= h.lostMarks + Crew(s)
  }

  lemma SentByStep(c: Config, s: State, l: Label, id: nat)
    requires Enabled(c, s, l) && id < |s.past|
    ensures
      var h, h' := s.past[id], NextHistory(c, s, l, id);
      h'.acks + h.lostMarks + |SentBy(s, id)| <=
      h.acks + h'.lostMarks + |SentBy(Apply(c, s, l), id)| +
      if l.Mark? && l.commits && About(s, l, id) then 1 else 0
  {
    var a, b := SentBy(s, id), SentBy(Apply(c, s, l), id);
    if l.Insert? || l.Cleanup? {
      assert a == b;
    } else {
      assert a - {l.w} == b - {l.w};
      SizeMoves(a, b, l.w);
    }
  }

  lemma AheadOrSent(c: Config, s: State, id: nat)
    requires Shape(c, s)
    ensures |Ahead(s, id)| + |SentBy(s, id)| <= Crew(s)
  {
    forall w | w in Ahead(s, id) ensures w !in SentBy(s, id) { assert PcSound(c, s, s.workers[w]); }
    assert |Ahead(s, id) + SentBy(s, id)| == |Ahead(s, id)| + |SentBy(s, id)|;
    SubsetSize(Ahead(s, id) + SentBy(s, id), s.workers.Keys);
  }

  /** The step with which a row leaves PENDING. */
  lemma FirstSettled(c: Config, s: State, l: Label, id: nat)
    requires Shape(c, s) && Enabled(c, s, l) && id < |s.past| && SendsBounded(s, id)
    requires IsPending(s.table, id) && !IsPending(NextTable(c, s, l), id)
    ensures SendsBounded(Apply(c, s, l), id)
  {
    assert About(s, l, id) && (l.Judge? || l.Mark?);
    assert NextPast(c, s, l)[id] == NextHistory(c, s, l, id);
    AheadOrSent(c, s, id);
    AheadShrinks(c, s, l, id);
    SubsetSize(Ahead(Apply(c, s, l), id), Ahead(s, id));
  }

  lemma NotFetched(c: Config, s: State, l: Label, id: nat)
    requires Shape(c, s) && Enabled(c, s, l) && id < |s.past| && !IsPending(s.table, id)
    ensures NextHistory(c, s, l, id).snaps == s.past[id].snaps
  {
    assert l.Fetch? && Holds(l.snap, id) ==> IsPending(s.table, id);
  }

  lemma SendsAfterwards(c: Config, s: State, l: Label, id: nat)
    requires Working(c, s) && Enabled(c, s, l) && id < |s.past| && SendsBounded(s, id) && !IsPending(s.table, id)
    ensures SendsBounded(Apply(c, s, l), id)
  {
    assert NextPast(c, s, l)[id] == NextHistory(c, s, l, id);
    PendingOver(c, s, l, id);
    NotFetched(c, s, l, id);
    AheadStep(c, s, l, id);
    HistoryGrows(c, s, l, id);
    assert Apply(c, s, l).workers.Keys == s.workers.Keys;
  }

  lemma SendsBoundedStep(c: Config, s: State, l: Label, id: nat)
    requires Working(c, s) && Enabled(c, s, l) && id < |s.past| && SendsBounded(s, id)
    ensures SendsBounded(Apply(c, s, l), id)
  {
    if !IsPending(s.table, id) {
      SendsAfterwards(c, s, l, id);
    } else if !IsPending(NextTable(c, s, l), id) {
      FirstSettled(c, s, l, id);
    } else {
      assert NextPast(c, s, l)[id] == NextHistory(c, s, l, id);
      SentByStep(c, s, l, id);
    }
  }

  lemma {:induction false} SendsAreBounded(c: Config, ws: set<WorkerId>, ls: seq<Label>, s: State, id: nat)
    requires c.codec.Lawful() && Run(c, Start(ws), ls, s) && id < |s.past|
    ensures SendsBounded(s, id) && s.workers.Keys == ws
    decreases |ls|
  {
    var mid := LastStep(c, Start(ws), ls, s);
    var l := ls[|ls| - 1];
    ReachableWorks(c, ws, ls[..|ls| - 1], mid);
    ReachableWorks(c, ws, ls, s);
    if id < |mid.past| {
      SendsAreBounded(c, ws, ls[..|ls| - 1], mid, id);
      SendsBoundedStep(c, mid, l, id);
    } else {
      NewBirth(c, mid, l.event, l.at);
    }
  }

  /** However calls overlap, a row is delivered at most once for each worker, for each
      acknowledged send whose PUBLISHED mark was lost, and for each ambiguous send. */
  lemma DeliveriesPerWorker(c: Config, ws: set<WorkerId>, ls: seq<Label>, s: State, id: nat)
    requires c.codec.Lawful() && Run(c, Start(ws), ls, s) && id < |s.past|
    ensures Deliveries(s.log, id) <= |ws| + s.past[id].lostMarks + s.past[id].ambiguous
  {
    SendsAreBounded(c, ws, ls, s, id);
    RunIsSafe(c, ws, ls, s);
    assert RowDelivered(s, id);
    SubsetSize(SentBy(s, id), s.workers.Keys);
  }

  // ---- failed rounds ----

  /** The workers that have failed a round of the row and are still recording it. */
  ghost function Recording(s: State, id: nat): set<WorkerId> {
    set w | w in s.workers && (OnRow(s.workers[w], Errored, id) || OnRow(s.workers[w], Judging, id))
  }

  lemma RecordingElsewhere(c: Config, s: State, l: Label, id: nat)
    requires Enabled(c, s, l) && !About(s, l, id)
    ensures Recording(Apply(c, s, l), id) == Recording(s, id)
  {
  }

  lemma RecordingHere(c: Config, s: State, l: Label, id: nat)
    requires c.codec.Lawful() && Shape(c, s) && Enabled(c, s, l) && Keeps(FailuresRecorded, c, s, l) && About(s, l, id)
    ensures
      Recording(Apply(c, s, l), id) ==
      if l.GiveUp? then Recording(s, id) + {l.w}
      else if Ended(c, s, l, id) == 1 then Recording(s, id) - {l.w}
      else Recording(s, id)
    ensures l.GiveUp? ==> l.w !in Recording(s, id)
  {
    var pc' := Apply(c, s, l).workers[l.w];
    assert OnRow(pc', Errored, id) || OnRow(pc', Judging, id) <==> l.GiveUp? || l.Increment?;
  }

  lemma RecordingStep(c: Config, s: State, l: Label, id: nat)
    requires c.codec.Lawful() && Shape(c, s) && Enabled(c, s, l) && Keeps(FailuresRecorded, c, s, l) && id < |s.past|
    ensures
      NextHistory(c, s, l, id).rounds + |Recording(s, id)| <=
      s.past[id].rounds + |Recording(Apply(c, s, l), id)| + Ended(c, s, l, id)
  {
    if About(s, l, id) { RecordingHere(c, s, l, id); } else { RecordingElsewhere(c, s, l, id); }
  }

  ghost function MostRounds(c: Config, s: State, id: nat): nat
    requires id < |s.past|
  {
    MaxRetries(c.routing, s.past[id].born.eventType) - 1 + 2 * Crew(s)
  }

  ghost predicate RoundsBounded(c: Config, s: State, id: nat)
    requires id < |s.past|
  {
    s.past[id].rounds + Potential(c, s, id) <= MostRounds(c, s, id) + |Recording(s, id)|
  }

  lemma RoundsBoundedStep(c: Config, s: State, l: Label, id: nat)
    requires c.codec.Lawful() && Working(c, s) && Enabled(c, s, l) && Keeps(FailuresRecorded, c, s, l)
    requires id < |s.past| && RoundsBounded(c, s, id)
    ensures id < |Apply(c, s, l).past| && RoundsBounded(c, Apply(c, s, l), id)
  {
    assert NextPast(c, s, l)[id] == NextHistory(c, s, l, id);
    BirthKept(c, s, l, id);
    RecordingStep(c, s, l, id);
    PotentialStep(c, s, l, id);
    assert Apply(c, s, l).workers.Keys == s.workers.Keys;
  }

  lemma NewRowBounded(c: Config, s: State, l: Label)
    requires Working(c, s) && Enabled(c, s, l) && l.Insert?
    ensures |s.past| < |Apply(c, s, l).past| && RoundsBounded(c, Apply(c, s, l), |s.past|)
  {
    NewBirth(c, s, l.event, l.at);
    InsertPotential(c, s, l);
    assert Apply(c, s, l).workers == s.workers;
  }

  lemma {:induction false} RoundsAreBounded(c: Config, ws: set<WorkerId>, ls: seq<Label>, s: State, id: nat)
    requires c.codec.Lawful() && Run(c, Start(ws), ls, s) && AllKeep(FailuresRecorded, c, Start(ws), ls)
    requires id < |s.past|
    ensures RoundsBounded(c, s, id) && Crew(s) == |ws|
    decreases |ls|
  {
    var mid := LastStep(c, Start(ws), ls, s);
    var l := ls[|ls| - 1];
    ReachableWorks(c, ws, ls[..|ls| - 1], mid);
    ReachableWorks(c, ws, ls, s);
    if id < |mid.past| {
      RoundsAreBounded(c, ws, ls[..|ls| - 1], mid, id);
      RoundsBoundedStep(c, mid, l, id);
    } else {
      NewRowBounded(c, mid, l);
    }
  }

  lemma RecordingIsPotential(c: Config, s: State, id: nat)
    ensures |Recording(s, id)| <= Potential(c, s, id)
  {
    if IsPending(s.table, id) {
      SubsetSize(Recording(s, id), s.workers.Keys);
    } else {
      forall w | w in Recording(s, id) ensures w in Holders(s, id) {
        assert s.workers[w].snap[s.workers[w].i].id == id;
      }
      SubsetSize(Recording(s, id), Holders(s, id));
    }
  }

  /** Overlapping calls may fail more rounds on a row than its budget, but no more
      than two for each worker beyond the limit less one; for one worker that is the
      limit plus one. */
  lemma RoundsPerWorker(c: Config, ws: set<WorkerId>, ls: seq<Label>, s: State, id: nat)
    requires c.codec.Lawful() && Run(c, Start(ws), ls, s) && AllKeep(FailuresRecorded, c, Start(ws), ls)
    requires id < |s.past|
    ensures s.past[id].rounds <= MaxRetries(c.routing, s.past[id].born.eventType) - 1 + 2 * |ws|
  {
    RoundsAreBounded(c, ws, ls, s, id);
    RecordingIsPotential(c, s, id);
  }

  // ---- the end of every row ----

  lemma SettledRow(c: Config, ws: set<WorkerId>, ls: seq<Label>, s: State, id: nat)
    requires c.codec.Lawful() && Run(c, Start(ws), ls, s) && id < |s.past| && PendingIds(s.table) == {}
    ensures
      if id in s.table && s.table[id].status.Failed? then
        s.past[id].rounds >= MaxRetries(c.routing, s.past[id].born.eventType) + 1
      else s.past[id].acks >= 1
  {
    NoPrematureGiveUp(c, ws, ls, s, id);
    RunIsSafe(c, ws, ls, s);
    assert RowDelivered(s, id);
    assert id in s.table ==> id in PendingIds(s.table) || !s.table[id].status.Pending?;
  }

  lemma AcksPerWorker(c: Config, ws: set<WorkerId>, ls: seq<Label>, s: State, id: nat)
    requires c.codec.Lawful() && Run(c, Start(ws), ls, s) && AllKeep(MarksRecorded, c, Start(ws), ls) && id < |s.past|
    ensures s.past[id].acks <= |ws|
  {
    DeliveriesPerWorker(c, ws, ls, s, id);
    NoMarkLost(c, ws, ls, s, id);
    RunIsSafe(c, ws, ls, s);
    assert RowDelivered(s, id);
  }

  /** Any number of overlapping workers, whose failed rounds and marks are recorded:
      once completed calls number the outstanding budget, each accepted row is FAILED
      after at least its budget of failed rounds, or has been acknowledged; and no
      row has been acknowledged more often than there are workers. */
  lemma OverlappingRowsSettle(
    c: Config, ws: set<WorkerId>, first: seq<Label>, s0: State, ls: seq<Label>, s: State, id: nat)
    requires c.codec.Lawful() && c.batch >= 1 && ws != {}
    requires Run(c, Start(ws), first, s0) && AllIdle(s0) && Run(c, s0, ls, s) && NoInserts(ls)
    requires AllKeep(FailuresRecorded, c, Start(ws), first) && AllKeep(MarksRecorded, c, Start(ws), first)
    requires AllKeep(FailuresRecorded, c, s0, ls) && AllKeep(MarksRecorded, c, s0, ls)
    requires Calls(ls) >= Outstanding(c, s0, Everything(), |ws|)
    requires id < |s.past|
    ensures PendingIds(s.table) == {}
    ensures
      var h, max := s.past[id], MaxRetries(c.routing, s.past[id].born.eventType);
      && h.rounds <= max - 1 + 2 * |ws| && h.acks <= |ws|
      && (if id in s.table && s.table[id].status.Failed? then h.rounds >= max + 1 else h.acks >= 1)
  {
    ReachableWorks(c, ws, first, s0);
    RecordedMeansCommitted(c, s0, ls);
    DrainBound(c, s0, ls, s, |ws|);
    KeepChain(FailuresRecorded, c, Start(ws), first, s0, ls, s);
    KeepChain(MarksRecorded, c, Start(ws), first, s0, ls, s);
    RoundsPerWorker(c, ws, first + ls, s, id);
    AcksPerWorker(c, ws, first + ls, s, id);
    SettledRow(c, ws, first + ls, s, id);
  }
}
