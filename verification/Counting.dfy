/** Counting arguments over any number of interleaved workers: how often a row
    can be sent, and how many failed rounds stand behind a FAILED row. */
module Counting {
  import opened Domain
  import opened Routing
  import opened Protocol
  import opened Faults
  import opened Safety

  /** The worker still has this row ahead of it in its batch, unacknowledged. */
  ghost predicate HasAhead(pc: Pc, id: nat) {
    && pc.Busy?
    && exists k :: pc.i <= k < |pc.snap| && pc.snap[k].id == id && (k == pc.i ==> pc.stage.Entry? || pc.stage.Sending?)
  }

  ghost function Ahead(s: State, id: nat): set<WorkerId> {
    set w | w in s.workers && HasAhead(s.workers[w], id)
  }

  /** The worker failed a round on this row and has not yet tried to count it. */
  ghost predicate Owes(pc: Pc, id: nat) {
    pc.Busy? && pc.stage.Errored? && pc.i < |pc.snap| && Current(pc).id == id
  }

  ghost function Owing(s: State, id: nat): set<WorkerId> {
    set w | w in s.workers && Owes(s.workers[w], id)
  }

  ghost predicate Counted(c: Config, s: State, id: nat)
    requires id < |s.past|
  {
    var h := s.past[id];
    && h.acks + |Ahead(s, id)| <= h.snaps
    && h.incrs + |Owing(s, id)| <= h.rounds
    && (h.gaveUp ==> h.rounds >= MaxRetries(c.routing, h.born.eventType) + 1)
    && (id in s.table ==> s.table[id].retryCount == h.incrs)
    && (id in s.table && s.table[id].status.Failed? ==> h.gaveUp)
  }

  /** A fetched retry count never runs ahead of the committed increments. */
  ghost predicate SnapBehind(s: State, snap: seq<Row>) {
    forall k :: 0 <= k < |snap| ==> snap[k].id < |s.past| && snap[k].retryCount <= s.past[snap[k].id].incrs
  }

  /** Once a round has failed, the fetched count lies strictly below the failed rounds. */
  ghost predicate ErrorCounted(s: State, pc: Pc) {
    pc.Busy? && pc.i < |pc.snap| && (pc.stage.Errored? || pc.stage.Judging?) ==>
      Current(pc).id < |s.past| && Current(pc).retryCount < s.past[Current(pc).id].rounds
  }

  ghost predicate SnapCounted(s: State, pc: Pc) {
    (pc.Busy? ==> SnapBehind(s, pc.snap)) && ErrorCounted(s, pc)
  }

  ghost predicate Tallied(c: Config, s: State) {
    && (forall id: nat :: id < |s.past| ==> Counted(c, s, id))
    && (forall w :: w in s.workers ==> SnapCounted(s, s.workers[w]))
  }

  lemma SubsetSize(a: set<WorkerId>, b: set<WorkerId>)
    requires a <= b
    ensures |a| <= |b|
  {
    assert b == a + (b - a);
  }

  lemma AheadShrinks(c: Config, s: State, l: Label, id: nat)
    requires Shape(c, s) && Enabled(c, s, l) && !l.Fetch?
    ensures Ahead(Apply(c, s, l), id) <= Ahead(s, id)
    ensures l.Attempt? && l.outcome.Acked? && CurrentOf(s, l.w).id == id ==>
              l.w in Ahead(s, id) && l.w !in Ahead(Apply(c, s, l), id)
  {
    if !l.Insert? && !l.Cleanup? { assert PcSound(c, s, s.workers[l.w]); }
  }

  lemma AheadGrows(c: Config, s: State, l: Label, id: nat)
    requires Enabled(c, s, l) && l.Fetch?
    ensures l.w !in Ahead(s, id)
    ensures Ahead(Apply(c, s, l), id) <= Ahead(s, id) + if Holds(l.snap, id) then {l.w} else {}
  {
  }

  /** What a step adds to the acknowledged sends of a row it takes from the
      workers that still have the row ahead of them. */
  lemma AheadStep(c: Config, s: State, l: Label, id: nat)
    requires Shape(c, s) && Enabled(c, s, l) && id < |s.past|
    ensures
      var h, h' := s.past[id], NextHistory(c, s, l, id);
      |Ahead(Apply(c, s, l), id)| + h'.acks + h.snaps <= |Ahead(s, id)| + h.acks + h'.snaps
  {
    var a, a' := Ahead(s, id), Ahead(Apply(c, s, l), id);
    if l.Fetch? {
      AheadGrows(c, s, l, id);
      SubsetSize(a', a + if Holds(l.snap, id) then {l.w} else {});
    } else {
      AheadShrinks(c, s, l, id);
      SubsetSize(a', if l.Attempt? && l.outcome.Acked? && CurrentOf(s, l.w).id == id then a - {l.w} else a);
    }
  }

  lemma OwingChange(c: Config, s: State, l: Label, id: nat)
    requires Enabled(c, s, l)
    ensures Owing(Apply(c, s, l), id) <= Owing(s, id) + if l.GiveUp? && CurrentOf(s, l.w).id == id then {l.w} else {}
    ensures l.Increment? && CurrentOf(s, l.w).id == id ==> l.w in Owing(s, id) && l.w !in Owing(Apply(c, s, l), id)
    ensures l.GiveUp? ==> l.w !in Owing(s, id)
  {
  }

  lemma OwingSize(c: Config, s: State, l: Label, id: nat)
    requires Enabled(c, s, l)
    ensures
      |Owing(Apply(c, s, l), id)| <=
      |Owing(s, id)| +
      (if l.GiveUp? && CurrentOf(s, l.w).id == id then 1
       else if l.Increment? && CurrentOf(s, l.w).id == id then -1
       else 0)
  {
    var a, a' := Owing(s, id), Owing(Apply(c, s, l), id);
    OwingChange(c, s, l, id);
    if l.GiveUp? && CurrentOf(s, l.w).id == id { SubsetSize(a', a + {l.w}); }
    else if l.Increment? && CurrentOf(s, l.w).id == id { SubsetSize(a', a - {l.w}); }
    else { SubsetSize(a', a); }
  }

  /** An increment pays for a failed round that some worker still owed. */
  lemma OwingStep(c: Config, s: State, l: Label, id: nat)
    requires c.codec.Lawful() && Shape(c, s) && Enabled(c, s, l) && id < |s.past|
    ensures
      var h, h' := s.past[id], NextHistory(c, s, l, id);
      |Owing(Apply(c, s, l), id)| + h'.incrs + h.rounds <= |Owing(s, id)| + h.incrs + h'.rounds
  {
    NeverBroken(c, s, l);
    OwingSize(c, s, l, id);
  }

  lemma NobodyHasNewRow(c: Config, s: State, id: nat)
    requires Shape(c, s) && id >= |s.past|
    ensures Ahead(s, id) == {} && Owing(s, id) == {}
  {
    forall w | w in s.workers ensures !HasAhead(s.workers[w], id) && !Owes(s.workers[w], id) {
      assert PcSound(c, s, s.workers[w]);
    }
  }

  /** A FAILED mark follows a round that failed beyond the fetched count. */
  lemma GiveUpStep(c: Config, s: State, l: Label, id: nat)
    requires Shape(c, s) && Tallied(c, s) && Enabled(c, s, l) && id < |s.past| && NextHistory(c, s, l, id).gaveUp
    ensures NextHistory(c, s, l, id).rounds >= MaxRetries(c.routing, s.past[id].born.eventType) + 1
  {
    assert Counted(c, s, id);
    if l.Judge? { assert SnapCounted(s, s.workers[l.w]) && PcSound(c, s, s.workers[l.w]); }
  }

  lemma TableCountStep(c: Config, s: State, l: Label, id: nat)
    requires Tallied(c, s) && Enabled(c, s, l) && id < |s.past|
    ensures
      var t, h := NextTable(c, s, l), NextHistory(c, s, l, id);
      && (id in t ==> t[id].retryCount == h.incrs)
      && (id in t && t[id].status.Failed? ==> h.gaveUp)
  {
    assert Counted(c, s, id);
  }

  lemma CountedStep(c: Config, s: State, l: Label, id: nat)
    requires c.codec.Lawful() && Shape(c, s) && Tallied(c, s) && Enabled(c, s, l) && id < |Apply(c, s, l).past|
    ensures Counted(c, Apply(c, s, l), id)
  {
    var s' := Apply(c, s, l);
    if id < |s.past| {
      assert Counted(c, s, id);
      AheadStep(c, s, l, id);
      OwingStep(c, s, l, id);
      assert NextPast(c, s, l)[id] == NextHistory(c, s, l, id);
      TableCountStep(c, s, l, id);
      if NextHistory(c, s, l, id).gaveUp { GiveUpStep(c, s, l, id); }
      BirthKept(c, s, l, id);
    } else {
      NewBirth(c, s, l.event, l.at);
      NobodyHasNewRow(c, s, id);
      assert Ahead(s', id) == Ahead(s, id) && Owing(s', id) == Owing(s, id);
    }
  }

  lemma SnapBehindStep(c: Config, s: State, l: Label, snap: seq<Row>)
    requires Enabled(c, s, l) && SnapBehind(s, snap)
    ensures SnapBehind(Apply(c, s, l), snap)
  {
    forall k | 0 <= k < |snap|
      ensures snap[k].id < |Apply(c, s, l).past| && snap[k].retryCount <= Apply(c, s, l).past[snap[k].id].incrs
    {
      HistoryGrows(c, s, l, snap[k].id);
    }
  }

  lemma FetchedBehind(c: Config, s: State, snap: seq<Row>)
    requires Shape(c, s) && Tallied(c, s) && OldestPending(s.table, c.batch, snap)
    ensures SnapBehind(s, snap)
  {
    forall k | 0 <= k < |snap|
      ensures snap[k].id < |s.past| && snap[k].retryCount <= s.past[snap[k].id].incrs
    {
      assert IsPending(s.table, snap[k].id) && RowSound(s, snap[k].id) && Counted(c, s, snap[k].id);
    }
  }

  lemma SnapOrigin(c: Config, s: State, l: Label, w: WorkerId)
    requires Enabled(c, s, l) && w in Apply(c, s, l).workers && Apply(c, s, l).workers[w].Busy?
    ensures w in s.workers
    ensures
      var pc, pc' := s.workers[w], Apply(c, s, l).workers[w];
      (l.Fetch? && pc'.snap == l.snap) || (pc.Busy? && pc'.snap == pc.snap)
  {
  }

  lemma ErroredOrigin(c: Config, s: State, l: Label, w: WorkerId)
    requires Enabled(c, s, l) && w in s.workers
    requires
      var pc' := Apply(c, s, l).workers[w];
      pc'.Busy? && pc'.i < |pc'.snap| && (pc'.stage.Errored? || pc'.stage.Judging?)
    ensures
      var pc, pc' := s.workers[w], Apply(c, s, l).workers[w];
      && pc.Busy? && pc'.snap == pc.snap && pc'.i == pc.i
      && (pc.stage.Errored? || pc.stage.Judging? || l == GiveUp(w))
  {
  }

  lemma ErroredCountStep(c: Config, s: State, l: Label, w: WorkerId, id: nat)
    requires Enabled(c, s, l) && w in s.workers && id < |s.past|
    requires
      var pc := s.workers[w];
      && pc.Busy? && pc.i < |pc.snap| && Current(pc).id == id
      && Current(pc).retryCount <= s.past[id].incrs <= s.past[id].rounds
      && (l == GiveUp(w) || Current(pc).retryCount < s.past[id].rounds)
    ensures id < |Apply(c, s, l).past| && Current(s.workers[w]).retryCount < Apply(c, s, l).past[id].rounds
  {
    HistoryGrows(c, s, l, id);
    assert NextPast(c, s, l)[id] == NextHistory(c, s, l, id);
  }

  lemma ErrorCountedStep(c: Config, s: State, l: Label, w: WorkerId)
    requires Tallied(c, s) && Enabled(c, s, l) && w in s.workers
    requires
      var pc' := Apply(c, s, l).workers[w];
      pc'.Busy? && pc'.i < |pc'.snap| && (pc'.stage.Errored? || pc'.stage.Judging?)
    ensures ErrorCounted(Apply(c, s, l), Apply(c, s, l).workers[w])
  {
    ErroredOrigin(c, s, l, w);
    var pc := s.workers[w];
    assert SnapCounted(s, pc);
    assert Counted(c, s, Current(pc).id);
    ErroredCountStep(c, s, l, w, Current(pc).id);
  }

  lemma SnapCountedStep(c: Config, s: State, l: Label, w: WorkerId)
    requires c.codec.Lawful() && Shape(c, s) && Tallied(c, s) && Enabled(c, s, l) && w in Apply(c, s, l).workers
    ensures SnapCounted(Apply(c, s, l), Apply(c, s, l).workers[w])
  {
    var pc' := Apply(c, s, l).workers[w];
    if pc'.Busy? {
      SnapOrigin(c, s, l, w);
      assert SnapCounted(s, s.workers[w]);
      if l.Fetch? && pc'.snap == l.snap { FetchedBehind(c, s, l.snap); }
      SnapBehindStep(c, s, l, pc'.snap);
      if pc'.i < |pc'.snap| && (pc'.stage.Errored? || pc'.stage.Judging?) { ErrorCountedStep(c, s, l, w); }
    }
  }

  lemma TalliedStep(c: Config, s: State, l: Label)
    requires c.codec.Lawful() && Shape(c, s) && Tallied(c, s) && Enabled(c, s, l)
    ensures Tallied(c, Apply(c, s, l))
  {
    var s' := Apply(c, s, l);
    forall id: nat | id < |s'.past| ensures Counted(c, s', id) { CountedStep(c, s, l, id); }
    forall w | w in s'.workers ensures SnapCounted(s', s'.workers[w]) { SnapCountedStep(c, s, l, w); }
  }

  lemma {:induction false} RunIsTallied(c: Config, ws: set<WorkerId>, ls: seq<Label>, s: State)
    requires c.codec.Lawful() && Run(c, Start(ws), ls, s)
    ensures Tallied(c, s)
    decreases |ls|
  {
    if ls != [] {
      var mid := LastStep(c, Start(ws), ls, s);
      RunIsTallied(c, ws, ls[..|ls| - 1], mid);
      RunIsSafe(c, ws, ls[..|ls| - 1], mid);
      TalliedStep(c, mid, ls[|ls| - 1]);
    }
  }

  // ---- the results, in the terms of the table and the broker log ----

  /** A row is delivered at most once for each batch it was fetched in, plus once
      for each send that errored after handing the message over. */
  lemma DuplicateBound(c: Config, ws: set<WorkerId>, ls: seq<Label>, s: State, id: nat)
    requires c.codec.Lawful() && Run(c, Start(ws), ls, s) && id < |s.past|
    ensures Deliveries(s.log, id) <= s.past[id].snaps + s.past[id].ambiguous
  {
    RunIsSafe(c, ws, ls, s);
    RunIsTallied(c, ws, ls, s);
    assert RowDelivered(s, id) && Counted(c, s, id);
  }

  /** No increment is lost, and no row is FAILED, or was ever marked FAILED,
      before its budget of failed rounds was spent, however workers interleave. */
  lemma NoPrematureGiveUp(c: Config, ws: set<WorkerId>, ls: seq<Label>, s: State, id: nat)
    requires c.codec.Lawful() && Run(c, Start(ws), ls, s) && id < |s.past|
    ensures id in s.table ==> s.table[id].retryCount == s.past[id].incrs <= s.past[id].rounds
    ensures id in s.table && s.table[id].status.Failed? ==> s.past[id].gaveUp
    ensures s.past[id].gaveUp ==> s.past[id].rounds >= MaxRetries(c.routing, s.past[id].born.eventType) + 1
    ensures id in s.table ==> s.table[id].eventType == s.past[id].born.eventType
  {
    RunIsSafe(c, ws, ls, s);
    RunIsTallied(c, ws, ls, s);
    assert RowSound(s, id) && Counted(c, s, id);
  }

  /** The retry count a worker judges by may be stale, but never too high. */
  lemma StaleCountsAreLow(c: Config, ws: set<WorkerId>, ls: seq<Label>, s: State, w: WorkerId, k: nat)
    requires c.codec.Lawful() && Run(c, Start(ws), ls, s)
    requires w in s.workers && s.workers[w].Busy? && k < |s.workers[w].snap| && s.workers[w].snap[k].id in s.table
    ensures s.workers[w].snap[k].retryCount <= s.table[s.workers[w].snap[k].id].retryCount
  {
    RunIsTallied(c, ws, ls, s);
    assert SnapCounted(s, s.workers[w]);
    assert Counted(c, s, s.workers[w].snap[k].id);
  }

  /** If every acknowledged send is marked, no row has a lost mark. */
  lemma {:induction false} NoMarkLost(c: Config, ws: set<WorkerId>, ls: seq<Label>, s: State, id: nat)
    requires Run(c, Start(ws), ls, s) && AllKeep(MarksRecorded, c, Start(ws), ls) && id < |s.past|
    ensures s.past[id].lostMarks == 0
    decreases |ls|
  {
    if ls != [] {
      var l := ls[|ls| - 1];
      var mid := LastStep(c, Start(ws), ls, s);
      if id < |mid.past| {
        NoMarkLost(c, ws, ls[..|ls| - 1], mid, id);
        assert NextPast(c, mid, l)[id] == NextHistory(c, mid, l, id);
      } else {
        NewBirth(c, mid, l.event, l.at);
      }
    }
  }

  // ---- when giving up means that the context was cancelled ----

  /** The writes that follow an abandoned round do not commit. */
  predicate LeavesNoTrace(l: Label) {
    match l
    case Increment(_, commits) => !commits
    case Judge(_, commits) => !commits
    case _ => true
  }

  lemma {:induction false} NoTraceInHistory(c: Config, ws: set<WorkerId>, ls: seq<Label>, s: State, id: nat)
    requires c.codec.Lawful() && Run(c, Start(ws), ls, s) && id < |s.past|
    requires forall k :: 0 <= k < |ls| ==> LeavesNoTrace(ls[k])
    ensures s.past[id].incrs == 0 && !s.past[id].gaveUp
    decreases |ls|
  {
    if ls != [] {
      var l := ls[|ls| - 1];
      var mid := LastStep(c, Start(ws), ls, s);
      if id < |mid.past| {
        NoTraceInHistory(c, ws, ls[..|ls| - 1], mid, id);
        RunIsSafe(c, ws, ls[..|ls| - 1], mid);
        NeverBroken(c, mid, l);
        assert NextPast(c, mid, l)[id] == NextHistory(c, mid, l, id);
      } else {
        NewBirth(c, mid, l.event, l.at);
      }
    }
  }

  /** If every round that is given up is followed by writes that do not commit, as
      after a cancellation, no retry is ever counted and no row is ever FAILED. */
  lemma CancelledRoundsLeaveNoTrace(c: Config, ws: set<WorkerId>, ls: seq<Label>, s: State, id: nat)
    requires c.codec.Lawful() && Run(c, Start(ws), ls, s) && id in s.table
    requires forall k :: 0 <= k < |ls| ==> LeavesNoTrace(ls[k])
    ensures s.table[id].retryCount == 0 && !s.table[id].status.Failed?
  {
    RunIsSafe(c, ws, ls, s);
    assert RowSound(s, id);
    NoPrematureGiveUp(c, ws, ls, s, id);
    NoTraceInHistory(c, ws, ls, s, id);
  }
}
