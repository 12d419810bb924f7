/** What one worker makes of every accepted event once the outbox has drained. */
module Outcome {
  import opened Routing
  import opened Protocol
  import opened Faults
  import opened Safety
  import opened Counting
  import opened SingleWorker
  import opened Budget
  import opened Draining

  /** With nothing pending the worker has no entry of its batch left. */
  lemma NothingRemains(c: Config, w: WorkerId, ls: seq<Label>, s: State)
    requires c.codec.Lawful() && Run(c, Start({w}), ls, s) && PendingIds(s.table) == {}
    ensures w in s.workers && (s.workers[w].Busy? ==> s.workers[w].i == |s.workers[w].snap|)
  {
    SoloRun(c, w, ls, s);
    var pc := s.workers[w];
    assert PcSound(c, s, pc);
    assert pc.Busy? && pc.i < |pc.snap| ==> pc.snap[pc.i].id in PendingIds(s.table);
  }

  lemma SettledExactly(c: Config, w: WorkerId, ls: seq<Label>, s: State, id: nat)
    requires c.codec.Lawful() && Run(c, Start({w}), ls, s) && id < |s.past| && PendingIds(s.table) == {}
    requires AllKeep(FailuresRecorded, c, Start({w}), ls) && AllKeep(MarksRecorded, c, Start({w}), ls)
    ensures
      var h, n := s.past[id], Deliveries(s.log, id);
      if id in s.table && s.table[id].status.Failed? then
        h.rounds == MaxRetries(c.routing, s.table[id].eventType) + 1 && n == h.ambiguous
      else
        n == 1 + h.ambiguous && (id in s.table ==> s.table[id].status.Published?)
  {
    assert id in s.table ==> id in PendingIds(s.table) || !s.table[id].status.Pending?;
    RunIsSafe(c, {w}, ls, s);
    assert RowDelivered(s, id);
    SoloSentOnce(c, w, ls, s, id);
    NoMarkLost(c, {w}, ls, s, id);
    NothingRemains(c, w, ls, s);
    if id in s.table { ExactRetryAccounting(c, w, ls, s, id); }
  }

  /** One worker whose failed rounds and marks are recorded. Let some events be
      accepted and the worker be idle; once completed calls number the outstanding
      budget, each accepted row is either FAILED, after exactly its budget of failed
      rounds and without an acknowledged send, or it was acknowledged exactly once.
      Messages beyond that come only from ambiguous sends. */
  lemma EveryRowSettles(c: Config, w: WorkerId, first: seq<Label>, s0: State, ls: seq<Label>, s: State, id: nat)
    requires c.codec.Lawful() && c.batch >= 1
    requires Run(c, Start({w}), first, s0) && AllIdle(s0) && Run(c, s0, ls, s) && NoInserts(ls)
    requires AllKeep(FailuresRecorded, c, Start({w}), first) && AllKeep(MarksRecorded, c, Start({w}), first)
    requires AllKeep(FailuresRecorded, c, s0, ls) && AllKeep(MarksRecorded, c, s0, ls)
    requires Calls(ls) >= Outstanding(c, s0, Everything(), 1)
    requires id < |s.past|
    ensures PendingIds(s.table) == {}
    ensures
      var h, n := s.past[id], Deliveries(s.log, id);
      if id in s.table && s.table[id].status.Failed? then
        h.rounds == MaxRetries(c.routing, s.table[id].eventType) + 1 && n == h.ambiguous
      else
        n == 1 + h.ambiguous && (id in s.table ==> s.table[id].status.Published?)
  {
    ReachableWorks(c, {w}, first, s0);
    RecordedMeansCommitted(c, s0, ls);
    DrainBound(c, s0, ls, s, 1);
    KeepChain(FailuresRecorded, c, Start({w}), first, s0, ls, s);
    KeepChain(MarksRecorded, c, Start({w}), first, s0, ls, s);
    SettledExactly(c, w, first + ls, s, id);
  }
}
