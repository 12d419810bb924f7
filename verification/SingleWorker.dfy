/** What one worker guarantees that several do not: its snapshot stays true
    while it works, final states are final, and every failed round is counted. */
module SingleWorker {
  import opened Domain
  import opened Routing
  import opened Protocol
  import opened Safety
  import opened Faults

  ghost predicate Solo(s: State, w: WorkerId) {
    s.workers.Keys == {w}
  }

  /** The entries the worker still has to settle are in the table exactly as it
      fetched them; only the entry being judged may have its new retry count. */
  ghost predicate TrueToTable(t: map<nat, Row>, pc: Pc) {
    pc.Busy? ==>
      forall k :: pc.i <= k < |pc.snap| ==>
        && pc.snap[k].id in t
        && (t[pc.snap[k].id] == pc.snap[k]
            || (k == pc.i && pc.stage.Judging?
                && t[pc.snap[k].id] == pc.snap[k].(retryCount := pc.snap[k].retryCount + 1)))
  }

  ghost predicate InStep(s: State, pc: Pc) {
    TrueToTable(s.table, pc)
  }

  lemma UntouchedRow(c: Config, s: State, l: Label, id: nat)
    requires Enabled(c, s, l) && id in s.table && s.table[id].status.Pending? && id < |s.past| && !About(s, l, id)
    ensures id in NextTable(c, s, l) && NextTable(c, s, l)[id] == s.table[id]
  {
  }

  /** What the worker's next point says about entry `k` of its batch. */
  lemma EntryInStep(c: Config, s: State, l: Label, w: WorkerId, k: nat)
    requires Solo(s, w) && PcSound(c, s, s.workers[w]) && InStep(s, s.workers[w]) && Enabled(c, s, l) && !l.Fetch?
    requires
      var pc' := NextWorkers(c, s, l)[w];
      pc'.Busy? && pc'.i <= k < |pc'.snap|
    ensures
      var t', pc' := NextTable(c, s, l), NextWorkers(c, s, l)[w];
      var row := pc'.snap[k];
      row.id in t' && (t'[row.id] == row
                       || (k == pc'.i && pc'.stage.Judging? && t'[row.id] == row.(retryCount := row.retryCount + 1)))
  {
    var pc := s.workers[w];
    assert pc.snap[k].id in s.table;
    if k > pc.i { UntouchedRow(c, s, l, pc.snap[k].id); }
  }

  lemma BatchInStep(c: Config, s: State, l: Label, w: WorkerId)
    requires Solo(s, w) && PcSound(c, s, s.workers[w]) && InStep(s, s.workers[w]) && Enabled(c, s, l) && !l.Fetch?
    ensures TrueToTable(NextTable(c, s, l), NextWorkers(c, s, l)[w])
  {
    var t', pc' := NextTable(c, s, l), NextWorkers(c, s, l)[w];
    if pc'.Busy? {
      forall k | pc'.i <= k < |pc'.snap|
        ensures pc'.snap[k].id in t'
        ensures t'[pc'.snap[k].id] == pc'.snap[k]
                || (k == pc'.i && pc'.stage.Judging?
                    && t'[pc'.snap[k].id] == pc'.snap[k].(retryCount := pc'.snap[k].retryCount + 1))
      {
        EntryInStep(c, s, l, w, k);
      }
    }
  }

  lemma InStepKept(c: Config, s: State, l: Label, w: WorkerId)
    requires Solo(s, w) && Shape(c, s) && InStep(s, s.workers[w]) && Enabled(c, s, l)
    ensures Solo(Apply(c, s, l), w) && InStep(Apply(c, s, l), Apply(c, s, l).workers[w])
  {
    assert PcSound(c, s, s.workers[w]);
    if !l.Fetch? { BatchInStep(c, s, l, w); }
  }

  lemma {:induction false} SoloRun(c: Config, w: WorkerId, ls: seq<Label>, s: State)
    requires c.codec.Lawful() && Run(c, Start({w}), ls, s)
    ensures Shape(c, s) && Solo(s, w) && InStep(s, s.workers[w])
    decreases |ls|
  {
    RunIsSafe(c, {w}, ls, s);
    if ls != [] {
      var mid := LastStep(c, Start({w}), ls, s);
      SoloRun(c, w, ls[..|ls| - 1], mid);
      InStepKept(c, mid, ls[|ls| - 1], w);
    }
  }

  // ---- at most one delivery per lost mark ----

  /** The row is beyond another send: cleaned up, PUBLISHED, or sent and about to be marked. */
  ghost predicate Spent(s: State, pc: Pc, id: nat) {
    || id !in s.table
    || s.table[id].status.Published?
    || (pc.Busy? && pc.stage.Sent? && pc.i < |pc.snap| && Current(pc).id == id)
  }

  ghost predicate SentOnce(s: State, pc: Pc, id: nat) {
    id < |s.past| ==> s.past[id].acks <= s.past[id].lostMarks + if Spent(s, pc, id) then 1 else 0
  }

  lemma SentOnceElsewhere(c: Config, s: State, l: Label, w: WorkerId, id: nat)
    requires Solo(s, w) && PcSound(c, s, s.workers[w]) && Enabled(c, s, l) && !About(s, l, id) && id < |s.past|
    requires SentOnce(s, s.workers[w], id)
    ensures SentOnce(Apply(c, s, l), Apply(c, s, l).workers[w], id)
  {
    assert NextPast(c, s, l)[id] == NextHistory(c, s, l, id);
    assert Spent(s, s.workers[w], id) ==> Spent(Apply(c, s, l), NextWorkers(c, s, l)[w], id);
  }

  lemma SentOnceHere(c: Config, s: State, l: Label, w: WorkerId, id: nat)
    requires Solo(s, w) && PcSound(c, s, s.workers[w]) && Enabled(c, s, l) && About(s, l, id) && id < |s.past|
    requires SentOnce(s, s.workers[w], id) && id in s.table && s.table[id].status.Pending?
    ensures SentOnce(Apply(c, s, l), Apply(c, s, l).workers[w], id)
  {
    assert NextPast(c, s, l)[id] == NextHistory(c, s, l, id);
  }

  lemma SentOnceStep(c: Config, s: State, l: Label, w: WorkerId, id: nat)
    requires Solo(s, w) && Shape(c, s) && InStep(s, s.workers[w]) && Enabled(c, s, l) && id < |s.past|
    requires SentOnce(s, s.workers[w], id)
    ensures SentOnce(Apply(c, s, l), Apply(c, s, l).workers[w], id)
  {
    var pc := s.workers[w];
    assert PcSound(c, s, pc);
    if About(s, l, id) {
      assert pc.snap[pc.i].id == id;
      SentOnceHere(c, s, l, w, id);
    } else {
      SentOnceElsewhere(c, s, l, w, id);
    }
  }

  lemma {:induction false} SoloSentOnce(c: Config, w: WorkerId, ls: seq<Label>, s: State, id: nat)
    requires c.codec.Lawful() && Run(c, Start({w}), ls, s)
    ensures Solo(s, w) && SentOnce(s, s.workers[w], id)
    decreases |ls|
  {
    SoloRun(c, w, ls, s);
    if ls != [] {
      var mid := LastStep(c, Start({w}), ls, s);
      SoloSentOnce(c, w, ls[..|ls| - 1], mid, id);
      if id < |mid.past| {
        SoloRun(c, w, ls[..|ls| - 1], mid);
        SentOnceStep(c, mid, ls[|ls| - 1], w, id);
      } else if id < |s.past| {
        NewBirth(c, mid, ls[|ls| - 1].event, ls[|ls| - 1].at);
      }
    }
  }

  /** One worker delivers a row once, plus once for each PUBLISHED mark that did
      not commit and once for each ambiguous send; so a PUBLISHED row whose marks
      and sends all went through was delivered exactly once. */
  lemma SoloDuplicateBound(c: Config, w: WorkerId, ls: seq<Label>, s: State, id: nat)
    requires c.codec.Lawful() && Run(c, Start({w}), ls, s) && id < |s.past|
    ensures Deliveries(s.log, id) <= 1 + s.past[id].lostMarks + s.past[id].ambiguous
    ensures
      id in s.table && s.table[id].status.Published? && s.past[id].lostMarks == 0 && s.past[id].ambiguous == 0 ==>
        Deliveries(s.log, id) == 1
  {
    SoloSentOnce(c, w, ls, s, id);
    RunIsSafe(c, {w}, ls, s);
    assert RowDelivered(s, id);
  }

  // ---- exact retry accounting ----

  /** Between rounds the retry count is the number of failed rounds; it reaches
      the limit plus one exactly when the row is FAILED. */
  ghost predicate Settled(c: Config, row: Row, rounds: nat) {
    var max := MaxRetries(c.routing, row.eventType);
    && row.retryCount == rounds
    && (if row.status.Failed? then rounds == max + 1 else rounds <= max)
  }

  ghost predicate Accounted(c: Config, s: State, pc: Pc, id: nat)
    requires id in s.table ==> id < |s.past|
  {
    id in s.table ==>
      var row, rounds := s.table[id], s.past[id].rounds;
      var max := MaxRetries(c.routing, row.eventType);
      if OnRow(pc, Errored, id) then row.status.Pending? && rounds == row.retryCount + 1 && row.retryCount <= max
      else if OnRow(pc, Judging, id) then
        row.status.Pending? && rounds == row.retryCount == Current(pc).retryCount + 1 && Current(pc).retryCount <= max
      else Settled(c, row, rounds)
  }

  /** A step about another row leaves this row's books alone. */
  lemma AccountedElsewhere(c: Config, s: State, l: Label, w: WorkerId, id: nat)
    requires Solo(s, w) && PcSound(c, s, s.workers[w]) && Enabled(c, s, l) && !About(s, l, id)
    requires id in s.table && id < |s.past| && Accounted(c, s, s.workers[w], id)
    ensures id < |Apply(c, s, l).past| && Accounted(c, Apply(c, s, l), Apply(c, s, l).workers[w], id)
  {
    assert NextPast(c, s, l)[id] == NextHistory(c, s, l, id);
    var pc' := NextWorkers(c, s, l)[w];
    assert OnRow(pc', Errored, id) == OnRow(s.workers[w], Errored, id);
    assert OnRow(pc', Judging, id) == OnRow(s.workers[w], Judging, id);
  }

  lemma AccountedHere(c: Config, s: State, l: Label, w: WorkerId, id: nat)
    requires Solo(s, w) && PcSound(c, s, s.workers[w]) && Enabled(c, s, l) && About(s, l, id)
    requires Keeps(FailuresRecorded, c, s, l)
    requires id in s.table && id < |s.past| && Accounted(c, s, s.workers[w], id) && s.table[id].status.Pending?
    requires SameIdentity(s.table[id], Current(s.workers[w]))
    requires s.workers[w].stage.Errored? ==> s.table[id] == Current(s.workers[w])
    ensures id < |Apply(c, s, l).past| && Accounted(c, Apply(c, s, l), Apply(c, s, l).workers[w], id)
  {
    assert NextPast(c, s, l)[id] == NextHistory(c, s, l, id);
  }

  lemma AccountedStep(c: Config, s: State, l: Label, w: WorkerId, id: nat)
    requires Solo(s, w) && Shape(c, s) && InStep(s, s.workers[w]) && Enabled(c, s, l)
    requires Keeps(FailuresRecorded, c, s, l)
    requires id in s.table && id < |s.past| && Accounted(c, s, s.workers[w], id)
    ensures id < |Apply(c, s, l).past| && Accounted(c, Apply(c, s, l), Apply(c, s, l).workers[w], id)
  {
    var pc := s.workers[w];
    assert PcSound(c, s, pc);
    if About(s, l, id) {
      assert pc.snap[pc.i].id == id;
      AccountedHere(c, s, l, w, id);
    } else {
      AccountedElsewhere(c, s, l, w, id);
    }
  }

  lemma FirstAccount(c: Config, s: State, l: Label, w: WorkerId, id: nat)
    requires Solo(s, w) && Shape(c, s) && Enabled(c, s, l) && id !in s.table && id in Apply(c, s, l).table
    ensures id < |Apply(c, s, l).past| && Accounted(c, Apply(c, s, l), Apply(c, s, l).workers[w], id)
  {
    assert PcSound(c, s, s.workers[w]);
    NewBirth(c, s, l.event, l.at);
  }

  lemma {:induction false} SoloAccounted(c: Config, w: WorkerId, ls: seq<Label>, s: State, id: nat)
    requires c.codec.Lawful() && Run(c, Start({w}), ls, s) && AllKeep(FailuresRecorded, c, Start({w}), ls)
    ensures id in s.table ==> id < |s.past|
    ensures Solo(s, w) && Accounted(c, s, s.workers[w], id)
    decreases |ls|
  {
    SoloRun(c, w, ls, s);
    assert RowSound(s, id);
    if ls != [] {
      var mid := LastStep(c, Start({w}), ls, s);
      SoloAccounted(c, w, ls[..|ls| - 1], mid, id);
      SoloRun(c, w, ls[..|ls| - 1], mid);
      if id in mid.table {
        AccountedStep(c, mid, ls[|ls| - 1], w, id);
      } else if id in s.table {
        FirstAccount(c, mid, ls[|ls| - 1], w, id);
      }
    }
  }

  /** One worker whose failed rounds are recorded: whenever it is not in the middle of
      recording one of this row, the row's books are exact. Crashes elsewhere and lost
      PUBLISHED marks do not matter. */
  lemma ExactRetryAccounting(c: Config, w: WorkerId, ls: seq<Label>, s: State, id: nat)
    requires c.codec.Lawful() && Run(c, Start({w}), ls, s) && AllKeep(FailuresRecorded, c, Start({w}), ls)
    requires id in s.table && w in s.workers
    requires !OnRow(s.workers[w], Errored, id) && !OnRow(s.workers[w], Judging, id)
    ensures id < |s.past| && Settled(c, s.table[id], s.past[id].rounds)
  {
    SoloAccounted(c, w, ls, s, id);
  }
}
