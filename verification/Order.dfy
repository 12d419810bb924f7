/** Delivery order of one worker over whole runs. */
module Order {
  import opened Protocol
  import opened Safety
  import opened SingleWorker

  /** No publish round is abandoned, and no PUBLISHED mark is refused. Crashes at any
      point, ambiguous sends, cleanups and inserts are all allowed. */
  predicate Smooth(l: Label) {
    !l.GiveUp? && (l.Mark? ==> l.commits)
  }

  /** Rows are inserted with non-decreasing creation times. */
  ghost predicate InsertsInOrder(ls: seq<Label>) {
    forall i, j :: 0 <= i < j < |ls| && ls[i].Insert? && ls[j].Insert? ==> ls[i].at <= ls[j].at
  }

  ghost function Born(s: State, id: nat): int
    requires id < |s.past|
  {
    s.past[id].born.createdAt
  }

  ghost predicate LogSorted(s: State) {
    forall j, k :: 0 <= j < k < |s.log| && s.log[j].row < |s.past| && s.log[k].row < |s.past| ==>
      Born(s, s.log[j].row) <= Born(s, s.log[k].row)
  }

  /** Nothing pending is older than anything already sent. */
  ghost predicate LogBehind(s: State, id: nat) {
    IsPending(s.table, id) ==>
      forall k :: 0 <= k < |s.log| && s.log[k].row < |s.past| ==> Born(s, s.log[k].row) <= s.table[id].createdAt
  }

  /** What is left of the batch is sorted, and older than every other pending row. */
  ghost predicate BatchSorted(pc: Pc) {
    pc.Busy? ==>
      && !pc.stage.Errored? && !pc.stage.Judging?
      && forall j, k :: 0 <= j < k < |pc.snap| ==> pc.snap[j].createdAt <= pc.snap[k].createdAt
  }

  ghost predicate BatchFirst(s: State, pc: Pc, id: nat) {
    IsPending(s.table, id) && pc.Busy? && !Remains(pc, id) ==>
      forall k :: pc.i <= k < |pc.snap| ==> pc.snap[k].createdAt <= s.table[id].createdAt
  }

  ghost predicate InsertedAt(ls: seq<Label>, at: int) {
    exists k :: 0 <= k < |ls| && ls[k].Insert? && ls[k].at == at
  }

  ghost predicate InsertsSeen(s: State, ls: seq<Label>) {
    forall id: nat :: id < |s.past| ==> InsertedAt(ls, Born(s, id))
  }

  ghost predicate Ordered(s: State, pc: Pc) {
    LogSorted(s) && BatchSorted(pc) && forall id: nat :: LogBehind(s, id) && BatchFirst(s, pc, id)
  }

  lemma InsertedEarlier(ls: seq<Label>, l: Label, at: int)
    requires InsertedAt(ls, at)
    ensures InsertedAt(ls + [l], at)
  {
    var k :| 0 <= k < |ls| && ls[k].Insert? && ls[k].at == at;
    assert (ls + [l])[k] == ls[k];
  }

  lemma InsertsSeenStep(c: Config, s: State, l: Label, ls: seq<Label>)
    requires Enabled(c, s, l) && InsertsSeen(s, ls)
    ensures InsertsSeen(Apply(c, s, l), ls + [l])
  {
    var s' := Apply(c, s, l);
    forall id: nat | id < |s'.past| ensures InsertedAt(ls + [l], Born(s', id)) {
      if id < |s.past| {
        BirthKept(c, s, l, id);
        InsertedEarlier(ls, l, Born(s, id));
      } else {
        NewBirth(c, s, l.event, l.at);
        assert (ls + [l])[|ls|] == l;
      }
    }
  }

  /** The creation time of an insert is not below any earlier one. */
  ghost predicate InTime(s: State, l: Label) {
    l.Insert? ==> forall id: nat :: id < |s.past| ==> Born(s, id) <= l.at
  }

  /** The row being sent is the oldest pending row. */
  lemma CurrentIsOldest(c: Config, s: State, w: WorkerId, id: nat)
    requires Solo(s, w) && Shape(c, s) && InStep(s, s.workers[w]) && Ordered(s, s.workers[w])
    requires s.workers[w].Busy? && s.workers[w].i < |s.workers[w].snap| && IsPending(s.table, id)
    ensures Current(s.workers[w]).createdAt <= s.table[id].createdAt
  {
    var pc := s.workers[w];
    assert BatchFirst(s, pc, id);
    if Remains(pc, id) {
      var k :| pc.i <= k < |pc.snap| && pc.snap[k].id == id;
      assert s.table[id].createdAt == pc.snap[k].createdAt;
    }
  }

  /** A message already sent stays behind the pending rows, also behind new ones. */
  lemma OldMessageBehind(c: Config, s: State, l: Label, id: nat, k: nat)
    requires Shape(c, s) && NothingLost(c, s) && LogBehind(s, id) && Enabled(c, s, l) && InTime(s, l)
    requires k < |s.log| && IsPending(NextTable(c, s, l), id)
    ensures s.log[k].row < |s.past| && Born(s, s.log[k].row) <= NextTable(c, s, l)[id].createdAt
  {
    assert MessageSound(c, s, s.log[k]) && RowSound(s, id);
  }

  /** The message being sent is of the oldest pending row. */
  lemma NewMessageBehind(c: Config, s: State, l: Label, w: WorkerId, id: nat)
    requires Solo(s, w) && Shape(c, s) && InStep(s, s.workers[w]) && Ordered(s, s.workers[w])
    requires Enabled(c, s, l) && l.Attempt? && IsPending(s.table, id)
    ensures Current(s.workers[w]).id < |s.past| && Born(s, Current(s.workers[w]).id) <= s.table[id].createdAt
  {
    assert PcSound(c, s, s.workers[w]);
    CurrentIsOldest(c, s, w, id);
  }

  lemma LogBehindStep(c: Config, s: State, l: Label, w: WorkerId, id: nat)
    requires Solo(s, w) && Shape(c, s) && NothingLost(c, s) && InStep(s, s.workers[w]) && Ordered(s, s.workers[w])
    requires Enabled(c, s, l) && InTime(s, l)
    ensures LogBehind(Apply(c, s, l), id)
  {
    var log', t', past' := NextLog(c, s, l), NextTable(c, s, l), NextPast(c, s, l);
    assert LogBehind(s, id);
    if IsPending(t', id) {
      forall k | 0 <= k < |log'| && log'[k].row < |past'|
        ensures past'[log'[k].row].born.createdAt <= t'[id].createdAt
      {
        if k < |s.log| {
          OldMessageBehind(c, s, l, id, k);
        } else {
          NewMessageBehind(c, s, l, w, id);
        }
        BirthKept(c, s, l, log'[k].row);
      }
    }
  }

  lemma LogSortedStep(c: Config, s: State, l: Label, w: WorkerId)
    requires Solo(s, w) && Shape(c, s) && NothingLost(c, s) && InStep(s, s.workers[w]) && Ordered(s, s.workers[w])
    requires Enabled(c, s, l)
    ensures LogSorted(Apply(c, s, l))
  {
    var s' := Apply(c, s, l);
    assert PcSound(c, s, s.workers[w]);
    forall j, k | 0 <= j < k < |s'.log|
      ensures s'.log[j].row < |s'.past| && s'.log[k].row < |s'.past| ==>
                Born(s', s'.log[j].row) <= Born(s', s'.log[k].row)
    {
      assert s'.log[j] == s.log[j] && MessageSound(c, s, s.log[j]);
      BirthKept(c, s, l, s.log[j].row);
      if k < |s.log| {
        assert MessageSound(c, s, s.log[k]);
        BirthKept(c, s, l, s.log[k].row);
      } else {
        var row := Current(s.workers[w]);
        BirthKept(c, s, l, row.id);
        assert LogBehind(s, row.id);
      }
    }
  }

  /** In a smooth run a row leaves the batch only by leaving PENDING. */
  lemma LeavingBatch(c: Config, s: State, l: Label, w: WorkerId, id: nat)
    requires Solo(s, w) && PcSound(c, s, s.workers[w]) && InStep(s, s.workers[w]) && BatchSorted(s.workers[w])
    requires Enabled(c, s, l) && Smooth(l)
    ensures
      var pc, pc' := s.workers[w], NextWorkers(c, s, l)[w];
      pc'.Busy? && Remains(pc, id) && !Remains(pc', id) ==> !IsPending(NextTable(c, s, l), id)
  {
    var pc, pc' := s.workers[w], NextWorkers(c, s, l)[w];
    if pc'.Busy? && Remains(pc, id) && !Remains(pc', id) {
      var k :| pc.i <= k < |pc.snap| && pc.snap[k].id == id;
      assert k == pc.i && l.Mark?;
    }
  }

  lemma BatchFirstStep(c: Config, s: State, l: Label, w: WorkerId, id: nat)
    requires Solo(s, w) && Shape(c, s) && InStep(s, s.workers[w]) && Ordered(s, s.workers[w])
    requires Enabled(c, s, l) && Smooth(l) && InTime(s, l)
    ensures BatchFirst(Apply(c, s, l), Apply(c, s, l).workers[w], id)
  {
    var s' := Apply(c, s, l);
    var pc, pc' := s.workers[w], s'.workers[w];
    assert PcSound(c, s, pc) && BatchFirst(s, pc, id);
    LeavingBatch(c, s, l, w, id);
    if IsPending(s'.table, id) && pc'.Busy? && !Remains(pc', id) {
      if l.Fetch? {
        assert !Holds(l.snap, id);
      } else if l.Insert? && id == |s.past| {
        forall k | pc'.i <= k < |pc'.snap| ensures pc'.snap[k].createdAt <= l.at {
          assert Born(s, pc'.snap[k].id) <= l.at;
        }
      } else {
        assert IsPending(s.table, id);
      }
    }
  }

  lemma BatchSortedStep(c: Config, s: State, l: Label, w: WorkerId)
    requires Solo(s, w) && BatchSorted(s.workers[w]) && Enabled(c, s, l) && Smooth(l)
    ensures w in Apply(c, s, l).workers && BatchSorted(Apply(c, s, l).workers[w])
  {
  }

  lemma InsertInTime(c: Config, s: State, l: Label, ls: seq<Label>)
    requires InsertsSeen(s, ls) && InsertsInOrder(ls + [l])
    ensures InTime(s, l)
  {
    if l.Insert? {
      forall id: nat | id < |s.past| ensures Born(s, id) <= l.at {
        var k :| 0 <= k < |ls| && ls[k].Insert? && ls[k].at == Born(s, id);
        assert (ls + [l])[k] == ls[k] && (ls + [l])[|ls|] == l;
      }
    }
  }

  lemma {:induction false} SoloOrdered(c: Config, w: WorkerId, ls: seq<Label>, s: State)
    requires c.codec.Lawful() && Run(c, Start({w}), ls, s) && InsertsInOrder(ls)
    requires forall k :: 0 <= k < |ls| ==> Smooth(ls[k])
    ensures Solo(s, w) && Ordered(s, s.workers[w]) && InsertsSeen(s, ls)
    decreases |ls|
  {
    SoloRun(c, w, ls, s);
    if ls != [] {
      var front, l := ls[..|ls| - 1], ls[|ls| - 1];
      var mid := LastStep(c, Start({w}), ls, s);
      assert front + [l] == ls;
      SoloOrdered(c, w, front, mid);
      SoloRun(c, w, front, mid);
      RunIsSafe(c, {w}, front, mid);
      InsertInTime(c, mid, l, front);
      InsertsSeenStep(c, mid, l, front);
      LogSortedStep(c, mid, l, w);
      BatchSortedStep(c, mid, l, w);
      forall id: nat ensures LogBehind(s, id) && BatchFirst(s, s.workers[w], id) {
        LogBehindStep(c, mid, l, w, id);
        BatchFirstStep(c, mid, l, w, id);
      }
    }
  }

  /** One worker, inserts in time order, no abandoned round, marks commit: the
      broker log is in creation order, across batches and crashes, with inserts
      landing while a batch is worked on and with ambiguous sends repeated. */
  lemma DeliveryOrder(c: Config, w: WorkerId, ls: seq<Label>, s: State, j: nat, k: nat)
    requires c.codec.Lawful() && Run(c, Start({w}), ls, s) && InsertsInOrder(ls)
    requires forall n :: 0 <= n < |ls| ==> Smooth(ls[n])
    requires j < k < |s.log|
    ensures s.log[j].row < |s.past| && s.log[k].row < |s.past|
    ensures s.past[s.log[j].row].born.createdAt <= s.past[s.log[k].row].born.createdAt
  {
    SoloOrdered(c, w, ls, s);
    RunIsSafe(c, {w}, ls, s);
    assert MessageSound(c, s, s.log[j]) && MessageSound(c, s, s.log[k]);
    assert Born(s, s.log[j].row) <= Born(s, s.log[k].row);
  }
}
