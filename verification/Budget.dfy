/** Retry budgets as a potential: how many rounds any number of overlapping workers
    can still spend on the rows of the outbox, and how soon it drains. */
module Budget {
  import opened Domain
  import opened Routing
  import opened Protocol
  import opened Faults
  import opened Safety
  import opened Counting
  import opened Sums

  // ---- the budget of one row ----

  ghost function Crew(s: State): nat { |s.workers.Keys| }

  /** Rounds that `n` workers, none of which holds the row, can still spend on a
      pending row. Below the limit each of them may spend one round on a copy from
      below the limit and one on a copy from the limit on. */
  function Allowance(c: Config, row: Row, n: nat): nat {
    var max := MaxRetries(c.routing, row.eventType);
    if row.retryCount < max then max - 1 - row.retryCount + 2 * n else n
  }

  /** One worker spends the failed rounds a row can still absorb; the last one marks
      it FAILED. */
  lemma AllowanceOfOne(c: Config, row: Row)
    ensures
      var max := MaxRetries(c.routing, row.eventType);
      Allowance(c, row, 1) == if row.retryCount <= max then max + 1 - row.retryCount else 1
  {
  }

  ghost function Holders(s: State, id: nat): set<WorkerId> {
    set w | w in s.workers && Remains(s.workers[w], id)
  }

  /** The worker holds a copy of the row from below the limit. */
  ghost predicate HoldsStale(c: Config, pc: Pc, id: nat) {
    pc.Busy? && exists k :: pc.i <= k < |pc.snap| && pc.snap[k].id == id && !Exhausted(c, pc.snap[k])
  }

  ghost function StaleHolders(c: Config, s: State, id: nat): set<WorkerId> {
    set w | w in s.workers && HoldsStale(c, s.workers[w], id)
  }

  ghost function Judges(s: State, id: nat): set<WorkerId> {
    set w | w in s.workers && OnRow(s.workers[w], Judging, id)
  }

  /** Rounds on the row that may still come to an end. */
  ghost function Potential(c: Config, s: State, id: nat): nat {
    if !IsPending(s.table, id) then |Holders(s, id)|
    else
      var row := s.table[id];
      var max := MaxRetries(c.routing, row.eventType);
      if row.retryCount < max then max - 1 - row.retryCount + 2 * Crew(s) + |Judges(s, id)|
      else Crew(s) + |StaleHolders(c, s, id)|
  }

  lemma NobodyHolds(c: Config, s: State, id: nat)
    requires forall w :: w in s.workers ==> !Remains(s.workers[w], id)
    ensures Holders(s, id) == {} && Judges(s, id) == {} && StaleHolders(c, s, id) == {}
    ensures Potential(c, s, id) == if IsPending(s.table, id) then Allowance(c, s.table[id], Crew(s)) else 0
  {
    forall w | w in s.workers ensures !HoldsStale(c, s.workers[w], id) && !OnRow(s.workers[w], Judging, id) {
      assert !Remains(s.workers[w], id);
    }
  }

  // ---- a step never raises it, and the end of a round lowers it ----

  /** What holds in every reachable state of any number of workers. */
  ghost predicate Working(c: Config, s: State) {
    Shape(c, s) && Tallied(c, s)
  }

  lemma WorkingStep(c: Config, s: State, l: Label)
    requires c.codec.Lawful() && Working(c, s) && Enabled(c, s, l)
    ensures Working(c, Apply(c, s, l))
  {
    ShapeStep(c, s, l);
    TalliedStep(c, s, l);
  }

  lemma {:induction false} RunWorks(c: Config, s0: State, ls: seq<Label>, s: State)
    requires c.codec.Lawful() && Working(c, s0) && Run(c, s0, ls, s)
    ensures Working(c, s) && s.workers.Keys == s0.workers.Keys && |s0.past| <= |s.past|
    decreases |ls|
  {
    if ls != [] {
      var mid := LastStep(c, s0, ls, s);
      RunWorks(c, s0, ls[..|ls| - 1], mid);
      WorkingStep(c, mid, ls[|ls| - 1]);
    }
  }

  lemma ReachableWorks(c: Config, ws: set<WorkerId>, ls: seq<Label>, s: State)
    requires c.codec.Lawful() && Run(c, Start(ws), ls, s)
    ensures Working(c, s) && s.workers.Keys == ws
  {
    RunIsSafe(c, ws, ls, s);
    RunIsTallied(c, ws, ls, s);
    RunIsSafe(c, ws, [], Start(ws));
    RunIsTallied(c, ws, [], Start(ws));
    RunWorks(c, Start(ws), ls, s);
  }

  /** The writes that a failed round attempts commit. */
  ghost predicate Tallies(c: Config, s: State, l: Label)
    requires Enabled(c, s, l)
  {
    match l
    case Increment(_, commits) => commits
    case Judge(w, commits) => commits || !Condemning(c, s, w)
    case _ => true
  }

  /** The worker is done with the row it is on, and has left its trace in the table. */
  ghost predicate RoundEnds(c: Config, s: State, l: Label) {
    match l
    case Judge(_, _) => true
    case Mark(_, commits, _) => commits
    case Crash(w) => At(s, w, Judging) && !Condemning(c, s, w)
    case _ => false
  }

  ghost function Ended(c: Config, s: State, l: Label, id: nat): nat {
    if RoundEnds(c, s, l) && About(s, l, id) then 1 else 0
  }

  lemma SizeMoves(a: set<WorkerId>, b: set<WorkerId>, w: WorkerId)
    requires a - {w} == b - {w}
    ensures |b| + (if w in a then 1 else 0) == |a| + if w in b then 1 else 0
  {
    assert a == (a - {w}) + if w in a then {w} else {};
    assert b == (b - {w}) + if w in b then {w} else {};
  }

  lemma SizeShrinks(a: set<WorkerId>, b: set<WorkerId>, w: WorkerId)
    requires b <= a - {w}
    ensures |b| + (if w in a then 1 else 0) <= |a|
  {
    SubsetSize(b, a - {w});
  }

  /** A row comes back to a worker only in a batch. */
  lemma RemainsBefore(c: Config, s: State, l: Label, w: WorkerId, id: nat)
    requires Enabled(c, s, l) && w in s.workers && Remains(Apply(c, s, l).workers[w], id)
    ensures Remains(s.workers[w], id) || (l.Fetch? && l.w == w && Holds(l.snap, id))
  {
    var pc' := Apply(c, s, l).workers[w];
    var k :| pc'.i <= k < |pc'.snap| && pc'.snap[k].id == id;
    if l.Fetch? && l.w == w { assert l.snap[k].id == id; } else { assert s.workers[w].snap[k].id == id; }
  }

  /** The worker at whose row a round ends is rid of it. */
  lemma LetsGo(c: Config, s: State, l: Label, id: nat)
    requires Shape(c, s) && Enabled(c, s, l) && About(s, l, id) && (l.Judge? || l.Mark? || l.Crash?)
    ensures Remains(s.workers[l.w], id) && !Remains(Apply(c, s, l).workers[l.w], id)
  {
    var pc := s.workers[l.w];
    assert PcSound(c, s, pc);
    assert pc.snap[pc.i].id == id;
  }

  lemma HoldersStep(c: Config, s: State, l: Label, id: nat)
    requires Shape(c, s) && Enabled(c, s, l) && (l.Fetch? ==> !Holds(l.snap, id))
    ensures |Holders(Apply(c, s, l), id)| + Ended(c, s, l, id) <= |Holders(s, id)|
  {
    var a, b := Holders(s, id), Holders(Apply(c, s, l), id);
    forall w | w in b ensures w in a { RemainsBefore(c, s, l, w, id); }
    SubsetSize(b, a);
    if Ended(c, s, l, id) == 1 {
      LetsGo(c, s, l, id);
      SizeShrinks(a, b, l.w);
    }
  }

  lemma JudgesBefore(c: Config, s: State, l: Label, id: nat)
    requires Enabled(c, s, l)
    ensures
      Judges(Apply(c, s, l), id) <= Judges(s, id) + if l.Increment? && About(s, l, id) then {l.w} else {}
    ensures (l.Judge? || l.Crash?) && About(s, l, id) ==> l.w !in Judges(Apply(c, s, l), id)
  {
  }

  lemma JudgesStep(c: Config, s: State, l: Label, id: nat)
    requires Shape(c, s) && Enabled(c, s, l) && !l.Mark?
    ensures
      |Judges(Apply(c, s, l), id)| + Ended(c, s, l, id) <=
      |Judges(s, id)| + if l.Increment? && About(s, l, id) then 1 else 0
  {
    var a, b := Judges(s, id), Judges(Apply(c, s, l), id);
    JudgesBefore(c, s, l, id);
    if l.Increment? && About(s, l, id) {
      SubsetSize(b, a + {l.w});
    } else {
      SubsetSize(b, a);
      if Ended(c, s, l, id) == 1 { SizeShrinks(a, b, l.w); }
    }
  }

  /** A fetch finds a row at the limit or beyond, so it hands out no stale copy of it. */
  lemma StaleBefore(c: Config, s: State, l: Label, w: WorkerId, id: nat)
    requires Enabled(c, s, l) && w in s.workers && IsPending(s.table, id) && Exhausted(c, s.table[id])
    requires HoldsStale(c, Apply(c, s, l).workers[w], id)
    ensures HoldsStale(c, s.workers[w], id)
  {
    var pc' := Apply(c, s, l).workers[w];
    var k :| pc'.i <= k < |pc'.snap| && pc'.snap[k].id == id && !Exhausted(c, pc'.snap[k]);
    assert !(l.Fetch? && l.w == w) ==> s.workers[w].snap[k].id == id;
  }

  lemma StaleStep(c: Config, s: State, l: Label, id: nat)
    requires Shape(c, s) && Enabled(c, s, l) && !l.Mark?
    requires IsPending(s.table, id) && Exhausted(c, s.table[id])
    requires l.Judge? && About(s, l, id) ==> !Condemning(c, s, l.w)
    ensures |StaleHolders(c, Apply(c, s, l), id)| + Ended(c, s, l, id) <= |StaleHolders(c, s, id)|
  {
    var a, b := StaleHolders(c, s, id), StaleHolders(c, Apply(c, s, l), id);
    forall w | w in b ensures w in a { StaleBefore(c, s, l, w, id); }
    SubsetSize(b, a);
    if Ended(c, s, l, id) == 1 {
      LetsGo(c, s, l, id);
      assert HoldsStale(c, s.workers[l.w], id) by { assert s.workers[l.w].snap[s.workers[l.w].i].id == id; }
      SizeShrinks(a, b, l.w);
    }
  }

  /** A row that leaves PENDING is left by the worker that settled it. */
  lemma SettlingStep(c: Config, s: State, l: Label, id: nat)
    requires Shape(c, s) && Enabled(c, s, l) && IsPending(s.table, id) && !IsPending(NextTable(c, s, l), id)
    ensures |Holders(Apply(c, s, l), id)| + Ended(c, s, l, id) <= Crew(s)
  {
    assert About(s, l, id) && (l.Judge? || l.Mark?);
    LetsGo(c, s, l, id);
    SizeShrinks(s.workers.Keys, Holders(Apply(c, s, l), id), l.w);
  }

  /** Copies of a row below the limit are below the limit. */
  lemma NotCondemning(c: Config, s: State, l: Label, id: nat)
    requires Working(c, s) && Enabled(c, s, l) && l.Judge? && About(s, l, id)
    requires id in s.table && !Exhausted(c, s.table[id])
    ensures !Condemning(c, s, l.w)
  {
    var pc := s.workers[l.w];
    assert PcSound(c, s, pc) && SnapCounted(s, pc) && RowSound(s, id) && Counted(c, s, id);
    assert pc.snap[pc.i].retryCount <= s.past[id].incrs;
  }

  lemma PendingOver(c: Config, s: State, l: Label, id: nat)
    requires Working(c, s) && Enabled(c, s, l) && id < |s.past| && !IsPending(s.table, id)
    ensures !IsPending(NextTable(c, s, l), id)
  {
  }

  /** What a step does to a row that stays PENDING. */
  lemma SameRow(c: Config, s: State, l: Label, id: nat)
    requires Shape(c, s) && Enabled(c, s, l) && Tallies(c, s, l)
    requires IsPending(s.table, id) && IsPending(NextTable(c, s, l), id)
    ensures
      var row, row' := s.table[id], NextTable(c, s, l)[id];
      && row'.eventType == row.eventType
      && row'.retryCount == row.retryCount + (if l.Increment? && About(s, l, id) then 1 else 0)
    ensures l.Mark? && About(s, l, id) ==> !l.commits
    ensures l.Judge? && About(s, l, id) ==> !Condemning(c, s, l.w)
  {
    NeverBroken(c, s, l);
    assert RowSound(s, id);
  }

  /** A PUBLISHED mark that does not commit, or is of another row. */
  lemma OtherMark(c: Config, s: State, l: Label, id: nat)
    requires Enabled(c, s, l) && l.Mark? && Ended(c, s, l, id) == 0
    ensures |StaleHolders(c, Apply(c, s, l), id)| <= |StaleHolders(c, s, id)|
    ensures |Judges(Apply(c, s, l), id)| <= |Judges(s, id)|
  {
    SubsetSize(StaleHolders(c, Apply(c, s, l), id), StaleHolders(c, s, id));
    SubsetSize(Judges(Apply(c, s, l), id), Judges(s, id));
  }

  lemma PendingPotentialStep(c: Config, s: State, l: Label, id: nat)
    requires Working(c, s) && Enabled(c, s, l) && Tallies(c, s, l) && id < |s.past|
    requires IsPending(s.table, id) && IsPending(NextTable(c, s, l), id)
    ensures Potential(c, Apply(c, s, l), id) + Ended(c, s, l, id) <= Potential(c, s, id)
  {
    var s' := Apply(c, s, l);
    assert s'.workers.Keys == s.workers.Keys;
    assert RowSound(s, id);
    SameRow(c, s, l, id);
    if Exhausted(c, s.table[id]) {
      if !l.Mark? { StaleStep(c, s, l, id); } else { OtherMark(c, s, l, id); }
    } else if Exhausted(c, s'.table[id]) {
      SubsetSize(StaleHolders(c, s', id), s.workers.Keys);
    } else {
      if !l.Mark? { JudgesStep(c, s, l, id); } else { OtherMark(c, s, l, id); }
    }
  }

  /** No step adds rounds to a row, and the end of one takes a round off. */
  lemma PotentialStep(c: Config, s: State, l: Label, id: nat)
    requires Working(c, s) && Enabled(c, s, l) && Tallies(c, s, l) && id < |s.past|
    ensures Potential(c, Apply(c, s, l), id) + Ended(c, s, l, id) <= Potential(c, s, id)
  {
    var s' := Apply(c, s, l);
    var t, t' := s.table, s'.table;
    assert s'.workers.Keys == s.workers.Keys;
    if !IsPending(t, id) {
      PendingOver(c, s, l, id);
      assert l.Fetch? && Holds(l.snap, id) ==> IsPending(t, id);
      HoldersStep(c, s, l, id);
    } else if !IsPending(t', id) {
      SettlingStep(c, s, l, id);
    } else {
      PendingPotentialStep(c, s, l, id);
    }
  }

  lemma InsertPotential(c: Config, s: State, l: Label)
    requires Shape(c, s) && Enabled(c, s, l) && l.Insert?
    ensures
      Potential(c, Apply(c, s, l), |s.past|) == MaxRetries(c.routing, l.event.typ) - 1 + 2 * Crew(s)
  {
    var s', id := Apply(c, s, l), |s.past|;
    forall w | w in s.workers ensures !Remains(s.workers[w], id) { assert PcSound(c, s, s.workers[w]); }
    assert s'.workers == s.workers;
    NobodyHolds(c, s', id);
  }

  // ---- the budget of the table ----

  predicate AnyId(id: nat) { id >= 0 }

  ghost function Everything(): iset<nat> { iset id: nat | AnyId(id) }

  ghost function PotentialIn(c: Config, s: State, ids: iset<nat>): nat -> nat {
    (id: nat) => if id in ids then Potential(c, s, id) else 0
  }

  /** Rounds on rows of `ids` that may still come to an end. */
  ghost function Liability(c: Config, s: State, ids: iset<nat>): nat {
    Sum(PotentialIn(c, s, ids), |s.past|)
  }

  ghost function AllowanceIn(c: Config, s: State, ids: iset<nat>, n: nat): nat -> nat {
    (id: nat) => if id in ids && IsPending(s.table, id) then Allowance(c, s.table[id], n) else 0
  }

  /** The budget that `n` workers have for the pending rows of `ids`. */
  ghost function Outstanding(c: Config, s: State, ids: iset<nat>, n: nat): nat {
    Sum(AllowanceIn(c, s, ids, n), |s.past|)
  }

  /** While all workers are idle, what may still happen is what the table allows. */
  lemma LiabilityAtRest(c: Config, s: State, ids: iset<nat>)
    requires AllIdle(s)
    ensures Liability(c, s, ids) == Outstanding(c, s, ids, Crew(s))
  {
    var f, g := PotentialIn(c, s, ids), AllowanceIn(c, s, ids, Crew(s));
    forall id: nat ensures f(id) == g(id) { NobodyHolds(c, s, id); }
    SumLowers(f, g, |s.past|);
    SumLowers(g, f, |s.past|);
  }

  /** What an insert adds for the rows of `ids`. */
  ghost function Grant(c: Config, s: State, l: Label, ids: iset<nat>): nat {
    if l.Insert? && |s.past| in ids then MaxRetries(c.routing, l.event.typ) - 1 + 2 * Crew(s) else 0
  }

  ghost function EndedIn(c: Config, s: State, l: Label, ids: iset<nat>): nat {
    if RoundEnds(c, s, l) && exists id: nat :: id in ids && About(s, l, id) then 1 else 0
  }

  lemma PotentialInStep(c: Config, s: State, l: Label, ids: iset<nat>, id: nat)
    requires Working(c, s) && Enabled(c, s, l) && Tallies(c, s, l) && id < |s.past|
    ensures
      PotentialIn(c, Apply(c, s, l), ids)(id) + (if id in ids then Ended(c, s, l, id) else 0)
      <= PotentialIn(c, s, ids)(id)
  {
    PotentialStep(c, s, l, id);
  }

  lemma InsertLiability(c: Config, s: State, l: Label, ids: iset<nat>)
    requires Working(c, s) && Enabled(c, s, l) && l.Insert?
    ensures Liability(c, Apply(c, s, l), ids) <= Liability(c, s, ids) + Grant(c, s, l, ids)
  {
    var f, g := PotentialIn(c, s, ids), PotentialIn(c, Apply(c, s, l), ids);
    forall id: nat | id < |s.past| ensures g(id) <= f(id) { PotentialInStep(c, s, l, ids, id); }
    SumLowers(f, g, |s.past|);
    InsertPotential(c, s, l);
    assert |Apply(c, s, l).past| == |s.past| + 1;
  }

  lemma EndLiability(c: Config, s: State, l: Label, ids: iset<nat>, i: nat)
    requires Working(c, s) && Enabled(c, s, l) && Tallies(c, s, l) && !l.Insert?
    requires i in ids && i < |s.past| && Ended(c, s, l, i) == 1
    ensures Liability(c, Apply(c, s, l), ids) + 1 <= Liability(c, s, ids)
  {
    var f, g := PotentialIn(c, s, ids), PotentialIn(c, Apply(c, s, l), ids);
    forall id: nat | id < |s.past| ensures g(id) <= f(id) && (id == i ==> g(id) + 1 <= f(id)) {
      PotentialInStep(c, s, l, ids, id);
    }
    SumMoves(f, g, i, |s.past|);
    assert |Apply(c, s, l).past| == |s.past|;
  }

  lemma OtherLiability(c: Config, s: State, l: Label, ids: iset<nat>)
    requires Working(c, s) && Enabled(c, s, l) && Tallies(c, s, l) && !l.Insert?
    ensures Liability(c, Apply(c, s, l), ids) <= Liability(c, s, ids)
  {
    var f, g := PotentialIn(c, s, ids), PotentialIn(c, Apply(c, s, l), ids);
    forall id: nat | id < |s.past| ensures g(id) <= f(id) { PotentialInStep(c, s, l, ids, id); }
    SumLowers(f, g, |s.past|);
    assert |Apply(c, s, l).past| == |s.past|;
  }

  lemma LiabilityStep(c: Config, s: State, l: Label, ids: iset<nat>)
    requires Working(c, s) && Enabled(c, s, l) && Tallies(c, s, l)
    ensures Liability(c, Apply(c, s, l), ids) + EndedIn(c, s, l, ids) <= Liability(c, s, ids) + Grant(c, s, l, ids)
  {
    if l.Insert? {
      InsertLiability(c, s, l, ids);
    } else if EndedIn(c, s, l, ids) == 1 {
      var id: nat :| id in ids && About(s, l, id);
      assert PcSound(c, s, s.workers[l.w]);
      EndLiability(c, s, l, ids, id);
    } else {
      OtherLiability(c, s, l, ids);
    }
  }

  /** Rounds that came to an end in a run. */
  ghost function Worked(ls: seq<Label>): nat {
    if ls == [] then 0
    else Worked(ls[..|ls| - 1]) + if ls[|ls| - 1].Judge? || ls[|ls| - 1].Mark? then 1 else 0
  }

  /** The budget that the inserts of a run bring in. */
  ghost function Granted(c: Config, ls: seq<Label>, n: nat): nat {
    if ls == [] then 0
    else
      Granted(c, ls[..|ls| - 1], n) +
      if ls[|ls| - 1].Insert? then MaxRetries(c.routing, ls[|ls| - 1].event.typ) - 1 + 2 * n else 0
  }

  lemma RoundOverEnds(c: Config, s: State, l: Label)
    requires Shape(c, s) && Enabled(c, s, l) && Keeps(WritesCommit, c, s, l) && (l.Judge? || l.Mark?)
    ensures EndedIn(c, s, l, Everything()) == 1
  {
    assert About(s, l, CurrentOf(s, l.w).id) && CurrentOf(s, l.w).id in Everything();
  }

  /** The balance of one step. */
  lemma PaidStep(c: Config, s: State, l: Label)
    requires Working(c, s) && Enabled(c, s, l) && Keeps(WritesCommit, c, s, l)
    ensures Crew(Apply(c, s, l)) == Crew(s)
    ensures
      Liability(c, Apply(c, s, l), Everything()) + (if l.Judge? || l.Mark? then 1 else 0)
      <= Liability(c, s, Everything())
         + if l.Insert? then MaxRetries(c.routing, l.event.typ) - 1 + 2 * Crew(s) else 0
  {
    LiabilityStep(c, s, l, Everything());
    if l.Judge? || l.Mark? { RoundOverEnds(c, s, l); }
    assert Apply(c, s, l).workers.Keys == s.workers.Keys;
  }

  /** Conservation, for any number of overlapping workers, crashes at any point and
      inserts at any moment: every round is paid for. What has been worked off and
      what may still happen never exceed what could happen at first and what the
      inserts brought in. */
  lemma {:induction false} RoundsArePaidFor(c: Config, s0: State, ls: seq<Label>, s: State)
    requires c.codec.Lawful() && Working(c, s0) && Run(c, s0, ls, s) && AllKeep(WritesCommit, c, s0, ls)
    ensures Working(c, s) && Crew(s) == Crew(s0)
    ensures
      Worked(ls) + Liability(c, s, Everything()) <= Liability(c, s0, Everything()) + Granted(c, ls, Crew(s0))
    decreases |ls|
  {
    if ls != [] {
      var front, l := ls[..|ls| - 1], ls[|ls| - 1];
      var mid := LastStep(c, s0, ls, s);
      RoundsArePaidFor(c, s0, front, mid);
      WorkingStep(c, mid, l);
      PaidStep(c, mid, l);
    }
  }

  // ---- calls ----

  ghost function Fetches(ls: seq<Label>): nat {
    if ls == [] then 0 else Fetches(ls[..|ls| - 1]) + if ls[|ls| - 1].Fetch? then 1 else 0
  }

  /** Calls that came to their end; a crashed one did not. */
  ghost function Calls(ls: seq<Label>): nat {
    if ls == [] then 0 else Calls(ls[..|ls| - 1]) + if ls[|ls| - 1].Finish? then 1 else 0
  }

  ghost predicate NoInserts(ls: seq<Label>) {
    forall k :: 0 <= k < |ls| ==> !ls[k].Insert?
  }

  lemma {:induction false} NothingGranted(c: Config, ls: seq<Label>, n: nat)
    requires NoInserts(ls)
    ensures Granted(c, ls, n) == 0
  {
    if ls != [] { NothingGranted(c, ls[..|ls| - 1], n); }
  }

  ghost function PendingIds(t: map<nat, Row>): set<nat> {
    set id | id in t && t[id].status.Pending?
  }

  lemma {:induction false} SnapIds(snap: seq<Row>, n: nat) returns (ids: set<nat>)
    requires n <= |snap| && forall j, k :: 0 <= j < k < |snap| ==> snap[j].id != snap[k].id
    ensures |ids| == n && forall id: nat :: id in ids <==> exists k :: 0 <= k < n && snap[k].id == id
  {
    if n == 0 {
      ids := {};
    } else {
      var front := SnapIds(snap, n - 1);
      ids := front + {snap[n - 1].id};
    }
  }

  /** A fetch hands over as many rows as there are, up to the batch size. */
  lemma FetchSize(t: map<nat, Row>, limit: nat, snap: seq<Row>)
    requires OldestPending(t, limit, snap)
    ensures |snap| == if |PendingIds(t)| <= limit then |PendingIds(t)| else limit
  {
    var ids := SnapIds(snap, |snap|);
    forall id | id in ids ensures id in PendingIds(t) {
      var k :| 0 <= k < |snap| && snap[k].id == id;
      assert IsPending(t, snap[k].id);
    }
    var rest := PendingIds(t) - ids;
    assert PendingIds(t) == ids + rest;
    if rest != {} {
      var id :| id in rest;
      assert IsPending(t, id) && !Holds(snap, id);
    }
  }

  /** During and after a single call: the worker is at work on its batch and has
      finished what is behind it, or has worked the whole batch off, or has crashed. */
  ghost predicate OneCall(s: State, w: WorkerId, snap: seq<Row>, worked: nat, calls: nat) {
    && w in s.workers && (forall v :: v in s.workers && v != w ==> s.workers[v].Idle?)
    && (s.workers[w].Idle? ==> calls == 0 || worked >= |snap|)
    && (s.workers[w].Busy? ==>
          calls == 0 && s.workers[w].snap == snap && s.workers[w].i <= |snap| && worked >= s.workers[w].i)
  }

  lemma {:induction false} FetchCounted(ls: seq<Label>)
    requires |ls| > 0 && ls[0].Fetch?
    ensures Fetches(ls) >= 1
  {
    if |ls| > 1 {
      assert ls[..|ls| - 1][0] == ls[0];
      FetchCounted(ls[..|ls| - 1]);
    }
  }

  lemma FirstStep(c: Config, s0: State, ls: seq<Label>, s: State)
    requires Run(c, s0, ls, s) && |ls| == 1 && AllIdle(s0) && ls[0].Fetch?
    ensures Enabled(c, s0, ls[0]) && OneCall(s, ls[0].w, ls[0].snap, Worked(ls), Calls(ls))
  {
    assert ls[..0] == [] && Worked(ls[..0]) == 0 && Calls(ls[..0]) == 0;
    assert Exec(c, s0, ls[..0]) == s0;
  }

  lemma OneCallStep(c: Config, s: State, l: Label, w: WorkerId, snap: seq<Row>, worked: nat, calls: nat)
    requires Shape(c, s) && Enabled(c, s, l) && !l.Fetch? && OneCall(s, w, snap, worked, calls)
    ensures
      OneCall(Apply(c, s, l), w, snap, worked + (if l.Judge? || l.Mark? then 1 else 0),
        calls + if l.Finish? then 1 else 0)
  {
    NeverBroken(c, s, l);
    assert s.workers[w].Busy? ==> PcSound(c, s, s.workers[w]);
  }

  lemma {:induction false} SingleCall(c: Config, s0: State, ls: seq<Label>, s: State)
    requires c.codec.Lawful() && Working(c, s0) && AllIdle(s0) && Run(c, s0, ls, s)
    requires |ls| > 0 && ls[0].Fetch? && Fetches(ls) == 1
    ensures Working(c, s) && Enabled(c, s0, ls[0]) && OneCall(s, ls[0].w, ls[0].snap, Worked(ls), Calls(ls))
    decreases |ls|
  {
    var front, l := ls[..|ls| - 1], ls[|ls| - 1];
    var mid := LastStep(c, s0, ls, s);
    if |ls| > 1 {
      assert front[0] == ls[0];
      FetchCounted(front);
      SingleCall(c, s0, front, mid);
      OneCallStep(c, mid, l, ls[0].w, ls[0].snap, Worked(front), Calls(front));
    } else {
      FirstStep(c, s0, ls, s);
      assert front == [] && mid == s0;
    }
    WorkingStep(c, mid, l);
  }

  /** One completed call of the processor without new inserts lowers what is
      outstanding by at least the number of rows it fetched: all pending ones, up to
      the batch size. */
  lemma CallLowersOutstanding(c: Config, s0: State, call: seq<Label>, s: State, n: nat)
    requires c.codec.Lawful() && Working(c, s0) && AllIdle(s0) && n == Crew(s0) && Run(c, s0, call, s)
    requires AllKeep(WritesCommit, c, s0, call) && NoInserts(call)
    requires |call| > 0 && call[0].Fetch? && Fetches(call) == 1 && Calls(call) == 1 && c.batch >= 0
    ensures AllIdle(s)
    ensures
      Outstanding(c, s, Everything(), n)
      + (if |PendingIds(s0.table)| <= c.batch then |PendingIds(s0.table)| else c.batch)
      <= Outstanding(c, s0, Everything(), n)
  {
    RoundsArePaidFor(c, s0, call, s);
    NothingGranted(c, call, n);
    SingleCall(c, s0, call, s);
    FetchSize(s0.table, c.batch, call[0].snap);
    LiabilityAtRest(c, s0, Everything());
    LiabilityAtRest(c, s, Everything());
  }
}
