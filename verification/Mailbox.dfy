/** The specification the outbox is built to meet: an at-least-once mailbox that
    knows nothing of workers, batches or retries. Every run of the protocol, with
    any number of workers, crashes and lost writes, is a run of this mailbox. */
module Mailbox {
  import opened Routing
  import opened Protocol
  import opened Safety

  /** What was accepted under the id that is its position in `accepted`. */
  datatype Letter = Letter(eventId: string, eventType: string, dest: Dest)

  datatype Box = Box(accepted: seq<Letter>, held: set<nat>, sent: seq<Message>)

  ghost predicate Accepts(b: Box, b': Box) {
    exists letter: Letter :: b' == Box(b.accepted + [letter], b.held + {|b.accepted|}, b.sent)
  }

  ghost predicate Carries(m: Message, letter: Letter) {
    m.event.id == letter.eventId && m.event.typ == letter.eventType && m.dest == letter.dest
  }

  /** Only an accepted letter is ever delivered, with its own content and address. */
  ghost predicate Delivers(b: Box, b': Box) {
    exists m: Message ::
      m.row < |b.accepted| && Carries(m, b.accepted[m.row]) && b' == Box(b.accepted, b.held, b.sent + [m])
  }

  ghost predicate WasSent(b: Box, id: nat) {
    exists k :: 0 <= k < |b.sent| && b.sent[k].row == id
  }

  /** A letter may be dropped only after at least one delivery. */
  ghost predicate Forgets(b: Box, b': Box) {
    && b'.accepted == b.accepted && b'.sent == b.sent && b'.held <= b.held
    && forall id: nat :: id in b.held && id !in b'.held ==> WasSent(b, id)
  }

  ghost predicate BoxNext(b: Box, b': Box) {
    b' == b || Accepts(b, b') || Delivers(b, b') || Forgets(b, b')
  }

  ghost predicate Behaviour(bs: seq<Box>) {
    && |bs| > 0 && bs[0] == Box([], {}, [])
    && forall k :: 0 <= k < |bs| - 1 ==> BoxNext(bs[k], bs[k + 1])
  }

  /** The promise of the mailbox: what was accepted is still held or was delivered. */
  ghost predicate Kept(b: Box) {
    forall id: nat :: id < |b.accepted| ==> id in b.held || WasSent(b, id)
  }

  lemma SentStays(b: Box, b': Box, id: nat)
    requires BoxNext(b, b') && WasSent(b, id)
    ensures WasSent(b', id)
  {
    var k :| 0 <= k < |b.sent| && b.sent[k].row == id;
    assert b'.sent[k] == b.sent[k];
  }

  lemma KeptStep(b: Box, b': Box)
    requires BoxNext(b, b') && Kept(b)
    ensures Kept(b')
  {
    forall id: nat | id < |b'.accepted| ensures id in b'.held || WasSent(b', id) {
      if id < |b.accepted| && WasSent(b, id) { SentStays(b, b', id); }
    }
  }

  lemma {:induction false} BehavioursKeep(bs: seq<Box>, k: nat)
    requires Behaviour(bs) && k < |bs|
    ensures Kept(bs[k])
  {
    if k > 0 {
      BehavioursKeep(bs, k - 1);
      assert BoxNext(bs[k - 1], bs[k - 1 + 1]);
      KeptStep(bs[k - 1], bs[k]);
    }
  }

  // ---- the refinement ----

  ghost function LetterOf(c: Config, h: History): Letter {
    Letter(h.source.id, h.source.typ, Resolve(c.routing, h.source.typ))
  }

  ghost function Abs(c: Config, s: State): Box {
    Box(seq(|s.past|, id requires 0 <= id < |s.past| => LetterOf(c, s.past[id])), s.table.Keys, s.log)
  }

  lemma AcceptedFixed(c: Config, s: State, l: Label)
    requires Enabled(c, s, l) && !l.Insert?
    ensures Abs(c, Apply(c, s, l)).accepted == Abs(c, s).accepted
  {
    forall id | 0 <= id < |s.past| ensures Apply(c, s, l).past[id].source == s.past[id].source {
      BirthKept(c, s, l, id);
    }
  }

  lemma InsertAccepts(c: Config, s: State, l: Label)
    requires Enabled(c, s, l) && l.Insert?
    ensures Accepts(Abs(c, s), Abs(c, Apply(c, s, l)))
  {
    var s' := Apply(c, s, l);
    NewBirth(c, s, l.event, l.at);
    forall id | 0 <= id < |s.past| ensures s'.past[id].source == s.past[id].source { BirthKept(c, s, l, id); }
    var letter := LetterOf(c, s'.past[|s.past|]);
    assert Abs(c, s').accepted == Abs(c, s).accepted + [letter];
    assert s'.table.Keys == s.table.Keys + {|s.past|};
    assert Abs(c, s') == Box(Abs(c, s).accepted + [letter], Abs(c, s).held + {|s.past|}, s.log);
  }

  lemma SendDelivers(c: Config, s: State, l: Label)
    requires c.codec.Lawful() && Shape(c, s) && NothingLost(c, s) && Enabled(c, s, l)
    requires l.Attempt? && !l.outcome.Refused?
    ensures Delivers(Abs(c, s), Abs(c, Apply(c, s, l)))
  {
    var s' := Apply(c, s, l);
    AcceptedFixed(c, s, l);
    MessageSoundStep(c, s, l, |s.log|);
    var m := s'.log[|s.log|];
    assert PcSound(c, s, s.workers[l.w]) && BornSound(c, s, m.row);
    BirthKept(c, s, l, m.row);
    BornParses(c, s, m.row);
    assert Carries(m, Abs(c, s).accepted[m.row]);
    assert Abs(c, s') == Box(Abs(c, s).accepted, Abs(c, s).held, Abs(c, s).sent + [m]);
  }

  lemma DeliveriesPrefix(log: seq<Message>, id: nat)
    requires log != [] && log[|log| - 1].row != id
    ensures Deliveries(log, id) == Deliveries(log[..|log| - 1], id)
  {
  }

  lemma {:induction false} DeliveredMeansSent(log: seq<Message>, id: nat)
    requires Deliveries(log, id) > 0
    ensures exists k :: 0 <= k < |log| && log[k].row == id
  {
    if log[|log| - 1].row != id {
      DeliveriesPrefix(log, id);
      DeliveredMeansSent(log[..|log| - 1], id);
      var k :| 0 <= k < |log| - 1 && log[..|log| - 1][k].row == id;
      assert log[k].row == id;
    }
  }

  lemma CleanupForgets(c: Config, s: State, l: Label)
    requires Shape(c, s) && NothingLost(c, s) && Enabled(c, s, l) && l.Cleanup?
    ensures Forgets(Abs(c, s), Abs(c, Apply(c, s, l)))
  {
    AcceptedFixed(c, s, l);
    forall id: nat | id in s.table && id !in Apply(c, s, l).table
      ensures WasSent(Abs(c, s), id)
    {
      assert RowSound(s, id) && RowDelivered(s, id);
      DeliveredMeansSent(s.log, id);
      var k :| 0 <= k < |s.log| && s.log[k].row == id;
      assert Abs(c, s).sent[k].row == id;
    }
  }

  lemma OtherStepsStutter(c: Config, s: State, l: Label)
    requires Enabled(c, s, l) && !l.Insert? && !l.Cleanup? && !(l.Attempt? && !l.outcome.Refused?)
    ensures Abs(c, Apply(c, s, l)) == Abs(c, s)
  {
    AcceptedFixed(c, s, l);
    assert Apply(c, s, l).table.Keys == s.table.Keys;
  }

  /** Each step of the protocol is a step of the mailbox, or changes nothing in it. */
  lemma StepSimulates(c: Config, s: State, l: Label)
    requires c.codec.Lawful() && Shape(c, s) && NothingLost(c, s) && Enabled(c, s, l)
    ensures BoxNext(Abs(c, s), Abs(c, Apply(c, s, l)))
  {
    if l.Insert? { InsertAccepts(c, s, l); }
    else if l.Cleanup? { CleanupForgets(c, s, l); }
    else if l.Attempt? && !l.outcome.Refused? { SendDelivers(c, s, l); }
    else { OtherStepsStutter(c, s, l); }
  }

  /** The mailbox states a run passes through. */
  ghost function Shadow(c: Config, s: State, ls: seq<Label>): (bs: seq<Box>)
    requires Legal(c, s, ls)
    ensures |bs| == |ls| + 1
    decreases |ls|
  {
    if ls == [] then [Abs(c, s)] else Shadow(c, s, ls[..|ls| - 1]) + [Abs(c, Exec(c, s, ls))]
  }

  /** Refinement over whole runs, and what it buys: after any run of any number
      of workers, each accepted row is in the table or has been delivered. */
  lemma {:induction false} RunsAreMailboxRuns(c: Config, ws: set<WorkerId>, ls: seq<Label>, s: State)
    requires c.codec.Lawful() && Run(c, Start(ws), ls, s)
    ensures Behaviour(Shadow(c, Start(ws), ls))
    ensures Shadow(c, Start(ws), ls)[|ls|] == Abs(c, s)
    ensures Kept(Abs(c, s))
    decreases |ls|
  {
    if ls != [] {
      var mid := LastStep(c, Start(ws), ls, s);
      RunsAreMailboxRuns(c, ws, ls[..|ls| - 1], mid);
      RunIsSafe(c, ws, ls[..|ls| - 1], mid);
      StepSimulates(c, mid, ls[|ls| - 1]);
    }
    BehavioursKeep(Shadow(c, Start(ws), ls), |ls|);
  }
}
