/** What every interleaving of any number of workers keeps: rows keep their
    identity and parse back to their event, the broker log holds only messages
    at the routed destination, and nothing accepted is lost. */
module Safety {
  import opened Domain
  import opened Routing
  import opened Protocol

  ghost predicate SameIdentity(a: Row, b: Row) {
    a.id == b.id && a.eventId == b.eventId && a.eventType == b.eventType
    && a.payload == b.payload && a.createdAt == b.createdAt
  }

  ghost predicate RowSound(s: State, id: nat) {
    id in s.table ==> id < |s.past| && SameIdentity(s.table[id], s.past[id].born)
  }

  ghost predicate BornSound(c: Config, s: State, id: nat)
    requires id < |s.past|
  {
    var h := s.past[id];
    c.codec.encode(h.source) == Some(h.born.payload)
    && h.born == NewRow(id, h.source, h.born.payload, h.born.createdAt)
  }

  ghost predicate SnapSound(s: State, snap: seq<Row>) {
    && (forall k :: 0 <= k < |snap| ==>
          snap[k].id < |s.past| && SameIdentity(snap[k], s.past[snap[k].id].born) && snap[k].status.Pending?)
    && (forall j, k :: 0 <= j < k < |snap| ==> snap[j].id != snap[k].id)
  }

  ghost predicate PcSound(c: Config, s: State, pc: Pc) {
    pc.Busy? ==>
      && pc.i <= |pc.snap|
      && (!pc.stage.Entry? ==> pc.i < |pc.snap|)
      && !pc.stage.Broken?
      && SnapSound(s, pc.snap)
      && (pc.stage.Sending? ==> c.codec.decode(Current(pc).payload) == Some(pc.stage.event))
  }

  ghost predicate Shape(c: Config, s: State) {
    && (forall id: nat :: RowSound(s, id))
    && (forall id: nat :: id < |s.past| ==> BornSound(c, s, id))
    && (forall w :: w in s.workers ==> PcSound(c, s, s.workers[w]))
  }

  /** The stored payload parses, and the parsed event has the row's ID and type. */
  lemma BornParses(c: Config, s: State, id: nat)
    requires c.codec.Lawful() && id < |s.past| && BornSound(c, s, id)
    ensures c.codec.decode(s.past[id].born.payload).Some?
    ensures c.codec.decode(s.past[id].born.payload).value.id == s.past[id].born.eventId
    ensures c.codec.decode(s.past[id].born.payload).value.typ == s.past[id].born.eventType
  {
    var e := s.past[id].source;
    assert c.codec.encode(e).Some?;
  }

  lemma BirthKept(c: Config, s: State, l: Label, id: nat)
    requires Enabled(c, s, l) && id < |s.past|
    ensures id < |Apply(c, s, l).past|
    ensures Apply(c, s, l).past[id].born == s.past[id].born
    ensures Apply(c, s, l).past[id].source == s.past[id].source
  {
    assert NextPast(c, s, l)[id] == NextHistory(c, s, l, id);
  }

  lemma NewBirth(c: Config, s: State, e: Event, at: int)
    requires Enabled(c, s, Insert(e, at))
    ensures
      var past := Apply(c, s, Insert(e, at)).past;
      |past| == |s.past| + 1 &&
      past[|s.past|] == History(e, NewRow(|s.past|, e, c.codec.encode(e).value, at), 0, 0, 0, 0, 0, 0, false)
  {
  }

  lemma RowSoundStep(c: Config, s: State, l: Label, id: nat)
    requires Shape(c, s) && Enabled(c, s, l)
    ensures RowSound(Apply(c, s, l), id)
  {
    assert RowSound(s, id);
    if id < |s.past| { BirthKept(c, s, l, id); }
    if l.Insert? { NewBirth(c, s, l.event, l.at); }
  }

  lemma BornSoundStep(c: Config, s: State, l: Label, id: nat)
    requires Shape(c, s) && Enabled(c, s, l) && id < |Apply(c, s, l).past|
    ensures BornSound(c, Apply(c, s, l), id)
  {
    if id < |s.past| {
      assert BornSound(c, s, id);
      BirthKept(c, s, l, id);
    } else {
      NewBirth(c, s, l.event, l.at);
    }
  }

  lemma SnapSoundStep(c: Config, s: State, l: Label, snap: seq<Row>)
    requires Enabled(c, s, l) && SnapSound(s, snap)
    ensures SnapSound(Apply(c, s, l), snap)
  {
    forall k | 0 <= k < |snap|
      ensures snap[k].id < |Apply(c, s, l).past|
      ensures SameIdentity(snap[k], Apply(c, s, l).past[snap[k].id].born)
    {
      BirthKept(c, s, l, snap[k].id);
    }
  }

  lemma FetchedSound(c: Config, s: State, snap: seq<Row>)
    requires Shape(c, s) && OldestPending(s.table, c.batch, snap)
    ensures SnapSound(s, snap)
  {
    forall k | 0 <= k < |snap|
      ensures snap[k].id < |s.past| && SameIdentity(snap[k], s.past[snap[k].id].born)
    {
      assert IsPending(s.table, snap[k].id);
      assert RowSound(s, snap[k].id);
    }
  }

  lemma PcSoundStep(c: Config, s: State, l: Label, w: WorkerId)
    requires c.codec.Lawful() && Shape(c, s) && Enabled(c, s, l) && w in Apply(c, s, l).workers
    ensures PcSound(c, Apply(c, s, l), Apply(c, s, l).workers[w])
  {
    assert PcSound(c, s, s.workers[w]);
    var pc' := Apply(c, s, l).workers[w];
    if l.Fetch? && l.w == w { FetchedSound(c, s, l.snap); }
    if pc'.Busy? { SnapSoundStep(c, s, l, pc'.snap); }
    if l.Parse? && l.w == w {
      var row := CurrentOf(s, w);
      assert BornSound(c, s, row.id);
      BornParses(c, s, row.id);
    }
  }

  lemma ShapeStep(c: Config, s: State, l: Label)
    requires c.codec.Lawful() && Shape(c, s) && Enabled(c, s, l)
    ensures Shape(c, Apply(c, s, l))
  {
    forall id: nat ensures RowSound(Apply(c, s, l), id) { RowSoundStep(c, s, l, id); }
    forall id: nat | id < |Apply(c, s, l).past| ensures BornSound(c, Apply(c, s, l), id) { BornSoundStep(c, s, l, id); }
    forall w | w in Apply(c, s, l).workers ensures PcSound(c, Apply(c, s, l), Apply(c, s, l).workers[w]) {
      PcSoundStep(c, s, l, w);
    }
  }

  lemma NeverBroken(c: Config, s: State, l: Label)
    requires Shape(c, s) && Enabled(c, s, l)
    ensures !l.Skip?
  {
    assert l.Skip? ==> PcSound(c, s, s.workers[l.w]);
  }

  // ---- nothing is lost ----

  /** Messages of one row in the broker log. */
  ghost function Deliveries(log: seq<Message>, id: nat): nat {
    if log == [] then 0
    else Deliveries(log[..|log| - 1], id) + if log[|log| - 1].row == id then 1 else 0
  }

  lemma DeliveriesAppend(log: seq<Message>, m: Message, id: nat)
    ensures Deliveries(log + [m], id) == Deliveries(log, id) + if m.row == id then 1 else 0
  {
    assert (log + [m])[..|log|] == log;
  }

  ghost predicate RowDelivered(s: State, id: nat)
    requires id < |s.past|
  {
    var h := s.past[id];
    && Deliveries(s.log, id) == h.acks + h.ambiguous
    && (id !in s.table ==> h.acks > 0)
    && (id in s.table && s.table[id].status.Published? ==> s.table[id].publishedAt.Some?)
    && (id in s.table && s.table[id].publishedAt.Some? ==> h.acks > 0)
  }

  ghost predicate PcDelivered(s: State, pc: Pc) {
    pc.Busy? && pc.stage.Sent? && pc.i < |pc.snap| && Current(pc).id < |s.past| ==> s.past[Current(pc).id].acks > 0
  }

  /** A message carries the event its row was stored as, at the destination the
      routing gives that event's type, through a client that can reach it. */
  ghost predicate MessageSound(c: Config, s: State, m: Message) {
    && m.row < |s.past|
    && c.codec.decode(s.past[m.row].born.payload) == Some(m.event)
    && m.event.typ == s.past[m.row].born.eventType
    && m.dest == Resolve(c.routing, m.event.typ)
    && Speaks(c.client, m.dest)
  }

  ghost predicate NothingLost(c: Config, s: State) {
    && (forall id: nat :: id < |s.past| ==> RowDelivered(s, id))
    && (forall w :: w in s.workers ==> PcDelivered(s, s.workers[w]))
    && (forall k :: 0 <= k < |s.log| ==> MessageSound(c, s, s.log[k]))
  }

  lemma HistoryGrows(c: Config, s: State, l: Label, id: nat)
    requires Enabled(c, s, l) && id < |s.past|
    ensures id < |Apply(c, s, l).past|
    ensures
      var h, h' := s.past[id], Apply(c, s, l).past[id];
      && h.rounds <= h'.rounds && h.incrs <= h'.incrs && h.snaps <= h'.snaps && h.acks <= h'.acks
      && h.ambiguous <= h'.ambiguous && h.lostMarks <= h'.lostMarks && (h.gaveUp ==> h'.gaveUp)
  {
    assert NextPast(c, s, l)[id] == NextHistory(c, s, l, id);
  }

  lemma {:induction false} NoneForRow(log: seq<Message>, id: nat)
    requires forall k :: 0 <= k < |log| ==> log[k].row != id
    ensures Deliveries(log, id) == 0
  {
    if log != [] { NoneForRow(log[..|log| - 1], id); }
  }

  lemma NewRowUnsent(c: Config, s: State, id: nat)
    requires NothingLost(c, s) && id >= |s.past|
    ensures Deliveries(s.log, id) == 0
  {
    forall k | 0 <= k < |s.log| ensures s.log[k].row != id { assert MessageSound(c, s, s.log[k]); }
    NoneForRow(s.log, id);
  }

  lemma DeliveriesStep(c: Config, s: State, l: Label, id: nat)
    requires Shape(c, s) && NothingLost(c, s) && Enabled(c, s, l) && id < |Apply(c, s, l).past|
    ensures Deliveries(Apply(c, s, l).log, id) == Apply(c, s, l).past[id].acks + Apply(c, s, l).past[id].ambiguous
  {
    if id < |s.past| {
      assert RowDelivered(s, id);
      assert NextPast(c, s, l)[id] == NextHistory(c, s, l, id);
      if l.Attempt? && !l.outcome.Refused? {
        var e := s.workers[l.w].stage.event;
        DeliveriesAppend(s.log, Message(CurrentOf(s, l.w).id, Resolve(c.routing, e.typ), e), id);
      }
    } else {
      NewBirth(c, s, l.event, l.at);
      NewRowUnsent(c, s, id);
    }
  }

  lemma TableDeliveredStep(c: Config, s: State, l: Label, id: nat)
    requires Shape(c, s) && NothingLost(c, s) && Enabled(c, s, l) && id < |s.past|
    ensures
      var t := NextTable(c, s, l);
      && (id !in t ==> s.past[id].acks > 0)
      && (id in t && t[id].status.Published? ==> t[id].publishedAt.Some?)
      && (id in t && t[id].publishedAt.Some? ==> s.past[id].acks > 0)
  {
    assert RowDelivered(s, id);
    if l.Mark? { assert PcDelivered(s, s.workers[l.w]); }
  }

  lemma RowDeliveredStep(c: Config, s: State, l: Label, id: nat)
    requires Shape(c, s) && NothingLost(c, s) && Enabled(c, s, l) && id < |Apply(c, s, l).past|
    ensures RowDelivered(Apply(c, s, l), id)
  {
    DeliveriesStep(c, s, l, id);
    if id < |s.past| {
      TableDeliveredStep(c, s, l, id);
      HistoryGrows(c, s, l, id);
    } else {
      NewBirth(c, s, l.event, l.at);
    }
  }

  lemma SentOrigin(c: Config, s: State, l: Label, w: WorkerId)
    requires Enabled(c, s, l) && w in Apply(c, s, l).workers
    requires Apply(c, s, l).workers[w].Busy? && Apply(c, s, l).workers[w].stage.Sent?
    ensures w in s.workers
    ensures
      var pc, pc' := s.workers[w], Apply(c, s, l).workers[w];
      pc.Busy? && pc'.snap == pc.snap && pc'.i == pc.i && (pc.stage.Sent? || l == Attempt(w, Acked))
  {
  }

  lemma PcDeliveredStep(c: Config, s: State, l: Label, w: WorkerId)
    requires Shape(c, s) && NothingLost(c, s) && Enabled(c, s, l) && w in Apply(c, s, l).workers
    ensures PcDelivered(Apply(c, s, l), Apply(c, s, l).workers[w])
  {
    var pc, pc' := s.workers[w], Apply(c, s, l).workers[w];
    assert PcSound(c, s, pc) && PcDelivered(s, pc);
    if pc'.Busy? && pc'.stage.Sent? {
      SentOrigin(c, s, l, w);
      HistoryGrows(c, s, l, Current(pc).id);
      assert NextPast(c, s, l)[Current(pc).id] == NextHistory(c, s, l, Current(pc).id);
    }
  }

  lemma MessageSoundStep(c: Config, s: State, l: Label, k: nat)
    requires c.codec.Lawful() && Shape(c, s) && NothingLost(c, s) && Enabled(c, s, l) && k < |Apply(c, s, l).log|
    ensures MessageSound(c, Apply(c, s, l), Apply(c, s, l).log[k])
  {
    var m := Apply(c, s, l).log[k];
    if k < |s.log| {
      assert m == s.log[k] && MessageSound(c, s, m);
    } else {
      assert PcSound(c, s, s.workers[l.w]);
      assert BornSound(c, s, m.row);
      BornParses(c, s, m.row);
    }
    BirthKept(c, s, l, m.row);
  }

  lemma NothingLostStep(c: Config, s: State, l: Label)
    requires c.codec.Lawful() && Shape(c, s) && NothingLost(c, s) && Enabled(c, s, l)
    ensures NothingLost(c, Apply(c, s, l))
  {
    var s' := Apply(c, s, l);
    forall id: nat | id < |s'.past| ensures RowDelivered(s', id) { RowDeliveredStep(c, s, l, id); }
    forall w | w in s'.workers ensures PcDelivered(s', s'.workers[w]) { PcDeliveredStep(c, s, l, w); }
    forall k | 0 <= k < |s'.log| ensures MessageSound(c, s', s'.log[k]) { MessageSoundStep(c, s, l, k); }
  }

  /** Every reachable state of any number of workers. */
  lemma {:induction false} RunIsSafe(c: Config, ws: set<WorkerId>, ls: seq<Label>, s: State)
    requires c.codec.Lawful() && Run(c, Start(ws), ls, s)
    ensures Shape(c, s) && NothingLost(c, s)
    decreases |ls|
  {
    if ls != [] {
      var mid := LastStep(c, Start(ws), ls, s);
      RunIsSafe(c, ws, ls[..|ls| - 1], mid);
      ShapeStep(c, mid, ls[|ls| - 1]);
      NothingLostStep(c, mid, ls[|ls| - 1]);
    }
  }

  /** No run ever takes the branch for a payload that does not parse. */
  lemma {:induction false} EveryPayloadParses(c: Config, ws: set<WorkerId>, ls: seq<Label>, s: State, k: nat)
    requires c.codec.Lawful() && Run(c, Start(ws), ls, s) && k < |ls|
    ensures !ls[k].Skip?
    decreases |ls|
  {
    var mid := LastStep(c, Start(ws), ls, s);
    if k < |ls| - 1 {
      EveryPayloadParses(c, ws, ls[..|ls| - 1], mid, k);
    } else {
      RunIsSafe(c, ws, ls[..|ls| - 1], mid);
      NeverBroken(c, mid, ls[k]);
    }
  }
}
