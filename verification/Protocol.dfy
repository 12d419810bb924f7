/** The outbox delivery protocol as a labelled state machine: one shared table,
    one broker, and any number of workers whose reads and writes interleave. */
module Protocol {
  import opened Domain
  import opened Routing

  datatype Client = KafkaClient | RabbitClient

  datatype Config = Config(routing: RoutingConfig, client: Client, codec: Codec, batch: int)

  type WorkerId = nat

  datatype Message = Message(row: nat, dest: Dest, event: Event)

  /** What has happened to one row since it was inserted. It outlives the row.
      `born` is the row as inserted and `source` the event it was made from. */
  datatype History = History(
    source: Event,
    born: Row,
    rounds: nat,      // publish rounds that ended in an error
    incrs: nat,       // committed retry-count increments
    snaps: nat,       // fetched batches that contained the row
    acks: nat,        // sends the broker acknowledged
    ambiguous: nat,   // sends that handed the message over but returned an error
    lostMarks: nat,   // acknowledged sends whose PUBLISHED mark never committed
    gaveUp: bool)     // a FAILED mark has committed

  /** Where a worker stands with the entry it is working on. */
  datatype Stage =
    | Entry                  // about to parse
    | Broken                 // the payload did not parse
    | Sending(event: Event)  // inside the publish retry loop
    | Errored                // the retry loop returned an error
    | Judging                // about to compare the retry count with the budget
    | Sent                   // acknowledged, not yet marked

  datatype Pc = Idle | Busy(snap: seq<Row>, i: nat, stage: Stage)

  datatype Outcome = Acked | Ambiguous | Refused

  /** Row ids are positions in `past`: ids grow and are never given out twice. */
  datatype State = State(
    table: map<nat, Row>,
    past: seq<History>,
    log: seq<Message>,
    workers: map<WorkerId, Pc>)

  datatype Label =
    | Insert(event: Event, at: int)
    | Cleanup(cutoff: int)
    | Fetch(w: WorkerId, snap: seq<Row>)
    | Finish(w: WorkerId)
    | Parse(w: WorkerId)
    | Skip(w: WorkerId, commits: bool)
    | Attempt(w: WorkerId, outcome: Outcome)
    | GiveUp(w: WorkerId)
    | Increment(w: WorkerId, commits: bool)
    | Judge(w: WorkerId, commits: bool)
    | Mark(w: WorkerId, commits: bool, now: int)
    | Crash(w: WorkerId)

  // ---- the table updates, one per repository call ----

  function NewRow(id: nat, e: Event, payload: string, at: int): Row {
    Row(id, e.id, e.typ, payload, Pending, 0, at, None)
  }

  function Bumped(t: map<nat, Row>, id: nat): map<nat, Row> {
    if id in t then t[id := t[id].(retryCount := t[id].retryCount + 1)] else t
  }

  function MarkedFailed(t: map<nat, Row>, id: nat): map<nat, Row> {
    if id in t then t[id := t[id].(status := Failed)] else t
  }

  function MarkedPublished(t: map<nat, Row>, id: nat, now: int): map<nat, Row> {
    if id in t then t[id := t[id].(status := Published, publishedAt := Some(now))] else t
  }

  predicate Expired(row: Row, cutoff: int) {
    row.status.Published? && row.publishedAt.Some? && row.publishedAt.value < cutoff
  }

  function Cleaned(t: map<nat, Row>, cutoff: int): map<nat, Row> {
    map id | id in t && !Expired(t[id], cutoff) :: t[id]
  }

  // ---- the pending query ----

  predicate IsPending(t: map<nat, Row>, id: nat) {
    id in t && t[id].status.Pending?
  }

  ghost predicate Holds(snap: seq<Row>, id: nat) {
    exists k :: 0 <= k < |snap| && snap[k].id == id
  }

  /** Any answer SQL may give to "the `limit` oldest PENDING rows": ties on the
      creation time fall in any order. */
  ghost predicate OldestPending(t: map<nat, Row>, limit: int, snap: seq<Row>) {
    && 0 <= |snap| <= limit
    && (forall k :: 0 <= k < |snap| ==> IsPending(t, snap[k].id) && t[snap[k].id] == snap[k])
    && (forall j, k :: 0 <= j < k < |snap| ==> snap[j].id != snap[k].id && snap[j].createdAt <= snap[k].createdAt)
    && (forall id :: IsPending(t, id) && !Holds(snap, id) ==>
          |snap| == limit && forall k :: 0 <= k < |snap| ==> snap[k].createdAt <= t[id].createdAt)
  }

  // ---- steps ----

  predicate Speaks(client: Client, dest: Dest) {
    match client
    case KafkaClient => dest.Topic?
    case RabbitClient => dest.Exchange?
  }

  ghost predicate At(s: State, w: WorkerId, stage: Stage) {
    && w in s.workers && s.workers[w].Busy?
    && s.workers[w].i < |s.workers[w].snap|
    && s.workers[w].stage == stage
  }

  ghost predicate AtSending(s: State, w: WorkerId) {
    && w in s.workers && s.workers[w].Busy?
    && s.workers[w].i < |s.workers[w].snap|
    && s.workers[w].stage.Sending?
  }

  ghost predicate Enabled(c: Config, s: State, l: Label) {
    match l
    case Insert(e, _) => c.codec.encode(e).Some?
    case Cleanup(_) => true
    case Fetch(w, snap) => w in s.workers && s.workers[w].Idle? && OldestPending(s.table, c.batch, snap)
    case Finish(w) =>
      w in s.workers && s.workers[w].Busy? && s.workers[w].stage.Entry? && s.workers[w].i == |s.workers[w].snap|
    case Parse(w) => At(s, w, Entry)
    case Skip(w, _) => At(s, w, Broken)
    case Attempt(w, o) =>
      AtSending(s, w) && (o.Refused? || Speaks(c.client, Resolve(c.routing, s.workers[w].stage.event.typ)))
    case GiveUp(w) => AtSending(s, w)
    case Increment(w, _) => At(s, w, Errored)
    case Judge(w, _) => At(s, w, Judging)
    case Mark(w, _, _) => At(s, w, Sent)
    case Crash(w) => w in s.workers
  }

  /** The row a busy worker is on, as it was when the batch was fetched. */
  ghost function Current(pc: Pc): Row
    requires pc.Busy? && pc.i < |pc.snap|
  {
    pc.snap[pc.i]
  }

  /** The limit test reads the fetched retry count, not the table's. */
  ghost predicate Exhausted(c: Config, row: Row) {
    row.retryCount >= MaxRetries(c.routing, row.eventType)
  }

  ghost predicate OnRow(pc: Pc, stage: Stage, id: nat) {
    pc.Busy? && pc.stage == stage && pc.i < |pc.snap| && Current(pc).id == id
  }

  /** The worker is on this row or still has it ahead of it. */
  ghost predicate Remains(pc: Pc, id: nat) {
    pc.Busy? && exists k :: pc.i <= k < |pc.snap| && pc.snap[k].id == id
  }

  ghost predicate AllIdle(s: State) {
    forall w :: w in s.workers ==> s.workers[w].Idle?
  }

  ghost function NextTable(c: Config, s: State, l: Label): map<nat, Row>
    requires Enabled(c, s, l)
  {
    match l
    case Insert(e, at) => s.table[|s.past| := NewRow(|s.past|, e, c.codec.encode(e).value, at)]
    case Cleanup(cutoff) => Cleaned(s.table, cutoff)
    case Skip(w, commits) => if commits then Bumped(s.table, Current(s.workers[w]).id) else s.table
    case Increment(w, commits) => if commits then Bumped(s.table, Current(s.workers[w]).id) else s.table
    case Judge(w, commits) =>
      if commits && Exhausted(c, Current(s.workers[w])) then MarkedFailed(s.table, Current(s.workers[w]).id)
      else s.table
    case Mark(w, commits, now) =>
      if commits then MarkedPublished(s.table, Current(s.workers[w]).id, now) else s.table
    case _ => s.table
  }

  ghost function CurrentOf(s: State, w: WorkerId): Row
    requires w in s.workers && s.workers[w].Busy? && s.workers[w].i < |s.workers[w].snap|
  {
    Current(s.workers[w])
  }

  function Staged(pc: Pc, stage: Stage): Pc
    requires pc.Busy?
  {
    pc.(stage := stage)
  }

  function Advanced(pc: Pc): Pc
    requires pc.Busy?
  {
    Busy(pc.snap, pc.i + 1, Entry)
  }

  ghost function NextWorkers(c: Config, s: State, l: Label): map<WorkerId, Pc>
    requires Enabled(c, s, l)
  {
    match l
    case Insert(_, _) => s.workers
    case Cleanup(_) => s.workers
    case Fetch(w, snap) => s.workers[w := Busy(snap, 0, Entry)]
    case Finish(w) => s.workers[w := Idle]
    case Parse(w) =>
      (match c.codec.decode(CurrentOf(s, w).payload)
       case Some(e) => s.workers[w := Staged(s.workers[w], Sending(e))]
       case None => s.workers[w := Staged(s.workers[w], Broken)])
    case Skip(w, _) => s.workers[w := Advanced(s.workers[w])]
    case Attempt(w, o) => if o.Acked? then s.workers[w := Staged(s.workers[w], Sent)] else s.workers
    case GiveUp(w) => s.workers[w := Staged(s.workers[w], Errored)]
    case Increment(w, _) => s.workers[w := Staged(s.workers[w], Judging)]
    case Judge(w, _) => s.workers[w := Advanced(s.workers[w])]
    case Mark(w, _, _) => s.workers[w := Advanced(s.workers[w])]
    case Crash(w) => s.workers[w := Idle]
  }

  ghost function NextLog(c: Config, s: State, l: Label): seq<Message>
    requires Enabled(c, s, l)
  {
    match l
    case Attempt(w, o) =>
      if o.Refused? then s.log
      else
        var e := s.workers[w].stage.event;
        s.log + [Message(CurrentOf(s, w).id, Resolve(c.routing, e.typ), e)]
    case _ => s.log
  }

  /** What a step adds to the history of the row it is about. */
  ghost function Told(c: Config, s: State, l: Label, h: History): History
    requires Enabled(c, s, l)
  {
    match l
    case Skip(_, commits) => if commits then h.(incrs := h.incrs + 1) else h
    case Attempt(_, o) =>
      (match o
       case Acked => h.(acks := h.acks + 1)
       case Ambiguous => h.(ambiguous := h.ambiguous + 1)
       case Refused => h)
    case GiveUp(_) => h.(rounds := h.rounds + 1)
    case Increment(_, commits) => if commits then h.(incrs := h.incrs + 1) else h
    case Judge(w, commits) => if commits && Exhausted(c, CurrentOf(s, w)) then h.(gaveUp := true) else h
    case Mark(_, commits, _) => if commits then h else h.(lostMarks := h.lostMarks + 1)
    case Crash(w) => if At(s, w, Sent) then h.(lostMarks := h.lostMarks + 1) else h
    case _ => h
  }

  ghost predicate About(s: State, l: Label, id: nat) {
    match l
    case Insert(_, _) => false
    case Cleanup(_) => false
    case Fetch(_, snap) => false
    case Finish(_) => false
    case _ =>
      && l.w in s.workers && s.workers[l.w].Busy? && s.workers[l.w].i < |s.workers[l.w].snap|
      && CurrentOf(s, l.w).id == id
  }

  ghost function NextHistory(c: Config, s: State, l: Label, id: nat): History
    requires Enabled(c, s, l) && id < |s.past|
  {
    var h := s.past[id];
    if l.Fetch? && Holds(l.snap, id) then h.(snaps := h.snaps + 1)
    else if About(s, l, id) then Told(c, s, l, h)
    else h
  }

  ghost function NextPast(c: Config, s: State, l: Label): (past: seq<History>)
    requires Enabled(c, s, l)
    ensures |past| == |s.past| + if l.Insert? then 1 else 0
    ensures forall id :: 0 <= id < |s.past| ==> past[id] == NextHistory(c, s, l, id)
  {
    seq(|s.past|, id requires 0 <= id < |s.past| => NextHistory(c, s, l, id)) +
    (match l
     case Insert(e, at) =>
       [History(e, NewRow(|s.past|, e, c.codec.encode(e).value, at), 0, 0, 0, 0, 0, 0, false)]
     case _ => [])
  }

  ghost function Apply(c: Config, s: State, l: Label): State
    requires Enabled(c, s, l)
  {
    State(NextTable(c, s, l), NextPast(c, s, l), NextLog(c, s, l), NextWorkers(c, s, l))
  }

  // ---- runs ----

  ghost predicate Legal(c: Config, s: State, ls: seq<Label>)
    decreases |ls|, 0
  {
    ls == [] || (Legal(c, s, ls[..|ls| - 1]) && Enabled(c, Exec(c, s, ls[..|ls| - 1]), ls[|ls| - 1]))
  }

  /** The state a legal run ends in. */
  ghost function Exec(c: Config, s: State, ls: seq<Label>): State
    requires Legal(c, s, ls)
    decreases |ls|, 1
  {
    if ls == [] then s else Apply(c, Exec(c, s, ls[..|ls| - 1]), ls[|ls| - 1])
  }

  /** The labels `ls` lead from `s` to `s'`. */
  ghost predicate Run(c: Config, s: State, ls: seq<Label>, s': State) {
    Legal(c, s, ls) && Exec(c, s, ls) == s'
  }

  /** An empty system whose workers are all idle. */
  function Start(ws: set<WorkerId>): State {
    State(map[], [], [], map w | w in ws :: Idle)
  }

  lemma LastStep(c: Config, s: State, ls: seq<Label>, s': State) returns (mid: State)
    requires Run(c, s, ls, s') && ls != []
    ensures Run(c, s, ls[..|ls| - 1], mid)
    ensures Enabled(c, mid, ls[|ls| - 1]) && s' == Apply(c, mid, ls[|ls| - 1])
  {
    mid := Exec(c, s, ls[..|ls| - 1]);
  }

  lemma Extend(c: Config, s: State, ls: seq<Label>, s': State, l: Label)
    requires Run(c, s, ls, s') && Enabled(c, s', l)
    ensures Run(c, s, ls + [l], Apply(c, s', l))
  {
    assert (ls + [l])[..|ls|] == ls;
  }

  /** Running `xs` and then `ys` is running `xs + ys`. */
  lemma {:induction false} Chain(c: Config, s: State, xs: seq<Label>, mid: State, ys: seq<Label>, s': State)
    requires Run(c, s, xs, mid) && Run(c, mid, ys, s')
    ensures Run(c, s, xs + ys, s')
    decreases |ys|
  {
    if ys == [] {
      assert xs + ys == xs;
    } else {
      var front, l := ys[..|ys| - 1], ys[|ys| - 1];
      var last := LastStep(c, mid, ys, s');
      Chain(c, s, xs, mid, front, last);
      Extend(c, s, xs + front, last, l);
      assert xs + front + [l] == xs + ys;
    }
  }
}
