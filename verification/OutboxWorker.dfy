/** The background processor, statement by statement, proved to perform exactly
    the protocol steps prescribed by what its environment does. */
module OutboxWorker {
  import opened Domain
  import opened Routing
  import opened Protocol
  import opened Faults
  import opened Budget
  import opened Counting
  import opened Draining
  import opened Outbox
  import opened Effects

  /** What the environment does during one call: whether the fetch fails, and the
      round of each entry. */
  datatype Call = Call(fetchFails: bool, rounds: nat -> Round)

  function Actual(client: Client, dest: Dest, wish: Outcome): Outcome {
    if Speaks(client, dest) then wish else Refused
  }

  /** Only the exact broker name "rabbitmq" leads to an exchange, and only the client of
      that broker gets an answer; with the other one every try is refused. */
  lemma ActualIs(c: Config, typ: string, wish: Outcome)
    ensures
      Actual(c.client, Resolve(c.routing, typ), wish) ==
      if (BrokerFor(c.routing, typ) == "rabbitmq") == c.client.RabbitClient? then wish else Refused
    ensures
      Resolve(c.routing, typ) ==
      if BrokerFor(c.routing, typ) == "rabbitmq"
      then Exchange(ExchangeFor(c.routing, typ), RoutingKeyFor(c.routing, typ)) else Topic(TopicFor(c.routing, typ))
  {
  }

  function Acks(client: Client, dest: Dest, attempts: seq<Outcome>): bool {
    attempts != [] && (Actual(client, dest, attempts[0]).Acked? || Acks(client, dest, attempts[1..]))
  }

  function AttemptLabels(w: WorkerId, client: Client, dest: Dest, attempts: seq<Outcome>): seq<Label> {
    if attempts == [] then []
    else
      var o := Actual(client, dest, attempts[0]);
      [Attempt(w, o)] + if o.Acked? then [] else AttemptLabels(w, client, dest, attempts[1..])
  }

  /** The protocol steps of one entry. */
  function EntryLabels(c: Config, w: WorkerId, row: Row, r: Round): seq<Label> {
    match c.codec.decode(row.payload)
    case None => [Parse(w), Skip(w, r.increment.Lands())]
    case Some(e) =>
      var dest := Resolve(c.routing, e.typ);
      [Parse(w)] + AttemptLabels(w, c.client, dest, r.attempts) +
      if Acks(c.client, dest, r.attempts) then [Mark(w, r.mark.Lands(), r.now)]
      else [GiveUp(w), Increment(w, r.increment.Lands()), Judge(w, r.mark.Lands())]
  }

  function BatchLabels(c: Config, w: WorkerId, rows: seq<Row>, rounds: nat -> Round): seq<Label> {
    if rows == [] then []
    else BatchLabels(c, w, rows[..|rows| - 1], rounds) + EntryLabels(c, w, rows[|rows| - 1], rounds(|rows| - 1))
  }

  function CallLabels(c: Config, w: WorkerId, rows: seq<Row>, rounds: nat -> Round): seq<Label> {
    [Fetch(w, rows)] + BatchLabels(c, w, rows, rounds) + [Finish(w)]
  }

  lemma AttemptTaken(c: Config, s0: State, tr: seq<Label>, s: State, w: WorkerId, e: Event, o: Outcome)
    returns (s': State)
    requires Run(c, s0, tr, s) && At(s, w, Sending(e))
    requires o.Refused? || Speaks(c.client, Resolve(c.routing, e.typ))
    ensures Run(c, s0, tr + [Attempt(w, o)], s')
    ensures s'.table == s.table && |s'.past| == |s.past|
    ensures s'.log == if o.Refused? then s.log else s.log + [Message(CurrentOf(s, w).id, Resolve(c.routing, e.typ), e)]
    ensures s'.workers == if o.Acked? then s.workers[w := Staged(s.workers[w], Sent)] else s.workers
  {
    Extend(c, s0, tr, s, Attempt(w, o));
    s' := Apply(c, s, Attempt(w, o));
  }

  lemma ParseTaken(c: Config, s0: State, w: WorkerId) returns (s': State)
    requires At(s0, w, Entry)
    ensures Run(c, s0, [Parse(w)], s')
    ensures s'.table == s0.table && |s'.past| == |s0.past| && s'.log == s0.log
    ensures
      s'.workers == s0.workers[w := Staged(s0.workers[w],
        match c.codec.decode(CurrentOf(s0, w).payload) case Some(e) => Sending(e) case None => Broken)]
  {
    Extend(c, s0, [], s0, Parse(w));
    assert [] + [Parse(w)] == [Parse(w)];
    s' := Apply(c, s0, Parse(w));
  }

  lemma SkipTaken(c: Config, s0: State, s: State, w: WorkerId, commits: bool) returns (s': State)
    requires Run(c, s0, [Parse(w)], s) && At(s, w, Broken)
    ensures Run(c, s0, [Parse(w), Skip(w, commits)], s')
    ensures s'.table == if commits then Bumped(s.table, CurrentOf(s, w).id) else s.table
    ensures |s'.past| == |s.past| && s'.log == s.log && s'.workers == s.workers[w := Advanced(s.workers[w])]
  {
    Extend(c, s0, [Parse(w)], s, Skip(w, commits));
    assert [Parse(w)] + [Skip(w, commits)] == [Parse(w), Skip(w, commits)];
    s' := Apply(c, s, Skip(w, commits));
  }

  /** The send steps of an entry, and what completes them to all its steps. */
  lemma EntrySent(
    c: Config, w: WorkerId, entry: Row, e: Event, r: Round, s0: State, s: State, sent: seq<Label>, s1: State)
    requires c.codec.decode(entry.payload) == Some(e) && Run(c, s0, [Parse(w)], s) && Run(c, s, sent, s1)
    requires sent == AttemptLabels(w, c.client, Resolve(c.routing, e.typ), r.attempts)
    ensures Run(c, s0, [Parse(w)] + sent, s1)
    ensures
      EntryLabels(c, w, entry, r) ==
      [Parse(w)] + sent +
      if Acks(c.client, Resolve(c.routing, e.typ), r.attempts) then [Mark(w, r.mark.Lands(), r.now)]
      else [GiveUp(w), Increment(w, r.increment.Lands()), Judge(w, r.mark.Lands())]
  {
    Chain(c, s0, [Parse(w)], s, sent, s1);
  }

  lemma LastUpdateCounts(workers: map<WorkerId, Pc>, w: WorkerId, a: Pc, b: Pc)
    ensures workers[w := a][w := b] == workers[w := b]
    ensures w in workers && workers[w] == b ==> workers[w := b] == workers
  {
  }

  /** The mark after a send that left only the stage of the worker changed. */
  lemma MarkTaken(
    c: Config, s0: State, tr: seq<Label>, s: State, before: map<WorkerId, Pc>, w: WorkerId, r: Round)
    returns (s': State)
    requires w in before && before[w].Busy? && s.workers == before[w := Staged(before[w], Sent)]
    requires Run(c, s0, tr, s) && At(s, w, Sent)
    ensures Run(c, s0, tr + [Mark(w, r.mark.Lands(), r.now)], s')
    ensures s'.table == if r.mark.Lands() then MarkedPublished(s.table, CurrentOf(s, w).id, r.now) else s.table
    ensures |s'.past| == |s.past| && s'.log == s.log && s'.workers == before[w := Advanced(before[w])]
  {
    Extend(c, s0, tr, s, Mark(w, r.mark.Lands(), r.now));
    s' := Apply(c, s, Mark(w, r.mark.Lands(), r.now));
    LastUpdateCounts(before, w, Staged(before[w], Sent), Advanced(before[w]));
  }

  lemma CountTaken(c: Config, s0: State, tr: seq<Label>, s: State, w: WorkerId, e: Event, commits: bool)
    returns (s': State)
    requires Run(c, s0, tr, s) && At(s, w, Sending(e))
    ensures Run(c, s0, tr + [GiveUp(w)] + [Increment(w, commits)], s')
    ensures s'.table == if commits then Bumped(s.table, CurrentOf(s, w).id) else s.table
    ensures |s'.past| == |s.past| && s'.log == s.log && s'.workers == s.workers[w := Staged(s.workers[w], Judging)]
  {
    Extend(c, s0, tr, s, GiveUp(w));
    var s1 := Apply(c, s, GiveUp(w));
    Extend(c, s0, tr + [GiveUp(w)], s1, Increment(w, commits));
    s' := Apply(c, s1, Increment(w, commits));
  }

  lemma JudgeTaken(c: Config, s0: State, tr: seq<Label>, s: State, w: WorkerId, commits: bool) returns (s': State)
    requires Run(c, s0, tr, s) && At(s, w, Judging)
    ensures Run(c, s0, tr + [Judge(w, commits)], s')
    ensures
      s'.table ==
        if Exhausted(c, CurrentOf(s, w)) && commits then MarkedFailed(s.table, CurrentOf(s, w).id) else s.table
    ensures |s'.past| == |s.past| && s'.log == s.log && s'.workers == s.workers[w := Advanced(s.workers[w])]
  {
    Extend(c, s0, tr, s, Judge(w, commits));
    s' := Apply(c, s, Judge(w, commits));
  }

  lemma FetchTaken(c: Config, s0: State, w: WorkerId, snap: seq<Row>) returns (s': State)
    requires Enabled(c, s0, Fetch(w, snap))
    ensures Run(c, s0, [Fetch(w, snap)], s')
    ensures s'.table == s0.table && |s'.past| == |s0.past| && s'.log == s0.log
    ensures s'.workers == s0.workers[w := Busy(snap, 0, Entry)]
  {
    Extend(c, s0, [], s0, Fetch(w, snap));
    assert [] + [Fetch(w, snap)] == [Fetch(w, snap)];
    s' := Apply(c, s0, Fetch(w, snap));
  }

  lemma FinishTaken(c: Config, s0: State, w: WorkerId, snap: seq<Row>, rounds: nat -> Round, s: State, s1: State)
    returns (s': State)
    requires Run(c, s0, [Fetch(w, snap)], s) && Run(c, s, BatchLabels(c, w, snap, rounds), s1)
    requires w in s1.workers && s1.workers[w] == Busy(snap, |snap|, Entry)
    ensures Run(c, s0, CallLabels(c, w, snap, rounds), s')
    ensures s'.table == s1.table && |s'.past| == |s1.past| && s'.log == s1.log && s'.workers == s1.workers[w := Idle]
  {
    Chain(c, s0, [Fetch(w, snap)], s, BatchLabels(c, w, snap, rounds), s1);
    Extend(c, s0, [Fetch(w, snap)] + BatchLabels(c, w, snap, rounds), s1, Finish(w));
    s' := Apply(c, s1, Finish(w));
  }

  /** The steps of a sequence of calls; a call whose fetch fails takes none. */
  function TickLabels(c: Config, w: WorkerId, calls: seq<Call>, batches: seq<seq<Row>>): seq<Label>
    requires |calls| == |batches|
  {
    if calls == [] then []
    else
      var n := |calls| - 1;
      TickLabels(c, w, calls[..n], batches[..n]) +
      if calls[n].fetchFails || c.batch < 0 then [] else CallLabels(c, w, batches[n], calls[n].rounds)
  }

  lemma BatchLabelsSplit(c: Config, w: WorkerId, rows: seq<Row>, rounds: nat -> Round, n: nat)
    requires n < |rows|
    ensures
      BatchLabels(c, w, rows[..n + 1], rounds) ==
      BatchLabels(c, w, rows[..n], rounds) + EntryLabels(c, w, rows[n], rounds(n))
  {
    assert rows[..n + 1][..n] == rows[..n];
  }

  lemma BatchGrows(
    c: Config, w: WorkerId, rows: seq<Row>, rounds: nat -> Round, n: nat, s0: State, s: State, s': State)
    requires n < |rows| && Run(c, s0, BatchLabels(c, w, rows[..n], rounds), s)
    requires Run(c, s, EntryLabels(c, w, rows[n], rounds(n)), s')
    ensures Run(c, s0, BatchLabels(c, w, rows[..n + 1], rounds), s')
  {
    var done, entry := BatchLabels(c, w, rows[..n], rounds), EntryLabels(c, w, rows[n], rounds(n));
    BatchLabelsSplit(c, w, rows, rounds, n);
    Chain(c, s0, done, s, entry, s');
  }

  lemma TicksGrow(
    c: Config, w: WorkerId, calls: seq<Call>, batches: seq<seq<Row>>, fetched: seq<Row>, s0: State, s: State, s': State)
    requires |batches| < |calls| && Run(c, s0, TickLabels(c, w, calls[..|batches|], batches), s)
    requires
      if calls[|batches|].fetchFails || c.batch < 0 then s' == s
      else Run(c, s, CallLabels(c, w, fetched, calls[|batches|].rounds), s')
    ensures Run(c, s0, TickLabels(c, w, calls[..|batches| + 1], batches + [fetched]), s')
  {
    var n := |batches|;
    assert calls[..n + 1][..n] == calls[..n] && (batches + [fetched])[..n] == batches;
    var before := TickLabels(c, w, calls[..n], batches);
    if calls[n].fetchFails || c.batch < 0 {
      assert before + [] == before;
    } else {
      Chain(c, s0, before, s, CallLabels(c, w, fetched, calls[n].rounds), s');
    }
  }

  /** The writes of the call commit; its fetch may fail. */
  ghost predicate AllCommit(call: Call) {
    forall n: nat :: call.rounds(n).increment.Lands() && call.rounds(n).mark.Lands()
  }

  /** How many of the calls get their batch. */
  function Fetched(calls: seq<Call>): nat {
    if calls == [] then 0 else Fetched(calls[..|calls| - 1]) + if calls[|calls| - 1].fetchFails then 0 else 1
  }

  /** Steps inside a batch whose writes commit. */
  ghost predicate Inner(ls: seq<Label>) {
    forall k :: 0 <= k < |ls| ==> Calm(ls[k]) && !ls[k].Insert? && !ls[k].Finish?
  }

  lemma {:induction false} AttemptsInner(w: WorkerId, client: Client, dest: Dest, attempts: seq<Outcome>)
    ensures Inner(AttemptLabels(w, client, dest, attempts))
  {
    if attempts != [] { AttemptsInner(w, client, dest, attempts[1..]); }
  }

  lemma EntryInner(c: Config, w: WorkerId, row: Row, r: Round)
    requires r.increment.Lands() && r.mark.Lands()
    ensures Inner(EntryLabels(c, w, row, r))
  {
    match c.codec.decode(row.payload)
    case None =>
    case Some(e) => AttemptsInner(w, c.client, Resolve(c.routing, e.typ), r.attempts);
  }

  lemma {:induction false} BatchInner(c: Config, w: WorkerId, rows: seq<Row>, rounds: nat -> Round)
    requires forall n: nat :: rounds(n).increment.Lands() && rounds(n).mark.Lands()
    ensures Inner(BatchLabels(c, w, rows, rounds))
  {
    if rows != [] {
      BatchInner(c, w, rows[..|rows| - 1], rounds);
      EntryInner(c, w, rows[|rows| - 1], rounds(|rows| - 1));
    }
  }

  lemma {:induction false} CallsOfSum(xs: seq<Label>, ys: seq<Label>)
    ensures Calls(xs + ys) == Calls(xs) + Calls(ys)
    decreases |ys|
  {
    if ys == [] {
      assert xs + ys == xs;
    } else {
      assert (xs + ys)[..|xs + ys| - 1] == xs + ys[..|ys| - 1];
      CallsOfSum(xs, ys[..|ys| - 1]);
    }
  }

  lemma {:induction false} InnerEndsNothing(ls: seq<Label>)
    requires Inner(ls)
    ensures Calls(ls) == 0
  {
    if ls != [] { InnerEndsNothing(ls[..|ls| - 1]); }
  }

  lemma CallIsOneCall(c: Config, w: WorkerId, rows: seq<Row>, call: Call)
    requires AllCommit(call)
    ensures AllCalm(CallLabels(c, w, rows, call.rounds)) && NoInserts(CallLabels(c, w, rows, call.rounds))
    ensures Calls(CallLabels(c, w, rows, call.rounds)) == 1
  {
    var body := BatchLabels(c, w, rows, call.rounds);
    BatchInner(c, w, rows, call.rounds);
    InnerEndsNothing(body);
    InnerEndsNothing([Fetch(w, rows)]);
    CallsOfSum([Fetch(w, rows)], body);
    assert [Finish(w)][..0] == [];
    CallsOfSum([Fetch(w, rows)] + body, [Finish(w)]);
  }

  lemma {:induction false} TicksAreCalm(c: Config, w: WorkerId, calls: seq<Call>, batches: seq<seq<Row>>)
    requires |calls| == |batches| && c.batch >= 0 && forall k :: 0 <= k < |calls| ==> AllCommit(calls[k])
    ensures AllCalm(TickLabels(c, w, calls, batches)) && NoInserts(TickLabels(c, w, calls, batches))
    ensures Calls(TickLabels(c, w, calls, batches)) == Fetched(calls)
  {
    if calls != [] {
      var n := |calls| - 1;
      TicksAreCalm(c, w, calls[..n], batches[..n]);
      CallIsOneCall(c, w, batches[n], calls[n]);
      var before := TickLabels(c, w, calls[..n], batches[..n]);
      CallsOfSum(before, CallLabels(c, w, batches[n], calls[n].rounds));
      assert before + [] == before;
    }
  }

  /** The premises of the drain bound, in terms of the processor's ticks. */
  ghost predicate EnoughTicks(c: Config, s0: State, calls: seq<Call>) {
    && c.codec.Lawful() && c.batch >= 1 && Working(c, s0) && AllIdle(s0)
    && (forall k :: 0 <= k < |calls| ==> AllCommit(calls[k]))
    && Fetched(calls) >= Outstanding(c, s0, Everything(), Crew(s0))
  }

  /** Ticks whose writes commit drain the outbox once those that get a batch number
      its budget. */
  lemma TicksDrain(c: Config, w: WorkerId, s0: State, calls: seq<Call>, batches: seq<seq<Row>>, s: State)
    requires |calls| == |batches| && Run(c, s0, TickLabels(c, w, calls, batches), s)
    requires EnoughTicks(c, s0, calls) && w in s0.workers
    ensures PendingIds(s.table) == {}
  {
    TicksAreCalm(c, w, calls, batches);
    CalmKeeps(WritesCommit, c, s0, TickLabels(c, w, calls, batches), s);
    SubsetSize({w}, s0.workers.Keys);
    DrainBound(c, s0, TickLabels(c, w, calls, batches), s, Crew(s0));
  }

  /** After `n` tries the steps `tr` are taken and the rest of the plan is to come. */
  ghost predicate Tried(
    w: WorkerId, client: Client, dest: Dest, attempts: seq<Outcome>, n: nat, tr: seq<Label>, acked: bool)
    requires n <= |attempts|
  {
    && AttemptLabels(w, client, dest, attempts) ==
       tr + (if acked then [] else AttemptLabels(w, client, dest, attempts[n..]))
    && Acks(client, dest, attempts) == (acked || Acks(client, dest, attempts[n..]))
  }

  lemma PlanStep(w: WorkerId, client: Client, dest: Dest, attempts: seq<Outcome>, n: nat)
    requires n < |attempts|
    ensures
      var o := Actual(client, dest, attempts[n]);
      && AttemptLabels(w, client, dest, attempts[n..]) ==
         [Attempt(w, o)] + (if o.Acked? then [] else AttemptLabels(w, client, dest, attempts[n + 1..]))
      && Acks(client, dest, attempts[n..]) == (o.Acked? || Acks(client, dest, attempts[n + 1..]))
  {
    assert attempts[n..][1..] == attempts[n + 1..];
  }

  lemma Regroup(a: seq<Label>, b: seq<Label>, d: seq<Label>)
    ensures a + (b + d) == (a + b) + d
  {
  }

  lemma NextAttempt(w: WorkerId, client: Client, dest: Dest, attempts: seq<Outcome>, n: nat, tr: seq<Label>)
    requires n < |attempts| && Tried(w, client, dest, attempts, n, tr, false)
    ensures
      var o := Actual(client, dest, attempts[n]);
      Tried(w, client, dest, attempts, n + 1, tr + [Attempt(w, o)], o.Acked?)
  {
    PlanStep(w, client, dest, attempts, n);
    var o := Actual(client, dest, attempts[n]);
    var rest := if o.Acked? then [] else AttemptLabels(w, client, dest, attempts[n + 1..]);
    Regroup(tr, [Attempt(w, o)], rest);
  }

  /** One more try: the steps taken, and what the broker has got. */
  lemma NextTry(
    c: Config, w: WorkerId, row: nat, e: Event, attempts: seq<Outcome>, n: nat, tr: seq<Label>, o: Outcome,
    log0: seq<Message>, log: seq<Message>, log': seq<Message>)
    requires n < |attempts| && Tried(w, c.client, Resolve(c.routing, e.typ), attempts, n, tr, false)
    requires InLoop(c, row, e, attempts, n, true, log0, log)
    requires o == Actual(c.client, Resolve(c.routing, e.typ), attempts[n])
    requires log' == if o.Refused? then log else log + [Message(row, Resolve(c.routing, e.typ), e)]
    ensures Tried(w, c.client, Resolve(c.routing, e.typ), attempts, n + 1, tr + [Attempt(w, o)], o.Acked?)
    ensures InLoop(c, row, e, attempts, n + 1, !o.Acked?, log0, log')
  {
    NextAttempt(w, c.client, Resolve(c.routing, e.typ), attempts, n, tr);
    ActualIs(c, e.typ, attempts[n]);
    LoopNext(c, row, e, attempts, n, o, log0, log, log');
  }

  lemma LastTry(
    c: Config, w: WorkerId, row: nat, e: Event, attempts: seq<Outcome>, n: nat, tr: seq<Label>, err: bool,
    log0: seq<Message>, log: seq<Message>)
    requires n <= |attempts| && Tried(w, c.client, Resolve(c.routing, e.typ), attempts, n, tr, !err)
    requires InLoop(c, row, e, attempts, n, err, log0, log) && (err ==> n == |attempts|)
    ensures tr == AttemptLabels(w, c.client, Resolve(c.routing, e.typ), attempts)
    ensures err == !Acks(c.client, Resolve(c.routing, e.typ), attempts)
    ensures EndsAfter(c, e.typ, attempts, n) && err == !(Matches(c, e.typ) && Acked in attempts)
    ensures log == log0 + Messages(c, row, e, attempts[..n])
  {
    LoopEnds(c, row, e, attempts, n, err, log0, log);
  }

  class OutboxProcessor {
    const repo: OutboxRepository
    const broker: BrokerClient
    const c: Config

    constructor (repo: OutboxRepository, broker: BrokerClient, c: Config)
      requires c.client == broker.kind
      ensures this.repo == repo && this.broker == broker && this.c == c
    {
      this.repo, this.broker, this.c := repo, broker, c;
    }

    /** The repository and the broker hold what the protocol state says. */
    ghost predicate Mirrors(s: State)
      reads this, repo, broker
    {
      repo.Valid() && s.table == repo.rows && |s.past| == repo.nextId && s.log == broker.log && c.client == broker.kind
    }

    /** One try of the publish loop: the broker name picks the call. Only the exact name
        "rabbitmq" leads to an exchange, and only the matching client sends anything. */
    method PublishOnce(event: Event, entry: Row, wish: Outcome) returns (err: bool)
      requires c.client == broker.kind
      modifies broker`log
      ensures
        if BrokerFor(c.routing, event.typ) == "rabbitmq" then
          var dest := Exchange(ExchangeFor(c.routing, event.typ), RoutingKeyFor(c.routing, event.typ));
          && err == !(broker.kind.RabbitClient? && wish.Acked?)
          && broker.log ==
             old(broker.log)
             + if broker.kind.RabbitClient? && !wish.Refused? then [Message(entry.id, dest, event)] else []
        else
          var dest := Topic(TopicFor(c.routing, event.typ));
          && err == !(broker.kind.KafkaClient? && wish.Acked?)
          && broker.log ==
             old(broker.log)
             + if broker.kind.KafkaClient? && !wish.Refused? then [Message(entry.id, dest, event)] else []
      ensures
        var dest := Resolve(c.routing, event.typ);
        var o := Actual(c.client, dest, wish);
        err == !o.Acked?
        && broker.log == if o.Refused? then old(broker.log) else old(broker.log) + [Message(entry.id, dest, event)]
    {
      match BrokerFor(c.routing, event.typ) {
        case "kafka" =>
          err := broker.PublishToKafka(TopicFor(c.routing, event.typ), event, entry, wish);
        case "rabbitmq" =>
          err := broker.PublishToRabbitMQ(
            ExchangeFor(c.routing, event.typ), RoutingKeyFor(c.routing, event.typ), event, entry, wish);
        case _ =>
          err := broker.PublishToKafka(TopicFor(c.routing, event.typ), event, entry, wish);
      }
    }

    /** The same, as one protocol step after the steps `tr`. */
    method PublishTraced(
      event: Event, entry: Row, wish: Outcome, ghost w: WorkerId, ghost s0: State, ghost tr: seq<Label>,
      ghost s: State)
      returns (err: bool, ghost s1: State)
      requires Mirrors(s) && Run(c, s0, tr, s) && At(s, w, Sending(event)) && CurrentOf(s, w) == entry
      modifies broker`log
      ensures
        var dest := Resolve(c.routing, event.typ);
        var o := Actual(c.client, dest, wish);
        && Mirrors(s1) && Run(c, s0, tr + [Attempt(w, o)], s1) && err == !o.Acked?
        && broker.log == (if o.Refused? then old(broker.log) else old(broker.log) + [Message(entry.id, dest, event)])
        && s1.workers == if err then s.workers else s.workers[w := Staged(s.workers[w], Sent)]
    {
      err := PublishOnce(event, entry, wish);
      s1 := AttemptTaken(c, s0, tr, s, w, event, Actual(c.client, Resolve(c.routing, event.typ), wish));
    }

    /** The retry loop around `PublishOnce`. It stops at the first acknowledgement, and
        leaves one message for each try up to then that the broker did not refuse. With
        the client of the other broker every try is an error and nothing is sent. */
    method PublishWithRetry(event: Event, entry: Row, attempts: seq<Outcome>, ghost w: WorkerId, ghost s0: State)
      returns (err: bool, ghost tries: nat, ghost s1: State)
      requires Mirrors(s0) && At(s0, w, Sending(event)) && CurrentOf(s0, w) == entry
      modifies broker`log
      ensures Mirrors(s1) && Run(c, s0, AttemptLabels(w, c.client, Resolve(c.routing, event.typ), attempts), s1)
      ensures err == !(Matches(c, event.typ) && Acked in attempts)
      ensures EndsAfter(c, event.typ, attempts, tries)
      ensures broker.log == old(broker.log) + Messages(c, entry.id, event, attempts[..tries])
      ensures err == !Acks(c.client, Resolve(c.routing, event.typ), attempts)
      ensures s1.workers == if err then s0.workers else s0.workers[w := Staged(s0.workers[w], Sent)]
    {
      ghost var dest := Resolve(c.routing, event.typ);
      ghost var tr: seq<Label> := [];
      s1 := s0;
      err := true;
      var n := 0;
      LoopStarts(c, entry.id, event, attempts, broker.log);
      while n < |attempts| && err
        invariant n <= |attempts|
        invariant Mirrors(s1) && Run(c, s0, tr, s1)
        invariant Tried(w, c.client, dest, attempts, n, tr, !err)
        invariant InLoop(c, entry.id, event, attempts, n, err, old(broker.log), broker.log)
        invariant s1.workers == if err then s0.workers else s0.workers[w := Staged(s0.workers[w], Sent)]
      {
        ghost var o := Actual(c.client, dest, attempts[n]);
        ghost var log := broker.log;
        err, s1 := PublishTraced(event, entry, attempts[n], w, s0, tr, s1);
        NextTry(c, w, entry.id, event, attempts, n, tr, o, old(broker.log), log, broker.log);
        tr := tr + [Attempt(w, o)];
        n := n + 1;
      }
      tries := n;
      LastTry(c, w, entry.id, event, attempts, n, tr, err, old(broker.log), broker.log);
    }

    /** After an abandoned publish round: count it, and mark the row FAILED if the
        fetched count had reached the limit. */
    method RecordFailure(
      entry: Row, r: Round, ghost w: WorkerId, ghost e: Event, ghost s0: State, ghost tr: seq<Label>, ghost s: State)
      returns (ghost s1: State)
      requires Mirrors(s) && Run(c, s0, tr, s) && At(s, w, Sending(e)) && CurrentOf(s, w) == entry
      modifies repo`rows
      ensures Mirrors(s1)
      ensures repo.rows == FailedRows(c, entry, r, old(repo.rows))
      ensures Run(c, s0, tr + [GiveUp(w), Increment(w, r.increment.Lands()), Judge(w, r.mark.Lands())], s1)
      ensures s1.workers == s.workers[w := Advanced(s.workers[w])]
    {
      var _ := repo.IncrementRetryCount(entry.id, r.increment);
      s1 := CountTaken(c, s0, tr, s, w, e, r.increment.Lands());
      if entry.retryCount >= MaxRetries(c.routing, entry.eventType) {
        var _ := repo.MarkAsFailed(entry.id, r.mark);
      }
      ghost var counted := tr + [GiveUp(w)] + [Increment(w, r.increment.Lands())];
      ghost var s' := s1;
      s1 := JudgeTaken(c, s0, counted, s', w, r.mark.Lands());
      FailedInTwo(c, entry, r, s.table, s'.table, s1.table);
      assert counted + [Judge(w, r.mark.Lands())] ==
             tr + [GiveUp(w), Increment(w, r.increment.Lands()), Judge(w, r.mark.Lands())];
    }

    /** The part of an entry after a successful parse. */
    method SendEntry(event: Event, entry: Row, r: Round, ghost w: WorkerId, ghost s0: State, ghost s: State)
      returns (ghost tries: nat, ghost s1: State)
      requires Mirrors(s) && Run(c, s0, [Parse(w)], s) && At(s, w, Sending(event)) && CurrentOf(s, w) == entry
      requires c.codec.decode(entry.payload) == Some(event)
      modifies repo`rows, broker`log
      ensures EndsAfter(c, event.typ, r.attempts, tries)
      ensures broker.log == old(broker.log) + Messages(c, entry.id, event, r.attempts[..tries])
      ensures repo.rows == SentRows(c, entry, r, Matches(c, event.typ) && Acked in r.attempts, old(repo.rows))
      ensures Mirrors(s1) && Run(c, s0, EntryLabels(c, w, entry, r), s1)
      ensures s1.workers == s.workers[w := Advanced(s.workers[w])]
    {
      var err;
      err, tries, s1 := PublishWithRetry(event, entry, r.attempts, w, s);
      ghost var sent := AttemptLabels(w, c.client, Resolve(c.routing, event.typ), r.attempts);
      EntrySent(c, w, entry, event, r, s0, s, sent, s1);
      ghost var tr := [Parse(w)] + sent;
      if err {
        s1 := RecordFailure(entry, r, w, event, s0, tr, s1);
      } else {
        var _ := repo.MarkAsPublished(entry.id, r.now, r.mark);
        s1 := MarkTaken(c, s0, tr, s1, s.workers, w, r);
      }
    }

    /** One entry of the batch: parse, publish with retries, and record the result. What
        comes of it depends on the broker's answers: with an acknowledgement the row is
        PUBLISHED, without one the round is counted and, at the limit, the row FAILED. */
    method ProcessEntry(entry: Row, r: Round, ghost w: WorkerId, ghost s0: State)
      returns (ghost tries: nat, ghost s1: State)
      requires Mirrors(s0) && At(s0, w, Entry) && CurrentOf(s0, w) == entry
      modifies repo`rows, broker`log
      ensures EntryDone(c, entry, r, tries, old(repo.rows), old(broker.log), repo.rows, broker.log)
      // which means, for a payload that parses: the broker
      ensures
        c.codec.decode(entry.payload).Some? ==>
          var e := c.codec.decode(entry.payload).value;
          var message := Message(entry.id, Resolve(c.routing, e.typ), e);
          if (BrokerFor(c.routing, e.typ) == "rabbitmq") != broker.kind.RabbitClient? then
            broker.log == old(broker.log)
          else
            && (Acked !in r.attempts ==>
                  broker.log == old(broker.log) + seq(multiset(r.attempts)[Ambiguous], i => message))
            && forall n :: 0 <= n < |r.attempts| && r.attempts[n].Acked? && Acked !in r.attempts[..n] ==>
                 broker.log ==
                 old(broker.log) + seq(n + 1 - multiset(r.attempts[..n + 1])[Refused], i => message)
      // and the row
      ensures
        c.codec.decode(entry.payload).Some? && entry.id in old(repo.rows) ==>
          var e, row := c.codec.decode(entry.payload).value, old(repo.rows)[entry.id];
          repo.rows ==
          if (BrokerFor(c.routing, e.typ) == "rabbitmq") == broker.kind.RabbitClient? && Acked in r.attempts then
            if r.mark.Refuses? then old(repo.rows)
            else old(repo.rows)[entry.id := row.(status := Published, publishedAt := Some(r.now))]
          else
            old(repo.rows)[entry.id := row.(
              retryCount := if r.increment.Refuses? then row.retryCount else row.retryCount + 1,
              status :=
                if entry.retryCount >= MaxRetries(c.routing, entry.eventType) && !r.mark.Refuses? then Failed
                else row.status)]
      // the protocol
      ensures Mirrors(s1) && Run(c, s0, EntryLabels(c, w, entry, r), s1)
      ensures s1.workers == s0.workers[w := Advanced(s0.workers[w])]
    {
      var parsed := c.codec.decode(entry.payload);
      s1 := ParseTaken(c, s0, w);
      if parsed.None? {
        var _ := repo.IncrementRetryCount(entry.id, r.increment);
        tries := 0;
        s1 := SkipTaken(c, s0, s1, w, r.increment.Lands());
      } else {
        tries, s1 := SendEntry(parsed.value, entry, r, w, s0, s1);
        SentIsRowAfter(c, entry, r, parsed.value, old(repo.rows));
        EntryComesTo(c, entry, r, tries, old(repo.rows), old(broker.log), repo.rows, broker.log);
      }
    }

    method ProcessBatch(entries: seq<Row>, rounds: nat -> Round, ghost w: WorkerId, ghost s0: State)
      returns (ghost s1: State)
      requires Mirrors(s0) && w in s0.workers && s0.workers[w] == Busy(entries, 0, Entry)
      modifies repo`rows, broker`log
      ensures WorkedOff(c, entries, rounds, |entries|, old(repo.rows), old(broker.log), repo.rows, broker.log)
      ensures Mirrors(s1) && Run(c, s0, BatchLabels(c, w, entries, rounds), s1)
      ensures s1.workers == s0.workers[w := Busy(entries, |entries|, Entry)]
    {
      s1 := s0;
      for n := 0 to |entries|
        invariant WorkedOff(c, entries, rounds, n, old(repo.rows), old(broker.log), repo.rows, broker.log)
        invariant Mirrors(s1) && Run(c, s0, BatchLabels(c, w, entries[..n], rounds), s1)
        invariant s1.workers == s0.workers[w := Busy(entries, n, Entry)]
      {
        ghost var s, rows, log := s1, repo.rows, broker.log;
        ghost var tries;
        tries, s1 := ProcessEntry(entries[n], rounds(n), w, s);
        LastUpdateCounts(s0.workers, w, Busy(entries, n, Entry), Busy(entries, n + 1, Entry));
        BatchGrows(c, w, entries, rounds, n, s0, s, s1);
        NextWorkedOff(c, entries, rounds, n, tries, old(repo.rows), old(broker.log), rows, log, repo.rows, broker.log);
      }
      assert entries[..|entries|] == entries;
    }

    /** One call: fetch the oldest pending rows, then work them off in order. */
    method ProcessPendingEntries(call: Call, ghost w: WorkerId, ghost s0: State)
      returns (err: bool, ghost fetched: seq<Row>, ghost s1: State)
      requires Mirrors(s0) && w in s0.workers && s0.workers[w].Idle?
      modifies repo`rows, broker`log
      ensures Mirrors(s1) && err == (call.fetchFails || c.batch < 0)
      ensures err ==> s1 == s0
      ensures !err ==> OldestPending(old(repo.rows), c.batch, fetched)
      ensures
        !err ==>
          WorkedOff(c, fetched, call.rounds, |fetched|, old(repo.rows), old(broker.log), repo.rows, broker.log)
      ensures
        !err && AllAnswered(c, fetched, call.rounds) ==>
          AllPublished(c, fetched, call.rounds, repo.rows, |old(broker.log)|, broker.log)
      ensures !err ==> Run(c, s0, CallLabels(c, w, fetched, call.rounds), s1) && s1.workers == s0.workers
    {
      var entries;
      err, entries := repo.FindPendingEntries(c.batch, call.fetchFails);
      fetched, s1 := entries, s0;
      if err { return; }
      ghost var s := FetchTaken(c, s0, w, entries);
      if |entries| > 0 {
        s1 := ProcessBatch(entries, call.rounds, w, s);
      } else {
        s1 := s;
        NothingWorkedOff(c, entries, call.rounds, repo.rows, broker.log);
      }
      LastUpdateCounts(s0.workers, w, Busy(entries, 0, Entry), Busy(entries, |entries|, Entry));
      LastUpdateCounts(s0.workers, w, Busy(entries, |entries|, Entry), Idle);
      s1 := FinishTaken(c, s0, w, entries, call.rounds, s, s1);
      AnsweredIsPublished(c, entries, call.rounds, old(repo.rows), old(broker.log), repo.rows, broker.log);
    }

    /** Ticks of the processor's clock, one call each; a failed call is logged and
        the next tick comes. With committing writes, as many ticks with a successful
        fetch as there is budget outstanding leave no row PENDING. */
    method Start(calls: seq<Call>, ghost w: WorkerId, ghost s0: State)
      returns (ghost batches: seq<seq<Row>>, ghost s1: State)
      requires Mirrors(s0) && w in s0.workers && s0.workers[w].Idle?
      modifies repo`rows, broker`log
      ensures Mirrors(s1) && |batches| == |calls| && Run(c, s0, TickLabels(c, w, calls, batches), s1)
      ensures EnoughTicks(c, s0, calls) ==> PendingIds(repo.rows) == {}
    {
      s1, batches := s0, [];
      for n := 0 to |calls|
        invariant Mirrors(s1) && |batches| == n && Run(c, s0, TickLabels(c, w, calls[..n], batches), s1)
        invariant s1.workers == s0.workers
      {
        ghost var s := s1;
        var err;
        ghost var fetched;
        err, fetched, s1 := ProcessPendingEntries(calls[n], w, s);
        TicksGrow(c, w, calls, batches, fetched, s0, s, s1);
        batches := batches + [fetched];
      }
      assert calls[..|calls|] == calls;
      if EnoughTicks(c, s0, calls) { TicksDrain(c, w, s0, calls, batches, s1); }
    }
  }
}
