/** What the broker's answers make of the rows and of the broker log, without the
    steps in between. */
module Effects {
  import opened Domain
  import opened Routing
  import opened Protocol

  /** What the environment does during one publish round. `attempts` is what the
      broker would do on each try of the retry loop; when they run out without an
      acknowledgement the loop gives up (its context was cancelled). */
  datatype Round = Round(attempts: seq<Outcome>, increment: Fate, mark: Fate, now: int)

  /** The client is the one for the broker that the type is routed to. */
  predicate Matches(c: Config, typ: string) {
    BrokerFor(c.routing, typ) == "rabbitmq" <==> c.client.RabbitClient?
  }

  /** The retry loop ends after `tries` tries: at the first acknowledgement, or, with
      none or with the wrong client, when there are no more. */
  ghost predicate EndsAfter(c: Config, typ: string, attempts: seq<Outcome>, tries: nat) {
    && tries <= |attempts|
    && (tries < |attempts| ==> Matches(c, typ) && tries > 0 && attempts[tries - 1].Acked?)
    && (Matches(c, typ) ==> forall k :: 0 <= k < tries - 1 ==> !attempts[k].Acked?)
  }

  /** What the broker gets from these tries: one message for each that it did not refuse. */
  ghost function Messages(c: Config, row: nat, e: Event, attempts: seq<Outcome>): seq<Message> {
    if !Matches(c, e.typ) then []
    else seq(|attempts| - multiset(attempts)[Refused], i => Message(row, Resolve(c.routing, e.typ), e))
  }

  /** The row after one of its entries was worked off. */
  ghost function RowAfter(c: Config, entry: Row, r: Round, row: Row): Row {
    var parsed := c.codec.decode(entry.payload);
    var counted := if r.increment.Refuses? then row else row.(retryCount := row.retryCount + 1);
    if parsed.None? then counted
    else if Matches(c, parsed.value.typ) && Acked in r.attempts then
      if r.mark.Refuses? then row else row.(status := Published, publishedAt := Some(r.now))
    else if entry.retryCount >= MaxRetries(c.routing, entry.eventType) && !r.mark.Refuses? then
      counted.(status := Failed)
    else counted
  }

  lemma NextMessages(c: Config, row: nat, e: Event, attempts: seq<Outcome>, n: nat)
    requires n < |attempts|
    ensures
      Messages(c, row, e, attempts[..n + 1]) ==
      Messages(c, row, e, attempts[..n])
      + if Matches(c, e.typ) && !attempts[n].Refused? then [Message(row, Resolve(c.routing, e.typ), e)] else []
  {
    assert attempts[..n + 1] == attempts[..n] + [attempts[n]];
    assert multiset(attempts[..n + 1]) == multiset(attempts[..n]) + multiset{attempts[n]};
  }

  /** After `n` tries of the loop: no acknowledgement so far, or one on the last try. */
  ghost predicate InLoop(
    c: Config, row: nat, e: Event, attempts: seq<Outcome>, n: nat, err: bool, log0: seq<Message>, log: seq<Message>)
    requires n <= |attempts|
  {
    && log == log0 + Messages(c, row, e, attempts[..n])
    && if err then Matches(c, e.typ) ==> Acked !in attempts[..n]
       else Matches(c, e.typ) && n > 0 && attempts[n - 1].Acked? && Acked !in attempts[..n - 1]
  }

  lemma LoopStarts(c: Config, row: nat, e: Event, attempts: seq<Outcome>, log: seq<Message>)
    ensures InLoop(c, row, e, attempts, 0, true, log, log)
  {
    assert attempts[..0] == [];
    assert Messages(c, row, e, []) == [];
  }

  lemma NextAck(c: Config, typ: string, attempts: seq<Outcome>, n: nat, o: Outcome)
    requires n < |attempts| && o == if Matches(c, typ) then attempts[n] else Refused
    requires Matches(c, typ) ==> Acked !in attempts[..n]
    ensures
      if o.Acked? then Matches(c, typ) && attempts[n].Acked?
      else Matches(c, typ) ==> Acked !in attempts[..n + 1]
  {
    assert attempts[..n + 1] == attempts[..n] + [attempts[n]];
  }

  lemma LoopNext(
    c: Config, row: nat, e: Event, attempts: seq<Outcome>, n: nat, o: Outcome, log0: seq<Message>,
    log: seq<Message>, log': seq<Message>)
    requires n < |attempts| && InLoop(c, row, e, attempts, n, true, log0, log)
    requires o == if Matches(c, e.typ) then attempts[n] else Refused
    requires log' == if o.Refused? then log else log + [Message(row, Resolve(c.routing, e.typ), e)]
    ensures InLoop(c, row, e, attempts, n + 1, !o.Acked?, log0, log')
  {
    NextMessages(c, row, e, attempts, n);
    NextAck(c, e.typ, attempts, n, o);
    var more := if o.Refused? then [] else [Message(row, Resolve(c.routing, e.typ), e)];
    assert log' == log + more;
    assert log0 + (Messages(c, row, e, attempts[..n]) + more) == log';
  }

  lemma LoopEnds(
    c: Config, row: nat, e: Event, attempts: seq<Outcome>, n: nat, err: bool, log0: seq<Message>, log: seq<Message>)
    requires n <= |attempts| && InLoop(c, row, e, attempts, n, err, log0, log) && (err ==> n == |attempts|)
    ensures EndsAfter(c, e.typ, attempts, n) && err == !(Matches(c, e.typ) && Acked in attempts)
  {
    if err {
      assert attempts[..n] == attempts;
    } else {
      forall k | 0 <= k < n - 1 ensures !attempts[k].Acked? { assert attempts[..n - 1][k] == attempts[k]; }
    }
  }

  lemma {:induction false} OutcomesAdd(attempts: seq<Outcome>)
    ensures
      var all := multiset(attempts);
      |attempts| == all[Acked] + all[Ambiguous] + all[Refused]
  {
    if attempts != [] {
      var front, last := attempts[..|attempts| - 1], attempts[|attempts| - 1];
      OutcomesAdd(front);
      assert attempts == front + [last];
      assert multiset(attempts) == multiset(front) + multiset{last};
      match last {
        case Acked =>
        case Ambiguous =>
        case Refused =>
      }
    } else {
      assert multiset(attempts) == multiset{};
    }
  }

  lemma NoAckMessages(c: Config, row: nat, e: Event, attempts: seq<Outcome>, tries: nat)
    requires EndsAfter(c, e.typ, attempts, tries) && Matches(c, e.typ) && Acked !in attempts
    ensures
      Messages(c, row, e, attempts[..tries]) ==
      seq(multiset(attempts)[Ambiguous], i => Message(row, Resolve(c.routing, e.typ), e))
  {
    assert tries == |attempts| && attempts[..tries] == attempts;
    OutcomesAdd(attempts);
  }

  lemma FirstAckEnds(c: Config, typ: string, attempts: seq<Outcome>, tries: nat, n: nat)
    requires EndsAfter(c, typ, attempts, tries) && Matches(c, typ)
    requires n < |attempts| && attempts[n].Acked? && Acked !in attempts[..n]
    ensures tries == n + 1
  {
    assert tries <= n + 1;
    assert forall k :: 0 <= k < n ==> attempts[k] in attempts[..n];
  }

  /** The messages of a round, counted by the broker's answers. */
  lemma MessagesCounted(c: Config, row: nat, e: Event, attempts: seq<Outcome>, tries: nat)
    requires EndsAfter(c, e.typ, attempts, tries)
    ensures
      var sent, message := Messages(c, row, e, attempts[..tries]), Message(row, Resolve(c.routing, e.typ), e);
      && (!Matches(c, e.typ) ==> sent == [])
      && (Matches(c, e.typ) ==>
            && (Acked !in attempts ==> sent == seq(multiset(attempts)[Ambiguous], i => message))
            && forall n :: 0 <= n < |attempts| && attempts[n].Acked? && Acked !in attempts[..n] ==>
                 sent == seq(n + 1 - multiset(attempts[..n + 1])[Refused], i => message))
  {
    if Matches(c, e.typ) {
      if Acked !in attempts { NoAckMessages(c, row, e, attempts, tries); }
      forall n | 0 <= n < |attempts| && attempts[n].Acked? && Acked !in attempts[..n] ensures tries == n + 1 {
        FirstAckEnds(c, e.typ, attempts, tries, n);
      }
    }
  }

  /** The table after an abandoned round of an entry. */
  ghost function FailedRows(c: Config, entry: Row, r: Round, rows: map<nat, Row>): map<nat, Row> {
    if entry.id !in rows then rows
    else
      var row := rows[entry.id];
      var counted := if r.increment.Refuses? then row else row.(retryCount := row.retryCount + 1);
      rows[entry.id :=
        if entry.retryCount >= MaxRetries(c.routing, entry.eventType) && !r.mark.Refuses?
        then counted.(status := Failed) else counted]
  }

  lemma FailedInTwo(c: Config, entry: Row, r: Round, t0: map<nat, Row>, t1: map<nat, Row>, t2: map<nat, Row>)
    requires t1 == if r.increment.Lands() then Bumped(t0, entry.id) else t0
    requires t2 == if Exhausted(c, entry) && r.mark.Lands() then MarkedFailed(t1, entry.id) else t1
    ensures t2 == FailedRows(c, entry, r, t0)
  {
  }

  /** The table after an entry whose payload parses was worked off. */
  ghost function SentRows(c: Config, entry: Row, r: Round, acked: bool, rows: map<nat, Row>): map<nat, Row> {
    if !acked then FailedRows(c, entry, r, rows)
    else if r.mark.Lands() then MarkedPublished(rows, entry.id, r.now)
    else rows
  }

  lemma SentIsRowAfter(c: Config, entry: Row, r: Round, e: Event, rows: map<nat, Row>)
    requires c.codec.decode(entry.payload) == Some(e)
    ensures
      SentRows(c, entry, r, Matches(c, e.typ) && Acked in r.attempts, rows) ==
      if entry.id !in rows then rows else rows[entry.id := RowAfter(c, entry, r, rows[entry.id])]
  {
  }

  /** One entry worked off after `tries` tries. */
  ghost predicate EntryDone(
    c: Config, entry: Row, r: Round, tries: nat, rows: map<nat, Row>, log: seq<Message>, rows': map<nat, Row>,
    log': seq<Message>)
  {
    var parsed := c.codec.decode(entry.payload);
    && rows' == (if entry.id !in rows then rows else rows[entry.id := RowAfter(c, entry, r, rows[entry.id])])
    && if parsed.None? then tries == 0 && log' == log
       else
         && EndsAfter(c, parsed.value.typ, r.attempts, tries)
         && log' == log + Messages(c, entry.id, parsed.value, r.attempts[..tries])
  }

  /** What an entry comes to, by its payload, the settings, the client and the broker's
      answers. If the client is the one for the broker and some try is acknowledged, the
      log gains one message for each try up to the first acknowledgement that was not
      refused, and the row becomes PUBLISHED. Otherwise the round is counted, at the limit
      the row becomes FAILED, and at most ambiguous sends are in the log. */
  lemma EntryComesTo(
    c: Config, entry: Row, r: Round, tries: nat, rows: map<nat, Row>, log: seq<Message>, rows': map<nat, Row>,
    log': seq<Message>)
    requires EntryDone(c, entry, r, tries, rows, log, rows', log')
    ensures c.codec.decode(entry.payload).None? ==> log' == log
    ensures
      c.codec.decode(entry.payload).None? && entry.id in rows ==>
        rows' ==
        if r.increment.Refuses? then rows
        else rows[entry.id := rows[entry.id].(retryCount := rows[entry.id].retryCount + 1)]
    ensures
      c.codec.decode(entry.payload).Some? ==>
        var e := c.codec.decode(entry.payload).value;
        var message := Message(entry.id, Resolve(c.routing, e.typ), e);
        if (BrokerFor(c.routing, e.typ) == "rabbitmq") != c.client.RabbitClient? then log' == log
        else
          && (Acked !in r.attempts ==> log' == log + seq(multiset(r.attempts)[Ambiguous], i => message))
          && forall n :: 0 <= n < |r.attempts| && r.attempts[n].Acked? && Acked !in r.attempts[..n] ==>
               log' == log + seq(n + 1 - multiset(r.attempts[..n + 1])[Refused], i => message)
    ensures
      c.codec.decode(entry.payload).Some? && entry.id in rows ==>
        var e, row := c.codec.decode(entry.payload).value, rows[entry.id];
        rows' ==
        if (BrokerFor(c.routing, e.typ) == "rabbitmq") == c.client.RabbitClient? && Acked in r.attempts then
          if r.mark.Refuses? then rows
          else rows[entry.id := row.(status := Published, publishedAt := Some(r.now))]
        else
          rows[entry.id := row.(
            retryCount := if r.increment.Refuses? then row.retryCount else row.retryCount + 1,
            status :=
              if entry.retryCount >= MaxRetries(c.routing, entry.eventType) && !r.mark.Refuses? then Failed
              else row.status)]
  {
    var parsed := c.codec.decode(entry.payload);
    if parsed.Some? { MessagesCounted(c, entry.id, parsed.value, r.attempts, tries); }
  }

  ghost predicate Distinct(entries: seq<Row>) {
    forall j, k :: 0 <= j < k < |entries| ==> entries[j].id != entries[k].id
  }

  ghost predicate LogHas(log: seq<Message>, from: nat, m: Message) {
    exists k :: from <= k < |log| && log[k] == m
  }

  /** If the broker acknowledged the entry, its message is in the log. */
  ghost predicate InLog(c: Config, entry: Row, r: Round, from: nat, log: seq<Message>) {
    var parsed := c.codec.decode(entry.payload);
    parsed.Some? && Matches(c, parsed.value.typ) && Acked in r.attempts ==>
      LogHas(log, from, Message(entry.id, Resolve(c.routing, parsed.value.typ), parsed.value))
  }

  ghost predicate RowsWorkedOff(
    c: Config, entries: seq<Row>, rounds: nat -> Round, n: nat, rows: map<nat, Row>, rows': map<nat, Row>)
    requires n <= |entries|
  {
    && rows'.Keys == rows.Keys
    && (Distinct(entries) ==>
          forall k :: 0 <= k < n && entries[k].id in rows ==>
            rows'[entries[k].id] == RowAfter(c, entries[k], rounds(k), rows[entries[k].id]))
    && (forall id :: id in rows && (forall k :: 0 <= k < n ==> entries[k].id != id) ==> rows'[id] == rows[id])
  }

  /** After the first `n` entries: the rows of these are as their rounds left them, the
      others are untouched, and every acknowledged message is in the log. */
  ghost predicate WorkedOff(
    c: Config, entries: seq<Row>, rounds: nat -> Round, n: nat, rows: map<nat, Row>, log: seq<Message>,
    rows': map<nat, Row>, log': seq<Message>)
    requires n <= |entries|
  {
    && RowsWorkedOff(c, entries, rounds, n, rows, rows') && log <= log'
    && forall k :: 0 <= k < n ==> InLog(c, entries[k], rounds(k), |log|, log')
  }

  lemma NothingWorkedOff(c: Config, entries: seq<Row>, rounds: nat -> Round, rows: map<nat, Row>, log: seq<Message>)
    ensures WorkedOff(c, entries, rounds, 0, rows, log, rows, log)
  {
  }

  /** An acknowledged entry has its message in the log. */
  lemma AckedIsSent(c: Config, row: nat, e: Event, attempts: seq<Outcome>, tries: nat, log: seq<Message>, from: nat)
    requires EndsAfter(c, e.typ, attempts, tries) && Matches(c, e.typ) && Acked in attempts && from <= |log|
    ensures
      LogHas(log + Messages(c, row, e, attempts[..tries]), from, Message(row, Resolve(c.routing, e.typ), e))
  {
    var k :| 0 <= k < |attempts| && attempts[k].Acked?;
    assert tries > 0 && attempts[tries - 1].Acked?;
    NextMessages(c, row, e, attempts, tries - 1);
    var sent := Messages(c, row, e, attempts[..tries]);
    assert (log + sent)[|log + sent| - 1] == Message(row, Resolve(c.routing, e.typ), e);
  }

  lemma LogKeeps(log: seq<Message>, log': seq<Message>, from: nat, m: Message)
    requires LogHas(log, from, m) && log <= log'
    ensures LogHas(log', from, m)
  {
    var k :| from <= k < |log| && log[k] == m;
    assert log'[k] == m;
  }

  lemma NextRowsWorkedOff(
    c: Config, entries: seq<Row>, rounds: nat -> Round, n: nat, rows0: map<nat, Row>, rows: map<nat, Row>,
    rows': map<nat, Row>)
    requires n < |entries| && RowsWorkedOff(c, entries, rounds, n, rows0, rows)
    requires
      var id := entries[n].id;
      rows' == if id !in rows then rows else rows[id := RowAfter(c, entries[n], rounds(n), rows[id])]
    ensures RowsWorkedOff(c, entries, rounds, n + 1, rows0, rows')
  {
    assert Distinct(entries) ==> forall k :: 0 <= k < n ==> entries[k].id != entries[n].id;
  }

  lemma NextInLog(
    c: Config, entry: Row, r: Round, tries: nat, rows: map<nat, Row>, log: seq<Message>, rows': map<nat, Row>,
    log': seq<Message>, from: nat)
    requires EntryDone(c, entry, r, tries, rows, log, rows', log') && from <= |log|
    ensures log <= log' && InLog(c, entry, r, from, log')
  {
    var parsed := c.codec.decode(entry.payload);
    if parsed.Some? && Matches(c, parsed.value.typ) && Acked in r.attempts {
      AckedIsSent(c, entry.id, parsed.value, r.attempts, tries, log, from);
    }
  }

  /** One more entry. */
  lemma NextWorkedOff(
    c: Config, entries: seq<Row>, rounds: nat -> Round, n: nat, tries: nat, rows0: map<nat, Row>,
    log0: seq<Message>, rows: map<nat, Row>, log: seq<Message>, rows': map<nat, Row>, log': seq<Message>)
    requires n < |entries| && WorkedOff(c, entries, rounds, n, rows0, log0, rows, log)
    requires EntryDone(c, entries[n], rounds(n), tries, rows, log, rows', log')
    ensures WorkedOff(c, entries, rounds, n + 1, rows0, log0, rows', log')
  {
    NextRowsWorkedOff(c, entries, rounds, n, rows0, rows, rows');
    NextInLog(c, entries[n], rounds(n), tries, rows, log, rows', log', |log0|);
    forall k | 0 <= k < n ensures InLog(c, entries[k], rounds(k), |log0|, log') {
      var parsed := c.codec.decode(entries[k].payload);
      if parsed.Some? && Matches(c, parsed.value.typ) && Acked in rounds(k).attempts {
        LogKeeps(log, log', |log0|, Message(entries[k].id, Resolve(c.routing, parsed.value.typ), parsed.value));
      }
    }
  }

  /** The broker acknowledges every entry and every PUBLISHED mark takes effect. */
  ghost predicate AllAnswered(c: Config, entries: seq<Row>, rounds: nat -> Round) {
    forall k :: 0 <= k < |entries| ==>
      var parsed := c.codec.decode(entries[k].payload);
      && parsed.Some?
      && (BrokerFor(c.routing, parsed.value.typ) == "rabbitmq" <==> c.client.RabbitClient?)
      && Acked in rounds(k).attempts && !rounds(k).mark.Refuses?
  }

  /** Every row is PUBLISHED with the time of its own round, and its event is in the
      log, at its destination, behind the first `from` messages. */
  ghost predicate AllPublished(
    c: Config, entries: seq<Row>, rounds: nat -> Round, rows: map<nat, Row>, from: nat, log: seq<Message>)
  {
    forall k :: 0 <= k < |entries| ==>
      && entries[k].id in rows
      && rows[entries[k].id] == entries[k].(status := Published, publishedAt := Some(rounds(k).now))
      && exists m ::
           && from <= m < |log| && log[m].row == entries[k].id
           && c.codec.decode(entries[k].payload) == Some(log[m].event)
           && log[m].dest == Resolve(c.routing, log[m].event.typ)
  }

  lemma AnsweredEntry(
    c: Config, entry: Row, r: Round, from: nat, log: seq<Message>)
    requires InLog(c, entry, r, from, log)
    requires
      var parsed := c.codec.decode(entry.payload);
      && parsed.Some?
      && (BrokerFor(c.routing, parsed.value.typ) == "rabbitmq" <==> c.client.RabbitClient?)
      && Acked in r.attempts && !r.mark.Refuses?
    ensures RowAfter(c, entry, r, entry) == entry.(status := Published, publishedAt := Some(r.now))
    ensures
      exists m ::
        && from <= m < |log| && log[m].row == entry.id
        && c.codec.decode(entry.payload) == Some(log[m].event)
        && log[m].dest == Resolve(c.routing, log[m].event.typ)
  {
    var e := c.codec.decode(entry.payload).value;
    assert Matches(c, e.typ);
    assert LogHas(log, from, Message(entry.id, Resolve(c.routing, e.typ), e));
    var m :| from <= m < |log| && log[m] == Message(entry.id, Resolve(c.routing, e.typ), e);
    assert log[m].row == entry.id;
  }

  lemma AnsweredIsPublished(
    c: Config, entries: seq<Row>, rounds: nat -> Round, rows: map<nat, Row>, log: seq<Message>,
    rows': map<nat, Row>, log': seq<Message>)
    requires OldestPending(rows, c.batch, entries)
    requires WorkedOff(c, entries, rounds, |entries|, rows, log, rows', log')
    ensures AllAnswered(c, entries, rounds) ==> AllPublished(c, entries, rounds, rows', |log|, log')
  {
    if AllAnswered(c, entries, rounds) {
      forall k | 0 <= k < |entries|
        ensures entries[k].id in rows'
        ensures
          rows'[entries[k].id] == entries[k].(status := Published, publishedAt := Some(rounds(k).now))
        ensures
          exists m ::
            && |log| <= m < |log'| && log'[m].row == entries[k].id
            && c.codec.decode(entries[k].payload) == Some(log'[m].event)
            && log'[m].dest == Resolve(c.routing, log'[m].event.typ)
      {
        assert IsPending(rows, entries[k].id);
        AnsweredEntry(c, entries[k], rounds(k), |log|, log');
      }
    }
  }
}
