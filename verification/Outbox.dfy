/** The outbox table behind its repository, and the broker behind its client. */
module Outbox {
  import opened Domain
  import opened Routing
  import opened Protocol

  /** Part of the way through the query: `found` are the oldest pending rows in
      order and `rest` are the ids of the pending rows not looked at yet. */
  ghost predicate Selecting(t: map<nat, Row>, found: seq<Row>, rest: set<nat>) {
    && (forall id :: id in rest ==> IsPending(t, id))
    && (forall id :: IsPending(t, id) ==> id in rest || Holds(found, id))
    && (forall k :: 0 <= k < |found| ==>
          IsPending(t, found[k].id) && t[found[k].id] == found[k] && found[k].id !in rest)
    && (forall j, k :: 0 <= j < k < |found| ==> found[j].id != found[k].id && found[j].createdAt <= found[k].createdAt)
    && (forall k, id :: 0 <= k < |found| && id in rest ==> found[k].createdAt <= t[id].createdAt)
  }

  lemma SelectNext(t: map<nat, Row>, found: seq<Row>, rest: set<nat>, id: nat)
    requires Selecting(t, found, rest) && id in rest && t[id].id == id
    requires forall other :: other in rest ==> t[id].createdAt <= t[other].createdAt
    ensures Selecting(t, found + [t[id]], rest - {id})
  {
    var found' := found + [t[id]];
    assert found'[|found|].id == id;
    forall other | Holds(found, other) ensures Holds(found', other) {
      var k :| 0 <= k < |found| && found[k].id == other;
      assert found'[k].id == other;
    }
  }

  class OutboxRepository {
    var rows: map<nat, Row>
    var nextId: nat

    /** Rows sit under their own id, below the next id to be given out. */
    ghost predicate Valid()
      reads this
    {
      forall id :: id in rows ==> id < nextId && rows[id].id == id
    }

    constructor ()
      ensures Valid() && rows == map[] && nextId == 0
    {
      rows, nextId := map[], 0;
    }

    /** Inserts a row under a fresh id; `published_at` is left NULL whatever the entry says. */
    method Save(entry: Row, fate: Fate) returns (err: bool)
      requires Valid()
      modifies this
      ensures Valid() && err == !fate.Commits?
      ensures !fate.Refuses? ==>
                nextId == old(nextId) + 1
                && rows == old(rows)[old(nextId) := entry.(id := old(nextId), publishedAt := None)]
      ensures fate.Refuses? ==> rows == old(rows) && nextId == old(nextId)
    {
      if fate.Lands() {
        rows := rows[nextId := entry.(id := nextId, publishedAt := None)];
        nextId := nextId + 1;
      }
      err := fate.Errs();
    }

    lemma OldestExists(ids: set<nat>)
      requires ids != {} && ids <= rows.Keys
      ensures exists id :: id in ids && forall other :: other in ids ==> rows[id].createdAt <= rows[other].createdAt
    {
      var id :| id in ids;
      if ids != {id} {
        OldestExists(ids - {id});
        var best :|
          best in ids - {id} && forall other :: other in ids - {id} ==> rows[best].createdAt <= rows[other].createdAt;
        if rows[id].createdAt <= rows[best].createdAt {
          assert forall other :: other in ids ==> rows[id].createdAt <= rows[other].createdAt;
        } else {
          assert forall other :: other in ids ==> rows[best].createdAt <= rows[other].createdAt;
        }
      }
    }

    /** The oldest PENDING rows, at most `limit` of them; a negative LIMIT is an SQL
        error. Equal creation times come out in an arbitrary order. */
    method FindPendingEntries(limit: int, fails: bool) returns (err: bool, entries: seq<Row>)
      requires Valid()
      ensures err == (fails || limit < 0)
      ensures !err ==> OldestPending(rows, limit, entries)
      ensures
        !err ==>
          && |entries| <= limit
          && (forall k :: 0 <= k < |entries| ==>
                entries[k].id in rows && rows[entries[k].id] == entries[k] && entries[k].status.Pending?)
          && (forall j, k :: 0 <= j < k < |entries| ==>
                entries[j].id != entries[k].id && entries[j].createdAt <= entries[k].createdAt)
          && (forall id :: id in rows && rows[id].status.Pending? && rows[id] !in entries ==>
                |entries| == limit && forall k :: 0 <= k < |entries| ==> entries[k].createdAt <= rows[id].createdAt)
      ensures err ==> entries == []
    {
      entries := [];
      err := fails || limit < 0;
      if err { return; }
      var rest := set id | id in rows && rows[id].status.Pending?;
      while |entries| < limit && rest != {}
        invariant |entries| <= limit && Selecting(rows, entries, rest)
        decreases rest
      {
        OldestExists(rest);
        var id :| id in rest && forall other :: other in rest ==> rows[id].createdAt <= rows[other].createdAt;
        SelectNext(rows, entries, rest, id);
        entries, rest := entries + [rows[id]], rest - {id};
      }
    }

    /** The update matches on the id alone, whatever the status is. */
    method MarkAsPublished(id: nat, now: int, fate: Fate) returns (err: bool)
      requires Valid()
      modifies this`rows
      ensures Valid() && err == !fate.Commits?
      ensures
        rows == if fate.Refuses? || id !in old(rows) then old(rows)
                else old(rows)[id := old(rows)[id].(status := Published, publishedAt := Some(now))]
      ensures rows == if fate.Lands() then MarkedPublished(old(rows), id, now) else old(rows)
    {
      if fate.Lands() && id in rows {
        rows := rows[id := rows[id].(status := Published, publishedAt := Some(now))];
      }
      err := fate.Errs();
    }

    /** The update adds to the count in the table. */
    method IncrementRetryCount(id: nat, fate: Fate) returns (err: bool)
      requires Valid()
      modifies this`rows
      ensures Valid() && err == !fate.Commits?
      ensures
        rows == if fate.Refuses? || id !in old(rows) then old(rows)
                else old(rows)[id := old(rows)[id].(retryCount := old(rows)[id].retryCount + 1)]
      ensures rows == if fate.Lands() then Bumped(old(rows), id) else old(rows)
    {
      if fate.Lands() && id in rows {
        rows := rows[id := rows[id].(retryCount := rows[id].retryCount + 1)];
      }
      err := fate.Errs();
    }

    method MarkAsFailed(id: nat, fate: Fate) returns (err: bool)
      requires Valid()
      modifies this`rows
      ensures Valid() && err == !fate.Commits?
      ensures
        rows == if fate.Refuses? || id !in old(rows) then old(rows)
                else old(rows)[id := old(rows)[id].(status := Failed)]
      ensures rows == if fate.Lands() then MarkedFailed(old(rows), id) else old(rows)
    {
      if fate.Lands() && id in rows {
        rows := rows[id := rows[id].(status := Failed)];
      }
      err := fate.Errs();
    }

    /** Deletes exactly the PUBLISHED rows whose published time is before the cutoff. */
    method CleanupOldEntries(now: int, olderThan: int, fate: Fate) returns (err: bool)
      requires Valid()
      modifies this`rows
      ensures Valid() && err == !fate.Commits?
      ensures fate.Refuses? ==> rows == old(rows)
      ensures
        !fate.Refuses? ==>
          forall id :: id in old(rows) ==>
            (id !in rows <==>
               old(rows)[id].status.Published? && old(rows)[id].publishedAt.Some?
               && old(rows)[id].publishedAt.value < now - olderThan)
      ensures forall id :: id in rows ==> id in old(rows) && rows[id] == old(rows)[id]
      ensures rows == if fate.Lands() then Cleaned(old(rows), now - olderThan) else old(rows)
    {
      if fate.Lands() {
        rows := map id | id in rows && !Expired(rows[id], now - olderThan) :: rows[id];
      }
      err := fate.Errs();
    }
  }

  /** One connected client: it publishes to its own kind of destination and
      returns an error for the other. A send may also return an error after the
      message was handed over. */
  class BrokerClient {
    const kind: Client
    var log: seq<Message>

    constructor (kind: Client)
      ensures this.kind == kind && log == []
    {
      this.kind, log := kind, [];
    }

    method PublishToKafka(topic: string, event: Event, entry: Row, outcome: Outcome) returns (err: bool)
      modifies this`log
      ensures err == !(kind.KafkaClient? && outcome.Acked?)
      ensures log == if kind.KafkaClient? && !outcome.Refused? then old(log) + [Message(entry.id, Topic(topic), event)]
                     else old(log)
    {
      err := true;
      if kind.KafkaClient? && !outcome.Refused? {
        log := log + [Message(entry.id, Topic(topic), event)];
        err := outcome.Ambiguous?;
      }
    }

    method PublishToRabbitMQ(exchange: string, key: string, event: Event, entry: Row, outcome: Outcome)
      returns (err: bool)
      modifies this`log
      ensures err == !(kind.RabbitClient? && outcome.Acked?)
      ensures log == if kind.RabbitClient? && !outcome.Refused?
                     then old(log) + [Message(entry.id, Exchange(exchange, key), event)] else old(log)
    {
      err := true;
      if kind.RabbitClient? && !outcome.Refused? {
        log := log + [Message(entry.id, Exchange(exchange, key), event)];
        err := outcome.Ambiguous?;
      }
    }
  }
}
