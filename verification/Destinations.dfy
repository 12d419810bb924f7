/** Where messages go, and what happens to rows the broker client cannot send. */
module Destinations {
  import opened Routing
  import opened Protocol
  import opened Safety

  /** Every row of a reachable table parses to an event with the row's own ID and
      type; so routing by the parsed type and budgeting by the stored type agree. */
  lemma RowsParse(c: Config, ws: set<WorkerId>, ls: seq<Label>, s: State, id: nat)
    requires c.codec.Lawful() && Run(c, Start(ws), ls, s) && id in s.table
    ensures
      var parsed := c.codec.decode(s.table[id].payload);
      parsed.Some? && parsed.value.id == s.table[id].eventId && parsed.value.typ == s.table[id].eventType
  {
    RunIsSafe(c, ws, ls, s);
    assert RowSound(s, id) && BornSound(c, s, id);
    BornParses(c, s, id);
  }

  /** While a worker sends a row, the type it routes by, taken from the parsed event,
      is the type it will take the retry budget from, the row's own. */
  lemma RouteAndBudgetAgree(c: Config, ws: set<WorkerId>, ls: seq<Label>, s: State, w: WorkerId)
    requires c.codec.Lawful() && Run(c, Start(ws), ls, s) && AtSending(s, w)
    ensures s.workers[w].stage.event.typ == CurrentOf(s, w).eventType
    ensures s.workers[w].stage.event.id == CurrentOf(s, w).eventId
  {
    RunIsSafe(c, ws, ls, s);
    assert PcSound(c, s, s.workers[w]);
    var id := CurrentOf(s, w).id;
    assert BornSound(c, s, id);
    BornParses(c, s, id);
  }

  /** A Kafka client delivers only rows whose broker is not "rabbitmq", to their
      topic; a RabbitMQ client only rows whose broker is exactly "rabbitmq", to
      their exchange and key. */
  lemma DestinationSoundness(c: Config, ws: set<WorkerId>, ls: seq<Label>, s: State, k: nat)
    requires c.codec.Lawful() && Run(c, Start(ws), ls, s) && k < |s.log|
    ensures s.log[k].row < |s.past| && s.log[k].event.typ == s.past[s.log[k].row].source.typ
    ensures s.log[k].event.id == s.past[s.log[k].row].source.id
    ensures
      var typ := s.past[s.log[k].row].source.typ;
      s.log[k].dest ==
        (match c.client
         case KafkaClient => Topic(TopicFor(c.routing, typ))
         case RabbitClient => Exchange(ExchangeFor(c.routing, typ), RoutingKeyFor(c.routing, typ)))
      && (c.client.RabbitClient? <==> BrokerFor(c.routing, typ) == "rabbitmq")
  {
    RunIsSafe(c, ws, ls, s);
    var m := s.log[k];
    assert MessageSound(c, s, m) && BornSound(c, s, m.row);
    BornParses(c, s, m.row);
  }

  /** Duplicates of a row all carry one event to one place. */
  lemma DuplicatesAgree(c: Config, ws: set<WorkerId>, ls: seq<Label>, s: State, j: nat, k: nat)
    requires c.codec.Lawful() && Run(c, Start(ws), ls, s) && j < |s.log| && k < |s.log| && s.log[j].row == s.log[k].row
    ensures s.log[j] == s.log[k]
  {
    RunIsSafe(c, ws, ls, s);
    assert MessageSound(c, s, s.log[j]) && MessageSound(c, s, s.log[k]);
  }

  /** A row routed to the broker the client does not speak to is never delivered,
      never PUBLISHED and never cleaned up: it stays until it is FAILED, and then
      it stays FAILED. */
  lemma UnreachableRowsStay(c: Config, ws: set<WorkerId>, ls: seq<Label>, s: State, id: nat)
    requires c.codec.Lawful() && Run(c, Start(ws), ls, s) && id < |s.past|
    requires !Speaks(c.client, Resolve(c.routing, s.past[id].source.typ))
    ensures Deliveries(s.log, id) == 0
    ensures id in s.table && !s.table[id].status.Published? && s.table[id].publishedAt.None?
  {
    RunIsSafe(c, ws, ls, s);
    assert BornSound(c, s, id) && RowDelivered(s, id);
    forall k | 0 <= k < |s.log| ensures s.log[k].row != id {
      assert MessageSound(c, s, s.log[k]);
    }
    NoneForRow(s.log, id);
  }
}
