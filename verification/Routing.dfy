/** The five resolvers of the routing service, and the destination they fix. */
module Routing {

  datatype RouteConfig = RouteConfig(
    broker: string,
    maxRetries: int,
    topic: string,
    exchange: string,
    routingKey: string)

  datatype RoutingConfig = RoutingConfig(defaults: RouteConfig, routes: map<string, RouteConfig>)

  datatype Dest = Topic(name: string) | Exchange(name: string, key: string)

  function TopicFor(r: RoutingConfig, typ: string): string {
    if typ in r.routes && r.routes[typ].topic != "" then r.routes[typ].topic
    else if r.defaults.topic != "" then r.defaults.topic
    else typ
  }

  function ExchangeFor(r: RoutingConfig, typ: string): string {
    if typ in r.routes && r.routes[typ].exchange != "" then r.routes[typ].exchange
    else if r.defaults.exchange != "" then r.defaults.exchange
    else "events"
  }

  function RoutingKeyFor(r: RoutingConfig, typ: string): string {
    if typ in r.routes && r.routes[typ].routingKey != "" then r.routes[typ].routingKey
    else typ
  }

  function BrokerFor(r: RoutingConfig, typ: string): string {
    if typ in r.routes && r.routes[typ].broker != "" then r.routes[typ].broker
    else r.defaults.broker
  }

  /** A retry budget is never zero or negative, whatever the configuration says. */
  function MaxRetries(r: RoutingConfig, typ: string): (m: nat)
    ensures m >= 1
  {
    if typ in r.routes && r.routes[typ].maxRetries > 0 then r.routes[typ].maxRetries
    else if r.defaults.maxRetries > 0 then r.defaults.maxRetries
    else 3
  }

  /** Where an event of a type is published: only the exact broker name
      "rabbitmq" leads to an exchange, every other name falls back to Kafka. */
  function Resolve(r: RoutingConfig, typ: string): Dest {
    match BrokerFor(r, typ)
    case "kafka" => Topic(TopicFor(r, typ))
    case "rabbitmq" => Exchange(ExchangeFor(r, typ), RoutingKeyFor(r, typ))
    case _ => Topic(TopicFor(r, typ))
  }

  // ---- a reference for all five: the first candidate that is set ----

  function FirstSet(candidates: seq<string>): string {
    if candidates == [] then "" else if candidates[0] != "" then candidates[0] else FirstSet(candidates[1..])
  }

  function FirstPositive(candidates: seq<int>): int {
    if candidates == [] then 0 else if candidates[0] > 0 then candidates[0] else FirstPositive(candidates[1..])
  }

  lemma FirstSetStep(a: string, rest: seq<string>)
    ensures FirstSet([a] + rest) == if a != "" then a else FirstSet(rest)
  {
    assert ([a] + rest)[1..] == rest;
  }

  lemma FirstPositiveStep(a: int, rest: seq<int>)
    ensures FirstPositive([a] + rest) == if a > 0 then a else FirstPositive(rest)
  {
    assert ([a] + rest)[1..] == rest;
  }

  /** The type's own route; a type without one has a route with nothing set. */
  function Own(r: RoutingConfig, typ: string): RouteConfig {
    if typ in r.routes then r.routes[typ] else RouteConfig("", 0, "", "", "")
  }

  /** Each resolver takes the first setting of its chain: the type's own route, the
      configured defaults (routing keys have none), and the built-in fallback. */
  lemma ResolversTakeFirstSet(r: RoutingConfig, typ: string)
    ensures TopicFor(r, typ) == FirstSet([Own(r, typ).topic, r.defaults.topic, typ])
    ensures ExchangeFor(r, typ) == FirstSet([Own(r, typ).exchange, r.defaults.exchange, "events"])
    ensures RoutingKeyFor(r, typ) == FirstSet([Own(r, typ).routingKey, typ])
    ensures BrokerFor(r, typ) == FirstSet([Own(r, typ).broker, r.defaults.broker])
    ensures MaxRetries(r, typ) == FirstPositive([Own(r, typ).maxRetries, r.defaults.maxRetries, 3])
  {
    var own := Own(r, typ);
    FirstSetStep(own.topic, [r.defaults.topic] + [typ]);
    FirstSetStep(r.defaults.topic, [typ]);
    assert [own.topic] + ([r.defaults.topic] + [typ]) == [own.topic, r.defaults.topic, typ];
    FirstSetStep(own.exchange, [r.defaults.exchange] + ["events"]);
    FirstSetStep(r.defaults.exchange, ["events"]);
    assert [own.exchange] + ([r.defaults.exchange] + ["events"]) == [own.exchange, r.defaults.exchange, "events"];
    FirstSetStep(own.routingKey, [typ]);
    assert [own.routingKey] + [typ] == [own.routingKey, typ];
    FirstSetStep(own.broker, [r.defaults.broker]);
    assert [own.broker] + [r.defaults.broker] == [own.broker, r.defaults.broker];
    FirstPositiveStep(own.maxRetries, [r.defaults.maxRetries] + [3]);
    FirstPositiveStep(r.defaults.maxRetries, [3]);
    assert [own.maxRetries] + ([r.defaults.maxRetries] + [3]) == [own.maxRetries, r.defaults.maxRetries, 3];
  }
}
