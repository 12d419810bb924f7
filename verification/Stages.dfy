/** The transform and enrich stages on heap objects: what they share, what they
    copy, and what an event looks like after them. */
module Stages {
  import opened Domain

  /** A Go map: a reference, possibly nil, to entries that can be updated in place. */
  class GoMap<K(==), V> {
    var entries: map<K, V>

    constructor ()
      ensures entries == map[]
    {
      entries := map[];
    }
  }

  /** Reading a nil map finds nothing. */
  function Entries<K(==), V>(m: GoMap?<K, V>): map<K, V>
    reads m
  {
    if m == null then map[] else m.entries
  }

  class EventObject {
    var id: string
    var typ: string
    var payload: GoMap?<string, Value>
    var metadata: GoMap?<string, string>
    var timestamp: int

    constructor (
      id: string, typ: string, payload: GoMap?<string, Value>, metadata: GoMap?<string, string>, timestamp: int)
      ensures this.id == id && this.typ == typ && this.timestamp == timestamp
      ensures this.payload == payload && this.metadata == metadata
    {
      this.id, this.typ, this.payload, this.metadata, this.timestamp := id, typ, payload, metadata, timestamp;
    }

    /** The event as a value. */
    function Get(): Event
      reads this, payload, metadata
    {
      Event(id, typ, Entries(payload), Entries(metadata), timestamp)
    }
  }

  // ---- what the default stages do to an event, as values ----

  /** RFC 3339 text of an instant; the text itself does not matter here. */
  type Formatter = int -> string

  function TextOf(format: Formatter, v: Value): Value {
    if v.Instant? then Text(format(v.at)) else v
  }

  function TimesAsText(format: Formatter, e: Event): Event {
    e.(payload := map k | k in e.payload :: TextOf(format, e.payload[k]))
  }

  function Stamped(format: Formatter, e: Event, now: int): Event {
    e.(metadata := e.metadata["processed_at" := format(now)])
  }

  /** The default stages are registered under the type "*" and looked up by the
      event's own type, so they reach no other event. */
  function AfterStages(format: Formatter, e: Event, now: int): Event {
    if e.typ == "*" then Stamped(format, TimesAsText(format, e), now) else e
  }

  ghost predicate HasInstant(e: Event) {
    exists k :: k in e.payload && e.payload[k].Instant?
  }

  lemma TimesAsTextFixed(format: Formatter, e: Event)
    requires !HasInstant(e)
    ensures TimesAsText(format, e) == e
  {
    var p := map k | k in e.payload :: TextOf(format, e.payload[k]);
    assert p.Keys == e.payload.Keys;
    forall k | k in e.payload ensures p[k] == e.payload[k] {
      assert !e.payload[k].Instant?;
    }
    assert p == e.payload;
  }

  /** The default transform puts the text of an instant in the place of each top-level
      time value and changes nothing else, and doing it twice is doing it once. */
  lemma TransformIsIdempotent(format: Formatter, e: Event)
    ensures !HasInstant(TimesAsText(format, e))
    ensures TimesAsText(format, TimesAsText(format, e)) == TimesAsText(format, e)
    ensures TimesAsText(format, e).payload.Keys == e.payload.Keys
    ensures forall k :: k in e.payload && !e.payload[k].Instant? ==> TimesAsText(format, e).payload[k] == e.payload[k]
    ensures
      forall k :: k in e.payload && e.payload[k].Instant? ==>
        TimesAsText(format, e).payload[k] == Text(format(e.payload[k].at))
    ensures TimesAsText(format, e).metadata == e.metadata
  {
    TimesAsTextFixed(format, TimesAsText(format, e));
  }

  /** The stages keep ID, type and timestamp, and all metadata but `processed_at`,
      which they set for events of the type "*". */
  lemma StagesKeepIdentity(format: Formatter, e: Event, now: int)
    ensures
      var r := AfterStages(format, e, now);
      && r.id == e.id && r.typ == e.typ && r.timestamp == e.timestamp && r.payload.Keys == e.payload.Keys
      && r.metadata - {"processed_at"} == e.metadata - {"processed_at"}
      && (e.typ != "*" ==> r == e)
      && (e.typ == "*" ==>
            && "processed_at" in r.metadata && r.metadata["processed_at"] == format(now)
            && forall k :: k in e.payload ==>
                 r.payload[k] == if e.payload[k].Instant? then Text(format(e.payload[k].at)) else e.payload[k])
  {
    TransformIsIdempotent(format, e);
    var r := AfterStages(format, e, now);
    assert r.metadata - {"processed_at"} == e.metadata - {"processed_at"};
  }

  /** Exactly when the stages are without effect: for every type but "*", and for
      "*" only if there is no time value left and the stamp is already there. */
  lemma StagesChangeNothingIff(format: Formatter, e: Event, now: int)
    ensures
      AfterStages(format, e, now) == e <==>
        e.typ != "*"
        || (!HasInstant(e) && "processed_at" in e.metadata && e.metadata["processed_at"] == format(now))
  {
    if e.typ == "*" {
      var r := AfterStages(format, e, now);
      if r == e {
        TransformIsIdempotent(format, e);
        assert r.payload == TimesAsText(format, e).payload;
        assert r.metadata["processed_at"] == format(now);
      }
      if !HasInstant(e) && "processed_at" in e.metadata && e.metadata["processed_at"] == format(now) {
        TimesAsTextFixed(format, e);
        assert e.metadata["processed_at" := format(now)] == e.metadata;
      }
    }
  }

  // ---- the stages themselves ----

  /** The one transformation and the one enrichment the service defines. */
  datatype Transformation = IsoTimes
  datatype Enrichment = Timestamping

  method CopyEntries(from: GoMap?<string, string>, to: GoMap<string, string>)
    requires from != to && to.entries == map[]
    modifies to
    ensures to.entries == Entries(from)
  {
    var source := Entries(from);
    var keys := source.Keys;
    while keys != {}
      invariant keys <= source.Keys
      invariant to.entries == map k | k in source && k !in keys :: source[k]
      invariant source == Entries(from)
      decreases keys
    {
      var k :| k in keys;
      to.entries := to.entries[k := source[k]];
      keys := keys - {k};
    }
  }

  /** Copies the event; payload and metadata of the copy are new maps. */
  method TransformTimes(format: Formatter, event: EventObject) returns (r: EventObject)
    ensures fresh(r) && r.payload != null && fresh(r.payload) && r.metadata != null && fresh(r.metadata)
    ensures r.Get() == TimesAsText(format, event.Get())
    ensures r.id == event.id && r.typ == event.typ && r.timestamp == event.timestamp
    ensures r.metadata.entries == Entries(event.metadata) && r.payload.entries.Keys == Entries(event.payload).Keys
    ensures
      forall k :: k in Entries(event.payload) ==>
        r.payload.entries[k] ==
        match Entries(event.payload)[k]
        case Instant(at) => Text(format(at))
        case v => v
  {
    var payload := new GoMap<string, Value>();
    var metadata := new GoMap<string, string>();
    CopyEntries(event.metadata, metadata);
    var source := Entries(event.payload);
    var keys := source.Keys;
    while keys != {}
      invariant keys <= source.Keys
      invariant payload.entries == map k | k in source && k !in keys :: TextOf(format, source[k])
      invariant metadata.entries == Entries(event.metadata)
      decreases keys
    {
      var k :| k in keys;
      payload.entries := payload.entries[k := if source[k].Instant? then Text(format(source[k].at)) else source[k]];
      keys := keys - {k};
    }
    r := new EventObject(event.id, event.typ, payload, metadata, event.timestamp);
  }

  /** Copies the event and its metadata and stamps the copy. The payload is not
      copied: the new event refers to the same map. */
  method EnrichStamp(format: Formatter, event: EventObject, now: int) returns (r: EventObject)
    ensures fresh(r) && r.payload == event.payload && r.metadata != null && fresh(r.metadata)
    ensures r.Get() == Stamped(format, event.Get(), now)
    ensures r.id == event.id && r.typ == event.typ && r.timestamp == event.timestamp
    ensures r.metadata.entries == Entries(event.metadata)["processed_at" := format(now)]
  {
    var metadata := new GoMap<string, string>();
    CopyEntries(event.metadata, metadata);
    metadata.entries := metadata.entries["processed_at" := format(now)];
    r := new EventObject(event.id, event.typ, event.payload, metadata, event.timestamp);
  }

  class EventTransformer {
    var transformations: map<string, Transformation>

    constructor ()
      ensures transformations == map[]
    {
      transformations := map[];
    }

    method RegisterTransformation(typ: string, t: Transformation)
      modifies this
      ensures transformations == old(transformations)[typ := t]
    {
      transformations := transformations[typ := t];
    }

    /** An event without a transformation of its own type is handed on as it is:
        the same object. No existing object is written to in either case. */
    method Transform(format: Formatter, event: EventObject) returns (r: EventObject)
      ensures event.typ !in transformations ==> r == event
      ensures event.typ in transformations ==> fresh(r) && r.payload != event.payload && r.metadata != event.metadata
      ensures r.Get() == if event.typ in transformations then TimesAsText(format, event.Get()) else event.Get()
    {
      if event.typ !in transformations { return event; }
      r := TransformTimes(format, event);
    }
  }

  class EventEnricher {
    var enrichers: map<string, Enrichment>

    constructor ()
      ensures enrichers == map[]
    {
      enrichers := map[];
    }

    method RegisterEnricher(typ: string, e: Enrichment)
      modifies this
      ensures enrichers == old(enrichers)[typ := e]
    {
      enrichers := enrichers[typ := e];
    }

    method Enrich(format: Formatter, event: EventObject, now: int) returns (r: EventObject)
      ensures event.typ !in enrichers ==> r == event
      ensures event.typ in enrichers ==> fresh(r) && r.payload == event.payload && r.metadata != event.metadata
      ensures r.Get() == if event.typ in enrichers then Stamped(format, event.Get(), now) else event.Get()
    {
      if event.typ !in enrichers { return event; }
      r := EnrichStamp(format, event, now);
    }
  }
}
