/** Values shared by every component: events, outbox rows, and the JSON codec
    as an abstract pair of functions with a round-trip law. */
module Domain {

  datatype Option<+T> = None | Some(value: T)

  /** A payload value. `Instant` is a Go time.Time; `Other` is any value the
      default stages never look into. */
  datatype Value = Instant(at: int) | Text(text: string) | Other(json: string)

  datatype Event = Event(
    id: string,
    typ: string,
    payload: map<string, Value>,
    metadata: map<string, string>,
    timestamp: int)

  datatype Status = Pending | Published | Failed

  datatype Row = Row(
    id: nat,
    eventId: string,
    eventType: string,
    payload: string,
    status: Status,
    retryCount: nat,
    createdAt: int,
    publishedAt: Option<int>)

  /** JSON marshalling of events. Marshalling may fail; whatever it yields can be
      parsed again, and the parsed event has the same ID and type. Nothing else
      is promised: other fields may be normalised on the way. */
  datatype Codec = Codec(encode: Event -> Option<string>, decode: string -> Option<Event>) {
    ghost predicate Lawful() {
      forall e: Event ::
        encode(e).Some? ==>
          var back := decode(encode(e).value);
          back.Some? && back.value.id == e.id && back.value.typ == e.typ
    }
  }

  /** What a repository call that changes a row did, and what its caller was told. */
  datatype Fate = Commits | Refuses | CommitsButErrs {
    predicate Lands() { !Refuses? }
    predicate Errs() { !Commits? }
  }
}
