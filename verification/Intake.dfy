/** The intake pipeline: validate, transform, enrich, and then either an outbox row
    or a dead letter, with other sessions registering schemas all the while. */
module Intake {
  import opened Domain
  import opened Protocol
  import opened Publisher
  import opened Schemas
  import opened Stages
  import opened DeadLetters

  /** What the schema library says about a payload; `Unusable` is an error of the
      library itself, such as a schema that is not valid JSON. */
  datatype Verdict = Accepted | Rejected | Unusable

  /** The parts of the service that are not modelled further. */
  datatype Judgement = Judgement(
    sizeOf: map<string, Value> -> Option<nat>,        // length of the marshalled payload
    accepts: (string, map<string, Value>) -> Verdict, // schema document, payload
    format: Formatter,
    maxPayloadSize: int)

  datatype ErrorKind =
    | PayloadUnmarshalable
    | PayloadTooLarge
    | NoSchema
    | SchemaLookupGaveUp
    | ValidationGaveUp
    | SchemaRejects
    | PublishingGaveUp

  /** The error `ProcessEvent` returns, if any: the original one once the event is
      in the dead letter queue, or a wrapped one if it could not be put there. */
  datatype Result = Done | DeadLettered(kind: ErrorKind) | DeadLetterFailed(kind: ErrorKind)

  /** One try of a schema query: what other sessions register just before it, and
      whether the query fails. */
  datatype Lookup = Lookup(arrivals: seq<EventSchema>, fails: bool)

  /** What the environment does during one `ProcessEvent`. Each list holds the tries
      of one retry loop; when a list runs out the loop gives up. */
  datatype Script = Script(
    lookups: seq<Lookup>,
    validations: seq<Lookup>,
    enrichedAt: int,
    saves: seq<SaveAttempt>,
    letterAt: int,
    letterFate: LetterFate)

  /** An event holds its payload, so it cannot be marshalled if its payload cannot. */
  ghost predicate MarshalsPayload(j: Judgement, codec: Codec) {
    forall e: Event :: j.sizeOf(e.payload).None? ==> codec.encode(e).None?
  }

  /** The schema in force for the type when the table had `n` rows. */
  ghost predicate JudgedAt(j: Judgement, rows: seq<EventSchema>, n: nat, e: Event, verdict: Verdict) {
    n <= |rows| && exists schema :: IsLatest(rows[..n], e.typ, schema) && j.accepts(schema.data, e.payload) == verdict
  }

  /** At some moment between two lengths of the table the schema then in force gave
      this verdict. */
  ghost predicate JudgedBetween(j: Judgement, rows: seq<EventSchema>, from: nat, e: Event, verdict: Verdict) {
    exists n: nat :: from <= n && JudgedAt(j, rows, n, e, verdict)
  }

  lemma JudgedBetweenStays(
    j: Judgement, rows: seq<EventSchema>, rows': seq<EventSchema>, from: nat, e: Event, verdict: Verdict)
    requires rows <= rows' && JudgedBetween(j, rows, from, e, verdict)
    ensures JudgedBetween(j, rows', from, e, verdict)
  {
    var n: nat :| from <= n && JudgedAt(j, rows, n, e, verdict);
    assert rows'[..n] == rows[..n];
    assert JudgedAt(j, rows', n, e, verdict);
  }

  ghost predicate Fits(j: Judgement, e: Event) {
    j.sizeOf(e.payload).Some? && j.sizeOf(e.payload).value <= j.maxPayloadSize
  }

  /** What the events of new outbox rows have been through. */
  ghost predicate Admitted(j: Judgement, e: Event, rows: seq<EventSchema>, from: nat) {
    Fits(j, e) && JudgedBetween(j, rows, from, e, Accepted)
  }

  ghost predicate AllFail(tries: seq<Lookup>) {
    forall n :: 0 <= n < |tries| ==> tries[n].fails
  }

  /** What an error says about the event, the environment and the schema table: a
      loop gives up only if none of its tries could succeed. */
  ghost predicate Explains(
    j: Judgement, kind: ErrorKind, e: Event, s: Script, before: seq<EventSchema>, after: seq<EventSchema>)
  {
    match kind
    case PayloadUnmarshalable => j.sizeOf(e.payload).None?
    case PayloadTooLarge => j.sizeOf(e.payload).Some? && j.sizeOf(e.payload).value > j.maxPayloadSize
    case NoSchema => Fits(j, e) && !HasType(before, e.typ)
    case SchemaLookupGaveUp => Fits(j, e) && AllFail(s.lookups)
    case SchemaRejects => Fits(j, e) && JudgedBetween(j, after, |before|, e, Rejected)
    case ValidationGaveUp => Fits(j, e) && (AllFail(s.validations) || JudgedBetween(j, after, |before|, e, Unusable))
    case PublishingGaveUp => Admitted(j, e, after, |before|)
  }

  // ---- which try of a loop decides ----

  /** All that other sessions register during these tries, in order. */
  function Arrivals(tries: seq<Lookup>): seq<EventSchema> {
    if tries == [] then [] else Arrivals(tries[..|tries| - 1]) + tries[|tries| - 1].arrivals
  }

  lemma {:induction false} ArrivalsExactly(tries: seq<Lookup>, s: EventSchema)
    ensures s in Arrivals(tries) <==> exists k :: 0 <= k < |tries| && s in tries[k].arrivals
  {
    if tries != [] {
      var front := tries[..|tries| - 1];
      ArrivalsExactly(front, s);
      assert forall k :: 0 <= k < |front| ==> front[k] == tries[k];
    }
  }

  /** The type has a schema before the tries, or one arrives during them. */
  ghost predicate SchemaKnown(rows: seq<EventSchema>, typ: string, tries: seq<Lookup>) {
    HasType(rows, typ) || exists k :: 0 <= k < |tries| && HasType(tries[k].arrivals, typ)
  }

  lemma {:induction false} KnownAfterwards(rows: seq<EventSchema>, typ: string, tries: seq<Lookup>)
    ensures HasType(Registered(rows, Arrivals(tries)), typ) <==> SchemaKnown(rows, typ, tries)
  {
    var arrived := Arrivals(tries);
    TypeAfterwards(rows, arrived, typ);
    if k :| 0 <= k < |arrived| && arrived[k].eventType == typ {
      ArrivalsExactly(tries, arrived[k]);
      var i :| 0 <= i < |tries| && arrived[k] in tries[i].arrivals;
      assert HasType(tries[i].arrivals, typ);
    }
    if i :| 0 <= i < |tries| && HasType(tries[i].arrivals, typ) {
      var k :| 0 <= k < |tries[i].arrivals| && tries[i].arrivals[k].eventType == typ;
      ArrivalsExactly(tries, tries[i].arrivals[k]);
      assert tries[i].arrivals[k] in arrived;
    }
  }

  lemma OneTryMore(rows: seq<EventSchema>, tries: seq<Lookup>, n: nat)
    requires n < |tries|
    ensures
      Registered(Registered(rows, Arrivals(tries[..n])), tries[n].arrivals) ==
      Registered(rows, Arrivals(tries[..n + 1]))
  {
    assert tries[..n + 1][..n] == tries[..n];
    RegisteredChain(rows, Arrivals(tries[..n]), tries[n].arrivals);
  }

  /** The first lookup that gets an answer decides, at try `n`; none does if `n` is the
      number of tries. */
  ghost predicate LookedUp(
    typ: string, rows: seq<EventSchema>, lookups: seq<Lookup>, n: nat, failure: Option<ErrorKind>)
  {
    && n <= |lookups| && (forall k :: 0 <= k < n ==> lookups[k].fails)
    && if n == |lookups| then failure == Some(SchemaLookupGaveUp)
       else
         && !lookups[n].fails
         && failure == if SchemaKnown(rows, typ, lookups[..n + 1]) then None else Some(NoSchema)
  }

  lemma LookupAnswered(
    typ: string, rows: seq<EventSchema>, lookups: seq<Lookup>, n: nat, table: seq<EventSchema>, found: bool)
    requires n < |lookups| && (forall k :: 0 <= k < n ==> lookups[k].fails) && !lookups[n].fails
    requires table == Registered(rows, Arrivals(lookups[..n + 1])) && found == HasType(table, typ)
    ensures LookedUp(typ, rows, lookups, n, if found then None else Some(NoSchema)) && !AllFail(lookups)
    ensures !found ==> !HasType(rows, typ)
    ensures found <==> HasType(rows, typ) || exists k :: 0 <= k <= n && HasType(lookups[k].arrivals, typ)
  {
    var made := lookups[..n + 1];
    KnownAfterwards(rows, typ, made);
    assert forall k :: 0 <= k <= n ==> made[k] == lookups[k];
  }

  /** The latest schema of the event's type in this table gives this verdict. */
  ghost predicate InForce(j: Judgement, rows: seq<EventSchema>, e: Event, verdict: Verdict) {
    exists schema :: IsLatest(rows, e.typ, schema) && j.accepts(schema.data, e.payload) == verdict
  }

  /** The first `n` tries got no verdict. */
  ghost predicate NoVerdict(j: Judgement, e: Event, rows: seq<EventSchema>, tries: seq<Lookup>, n: nat)
    requires n <= |tries|
  {
    forall k :: 0 <= k < n ==>
      tries[k].fails || InForce(j, Registered(rows, Arrivals(tries[..k + 1])), e, Unusable)
  }

  lemma NoVerdictNext(
    j: Judgement, e: Event, rows: seq<EventSchema>, tries: seq<Lookup>, n: nat, table: seq<EventSchema>)
    requires n < |tries| && NoVerdict(j, e, rows, tries, n) && table == Registered(rows, Arrivals(tries[..n + 1]))
    requires tries[n].fails
    ensures NoVerdict(j, e, rows, tries, n + 1)
  {
  }

  /** The first try that gets a verdict decides, at try `m`: failed queries and schemas
      that cannot be used are tried again, each time with the latest schema. */
  ghost predicate Judged(
    j: Judgement, e: Event, rows: seq<EventSchema>, tries: seq<Lookup>, m: nat, failure: Option<ErrorKind>)
  {
    && m <= |tries| && NoVerdict(j, e, rows, tries, m)
    && if m == |tries| then failure == Some(ValidationGaveUp)
       else
         && !tries[m].fails
         && var table := Registered(rows, Arrivals(tries[..m + 1]));
            || (failure.None? && InForce(j, table, e, Accepted))
            || (failure == Some(SchemaRejects) && InForce(j, table, e, Rejected))
  }

  lemma VerdictDecides(
    j: Judgement, e: Event, rows: seq<EventSchema>, tries: seq<Lookup>, m: nat, table: seq<EventSchema>,
    schema: EventSchema, verdict: Verdict)
    requires m < |tries| && NoVerdict(j, e, rows, tries, m) && !tries[m].fails
    requires table == Registered(rows, Arrivals(tries[..m + 1])) && IsLatest(table, e.typ, schema)
    requires verdict == j.accepts(schema.data, e.payload)
    ensures verdict.Accepted? ==> Judged(j, e, rows, tries, m, None)
    ensures verdict.Rejected? ==> Judged(j, e, rows, tries, m, Some(SchemaRejects))
    ensures verdict.Unusable? ==> NoVerdict(j, e, rows, tries, m + 1)
  {
    assert InForce(j, table, e, verdict);
  }

  lemma InForceBetween(
    j: Judgement, e: Event, before: seq<EventSchema>, table: seq<EventSchema>, after: seq<EventSchema>,
    verdict: Verdict)
    requires before <= table <= after && InForce(j, table, e, verdict)
    ensures JudgedBetween(j, after, |before|, e, verdict)
  {
    assert after[..|table|] == table;
    assert JudgedAt(j, after, |table|, e, verdict);
  }

  lemma {:induction false} TableGrows(rows: seq<EventSchema>, tries: seq<Lookup>, k: nat, n: nat)
    requires k <= n <= |tries|
    ensures Registered(rows, Arrivals(tries[..k])) <= Registered(rows, Arrivals(tries[..n]))
    decreases n - k
  {
    if k < n {
      TableGrows(rows, tries, k, n - 1);
      OneTryMore(rows, tries, n - 1);
    }
  }

  lemma UnusableBetween(
    j: Judgement, e: Event, before: seq<EventSchema>, found: seq<EventSchema>, tries: seq<Lookup>, k: nat)
    requires before <= found && k < |tries| && !tries[k].fails && NoVerdict(j, e, found, tries, |tries|)
    ensures JudgedBetween(j, Registered(found, Arrivals(tries)), |before|, e, Unusable)
  {
    TableGrows(found, tries, k + 1, |tries|);
    assert tries[..|tries|] == tries;
    InForceBetween(j, e, before, Registered(found, Arrivals(tries[..k + 1])), Registered(found, Arrivals(tries)),
      Unusable);
  }

  /** What the verdict of the second loop says about the table during the call. */
  lemma JudgedMeans(
    j: Judgement, e: Event, before: seq<EventSchema>, found: seq<EventSchema>, tries: seq<Lookup>, m: nat,
    failure: Option<ErrorKind>, after: seq<EventSchema>)
    requires before <= found && Judged(j, e, found, tries, m, failure)
    requires after == Registered(found, Arrivals(tries[..if m < |tries| then m + 1 else |tries|]))
    ensures failure.None? ==> JudgedBetween(j, after, |before|, e, Accepted)
    ensures failure == Some(SchemaRejects) ==> JudgedBetween(j, after, |before|, e, Rejected)
    ensures
      failure == Some(ValidationGaveUp) ==> AllFail(tries) || JudgedBetween(j, after, |before|, e, Unusable)
  {
    if m < |tries| {
      InForceBetween(j, e, before, after, after, if failure.None? then Accepted else Rejected);
    } else {
      assert tries[..|tries|] == tries;
      if !AllFail(tries) {
        var k :| 0 <= k < |tries| && !tries[k].fails;
        UnusableBetween(j, e, before, found, tries, k);
      }
    }
  }

  /** Both loops: the second one goes on from the table the first one left. */
  ghost predicate Checked(
    j: Judgement, e: Event, rows: seq<EventSchema>, s: Script, n: nat, m: nat, failure: Option<ErrorKind>)
  {
    if n < |s.lookups| && SchemaKnown(rows, e.typ, s.lookups[..n + 1]) then
      && LookedUp(e.typ, rows, s.lookups, n, None)
      && Judged(j, e, Registered(rows, Arrivals(s.lookups[..n + 1])), s.validations, m, failure)
    else LookedUp(e.typ, rows, s.lookups, n, failure)
  }

  /** The stages before publishing, with the size check first. */
  ghost predicate Prepared(
    j: Judgement, e: Event, rows: seq<EventSchema>, s: Script, n: nat, m: nat, failure: Option<ErrorKind>)
  {
    var size := j.sizeOf(e.payload);
    if size.None? then failure == Some(PayloadUnmarshalable)
    else if size.value > j.maxPayloadSize then failure == Some(PayloadTooLarge)
    else Checked(j, e, rows, s, n, m, failure)
  }

  /** The whole pipeline: publishing comes last, and gives up exactly if the event as
      staged cannot be encoded or no save reports success. */
  ghost predicate Decided(
    j: Judgement, codec: Codec, e: Event, rows: seq<EventSchema>, s: Script, n: nat, m: nat,
    failure: Option<ErrorKind>)
  {
    var stored :=
      && codec.encode(AfterStages(j.format, e, s.enrichedAt)).Some?
      && exists k :: 0 <= k < |s.saves| && s.saves[k].fate.Commits?;
    if failure.None? || failure.value.PublishingGaveUp? then
      (failure.None? <==> stored) && Prepared(j, e, rows, s, n, m, None)
    else Prepared(j, e, rows, s, n, m, failure)
  }

  /** The outcome of a call, decided check by check: the size first; then the first
      lookup that gets an answer, by the schemas registered until then; then the first
      verdict, by the latest schema at that try; then encoding and saving. */
  lemma OutcomeInOrder(
    j: Judgement, codec: Codec, e: Event, rows: seq<EventSchema>, s: Script, n: nat, m: nat,
    failure: Option<ErrorKind>)
    requires Decided(j, codec, e, rows, s, n, m, failure)
    ensures
      var size := j.sizeOf(e.payload);
      if size.None? then failure == Some(PayloadUnmarshalable)
      else if size.value > j.maxPayloadSize then failure == Some(PayloadTooLarge)
      else
        && n <= |s.lookups| && (forall k :: 0 <= k < n ==> s.lookups[k].fails)
        && if n == |s.lookups| then failure == Some(SchemaLookupGaveUp)
           else if !HasType(rows, e.typ) && forall k :: 0 <= k <= n ==> !HasType(s.lookups[k].arrivals, e.typ)
           then !s.lookups[n].fails && failure == Some(NoSchema)
           else
             var found := Registered(rows, Arrivals(s.lookups[..n + 1]));
             && !s.lookups[n].fails && m <= |s.validations|
             && (forall k :: 0 <= k < m ==>
                   || s.validations[k].fails
                   || exists schema ::
                        && IsLatest(Registered(found, Arrivals(s.validations[..k + 1])), e.typ, schema)
                        && j.accepts(schema.data, e.payload) == Unusable)
             && if m == |s.validations| then failure == Some(ValidationGaveUp)
                else
                  var table := Registered(found, Arrivals(s.validations[..m + 1]));
                  && !s.validations[m].fails
                  && if failure == Some(SchemaRejects) then
                       exists schema ::
                         IsLatest(table, e.typ, schema) && j.accepts(schema.data, e.payload) == Rejected
                     else
                       && (exists schema ::
                             IsLatest(table, e.typ, schema) && j.accepts(schema.data, e.payload) == Accepted)
                       && failure ==
                          if codec.encode(AfterStages(j.format, e, s.enrichedAt)).Some?
                             && exists k :: 0 <= k < |s.saves| && s.saves[k].fate.Commits?
                          then None else Some(PublishingGaveUp)
  {
    if n < |s.lookups| {
      var made := s.lookups[..n + 1];
      assert forall k :: 0 <= k <= n ==> made[k] == s.lookups[k];
    }
  }

  class EventProcessor {
    const schemas: SchemaRepository
    const publisher: EventPublisher
    const deadLetters: DeadLetterService
    const transformer: EventTransformer
    const enricher: EventEnricher
    const judge: Judgement
    const describe: ErrorKind -> string

    /** The components are separate objects, and only the default stages are registered. */
    ghost predicate Valid()
      reads this, schemas, publisher.repo, deadLetters.repository, transformer, enricher
    {
      && schemas.Valid() && publisher.repo.Valid() && deadLetters.repository.Valid()
      && deadLetters.codec == publisher.c.codec && MarshalsPayload(judge, publisher.c.codec)
      && transformer.transformations.Keys == {"*"} && enricher.enrichers.Keys == {"*"}
    }

    constructor (
      schemas: SchemaRepository, publisher: EventPublisher, deadLetters: DeadLetterService,
      judge: Judgement, describe: ErrorKind -> string)
      requires schemas.Valid() && publisher.repo.Valid() && deadLetters.repository.Valid()
      requires deadLetters.codec == publisher.c.codec && MarshalsPayload(judge, publisher.c.codec)
      ensures Valid()
      ensures this.schemas == schemas && this.publisher == publisher && this.deadLetters == deadLetters
      ensures this.judge == judge && this.describe == describe
      ensures fresh(transformer) && fresh(enricher)
      ensures transformer.transformations == map["*" := IsoTimes] && enricher.enrichers == map["*" := Timestamping]
    {
      this.schemas, this.publisher, this.deadLetters := schemas, publisher, deadLetters;
      this.judge, this.describe := judge, describe;
      var t := new EventTransformer();
      t.RegisterTransformation("*", IsoTimes);
      var n := new EventEnricher();
      n.RegisterEnricher("*", Timestamping);
      this.transformer, this.enricher := t, n;
    }

    method ValidatePayloadSize(event: EventObject) returns (failure: Option<ErrorKind>)
      ensures
        var size := judge.sizeOf(Entries(event.payload));
        failure ==
        if size.None? then Some(PayloadUnmarshalable)
        else if size.value > judge.maxPayloadSize then Some(PayloadTooLarge)
        else None
      ensures failure.None? <==> Fits(judge, event.Get())
      ensures failure.Some? ==> failure.value in {PayloadUnmarshalable, PayloadTooLarge}
      ensures failure.Some? ==> forall s, rows :: Explains(judge, failure.value, event.Get(), s, rows, rows)
    {
      var size := judge.sizeOf(Entries(event.payload));
      if size.None? { return Some(PayloadUnmarshalable); }
      if size.value > judge.maxPayloadSize { return Some(PayloadTooLarge); }
      failure := None;
    }

    /** One try of either loop: the latest schema, after what others registered by then. */
    method Query(typ: string, tries: seq<Lookup>, i: nat, ghost before: seq<EventSchema>)
      returns (err: bool, found: Option<EventSchema>)
      requires schemas.Valid() && i < |tries| && schemas.rows == Registered(before, Arrivals(tries[..i]))
      modifies schemas
      ensures schemas.Valid() && schemas.rows == Registered(before, Arrivals(tries[..i + 1]))
      ensures err == tries[i].fails
      ensures !err ==> (found.Some? <==> HasType(schemas.rows, typ))
      ensures found.Some? ==> IsLatest(schemas.rows, typ, found.value)
    {
      schemas.Others(tries[i].arrivals);
      OneTryMore(before, tries, i);
      err, found := schemas.FindByType(typ, tries[i].fails);
    }

    /** The first retry loop: a failed query is tried again, a missing schema is not. The
        first query that gets an answer, at try `n`, decides. */
    method FindSchema(typ: string, lookups: seq<Lookup>) returns (failure: Option<ErrorKind>, ghost n: nat)
      requires schemas.Valid()
      modifies schemas
      ensures schemas.Valid() && old(schemas.rows) <= schemas.rows
      ensures
        schemas.rows ==
        Registered(old(schemas.rows), Arrivals(lookups[..if n < |lookups| then n + 1 else |lookups|]))
      ensures LookedUp(typ, old(schemas.rows), lookups, n, failure)
      ensures n <= |lookups| && (forall k :: 0 <= k < n ==> lookups[k].fails) && (n < |lookups| ==> !lookups[n].fails)
      ensures
        n < |lookups| ==>
          failure ==
          if HasType(old(schemas.rows), typ) || exists k :: 0 <= k <= n && HasType(lookups[k].arrivals, typ) then None
          else Some(NoSchema)
      ensures failure.None? ==> HasType(schemas.rows, typ)
      ensures failure == Some(NoSchema) ==> !HasType(old(schemas.rows), typ)
      ensures failure == Some(SchemaLookupGaveUp) <==> AllFail(lookups)
    {
      for i := 0 to |lookups|
        invariant schemas.Valid() && schemas.rows == Registered(old(schemas.rows), Arrivals(lookups[..i]))
        invariant forall k :: 0 <= k < i ==> lookups[k].fails
      {
        var err, found := Query(typ, lookups, i, old(schemas.rows));
        if !err {
          LookupAnswered(typ, old(schemas.rows), lookups, i, schemas.rows, found.Some?);
          return if found.None? then Some(NoSchema) else None, i;
        }
      }
      assert lookups[..|lookups|] == lookups;
      failure, n := Some(SchemaLookupGaveUp), |lookups|;
    }

    /** The second retry loop reads the schema again, so it may judge by a newer one.
        It finds one: schemas are never removed. The first verdict, at try `m`, decides;
        only failed queries and schemas that cannot be used are tried again. */
    method Validate(event: EventObject, validations: seq<Lookup>)
      returns (failure: Option<ErrorKind>, ghost m: nat)
      requires schemas.Valid() && HasType(schemas.rows, event.typ)
      modifies schemas
      ensures schemas.Valid() && old(schemas.rows) <= schemas.rows
      ensures
        schemas.rows ==
        Registered(old(schemas.rows), Arrivals(validations[..if m < |validations| then m + 1 else |validations|]))
      ensures Judged(judge, event.Get(), old(schemas.rows), validations, m, failure)
    {
      ghost var e := event.Get();
      for i := 0 to |validations|
        invariant schemas.Valid() && schemas.rows == Registered(old(schemas.rows), Arrivals(validations[..i]))
        invariant NoVerdict(judge, e, old(schemas.rows), validations, i)
      {
        var err, found := Query(event.typ, validations, i, old(schemas.rows));
        if !err {
          TypeStays(old(schemas.rows), schemas.rows, event.typ);
          var verdict := judge.accepts(found.value.data, Entries(event.payload));
          VerdictDecides(judge, e, old(schemas.rows), validations, i, schemas.rows, found.value, verdict);
          match verdict {
            case Accepted => return None, i;
            case Rejected => return Some(SchemaRejects), i;
            case Unusable =>
          }
        } else {
          NoVerdictNext(judge, e, old(schemas.rows), validations, i, schemas.rows);
        }
      }
      assert validations[..|validations|] == validations;
      failure, m := Some(ValidationGaveUp), |validations|;
    }

    /** Both loops, one after the other. */
    method ValidateSchema(event: EventObject, script: Script)
      returns (failure: Option<ErrorKind>, ghost n: nat, ghost m: nat)
      requires schemas.Valid()
      modifies schemas
      ensures schemas.Valid() && old(schemas.rows) <= schemas.rows
      ensures Checked(judge, event.Get(), old(schemas.rows), script, n, m, failure)
      ensures failure.None? ==> JudgedBetween(judge, schemas.rows, |old(schemas.rows)|, event.Get(), Accepted)
      ensures failure.Some? ==> failure.value in {NoSchema, SchemaLookupGaveUp, SchemaRejects, ValidationGaveUp}
      ensures failure.Some? && Fits(judge, event.Get()) ==>
                Explains(judge, failure.value, event.Get(), script, old(schemas.rows), schemas.rows)
    {
      m := 0;
      failure, n := FindSchema(event.typ, script.lookups);
      if failure.Some? { return; }
      ghost var found := schemas.rows;
      failure, m := Validate(event, script.validations);
      JudgedMeans(judge, event.Get(), old(schemas.rows), found, script.validations, m, failure, schemas.rows);
    }

    /** Puts the event as received into the dead letter queue. */
    method HandleError(event: EventObject, kind: ErrorKind, now: int, fate: LetterFate) returns (result: Result)
      requires deadLetters.repository.Valid()
      modifies deadLetters.repository
      ensures deadLetters.repository.Valid()
      ensures
        result ==
        if deadLetters.codec.encode(event.Get()).None? || fate.reply.Error? then DeadLetterFailed(kind)
        else DeadLettered(kind)
      ensures
        var e, payload := event.Get(), deadLetters.codec.encode(event.Get());
        var before := old(deadLetters.repository.rows);
        deadLetters.repository.rows ==
        before +
        if payload.Some? && fate.stored
        then [DeadLetter(|before|, e.id, e.typ, payload.value, describe(kind), now, None, None)] else []
    {
      var err := deadLetters.SendToDeadLetterQueue(event.Get(), describe(kind), now, fate);
      result := if err then DeadLetterFailed(kind) else DeadLettered(kind);
    }

    /** The stages before publishing. An error leaves the outbox as it was. */
    method Prepare(event: EventObject, script: Script)
      returns (failure: Option<ErrorKind>, staged: EventObject, ghost n: nat, ghost m: nat)
      requires Valid()
      modifies schemas
      ensures schemas.Valid() && old(schemas.rows) <= schemas.rows
      ensures Prepared(judge, event.Get(), old(schemas.rows), script, n, m, failure)
      ensures failure.None? ==> staged.Get() == AfterStages(judge.format, event.Get(), script.enrichedAt)
      ensures failure.None? ==> Admitted(judge, event.Get(), schemas.rows, |old(schemas.rows)|)
      ensures failure.Some? ==> failure.value != PublishingGaveUp
      ensures failure.Some? ==> Explains(judge, failure.value, event.Get(), script, old(schemas.rows), schemas.rows)
    {
      staged, n, m := event, 0, 0;
      failure := ValidatePayloadSize(event);
      if failure.Some? { return; }
      failure, n, m := ValidateSchema(event, script);
      if failure.Some? { return; }
      var transformed := transformer.Transform(judge.format, event);
      staged := enricher.Enrich(judge.format, transformed, script.enrichedAt);
    }

    /** The last stage: what the retry loop around the publisher leaves behind. */
    method Publish(staged: EventObject, saves: seq<SaveAttempt>, ghost s0: State)
      returns (err: bool, ghost times: seq<int>, ghost s1: State)
      requires publisher.Mirrors(s0)
      modifies publisher.repo
      ensures publisher.Mirrors(s1) && Run(publisher.c, s0, InsertLabels(staged.Get(), times), s1)
      ensures
        err ==
        !(publisher.c.codec.encode(staged.Get()).Some? && exists k :: 0 <= k < |saves| && saves[k].fate.Commits?)
      ensures times != [] ==> times == StoredAt(saves)
      ensures !err ==> |times| >= 1
      ensures Atomic(saves) ==> |times| == if err then 0 else 1
    {
      RowsLeft(saves);
      SavedIff(saves);
      err, s1 := publisher.PublishWithRetry(staged.Get(), saves, s0);
      times := if publisher.c.codec.encode(staged.Get()).Some? then StoredAt(saves) else [];
    }

    /** All stages up to the outbox, with the error of the one that failed. */
    method RunStages(event: EventObject, script: Script, ghost s0: State)
      returns (failure: Option<ErrorKind>, ghost n: nat, ghost m: nat, ghost times: seq<int>, ghost s1: State)
      requires Valid() && publisher.Mirrors(s0)
      modifies schemas, publisher.repo
      ensures schemas.Valid() && publisher.Mirrors(s1) && old(schemas.rows) <= schemas.rows
      ensures Run(publisher.c, s0, InsertLabels(AfterStages(judge.format, event.Get(), script.enrichedAt), times), s1)
      ensures failure.None? ==> |times| >= 1
      ensures Decided(judge, publisher.c.codec, event.Get(), old(schemas.rows), script, n, m, failure)
      ensures Atomic(script.saves) ==> |times| == if failure.None? then 1 else 0
      ensures times != [] ==> times == StoredAt(script.saves) && (failure.None? || failure.value == PublishingGaveUp)
      ensures failure.None? ==> Admitted(judge, event.Get(), schemas.rows, |old(schemas.rows)|)
      ensures failure.Some? ==> Explains(judge, failure.value, event.Get(), script, old(schemas.rows), schemas.rows)
    {
      times, s1 := [], s0;
      var staged;
      failure, staged, n, m := Prepare(event, script);
      if failure.None? {
        var err;
        err, times, s1 := Publish(staged, script.saves, s0);
        if err { failure := Some(PublishingGaveUp); }
      }
    }

    /** The whole pipeline. `times` are the moments at which saves of the event took
        effect; the outbox gains exactly one row for each. */
    method ProcessEvent(event: EventObject, script: Script, ghost s0: State)
      returns (result: Result, ghost n: nat, ghost m: nat, ghost times: seq<int>, ghost s1: State)
      requires Valid() && publisher.Mirrors(s0)
      modifies schemas, publisher.repo, deadLetters.repository
      ensures Valid() && publisher.Mirrors(s1) && old(schemas.rows) <= schemas.rows
      // the event as received
      ensures event.Get() == old(event.Get())
      // the outbox
      ensures
        Run(publisher.c, s0, InsertLabels(AfterStages(judge.format, old(event.Get()), script.enrichedAt), times), s1)
      ensures result.Done? ==> |times| >= 1
      ensures Atomic(script.saves) ==> |times| == if result.Done? then 1 else 0
      ensures times != [] ==> times == StoredAt(script.saves) && (result.Done? || result.kind == PublishingGaveUp)
      // the dead letter queue
      ensures
        var e, payload := old(event.Get()), publisher.c.codec.encode(old(event.Get()));
        var before := old(deadLetters.repository.rows);
        && (!result.Done? ==> (result.DeadLetterFailed? <==> payload.None? || script.letterFate.reply.Error?))
        && deadLetters.repository.rows ==
           before +
           if !result.Done? && payload.Some? && script.letterFate.stored
           then [DeadLetter(|before|, e.id, e.typ, payload.value, describe(result.kind), script.letterAt, None, None)]
           else []
      ensures script.letterFate.Honest() ==>
                |deadLetters.repository.rows| ==
                old(|deadLetters.repository.rows|) + if result.DeadLettered? then 1 else 0
      // why
      ensures result.Done? ==> Admitted(judge, old(event.Get()), schemas.rows, |old(schemas.rows)|)
      ensures !result.Done? ==> Explains(judge, result.kind, old(event.Get()), script, old(schemas.rows), schemas.rows)
      // which check, at which try, decided
      ensures
        Decided(judge, publisher.c.codec, old(event.Get()), old(schemas.rows), script, n, m,
          if result.Done? then None else Some(result.kind))
      ensures result != DeadLettered(PayloadUnmarshalable)
    {
      var failure;
      failure, n, m, times, s1 := RunStages(event, script, s0);
      if failure.None? {
        result := Done;
      } else {
        result := HandleError(event, failure.value, script.letterAt, script.letterFate);
      }
    }
  }

  /** With atomic saves a call that ends well leaves one PENDING row with the event's
      ID and type, and a call that does not leaves the outbox as it was. */
  lemma AtomicIntake(c: Config, s0: State, e: Event, times: seq<int>, s1: State)
    requires Run(c, s0, InsertLabels(e, times), s1) && |times| <= 1
    ensures times == [] ==> s1 == s0
    ensures |times| == 1 ==>
              c.codec.encode(e).Some?
              && s1.table ==
                 s0.table[|s0.past| :=
                   Row(|s0.past|, e.id, e.typ, c.codec.encode(e).value, Pending, 0, times[0], None)]
              && |s1.past| == |s0.past| + 1
  {
    if |times| == 1 {
      var ls := InsertLabels(e, times);
      assert ls[..0] == [] && ls[0] == Insert(e, times[0]);
      var mid := LastStep(c, s0, ls, s1);
      assert mid == s0;
      InsertStores(c, s0, e, times[0]);
    }
  }
}
