/** The append-only table of versioned event schemas and its "latest" query. */
module Schemas {
  import opened Domain

  datatype EventSchema = EventSchema(eventType: string, version: string, data: string)

  // ---- the order of the version column: strings, compared character by character ----

  predicate VersionLe(a: string, b: string) {
    a == "" || (b != "" && (a[0] < b[0] || (a[0] == b[0] && VersionLe(a[1..], b[1..]))))
  }

  lemma {:induction false} VersionTotal(a: string, b: string)
    ensures VersionLe(a, b) || VersionLe(b, a)
  {
    if a != "" && b != "" { VersionTotal(a[1..], b[1..]); }
  }

  lemma {:induction false} VersionAntisymmetric(a: string, b: string)
    requires VersionLe(a, b) && VersionLe(b, a)
    ensures a == b
  {
    if a != "" && b != "" {
      VersionAntisymmetric(a[1..], b[1..]);
      assert a == [a[0]] + a[1..] && b == [b[0]] + b[1..];
    }
  }

  lemma {:induction false} VersionTransitive(a: string, b: string, d: string)
    requires VersionLe(a, b) && VersionLe(b, d)
    ensures VersionLe(a, d)
  {
    if a != "" && b[0] == a[0] && d[0] == b[0] { VersionTransitive(a[1..], b[1..], d[1..]); }
  }

  /** At position `k` the two differ for the first time, and the first is smaller there. */
  ghost predicate Before(a: string, b: string, k: nat) {
    k < |a| && k < |b| && a[..k] == b[..k] && a[k] < b[k]
  }

  lemma BeforeTail(a: string, b: string, k: nat)
    requires a != "" && b != "" && a[0] == b[0]
    ensures Before(a, b, k + 1) <==> Before(a[1..], b[1..], k)
  {
    var x, y := a[1..], b[1..];
    if k < |x| && k < |y| {
      assert a[..k + 1] == [a[0]] + x[..k] && b[..k + 1] == [b[0]] + y[..k];
      assert x[..k] == a[..k + 1][1..] && y[..k] == b[..k + 1][1..];
    }
  }

  lemma PrefixTail(a: string, b: string)
    requires a != "" && b != ""
    ensures a <= b <==> a[0] == b[0] && a[1..] <= b[1..]
  {
    assert a == [a[0]] + a[1..] && b == [b[0]] + b[1..];
  }

  lemma {:induction false} VersionOrderBefore(a: string, b: string)
    ensures VersionLe(a, b) <==> a <= b || exists k: nat :: Before(a, b, k)
  {
    if a != "" && b != "" {
      PrefixTail(a, b);
      if a[0] == b[0] {
        VersionOrderBefore(a[1..], b[1..]);
        if k: nat :| Before(a[1..], b[1..], k) { BeforeTail(a, b, k); }
        if k: nat :| Before(a, b, k) { BeforeTail(a, b, k - 1); }
      } else {
        assert Before(a, b, 0) <==> a[0] < b[0];
        assert forall k: nat :: Before(a, b, k) ==> k == 0 || a[..k][0] == b[..k][0];
      }
    }
  }

  /** The order without recursion: a prefix comes first, and otherwise the first
      character that differs decides. */
  lemma VersionOrder(a: string, b: string)
    ensures
      VersionLe(a, b) <==>
        a <= b || exists k :: 0 <= k < |a| && k < |b| && a[..k] == b[..k] && a[k] < b[k]
  {
    VersionOrderBefore(a, b);
    if k: nat :| Before(a, b, k) { assert a[..k] == b[..k]; }
    if k :| 0 <= k < |a| && k < |b| && a[..k] == b[..k] && a[k] < b[k] { assert Before(a, b, k); }
  }

  // ---- the table ----

  /** No two rows share type and version. */
  ghost predicate UniqueVersions(rows: seq<EventSchema>) {
    forall j, k :: 0 <= j < k < |rows| ==>
      !(rows[j].eventType == rows[k].eventType && rows[j].version == rows[k].version)
  }

  /** `found` is a schema of the type with the greatest version. */
  ghost predicate IsLatest(rows: seq<EventSchema>, typ: string, found: EventSchema) {
    && found in rows && found.eventType == typ
    && forall k :: 0 <= k < |rows| && rows[k].eventType == typ ==> VersionLe(rows[k].version, found.version)
  }

  predicate Taken(rows: seq<EventSchema>, s: EventSchema) {
    exists k :: 0 <= k < |rows| && rows[k].eventType == s.eventType && rows[k].version == s.version
  }

  ghost predicate HasType(rows: seq<EventSchema>, typ: string) {
    exists k :: 0 <= k < |rows| && rows[k].eventType == typ
  }

  /** The table after schemas were saved one after the other; those whose type and
      version are there already are refused. */
  function Registered(rows: seq<EventSchema>, arrivals: seq<EventSchema>): (rows': seq<EventSchema>)
    ensures rows <= rows'
    decreases |arrivals|
  {
    if arrivals == [] then rows
    else
      var before := Registered(rows, arrivals[..|arrivals| - 1]);
      var last := arrivals[|arrivals| - 1];
      if Taken(before, last) then before else before + [last]
  }

  lemma TakenStays(rows: seq<EventSchema>, rows': seq<EventSchema>, s: EventSchema)
    requires rows <= rows' && Taken(rows, s)
    ensures Taken(rows', s)
  {
    var k :| 0 <= k < |rows| && rows[k].eventType == s.eventType && rows[k].version == s.version;
    assert rows'[k] == rows[k];
  }

  lemma LastIsTaken(rows: seq<EventSchema>, arrivals: seq<EventSchema>)
    requires arrivals != []
    ensures Taken(Registered(rows, arrivals), arrivals[|arrivals| - 1])
  {
    var before := Registered(rows, arrivals[..|arrivals| - 1]);
    var last := arrivals[|arrivals| - 1];
    if !Taken(before, last) { assert (before + [last])[|before|] == last; }
  }

  lemma {:induction false} NewOnesArrived(rows: seq<EventSchema>, arrivals: seq<EventSchema>, k: nat)
    requires |rows| <= k < |Registered(rows, arrivals)|
    ensures Registered(rows, arrivals)[k] in arrivals
    decreases |arrivals|
  {
    var front, last := arrivals[..|arrivals| - 1], arrivals[|arrivals| - 1];
    var before := Registered(rows, front);
    if k < |before| {
      NewOnesArrived(rows, front, k);
      assert Registered(rows, arrivals)[k] == before[k];
    }
  }

  lemma {:induction false} ArrivalsAreTaken(rows: seq<EventSchema>, arrivals: seq<EventSchema>, k: nat)
    requires k < |arrivals|
    ensures Taken(Registered(rows, arrivals), arrivals[k])
    decreases |arrivals|
  {
    LastIsTaken(rows, arrivals);
    if k < |arrivals| - 1 {
      ArrivalsAreTaken(rows, arrivals[..|arrivals| - 1], k);
      TakenStays(Registered(rows, arrivals[..|arrivals| - 1]), Registered(rows, arrivals), arrivals[k]);
    }
  }

  lemma {:induction false} StaysUnique(rows: seq<EventSchema>, arrivals: seq<EventSchema>)
    requires UniqueVersions(rows)
    ensures UniqueVersions(Registered(rows, arrivals))
    decreases |arrivals|
  {
    if arrivals != [] { StaysUnique(rows, arrivals[..|arrivals| - 1]); }
  }

  /** What registrations make of the table: it keeps its rows, takes new ones from the
      arrivals only, and has every type and version that arrived, each once. */
  lemma RegisteredExactly(rows: seq<EventSchema>, arrivals: seq<EventSchema>)
    ensures rows <= Registered(rows, arrivals)
    ensures forall k :: |rows| <= k < |Registered(rows, arrivals)| ==> Registered(rows, arrivals)[k] in arrivals
    ensures forall k :: 0 <= k < |arrivals| ==> Taken(Registered(rows, arrivals), arrivals[k])
    ensures UniqueVersions(rows) ==> UniqueVersions(Registered(rows, arrivals))
  {
    forall k | |rows| <= k < |Registered(rows, arrivals)| ensures Registered(rows, arrivals)[k] in arrivals {
      NewOnesArrived(rows, arrivals, k);
    }
    forall k | 0 <= k < |arrivals| ensures Taken(Registered(rows, arrivals), arrivals[k]) {
      ArrivalsAreTaken(rows, arrivals, k);
    }
    if UniqueVersions(rows) { StaysUnique(rows, arrivals); }
  }

  /** A type has a schema afterwards if it had one before or one has arrived. */
  lemma TypeAfterwards(rows: seq<EventSchema>, arrivals: seq<EventSchema>, typ: string)
    ensures HasType(Registered(rows, arrivals), typ) <==> HasType(rows, typ) || HasType(arrivals, typ)
  {
    RegisteredExactly(rows, arrivals);
    var rows' := Registered(rows, arrivals);
    if k :| 0 <= k < |rows'| && rows'[k].eventType == typ {
      if k < |rows| { assert rows[k] == rows'[k]; } else { assert rows'[k] in arrivals; }
    }
    if k :| 0 <= k < |rows| && rows[k].eventType == typ { assert rows'[k] == rows[k]; }
    if k :| 0 <= k < |arrivals| && arrivals[k].eventType == typ {
      assert Taken(rows', arrivals[k]);
    }
  }

  lemma {:induction false} RegisteredChain(rows: seq<EventSchema>, xs: seq<EventSchema>, ys: seq<EventSchema>)
    ensures Registered(rows, xs + ys) == Registered(Registered(rows, xs), ys)
    decreases |ys|
  {
    if ys == [] {
      assert xs + ys == xs;
    } else {
      assert (xs + ys)[..|xs + ys| - 1] == xs + ys[..|ys| - 1];
      RegisteredChain(rows, xs, ys[..|ys| - 1]);
    }
  }

  /** Which schema is latest is not a matter of choice. */
  lemma LatestIsUnique(rows: seq<EventSchema>, typ: string, a: EventSchema, b: EventSchema)
    requires UniqueVersions(rows) && IsLatest(rows, typ, a) && IsLatest(rows, typ, b)
    ensures a == b
  {
    var j :| 0 <= j < |rows| && rows[j] == a;
    var k :| 0 <= k < |rows| && rows[k] == b;
    VersionAntisymmetric(a.version, b.version);
    assert rows[j].version == rows[k].version && rows[j].eventType == rows[k].eventType;
  }

  /** Over any run of registrations the latest version never goes down, and a type
      that has a schema keeps having one. */
  lemma LatestNeverGoesDown(
    rows: seq<EventSchema>, rows': seq<EventSchema>, typ: string, a: EventSchema, b: EventSchema)
    requires rows <= rows' && IsLatest(rows, typ, a) && IsLatest(rows', typ, b)
    ensures VersionLe(a.version, b.version)
  {
    var j :| 0 <= j < |rows| && rows[j] == a;
    assert rows'[j] == a;
  }

  lemma TypeStays(rows: seq<EventSchema>, rows': seq<EventSchema>, typ: string)
    requires rows <= rows' && HasType(rows, typ)
    ensures HasType(rows', typ)
  {
    var k :| 0 <= k < |rows| && rows[k].eventType == typ;
    assert rows'[k] == rows[k];
  }

  lemma {:induction false} LatestExists(rows: seq<EventSchema>, typ: string) returns (found: EventSchema)
    requires HasType(rows, typ)
    ensures IsLatest(rows, typ, found)
  {
    var front, last := rows[..|rows| - 1], rows[|rows| - 1];
    VersionTotal(last.version, last.version);
    if HasType(front, typ) {
      found := LatestExists(front, typ);
      VersionTotal(found.version, last.version);
      if last.eventType == typ && VersionLe(found.version, last.version) {
        forall k | 0 <= k < |rows| && rows[k].eventType == typ ensures VersionLe(rows[k].version, last.version) {
          if k < |front| { VersionTransitive(front[k].version, found.version, last.version); }
        }
        found := last;
      } else {
        forall k | 0 <= k < |rows| && rows[k].eventType == typ ensures VersionLe(rows[k].version, found.version) {
          if k < |front| { assert rows[k] == front[k]; }
        }
      }
    } else {
      found := last;
      assert forall j :: 0 <= j < |front| ==> rows[j] == front[j] && front[j].eventType != typ;
    }
  }

  /** A newly registered schema takes effect exactly if its version is not below
      the version in effect, as strings. */
  lemma NewSchemaTakesEffect(rows: seq<EventSchema>, added: EventSchema)
    ensures IsLatest(rows + [added], added.eventType, added) <==>
              (forall a :: IsLatest(rows, added.eventType, a) ==> VersionLe(a.version, added.version))
  {
    var rows', typ := rows + [added], added.eventType;
    assert rows'[|rows|] == added;
    if IsLatest(rows', typ, added) {
      forall a | IsLatest(rows, typ, a) ensures VersionLe(a.version, added.version) {
        var k :| 0 <= k < |rows| && rows[k] == a;
        assert rows'[k] == a;
      }
    }
    if forall a :: IsLatest(rows, typ, a) ==> VersionLe(a.version, added.version) {
      VersionTotal(added.version, added.version);
      if HasType(rows, typ) {
        var a := LatestExists(rows, typ);
        forall k | 0 <= k < |rows'| && rows'[k].eventType == typ ensures VersionLe(rows'[k].version, added.version) {
          if k < |rows| { VersionTransitive(rows[k].version, a.version, added.version); }
        }
      } else {
        forall k | 0 <= k < |rows'| && rows'[k].eventType == typ ensures VersionLe(rows'[k].version, added.version) {
          assert k == |rows|;
        }
      }
    }
  }

  /** Version "10" registered after version "9" never takes effect. */
  lemma TenDoesNotReplaceNine(typ: string, nine: string, ten: string)
    ensures IsLatest([EventSchema(typ, "9", nine), EventSchema(typ, "10", ten)], typ, EventSchema(typ, "9", nine))
    ensures !IsLatest([EventSchema(typ, "9", nine), EventSchema(typ, "10", ten)], typ, EventSchema(typ, "10", ten))
  {
    var rows := [EventSchema(typ, "9", nine), EventSchema(typ, "10", ten)];
    assert VersionLe("9"[1..], "9"[1..]);
    assert !VersionLe("9", "10") && VersionLe("10", "9");
    assert rows[0].version == "9";
  }

  class SchemaRepository {
    var rows: seq<EventSchema>

    ghost predicate Valid()
      reads this
    {
      UniqueVersions(rows)
    }

    constructor ()
      ensures Valid() && rows == []
    {
      rows := [];
    }

    /** Appends; a type and version already present violate the unique constraint. */
    method Save(schema: EventSchema, fate: Fate) returns (err: bool)
      requires Valid()
      modifies this
      ensures Valid()
      ensures
        var taken :=
          exists k :: 0 <= k < |old(rows)| &&
                      old(rows)[k].eventType == schema.eventType && old(rows)[k].version == schema.version;
        && err == (taken || !fate.Commits?)
        && rows == if taken || fate.Refuses? then old(rows) else old(rows) + [schema]
    {
      var taken := Taken(rows, schema);
      if !taken && fate.Lands() {
        rows := rows + [schema];
      }
      err := taken || fate.Errs();
    }

    /** Registrations by other sessions. */
    method Others(arrivals: seq<EventSchema>)
      requires Valid()
      modifies this
      ensures Valid() && rows == Registered(old(rows), arrivals)
    {
      for n := 0 to |arrivals|
        invariant Valid() && rows == Registered(old(rows), arrivals[..n])
      {
        var _ := Save(arrivals[n], Commits);
        assert arrivals[..n + 1][..n] == arrivals[..n];
      }
      assert arrivals[..|arrivals|] == arrivals;
    }

    /** The schema with the greatest version of the type, if the type has any. */
    method FindByType(typ: string, fails: bool) returns (err: bool, found: Option<EventSchema>)
      requires Valid()
      ensures err == fails && (err ==> found.None?)
      ensures !err && found.None? ==> forall k :: 0 <= k < |rows| ==> rows[k].eventType != typ
      ensures found.Some? ==> IsLatest(rows, typ, found.value)
    {
      err, found := fails, None;
      if err { return; }
      for n := 0 to |rows|
        invariant found.None? <==> forall k :: 0 <= k < n ==> rows[k].eventType != typ
        invariant found.Some? ==> found.value in rows && found.value.eventType == typ
        invariant found.Some? ==>
                    forall k :: 0 <= k < n && rows[k].eventType == typ ==>
                      VersionLe(rows[k].version, found.value.version)
      {
        if rows[n].eventType == typ {
          VersionTotal(rows[n].version, rows[n].version);
          if found.None? {
            found := Some(rows[n]);
          } else {
            VersionTotal(rows[n].version, found.value.version);
            if !VersionLe(rows[n].version, found.value.version) {
              forall k | 0 <= k < n && rows[k].eventType == typ ensures VersionLe(rows[k].version, rows[n].version) {
                VersionTransitive(rows[k].version, found.value.version, rows[n].version);
              }
              found := Some(rows[n]);
            }
          }
        }
      }
    }

    method FindByTypeAndVersion(typ: string, version: string, fails: bool)
      returns (err: bool, found: Option<EventSchema>)
      requires Valid()
      ensures err == fails && (err ==> found.None?)
      ensures found.Some? ==> found.value in rows && found.value.eventType == typ && found.value.version == version
      ensures !err && found.None? ==>
                forall k :: 0 <= k < |rows| ==> rows[k].eventType != typ || rows[k].version != version
    {
      err, found := fails, None;
      if err { return; }
      for n := 0 to |rows|
        invariant found.None? ==> forall k :: 0 <= k < n ==> rows[k].eventType != typ || rows[k].version != version
        invariant found.Some? ==> found.value in rows && found.value.eventType == typ && found.value.version == version
      {
        if found.None? && rows[n].eventType == typ && rows[n].version == version {
          found := Some(rows[n]);
        }
      }
    }
  }
}
