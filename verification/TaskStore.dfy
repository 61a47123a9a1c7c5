/** Task records updated by compare-and-swap on a version number: the in-memory store, the SQL store,
    and histories of many clients working on either. */
module TaskStore {
  import opened Seqs

  datatype Value = Null | Text(text: string) | Instant(t: int) | Json(json: string)

  /** The named attributes of a record; `version` and `updated_at` are kept apart. */
  type Attrs = map<string, Value>

  datatype Record = Record(attrs: Attrs, version: int, updatedAt: Option<int>)

  type Table = map<string, Record>

  const ALLOWED: set<string> := {"status", "output", "error", "started_at", "completed_at", "metadata",
                                 "assignee_id", "visibility", "user_id"}

  datatype StoreError =
    | KeyError
    | VersionConflict(expected: int, actual: int, current: Record)
    | BadFields(names: set<string>)
    | NotBound
    | RowNotConverted

  function Updated(r: Record, fields: Attrs, now: int): Record {
    Record(r.attrs + fields, r.version + 1, Some(now))
  }

  function Bad(fields: Attrs): set<string> {
    fields.Keys - ALLOWED
  }

  /** The answer of the in-memory store: existence, then version, then field names. */
  function MemoryAnswer(t: Table, id: string, expected: int, fields: Attrs, now: int): Result<Record, StoreError> {
    if id !in t then Err(KeyError)
    else if t[id].version != expected then Err(VersionConflict(expected, t[id].version, t[id]))
    else if Bad(fields) != {} then Err(BadFields(Bad(fields)))
    else Ok(Updated(t[id], fields, now))
  }

  /** An update is accepted exactly when the task exists, the version is the current one, and every field is one of
      the nine that may be set; then exactly these attributes change, the version goes up by one, and the time of the
      update is noted. */
  lemma UpdatesMean(t: Table, id: string, expected: int, fields: Attrs, now: int)
    ensures var m := MemoryAnswer(t, id, expected, fields, now);
      var settable := {"status", "output", "error", "started_at", "completed_at", "metadata", "assignee_id", "visibility",
                       "user_id"};
      && (m.Ok? <==> id in t && t[id].version == expected && fields.Keys <= settable)
      && (m.Ok? ==> m.value.version == expected + 1 && m.value.updatedAt == Some(now))
      && (m.Ok? ==> forall name :: name in m.value.attrs <==> name in fields || name in t[id].attrs)
      && (m.Ok? ==> forall name :: name in m.value.attrs ==>
                      m.value.attrs[name] == if name in fields then fields[name] else t[id].attrs[name])
      && (m == Err(KeyError) <==> id !in t)
      && (m.Err? && m.error.VersionConflict? <==> id in t && t[id].version != expected)
      && (m.Err? && m.error.VersionConflict? ==> m.error == VersionConflict(expected, t[id].version, t[id]))
      && (m.Err? && m.error.BadFields? <==> id in t && t[id].version == expected && !(fields.Keys <= settable))
      && (m.Err? && m.error.BadFields? ==> m.error.names == fields.Keys - settable)
  {
  }

  function Stored(t: Table, id: string, r: Result<Record, StoreError>): Table {
    if r.Ok? then t[id := r.value] else t
  }

  /** `x or default` for the values a column can hold. */
  function OrElse(attrs: Attrs, name: string, default: Value): Attrs {
    if name in attrs && attrs[name] in {Null, Text(""), Json("{}")} then attrs[name := default] else attrs
  }

  /** `_row_to_record` on a row it can read: empty columns are replaced by defaults. */
  function Shown(r: Record): Record {
    var a := OrElse(OrElse(r.attrs, "input", Text("")), "status", Text("pending"));
    var b := OrElse(OrElse(a, "tenant_id", Text("default")), "user_id", Text(""));
    var c := OrElse(OrElse(b, "metadata", Json("{}")), "owner_id", Text(""));
    Record(OrElse(c, "visibility", Text("private")), if r.version == 0 then 1 else r.version, r.updatedAt)
  }

  /** The answer of the SQL store: field names first, then the atomic UPDATE, then the diagnosis. `bound` says
      whether the driver takes the values as they are, dictionaries included; the statement fails if not. The row
      that RETURNING hands back names its column `metadata`, the conversion reads `metadata_`: a successful update
      raises, after its commit. */
  function SqlAnswer(t: Table, id: string, expected: int, fields: Attrs, now: int, bound: bool): Result<Record, StoreError> {
    if Bad(fields) != {} then Err(BadFields(Bad(fields)))
    else if !bound then Err(NotBound)
    else if id in t && t[id].version == expected then Err(RowNotConverted)
    else if id !in t then Err(KeyError)
    else Err(VersionConflict(expected, t[id].version, Shown(t[id])))
  }

  /** The table the SQL store is left with, whatever it answers. */
  function SqlTable(t: Table, id: string, expected: int, fields: Attrs, now: int, bound: bool): Table {
    if Bad(fields) == {} && bound && id in t && t[id].version == expected then t[id := Updated(t[id], fields, now)] else t
  }

  /** Both stores end up with the same table, unless the driver refuses the values of an update that is due. Their
      answers are the same exactly for a misnamed field of a current snapshot, and if the values are taken for a
      missing task and for a conflict over a record without empty columns. */
  lemma StoresAgree(t: Table, id: string, expected: int, fields: Attrs, now: int, bound: bool)
    ensures var m, q := MemoryAnswer(t, id, expected, fields, now), SqlAnswer(t, id, expected, fields, now, bound);
      && (Stored(t, id, m) == SqlTable(t, id, expected, fields, now, bound) <==> (m.Ok? ==> bound))
      && (m.Ok? && bound <==> q == Err(RowNotConverted))
      && (m == q <==>
            if Bad(fields) != {} then id in t && t[id].version == expected
            else bound && (id in t ==> t[id].version != expected && Shown(t[id]) == t[id]))
  {
    var m := MemoryAnswer(t, id, expected, fields, now);
    if m.Ok? {
      assert Stored(t, id, m)[id].version == t[id].version + 1;
    }
  }

  /** The SQL store complains of a misnamed field first, then of a value the driver refuses; what it cannot update is
      missing or has another version, and what it does update it cannot convert. */
  lemma SqlAnswersMean(t: Table, id: string, expected: int, fields: Attrs, now: int, bound: bool)
    ensures var q := SqlAnswer(t, id, expected, fields, now, bound);
      var settable := {"status", "output", "error", "started_at", "completed_at", "metadata", "assignee_id", "visibility",
                       "user_id"};
      var named := fields.Keys <= settable;
      && q.Err?
      && (q == Err(BadFields(fields.Keys - settable)) <==> !named)
      && (q == Err(NotBound) <==> named && !bound)
      && (q == Err(RowNotConverted) <==> named && bound && id in t && t[id].version == expected)
      && (q == Err(KeyError) <==> named && bound && id !in t)
      && (q.error.VersionConflict? <==> named && bound && id in t && t[id].version != expected)
  {
  }

  /** A record read back shows defaults for empty columns, and version 1 for 0; the rest is as stored. */
  lemma DefaultsAreShown(r: Record, name: string)
    requires name in r.attrs
    ensures name in Shown(r).attrs && Shown(r).updatedAt == r.updatedAt
    ensures Shown(r).version == if r.version == 0 then 1 else r.version
    ensures r.attrs[name] !in {Null, Text(""), Json("{}")} ==> Shown(r).attrs[name] == r.attrs[name]
    ensures r.attrs[name] in {Null, Text(""), Json("{}")} ==>
              Shown(r).attrs[name] == match name
                case "status" => Text("pending")
                case "tenant_id" => Text("default")
                case "visibility" => Text("private")
                case "metadata" => Json("{}")
                case _ => if name in {"input", "user_id", "owner_id"} then Text("") else r.attrs[name]
  {
    hide OrElse;
    var a0 := r.attrs;
    var a1 := OrElse(a0, "input", Text(""));
    var a2 := OrElse(a1, "status", Text("pending"));
    var a3 := OrElse(a2, "tenant_id", Text("default"));
    var a4 := OrElse(a3, "user_id", Text(""));
    var a5 := OrElse(a4, "metadata", Json("{}"));
    var a6 := OrElse(a5, "owner_id", Text(""));
    OrElseAt(a0, "input", Text(""), name);
    OrElseAt(a1, "status", Text("pending"), name);
    OrElseAt(a2, "tenant_id", Text("default"), name);
    OrElseAt(a3, "user_id", Text(""), name);
    OrElseAt(a4, "metadata", Json("{}"), name);
    OrElseAt(a5, "owner_id", Text(""), name);
    OrElseAt(a6, "visibility", Text("private"), name);
  }

  lemma OrElseAt(attrs: Attrs, column: string, default: Value, name: string)
    requires name in attrs
    ensures name in OrElse(attrs, column, default)
    ensures OrElse(attrs, column, default)[name] ==
      if name == column && attrs[name] in {Null, Text(""), Json("{}")} then default else attrs[name]
  {
  }

  class TaskRecord {
    const id: string
    var attrs: Attrs
    var version: int
    var updatedAt: Option<int>

    constructor (id: string, attrs: Attrs, version: int)
      ensures this.id == id && View() == Record(attrs, version, None)
    {
      this.id, this.attrs, this.version, this.updatedAt := id, attrs, version, None;
    }

    function View(): Record
      reads this
    {
      Record(attrs, version, updatedAt)
    }
  }

  class InMemoryTaskStore {
    var store: map<string, TaskRecord>

    /** Every record is stored under its own id, so no two ids share an object. */
    ghost predicate Valid()
      reads this, store.Values
    {
      forall id | id in store :: store[id].id == id
    }

    ghost function View(): Table
      reads this, store.Values
    {
      map id | id in store :: store[id].View()
    }

    constructor ()
      ensures Valid() && store == map[]
    {
      store := map[];
    }

    method Save(record: TaskRecord)
      requires Valid()
      modifies this
      ensures Valid() && store == old(store)[record.id := record]
      ensures View() == old(View())[record.id := record.View()]
    {
      store := store[record.id := record];
    }

    method Delete(id: string) returns (ok: bool)
      requires Valid()
      modifies this
      ensures Valid() && ok == (id in old(store)) && store == old(store) - {id}
      ensures View() == old(View()) - {id}
    {
      if id !in store { return false; }
      store := store - {id};
      ok := true;
    }

    method UpdateFields(id: string, expected: int, fields: Attrs, now: int) returns (r: Result<TaskRecord, StoreError>)
      requires Valid()
      modifies store.Values
      ensures Valid()
      ensures var answer := MemoryAnswer(old(View()), id, expected, fields, now);
        && View() == Stored(old(View()), id, answer)
        && (match answer
            case Ok(rec) => id in store && r == Ok(store[id]) && store[id].View() == rec
            case Err(e) => r == Err(e))
    {
      if id !in store { return Err(KeyError); }
      var rec: TaskRecord := store[id];
      if rec.version != expected { return Err(VersionConflict(expected, rec.version, rec.View())); }
      var bad := fields.Keys - ALLOWED;
      if bad != {} { return Err(BadFields(bad)); }
      var todo := fields.Keys;
      ghost var attrs := rec.attrs;
      while todo != {}
        invariant todo <= fields.Keys
        invariant rec.attrs == attrs + (map k | k in fields && k !in todo :: fields[k])
        invariant rec.version == expected && unchanged(store.Values - {rec})
        modifies rec`attrs
      {
        var k :| k in todo;
        rec.attrs := rec.attrs[k := fields[k]];
        todo := todo - {k};
      }
      rec.version := rec.version + 1;
      rec.updatedAt := Some(now);
      assert rec.attrs == attrs + fields;
      r := Ok(rec);
    }

    method Complete(id: string, expected: int, output: Value, now: int, later: int) returns (r: Result<TaskRecord, StoreError>)
      requires Valid()
      modifies store.Values
      ensures Valid()
      ensures var answer := MemoryAnswer(old(View()), id, expected, Completion(output, now), later);
        && View() == Stored(old(View()), id, answer)
        && (match answer
            case Ok(rec) => id in store && r == Ok(store[id]) && store[id].View() == rec
            case Err(e) => r == Err(e))
    {
      r := UpdateFields(id, expected, Completion(output, now), later);
    }

    method Fail(id: string, expected: int, error: Value, now: int, later: int) returns (r: Result<TaskRecord, StoreError>)
      requires Valid()
      modifies store.Values
      ensures Valid()
      ensures var answer := MemoryAnswer(old(View()), id, expected, Failure(error, now), later);
        && View() == Stored(old(View()), id, answer)
        && (match answer
            case Ok(rec) => id in store && r == Ok(store[id]) && store[id].View() == rec
            case Err(e) => r == Err(e))
    {
      r := UpdateFields(id, expected, Failure(error, now), later);
    }
  }

  /** `get` and a successful update hand out the stored object itself. Whoever keeps it holds the current version at
      all times: the update passes, over changes made in between that nobody looked at. */
  method UpdateThroughHeldRecord(store: InMemoryTaskStore, held: TaskRecord, theirs: Attrs, mine: Attrs, now: int, later: int)
    returns (r: Result<TaskRecord, StoreError>)
    requires store.Valid() && held.id in store.store && store.store[held.id] == held
    requires Bad(theirs) == {} && Bad(mine) == {}
    modifies store.store.Values
    ensures store.Valid() && r == Ok(held)
    ensures held.View() == Updated(Updated(old(held.View()), theirs, now), mine, later)
  {
    var _ := store.UpdateFields(held.id, held.version, theirs, now);
    assert store.View()[held.id] == held.View();
    r := store.UpdateFields(held.id, held.version, mine, later);
    assert store.View()[held.id] == held.View();
  }

  function Completion(output: Value, now: int): Attrs {
    map["status" := Text("completed"), "output" := output, "completed_at" := Instant(now)]
  }

  function Failure(error: Value, now: int): Attrs {
    map["status" := Text("failed"), "error" := error, "completed_at" := Instant(now)]
  }

  /** The SQL store: one table, and an UPDATE ... WHERE id AND version that is a single atomic step. Without a
      connection every call goes to the in-memory fallback. */
  class SqlTaskStore {
    const connected: bool
    const fallback: InMemoryTaskStore
    var rows: Table

    /** `reached` says whether the connection attempt goes through. */
    constructor (reached: bool, fallback: InMemoryTaskStore)
      ensures connected == reached && this.fallback == fallback && rows == map[]
    {
      connected, this.fallback, rows := reached, fallback, map[];
    }

    method UpdateWhere(id: string, expected: int, fields: Attrs, now: int) returns (row: Option<Record>)
      modifies this
      ensures row.Some? <==> id in old(rows) && old(rows)[id].version == expected
      ensures row.Some? ==> row.value == Updated(old(rows)[id], fields, now) && rows == old(rows)[id := row.value]
      ensures row.None? ==> rows == old(rows)
    {
      if id !in rows || rows[id].version != expected { return None; }
      rows := rows[id := Updated(rows[id], fields, now)];
      row := Some(rows[id]);
    }

    method UpdateFields(id: string, expected: int, fields: Attrs, now: int, bound: bool)
      returns (r: Result<Record, StoreError>)
      requires fallback.Valid()
      modifies this, fallback.store.Values
      ensures fallback.Valid()
      ensures connected ==> r == SqlAnswer(old(rows), id, expected, fields, now, bound)
      ensures connected ==> rows == SqlTable(old(rows), id, expected, fields, now, bound) && fallback.View() == old(fallback.View())
      ensures !connected ==> r == MemoryAnswer(old(fallback.View()), id, expected, fields, now)
      ensures !connected ==> rows == old(rows) && fallback.View() == Stored(old(fallback.View()), id, r)
    {
      if !connected {
        var answer := fallback.UpdateFields(id, expected, fields, now);
        if answer.Err? { return Err(answer.error); }
        return Ok(answer.value.View());
      }
      var bad := fields.Keys - ALLOWED;
      if bad != {} { return Err(BadFields(bad)); }
      if !bound { return Err(NotBound); }
      var row := UpdateWhere(id, expected, fields, now);
      if row.Some? { return Err(RowNotConverted); }
      if id !in rows { return Err(KeyError); }
      r := Err(VersionConflict(expected, rows[id].version, Shown(rows[id])));
    }
  }

  /** Completing sets status, output and the time; failing sets status, error and the time. */
  lemma CompletionsMean(t: Table, id: string, expected: int, value: Value, now: int, later: int, name: string)
    requires id in t && t[id].version == expected
    ensures var c := MemoryAnswer(t, id, expected, Completion(value, now), later);
      && c.Ok? && c.value.attrs.Keys == t[id].attrs.Keys + {"status", "output", "completed_at"}
      && c.value.attrs["status"] == Text("completed") && c.value.attrs["output"] == value
      && c.value.attrs["completed_at"] == Instant(now)
      && (name in t[id].attrs && name !in {"status", "output", "completed_at"} ==> c.value.attrs[name] == t[id].attrs[name])
    ensures var f := MemoryAnswer(t, id, expected, Failure(value, now), later);
      && f.Ok? && f.value.attrs.Keys == t[id].attrs.Keys + {"status", "error", "completed_at"}
      && f.value.attrs["status"] == Text("failed") && f.value.attrs["error"] == value
      && f.value.attrs["completed_at"] == Instant(now)
      && (name in t[id].attrs && name !in {"status", "error", "completed_at"} ==> f.value.attrs[name] == t[id].attrs[name])
  {
  }

  // ----- histories of many clients -----

  datatype Event =
    | Save(id: string, record: Record)
    | Delete(id: string)
    | Update(id: string, expected: int, fields: Attrs, now: int)

  function Apply(t: Table, e: Event): Table {
    match e
    case Save(id, record) => t[id := record]
    case Delete(id) => t - {id}
    case Update(id, expected, fields, now) => Stored(t, id, MemoryAnswer(t, id, expected, fields, now))
  }

  function Run(t: Table, es: seq<Event>): Table
    decreases |es|
  {
    if es == [] then t else Run(Apply(t, es[0]), es[1..])
  }

  /** Task id is never saved again. */
  predicate NotResaved(id: string, es: seq<Event>) {
    forall i :: 0 <= i < |es| && es[i].Save? ==> es[i].id != id
  }

  predicate Wins(t: Table, id: string, e: Event) {
    e.Update? && e.id == id && MemoryAnswer(t, id, e.expected, e.fields, e.now).Ok?
  }

  /** The updates of id that succeed in a history, in order. */
  function Successes(t: Table, id: string, es: seq<Event>): seq<Event>
    decreases |es|
  {
    if es == [] then []
    else (if Wins(t, id, es[0]) then [es[0]] else []) + Successes(Apply(t, es[0]), id, es[1..])
  }

  function Fold(r: Record, wins: seq<Event>): Record
    requires forall i :: 0 <= i < |wins| ==> wins[i].Update?
    decreases |wins|
  {
    if wins == [] then r else Fold(Updated(r, wins[0].fields, wins[0].now), wins[1..])
  }

  lemma {:induction false} GoneStaysGone(t: Table, id: string, es: seq<Event>)
    requires id !in t && NotResaved(id, es)
    ensures id !in Run(t, es)
    decreases |es|
  {
    if es != [] {
      assert es[0].Save? ==> es[0].id != id;
      assert forall i :: 0 <= i < |es[1..]| ==> es[1..][i] == es[i + 1];
      GoneStaysGone(Apply(t, es[0]), id, es[1..]);
    }
  }

  /** Each version number is consumed by exactly one successful update: the k-th success expected the
      initial version plus k, and the final record is the successes applied in that order. */
  lemma {:induction false} SuccessesConsumeVersionsInOrder(t: Table, id: string, es: seq<Event>)
    requires id in t && NotResaved(id, es) && id in Run(t, es)
    ensures var wins := Successes(t, id, es);
      && (forall k :: 0 <= k < |wins| ==> wins[k].Update? && wins[k].expected == t[id].version + k)
      && Run(t, es)[id] == Fold(t[id], wins)
      && Run(t, es)[id].version == t[id].version + |wins|
    decreases |es|
  {
    if es != [] {
      var e, rest := es[0], es[1..];
      assert e.Save? ==> e.id != id;
      assert forall i :: 0 <= i < |rest| ==> rest[i] == es[i + 1];
      var u := Apply(t, e);
      if id !in u {
        GoneStaysGone(u, id, rest);
      } else {
        SuccessesConsumeVersionsInOrder(u, id, rest);
        var later := Successes(u, id, rest);
        if Wins(t, id, e) {
          assert u[id] == Updated(t[id], e.fields, e.now);
          var wins := [e] + later;
          assert wins[1..] == later;
          assert forall k :: 0 < k < |wins| ==> wins[k] == later[k - 1];
        } else {
          assert u[id] == t[id] && Successes(t, id, es) == later;
        }
      }
    }
  }

  /** id, agent, input, tenant and owner are out of reach of every update. */
  lemma {:induction false} OtherAttributesNeverChange(t: Table, id: string, es: seq<Event>, name: string)
    requires id in t && NotResaved(id, es) && id in Run(t, es) && name !in ALLOWED
    ensures name in Run(t, es)[id].attrs <==> name in t[id].attrs
    ensures name in t[id].attrs ==> Run(t, es)[id].attrs[name] == t[id].attrs[name]
    decreases |es|
  {
    if es != [] {
      var e, rest := es[0], es[1..];
      assert e.Save? ==> e.id != id;
      assert forall i :: 0 <= i < |rest| ==> rest[i] == es[i + 1];
      var u := Apply(t, e);
      if id !in u {
        GoneStaysGone(u, id, rest);
      } else {
        if Wins(t, id, e) {
          assert Bad(e.fields) == {};
          assert e.fields.Keys <= ALLOWED;
        }
        OtherAttributesNeverChange(u, id, rest, name);
      }
    }
  }

  // ----- the same histories on the SQL store -----

  function SqlApply(t: Table, e: Event, takes: Attrs -> bool): Table {
    match e
    case Save(id, record) => t[id := record]
    case Delete(id) => t - {id}
    case Update(id, expected, fields, now) => SqlTable(t, id, expected, fields, now, takes(fields))
  }

  function SqlRun(t: Table, es: seq<Event>, takes: Attrs -> bool): Table
    decreases |es|
  {
    if es == [] then t else SqlRun(SqlApply(t, es[0], takes), es[1..], takes)
  }

  /** The driver takes the values of every update that is due. */
  predicate TakesAll(t: Table, es: seq<Event>, takes: Attrs -> bool)
    decreases |es|
  {
    es != [] ==>
      && (es[0].Update? && Wins(t, es[0].id, es[0]) ==> takes(es[0].fields))
      && TakesAll(Apply(t, es[0]), es[1..], takes)
  }

  ghost predicate AgreeThroughout(t: Table, u: Table, es: seq<Event>, takes: Attrs -> bool)
    decreases |es|
  {
    t == u && (es != [] ==> AgreeThroughout(Apply(t, es[0]), SqlApply(u, es[0], takes), es[1..], takes))
  }

  /** A history keeps both stores at the same table throughout if and only if the driver takes the values of every
      update that is due; then what is proved of one store holds of the other. */
  lemma {:induction false} HistoriesAgree(t: Table, es: seq<Event>, takes: Attrs -> bool)
    ensures AgreeThroughout(t, t, es, takes) <==> TakesAll(t, es, takes)
    ensures TakesAll(t, es, takes) ==> SqlRun(t, es, takes) == Run(t, es)
    decreases |es|
  {
    if es != [] {
      hide MemoryAnswer, SqlTable, Stored;
      var e := es[0];
      if e.Update? { StoresAgree(t, e.id, e.expected, e.fields, e.now, takes(e.fields)); }
      HistoriesAgree(Apply(t, e), es[1..], takes);
    }
  }

  /** A client that repeats an update whose row could not be converted is told of a conflict with its own change. */
  lemma RepeatedUpdateConflicts(t: Table, id: string, expected: int, fields: Attrs, now: int, later: int)
    requires SqlAnswer(t, id, expected, fields, now, true) == Err(RowNotConverted)
    ensures var after := SqlTable(t, id, expected, fields, now, true);
      && SqlTable(after, id, expected, fields, later, true) == after
      && SqlAnswer(after, id, expected, fields, later, true)
         == Err(VersionConflict(expected, expected + 1, Shown(Updated(t[id], fields, now))))
  {
  }
}
