/**
 * The backend's table of job applications and the route handlers that change
 * it (backend/app.py), with the database reduced to a map from id to record.
 * A handler either commits its change or answers with an error and leaves the
 * table as it was (a 400 before any change, or a rollback on a 500).
 */
module Store {
  import opened Json
  import opened Text
  import opened Validation

  /** A stored application, without its timestamps. */
  datatype Record = Record(company: Value, position: Value, status: string, progress: Value)

  /** Why a handler answered 500 after rolling back. */
  datatype Failure =
    | NoSuchId       // `get_or_404` raises, and the handler's `except` catches it
    | NullColumn     // a NOT NULL column would receive null: the commit fails
    | StatusNotText  // PATCH calls `.lower()` on a status that is not a string
    | IntTooWide     // sqlite3 cannot bind an integer outside SQLite's INTEGER

  datatype Reply =
    | Created(id: int, record: Record)          // 201 with the new record
    | Found(id: int, record: Record)            // 200 with the record
    | Updated(id: int, record: Record)          // 200 with the patched record
    | Deleted                                   // 200 "Application deleted successfully"
    | BadRequest(key: string, message: string)  // 400 with body {key: message}
    | ServerError(cause: Failure)               // 500
    | NoReturn                                  // PUT commits, then the view returns nothing

  /** The two handlers registered for PATCH on one URL; they differ in the key
      of their 400 bodies (and in setting `updated_at`, which is not modelled). */
  datatype PatchRoute = Shared | Dedicated

  function ErrorKey(route: PatchRoute): string {
    match route
    case Shared => "error: "
    case Dedicated => "error"
  }

  const CreateErrorKey: string := "error"
  const PutErrorKey: string := "Application does not exist: "
  const MissingStatusMessage: string := "Missing 'status' field"

  /** The range of SQLite's INTEGER: a signed 64-bit value. */
  const MinInteger: int := -0x8000_0000_0000_0000
  const MaxInteger: int := 0x7FFF_FFFF_FFFF_FFFF

  /** A value Python's sqlite3 can bind as a statement parameter; a wider
      integer raises `OverflowError`, whatever the column's type. */
  predicate Bindable(v: Value) {
    v.Int? ==> MinInteger <= v.i <= MaxInteger
  }

  /** A record the commit accepts: every value binds, and the NOT NULL
      columns hold no null. */
  predicate Storable(r: Record) {
    Bindable(r.company) && Bindable(r.position) && Bindable(r.progress) &&
    r.company != Null && r.position != Null && r.progress != Null
  }

  /** Why committing `r` fails, if it does. The parameters are bound before
      the statement runs, so an over-wide integer fails before a null does. */
  function CommitFailure(r: Record): (f: Option<Failure>)
    ensures f.None? <==> Storable(r)
    ensures f == Some(IntTooWide) <==> !(Bindable(r.company) && Bindable(r.position) && Bindable(r.progress))
    ensures f.Some? ==> f.value == IntTooWide || f.value == NullColumn
  {
    if !(Bindable(r.company) && Bindable(r.position) && Bindable(r.progress)) then Some(IntTooWide)
    else if r.company == Null || r.position == Null || r.progress == Null then Some(NullColumn)
    else None
  }

  /** What every stored record satisfies: it was committed, and its status is
      listed once lowered (create keeps the case it was sent in). */
  predicate WellFormed(r: Record) {
    Storable(r) && Lower(r.status) in Statuses
  }

  // ---------------------------------------------------------------------------
  // Statistics

  function IdsWithStatus(t: map<int, Record>, status: string): set<int> {
    set id | id in t && t[id].status == status
  }

  function StatusesIn(t: map<int, Record>): set<string> {
    set id | id in t :: t[id].status
  }

  /** `dict(status_counts)`: the number of applications per stored status, as
      SQL's GROUP BY counts them (so "Applied" and "applied" are two groups). */
  function Breakdown(t: map<int, Record>): (b: map<string, nat>)
    ensures b.Keys == StatusesIn(t)
    ensures forall s :: s in b ==> b[s] == |IdsWithStatus(t, s)| && b[s] > 0
  {
    assert forall s :: s in StatusesIn(t) ==> |IdsWithStatus(t, s)| > 0 by {
      forall s | s in StatusesIn(t) ensures |IdsWithStatus(t, s)| > 0 {
        var id :| id in t && t[id].status == s;
        assert id in IdsWithStatus(t, s);
      }
    }
    map s | s in StatusesIn(t) :: |IdsWithStatus(t, s)|
  }

  ghost function Pick(keys: set<string>): string
    requires keys != {}
  {
    var k :| k in keys; k
  }

  /** The sum of `m[k]` over the given keys. */
  ghost function Sum(m: map<string, nat>, keys: set<string>): nat
    requires keys <= m.Keys
    decreases keys
  {
    if keys == {} then 0 else var k := Pick(keys); m[k] + Sum(m, keys - {k})
  }

  lemma {:induction false} SumOfBreakdown(t: map<int, Record>, keys: set<string>)
    requires keys <= StatusesIn(t)
    ensures Sum(Breakdown(t), keys) == |set id | id in t && t[id].status in keys|
    decreases keys
  {
    var b := Breakdown(t);
    if keys == {} {
      assert (set id | id in t && t[id].status in keys) == {};
    } else {
      var k := Pick(keys);
      SumOfBreakdown(t, keys - {k});
      var rest := set id | id in t && t[id].status in keys - {k};
      assert (set id | id in t && t[id].status in keys) == IdsWithStatus(t, k) + rest;
      assert IdsWithStatus(t, k) !! rest;
    }
  }

  /** The per-status counts add up to the number of applications. */
  lemma BreakdownSumsToTotal(t: map<int, Record>)
    ensures Sum(Breakdown(t), Breakdown(t).Keys) == |t|
  {
    SumOfBreakdown(t, StatusesIn(t));
    assert forall id :: id in t ==> t[id].status in StatusesIn(t);
    assert (set id | id in t && t[id].status in StatusesIn(t)) == t.Keys;
  }

  /** The body of `GET /api/applications/stats`; `latest` is one stored record
      with its id (the timestamps that would pick the newest are not modelled). */
  datatype Stats = Stats(total: nat, breakdown: map<string, nat>, latest: Option<(int, Record)>)

  // ---------------------------------------------------------------------------
  // The table

  class ApplicationStore {
    var table: map<int, Record>
    /** Every id handed out so far is below `nextId`. */
    var nextId: int

    ghost predicate Valid()
      reads this
    {
      1 <= nextId &&
      forall id :: id in table ==> 1 <= id < nextId && WellFormed(table[id])
    }

    constructor ()
      ensures Valid() && table == map[]
    {
      table := map[];
      nextId := 1;
    }

    /** `POST /api/applications`. */
    method Create(data: Body) returns (reply: Reply)
      requires Valid()
      modifies this
      ensures Valid()
      ensures Validate(data).Rejected? ==>
                reply == BadRequest(CreateErrorKey, Validate(data).message) && table == old(table)
      ensures Validate(data).Accepted? ==>
                var r := Record(data["company"], data["position"], data["status"].s, data["progress"]);
                if Storable(r) then
                  reply.Created? && reply == Created(reply.id, r) && reply.id !in old(table) &&
                  table == old(table)[reply.id := r]
                else
                  reply == ServerError(CommitFailure(r).value) && table == old(table)
    {
      var verdict := Validate(data);
      if verdict.Rejected? {
        return BadRequest(CreateErrorKey, verdict.message);
      }
      var r := Record(data["company"], data["position"], data["status"].s, data["progress"]);
      if !Storable(r) {
        return ServerError(CommitFailure(r).value);
      }
      var id := nextId;
      table := table[id := r];
      nextId := nextId + 1;
      reply := Created(id, r);
    }

    /** `GET /api/applications/<id>`. */
    method Get(id: int) returns (reply: Reply)
      ensures id in table ==> reply == Found(id, table[id])
      ensures id !in table ==> reply == ServerError(NoSuchId)
    {
      if id !in table {
        return ServerError(NoSuchId);
      }
      reply := Found(id, table[id]);
    }

    /** `PUT /api/applications/<id>`: a validated body replaces all four fields,
        the status lowered. */
    method Put(id: int, data: Body) returns (reply: Reply)
      requires Valid()
      modifies this
      ensures Valid() && nextId == old(nextId)
      ensures id !in old(table) ==> reply == ServerError(NoSuchId) && table == old(table)
      ensures id in old(table) && Validate(data).Rejected? ==>
                reply == BadRequest(PutErrorKey, Validate(data).message) && table == old(table)
      ensures id in old(table) && Validate(data).Accepted? ==>
                var r := Record(data["company"], data["position"], Lower(data["status"].s), data["progress"]);
                if Storable(r) then
                  reply == NoReturn && table == old(table)[id := r]
                else
                  reply == ServerError(CommitFailure(r).value) && table == old(table)
    {
      if id !in table {
        return ServerError(NoSuchId);
      }
      var verdict := Validate(data);
      if verdict.Rejected? {
        return BadRequest(PutErrorKey, verdict.message);
      }
      var r := Record(data["company"], data["position"], Lower(data["status"].s), data["progress"]);
      if !Storable(r) {
        return ServerError(CommitFailure(r).value);
      }
      LowerIsLowerCase(data["status"].s);
      table := table[id := r];
      reply := NoReturn;
    }

    /** `DELETE /api/applications/<id>`. */
    method Delete(id: int) returns (reply: Reply)
      requires Valid()
      modifies this
      ensures Valid() && nextId == old(nextId)
      ensures id in old(table) ==> reply == Deleted && table == old(table) - {id}
      ensures id !in old(table) ==> reply == ServerError(NoSuchId) && table == old(table)
    {
      if id !in table {
        return ServerError(NoSuchId);
      }
      table := table - {id};
      reply := Deleted;
    }

    /** `PATCH /api/applications/<id>`, the logic both PATCH handlers share: the
        status must be listed once lowered and is stored lowered; progress is
        taken as sent, with no range check, and only when present (a value
        outside SQLite's INTEGER then fails the commit). */
    method Patch(id: int, data: Body, route: PatchRoute) returns (reply: Reply)
      requires Valid()
      modifies this
      ensures Valid() && nextId == old(nextId)
      ensures id !in old(table) ==> reply == ServerError(NoSuchId) && table == old(table)
      ensures id in old(table) && "status" !in data ==>
                reply == BadRequest(ErrorKey(route), MissingStatusMessage) && table == old(table)
      ensures id in old(table) && "status" in data && !data["status"].Str? ==>
                reply == ServerError(StatusNotText) && table == old(table)
      ensures id in old(table) && "status" in data && data["status"].Str? &&
              Lower(data["status"].s) !in Statuses ==>
                reply == BadRequest(ErrorKey(route), StatusMessage) && table == old(table)
      ensures id in old(table) && "status" in data && StatusAllowed(data["status"]) ==>
                var was := old(table)[id];
                var progress := if "progress" in data then data["progress"] else was.progress;
                var r := Record(was.company, was.position, Lower(data["status"].s), progress);
                if Storable(r) then
                  reply == Updated(id, r) && table == old(table)[id := r]
                else
                  reply == ServerError(CommitFailure(r).value) && table == old(table)
    {
      if id !in table {
        return ServerError(NoSuchId);
      }
      if "status" !in data {
        return BadRequest(ErrorKey(route), MissingStatusMessage);
      }
      if !data["status"].Str? {
        return ServerError(StatusNotText);
      }
      var status := Lower(data["status"].s);
      if status !in Statuses {
        return BadRequest(ErrorKey(route), StatusMessage);
      }
      var r := table[id].(status := status);
      if "progress" in data {
        r := r.(progress := data["progress"]);
      }
      if !Storable(r) {
        return ServerError(CommitFailure(r).value);
      }
      LowerIsLowerCase(data["status"].s);
      table := table[id := r];
      reply := Updated(id, r);
    }

    /** `GET /api/applications/stats`. */
    method Statistics() returns (s: Stats)
      ensures s.total == |table|
      ensures s.breakdown.Keys == StatusesIn(table)
      ensures forall status :: status in s.breakdown ==>
                s.breakdown[status] == |IdsWithStatus(table, status)|
      ensures Sum(s.breakdown, s.breakdown.Keys) == s.total
      ensures s.latest.None? <==> table == map[]
      ensures s.latest.Some? ==> s.latest.value.0 in table && table[s.latest.value.0] == s.latest.value.1
    {
      var total := |table|;
      var breakdown := Breakdown(table);
      BreakdownSumsToTotal(table);
      var latest: Option<(int, Record)> := None;
      if total > 0 {
        var id :| id in table;
        latest := Some((id, table[id]));
      }
      s := Stats(total, breakdown, latest);
    }
  }
}
