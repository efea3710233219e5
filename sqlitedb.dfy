/**
 * Model of sqlitedb.py: a `GeneralDatabase` that reads, inserts, updates and deletes rows
 * of one SQLite table, and the two tables built on it, `SessionDB` (a per-session order
 * quota: `UsedOrders` counted against the ceiling `TotalOrders`) and `CompanyDB`.
 *
 * A table is a map from primary key to row. Every WHERE clause the callers pass is an
 * equality on the primary key (`SessionId=?`, `Id=?`), so at most one row ever matches.
 * What SQLite checks on a write is captured by a `Schema`: the value of the table's one
 * UNIQUE column besides the primary key, and whether each INTEGER column fits the signed
 * 64 bits SQLite stores (binding a larger Python int raises OverflowError).
 */
module Sqlitedb {
  import opened Wrappers

  const INT64_MIN: int := -0x8000_0000_0000_0000
  const INT64_MAX: int := 0x7FFF_FFFF_FFFF_FFFF

  predicate InInt64(x: int) {
    INT64_MIN <= x <= INT64_MAX
  }

  /** The constraints SQLite enforces on a table beyond its primary key. */
  datatype Schema<!R> = Schema(unique: R -> string, storable: R -> bool)

  /** What a table may hold: every row storable and no two rows sharing the UNIQUE column. */
  ghost predicate Consistent<R>(s: Schema<R>, rows: map<string, R>) {
    && (forall k | k in rows :: s.storable(rows[k]))
    && (forall k, k' | k in rows && k' in rows && k != k' :: s.unique(rows[k]) != s.unique(rows[k']))
  }

  /** Whether SQLite stores `row` under primary key `key` next to the rows `others`. */
  predicate Admits<R>(s: Schema<R>, others: map<string, R>, key: string, row: R) {
    && key !in others
    && s.storable(row)
    && forall k | k in others :: s.unique(others[k]) != s.unique(row)
  }

  /**
   * `GeneralDatabase.insert`: the row goes in when SQLite accepts it; a refused insert
   * (taken primary key, taken UNIQUE value, integer overflow) is printed and swallowed.
   */
  function Inserted<R>(s: Schema<R>, rows: map<string, R>, key: string, row: R): (r: map<string, R>)
    ensures forall k | k in rows :: k in r && r[k] == rows[k]
    ensures r.Keys <= rows.Keys + {key}
    ensures key !in rows ==> (key in r <==> Admits(s, rows, key, row))
    ensures key in r && key !in rows ==> r[key] == row
    ensures Consistent(s, rows) ==> Consistent(s, r)
  {
    if Admits(s, rows, key, row) then rows[key := row] else rows
  }

  /**
   * `GeneralDatabase.update` with `WHERE <primary key>=?`. When `SELECT 1` finds no row the
   * result is False and nothing changes. Otherwise the SET clause, given as `assign` from the
   * row's key and row to its new key and row, is applied; SQLite may still refuse the result,
   * in which case the exception is caught, the connection rolls back and the result is False.
   */
  function Updated<R>(s: Schema<R>, rows: map<string, R>, key: string, assign: (string, R) -> (string, R)):
    (r: (bool, map<string, R>))
    ensures key !in rows ==> !r.0
    ensures !r.0 ==> r.1 == rows
    ensures r.0 <==> key in rows && Admits(s, rows - {key}, assign(key, rows[key]).0, assign(key, rows[key]).1)
    ensures r.0 ==> assign(key, rows[key]).0 in r.1 && r.1[assign(key, rows[key]).0] == assign(key, rows[key]).1
    ensures r.0 ==> forall k | k in rows && k != key :: k in r.1 && r.1[k] == rows[k]
    ensures r.0 ==> r.1.Keys == rows.Keys - {key} + {assign(key, rows[key]).0}
    ensures Consistent(s, rows) ==> Consistent(s, r.1)
  {
    if key !in rows then (false, rows)
    else
      var (key', row') := assign(key, rows[key]);
      var others := rows - {key};
      if Admits(s, others, key', row') then (true, others[key' := row']) else (false, rows)
  }

  /** `GeneralDatabase.delete` with `WHERE <primary key>=?`: False and no change when no row matches. */
  function Deleted<R>(rows: map<string, R>, key: string): (r: (bool, map<string, R>))
    ensures r.0 <==> key in rows
    ensures r.1.Keys == rows.Keys - {key}
    ensures forall k | k in r.1 :: r.1[k] == rows[k]
  {
    (key in rows, rows - {key})
  }

  /** One table of the database file, read and written through `GeneralDatabase`'s methods. */
  class Table<R> {
    const schema: Schema<R>
    var rows: map<string, R>

    ghost predicate Valid()
      reads this
    {
      Consistent(schema, rows)
    }

    /** `create_table` on a database file that does not hold the table yet. */
    constructor (schema: Schema<R>)
      ensures Valid()
      ensures this.schema == schema && rows == map[]
    {
      this.schema := schema;
      rows := map[];
    }

    /** `select` with `WHERE <primary key>=?`: the matching row, or nothing. */
    method Select(key: string) returns (row: Option<R>)
      ensures row.Some? <==> key in rows
      ensures row.Some? ==> row.value == rows[key]
    {
      row := if key in rows then Some(rows[key]) else None;
    }

    method Insert(key: string, row: R)
      requires Valid()
      modifies this
      ensures Valid()
      ensures rows == Inserted(schema, old(rows), key, row)
    {
      if Admits(schema, rows, key, row) {
        rows := rows[key := row];
      }
    }

    method Update(key: string, assign: (string, R) -> (string, R)) returns (ok: bool)
      requires Valid()
      modifies this
      ensures Valid()
      ensures (ok, rows) == Updated(schema, old(rows), key, assign)
    {
      if key !in rows {
        // SELECT 1 found nothing: "record not found"
        return false;
      }
      var (key', row') := assign(key, rows[key]);
      var others := rows - {key};
      if !Admits(schema, others, key', row') {
        // the UPDATE raised; the change is rolled back
        return false;
      }
      rows := others[key' := row'];
      ok := true;
    }

    method Delete(key: string) returns (ok: bool)
      requires Valid()
      modifies this
      ensures Valid()
      ensures (ok, rows) == Deleted(old(rows), key)
    {
      if key !in rows {
        assert rows - {key} == rows;
        return false;
      }
      rows := rows - {key};
      ok := true;
    }
  }

  // ---------------------------------------------------------------------------------------
  // SessionDB
  // ---------------------------------------------------------------------------------------

  /** A row of the Sessions table; its primary key `SessionId` is the key of the row map. */
  datatype SessionRow = SessionRow(
    companyId: string,
    token: string,
    loginTime: string,
    status: string,
    totalOrders: int,
    usedOrders: int)

  /** `Token` is UNIQUE; `TotalOrders` and `UsedOrders` are INTEGER columns. */
  const SessionSchema: Schema<SessionRow> :=
    Schema((r: SessionRow) => r.token, (r: SessionRow) => InInt64(r.totalOrders) && InInt64(r.usedOrders))

  /** The quota test both mutators apply and `check_orders` reports. */
  predicate WithinCeiling(row: SessionRow) {
    row.usedOrders <= row.totalOrders
  }

  /**
   * `increment_used_orders`: reads `TotalOrders` and `UsedOrders`, refuses an unknown session
   * and a step past the ceiling, and otherwise writes back `UsedOrders + 1`.
   */
  function Incremented(rows: map<string, SessionRow>, id: string): (r: (bool, map<string, SessionRow>))
    ensures id !in rows ==> r == (false, rows)
    ensures id in rows && rows[id].usedOrders + 1 > rows[id].totalOrders ==> r == (false, rows)
    ensures !r.0 ==> r.1 == rows
    ensures r.0 ==> id in rows && r.1 == rows[id := rows[id].(usedOrders := rows[id].usedOrders + 1)]
    ensures r.0 ==> WithinCeiling(r.1[id])
    ensures Consistent(SessionSchema, rows) ==>
              (r.0 <==> id in rows && rows[id].usedOrders + 1 <= rows[id].totalOrders)
  {
    if id !in rows then (false, rows)
    else
      var used := rows[id].usedOrders;
      if used + 1 > rows[id].totalOrders then (false, rows)
      else
        var r := Updated(SessionSchema, rows, id, (k, row: SessionRow) => (k, row.(usedOrders := used + 1)));
        assert r.0 ==> r.1 == rows[id := rows[id].(usedOrders := used + 1)];
        assert Consistent(SessionSchema, rows) ==> r.0 by {
          if Consistent(SessionSchema, rows) {
            assert Admits(SessionSchema, rows - {id}, id, rows[id].(usedOrders := used + 1));
          }
        }
        r
  }

  /**
   * `update_used_orders`: an absolute set of `UsedOrders`, refused for an unknown session and
   * for a value above `TotalOrders`. There is no lower bound; only SQLite's 64-bit range
   * stops a very negative value.
   */
  function UsedOrdersSet(rows: map<string, SessionRow>, id: string, n: int): (r: (bool, map<string, SessionRow>))
    ensures id !in rows ==> r == (false, rows)
    ensures id in rows && n > rows[id].totalOrders ==> r == (false, rows)
    ensures !r.0 ==> r.1 == rows
    ensures r.0 ==> id in rows && r.1 == rows[id := rows[id].(usedOrders := n)]
    ensures r.0 ==> WithinCeiling(r.1[id])
    ensures Consistent(SessionSchema, rows) ==>
              (r.0 <==> id in rows && INT64_MIN <= n <= rows[id].totalOrders)
  {
    if id !in rows then (false, rows)
    else if n > rows[id].totalOrders then (false, rows)
    else
      var r := Updated(SessionSchema, rows, id, (k, row: SessionRow) => (k, row.(usedOrders := n)));
      assert r.0 ==> r.1 == rows[id := rows[id].(usedOrders := n)];
      assert Consistent(SessionSchema, rows) && INT64_MIN <= n ==> r.0 by {
        if Consistent(SessionSchema, rows) && INT64_MIN <= n {
          assert Admits(SessionSchema, rows - {id}, id, rows[id].(usedOrders := n));
        }
      }
      r
  }

  /** Incrementing is setting `UsedOrders` to one more than its current value. */
  lemma IncrementIsSetToNext(rows: map<string, SessionRow>, id: string)
    requires id in rows
    ensures Incremented(rows, id) == UsedOrdersSet(rows, id, rows[id].usedOrders + 1)
  {
  }

  class SessionDB {
    const table: Table<SessionRow>

    ghost predicate Valid()
      reads this, table
    {
      table.schema == SessionSchema && table.Valid()
    }

    /** `SessionDB()` followed by `create_table()` on a new database file. */
    constructor ()
      ensures Valid() && fresh(table)
      ensures table.rows == map[]
    {
      table := new Table(SessionSchema);
    }

    /**
     * `add_session`: `sessionId` stands for `uuid.uuid4()` and `loginTime` for
     * `datetime.now().isoformat()`. The id is returned whether or not the insert succeeded;
     * nothing checks `usedOrders <= totalOrders` here.
     */
    method AddSession(sessionId: string, loginTime: string, companyId: string, token: string,
                      status: string := "Active", totalOrders: int := 0, usedOrders: int := 0)
      returns (id: string)
      requires Valid()
      modifies table
      ensures Valid()
      ensures id == sessionId
      ensures table.rows ==
        Inserted(SessionSchema, old(table.rows), sessionId,
                 SessionRow(companyId, token, loginTime, status, totalOrders, usedOrders))
      ensures (exists k | k in old(table.rows) :: old(table.rows)[k].token == token) ==>
                table.rows == old(table.rows)
    {
      table.Insert(sessionId, SessionRow(companyId, token, loginTime, status, totalOrders, usedOrders));
      id := sessionId;
    }

    method IncrementUsedOrders(sessionId: string) returns (ok: bool)
      requires Valid()
      modifies table
      ensures Valid()
      ensures (ok, table.rows) == Incremented(old(table.rows), sessionId)
    {
      var found := table.Select(sessionId);
      if found.None? {
        // "Session not found"
        return false;
      }
      var used := found.value.usedOrders;
      if used + 1 > found.value.totalOrders {
        // would exceed TotalOrders
        return false;
      }
      ok := table.Update(sessionId, (k, row: SessionRow) => (k, row.(usedOrders := used + 1)));
    }

    method UpdateUsedOrders(sessionId: string, newUsedOrders: int) returns (ok: bool)
      requires Valid()
      modifies table
      ensures Valid()
      ensures (ok, table.rows) == UsedOrdersSet(old(table.rows), sessionId, newUsedOrders)
    {
      var found := table.Select(sessionId);
      if found.None? {
        return false;
      }
      if newUsedOrders > found.value.totalOrders {
        return false;
      }
      ok := table.Update(sessionId, (k, row: SessionRow) => (k, row.(usedOrders := newUsedOrders)));
    }

    /** `check_orders`: read-only; False for an unknown session. */
    method CheckOrders(sessionId: string) returns (ok: bool)
      ensures ok <==> sessionId in table.rows && WithinCeiling(table.rows[sessionId])
    {
      var found := table.Select(sessionId);
      if found.None? {
        return false;
      }
      ok := found.value.usedOrders <= found.value.totalOrders;
    }
  }

  /**
   * A caller's view of the quota, from the contracts alone: a session with five orders
   * refuses an absolute set to six, accepts five increments and refuses the sixth; and
   * `add_session` itself stores a row already past its ceiling, which `check_orders` reports.
   */
  method SessionCeilingExample()
  {
    var db := new SessionDB();
    var id := db.AddSession("s-1", "2024-01-01T00:00:00", "c-1", "token-1", totalOrders := 5);
    assert db.table.rows[id] == SessionRow("c-1", "token-1", "2024-01-01T00:00:00", "Active", 5, 0);
    var ok := db.UpdateUsedOrders(id, 6);
    assert !ok && db.table.rows[id].usedOrders == 0;
    var n := 0;
    while n < 5
      invariant 0 <= n <= 5
      invariant db.Valid() && db.table.rows.Keys == {id}
      invariant db.table.rows[id].usedOrders == n && db.table.rows[id].totalOrders == 5
      invariant db.table.rows[id].token == "token-1"
    {
      ok := db.IncrementUsedOrders(id);
      assert ok;
      n := n + 1;
    }
    ok := db.IncrementUsedOrders(id);
    assert !ok && db.table.rows[id].usedOrders == 5;

    var over := db.AddSession("s-2", "2024-01-01T00:00:00", "c-1", "token-2", totalOrders := 0, usedOrders := 3);
    assert over in db.table.rows;
    var within := db.CheckOrders(over);
    assert !within;
  }

  // ---------------------------------------------------------------------------------------
  // CompanyDB
  // ---------------------------------------------------------------------------------------

  /** A row of the Company table; its primary key `Id` is the key of the row map. */
  datatype CompanyRow = CompanyRow(
    name: string,
    licenseNumber: string,
    employeesCount: int,
    services: string,
    createdAt: string)

  /** `LicenseNumber` is UNIQUE; `EmployeesCount` is an INTEGER column. */
  const CompanySchema: Schema<CompanyRow> :=
    Schema((r: CompanyRow) => r.licenseNumber, (r: CompanyRow) => InInt64(r.employeesCount))

  /** A value in the `data` dict passed to `update_company`. */
  datatype Value = Text(text: string) | Integer(number: int)

  const CompanyColumns: set<string> := {"Id", "Name", "LicenseNumber", "EmployeesCount", "Services", "CreatedAt"}

  /**
   * Whether `UPDATE Company SET ...` can be run with these assignments at all: the dict is not
   * empty (an empty SET clause is a syntax error) and names only columns of the table, each
   * with a value of the column's declared type.
   */
  predicate ValidPatch(data: map<string, Value>) {
    && data != map[]
    && forall c | c in data :: c in CompanyColumns && (data[c].Integer? <==> c == "EmployeesCount")
  }

  function TextOr(data: map<string, Value>, column: string, current: string): string {
    if column in data && data[column].Text? then data[column].text else current
  }

  /** The row and primary key after the SET clause: named columns take the new values, the rest keep theirs. */
  function Patched(data: map<string, Value>, id: string, row: CompanyRow): (r: (string, CompanyRow))
    ensures ValidPatch(data) ==>
              && r.0 == (if "Id" in data then data["Id"].text else id)
              && r.1.name == (if "Name" in data then data["Name"].text else row.name)
              && r.1.licenseNumber == (if "LicenseNumber" in data then data["LicenseNumber"].text else row.licenseNumber)
              && r.1.employeesCount == (if "EmployeesCount" in data then data["EmployeesCount"].number else row.employeesCount)
              && r.1.services == (if "Services" in data then data["Services"].text else row.services)
              && r.1.createdAt == (if "CreatedAt" in data then data["CreatedAt"].text else row.createdAt)
  {
    (TextOr(data, "Id", id),
     CompanyRow(
       TextOr(data, "Name", row.name),
       TextOr(data, "LicenseNumber", row.licenseNumber),
       if "EmployeesCount" in data && data["EmployeesCount"].Integer? then data["EmployeesCount"].number else row.employeesCount,
       TextOr(data, "Services", row.services),
       TextOr(data, "CreatedAt", row.createdAt)))
  }

  /** `update_company`: False and no change for an unknown id or a SET clause SQLite refuses. */
  function CompanyUpdated(rows: map<string, CompanyRow>, id: string, data: map<string, Value>):
    (r: (bool, map<string, CompanyRow>))
    ensures !r.0 ==> r.1 == rows
    ensures r.0 <==> id in rows && ValidPatch(data) && Admits(CompanySchema, rows - {id}, Patched(data, id, rows[id]).0, Patched(data, id, rows[id]).1)
    ensures r.0 ==> r.1 == (rows - {id})[Patched(data, id, rows[id]).0 := Patched(data, id, rows[id]).1]
  {
    if !ValidPatch(data) then (false, rows)
    else
      var r := Updated(CompanySchema, rows, id, (k, row) => Patched(data, k, row));
      assert r.0 ==> r.1 == (rows - {id})[Patched(data, id, rows[id]).0 := Patched(data, id, rows[id]).1];
      r
  }

  class CompanyDB {
    const table: Table<CompanyRow>

    ghost predicate Valid()
      reads this, table
    {
      table.schema == CompanySchema && table.Valid()
    }

    /** `CompanyDB()` followed by `create_table()` on a new database file. */
    constructor ()
      ensures Valid() && fresh(table)
      ensures table.rows == map[]
    {
      table := new Table(CompanySchema);
    }

    /**
     * `add_company`: `companyId` stands for `uuid.uuid4()` and `createdAt` for
     * `datetime.now().isoformat()`; the id is returned even when the insert was refused.
     */
    method AddCompany(companyId: string, createdAt: string, name: string, licenseNumber: string,
                      employees: int, services: string)
      returns (id: string)
      requires Valid()
      modifies table
      ensures Valid()
      ensures id == companyId
      ensures table.rows ==
        Inserted(CompanySchema, old(table.rows), companyId, CompanyRow(name, licenseNumber, employees, services, createdAt))
    {
      table.Insert(companyId, CompanyRow(name, licenseNumber, employees, services, createdAt));
      id := companyId;
    }

    method UpdateCompany(companyId: string, data: map<string, Value>) returns (ok: bool)
      requires Valid()
      modifies table
      ensures Valid()
      ensures (ok, table.rows) == CompanyUpdated(old(table.rows), companyId, data)
    {
      if !ValidPatch(data) {
        // the UPDATE statement itself is refused; whether or not the row exists, the result is False
        return false;
      }
      ok := table.Update(companyId, (k, row) => Patched(data, k, row));
    }

    method DeleteCompany(companyId: string) returns (ok: bool)
      requires Valid()
      modifies table
      ensures Valid()
      ensures (ok, table.rows) == Deleted(old(table.rows), companyId)
    {
      ok := table.Delete(companyId);
    }
  }
}
