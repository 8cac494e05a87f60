/** The operation registry: inserts and overwrites rows of `operations`,
    reads one row back and lists them a page at a time. */
module OperationService {
  import opened Common
  import opened Store

  datatype CreateOperationRequest = CreateOperationRequest(
    operationType: string, isAsync: bool, metadata: Option<Metadata>)

  datatype CreateOperationResponse = CreateOperationResponse(id: Id, message: string)

  datatype OperationRecord = OperationRecord(
    id: Id,
    operationType: string,
    status: string,
    errorMessage: Option<string>,
    isAsync: bool,
    createdAt: nat,
    updatedAt: nat,
    metadata: Option<Metadata>)

  /** A listed operation: timestamps stay as they were stored. */
  datatype OperationStatusResponse = OperationStatusResponse(
    id: Id,
    operationType: string,
    status: string,
    errorMessage: Option<string>,
    isAsync: bool,
    createdAt: Timestamp,
    updatedAt: Timestamp,
    metadata: Option<Metadata>)

  datatype ListOperationsResponse = ListOperationsResponse(
    total: nat, page: nat, pageSize: nat, items: seq<OperationStatusResponse>)

  /** The row `id` with a new status and error message; nothing else changes. */
  function WithStatus(row: OperationRow, status: string, error: Option<string>): (r: OperationRow)
    ensures r.status == status && r.errorMessage == error
    ensures r.(status := row.status, errorMessage := row.errorMessage) == row
  {
    row.(status := status, errorMessage := error)
  }

  /** The table after `UPDATE operations SET status, error_message WHERE id`:
      no row changes when the id is absent. */
  function SetStatus(ops: map<Id, OperationRow>, id: Id, status: string, error: Option<string>): (r: map<Id, OperationRow>)
    ensures r.Keys == ops.Keys
    ensures forall other :: other in ops && other != id ==> r[other] == ops[other]
    ensures id in ops ==> r[id] == WithStatus(ops[id], status, error)
  {
    if id in ops then ops[id := WithStatus(ops[id], status, error)] else ops
  }

  /** The same UPDATE when it also sets `updated_at` to `stamp`. */
  function SetStatusAt(ops: map<Id, OperationRow>, id: Id, status: string, error: Option<string>, stamp: Timestamp)
    : (r: map<Id, OperationRow>)
    ensures r.Keys == ops.Keys
    ensures forall other :: other in ops && other != id ==> r[other] == ops[other]
    ensures id in ops ==> r[id] == WithStatus(ops[id], status, error).(updatedAt := stamp)
    ensures forall other :: other in r ==> r[other].createdAt == ops[other].createdAt
  {
    if id in ops then ops[id := WithStatus(ops[id], status, error).(updatedAt := stamp)] else ops
  }

  /** A later status write hides an earlier one completely. */
  lemma SetStatusTwice(ops: map<Id, OperationRow>, id: Id, s1: string, e1: Option<string>, s2: string, e2: Option<string>)
    ensures SetStatus(SetStatus(ops, id, s1, e1), id, s2, e2) == SetStatus(ops, id, s2, e2)
  {
  }

  /** Inserts a fresh operation in status "pending". */
  method CreateOperation(db: Database, req: CreateOperationRequest) returns (r: Result<CreateOperationResponse>)
    requires db.Valid()
    modifies db`operations, db`operationOrder, db`nextId, db`clock, db`log
    ensures db.Valid()
    ensures r.Ok? <==> db.available
    ensures r.Err? ==> (Display(r.error) == "Fallo al insertar operation"
      && db.operations == old(db.operations) && db.operationOrder == old(db.operationOrder)
      && db.log == old(db.log))
    ensures r.Ok? ==>
      var id := r.value.id;
      && id !in old(db.operations)
      && r.value.message == "Operación creada"
      && db.operations == old(db.operations)[id := OperationRow(
           req.operationType, "pending", None, if req.isAsync then 1 else 0,
           Rfc3339(old(db.clock)), Rfc3339(old(db.clock)), req.metadata)]
      && db.operationOrder == old(db.operationOrder) + [id]
      && db.log == old(db.log) + [OperationInserted(id)]
    ensures db.nextId > old(db.nextId) && db.clock > old(db.clock)
  {
    var id := db.FreshId();
    var now := db.Now();
    if !db.available {
      return Err(Context(Fail(StoreDown), "Fallo al insertar operation"));
    }
    var row := OperationRow(req.operationType, "pending", None, if req.isAsync then 1 else 0,
                            Rfc3339(now), Rfc3339(now), req.metadata);
    db.InsertOperation(id, row);
    db.log := db.log + [OperationInserted(id)];
    r := Ok(CreateOperationResponse(id, "Operación creada"));
  }

  /** Overwrites status, error message and `updated_at` of one row. */
  method UpdateOperation(db: Database, id: Id, status: string, error: Option<string>) returns (r: Result<()>)
    requires db.Valid()
    modifies db`operations, db`clock, db`log
    ensures db.Valid()
    ensures r.Ok? <==> db.available
    ensures r.Err? ==> (Display(r.error) == "Fallo al actualizar operación"
      && db.operations == old(db.operations) && db.log == old(db.log))
    ensures r.Ok? ==>
      && db.operations == SetStatusAt(old(db.operations), id, status, error, Rfc3339(old(db.clock)))
      && db.log == old(db.log) + [OperationSet(id, status, error)]
    ensures db.clock == old(db.clock) + 1
  {
    var now := db.Now();
    if !db.available {
      return Err(Context(Fail(StoreDown), "Fallo al actualizar operación"));
    }
    db.WriteOperations(SetStatusAt(db.operations, id, status, error, Rfc3339(now)));
    db.log := db.log + [OperationSet(id, status, error)];
    r := Ok(());
  }

  /** Overwrites status and error message only; `updated_at` keeps its value. */
  method UpdateOperationStatus(db: Database, id: Id, status: string, error: Option<string>) returns (r: Result<()>)
    requires db.Valid()
    modifies db`operations, db`log
    ensures db.Valid()
    ensures r.Ok? <==> db.available
    ensures r.Err? ==> (Display(r.error) == "Failed to update operation status"
      && db.operations == old(db.operations) && db.log == old(db.log))
    ensures r.Ok? ==>
      && db.operations == SetStatus(old(db.operations), id, status, error)
      && db.log == old(db.log) + [OperationSet(id, status, error)]
  {
    if !db.available {
      return Err(Context(Fail(StoreDown), "Failed to update operation status"));
    }
    db.WriteOperations(SetStatus(db.operations, id, status, error));
    db.log := db.log + [OperationSet(id, status, error)];
    r := Ok(());
  }

  /** Sets status "failed" with the given error; `updated_at` takes SQLite's
      CURRENT_TIMESTAMP, not an RFC 3339 instant. */
  method MarkOperationFailed(db: Database, id: Id, error: string) returns (r: Result<()>)
    requires db.Valid()
    modifies db`operations, db`clock, db`log
    ensures db.Valid()
    ensures r.Ok? <==> db.available
    ensures r.Err? ==> db.operations == old(db.operations) && db.log == old(db.log)
    ensures r.Ok? ==>
      && db.operations == SetStatusAt(old(db.operations), id, "failed", Some(error), SqlTimestamp(old(db.clock)))
      && db.log == old(db.log) + [OperationSet(id, "failed", Some(error))]
    ensures db.clock == old(db.clock) + 1
  {
    var now := db.Now();
    if !db.available {
      return Err(Fail(StoreDown));
    }
    db.WriteOperations(SetStatusAt(db.operations, id, "failed", Some(error), SqlTimestamp(now)));
    db.log := db.log + [OperationSet(id, "failed", Some(error))];
    r := Ok(());
  }

  /** The record read back from a row: both timestamps must parse. */
  function ToRecord(id: Id, row: OperationRow): (r: Result<OperationRecord>)
    ensures r.Ok? <==> row.createdAt.Rfc3339? && row.updatedAt.Rfc3339?
    ensures r.Ok? ==> r.value == OperationRecord(id, row.operationType, row.status, row.errorMessage,
      row.isAsync != 0, row.createdAt.instant, row.updatedAt.instant, row.metadata)
  {
    var created := ParseInstant(row.createdAt);
    if created.Err? then Err(created.error)
    else
      var updated := ParseInstant(row.updatedAt);
      if updated.Err? then Err(updated.error)
      else Ok(OperationRecord(id, row.operationType, row.status, row.errorMessage,
                              row.isAsync != 0, created.value, updated.value, row.metadata))
  }

  /** Reads one operation; fails when no row has that id. */
  method GetOperation(db: Database, id: Id) returns (r: Result<OperationRecord>)
    ensures !db.available || id !in db.operations ==>
      r.Err? && Display(r.error) == "No se encontró operación con ese id"
    ensures db.available && id in db.operations ==> r == ToRecord(id, db.operations[id])
    ensures r.Ok? ==> (r.value.id == id && r.value.status == db.operations[id].status
      && r.value.isAsync == (db.operations[id].isAsync != 0))
  {
    if !db.available {
      return Err(Context(Fail(StoreDown), "No se encontró operación con ese id"));
    }
    if id !in db.operations {
      return Err(Context(Fail("no rows returned by a query that expected to return at least one row"),
                         "No se encontró operación con ese id"));
    }
    r := ToRecord(id, db.operations[id]);
  }

  /** After `mark_operation_failed` the row's `updated_at` no longer parses, so
      `get_operation` on it fails. */
  lemma {:induction false} MarkedFailedIsUnreadable(ops: map<Id, OperationRow>, id: Id, now: nat, error: string)
    requires id in ops
    ensures ToRecord(id, SetStatusAt(ops, id, "failed", Some(error), SqlTimestamp(now))[id]).Err?
  {
  }

  // ---------------------------------------------------------------------
  // Pagination, with the source's u64 arithmetic and SQLite's LIMIT/OFFSET.

  const U64Size: nat := 0x1_0000_0000_0000_0000
  const I64Size: nat := 0x8000_0000_0000_0000

  type U64 = x: nat | x < 0x1_0000_0000_0000_0000

  /** `(page - 1) * page_size` on u64: wraps on underflow and overflow. */
  function PageOffset(page: U64, pageSize: U64): (r: U64)
    ensures page >= 1 && (page - 1) * pageSize < U64Size ==> r == (page - 1) * pageSize
    ensures (r - (page - 1) * pageSize) % U64Size == 0
  {
    var wrapped := (page - 1) % U64Size;
    WrapProduct(page - 1, pageSize, U64Size);
    NoWrap(page - 1, pageSize, U64Size);
    (wrapped * pageSize) % U64Size
  }

  /** Without underflow or overflow the wrapped product is the product. */
  lemma NoWrap(a: int, b: nat, m: nat)
    requires m > 0
    ensures 0 <= a && a * b < m ==> (a % m) * b % m == a * b
  {
    var x := a * b;
    if 0 <= a && x < m && b > 0 {
      assert a <= x by {
        assert x == a + a * (b - 1);
        assert a * (b - 1) >= 0;
      }
      SmallResidue(a, m);
      SmallResidue(x, m);
    }
  }

  lemma SmallResidue(x: int, m: int)
    requires 0 <= x < m
    ensures x % m == x
  {
  }

  /** Reducing a factor first does not change the product's residue. */
  lemma WrapProduct(a: int, b: int, m: int)
    requires m > 0
    ensures ((a % m) * b % m - a * b) % m == 0
  {
    var q := a / m;
    var r := (a % m) * b;
    assert a % m == a - q * m;
    assert r == a * b - q * m * b by {
      assert (a - q * m) * b == a * b - q * m * b;
    }
    assert r % m == r - r / m * m;
    var k := -(q * b) - r / m;
    assert r % m - a * b == k * m by {
      assert q * m * b == q * b * m;
      assert k * m == -(q * b * m) - r / m * m;
    }
    MultipleResidue(k, m);
  }

  /** A multiple of `m` leaves no remainder. */
  lemma MultipleResidue(k: int, m: int)
    requires m > 0
    ensures (k * m) % m == 0
  {
    var t := k * m;
    var j := k - t / m;
    assert t % m == j * m by {
      assert t == t / m * m + t % m;
      assert j * m == k * m - t / m * m;
    }
  }

  /** Page 0 wraps to the offset -page_size once read as i64, and SQLite reads
      a negative offset as 0: page 0 lists the same rows as page 1. */
  lemma {:induction false} PageZeroIsFirstPage(ops: map<Id, OperationRow>, newest: seq<Id>, pageSize: U64)
    requires forall id :: id in newest ==> id in ops
    requires 0 < pageSize <= I64Size
    ensures AsI64(PageOffset(0, pageSize)) == -(pageSize as int)
    ensures ListPage(ops, newest, 0, pageSize).items == ListPage(ops, newest, 1, pageSize).items
  {
    PageZeroOffset(pageSize);
    assert PageOffset(1, pageSize) == 0;
  }

  lemma PageZeroOffset(pageSize: U64)
    requires 0 < pageSize
    ensures PageOffset(0, pageSize) == U64Size - pageSize
  {
    var p := (U64Size - 1) * pageSize;
    assert (-1) % U64Size == U64Size - 1;
    assert p == (pageSize - 1) * U64Size + (U64Size - pageSize);
    Residue(p, pageSize - 1, U64Size - pageSize, U64Size);
  }

  /** The remainder is the one left over by any quotient. */
  lemma Residue(p: int, q: int, r: int, m: int)
    requires m > 0 && 0 <= r < m && p == q * m + r
    ensures p % m == r
  {
    var j := q - p / m;
    assert p % m - r == j * m by {
      assert p == p / m * m + p % m;
      assert j * m == q * m - p / m * m;
    }
  }

  /** `x as i64`: the two's complement reading of a u64. */
  function AsI64(x: U64): (r: int)
    ensures x < I64Size ==> r == x
    ensures x >= I64Size ==> r < 0
  {
    if x < I64Size then x else x - U64Size
  }

  /** Where `OFFSET offset` starts reading `n` rows: a negative offset reads as zero. */
  function WindowStart(n: nat, offset: int): (s: nat)
    ensures s <= n
    ensures 0 <= offset <= n ==> s == offset
  {
    if offset < 0 then 0 else if offset > n then n else offset
  }

  /** `LIMIT limit OFFSET offset` over rows already in result order: a negative
      offset reads as zero and a negative limit means no limit. */
  function Window<T>(rows: seq<T>, limit: int, offset: int): (r: seq<T>)
    ensures 0 <= offset <= |rows| && 0 <= limit ==> r == rows[offset..if offset + limit <= |rows| then offset + limit else |rows|]
    ensures 0 <= limit ==> |r| <= limit
    ensures WindowStart(|rows|, offset) + |r| <= |rows|
    ensures forall k :: 0 <= k < |r| ==> r[k] == rows[WindowStart(|rows|, offset) + k]
  {
    var start := WindowStart(|rows|, offset);
    var end := if limit < 0 || start + limit > |rows| then |rows| else start + limit;
    rows[start..end]
  }

  function ToStatusResponse(id: Id, row: OperationRow): OperationStatusResponse {
    OperationStatusResponse(id, row.operationType, row.status, row.errorMessage,
                            row.isAsync != 0, row.createdAt, row.updatedAt, row.metadata)
  }

  /** Newest operation first: the reverse of insertion order. */
  function NewestFirst(order: seq<Id>): (r: seq<Id>)
    ensures |r| == |order|
    ensures forall k :: 0 <= k < |order| ==> r[k] == order[|order| - 1 - k]
  {
    seq(|order|, k requires 0 <= k < |order| => order[|order| - 1 - k])
  }

  /** The pure part of `list_operations`: offset arithmetic and the mapping of
      fetched rows, newest first, to responses. */
  function ListPage(ops: map<Id, OperationRow>, newest: seq<Id>, page: U64, pageSize: U64): (r: ListOperationsResponse)
    requires forall id :: id in newest ==> id in ops
    ensures r.total == |ops| && r.page == page && r.pageSize == pageSize
    ensures pageSize < I64Size ==> |r.items| <= pageSize
    ensures var shown := Window(newest, AsI64(pageSize), AsI64(PageOffset(page, pageSize)));
      |r.items| == |shown| && forall k :: 0 <= k < |shown| ==> r.items[k] == ToStatusResponse(shown[k], ops[shown[k]])
  {
    var shown := Window(newest, AsI64(pageSize), AsI64(PageOffset(page, pageSize)));
    ListOperationsResponse(|ops|, page, pageSize,
      seq(|shown|, k requires 0 <= k < |shown| => ToStatusResponse(shown[k], ops[shown[k]])))
  }

  /** Lists one page of operations, newest first, with the total row count. */
  method ListOperations(db: Database, page: U64, pageSize: U64) returns (r: Result<ListOperationsResponse>)
    requires db.Valid()
    ensures r.Ok? <==> db.available
    ensures r.Ok? ==> r.value == ListPage(db.operations, NewestFirst(db.operationOrder), page, pageSize)
  {
    if !db.available {
      return Err(Fail(StoreDown));
    }
    r := Ok(ListPage(db.operations, NewestFirst(db.operationOrder), page, pageSize));
  }

  /** A page of an ordinary query (page >= 1, no overflow) is the slice of
      newest-first rows starting at (page - 1) * page_size. */
  lemma {:induction false} PageIsSlice(ops: map<Id, OperationRow>, newest: seq<Id>, page: U64, pageSize: U64)
    requires forall id :: id in newest ==> id in ops
    requires page >= 1 && pageSize < I64Size && (page - 1) * pageSize < I64Size
    requires (page - 1) * pageSize <= |newest|
    ensures var off := (page - 1) * pageSize;
      var end := if off + pageSize <= |newest| then off + pageSize else |newest|;
      var items := ListPage(ops, newest, page, pageSize).items;
      |items| == end - off
      && forall k :: 0 <= k < end - off ==> items[k].id == newest[off + k]
  {
    var off := (page - 1) * pageSize;
    assert PageOffset(page, pageSize) == off;
    assert AsI64(off) == off;
    assert AsI64(pageSize) == pageSize;
  }

  /** Every id names a row, and creation instants strictly decrease along `ids`. */
  ghost predicate Decreasing(ops: map<Id, OperationRow>, ids: seq<Id>) {
    && (forall k :: 0 <= k < |ids| ==> ids[k] in ops)
    && (forall p, q :: 0 <= p < q < |ids| ==> Created(ops, ids[p]) > Created(ops, ids[q]))
  }

  ghost function Created(ops: map<Id, OperationRow>, id: Id): int {
    if id in ops then ops[id].createdAt.instant else -1
  }

  /** Listed items appear newest first: strictly decreasing creation instants. */
  lemma {:induction false} ListedNewestFirst(ops: map<Id, OperationRow>, order: seq<Id>, page: U64, pageSize: U64)
    requires Listed(order, ops) && Chronological(order, ops)
    ensures var items := ListPage(ops, NewestFirst(order), page, pageSize).items;
      forall i, j :: 0 <= i < j < |items| ==> items[i].createdAt.instant > items[j].createdAt.instant
  {
    var newest := NewestFirst(order);
    NewestFirstSameRows(order);
    NewestFirstDecreasing(ops, order);
    var shown := Window(newest, AsI64(pageSize), AsI64(PageOffset(page, pageSize)));
    WindowKeepsOrder(ops, newest, AsI64(pageSize), AsI64(PageOffset(page, pageSize)));
    var items := ListPage(ops, newest, page, pageSize).items;
    assert forall k :: 0 <= k < |items| ==> items[k].createdAt.instant == Created(ops, shown[k]);
  }

  lemma {:induction false} WindowKeepsOrder(ops: map<Id, OperationRow>, newest: seq<Id>, limit: int, offset: int)
    requires Decreasing(ops, newest)
    ensures Decreasing(ops, Window(newest, limit, offset))
  {
    var shown := Window(newest, limit, offset);
    var start := WindowStart(|newest|, offset);
    assert shown == newest[start..start + |shown|];
    DecreasingSlice(ops, newest, start, start + |shown|);
  }

  lemma {:induction false} DecreasingSlice(ops: map<Id, OperationRow>, ids: seq<Id>, lo: nat, hi: nat)
    requires Decreasing(ops, ids) && lo <= hi <= |ids|
    ensures Decreasing(ops, ids[lo..hi])
  {
    var part := ids[lo..hi];
    forall p, q | 0 <= p < q < |part| ensures Created(ops, part[p]) > Created(ops, part[q]) {
      assert part[p] == ids[lo + p] && part[q] == ids[lo + q];
    }
  }

  lemma {:induction false} NewestFirstDecreasing(ops: map<Id, OperationRow>, order: seq<Id>)
    requires Listed(order, ops) && Chronological(order, ops)
    ensures Decreasing(ops, NewestFirst(order))
  {
    var newest := NewestFirst(order);
    var n := |order|;
    forall p, q | 0 <= p < q < n
      ensures Created(ops, newest[p]) > Created(ops, newest[q])
    {
      assert newest[p] == order[n - 1 - p] && newest[q] == order[n - 1 - q];
      assert order[n - 1 - p] in ops && order[n - 1 - q] in ops;
    }
    forall k | 0 <= k < n ensures newest[k] in ops {
      assert newest[k] == order[n - 1 - k];
    }
  }

  lemma {:induction false} NewestFirstSameRows(order: seq<Id>)
    ensures forall id :: id in NewestFirst(order) <==> id in order
  {
    var r := NewestFirst(order);
    forall id | id in order ensures id in r {
      var k :| 0 <= k < |order| && order[k] == id;
      assert r[|order| - 1 - k] == id;
    }
  }

  /** Any status may overwrite any other: an update of a row in a terminal
      status still takes effect. */
  lemma {:induction false} NoTransitionGuard(ops: map<Id, OperationRow>, id: Id, status: string, error: Option<string>)
    requires id in ops && ops[id].status in {"done", "failed"}
    ensures SetStatus(ops, id, status, error)[id].status == status
  {
  }
}
