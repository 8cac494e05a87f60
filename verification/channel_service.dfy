/** The channel registry: one `operation_channels` row per delivery attempt,
    with its own status and attempt counter. */
module ChannelService {
  import opened Common
  import opened Store

  datatype ChannelRecord = ChannelRecord(
    id: Id,
    operationId: Id,
    channel: string,
    status: string,
    errorMessage: Option<string>,
    createdAt: nat,
    updatedAt: nat,
    attempts: nat)

  /** The row after `update_channel_status`: status, error and `updated_at`
      are overwritten together with the counter, in one statement. */
  function Updated(row: ChannelRow, status: string, error: Option<string>, now: nat, bump: bool): (r: ChannelRow)
    ensures r.status == status && r.errorMessage == error && r.updatedAt == Rfc3339(now)
    ensures r.attempts == if bump then row.attempts + 1 else row.attempts
    ensures r.operationId == row.operationId && r.channel == row.channel && r.createdAt == row.createdAt
  {
    row.(status := status, errorMessage := error, updatedAt := Rfc3339(now),
         attempts := if bump then row.attempts + 1 else row.attempts)
  }

  /** The table after `UPDATE operation_channels ... WHERE id`: only row `id`
      changes, and nothing does when there is no such row. */
  function UpdatedTable(channels: map<Id, ChannelRow>, id: Id, status: string, error: Option<string>, now: nat,
                        bump: bool): (r: map<Id, ChannelRow>)
    ensures r.Keys == channels.Keys
    ensures forall other :: other in channels && other != id ==> r[other] == channels[other]
    ensures id in channels ==> r[id] == Updated(channels[id], status, error, now, bump)
  {
    if id in channels then channels[id := Updated(channels[id], status, error, now, bump)] else channels
  }

  /** Inserts a fresh row with no error and no attempts yet. */
  method CreateChannel(db: Database, operationId: Id, channel: string, initialStatus: string) returns (r: Result<Id>)
    requires db.Valid()
    modifies db`channels, db`channelOrder, db`nextId, db`clock, db`log
    ensures db.Valid()
    ensures r.Ok? <==> db.available
    ensures r.Err? ==> (Display(r.error) == "Error creando operation_channel"
      && db.channels == old(db.channels) && db.channelOrder == old(db.channelOrder) && db.log == old(db.log))
    ensures r.Ok? ==>
      var id := r.value;
      && id !in old(db.channels) && id == old(db.nextId)
      && db.channels == old(db.channels)[id := ChannelRow(operationId, channel, initialStatus, None,
           Rfc3339(old(db.clock)), Rfc3339(old(db.clock)), 0)]
      && db.channelOrder == old(db.channelOrder) + [id]
      && db.log == old(db.log) + [ChannelInserted(id, operationId, channel, initialStatus)]
    ensures db.nextId == old(db.nextId) + 1 && db.clock == old(db.clock) + 1
  {
    var id := db.FreshId();
    var now := db.Now();
    if !db.available {
      return Err(Context(Fail(StoreDown), "Error creando operation_channel"));
    }
    var row := ChannelRow(operationId, channel, initialStatus, None, Rfc3339(now), Rfc3339(now), 0);
    db.InsertChannel(id, row);
    db.log := db.log + [ChannelInserted(id, operationId, channel, initialStatus)];
    r := Ok(id);
  }

  /** Overwrites status, error (also to none) and `updated_at` of one row, and
      bumps `attempts` iff asked to; every other row is left alone. */
  method UpdateChannelStatus(db: Database, id: Id, status: string, error: Option<string>, incrementAttempt: bool)
    returns (r: Result<()>)
    requires db.Valid()
    modifies db`channels, db`clock, db`log
    ensures db.Valid()
    ensures r.Ok? <==> db.available
    ensures r.Err? ==> (Display(r.error) == "Error actualizando operation_channel"
      && db.channels == old(db.channels) && db.log == old(db.log))
    ensures r.Ok? ==>
      && db.channels == UpdatedTable(old(db.channels), id, status, error, old(db.clock), incrementAttempt)
      && db.log == old(db.log) + [ChannelSet(id, status, error, incrementAttempt)]
    ensures db.clock == old(db.clock) + 1
  {
    var now := db.Now();
    if !db.available {
      return Err(Context(Fail(StoreDown), "Error actualizando operation_channel"));
    }
    db.WriteChannels(UpdatedTable(db.channels, id, status, error, now, incrementAttempt));
    db.log := db.log + [ChannelSet(id, status, error, incrementAttempt)];
    r := Ok(());
  }

  /** The record read back from a row: both timestamps must parse. */
  function ToRecord(id: Id, row: ChannelRow): (r: Result<ChannelRecord>)
    ensures r.Ok? <==> row.createdAt.Rfc3339? && row.updatedAt.Rfc3339?
    ensures r.Ok? ==> r.value == ChannelRecord(id, row.operationId, row.channel, row.status,
      row.errorMessage, row.createdAt.instant, row.updatedAt.instant, row.attempts)
  {
    var created := ParseInstant(row.createdAt);
    if created.Err? then Err(created.error)
    else
      var updated := ParseInstant(row.updatedAt);
      if updated.Err? then Err(updated.error)
      else Ok(ChannelRecord(id, row.operationId, row.channel, row.status, row.errorMessage,
                            created.value, updated.value, row.attempts))
  }

  /** Reads one channel row; fails when no row has that id. */
  method GetChannel(db: Database, id: Id) returns (r: Result<ChannelRecord>)
    ensures !db.available || id !in db.channels ==>
      (r.Err? && Display(r.error) == "No se encontró operation_channel")
    ensures db.available && id in db.channels ==> r == ToRecord(id, db.channels[id])
  {
    if !db.available {
      return Err(Context(Fail(StoreDown), "No se encontró operation_channel"));
    }
    if id !in db.channels {
      return Err(Context(Fail("no rows returned by a query that expected to return at least one row"),
                         "No se encontró operation_channel"));
    }
    r := ToRecord(id, db.channels[id]);
  }

  /** The ids, in insertion order, of the rows that belong to `operationId`. */
  function RowsOf(order: seq<Id>, channels: map<Id, ChannelRow>, operationId: Id): (ids: seq<Id>)
    requires forall id :: id in order ==> id in channels
    ensures forall id :: id in ids <==> id in order && channels[id].operationId == operationId
    ensures forall k :: 0 <= k < |ids| ==> ids[k] in channels
  {
    if order == [] then []
    else
      var rest := RowsOf(order[..|order| - 1], channels, operationId);
      var last := order[|order| - 1];
      assert forall id :: id in order <==> id in order[..|order| - 1] || id == last;
      if channels[last].operationId == operationId then rest + [last] else rest
  }

  /** Lists every row of one operation, oldest first. */
  method ListChannelsForOperation(db: Database, operationId: Id) returns (r: Result<seq<ChannelRecord>>)
    requires forall id :: id in db.channelOrder ==> id in db.channels
    ensures r.Ok? ==> db.available
    ensures db.available && db.ChannelsReadable() ==> r.Ok?
    ensures r.Ok? ==>
      var ids := RowsOf(db.channelOrder, db.channels, operationId);
      |r.value| == |ids|
      && forall k :: 0 <= k < |ids| ==> ToRecord(ids[k], db.channels[ids[k]]) == Ok(r.value[k])
  {
    if !db.available {
      return Err(Fail(StoreDown));
    }
    var rows := RowsOf(db.channelOrder, db.channels, operationId);
    var result: seq<ChannelRecord> := [];
    var i := 0;
    while i < |rows|
      invariant 0 <= i <= |rows|
      invariant |result| == i
      invariant forall k :: 0 <= k < i ==> ToRecord(rows[k], db.channels[rows[k]]) == Ok(result[k])
    {
      var rec := ToRecord(rows[i], db.channels[rows[i]]);
      if rec.Err? {
        return Err(rec.error);
      }
      result := result + [rec.value];
      i := i + 1;
    }
    r := Ok(result);
  }

  /** Every listed record belongs to the operation, and every row of the
      operation is listed. */
  lemma {:induction false} ListedExactly(db: Database, operationId: Id, listed: seq<ChannelRecord>)
    requires db.Valid()
    requires var ids := RowsOf(db.channelOrder, db.channels, operationId);
      |listed| == |ids| && forall k :: 0 <= k < |ids| ==> ToRecord(ids[k], db.channels[ids[k]]) == Ok(listed[k])
    ensures forall c :: c in listed ==> c.operationId == operationId && c.id in db.channels
    ensures forall id :: id in db.channels && db.channels[id].operationId == operationId ==>
      exists k :: 0 <= k < |listed| && listed[k].id == id
  {
    var ids := RowsOf(db.channelOrder, db.channels, operationId);
    forall c | c in listed ensures c.operationId == operationId && c.id in db.channels {
      var k :| 0 <= k < |listed| && listed[k] == c;
      assert ids[k] in ids;
    }
    forall id | id in db.channels && db.channels[id].operationId == operationId
      ensures exists k :: 0 <= k < |listed| && listed[k].id == id
    {
      assert id in ids;
      var k :| 0 <= k < |ids| && ids[k] == id;
      assert listed[k].id == id;
    }
  }

  /** Every row of the operation is in status "done" (vacuously so when it
      has none). */
  ghost predicate AllDone(channels: map<Id, ChannelRow>, operationId: Id) {
    forall id :: id in channels && channels[id].operationId == operationId ==> channels[id].status == "done"
  }

  /** The listing is all "done" exactly when every row of the operation is. */
  lemma {:induction false} ListedAllDone(db: Database, operationId: Id, listed: seq<ChannelRecord>)
    requires db.Valid()
    requires var ids := RowsOf(db.channelOrder, db.channels, operationId);
      |listed| == |ids| && forall k :: 0 <= k < |ids| ==> ToRecord(ids[k], db.channels[ids[k]]) == Ok(listed[k])
    ensures (forall k :: 0 <= k < |listed| ==> listed[k].status == "done") <==> AllDone(db.channels, operationId)
  {
    var ids := RowsOf(db.channelOrder, db.channels, operationId);
    if forall k :: 0 <= k < |listed| ==> listed[k].status == "done" {
      forall id | id in db.channels && db.channels[id].operationId == operationId
        ensures db.channels[id].status == "done"
      {
        assert id in ids;
        var k :| 0 <= k < |ids| && ids[k] == id;
        assert listed[k].status == "done";
      }
    }
    if AllDone(db.channels, operationId) {
      forall k | 0 <= k < |listed| ensures listed[k].status == "done" {
        assert ids[k] in ids;
      }
    }
  }
}
