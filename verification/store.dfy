/** The relational store: the tables `operations`, `operation_channels` and
    `emails` as maps from row id to row, each with the order in which its rows
    were inserted (SQLite's rowid order). */
module Store {
  import opened Common

  /** Free-form JSON the handlers attach to an operation; never interpreted. */
  datatype Metadata =
    | NotificationPlan(channels: seq<string>, pdfPlanned: bool, hasAttachments: nat)
    | EmailPlan(recipients: seq<string>, subject: string, pdfPlanned: bool, otherAttachments: nat)
    | Text(json: string)

  datatype OperationRow = OperationRow(
    operationType: string,
    status: string,
    errorMessage: Option<string>,
    isAsync: int,
    createdAt: Timestamp,
    updatedAt: Timestamp,
    metadata: Option<Metadata>)

  datatype ChannelRow = ChannelRow(
    operationId: Id,
    channel: string,
    status: string,
    errorMessage: Option<string>,
    createdAt: Timestamp,
    updatedAt: Timestamp,
    attempts: nat)

  datatype EmailRow = EmailRow(
    operationId: Id,
    recipient: string,
    subject: string,
    body: string,
    status: string,
    errorMessage: Option<string>,
    createdAt: Timestamp)

  /** One write statement, as it reached the store. */
  datatype Write =
    | OperationInserted(id: Id)
    | OperationSet(id: Id, status: string, error: Option<string>)
    | ChannelInserted(id: Id, operationId: Id, channel: string, status: string)
    | ChannelSet(id: Id, status: string, error: Option<string>, bumped: bool)
    | EmailInserted(operationId: Id)
    | EmailsSet(operationId: Id, status: string, error: Option<string>)

  /** `order` lists the keys of `m` once each. */
  ghost predicate Listed<T>(order: seq<Id>, m: map<Id, T>) {
    && (forall i, j :: 0 <= i < j < |order| ==> order[i] != order[j])
    && (forall id :: id in m <==> id in order)
  }

  lemma {:induction false} ListedAppend<T>(order: seq<Id>, m: map<Id, T>, id: Id, v: T)
    requires Listed(order, m) && id !in m
    ensures Listed(order + [id], m[id := v])
  {
    var o := order + [id];
    forall i, j | 0 <= i < j < |o| ensures o[i] != o[j] {
      if j == |order| { assert o[i] in order; }
    }
  }

  /** Operations were inserted at strictly increasing instants. */
  ghost predicate Chronological(order: seq<Id>, m: map<Id, OperationRow>) {
    forall i, j :: 0 <= i < j < |order| && order[i] in m && order[j] in m ==>
      m[order[i]].createdAt.instant < m[order[j]].createdAt.instant
  }

  /** A row stamped after every other row keeps the insertion order chronological. */
  lemma {:induction false} ChronologicalAppend(order: seq<Id>, m: map<Id, OperationRow>, id: Id, row: OperationRow)
    requires Listed(order, m) && Chronological(order, m) && id !in m
    requires forall x :: x in m ==> m[x].createdAt.instant < row.createdAt.instant
    ensures Chronological(order + [id], m[id := row])
  {
    var o, n := order + [id], m[id := row];
    forall i, j | 0 <= i < j < |o| && o[i] in n && o[j] in n
      ensures n[o[i]].createdAt.instant < n[o[j]].createdAt.instant
    {
      assert o[i] == order[i] && o[i] in m && o[i] != id;
      if j < |order| {
        assert o[j] == order[j] && o[j] in m && o[j] != id;
      }
    }
  }

  class Database {
    var operations: map<Id, OperationRow>
    var operationOrder: seq<Id>
    var channels: map<Id, ChannelRow>
    var channelOrder: seq<Id>
    var emails: map<Id, EmailRow>
    var emailOrder: seq<Id>
    /** The wall clock read by `Utc::now()` and by CURRENT_TIMESTAMP. */
    var clock: nat
    /** Every id below `nextId` has been handed out (`Uuid::new_v4`). */
    var nextId: nat
    /** Whether the store answers at all; when it does not, every query fails. */
    const available: bool
    /** Every write the store accepted, oldest first. */
    ghost var log: seq<Write>

    ghost predicate Valid()
      reads this
    {
      && Listed(operationOrder, operations)
      && Listed(channelOrder, channels)
      && Listed(emailOrder, emails)
      && (forall id :: id in operations ==> id < nextId)
      && (forall id :: id in channels ==> id < nextId)
      && (forall id :: id in emails ==> id < nextId)
      && (forall id :: id in operations ==> operations[id].createdAt.instant < clock)
      && Chronological(operationOrder, operations)
      && ChannelsReadable()
    }

    /** Every channel row carries RFC 3339 timestamps, so listing them parses. */
    ghost predicate ChannelsReadable()
      reads this
    {
      forall id :: id in channels ==> channels[id].createdAt.Rfc3339? && channels[id].updatedAt.Rfc3339?
    }

    constructor ()
      ensures Valid() && available
      ensures operations == map[] && channels == map[] && emails == map[] && log == []
    {
      operations, operationOrder := map[], [];
      channels, channelOrder := map[], [];
      emails, emailOrder := map[], [];
      clock, nextId := 0, 0;
      available := true;
      log := [];
    }

    /** Reads the clock; every reading is later than the one before. */
    method Now() returns (t: nat)
      requires Valid()
      modifies this`clock
      ensures Valid()
      ensures t == old(clock) && clock == t + 1
    {
      t := clock;
      clock := clock + 1;
    }

    /** Hands out an id no row of any table carries. */
    method FreshId() returns (id: Id)
      requires Valid()
      modifies this`nextId
      ensures Valid()
      ensures id == old(nextId) && nextId == id + 1
      ensures id !in operations && id !in channels && id !in emails
    {
      id := nextId;
      nextId := nextId + 1;
    }

    /** Stores a new operation row, stamped after every row already there. */
    method InsertOperation(id: Id, row: OperationRow)
      requires Valid() && id !in operations && id < nextId && row.createdAt.instant < clock
      requires forall x :: x in operations ==> operations[x].createdAt.instant < row.createdAt.instant
      modifies this`operations, this`operationOrder
      ensures Valid()
      ensures operations == old(operations)[id := row] && operationOrder == old(operationOrder) + [id]
    {
      ListedAppend(operationOrder, operations, id, row);
      ChronologicalAppend(operationOrder, operations, id, row);
      operations := operations[id := row];
      operationOrder := operationOrder + [id];
    }

    /** Overwrites operation rows in place: no row appears or disappears and
        none changes its creation instant. */
    method WriteOperations(ops: map<Id, OperationRow>)
      requires Valid() && ops.Keys == operations.Keys
      requires forall x :: x in ops ==> ops[x].createdAt == operations[x].createdAt
      modifies this`operations
      ensures Valid() && operations == ops
    {
      operations := ops;
    }

    /** Stores a new channel row; its timestamps are RFC 3339. */
    method InsertChannel(id: Id, row: ChannelRow)
      requires Valid() && id !in channels && id < nextId && row.createdAt.Rfc3339? && row.updatedAt.Rfc3339?
      modifies this`channels, this`channelOrder
      ensures Valid()
      ensures channels == old(channels)[id := row] && channelOrder == old(channelOrder) + [id]
    {
      ListedAppend(channelOrder, channels, id, row);
      channels := channels[id := row];
      channelOrder := channelOrder + [id];
    }

    /** Overwrites channel rows in place, keeping RFC 3339 timestamps. */
    method WriteChannels(chs: map<Id, ChannelRow>)
      requires Valid() && chs.Keys == channels.Keys
      requires forall x :: x in chs ==> chs[x].createdAt.Rfc3339? && chs[x].updatedAt.Rfc3339?
      modifies this`channels
      ensures Valid() && channels == chs
    {
      channels := chs;
    }

    /** Stores a new email row. */
    method InsertEmail(id: Id, row: EmailRow)
      requires Valid() && id !in emails && id < nextId
      modifies this`emails, this`emailOrder
      ensures Valid()
      ensures emails == old(emails)[id := row] && emailOrder == old(emailOrder) + [id]
    {
      ListedAppend(emailOrder, emails, id, row);
      emails := emails[id := row];
      emailOrder := emailOrder + [id];
    }

    /** Overwrites email rows in place. */
    method WriteEmails(ems: map<Id, EmailRow>)
      requires Valid() && ems.Keys == emails.Keys
      modifies this`emails
      ensures Valid() && emails == ems
    {
      emails := ems;
    }
  }
}
