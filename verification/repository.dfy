/** The PostgreSQL write repository: each method sends its statements one by one,
    in a transaction where the source opens one, and reads the order back. */
module Postgres {
  import opened Text
  import opened Tables
  import opened Outbox
  import opened Commands
  import opened History
  import D = Domain

  datatype RepositoryError = Absent | Broken

  /** Which of the two reads of `GetByID` fail. */
  datatype Reads = Reads(rowFails: bool, snapshotFails: bool)

  /** `GetByID`: the row, then the snapshot. */
  function Loading(t: Tables, id: string, trips: Reads): Result<D.Order, RepositoryError> {
    if trips.rowFails || !IsUuid(id) then Err(Broken)
    else if id !in t.orders then Err(Absent)
    else if trips.snapshotFails then Err(Broken)
    else if id !in t.snapshots then Err(Absent)
    else Ok(D.Loaded(t.orders[id], t.snapshots[id]))
  }

  /** What a writing method answers: its reply, or the order read back. */
  function Replied(o: Outcome, id: string, trips: Reads): Result<D.Order, RepositoryError> {
    match o.reply
    case Success => Loading(o.store.tables, id, trips)
    case NotFound => Err(Absent)
    case Failure => Err(Broken)
  }

  class Repository {
    var store: Store

    constructor ()
      ensures store == EMPTY_STORE
    {
      store := EMPTY_STORE;
    }

    /** Runs one statement outside a transaction: its own commit. */
    method Run1(q: Plan, fault: Option<Fault>) returns (reply: Reply)
      modifies this
      ensures Outcome(store, reply) == Settle(old(store), Apply(old(store), q), fault)
    {
      if fault == Some(Refused) {
        return Failure;
      }
      match q {
        case Upsert(row) =>
          store := Write(store, row);
          return if fault.Some? then Failure else Success;
        case NoMatch => return if fault.Some? then Failure else NotFound;
        case Violation => return Failure;
      }
    }

    /** Commits a transaction's copy of the store. */
    method Commit(tx: Store, fault: Option<Fault>) returns (reply: Reply)
      modifies this
      ensures Outcome(store, reply) == Settle(old(store), Applied(tx), fault)
    {
      if fault != Some(Refused) {
        store := tx;
      }
      return if fault.Some? then Failure else Success;
    }

    method GetById(id: string, trips: Reads) returns (r: Result<D.Order, RepositoryError>)
      ensures r == Loading(store.tables, id, trips)
      ensures r.Ok? <==> IsUuid(id) && id in store.tables.orders && id in store.tables.snapshots && !trips.rowFails && !trips.snapshotFails
      ensures r == Err(Absent) <==> IsUuid(id) && !trips.rowFails
                                    && (id !in store.tables.orders || (!trips.snapshotFails && id !in store.tables.snapshots))
    {
      if trips.rowFails || !IsUuid(id) {
        return Err(Broken);
      }
      if id !in store.tables.orders {
        return Err(Absent);
      }
      var row := store.tables.orders[id];
      if trips.snapshotFails {
        return Err(Broken);
      }
      if id !in store.tables.snapshots {
        return Err(Absent);
      }
      return Ok(D.Loaded(row, store.tables.snapshots[id]));
    }

    method Create(p: CreateParams, now: Time, faults: Faults, trips: Reads) returns (r: Result<D.Order, RepositoryError>)
      modifies this
      ensures var done := Step(old(store), Call(Command.Create(p), now, faults));
              store == done.store && r == Replied(done, p.orderId, trips)
    {
      if 0 in faults {
        return Err(Broken);
      }
      var e := Within(store, InsertOrder(store.tables, p), 1, faults);
      if !e.Applied? {
        return Err(Broken);
      }
      var tx := e.store;
      e := Within(tx, UpsertSnapshot(tx.tables, p, now), 2, faults);
      if !e.Applied? {
        return Err(Broken);
      }
      var reply := Commit(e.store, FaultAt(faults, 3));
      if reply != Success {
        return Err(Broken);
      }
      r := GetById(p.orderId, trips);
    }

    /** The methods that run one statement and read the order back: the updates
        `MarkPaid` to `MarkReleaseFailed`, answers, message, attachment. */
    method Execute(c: Command, now: Time, faults: Faults, trips: Reads) returns (r: Result<D.Order, RepositoryError>)
      requires !IsTransaction(c)
      modifies this
      ensures var done := Step(old(store), Call(c, now, faults));
              store == done.store && r == Replied(done, c.orderId, trips)
    {
      var reply := Run1(Statement(store.tables, c, now), FaultAt(faults, 0));
      match reply {
        case Success => r := GetById(c.orderId, trips);
        case NotFound => return Err(Absent);
        case Failure => return Err(Broken);
      }
    }

    /** Two statements, each its own commit: the second may fail alone. */
    method SaveCheckoutSession(id: string, intentId: string, url: string, now: Time, first: Faults, second: Faults)
      returns (reply: Reply)
      modifies this
      ensures var begun := Step(old(store), Call(BeginCheckout(id, intentId), now, first));
              var saved := Step(begun.store, Call(SaveSession(id, url), now, second));
              if begun.reply != Success then store == begun.store && reply == begun.reply
              else store == saved.store && reply == saved.reply
    {
      reply := Run1(Statement(store.tables, BeginCheckout(id, intentId), now), FaultAt(first, 0));
      if reply == Success {
        reply := Run1(Statement(store.tables, SaveSession(id, url), now), FaultAt(second, 0));
      }
    }

    method SaveDelivery(c: Command, now: Time, faults: Faults, trips: Reads) returns (r: Result<D.Order, RepositoryError>)
      requires c.SaveDelivery?
      modifies this
      ensures var done := Step(old(store), Call(c, now, faults));
              store == done.store && r == Replied(done, c.orderId, trips)
    {
      if 0 in faults {
        return Err(Broken);
      }
      var e := Within(store, UpdateOrder(store.tables, c, now), 1, faults);
      if !e.Applied? {
        return Err(if e.NoRow? then Absent else Broken);
      }
      var tx := e.store;
      e := Within(tx, UpsertDelivery(tx.tables, c.orderId, c.sellerId, c.message, now), 2, faults);
      if !e.Applied? {
        return Err(Broken);
      }
      tx := e.store;
      ghost var inserted := InsertFiles(tx, c, 0, now, faults);
      for i := 0 to |c.attachmentIds|
        invariant InsertFiles(tx, c, i, now, faults) == inserted && store == old(store)
      {
        if Blank(c.attachmentIds[i]) {
          continue;
        }
        e := Within(tx, UpsertFile(tx.tables, c.orderId, c.attachmentIds[i], i + 1, now), 3 + i, faults);
        if !e.Applied? {
          return Err(Broken);
        }
        tx := e.store;
      }
      var reply := Commit(tx, FaultAt(faults, 3 + |c.attachmentIds|));
      if reply != Success {
        return Err(Broken);
      }
      r := GetById(c.orderId, trips);
    }

    method RequestRevision(c: Command, now: Time, faults: Faults, trips: Reads) returns (r: Result<D.Order, RepositoryError>)
      requires c.RequestRevision?
      modifies this
      ensures var done := Step(old(store), Call(c, now, faults));
              store == done.store && r == Replied(done, c.orderId, trips)
    {
      if 0 in faults {
        return Err(Broken);
      }
      var e := Within(store, UpdateOrder(store.tables, c, now), 1, faults);
      if !e.Applied? {
        return Err(if e.NoRow? then Absent else Broken);
      }
      var tx := e.store;
      e := Within(tx, UpsertRevision(tx.tables, c.orderId, c.buyerId, c.reason, c.requestedAt), 2, faults);
      if !e.Applied? {
        return Err(Broken);
      }
      var reply := Commit(e.store, FaultAt(faults, 3));
      if reply != Success {
        return Err(Broken);
      }
      r := GetById(c.orderId, trips);
    }

    method OpenDispute(c: Command, now: Time, faults: Faults, trips: Reads) returns (r: Result<D.Order, RepositoryError>)
      requires c.OpenDispute?
      modifies this
      ensures var done := Step(old(store), Call(c, now, faults));
              store == done.store && r == Replied(done, c.orderId, trips)
    {
      hide IsUuid;
      if 0 in faults {
        return Err(Broken);
      }
      var q := UpdateOrder(store.tables, c, now);
      var e := Within(store, q, 1, faults);
      if !e.Applied? {
        return Err(if e.NoRow? then Absent else Broken);
      }
      var tx, order := e.store, q.row.o;
      var role := "seller";
      if TrimSpace(c.initiatorId) == TrimSpace(order.buyerId) {
        role := "buyer";
      }
      var dispute := DisputeRow(c.orderId, order.buyerId, c.initiatorId, role, c.disputeType, c.reason, now);
      e := Within(tx, UpsertDispute(tx.tables, dispute), 2, faults);
      if !e.Applied? {
        return Err(Broken);
      }
      var reply := Commit(e.store, FaultAt(faults, 3));
      if reply != Success {
        return Err(Broken);
      }
      r := GetById(c.orderId, trips);
    }
  }
}
