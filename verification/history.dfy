/** What every history of commands keeps, whatever fails in between. */
module History {
  import opened Text
  import opened Tables
  import opened Outbox
  import opened Commands

  /** One command sent to the database, with the clock it reads and the round
      trips that go wrong. */
  datatype Call = Call(command: Command, now: Time, faults: Faults)

  function Step(s: Store, c: Call): Outcome {
    Exec(s, c.command, c.now, c.faults)
  }

  /** The store after a history that starts on empty tables. */
  function Run(h: seq<Call>): Store {
    if h == [] then EMPTY_STORE else Step(Run(h[..|h| - 1]), h[|h| - 1]).store
  }

  // ---- atomicity ---------------------------------------------------------

  const CALM: Faults := map[]

  lemma {:induction false} FilesAreAtomic(s: Store, c: Command, i: nat, now: Time, faults: Faults)
    requires c.SaveDelivery? && i <= |c.attachmentIds|
    requires InsertFiles(s, c, i, now, faults).Applied?
    ensures InsertFiles(s, c, i, now, CALM) == InsertFiles(s, c, i, now, faults)
    decreases |c.attachmentIds| - i
  {
    if i < |c.attachmentIds| {
      if Blank(c.attachmentIds[i]) {
        FilesAreAtomic(s, c, i + 1, now, faults);
      } else {
        FilesAreAtomic(AfterFile(s, c, i, now), c, i + 1, now, faults);
      }
    }
  }

  /** The store after one attachment is inserted. */
  function AfterFile(s: Store, c: Command, i: nat, now: Time): Store
    requires c.SaveDelivery? && i < |c.attachmentIds|
  {
    var q := UpsertFile(s.tables, c.orderId, c.attachmentIds[i], i + 1, now);
    if q.Upsert? then Write(s, q.row) else s
  }

  /** The store a delivery transaction reaches before its attachments. */
  function BeforeFiles(s: Store, c: Command, now: Time): Effect
    requires c.SaveDelivery?
  {
    var e := Apply(s, UpdateOrder(s.tables, c, now));
    if !e.Applied? then e
    else Apply(e.store, UpsertDelivery(e.store.tables, c.orderId, c.sellerId, c.message, now))
  }

  lemma BodyIsAtomic(s: Store, c: Command, now: Time, faults: Faults)
    requires Body(s, c, now, faults).Applied?
    ensures Body(s, c, now, CALM) == Body(s, c, now, faults)
  {
    if c.SaveDelivery? {
      FilesAreAtomic(BeforeFiles(s, c, now).store, c, 0, now, faults);
    }
  }

  /** All or nothing: whichever round trips fail, the tables and the outbox are
      either untouched or exactly what the call leaves when nothing fails. A
      caller told success has the second, a caller told not-found the first. */
  lemma CallsAreAtomic(s: Store, c: Call)
    ensures Step(s, c).store == s || Step(s, c).store == Step(s, c.(faults := CALM)).store
    ensures Step(s, c).reply == Success ==>
              Body(s, c.command, c.now, CALM).Applied? && Step(s, c) == Step(s, c.(faults := CALM))
    ensures Step(s, c).reply == NotFound ==> Step(s, c).store == s
  {
    if Body(s, c.command, c.now, c.faults).Applied? {
      BodyIsAtomic(s, c.command, c.now, c.faults);
    }
  }

  lemma WriteKeepsRowKeys(s: Store, r: Row)
    requires RowsKeyed(s.tables)
    ensures RowsKeyed(Write(s, r).tables)
  {}

  ghost predicate HasRowKeys(s: Store) {
    RowsKeyed(s.tables)
  }

  /** Every other row too sits under its own primary key. */
  lemma StepKeepsRowKeys(s: Store, c: Call)
    requires Keyed(s) && HasRowKeys(s)
    ensures HasRowKeys(Step(s, c).store)
  {
    hide Step;
    forall x, r | HasRowKeys(x) ensures HasRowKeys(Write(x, r)) {
      WriteKeepsRowKeys(x, r);
    }
    StepKeeps(HasRowKeys, s, c);
  }

  /** A committed command names its order by a canonical UUID. */
  lemma CommitsNameUuids(s: Store, c: Call)
    ensures Step(s, c).store == s || IsUuid(Target(c.command))
  {}

  ghost predicate WellKeyed(t: Tables) {
    RowsKeyed(t) && forall id :: id in t.orders ==> IsUuid(id)
  }

  /** The only order a command may add is its target. */
  lemma StepAddsTarget(s: Store, c: Call, id: string)
    requires Keyed(s) && id !in s.tables.orders && id != Target(c.command)
    ensures id !in Step(s, c).store.tables.orders
  {
    OtherOrdersUntouched(s, c, id);
  }

  lemma {:induction false} RunIsWellKeyed(h: seq<Call>)
    ensures WellKeyed(Run(h).tables)
  {
    if h != [] {
      var s, c := Run(h[..|h| - 1]), h[|h| - 1];
      RunIsWellKeyed(h[..|h| - 1]);
      RunIsKeyed(h[..|h| - 1]);
      StepKeepsRowKeys(s, c);
      CommitsNameUuids(s, c);
      forall id | id in Run(h).tables.orders ensures IsUuid(id) {
        if id !in s.tables.orders && id != Target(c.command) {
          StepAddsTarget(s, c, id);
        }
      }
    }
  }

  // ---- rows under their keys -------------------------------------------------

  /** Every orders row sits under its own id. */
  ghost predicate Keyed(s: Store) {
    forall id :: id in s.tables.orders ==> s.tables.orders[id].orderId == id
  }

  lemma WriteKeepsKeys(s: Store, r: Row)
    requires Keyed(s)
    ensures Keyed(Write(s, r))
  {}

  /** The rows a command writes: rows of its target order, in its own tables. */
  predicate Writes(c: Command, r: Row) {
    && OrderIdOf(r) == Target(c)
    && match r
       case Order(_) => c.Create? || UpdatesOrder(c)
       case Snapshot(_) => c.Create?
       case Question(_) => c.SaveQuestion?
       case Answer(_) => c.SaveAnswer?
       case Message(_) => c.SaveMessage?
       case Attachment(_) => c.AttachFile?
       case Session(_) => c.SaveSession?
       case Delivery(_) => c.SaveDelivery?
       case Revision(_) => c.RequestRevision?
       case Dispute(_) => c.OpenDispute?
       case DeliveryFile(_) => c.SaveDelivery?
  }

  /** A property of stores that every row write of the command keeps. */
  ghost predicate KeptByWrites(c: Command, p: Store -> bool) {
    forall s, r {:trigger Write(s, r)} :: Keyed(s) && p(s) && Writes(c, r) ==> p(Write(s, r))
  }

  /** The statement writes a row the command may write. */
  predicate PlansFor(c: Command, q: Plan) {
    q.Upsert? ==> Writes(c, q.row)
  }

  lemma PlanKeeps(c: Command, p: Store -> bool, s: Store, q: Plan)
    requires KeptByWrites(c, p) && Keyed(s) && p(s) && PlansFor(c, q)
    ensures Apply(s, q).Applied? ==> Keyed(Apply(s, q).store) && p(Apply(s, q).store)
  {
    if q.Upsert? {
      WriteKeepsKeys(s, q.row);
    }
  }

  lemma FileKeeps(p: Store -> bool, s: Store, c: Command, i: nat, now: Time)
    requires c.SaveDelivery? && KeptByWrites(c, p) && Keyed(s) && p(s) && i < |c.attachmentIds|
    ensures Keyed(AfterFile(s, c, i, now)) && p(AfterFile(s, c, i, now))
  {
    PlanKeeps(c, p, s, UpsertFile(s.tables, c.orderId, c.attachmentIds[i], i + 1, now));
  }

  lemma {:induction false} FilesKeep(p: Store -> bool, s: Store, c: Command, i: nat, now: Time)
    requires c.SaveDelivery? && KeptByWrites(c, p) && Keyed(s) && p(s)
    requires i <= |c.attachmentIds| && InsertFiles(s, c, i, now, CALM).Applied?
    ensures Keyed(InsertFiles(s, c, i, now, CALM).store) && p(InsertFiles(s, c, i, now, CALM).store)
    decreases |c.attachmentIds| - i
  {
    if i < |c.attachmentIds| {
      if Blank(c.attachmentIds[i]) {
        FilesKeep(p, s, c, i + 1, now);
      } else {
        FileKeeps(p, s, c, i, now);
        FilesKeep(p, AfterFile(s, c, i, now), c, i + 1, now);
      }
    }
  }

  lemma FirstStatementKeeps(p: Store -> bool, s: Store, c: Command, now: Time, q: Plan)
    requires IsTransaction(c) && KeptByWrites(c, p) && Keyed(s) && p(s)
    requires q == if c.Create? then InsertOrder(s.tables, c.p) else UpdateOrder(s.tables, c, now)
    ensures Apply(s, q).Applied? ==> Keyed(Apply(s, q).store) && p(Apply(s, q).store)
  {
    assert PlansFor(c, q);
    PlanKeeps(c, p, s, q);
  }

  lemma CreateKeeps(p: Store -> bool, s: Store, d: CreateParams, now: Time)
    requires KeptByWrites(Create(d), p) && Keyed(s) && p(s) && CreateTx(s, d, now, CALM).Applied?
    ensures Keyed(CreateTx(s, d, now, CALM).store) && p(CreateTx(s, d, now, CALM).store)
  {
    FirstStatementKeeps(p, s, Create(d), now, InsertOrder(s.tables, d));
    var e := Apply(s, InsertOrder(s.tables, d)).store;
    PlanKeeps(Create(d), p, e, UpsertSnapshot(e.tables, d, now));
  }

  lemma DeliveryKeeps(p: Store -> bool, s: Store, c: Command, now: Time)
    requires c.SaveDelivery? && KeptByWrites(c, p) && Keyed(s) && p(s) && SaveDeliveryTx(s, c, now, CALM).Applied?
    ensures Keyed(SaveDeliveryTx(s, c, now, CALM).store) && p(SaveDeliveryTx(s, c, now, CALM).store)
  {
    FirstStatementKeeps(p, s, c, now, UpdateOrder(s.tables, c, now));
    var e := Apply(s, UpdateOrder(s.tables, c, now)).store;
    PlanKeeps(c, p, e, UpsertDelivery(e.tables, c.orderId, c.sellerId, c.message, now));
    FilesKeep(p, BeforeFiles(s, c, now).store, c, 0, now);
  }

  lemma RevisionKeeps(p: Store -> bool, s: Store, c: Command, now: Time)
    requires c.RequestRevision? && KeptByWrites(c, p) && Keyed(s) && p(s)
    requires RequestRevisionTx(s, c, now, CALM).Applied?
    ensures Keyed(RequestRevisionTx(s, c, now, CALM).store) && p(RequestRevisionTx(s, c, now, CALM).store)
  {
    FirstStatementKeeps(p, s, c, now, UpdateOrder(s.tables, c, now));
    var e := Apply(s, UpdateOrder(s.tables, c, now)).store;
    PlanKeeps(c, p, e, UpsertRevision(e.tables, c.orderId, c.buyerId, c.reason, c.requestedAt));
  }

  lemma DisputeKeeps(p: Store -> bool, s: Store, c: Command, now: Time)
    requires c.OpenDispute? && KeptByWrites(c, p) && Keyed(s) && p(s) && OpenDisputeTx(s, c, now, CALM).Applied?
    ensures Keyed(OpenDisputeTx(s, c, now, CALM).store) && p(OpenDisputeTx(s, c, now, CALM).store)
  {
    FirstStatementKeeps(p, s, c, now, UpdateOrder(s.tables, c, now));
    var e := Apply(s, UpdateOrder(s.tables, c, now)).store;
    var buyer := Change(c, s.tables.orders[c.orderId], now).buyerId;
    PlanKeeps(c, p, e, UpsertDispute(e.tables, DisputeOf(c, buyer, now)));
  }

  lemma BodyKeeps(p: Store -> bool, s: Store, d: Command, now: Time)
    requires KeptByWrites(d, p) && Keyed(s) && p(s) && Body(s, d, now, CALM).Applied?
    ensures Keyed(Body(s, d, now, CALM).store) && p(Body(s, d, now, CALM).store)
  {
    hide KeptByWrites, CreateTx, SaveDeliveryTx, RequestRevisionTx, OpenDisputeTx;
    if d.Create? {
      CreateKeeps(p, s, d.p, now);
    } else if d.SaveDelivery? {
      DeliveryKeeps(p, s, d, now);
    } else if d.RequestRevision? {
      RevisionKeeps(p, s, d, now);
    } else if d.OpenDispute? {
      DisputeKeeps(p, s, d, now);
    } else {
      var q := Statement(s.tables, d, now);
      assert PlansFor(d, q);
      PlanKeeps(d, p, s, q);
    }
  }

  /** A call does nothing but write rows of its target order: whatever those
      writes keep, the call keeps. */
  lemma StepKeeps(p: Store -> bool, s: Store, c: Call)
    requires KeptByWrites(c.command, p) && Keyed(s) && p(s)
    ensures Keyed(Step(s, c).store) && p(Step(s, c).store)
  {
    hide KeptByWrites, Body, Keyed;
    CallsAreAtomic(s, c);
    if Body(s, c.command, c.now, CALM).Applied? {
      BodyKeeps(p, s, c.command, c.now);
    }
  }

  lemma StepKeepsKeys(s: Store, c: Call)
    requires Keyed(s)
    ensures Keyed(Step(s, c).store)
  {
    StepKeeps((x: Store) => true, s, c);
  }

  lemma {:induction false} RunIsKeyed(h: seq<Call>)
    ensures Keyed(Run(h))
  {
    if h != [] {
      RunIsKeyed(h[..|h| - 1]);
      StepKeepsKeys(Run(h[..|h| - 1]), h[|h| - 1]);
    }
  }

  // ---- the outbox ----------------------------------------------------------

  lemma WritesAreReplayed(c: Command)
    ensures KeptByWrites(c, Rebuilt)
  {
    forall s, r | Rebuilt(s) ensures Rebuilt(Write(s, r)) {
      WriteIsReplayed(s, r);
    }
  }

  /** After any history, replaying the outbox in commit order rebuilds all
      eleven tables. */
  lemma {:induction false} OutboxRebuildsTables(h: seq<Call>)
    ensures Replay(Events(Run(h).log)) == Run(h).tables
  {
    if h != [] {
      var before := Run(h[..|h| - 1]);
      OutboxRebuildsTables(h[..|h| - 1]);
      RunIsKeyed(h[..|h| - 1]);
      WritesAreReplayed(h[|h| - 1].command);
      StepKeeps(Rebuilt, before, h[|h| - 1]);
    }
  }

  // ---- one order at a time -------------------------------------------------

  function Get<K, V>(m: map<K, V>, k: K): Option<V> {
    if k in m then Some(m[k]) else None
  }

  /** The rows of the one-row-per-order tables for one order. */
  datatype Slice = Slice(
    order: Option<OrderRow>, snapshot: Option<SnapshotRow>, session: Option<SessionRow>,
    delivery: Option<DeliveryRow>, revision: Option<RevisionRow>, dispute: Option<DisputeRow>)

  function SliceOf(t: Tables, id: string): Slice {
    Slice(Get(t.orders, id), Get(t.snapshots, id), Get(t.sessions, id),
          Get(t.deliveries, id), Get(t.revisions, id), Get(t.disputes, id))
  }

  lemma OtherSliceKept(s: Store, r: Row, id: string)
    requires OrderIdOf(r) != id
    ensures SliceOf(Write(s, r).tables, id) == SliceOf(s.tables, id)
  {}

  /** A call leaves every other order alone. */
  lemma OtherOrdersUntouched(s: Store, c: Call, id: string)
    requires Keyed(s) && id != Target(c.command)
    ensures SliceOf(Step(s, c).store.tables, id) == SliceOf(s.tables, id)
  {
    var slice := SliceOf(s.tables, id);
    var p := (x: Store) => SliceOf(x.tables, id) == slice;
    forall x, r | p(x) && Writes(c.command, r) ensures p(Write(x, r)) {
      OtherSliceKept(x, r, id);
    }
    StepKeeps(p, s, c);
  }
}
