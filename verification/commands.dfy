/** The SQL statements of the write repository and the atomic units they form:
    one statement on its own, or the statements of one transaction. */
module Commands {
  import opened Text
  import opened Tables
  import opened Outbox

  const MAX_INT32 := 0x7FFF_FFFF

  datatype CreateParams = CreateParams(
    orderId: string, sagaId: string, buyerId: string, sellerId: string, sellerUsername: string,
    gigId: string, gigTitle: string, pictureFileId: string, packageId: string, packageTier: string,
    packageDescription: string, packageDeliveryDays: int, priceCents: int, currency: string,
    idempotencyKey: string, requestedAt: Time)

  datatype QuestionParams = QuestionParams(
    questionId: string, text: string, kind: string, required: bool, optionsJson: string, sortOrder: int)

  /** Everything the service ever commits atomically. */
  datatype Command =
    | Create(p: CreateParams)
    | SaveQuestion(orderId: string, q: QuestionParams)
    | SaveAnswer(orderId: string, questionId: string, value: string)
    | SaveMessage(orderId: string, message: string)
    | AttachFile(orderId: string, attachmentId: string, fileId: string, sortOrder: int)
    | MarkPaid(orderId: string, intentId: string)
    | MarkFunded(orderId: string, intentId: string)
    | BeginCheckout(orderId: string, intentId: string)
    | SaveSession(orderId: string, checkoutUrl: string)
    | MarkFailed(orderId: string, reason: string)
    | SaveDelivery(orderId: string, sellerId: string, message: string, attachmentIds: seq<string>)
    | RequestRevision(orderId: string, buyerId: string, reason: string, requestedAt: Time)
    | OpenDispute(orderId: string, initiatorId: string, disputeType: string, reason: string)
    | MarkReleasePending(orderId: string, releaseId: string)
    | MarkCompleted(orderId: string, releaseId: string)
    | MarkDisputeResolved(orderId: string, releaseId: string)
    | MarkReleaseFailed(orderId: string, reason: string)

  function Target(c: Command): string {
    if c.Create? then c.p.orderId else c.orderId
  }

  // ---- statements ------------------------------------------------------

  /** What one statement does: insert or replace a row, match none, or fail on
      a type, a foreign key or a unique key. */
  datatype Plan = Upsert(row: Row) | NoMatch | Violation

  /** INSERT INTO orders .. ON CONFLICT (order_id) DO UPDATE SET updated_at = orders.updated_at.
      The second unique key, idempotency_key, is not a conflict target: it rejects. */
  function InsertOrder(t: Tables, p: CreateParams): Plan {
    if !(IsUuid(p.orderId) && IsUuid(p.sagaId) && IsUuid(p.buyerId) && IsUuid(p.sellerId)
         && IsUuid(p.gigId) && IsUuid(p.packageId)) then Violation
    else if p.orderId in t.orders then
      Upsert(Order(t.orders[p.orderId]))
    else if exists id | id in t.orders :: t.orders[id].idempotencyKey == p.idempotencyKey then Violation
    else
      Upsert(Order(OrderRow(
        p.orderId, p.sagaId, p.buyerId, p.sellerId, p.sellerUsername, p.gigId, p.packageId,
        "requirements_pending", p.idempotencyKey, None, None, None, None, None, None, None, 0,
        p.requestedAt, p.requestedAt)))
  }

  function SnapshotOf(p: CreateParams, createdAt: Time): SnapshotRow {
    SnapshotRow(p.orderId, p.gigId, p.sellerUsername, p.gigTitle, p.pictureFileId, p.packageId, p.packageTier,
                p.packageDescription, p.packageDeliveryDays, p.priceCents, p.currency, createdAt)
  }

  /** INSERT INTO order_gig_snapshot .. ON CONFLICT DO UPDATE: every column but created_at. */
  function UpsertSnapshot(t: Tables, p: CreateParams, now: Time): Plan {
    if !(IsUuid(p.orderId) && IsUuid(p.gigId) && IsUuid(p.packageId)) || p.orderId !in t.orders then Violation
    else
      var at := if p.orderId in t.snapshots then t.snapshots[p.orderId].createdAt else now;
      Upsert(Snapshot(SnapshotOf(p, at)))
  }

  function UpsertQuestion(t: Tables, orderId: string, q: QuestionParams, now: Time): Plan {
    if !(IsUuid(orderId) && IsUuid(q.questionId)) || orderId !in t.orders then Violation
    else
      var k := (orderId, q.questionId);
      var at := if k in t.questions then t.questions[k].createdAt else now;
      Upsert(Question(QuestionRow(orderId, q.questionId, q.text, q.kind, q.required, q.optionsJson,
                                  q.sortOrder, at)))
  }

  /** Answers reference their question snapshot, which references the order. */
  function UpsertAnswer(t: Tables, orderId: string, questionId: string, value: string, now: Time): Plan {
    var k := (orderId, questionId);
    if !(IsUuid(orderId) && IsUuid(questionId)) || orderId !in t.orders || k !in t.questions then Violation
    else
      var at := if k in t.answers then t.answers[k].createdAt else now;
      Upsert(Answer(AnswerRow(orderId, questionId, value, at)))
  }

  function UpsertMessage(t: Tables, orderId: string, message: string, now: Time): Plan {
    if !IsUuid(orderId) || orderId !in t.orders then Violation
    else
      var at := if orderId in t.messages then t.messages[orderId].createdAt else now;
      Upsert(Message(MessageRow(orderId, message, at, now)))
  }

  function UpsertAttachment(t: Tables, c: Command, now: Time): Plan
    requires c.AttachFile?
  {
    if !(IsUuid(c.orderId) && IsUuid(c.attachmentId)) || c.orderId !in t.orders then Violation
    else
      var k := (c.orderId, c.attachmentId);
      var at := if k in t.attachments then t.attachments[k].createdAt else now;
      Upsert(Attachment(AttachmentRow(c.orderId, c.attachmentId, c.fileId, c.sortOrder, at)))
  }

  function UpsertSession(t: Tables, orderId: string, url: string, now: Time): Plan {
    if !IsUuid(orderId) || orderId !in t.orders then Violation
    else
      var at := if orderId in t.sessions then t.sessions[orderId].createdAt else now;
      Upsert(Session(SessionRow(orderId, url, at, now)))
  }

  function UpsertDelivery(t: Tables, orderId: string, sellerId: string, message: string, now: Time): Plan {
    if !(IsUuid(orderId) && IsUuid(sellerId)) || orderId !in t.orders then Violation
    else
      var at := if orderId in t.deliveries then t.deliveries[orderId].createdAt else now;
      Upsert(Delivery(DeliveryRow(orderId, sellerId, message, at)))
  }

  function UpsertFile(t: Tables, orderId: string, fileId: string, position: int, now: Time): Plan {
    if !IsUuid(orderId) || orderId !in t.orders || position > MAX_INT32 then Violation
    else
      var k := (orderId, fileId);
      var at := if k in t.files then t.files[k].createdAt else now;
      Upsert(DeliveryFile(FileRow(orderId, fileId, position, at)))
  }

  function UpsertRevision(t: Tables, orderId: string, buyerId: string, reason: string, at: Time): Plan {
    if !(IsUuid(orderId) && IsUuid(buyerId)) || orderId !in t.orders then Violation
    else Upsert(Revision(RevisionRow(orderId, buyerId, reason, at)))
  }

  function UpsertDispute(t: Tables, r: DisputeRow): Plan {
    if !(IsUuid(r.orderId) && IsUuid(r.buyerId) && IsUuid(r.initiatorId)) || r.orderId !in t.orders then Violation
    else
      var at := if r.orderId in t.disputes then t.disputes[r.orderId].createdAt else r.createdAt;
      Upsert(Dispute(r.(createdAt := at)))
  }

  // ---- UPDATE orders .. WHERE order_id = $1 ------------------------------

  predicate UpdatesOrder(c: Command) {
    || c.MarkPaid? || c.MarkFunded? || c.BeginCheckout? || c.MarkFailed? || c.SaveDelivery? || c.RequestRevision?
    || c.OpenDispute? || c.MarkReleasePending? || c.MarkCompleted? || c.MarkDisputeResolved? || c.MarkReleaseFailed?
  }

  /** The parameters parse as the columns they are compared with or stored in. */
  predicate Typed(c: Command)
    requires UpdatesOrder(c)
  {
    && IsUuid(c.orderId)
    && (c.MarkPaid? || c.MarkFunded? || c.BeginCheckout? ==> IsUuid(c.intentId))
    && (c.MarkReleasePending? || c.MarkCompleted? || c.MarkDisputeResolved? ==> c.releaseId == "" || IsUuid(c.releaseId))
    && (c.RequestRevision? ==> IsUuid(c.buyerId))
  }

  /** `NULLIF($3, '')::uuid` */
  function NullIfEmpty(s: string): Option<string> {
    if s == "" then None else Some(s)
  }

  /** The SET list of each update. */
  function Change(c: Command, o: OrderRow, now: Time): OrderRow
    requires UpdatesOrder(c)
  {
    match c
    case MarkPaid(_, intent) => o.(status := "paid", paymentIntentId := Some(intent), updatedAt := now)
    case MarkFunded(_, intent) => o.(status := "funded", paymentIntentId := Some(intent), updatedAt := now)
    case BeginCheckout(_, intent) => o.(status := "payment_pending", paymentIntentId := Some(intent), updatedAt := now)
    case MarkFailed(_, reason) => o.(status := "failed", failureReason := Some(reason), updatedAt := now)
    case SaveDelivery(_, _, _, _) => o.(status := "delivered", deliveredAt := Some(now), updatedAt := now)
    case RequestRevision(_, _, _, _) =>
      o.(status := "revision_requested", revisionCountUsed := o.revisionCountUsed + 1, updatedAt := now)
    case OpenDispute(_, _, _, _) => o.(status := "disputed", disputedAt := Some(now), updatedAt := now)
    case MarkReleasePending(_, release) =>
      o.(status := "release_pending", paymentReleaseId := NullIfEmpty(release), updatedAt := now)
    case MarkCompleted(_, release) =>
      o.(status := "completed", paymentReleaseId := NullIfEmpty(release), completedAt := Some(now), updatedAt := now)
    case MarkDisputeResolved(_, release) =>
      o.(status := "dispute_resolved", paymentReleaseId := NullIfEmpty(release), updatedAt := now)
    case MarkReleaseFailed(_, reason) => o.(status := "release_failed", failureReason := Some(reason), updatedAt := now)
  }

  function UpdateOrder(t: Tables, c: Command, now: Time): Plan
    requires UpdatesOrder(c)
  {
    if !Typed(c) then Violation
    else if c.orderId !in t.orders then NoMatch
    else
      var o := t.orders[c.orderId];
      if c.RequestRevision? && o.buyerId != c.buyerId then NoMatch
      else if c.RequestRevision? && o.revisionCountUsed >= MAX_INT32 then Violation
      else Upsert(Order(Change(c, o, now)))
  }

  // ---- transactions ------------------------------------------------------

  /** What may go wrong with one round trip to the database: refused before it
      took effect, or done while its acknowledgement was lost. */
  datatype Fault = Refused | Lost

  /** Round trips of one call that go wrong, by position. */
  type Faults = map<nat, Fault>

  /** What a statement or a whole transaction does to the store it sees. */
  datatype Effect = Applied(store: Store) | NoRow | Rejected

  function Apply(s: Store, q: Plan): Effect {
    match q
    case Upsert(r) => Applied(Write(s, r))
    case NoMatch => NoRow
    case Violation => Rejected
  }

  /** A statement inside a transaction: any fault aborts it. */
  function Within(s: Store, q: Plan, k: nat, faults: Faults): Effect {
    if k in faults then Rejected else Apply(s, q)
  }

  function CreateTx(s: Store, p: CreateParams, now: Time, faults: Faults): Effect {
    if 0 in faults then Rejected
    else
      var e := Within(s, InsertOrder(s.tables, p), 1, faults);
      if !e.Applied? then Rejected
      else Within(e.store, UpsertSnapshot(e.store.tables, p, now), 2, faults)
  }

  /** The loop over the attachments from index `i`: blank ids are skipped, the
      position stored is the one-based index. */
  function InsertFiles(s: Store, c: Command, i: nat, now: Time, faults: Faults): Effect
    requires c.SaveDelivery? && i <= |c.attachmentIds|
    decreases |c.attachmentIds| - i
  {
    if i == |c.attachmentIds| then Applied(s)
    else if Blank(c.attachmentIds[i]) then InsertFiles(s, c, i + 1, now, faults)
    else
      var e := Within(s, UpsertFile(s.tables, c.orderId, c.attachmentIds[i], i + 1, now), 3 + i, faults);
      if e.Applied? then InsertFiles(e.store, c, i + 1, now, faults) else Rejected
  }

  /** Every other transaction starts by updating the order. */
  function Opened(s: Store, c: Command, now: Time, faults: Faults): Effect
    requires UpdatesOrder(c)
  {
    if 0 in faults then Rejected else Within(s, UpdateOrder(s.tables, c, now), 1, faults)
  }

  function SaveDeliveryTx(s: Store, c: Command, now: Time, faults: Faults): Effect
    requires c.SaveDelivery?
  {
    var e := Opened(s, c, now, faults);
    if !e.Applied? then e
    else
      var d := Within(e.store, UpsertDelivery(e.store.tables, c.orderId, c.sellerId, c.message, now), 2, faults);
      if d.Applied? then InsertFiles(d.store, c, 0, now, faults) else Rejected
  }

  function RequestRevisionTx(s: Store, c: Command, now: Time, faults: Faults): Effect
    requires c.RequestRevision?
  {
    var e := Opened(s, c, now, faults);
    if !e.Applied? then e
    else Within(e.store, UpsertRevision(e.store.tables, c.orderId, c.buyerId, c.reason, c.requestedAt), 2, faults)
  }

  function RoleOf(initiatorId: string, buyerId: string): string {
    if TrimSpace(initiatorId) == TrimSpace(buyerId) then "buyer" else "seller"
  }

  function DisputeOf(c: Command, buyerId: string, now: Time): DisputeRow
    requires c.OpenDispute?
  {
    DisputeRow(c.orderId, buyerId, c.initiatorId, RoleOf(c.initiatorId, buyerId), c.disputeType, c.reason, now)
  }

  /** The buyer written to the dispute is the one RETURNING gave. */
  function OpenDisputeTx(s: Store, c: Command, now: Time, faults: Faults): Effect
    requires c.OpenDispute?
  {
    var e := Opened(s, c, now, faults);
    if !e.Applied? then e
    else
      var buyerId := Change(c, s.tables.orders[c.orderId], now).buyerId;
      Within(e.store, UpsertDispute(e.store.tables, DisputeOf(c, buyerId, now)), 2, faults)
  }

  /** The round trip that makes the command durable: the commit of a
      transaction, or the statement itself outside one. */
  function Last(c: Command): nat {
    match c
    case Create(_) => 3
    case SaveDelivery(_, _, _, ids) => 3 + |ids|
    case RequestRevision(_, _, _, _) => 3
    case OpenDispute(_, _, _, _) => 3
    case _ => 0
  }

  predicate IsTransaction(c: Command) {
    c.Create? || c.SaveDelivery? || c.RequestRevision? || c.OpenDispute?
  }

  /** The one statement of a command that opens no transaction. */
  function Statement(t: Tables, c: Command, now: Time): Plan
    requires !IsTransaction(c)
  {
    if c.SaveQuestion? then UpsertQuestion(t, c.orderId, c.q, now)
    else if c.SaveAnswer? then UpsertAnswer(t, c.orderId, c.questionId, c.value, now)
    else if c.SaveMessage? then UpsertMessage(t, c.orderId, c.message, now)
    else if c.AttachFile? then UpsertAttachment(t, c, now)
    else if c.SaveSession? then UpsertSession(t, c.orderId, c.checkoutUrl, now)
    else UpdateOrder(t, c, now)
  }

  /** The command's effect before it is made durable. */
  function Body(s: Store, c: Command, now: Time, faults: Faults): Effect {
    match c
    case Create(p) => CreateTx(s, p, now, faults)
    case SaveDelivery(_, _, _, _) => SaveDeliveryTx(s, c, now, faults)
    case RequestRevision(_, _, _, _) => RequestRevisionTx(s, c, now, faults)
    case OpenDispute(_, _, _, _) => OpenDisputeTx(s, c, now, faults)
    case _ => Apply(s, Statement(s.tables, c, now))
  }

  /** What the caller of a command is told. */
  datatype Reply = Success | NotFound | Failure

  datatype Outcome = Outcome(store: Store, reply: Reply)

  /** Make an effect durable through the round trip with this fault, if any. */
  function Settle(s: Store, e: Effect, fault: Option<Fault>): Outcome {
    if fault == Some(Refused) then Outcome(s, Failure)
    else
      match e
      case Rejected => Outcome(s, Failure)
      case NoRow => Outcome(s, if fault.Some? then Failure else NotFound)
      case Applied(after) => Outcome(after, if fault.Some? then Failure else Success)
  }

  function FaultAt(faults: Faults, k: nat): Option<Fault> {
    if k in faults then Some(faults[k]) else None
  }

  function Exec(s: Store, c: Command, now: Time, faults: Faults): Outcome {
    var e := Body(s, c, now, faults);
    // A transaction that fails before its commit never reaches the commit.
    if !e.Applied? && IsTransaction(c) then Outcome(s, if e.NoRow? then NotFound else Failure)
    else Settle(s, e, FaultAt(faults, Last(c)))
  }
}
