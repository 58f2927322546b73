/** The eleven order tables, one row type each, and the JSON text of a row as
    `to_jsonb` renders it after migrations 1 to 7. */
module Tables {
  import opened Text

  /** An instant. */
  type Time = int

  datatype OrderRow = OrderRow(
    orderId: string, sagaId: string, buyerId: string, sellerId: string, sellerUsername: string,
    gigId: string, packageId: string, status: string, idempotencyKey: string,
    paymentIntentId: Option<string>, paymentReleaseId: Option<string>, failureReason: Option<string>,
    deliveredAt: Option<Time>, completedAt: Option<Time>, disputedAt: Option<Time>,
    buyerResponseDeadline: Option<Time>, revisionCountUsed: int, createdAt: Time, updatedAt: Time)

  datatype SnapshotRow = SnapshotRow(
    orderId: string, gigId: string, sellerUsername: string, gigTitle: string, pictureFileId: string,
    packageId: string, packageTier: string, packageDescription: string, packageDeliveryDays: int,
    priceCents: int, currency: string, createdAt: Time)

  datatype QuestionRow = QuestionRow(
    orderId: string, questionId: string, text: string, kind: string, required: bool,
    optionsJson: string, sortOrder: int, createdAt: Time)

  datatype AnswerRow = AnswerRow(orderId: string, questionId: string, value: string, createdAt: Time)

  datatype MessageRow = MessageRow(orderId: string, message: string, createdAt: Time, updatedAt: Time)

  datatype AttachmentRow = AttachmentRow(
    orderId: string, attachmentId: string, fileId: string, sortOrder: int, createdAt: Time)

  datatype SessionRow = SessionRow(orderId: string, checkoutUrl: string, createdAt: Time, updatedAt: Time)

  datatype DeliveryRow = DeliveryRow(orderId: string, sellerId: string, message: string, createdAt: Time)

  datatype RevisionRow = RevisionRow(orderId: string, buyerId: string, reason: string, createdAt: Time)

  datatype DisputeRow = DisputeRow(
    orderId: string, buyerId: string, initiatorId: string, initiatorRole: string,
    disputeType: string, reason: string, createdAt: Time)

  datatype FileRow = FileRow(orderId: string, fileId: string, sortOrder: int, createdAt: Time)

  /** A row of one of the eleven tables. */
  datatype Row =
    | Order(o: OrderRow)
    | Snapshot(s: SnapshotRow)
    | Question(q: QuestionRow)
    | Answer(a: AnswerRow)
    | Message(m: MessageRow)
    | Attachment(t: AttachmentRow)
    | Session(c: SessionRow)
    | Delivery(d: DeliveryRow)
    | Revision(v: RevisionRow)
    | Dispute(u: DisputeRow)
    | DeliveryFile(f: FileRow)

  /** The tables, keyed by their primary keys. */
  datatype Tables = Tables(
    orders: map<string, OrderRow>,
    snapshots: map<string, SnapshotRow>,
    questions: map<(string, string), QuestionRow>,
    answers: map<(string, string), AnswerRow>,
    messages: map<string, MessageRow>,
    attachments: map<(string, string), AttachmentRow>,
    sessions: map<string, SessionRow>,
    deliveries: map<string, DeliveryRow>,
    revisions: map<string, RevisionRow>,
    disputes: map<string, DisputeRow>,
    files: map<(string, string), FileRow>)

  const EMPTY: Tables :=
    Tables(map[], map[], map[], map[], map[], map[], map[], map[], map[], map[], map[])

  /** Whether a row with this primary key is stored. */
  predicate Has(t: Tables, r: Row) {
    match r
    case Order(o) => o.orderId in t.orders
    case Snapshot(s) => s.orderId in t.snapshots
    case Question(q) => (q.orderId, q.questionId) in t.questions
    case Answer(a) => (a.orderId, a.questionId) in t.answers
    case Message(m) => m.orderId in t.messages
    case Attachment(x) => (x.orderId, x.attachmentId) in t.attachments
    case Session(c) => c.orderId in t.sessions
    case Delivery(d) => d.orderId in t.deliveries
    case Revision(v) => v.orderId in t.revisions
    case Dispute(u) => u.orderId in t.disputes
    case DeliveryFile(f) => (f.orderId, f.fileId) in t.files
  }

  /** Insert the row, or replace the one with its primary key. */
  function Put(t: Tables, r: Row): Tables {
    match r
    case Order(o) => t.(orders := t.orders[o.orderId := o])
    case Snapshot(s) => t.(snapshots := t.snapshots[s.orderId := s])
    case Question(q) => t.(questions := t.questions[(q.orderId, q.questionId) := q])
    case Answer(a) => t.(answers := t.answers[(a.orderId, a.questionId) := a])
    case Message(m) => t.(messages := t.messages[m.orderId := m])
    case Attachment(x) => t.(attachments := t.attachments[(x.orderId, x.attachmentId) := x])
    case Session(c) => t.(sessions := t.sessions[c.orderId := c])
    case Delivery(d) => t.(deliveries := t.deliveries[d.orderId := d])
    case Revision(v) => t.(revisions := t.revisions[v.orderId := v])
    case Dispute(u) => t.(disputes := t.disputes[u.orderId := u])
    case DeliveryFile(f) => t.(files := t.files[(f.orderId, f.fileId) := f])
  }

  /** Delete the row with this primary key. */
  function Remove(t: Tables, r: Row): Tables {
    match r
    case Order(o) => t.(orders := t.orders - {o.orderId})
    case Snapshot(s) => t.(snapshots := t.snapshots - {s.orderId})
    case Question(q) => t.(questions := t.questions - {(q.orderId, q.questionId)})
    case Answer(a) => t.(answers := t.answers - {(a.orderId, a.questionId)})
    case Message(m) => t.(messages := t.messages - {m.orderId})
    case Attachment(x) => t.(attachments := t.attachments - {(x.orderId, x.attachmentId)})
    case Session(c) => t.(sessions := t.sessions - {c.orderId})
    case Delivery(d) => t.(deliveries := t.deliveries - {d.orderId})
    case Revision(v) => t.(revisions := t.revisions - {v.orderId})
    case Dispute(u) => t.(disputes := t.disputes - {u.orderId})
    case DeliveryFile(f) => t.(files := t.files - {(f.orderId, f.fileId)})
  }

  function OrderIdOf(r: Row): string {
    match r
    case Order(o) => o.orderId
    case Snapshot(s) => s.orderId
    case Question(q) => q.orderId
    case Answer(a) => a.orderId
    case Message(m) => m.orderId
    case Attachment(x) => x.orderId
    case Session(c) => c.orderId
    case Delivery(d) => d.orderId
    case Revision(v) => v.orderId
    case Dispute(u) => u.orderId
    case DeliveryFile(f) => f.orderId
  }

  /** Rows of the keyed tables sit under their own primary keys. */
  ghost predicate RowsKeyed(t: Tables) {
    && (forall k :: k in t.orders ==> t.orders[k].orderId == k)
    && (forall k :: k in t.questions ==> k == (t.questions[k].orderId, t.questions[k].questionId))
    && (forall k :: k in t.files ==> k == (t.files[k].orderId, t.files[k].fileId))
  }

  datatype Column =
    | OrderId | SagaId | BuyerId | SellerId | SellerUsername | GigId | PackageId | Status | IdempotencyKey
    | PaymentIntentId | PaymentReleaseId | FailureReason | DeliveredAt | CompletedAt | DisputedAt
    | BuyerResponseDeadline | RevisionCountUsed | CreatedAt | UpdatedAt
    | GigTitle | PictureFileId | PackageTier | PackageDescription | PackageDeliveryDays | PriceCents | Currency
    | QuestionId | QuestionText | QuestionType | Required | OptionsJson | SortOrder | AnswerValue
    | MessageText | AttachmentId | FileId | CheckoutUrl | DeliveryMessage
    | Reason | InitiatorUserId | InitiatorRole | DisputeType

  datatype Cell = Null | Text(text: string) | Number(number: int) | Flag(flag: bool) | Instant(at: Time)

  type Json = map<Column, Cell>

  function TextOrNull(v: Option<string>): Cell {
    if v.Some? then Text(v.value) else Null
  }

  function InstantOrNull(v: Option<Time>): Cell {
    if v.Some? then Instant(v.value) else Null
  }

  function OrderJson(o: OrderRow): Json {
    map[OrderId := Text(o.orderId), SagaId := Text(o.sagaId), BuyerId := Text(o.buyerId),
        SellerId := Text(o.sellerId), SellerUsername := Text(o.sellerUsername), GigId := Text(o.gigId),
        PackageId := Text(o.packageId), Status := Text(o.status), IdempotencyKey := Text(o.idempotencyKey),
        PaymentIntentId := TextOrNull(o.paymentIntentId), PaymentReleaseId := TextOrNull(o.paymentReleaseId),
        FailureReason := TextOrNull(o.failureReason), DeliveredAt := InstantOrNull(o.deliveredAt),
        CompletedAt := InstantOrNull(o.completedAt), DisputedAt := InstantOrNull(o.disputedAt),
        BuyerResponseDeadline := InstantOrNull(o.buyerResponseDeadline),
        RevisionCountUsed := Number(o.revisionCountUsed),
        CreatedAt := Instant(o.createdAt), UpdatedAt := Instant(o.updatedAt)]
  }

  function SnapshotJson(s: SnapshotRow): Json {
    map[OrderId := Text(s.orderId), GigId := Text(s.gigId), SellerUsername := Text(s.sellerUsername),
        GigTitle := Text(s.gigTitle), PictureFileId := Text(s.pictureFileId), PackageId := Text(s.packageId),
        PackageTier := Text(s.packageTier), PackageDescription := Text(s.packageDescription),
        PackageDeliveryDays := Number(s.packageDeliveryDays), PriceCents := Number(s.priceCents),
        Currency := Text(s.currency), CreatedAt := Instant(s.createdAt)]
  }

  /** `to_jsonb(NEW)`: one member per column, and no trace of the table's name. */
  function ToJson(r: Row): Json {
    match r
    case Order(o) => OrderJson(o)
    case Snapshot(s) => SnapshotJson(s)
    case Question(q) =>
      map[OrderId := Text(q.orderId), QuestionId := Text(q.questionId), QuestionText := Text(q.text),
          QuestionType := Text(q.kind), Required := Flag(q.required), OptionsJson := Text(q.optionsJson),
          SortOrder := Number(q.sortOrder), CreatedAt := Instant(q.createdAt)]
    case Answer(a) =>
      map[OrderId := Text(a.orderId), QuestionId := Text(a.questionId), AnswerValue := Text(a.value),
          CreatedAt := Instant(a.createdAt)]
    case Message(m) =>
      map[OrderId := Text(m.orderId), MessageText := Text(m.message), CreatedAt := Instant(m.createdAt),
          UpdatedAt := Instant(m.updatedAt)]
    case Attachment(x) =>
      map[OrderId := Text(x.orderId), AttachmentId := Text(x.attachmentId), FileId := Text(x.fileId),
          SortOrder := Number(x.sortOrder), CreatedAt := Instant(x.createdAt)]
    case Session(c) =>
      map[OrderId := Text(c.orderId), CheckoutUrl := Text(c.checkoutUrl), CreatedAt := Instant(c.createdAt),
          UpdatedAt := Instant(c.updatedAt)]
    case Delivery(d) =>
      map[OrderId := Text(d.orderId), SellerId := Text(d.sellerId), DeliveryMessage := Text(d.message),
          CreatedAt := Instant(d.createdAt)]
    case Revision(v) =>
      map[OrderId := Text(v.orderId), BuyerId := Text(v.buyerId), Reason := Text(v.reason),
          CreatedAt := Instant(v.createdAt)]
    case Dispute(u) =>
      map[OrderId := Text(u.orderId), BuyerId := Text(u.buyerId), InitiatorUserId := Text(u.initiatorId),
          InitiatorRole := Text(u.initiatorRole), DisputeType := Text(u.disputeType), Reason := Text(u.reason),
          CreatedAt := Instant(u.createdAt)]
    case DeliveryFile(f) =>
      map[OrderId := Text(f.orderId), FileId := Text(f.fileId), SortOrder := Number(f.sortOrder),
          CreatedAt := Instant(f.createdAt)]
  }

  datatype Name =
    | Orders | GigSnapshots | QuestionSnapshots | RequirementAnswers | BuyerMessages | Attachments
    | CheckoutSessions | Deliveries | RevisionRequests | Disputes | DeliveryFiles

  function NameOf(r: Row): Name {
    match r
    case Order(_) => Orders
    case Snapshot(_) => GigSnapshots
    case Question(_) => QuestionSnapshots
    case Answer(_) => RequirementAnswers
    case Message(_) => BuyerMessages
    case Attachment(_) => Attachments
    case Session(_) => CheckoutSessions
    case Delivery(_) => Deliveries
    case Revision(_) => RevisionRequests
    case Dispute(_) => Disputes
    case DeliveryFile(_) => DeliveryFiles
  }

  /** The columns of each table. */
  function Columns(n: Name): set<Column> {
    match n
    case Orders =>
      {OrderId, SagaId, BuyerId, SellerId, SellerUsername, GigId, PackageId, Status, IdempotencyKey,
       PaymentIntentId, PaymentReleaseId, FailureReason, DeliveredAt, CompletedAt, DisputedAt,
       BuyerResponseDeadline, RevisionCountUsed, CreatedAt, UpdatedAt}
    case GigSnapshots =>
      {OrderId, GigId, SellerUsername, GigTitle, PictureFileId, PackageId, PackageTier, PackageDescription,
       PackageDeliveryDays, PriceCents, Currency, CreatedAt}
    case QuestionSnapshots =>
      {OrderId, QuestionId, QuestionText, QuestionType, Required, OptionsJson, SortOrder, CreatedAt}
    case RequirementAnswers => {OrderId, QuestionId, AnswerValue, CreatedAt}
    case BuyerMessages => {OrderId, MessageText, CreatedAt, UpdatedAt}
    case Attachments => {OrderId, AttachmentId, FileId, SortOrder, CreatedAt}
    case CheckoutSessions => {OrderId, CheckoutUrl, CreatedAt, UpdatedAt}
    case Deliveries => {OrderId, SellerId, DeliveryMessage, CreatedAt}
    case RevisionRequests => {OrderId, BuyerId, Reason, CreatedAt}
    case Disputes => {OrderId, BuyerId, InitiatorUserId, InitiatorRole, DisputeType, Reason, CreatedAt}
    case DeliveryFiles => {OrderId, FileId, SortOrder, CreatedAt}
  }

  /** The table a column set belongs to, told by a column only it has where
      there is one. Attachments and delivery files share all columns but one. */
  function Recognize(columns: set<Column>): Name {
    if SagaId in columns then Orders
    else if GigTitle in columns then GigSnapshots
    else if OptionsJson in columns then QuestionSnapshots
    else if AnswerValue in columns then RequirementAnswers
    else if MessageText in columns then BuyerMessages
    else if AttachmentId in columns then Attachments
    else if CheckoutUrl in columns then CheckoutSessions
    else if DeliveryMessage in columns then Deliveries
    else if DisputeType in columns then Disputes
    else if Reason in columns then RevisionRequests
    else DeliveryFiles
  }

  lemma RecognizesColumns(n: Name)
    ensures Recognize(Columns(n)) == n
  {}

  lemma ColumnSetsAreDistinct(a: Name, b: Name)
    ensures Columns(a) == Columns(b) ==> a == b
  {
    RecognizesColumns(a);
    RecognizesColumns(b);
  }

  function At(j: Json, c: Column): Cell {
    if c in j then j[c] else Null
  }

  function AsText(c: Cell): string {
    if c.Text? then c.text else ""
  }

  function AsTextOrNone(c: Cell): Option<string> {
    if c.Text? then Some(c.text) else None
  }

  function AsNumber(c: Cell): int {
    if c.Number? then c.number else 0
  }

  function AsFlag(c: Cell): bool {
    c.Flag? && c.flag
  }

  function AsInstant(c: Cell): Time {
    if c.Instant? then c.at else 0
  }

  function AsInstantOrNone(c: Cell): Option<Time> {
    if c.Instant? then Some(c.at) else None
  }

  function OrderFromJson(j: Json): OrderRow {
    OrderRow(AsText(At(j, OrderId)), AsText(At(j, SagaId)), AsText(At(j, BuyerId)), AsText(At(j, SellerId)), AsText(At(j, SellerUsername)),
               AsText(At(j, GigId)), AsText(At(j, PackageId)), AsText(At(j, Status)), AsText(At(j, IdempotencyKey)),
               AsTextOrNone(At(j, PaymentIntentId)), AsTextOrNone(At(j, PaymentReleaseId)), AsTextOrNone(At(j, FailureReason)),
               AsInstantOrNone(At(j, DeliveredAt)), AsInstantOrNone(At(j, CompletedAt)), AsInstantOrNone(At(j, DisputedAt)),
               AsInstantOrNone(At(j, BuyerResponseDeadline)), AsNumber(At(j, RevisionCountUsed)),
               AsInstant(At(j, CreatedAt)), AsInstant(At(j, UpdatedAt)))
  }

  function SnapshotFromJson(j: Json): SnapshotRow {
    SnapshotRow(AsText(At(j, OrderId)), AsText(At(j, GigId)), AsText(At(j, SellerUsername)), AsText(At(j, GigTitle)),
                     AsText(At(j, PictureFileId)), AsText(At(j, PackageId)), AsText(At(j, PackageTier)),
                     AsText(At(j, PackageDescription)), AsNumber(At(j, PackageDeliveryDays)),
                     AsNumber(At(j, PriceCents)), AsText(At(j, Currency)), AsInstant(At(j, CreatedAt)))
  }

  /** Read a row of the named table back from its JSON. */
  function Decode(n: Name, j: Json): Row {
    var id := AsText(At(j, OrderId));
    var created := AsInstant(At(j, CreatedAt));
    match n
    case Orders => Order(OrderFromJson(j))
    case GigSnapshots => Snapshot(SnapshotFromJson(j))
    case QuestionSnapshots =>
      Question(QuestionRow(id, AsText(At(j, QuestionId)), AsText(At(j, QuestionText)), AsText(At(j, QuestionType)),
                           AsFlag(At(j, Required)), AsText(At(j, OptionsJson)), AsNumber(At(j, SortOrder)), created))
    case RequirementAnswers => Answer(AnswerRow(id, AsText(At(j, QuestionId)), AsText(At(j, AnswerValue)), created))
    case BuyerMessages => Message(MessageRow(id, AsText(At(j, MessageText)), created, AsInstant(At(j, UpdatedAt))))
    case Attachments =>
      Attachment(AttachmentRow(id, AsText(At(j, AttachmentId)), AsText(At(j, FileId)), AsNumber(At(j, SortOrder)), created))
    case CheckoutSessions => Session(SessionRow(id, AsText(At(j, CheckoutUrl)), created, AsInstant(At(j, UpdatedAt))))
    case Deliveries => Delivery(DeliveryRow(id, AsText(At(j, SellerId)), AsText(At(j, DeliveryMessage)), created))
    case RevisionRequests => Revision(RevisionRow(id, AsText(At(j, BuyerId)), AsText(At(j, Reason)), created))
    case Disputes =>
      Dispute(DisputeRow(id, AsText(At(j, BuyerId)), AsText(At(j, InitiatorUserId)), AsText(At(j, InitiatorRole)),
                         AsText(At(j, DisputeType)), AsText(At(j, Reason)), created))
    case DeliveryFiles => DeliveryFile(FileRow(id, AsText(At(j, FileId)), AsNumber(At(j, SortOrder)), created))
  }

  /** Rebuild a row from its JSON, its table told by the members present. */
  function FromJson(j: Json): Row {
    Decode(Recognize(j.Keys), j)
  }

  lemma OrderColumns(o: OrderRow)
    ensures OrderJson(o).Keys == Columns(Orders)
  {}

  lemma JsonColumns(r: Row)
    ensures ToJson(r).Keys == Columns(NameOf(r))
  {
    match r {
      case Order(o) => OrderColumns(o);
      case _ =>
    }
  }

  predicate HoldsParties(j: Json, o: OrderRow) {
    && At(j, OrderId) == Text(o.orderId) && At(j, SagaId) == Text(o.sagaId)
    && At(j, BuyerId) == Text(o.buyerId) && At(j, SellerId) == Text(o.sellerId)
    && At(j, SellerUsername) == Text(o.sellerUsername)
  }

  predicate HoldsTerms(j: Json, o: OrderRow) {
    && At(j, GigId) == Text(o.gigId) && At(j, PackageId) == Text(o.packageId)
    && At(j, Status) == Text(o.status) && At(j, IdempotencyKey) == Text(o.idempotencyKey)
    && At(j, CreatedAt) == Instant(o.createdAt)
  }

  predicate HoldsState(j: Json, o: OrderRow) {
    && At(j, PaymentIntentId) == TextOrNull(o.paymentIntentId) && At(j, PaymentReleaseId) == TextOrNull(o.paymentReleaseId)
    && At(j, FailureReason) == TextOrNull(o.failureReason) && At(j, DeliveredAt) == InstantOrNull(o.deliveredAt)
    && At(j, CompletedAt) == InstantOrNull(o.completedAt) && At(j, DisputedAt) == InstantOrNull(o.disputedAt)
    && At(j, BuyerResponseDeadline) == InstantOrNull(o.buyerResponseDeadline) && At(j, RevisionCountUsed) == Number(o.revisionCountUsed)
    && At(j, UpdatedAt) == Instant(o.updatedAt)
  }

  lemma OrderPartiesKept(o: OrderRow)
    ensures HoldsParties(OrderJson(o), o)
  {}

  lemma OrderTermsKept(o: OrderRow)
    ensures HoldsTerms(OrderJson(o), o)
  {}

  lemma OrderStateKept(o: OrderRow)
    ensures HoldsState(OrderJson(o), o)
  {}

  lemma OrderFromCells(j: Json, o: OrderRow)
    requires HoldsParties(j, o) && HoldsTerms(j, o) && HoldsState(j, o)
    ensures OrderFromJson(j) == o
  {}

  lemma SnapshotCells(s: SnapshotRow)
    ensures SnapshotFromJson(SnapshotJson(s)) == s
  {}

  lemma WideCellsDecode(r: Row)
    requires r.Question? || r.Attachment? || r.Dispute?
    ensures Decode(NameOf(r), ToJson(r)) == r
  {}

  lemma CellsDecode(r: Row)
    ensures Decode(NameOf(r), ToJson(r)) == r
  {
    match r {
      case Order(o) => OrderPartiesKept(o); OrderTermsKept(o); OrderStateKept(o); OrderFromCells(OrderJson(o), o);
      case Snapshot(s) => SnapshotCells(s);
      case Question(_) => WideCellsDecode(r);
      case Attachment(_) => WideCellsDecode(r);
      case Dispute(_) => WideCellsDecode(r);
      case _ =>
    }
  }

  /** A row survives its JSON: nothing but the column set tells the table. */
  lemma RowRoundTrip(r: Row)
    ensures FromJson(ToJson(r)) == r
  {
    JsonColumns(r);
    RecognizesColumns(NameOf(r));
    CellsDecode(r);
  }
}
