/** The domain values the service passes around, and the time codec they are
    cached through. */
module Domain {
  import opened Text
  import opened Tables

  /** Go's zero time, from which instants are counted in nanoseconds. */
  const ZERO: Time := 0

  /** PostgreSQL's 'epoch', which null lifecycle times are read as. */
  const EPOCH: Time := 62_135_596_800_000_000_000

  datatype User = User(userId: string, username: string, displayName: string, avatarUrl: string)

  datatype Order = Order(
    orderId: string, sagaId: string, buyerId: string, sellerId: string, sellerUsername: string,
    customer: Option<User>, freelancer: Option<User>,
    gigId: string, gigTitle: string, pictureFileId: string, pictureUrl: string,
    packageId: string, packageTier: string, packageDescription: string, packageDeliveryDays: int,
    priceCents: int, currency: string, status: string, idempotencyKey: string,
    paymentIntentId: string, paymentReleaseId: string, failureReason: string,
    deliveredAt: Time, completedAt: Time, disputedAt: Time, buyerResponseDeadline: Time,
    revisionCountUsed: int, createdAt: Time, updatedAt: Time)

  function TextOr(v: Option<string>): string {
    if v.Some? then v.value else ""
  }

  function TimeOr(v: Option<Time>): Time {
    if v.Some? then v.value else EPOCH
  }

  /** What `GetByID` makes of the row of one read and the snapshot of the next. */
  function Loaded(o: OrderRow, s: SnapshotRow): Order {
    Order.Order(o.orderId, o.sagaId, o.buyerId, o.sellerId, s.sellerUsername, None, None,
          s.gigId, s.gigTitle, s.pictureFileId, "", s.packageId, s.packageTier, s.packageDescription,
          s.packageDeliveryDays, s.priceCents, s.currency, o.status, o.idempotencyKey,
          TextOr(o.paymentIntentId), TextOr(o.paymentReleaseId), TextOr(o.failureReason),
          TimeOr(o.deliveredAt), TimeOr(o.completedAt), TimeOr(o.disputedAt), TimeOr(o.buyerResponseDeadline),
          o.revisionCountUsed, o.createdAt, o.updatedAt)
  }

  /** The page summary of an order. */
  datatype Preview = Preview(orderId: string, createdAt: Time, status: string)

  function Summary(o: Order): Preview {
    Preview(o.orderId, o.createdAt, o.status)
  }

  /** RFC3339Nano as the service uses it. */
  datatype Codec = Codec(format: Time -> string, parse: string -> Option<Time>)

  /** Parsing what was formatted gives the instant back, and formatted text is
      neither blank nor padded. */
  ghost predicate Faithful(c: Codec) {
    forall t: Time :: c.parse(c.format(t)) == Some(t) && TrimSpace(c.format(t)) == c.format(t) && c.format(t) != ""
  }

  function ParseOrZero(c: Codec, s: string): Time {
    if s == "" || c.parse(s).None? then ZERO else c.parse(s).value
  }

  lemma ParsesFormatted(c: Codec, t: Time)
    requires Faithful(c)
    ensures ParseOrZero(c, c.format(t)) == t
  {}
}
