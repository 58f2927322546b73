/** What `GetByID` shows of the stored columns, and what a creation reads back as. */
module ReadBack {
  import opened Text
  import opened Tables
  import opened Outbox
  import opened Commands
  import opened History
  import opened Lifecycle
  import D = Domain
  import P = Postgres

  /** The column a field of the domain order is named after. */
  function FieldOf(d: D.Order, c: Column): Cell {
    match c
    case OrderId => Cell.Text(d.orderId)
    case SagaId => Cell.Text(d.sagaId)
    case BuyerId => Cell.Text(d.buyerId)
    case SellerId => Cell.Text(d.sellerId)
    case SellerUsername => Cell.Text(d.sellerUsername)
    case GigId => Cell.Text(d.gigId)
    case PackageId => Cell.Text(d.packageId)
    case Status => Cell.Text(d.status)
    case IdempotencyKey => Cell.Text(d.idempotencyKey)
    case PaymentIntentId => Cell.Text(d.paymentIntentId)
    case PaymentReleaseId => Cell.Text(d.paymentReleaseId)
    case FailureReason => Cell.Text(d.failureReason)
    case DeliveredAt => Instant(d.deliveredAt)
    case CompletedAt => Instant(d.completedAt)
    case DisputedAt => Instant(d.disputedAt)
    case BuyerResponseDeadline => Instant(d.buyerResponseDeadline)
    case RevisionCountUsed => Number(d.revisionCountUsed)
    case CreatedAt => Instant(d.createdAt)
    case UpdatedAt => Instant(d.updatedAt)
    case GigTitle => Cell.Text(d.gigTitle)
    case PictureFileId => Cell.Text(d.pictureFileId)
    case PackageTier => Cell.Text(d.packageTier)
    case PackageDescription => Cell.Text(d.packageDescription)
    case PackageDeliveryDays => Number(d.packageDeliveryDays)
    case PriceCents => Number(d.priceCents)
    case Currency => Cell.Text(d.currency)
    case _ => Null
  }

  /** COALESCE in the column list: a null text reads as empty, a null
      time as the epoch. */
  function OrEmpty(c: Column, cell: Cell): Cell {
    if !cell.Null? then cell
    else if c in {DeliveredAt, CompletedAt, DisputedAt, BuyerResponseDeadline} then Instant(D.EPOCH)
    else Cell.Text("")
  }

  /** The columns read from the snapshot; the row's own copies are overwritten. */
  const FROM_SNAPSHOT := {
    GigId, SellerUsername, GigTitle, PictureFileId, PackageId, PackageTier, PackageDescription, PackageDeliveryDays,
    PriceCents, Currency}

  lemma PackageColumnsShow(o: OrderRow, s: SnapshotRow, c: Column)
    requires c in {PackageId, PackageTier, PackageDescription, PackageDeliveryDays, PriceCents, Currency}
    ensures FieldOf(D.Loaded(o, s), c) == At(SnapshotJson(s), c)
  {}

  lemma SnapshotColumnsShow(o: OrderRow, s: SnapshotRow, c: Column)
    requires c in FROM_SNAPSHOT
    ensures FieldOf(D.Loaded(o, s), c) == At(SnapshotJson(s), c)
  {
    if c !in {GigId, SellerUsername, GigTitle, PictureFileId} {
      hide FieldOf, At, SnapshotJson, D.Loaded;
      PackageColumnsShow(o, s, c);
    }
  }

  lemma PartyColumnsShow(j: Json, o: OrderRow, s: SnapshotRow, c: Column)
    requires HoldsParties(j, o) && c in {OrderId, SagaId, BuyerId, SellerId}
    ensures FieldOf(D.Loaded(o, s), c) == At(j, c)
  {
    hide At;
  }

  lemma TermColumnsShow(j: Json, o: OrderRow, s: SnapshotRow, c: Column)
    requires HoldsTerms(j, o) && c in {Status, IdempotencyKey, CreatedAt}
    ensures FieldOf(D.Loaded(o, s), c) == At(j, c)
  {
    hide At;
  }

  lemma StateColumnsShow(j: Json, o: OrderRow, s: SnapshotRow, c: Column)
    requires HoldsState(j, o)
    requires c in {PaymentIntentId, PaymentReleaseId, FailureReason, DeliveredAt, CompletedAt, DisputedAt,
                   BuyerResponseDeadline, RevisionCountUsed, UpdatedAt}
    ensures FieldOf(D.Loaded(o, s), c) == OrEmpty(c, At(j, c))
  {
    hide At;
  }

  lemma RowColumnsShow(o: OrderRow, s: SnapshotRow, c: Column)
    requires c in Columns(Orders) && c !in FROM_SNAPSHOT
    ensures FieldOf(D.Loaded(o, s), c) == OrEmpty(c, At(OrderJson(o), c))
  {
    hide OrderJson, At, D.Loaded, HoldsParties, HoldsTerms, HoldsState;
    OrderPartiesKept(o);
    OrderTermsKept(o);
    OrderStateKept(o);
    if c in {OrderId, SagaId, BuyerId, SellerId} {
      PartyColumnsShow(OrderJson(o), o, s, c);
    } else if c in {Status, IdempotencyKey, CreatedAt} {
      TermColumnsShow(OrderJson(o), o, s, c);
    } else {
      StateColumnsShow(OrderJson(o), o, s, c);
    }
  }

  /** Every field of a loaded order is the stored column of its name: the
      snapshot's for the gig terms, the row's for all others. */
  lemma LoadedShowsColumns(o: OrderRow, s: SnapshotRow, c: Column)
    requires c in Columns(Orders) || c in FROM_SNAPSHOT
    ensures FieldOf(D.Loaded(o, s), c) == OrEmpty(c, if c in FROM_SNAPSHOT then At(ToJson(Snapshot(s)), c) else At(ToJson(Order(o)), c))
  {
    hide At, OrderJson, SnapshotJson, D.Loaded;
    if c in FROM_SNAPSHOT {
      SnapshotColumnsShow(o, s, c);
    } else {
      RowColumnsShow(o, s, c);
    }
  }

  /** What a creation asks for. */
  ghost predicate AsRequested(d: D.Order, p: CreateParams) {
    && d.orderId == p.orderId && d.gigId == p.gigId && d.gigTitle == p.gigTitle && d.pictureFileId == p.pictureFileId
    && d.packageId == p.packageId && d.packageTier == p.packageTier && d.packageDescription == p.packageDescription
    && d.packageDeliveryDays == p.packageDeliveryDays && d.priceCents == p.priceCents && d.currency == p.currency
    && d.sellerUsername == p.sellerUsername
  }

  /** A new order, besides. */
  ghost predicate AsNew(d: D.Order, p: CreateParams) {
    && d.sagaId == p.sagaId && d.buyerId == p.buyerId && d.sellerId == p.sellerId && d.idempotencyKey == p.idempotencyKey
    && d.status == "requirements_pending" && d.createdAt == p.requestedAt == d.updatedAt
    && d.paymentIntentId == "" && d.paymentReleaseId == "" && d.failureReason == "" && d.revisionCountUsed == 0
    && d.deliveredAt == d.completedAt == d.disputedAt == D.EPOCH
  }

  /** A successful creation reads back with the gig terms it asked for, and an
      order that was new with all of them; the order stored first keeps the rest. */
  lemma CreationReadsBack(s: Store, c: Call)
    requires Keyed(s) && c.command.Create? && Step(s, c).reply == Success
    ensures var p, r := c.command.p, P.Replied(Step(s, c), c.command.p.orderId, P.Reads(false, false));
            && r.Ok? && AsRequested(r.value, p)
            && (p.orderId !in s.tables.orders ==> AsNew(r.value, p))
            && (p.orderId in s.tables.orders ==>
                  r.value.status == s.tables.orders[p.orderId].status && r.value.buyerId == s.tables.orders[p.orderId].buyerId
                  && r.value.updatedAt == s.tables.orders[p.orderId].updatedAt)
  {
    CallsAreAtomic(s, c);
    CreateAdvances(s, c.command, c.now);
    CommitNames(s, c);
    hide Step, IsUuid;
    var x, y := SliceOf(s.tables, c.command.p.orderId), SliceOf(Step(s, c).store.tables, c.command.p.orderId);
    assert y == Advance(x, c.command, c.now);
  }

  lemma CommitNames(s: Store, c: Call)
    requires c.command.Create? && Step(s, c).reply == Success
    ensures IsUuid(c.command.p.orderId)
  {
    CallsAreAtomic(s, c);
  }
}
