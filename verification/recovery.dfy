/** The recovery subscriber: validates and defaults a durable command, creates
    its order without refreshing projections, and announces the completion. */
module Recovery {
  import opened Text
  import opened Tables
  import opened Outbox
  import opened Commands
  import opened History
  import opened Lifecycle
  import opened Batches
  import opened Recreation
  import A = Application
  import D = Domain
  import P = Postgres

  datatype Params = Params(
    sagaId: string, orderId: string, buyerId: string, sellerId: string, sellerUsername: string,
    gigId: string, gigTitle: string, pictureFileId: string, packageId: string, packageTier: string,
    packageDescription: string, packageDeliveryDays: int, priceCents: int, currency: string,
    idempotencyKey: string, requestedAt: string)

  /** The envelope; a payload that does not decode is none. */
  datatype Envelope = Envelope(
    eventId: string, commandId: string, correlationId: string, idempotencyKey: string, testRunId: string,
    operation: string, aggregateType: string, aggregateId: string, payload: Option<Params>)

  /** `migration.recovery.completed` */
  datatype Completed = Completed(
    eventId: string, commandId: string, correlationId: string, causationId: string, idempotencyKey: string,
    testRunId: string, operation: string, aggregateId: string, status: string)

  datatype Field = BuyerId | SellerId | GigId | PackageId

  datatype HandleError =
    | Undecodable
    | Unsupported
    | MissingOrderId
    | MissingSagaId
    | Missing(field: Field)
    | CreationFailed(error: A.Error)
    | PublishFailed

  /** Marked `resilience.Permanent`: the message is not retried. */
  predicate Permanent(e: HandleError) {
    e.MissingOrderId? || e.MissingSagaId? || e.Missing?
  }

  /** Unicode simple folding of one character onto a lower-case letter. */
  predicate Folds(c: char, lower: char)
    requires 'a' <= lower <= 'z'
  {
    c == lower || c as int == lower as int - 32 || (lower == 's' && c == '\U{17F}') || (lower == 'k' && c == '\U{212A}')
  }

  /** `strings.EqualFold` with a lower-case word. */
  predicate EqualFold(s: string, word: string)
    requires forall i :: 0 <= i < |word| ==> 'a' <= word[i] <= 'z'
  {
    |s| == |word| && forall i :: 0 <= i < |word| ==> Folds(s[i], word[i])
  }

  function Lower(c: char): char {
    if 'A' <= c <= 'Z' then (c as int + 32) as char else c
  }

  /** On plain ASCII text folding is comparing lower-case letters. */
  lemma FoldsLikeAscii(s: string, word: string)
    requires forall i :: 0 <= i < |word| ==> 'a' <= word[i] <= 'z'
    requires forall i :: 0 <= i < |s| ==> s[i] < '\U{80}'
    ensures EqualFold(s, word) <==> |s| == |word| && forall i :: 0 <= i < |s| ==> Lower(s[i]) == word[i]
  {
    if |s| == |word| {
      forall i | 0 <= i < |s| ensures Folds(s[i], word[i]) <==> Lower(s[i]) == word[i] {
        assert 'a' <= word[i] <= 'z';
      }
    }
  }

  predicate Supported(e: Envelope) {
    e.aggregateType in {"order", "orders"} && (EqualFold(e.operation, "post") || EqualFold(e.operation, "create"))
  }

  function Value(p: Params, f: Field): string {
    match f
    case BuyerId => p.buyerId
    case SellerId => p.sellerId
    case GigId => p.gigId
    case PackageId => p.packageId
  }

  /** The envelope's aggregate id and idempotency key stand in for missing ones. */
  function Defaulted(e: Envelope): Params
    requires e.payload.Some?
  {
    var p := e.payload.value;
    p.(orderId := if p.orderId == "" then e.aggregateId else p.orderId,
       idempotencyKey := if p.idempotencyKey == "" then e.idempotencyKey else p.idempotencyKey)
  }

  predicate Complete(p: Params) {
    p.orderId != "" && p.sagaId != "" && forall f :: !Blank(Value(p, f))
  }

  /** `parseTimeOrNow` */
  function ParsedOrNow(c: D.Codec, s: string, now: Time): Time {
    if s == "" || c.parse(s).None? then now else c.parse(s).value
  }

  function Creation(c: D.Codec, p: Params, now: Time): CreateParams {
    CreateParams(p.orderId, p.sagaId, p.buyerId, p.sellerId, p.sellerUsername, p.gigId, p.gigTitle, p.pictureFileId,
                 p.packageId, p.packageTier, p.packageDescription, p.packageDeliveryDays, p.priceCents, p.currency,
                 p.idempotencyKey, ParsedOrNow(c, p.requestedAt, now))
  }

  /** The call a complete command makes. */
  function CallOf(c: D.Codec, e: Envelope, t: Try): Call
    requires e.payload.Some?
  {
    Call(Command.Create(Creation(c, Defaulted(e), t.now)), t.now, t.faults)
  }

  predicate Accepted(raw: Option<Envelope>) {
    raw.Some? && Supported(raw.value) && raw.value.payload.Some? && Complete(Defaulted(raw.value))
  }

  /** Decodes, defaults and checks the command. Whatever order the required
      fields are looked at in, an incomplete one fails permanently, naming a
      field that is blank. */
  method Validate(raw: Option<Envelope>) returns (r: Result<Params, HandleError>)
    ensures r.Ok? <==> Accepted(raw)
    ensures r.Ok? ==> r.value == Defaulted(raw.value)
    ensures r.Err? && !Permanent(r.error) <==> raw.None? || !Supported(raw.value) || raw.value.payload.None?
    ensures r == Err(Unsupported) <==> raw.Some? && !Supported(raw.value)
    ensures r.Err? ==> !r.error.CreationFailed? && !r.error.PublishFailed?
    ensures r.Err? && r.error.Missing? ==> Blank(Value(Defaulted(raw.value), r.error.field))
    ensures r.Ok? ==>
              && var p, q := raw.value.payload.value, r.value;
              && q == p.(orderId := q.orderId, idempotencyKey := q.idempotencyKey)
              && q.orderId == IdIn(raw.value) && q.orderId != "" && p.sagaId != ""
              && q.idempotencyKey == (if p.idempotencyKey == "" then raw.value.idempotencyKey else p.idempotencyKey)
              && !Blank(p.buyerId) && !Blank(p.sellerId) && !Blank(p.gigId) && !Blank(p.packageId)
  {
    if raw.None? {
      return Err(Undecodable);
    }
    var e := raw.value;
    if e.aggregateType != "order" && e.aggregateType != "orders" {
      return Err(Unsupported);
    }
    if !EqualFold(e.operation, "post") && !EqualFold(e.operation, "create") {
      return Err(Unsupported);
    }
    if e.payload.None? {
      return Err(Undecodable);
    }
    var p := e.payload.value;
    if p.orderId == "" {
      p := p.(orderId := e.aggregateId);
    }
    if p.orderId == "" {
      return Err(MissingOrderId);
    }
    if p.sagaId == "" {
      return Err(MissingSagaId);
    }
    if p.idempotencyKey == "" {
      p := p.(idempotencyKey := e.idempotencyKey);
    }
    var remaining := {Field.BuyerId, Field.SellerId, Field.GigId, Field.PackageId};
    while remaining != {}
      invariant forall f :: f in remaining || !Blank(Value(p, f))
      decreases |remaining|
    {
      var field :| field in remaining;
      BlankText(Value(p, field));
      if TrimSpace(Value(p, field)) == "" {
        return Err(Missing(field));
      }
      remaining := remaining - {field};
    }
    return Ok(p);
  }

  function CompletionOf(e: Envelope, orderId: string, status: string): Completed {
    Completed(e.eventId + ".completed", e.commandId, e.correlationId, e.eventId, e.idempotencyKey, e.testRunId,
              e.operation, orderId, status)
  }

  /** The order a command is about. */
  function IdIn(e: Envelope): string
    requires e.payload.Some?
  {
    if e.payload.value.orderId == "" then e.aggregateId else e.payload.value.orderId
  }

  /** The completion tells an order stored with its snapshot, its status, and the
      command it answers. */
  ghost predicate Truthful(c: Completed, e: Envelope, t: Tables) {
    && e.payload.Some?
    && IdIn(e) in t.orders && IdIn(e) in t.snapshots
    && c.aggregateId == IdIn(e) && c.status == t.orders[IdIn(e)].status
    && c.eventId == e.eventId + ".completed" && c.causationId == e.eventId
    && c.commandId == e.commandId && c.correlationId == e.correlationId && c.idempotencyKey == e.idempotencyKey
    && c.testRunId == e.testRunId && c.operation == e.operation
  }

  // ---- what a recovery stores, told from the command alone ---------------------------

  /** The gig snapshot: every term the payload gives. */
  ghost predicate StoresTerms(n: SnapshotRow, p: Params) {
    && n.gigId == p.gigId && n.gigTitle == p.gigTitle && n.pictureFileId == p.pictureFileId
    && n.sellerUsername == p.sellerUsername && n.packageId == p.packageId && n.packageTier == p.packageTier
    && n.packageDescription == p.packageDescription && n.packageDeliveryDays == p.packageDeliveryDays
    && n.priceCents == p.priceCents && n.currency == p.currency
  }

  /** A new order: parties and terms of the payload, the envelope's idempotency
      key if the payload has none, the time requested if it parses, no state yet. */
  ghost predicate StoresOrder(o: OrderRow, e: Envelope, c: D.Codec, now: Time)
    requires e.payload.Some?
  {
    var p := e.payload.value;
    && o.buyerId == p.buyerId && o.sellerId == p.sellerId && o.sagaId == p.sagaId
    && o.sellerUsername == p.sellerUsername && o.gigId == p.gigId && o.packageId == p.packageId
    && o.idempotencyKey == (if p.idempotencyKey == "" then e.idempotencyKey else p.idempotencyKey)
    && o.createdAt == o.updatedAt
    && o.createdAt == (if p.requestedAt != "" && c.parse(p.requestedAt).Some? then c.parse(p.requestedAt).value else now)
    && o.status == "requirements_pending" && o.revisionCountUsed == 0
    && o.paymentIntentId == None && o.paymentReleaseId == None && o.failureReason == None && o.deliveredAt == None
    && o.completedAt == None && o.disputedAt == None && o.buyerResponseDeadline == None
  }

  /** A recovery stores its order as the command tells it; an order stored before
      keeps its row and takes the terms over into its snapshot. */
  ghost predicate Recovers(t: Tables, t': Tables, e: Envelope, c: D.Codec, now: Time)
    requires e.payload.Some?
  {
    var id := IdIn(e);
    && id in t'.orders && t'.orders[id].orderId == id
    && id in t'.snapshots && t'.snapshots[id].orderId == id && StoresTerms(t'.snapshots[id], e.payload.value)
    && t'.snapshots[id].createdAt == (if id in t.snapshots then t.snapshots[id].createdAt else now)
    && (if id in t.orders then t'.orders[id] == t.orders[id] else StoresOrder(t'.orders[id], e, c, now))
    && t' == t.(orders := t.orders[id := t'.orders[id]], snapshots := t.snapshots[id := t'.snapshots[id]])
  }

  /** A recovery that succeeds, or commits while it is told to have failed, stores
      what its command tells, in any store. */
  lemma RecoveryStores(s: Store, c: D.Codec, e: Envelope, t: Try)
    requires Keyed(s) && e.payload.Some?
    requires Step(s, CallOf(c, e, t)).reply == Success || Step(s, CallOf(c, e, t)).store != s
    ensures Recovers(s.tables, Step(s, CallOf(c, e, t)).store.tables, e, c, t.now)
  {
    hide Step;
    CreationLeaves(s, CallOf(c, e, t));
  }

  /** The two rows a creation leaves, and nothing else. */
  lemma CreationLeaves(s: Store, c: Call)
    requires Keyed(s) && c.command.Create? && (Step(s, c).reply == Success || Step(s, c).store != s)
    ensures var p, t := c.command.p, s.tables;
            var at := if p.orderId in t.snapshots then t.snapshots[p.orderId].createdAt else c.now;
            Step(s, c).store.tables
            == t.(orders := t.orders[p.orderId := if p.orderId in t.orders then t.orders[p.orderId] else NewOrder(p)],
                  snapshots := t.snapshots[p.orderId := SnapshotOf(p, at)])
  {
    hide IsUuid;
    CallsAreAtomic(s, c);
  }

  class Subscriber {
    const service: A.Service
    var completed: seq<Completed>

    constructor (service: A.Service)
      ensures this.service == service && completed == []
    {
      this.service := service;
      completed := [];
    }

    /** A command that is not accepted changes nothing; an accepted one is one
        creation, and a completion is published only once its order is stored.
        No projection is touched. */
    method Handle(raw: Option<Envelope>, t: Try, database: A.Database, w: A.Weather) returns (r: Result<(), HandleError>)
      requires service.Valid() && A.Answering(database)
      modifies this`completed, service.repo, service.read`entries, service`previews, service`requirements
      ensures r.Err? && Permanent(r.error) <==>
                raw.Some? && Supported(raw.value) && raw.value.payload.Some? && !Complete(Defaulted(raw.value))
      ensures service.read.entries == old(service.read.entries) && service.previews == old(service.previews)
      ensures service.repo.store ==
              if Accepted(raw) then Step(old(service.repo.store), CallOf(service.read.codec, raw.value, t)).store
              else old(service.repo.store)
      ensures r.Ok? ==> Accepted(raw) && completed != old(completed)
      ensures completed != old(completed) || service.repo.store != old(service.repo.store) ==>
                && Accepted(raw)
                && Recovers(old(service.repo.store.tables), service.repo.store.tables, raw.value, service.read.codec, t.now)
      ensures completed != old(completed) ==>
                exists c :: completed == old(completed) + [c] && Accepted(raw) && Truthful(c, raw.value, service.repo.store.tables)
    {
      hide Step, Recovers, ParsedOrNow, Blank, EqualFold, RowsKeyed, IsUuid;
      var params := Validate(raw);
      if params.Err? {
        return Err(params.error);
      }
      var e, p := raw.value, params.value;
      var result := service.CreateDraftOrder(Creation(service.read.codec, p, t.now), [], true, t, [], database, false, w, w);
      if service.repo.store != old(service.repo.store) {
        RecoveryStores(old(service.repo.store), service.read.codec, e, t);
      }
      if result.Err? {
        return Err(CreationFailed(result.error));
      }
      CreatedIsStored(old(service.repo.store), CallOf(service.read.codec, e, t), t.trips);
      RecoveryStores(old(service.repo.store), service.read.codec, e, t);
      var c := CompletionOf(e, result.value.orderId, result.value.status);
      assert Truthful(c, e, service.repo.store.tables);
      completed := A.AfterSend(completed, c, w.send);
      return if w.send.Some? then Err(PublishFailed) else Ok(());
    }
  }

  lemma CreatedIsStored(s: Store, c: Call, trips: P.Reads)
    requires Keyed(s) && c.command.Create? && P.Replied(Step(s, c), c.command.p.orderId, trips).Ok?
    ensures var t, o := Step(s, c).store.tables, P.Replied(Step(s, c), c.command.p.orderId, trips).value;
            && c.command.p.orderId in t.orders && c.command.p.orderId in t.snapshots
            && o.orderId == c.command.p.orderId && o.status == t.orders[c.command.p.orderId].status
  {
    hide Step;
    StepKeepsKeys(s, c);
  }

  /** A command handled once is handled again as at-least-once delivery has it:
      after any further history, at any later time and with any faults, it changes
      no table, if nobody created the order with other terms meanwhile. */
  lemma HandlingTwiceIsOnce(c: D.Codec, g: seq<Call>, later: seq<Call>, e: Envelope, first: Try, again: Try)
    requires e.payload.Some? && Step(Run(g), CallOf(c, e, first)).reply == Success
    requires OnlyAlike(g + [CallOf(c, e, first)], later, CallOf(c, e, first).command.p)
    ensures var s := Run(g + [CallOf(c, e, first)] + later);
            Step(s, CallOf(c, e, again)).store.tables == s.tables
  {
    RecreationIsIdempotent(g, CallOf(c, e, first), later, CallOf(c, e, again));
  }
}
