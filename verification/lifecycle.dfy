/** The evidence each order carries for its lifecycle, over every history. */
module Lifecycle {
  import opened Text
  import opened Tables
  import opened Outbox
  import opened Commands
  import opened History

  // ---- what a committed call does to its order ------------------------------

  function PutSlice(x: Slice, r: Row): Slice {
    match r
    case Order(o) => x.(order := Some(o))
    case Snapshot(s) => x.(snapshot := Some(s))
    case Session(c) => x.(session := Some(c))
    case Delivery(d) => x.(delivery := Some(d))
    case Revision(v) => x.(revision := Some(v))
    case Dispute(u) => x.(dispute := Some(u))
    case _ => x
  }

  lemma SliceOfWrite(s: Store, r: Row)
    ensures SliceOf(Write(s, r).tables, OrderIdOf(r)) == PutSlice(SliceOf(s.tables, OrderIdOf(r)), r)
  {}

  function NewOrder(p: CreateParams): OrderRow {
    OrderRow(p.orderId, p.sagaId, p.buyerId, p.sellerId, p.sellerUsername, p.gigId, p.packageId,
             "requirements_pending", p.idempotencyKey, None, None, None, None, None, None, None, 0,
             p.requestedAt, p.requestedAt)
  }

  /** The order's rows after a committed command. */
  function Advance(x: Slice, c: Command, now: Time): Slice {
    if c.Create? then
      var at := if x.snapshot.Some? then x.snapshot.value.createdAt else now;
      x.(order := if x.order.Some? then x.order else Some(NewOrder(c.p)), snapshot := Some(SnapshotOf(c.p, at)))
    else if c.SaveSession? then
      var at := if x.session.Some? then x.session.value.createdAt else now;
      x.(session := Some(SessionRow(c.orderId, c.checkoutUrl, at, now)))
    else if UpdatesOrder(c) && x.order.Some? then
      var y := x.(order := Some(Change(c, x.order.value, now)));
      match c
      case SaveDelivery(id, seller, message, _) =>
        var at := if x.delivery.Some? then x.delivery.value.createdAt else now;
        y.(delivery := Some(DeliveryRow(id, seller, message, at)))
      case RequestRevision(id, buyer, reason, at) => y.(revision := Some(RevisionRow(id, buyer, reason, at)))
      case OpenDispute(_, _, _, _) =>
        var at := if x.dispute.Some? then x.dispute.value.createdAt else now;
        y.(dispute := Some(DisputeOf(c, x.order.value.buyerId, at)))
      case _ => y
    else x
  }

  /** When a command may commit. */
  predicate Admits(x: Slice, c: Command) {
    && (!c.Create? ==> x.order.Some?)
    && (c.RequestRevision? && x.order.Some? ==> x.order.value.buyerId == c.buyerId)
  }

  lemma {:induction false} FilesOnly(s: Store, c: Command, i: nat, now: Time)
    requires c.SaveDelivery? && i <= |c.attachmentIds| && InsertFiles(s, c, i, now, CALM).Applied?
    ensures var t := InsertFiles(s, c, i, now, CALM).store.tables; t == s.tables.(files := t.files)
    decreases |c.attachmentIds| - i
  {
    if i < |c.attachmentIds| {
      FilesOnly(if Blank(c.attachmentIds[i]) then s else AfterFile(s, c, i, now), c, i + 1, now);
    }
  }

  lemma StatementAdvances(s: Store, c: Command, now: Time)
    requires Keyed(s) && !IsTransaction(c) && Apply(s, Statement(s.tables, c, now)).Applied?
    ensures var x := SliceOf(s.tables, Target(c));
            Admits(x, c) && SliceOf(Body(s, c, now, CALM).store.tables, Target(c)) == Advance(x, c, now)
  {
    if UpdatesOrder(c) {
      UpdateAdvances(s, c, now);
    } else {
      DetailAdvances(s, c, now);
    }
  }

  /** A checkout session is a row of the order's slice, the other details are not. */
  lemma DetailAdvances(s: Store, c: Command, now: Time)
    requires Keyed(s) && !IsTransaction(c) && !UpdatesOrder(c) && Statement(s.tables, c, now).Upsert?
    ensures var x := SliceOf(s.tables, Target(c));
            && Admits(x, c)
            && SliceOf(Write(s, Statement(s.tables, c, now).row).tables, Target(c)) == Advance(x, c, now)
  {
    hide IsUuid, Write;
    SliceOfWrite(s, Statement(s.tables, c, now).row);
  }

  lemma CreateAdvances(s: Store, c: Command, now: Time)
    requires Keyed(s) && c.Create? && CreateTx(s, c.p, now, CALM).Applied?
    ensures var x := SliceOf(s.tables, Target(c));
            SliceOf(CreateTx(s, c.p, now, CALM).store.tables, Target(c)) == Advance(x, c, now)
  {
    var q := InsertOrder(s.tables, c.p);
    SliceOfWrite(s, q.row);
    var e := Write(s, q.row);
    SliceOfWrite(e, UpsertSnapshot(e.tables, c.p, now).row);
  }

  /** The first statement of the other transactions. */
  lemma UpdateAdvances(s: Store, c: Command, now: Time)
    requires Keyed(s) && UpdatesOrder(c) && UpdateOrder(s.tables, c, now).Upsert?
    ensures var x, e := SliceOf(s.tables, c.orderId), Write(s, UpdateOrder(s.tables, c, now).row);
            && Admits(x, c)
            && SliceOf(e.tables, c.orderId) == x.(order := Some(Change(c, x.order.value, now)))
  {
    SliceOfWrite(s, UpdateOrder(s.tables, c, now).row);
  }

  lemma DeliveryAdvances(s: Store, c: Command, now: Time)
    requires Keyed(s) && c.SaveDelivery? && SaveDeliveryTx(s, c, now, CALM).Applied?
    ensures var x := SliceOf(s.tables, c.orderId);
            Admits(x, c) && SliceOf(SaveDeliveryTx(s, c, now, CALM).store.tables, c.orderId) == Advance(x, c, now)
  {
    UpdateAdvances(s, c, now);
    var e := Write(s, UpdateOrder(s.tables, c, now).row);
    SliceOfWrite(e, UpsertDelivery(e.tables, c.orderId, c.sellerId, c.message, now).row);
    FilesOnly(BeforeFiles(s, c, now).store, c, 0, now);
  }

  lemma RevisionAdvances(s: Store, c: Command, now: Time)
    requires Keyed(s) && c.RequestRevision? && RequestRevisionTx(s, c, now, CALM).Applied?
    ensures var x := SliceOf(s.tables, c.orderId);
            Admits(x, c) && SliceOf(RequestRevisionTx(s, c, now, CALM).store.tables, c.orderId) == Advance(x, c, now)
  {
    UpdateAdvances(s, c, now);
    var e := Write(s, UpdateOrder(s.tables, c, now).row);
    SliceOfWrite(e, UpsertRevision(e.tables, c.orderId, c.buyerId, c.reason, c.requestedAt).row);
  }

  lemma DisputeAdvances(s: Store, c: Command, now: Time)
    requires Keyed(s) && c.OpenDispute? && OpenDisputeTx(s, c, now, CALM).Applied?
    ensures var x := SliceOf(s.tables, c.orderId);
            Admits(x, c) && SliceOf(OpenDisputeTx(s, c, now, CALM).store.tables, c.orderId) == Advance(x, c, now)
  {
    hide RoleOf, IsUuid;
    UpdateAdvances(s, c, now);
    var e := Write(s, UpdateOrder(s.tables, c, now).row);
    var buyer := Change(c, s.tables.orders[c.orderId], now).buyerId;
    SliceOfWrite(e, UpsertDispute(e.tables, DisputeOf(c, buyer, now)).row);
  }

  /** A call either leaves the store alone or advances exactly its target order. */
  lemma StepAdvances(s: Store, c: Call)
    requires Keyed(s)
    ensures var x, s' := SliceOf(s.tables, Target(c.command)), Step(s, c).store;
            s' == s || (Admits(x, c.command) && SliceOf(s'.tables, Target(c.command)) == Advance(x, c.command, c.now))
  {
    CallsAreAtomic(s, c);
    var d := c.command;
    if Body(s, d, c.now, CALM).Applied? {
      if d.Create? {
        CreateAdvances(s, d, c.now);
      } else if d.SaveDelivery? {
        DeliveryAdvances(s, d, c.now);
      } else if d.RequestRevision? {
        RevisionAdvances(s, d, c.now);
      } else if d.OpenDispute? {
        DisputeAdvances(s, d, c.now);
      } else {
        StatementAdvances(s, d, c.now);
      }
    }
  }

  // ---- evidence ----------------------------------------------------------

  /** Both texts name the same user, whatever space surrounds them. */
  predicate Named(a: string, b: string) {
    TrimSpace(a) == TrimSpace(b)
  }

  lemma RolesTold(initiatorId: string, buyerId: string)
    ensures RoleOf(initiatorId, buyerId) == "buyer" <==> TrimSpace(initiatorId) == TrimSpace(buyerId)
    ensures RoleOf(initiatorId, buyerId) == "seller" <==> TrimSpace(initiatorId) != TrimSpace(buyerId)
  {
    assert "buyer" != "seller";
  }

  /** What an order's rows say about each other. */
  predicate Evidence(x: Slice) {
    match x.order
    case None =>
      x.snapshot.None? && x.session.None? && x.delivery.None? && x.revision.None? && x.dispute.None?
    case Some(o) =>
      && x.snapshot.Some?
      && (x.session.Some? ==> o.paymentIntentId.Some?)
      && (o.deliveredAt.Some? <==> x.delivery.Some?)
      && (o.disputedAt.Some? <==> x.dispute.Some?)
      && (x.dispute.Some? ==>
            && x.dispute.value.buyerId == o.buyerId
            && (x.dispute.value.initiatorRole == "buyer" <==> Named(x.dispute.value.initiatorId, o.buyerId))
            && (x.dispute.value.initiatorRole == "seller" <==> !Named(x.dispute.value.initiatorId, o.buyerId)))
      && 0 <= o.revisionCountUsed
      && (0 < o.revisionCountUsed <==> x.revision.Some?)
      && (x.revision.Some? ==> x.revision.value.buyerId == o.buyerId)
  }

  /** The session row alone does not check the order's payment intent. */
  predicate Prepared(x: Slice, c: Command) {
    c.SaveSession? && x.order.Some? ==> x.order.value.paymentIntentId.Some?
  }

  /** What an update does to the columns the evidence is about. */
  lemma ChangedEvidence(c: Command, o: OrderRow, now: Time)
    requires UpdatesOrder(c)
    ensures var n := Change(c, o, now);
            && SameTerms(o, n)
            && (o.paymentIntentId.Some? ==> n.paymentIntentId.Some?)
            && n.deliveredAt == (if c.SaveDelivery? then Some(now) else o.deliveredAt)
            && n.disputedAt == (if c.OpenDispute? then Some(now) else o.disputedAt)
            && n.revisionCountUsed == o.revisionCountUsed + (if c.RequestRevision? then 1 else 0)
  {}

  lemma CreationKeepsEvidence(x: Slice, c: Command, now: Time)
    requires Evidence(x) && c.Create?
    ensures Evidence(Advance(x, c, now))
  {
    hide RoleOf;
  }

  lemma UpdateKeepsEvidence(x: Slice, c: Command, now: Time)
    requires Evidence(x) && Admits(x, c) && UpdatesOrder(c)
    ensures Evidence(Advance(x, c, now))
  {
    hide Change, RoleOf;
    ChangedEvidence(c, x.order.value, now);
    if c.OpenDispute? {
      RolesTold(c.initiatorId, x.order.value.buyerId);
    }
  }

  lemma AdvanceKeepsEvidence(x: Slice, c: Command, now: Time)
    requires Evidence(x) && Admits(x, c) && Prepared(x, c)
    ensures Evidence(Advance(x, c, now))
  {
    if c.Create? {
      CreationKeepsEvidence(x, c, now);
    } else if UpdatesOrder(c) {
      UpdateKeepsEvidence(x, c, now);
    } else {
      hide Change, RoleOf;
    }
  }

  /** Parties and terms of an order, the fields no statement changes. */
  ghost predicate SameTerms(o: OrderRow, n: OrderRow) {
    && n.orderId == o.orderId && n.sagaId == o.sagaId && n.buyerId == o.buyerId && n.sellerId == o.sellerId
    && n.sellerUsername == o.sellerUsername && n.gigId == o.gigId && n.packageId == o.packageId
    && n.idempotencyKey == o.idempotencyKey && n.createdAt == o.createdAt
  }

  /** An order, once stored, stays with its parties and terms; its payment
      intent, snapshot and delivery are never taken back. */
  ghost predicate Persists(x: Slice, y: Slice) {
    x.order.Some? ==>
      && y.order.Some? && SameTerms(x.order.value, y.order.value)
      && (x.order.value.paymentIntentId.Some? ==> y.order.value.paymentIntentId.Some?)
      && (x.snapshot.Some? ==> y.snapshot.Some?)
  }

  lemma AdvancePersists(x: Slice, c: Command, now: Time)
    requires Admits(x, c)
    ensures Persists(x, Advance(x, c, now))
  {
    hide Change, RoleOf;
    if UpdatesOrder(c) && x.order.Some? {
      ChangedEvidence(c, x.order.value, now);
    }
  }

  lemma StepPersists(s: Store, c: Call, id: string)
    requires Keyed(s)
    ensures Persists(SliceOf(s.tables, id), SliceOf(Step(s, c).store.tables, id))
  {
    if id == Target(c.command) {
      StepAdvances(s, c);
      if Admits(SliceOf(s.tables, id), c.command) {
        AdvancePersists(SliceOf(s.tables, id), c.command, c.now);
      }
    } else {
      OtherOrdersUntouched(s, c, id);
    }
  }

  lemma {:induction false} RunPersists(h: seq<Call>, k: nat, id: string)
    requires k <= |h|
    ensures Persists(SliceOf(Run(h[..k]).tables, id), SliceOf(Run(h).tables, id))
    decreases |h|
  {
    if k == |h| {
      assert h[..k] == h;
    } else {
      var g := h[..|h| - 1];
      assert g[..k] == h[..k];
      RunPersists(g, k, id);
      RunIsKeyed(g);
      StepPersists(Run(g), h[|h| - 1], id);
    }
  }

  // ---- histories the service produces ---------------------------------------

  /** Call `j` of the history began the checkout of the order. */
  ghost predicate Began(h: seq<Call>, j: nat, id: string) {
    && j < |h| && h[j].command.BeginCheckout? && h[j].command.orderId == id
    && Step(Run(h[..j]), h[j]).reply == Success
  }

  /** `SaveCheckoutSession` sends its second statement only after its first succeeded. */
  ghost predicate FromService(h: seq<Call>) {
    forall i :: 0 <= i < |h| && h[i].command.SaveSession? ==> exists j: nat :: j < i && Began(h, j, h[i].command.orderId)
  }

  /** Revision requests of the order that committed. */
  ghost function CommittedRevisions(h: seq<Call>, id: string): nat {
    if h == [] then 0
    else
      var g, c := h[..|h| - 1], h[|h| - 1];
      CommittedRevisions(g, id)
      + if c.command.RequestRevision? && c.command.orderId == id && Step(Run(g), c).store != Run(g) then 1 else 0
  }

  lemma BeginSetsIntent(s: Store, c: Call)
    requires Keyed(s) && c.command.BeginCheckout? && Step(s, c).reply == Success
    ensures var x := SliceOf(Step(s, c).store.tables, c.command.orderId);
            x.order.Some? && x.order.value.paymentIntentId.Some?
  {
    CallsAreAtomic(s, c);
    StatementAdvances(s, c.command, c.now);
  }

  lemma CheckoutWasBegun(h: seq<Call>, id: string)
    requires FromService(h) && h != [] && h[|h| - 1].command.SaveSession? && h[|h| - 1].command.orderId == id
    ensures Prepared(SliceOf(Run(h[..|h| - 1]).tables, id), h[|h| - 1].command)
  {
    var g := h[..|h| - 1];
    var j: nat :| j < |h| - 1 && Began(h, j, id);
    assert h[..j + 1][..j] == h[..j] && g[..j + 1] == h[..j + 1];
    RunIsKeyed(h[..j]);
    BeginSetsIntent(Run(h[..j]), h[j]);
    RunPersists(g, j + 1, id);
  }

  /** One more revision when a request commits, else none. */
  function Counted(x: Slice): int {
    if x.order.Some? then x.order.value.revisionCountUsed else 0
  }

  lemma StepEvidence(s: Store, c: Call, id: string)
    requires Keyed(s) && Evidence(SliceOf(s.tables, id))
    requires id == Target(c.command) ==> Prepared(SliceOf(s.tables, id), c.command)
    ensures var s' := Step(s, c).store;
            && Evidence(SliceOf(s'.tables, id))
            && Counted(SliceOf(s'.tables, id)) == Counted(SliceOf(s.tables, id))
                 + if c.command.RequestRevision? && c.command.orderId == id && s' != s then 1 else 0
  {
    if id == Target(c.command) {
      StepAdvances(s, c);
      if Step(s, c).store != s {
        AdvanceKeepsEvidence(SliceOf(s.tables, id), c.command, c.now);
        AdvanceCounts(SliceOf(s.tables, id), c.command, c.now);
      }
    } else {
      OtherOrdersUntouched(s, c, id);
    }
  }

  lemma AdvanceCounts(x: Slice, c: Command, now: Time)
    requires Admits(x, c)
    ensures Counted(Advance(x, c, now)) == Counted(x) + if c.RequestRevision? then 1 else 0
  {
    hide Change, RoleOf;
    if UpdatesOrder(c) && x.order.Some? {
      ChangedEvidence(c, x.order.value, now);
    }
  }

  lemma PrefixFromService(h: seq<Call>)
    requires FromService(h) && h != []
    ensures FromService(h[..|h| - 1])
  {
    var g := h[..|h| - 1];
    forall i | 0 <= i < |g| && g[i].command.SaveSession?
      ensures exists j: nat :: j < i && Began(g, j, g[i].command.orderId)
    {
      var j: nat :| j < i && Began(h, j, h[i].command.orderId);
      assert g[..j] == h[..j];
      assert Began(g, j, g[i].command.orderId);
    }
  }

  /** After any history the service can produce, with faults at any round trip:
      a delivery row exists iff delivered_at is set, a dispute row iff disputed_at,
      with the order's buyer and the initiator's role; a revision row exists iff
      some revision request committed, and the counter counts exactly those; a
      checkout session implies a payment intent; an order has its snapshot, and
      nothing refers to an order that does not exist. */
  lemma {:induction false} LifecycleEvidence(h: seq<Call>, id: string)
    requires FromService(h)
    ensures Evidence(SliceOf(Run(h).tables, id))
    ensures Counted(SliceOf(Run(h).tables, id)) == CommittedRevisions(h, id)
  {
    if h != [] {
      var g, c := h[..|h| - 1], h[|h| - 1];
      PrefixFromService(h);
      LifecycleEvidence(g, id);
      RunIsKeyed(g);
      if c.command.SaveSession? && c.command.orderId == id {
        CheckoutWasBegun(h, id);
      }
      StepEvidence(Run(g), c, id);
    }
  }
}
