/** When a command succeeds: after any history, for every combination of failing
    round trips, what its caller is told and whether it took effect. */
module Success {
  import opened Text
  import opened Tables
  import opened Outbox
  import opened Commands
  import opened History
  import opened OrderHistory

  /** What the tables must hold, and the ids parse as, for a command to succeed. */
  ghost predicate Accepts(t: Tables, c: Command) {
    match c
    case Create(p) =>
      && IsUuid(p.orderId) && IsUuid(p.sagaId) && IsUuid(p.buyerId) && IsUuid(p.sellerId) && IsUuid(p.gigId) && IsUuid(p.packageId)
      && (p.orderId in t.orders || forall id :: id in t.orders ==> t.orders[id].idempotencyKey != p.idempotencyKey)
    case SaveQuestion(id, q) => IsUuid(id) && IsUuid(q.questionId) && id in t.orders
    case SaveAnswer(id, x, _) => IsUuid(id) && IsUuid(x) && id in t.orders && (id, x) in t.questions
    case SaveMessage(id, _) => IsUuid(id) && id in t.orders
    case AttachFile(id, x, _, _) => IsUuid(id) && IsUuid(x) && id in t.orders
    case SaveSession(id, _) => IsUuid(id) && id in t.orders
    case SaveDelivery(id, seller, _, ids) =>
      && IsUuid(id) && IsUuid(seller) && id in t.orders
      && forall k :: 0 <= k < |ids| && !Blank(ids[k]) ==> k + 1 <= MAX_INT32
    case RequestRevision(id, buyer, _, _) =>
      Parses(c) && id in t.orders && t.orders[id].buyerId == buyer && t.orders[id].revisionCountUsed < MAX_INT32
    case OpenDispute(id, initiator, _, _) => IsUuid(id) && IsUuid(initiator) && id in t.orders
    case _ => Parses(c) && c.orderId in t.orders
  }

  /** The ids of an update parse. */
  predicate Parses(c: Command) {
    match c
    case MarkPaid(id, intent) => IsUuid(id) && IsUuid(intent)
    case MarkFunded(id, intent) => IsUuid(id) && IsUuid(intent)
    case BeginCheckout(id, intent) => IsUuid(id) && IsUuid(intent)
    case MarkReleasePending(id, release) => IsUuid(id) && (release == "" || IsUuid(release))
    case MarkCompleted(id, release) => IsUuid(id) && (release == "" || IsUuid(release))
    case MarkDisputeResolved(id, release) => IsUuid(id) && (release == "" || IsUuid(release))
    case RequestRevision(id, buyer, _, _) => IsUuid(id) && IsUuid(buyer)
    case _ => IsUuid(Target(c))
  }

  /** An update that parses finds no order, or not the buyer's. */
  ghost predicate Misses(t: Tables, c: Command) {
    && UpdatesOrder(c) && Parses(c)
    && (c.orderId !in t.orders || (c.RequestRevision? && t.orders[c.orderId].buyerId != c.buyerId))
  }

  /** The round trips a command sends before the one that makes it durable: in a
      transaction its beginning and its statements, none for a blank attachment. */
  predicate Prepares(c: Command, k: nat) {
    match c
    case Create(_) => k < 3
    case RequestRevision(_, _, _, _) => k < 3
    case OpenDispute(_, _, _, _) => k < 3
    case SaveDelivery(_, _, _, ids) => k < 3 || (k < 3 + |ids| && !Blank(ids[k - 3]))
    case _ => false
  }

  predicate Prepared(c: Command, faults: Faults) {
    forall k: nat :: k in faults ==> !Prepares(c, k)
  }

  // ---- statements ------------------------------------------------------------------

  lemma UpdateApplies(t: Tables, c: Command, now: Time)
    requires UpdatesOrder(c)
    ensures UpdateOrder(t, c, now).NoMatch? <==> Misses(t, c)
    ensures UpdateOrder(t, c, now).Upsert? <==>
              && Parses(c) && c.orderId in t.orders
              && (c.RequestRevision? ==> t.orders[c.orderId].buyerId == c.buyerId && t.orders[c.orderId].revisionCountUsed < MAX_INT32)
  {
    hide IsUuid;
  }

  lemma StatementApplies(t: Tables, c: Command, now: Time)
    requires !IsTransaction(c)
    ensures Statement(t, c, now).Upsert? <==> Accepts(t, c)
    ensures Statement(t, c, now).NoMatch? <==> Misses(t, c)
  {
    hide IsUuid;
    if UpdatesOrder(c) {
      UpdateApplies(t, c, now);
    }
  }

  // ---- transactions ----------------------------------------------------------------

  lemma CreateApplies(s: Store, p: CreateParams, now: Time, faults: Faults)
    ensures var e := CreateTx(s, p, now, faults);
            && (e.Applied? <==> Accepts(s.tables, Create(p)) && Prepared(Create(p), faults))
            && (e.Applied? ==> |e.store.log| > |s.log|) && !e.NoRow?
  {
    hide IsUuid;
    assert Prepares(Create(p), 0) && Prepares(Create(p), 1) && Prepares(Create(p), 2);
  }

  lemma RevisionApplies(s: Store, c: Command, now: Time, faults: Faults)
    requires c.RequestRevision? && Keyed(s)
    ensures var e := RequestRevisionTx(s, c, now, faults);
            && (e.Applied? <==> Accepts(s.tables, c) && Prepared(c, faults))
            && (e.Applied? ==> |e.store.log| > |s.log|)
            && (e.NoRow? <==> Misses(s.tables, c) && 0 !in faults && 1 !in faults)
  {
    hide IsUuid;
    UpdateApplies(s.tables, c, now);
    assert Prepares(c, 0) && Prepares(c, 1) && Prepares(c, 2);
  }

  lemma UpdateWrites(s: Store, c: Command, now: Time)
    requires Keyed(s) && UpdatesOrder(c) && UpdateOrder(s.tables, c, now).Upsert?
    ensures c.orderId in s.tables.orders && Change(c, s.tables.orders[c.orderId], now).buyerId == s.tables.orders[c.orderId].buyerId
    ensures var e := Write(s, UpdateOrder(s.tables, c, now).row); c.orderId in e.tables.orders && |e.log| == |s.log| + 1
  {
    hide IsUuid;
  }

  lemma DisputeRowApplies(e: Store, c: Command, buyerId: string, now: Time)
    requires c.OpenDispute? && c.orderId in e.tables.orders
    ensures var q := UpsertDispute(e.tables, DisputeOf(c, buyerId, now));
            && (q.Upsert? <==> IsUuid(c.orderId) && IsUuid(buyerId) && IsUuid(c.initiatorId)) && !q.NoMatch?
            && (q.Upsert? ==> |Write(e, q.row).log| == |e.log| + 1)
  {
    hide IsUuid, RoleOf;
  }

  lemma DisputeApplies(s: Store, c: Command, now: Time, faults: Faults)
    requires c.OpenDispute? && Keyed(s) && (c.orderId in s.tables.orders ==> IsUuid(s.tables.orders[c.orderId].buyerId))
    ensures var e := OpenDisputeTx(s, c, now, faults);
            && (e.Applied? <==> Accepts(s.tables, c) && Prepared(c, faults))
            && (e.Applied? ==> |e.store.log| > |s.log|)
            && (e.NoRow? <==> Misses(s.tables, c) && 0 !in faults && 1 !in faults)
  {
    hide IsUuid, RoleOf, Change, Write, UpdateOrder, UpsertDispute, DisputeOf;
    UpdateApplies(s.tables, c, now);
    var q := UpdateOrder(s.tables, c, now);
    if q.Upsert? {
      UpdateWrites(s, c, now);
      DisputeRowApplies(Write(s, q.row), c, s.tables.orders[c.orderId].buyerId, now);
    }
    assert Prepares(c, 0) && Prepares(c, 1) && Prepares(c, 2);
  }

  lemma {:induction false} FilesApply(s: Store, c: Command, i: nat, now: Time, faults: Faults)
    requires c.SaveDelivery? && i <= |c.attachmentIds| && IsUuid(c.orderId) && c.orderId in s.tables.orders
    ensures var e := InsertFiles(s, c, i, now, faults);
            && (e.Applied? <==>
                  forall k :: i <= k < |c.attachmentIds| && !Blank(c.attachmentIds[k]) ==> k + 1 <= MAX_INT32 && 3 + k !in faults)
            && (e.Applied? ==> |e.store.log| >= |s.log|) && !e.NoRow?
    decreases |c.attachmentIds| - i
  {
    if i < |c.attachmentIds| {
      hide IsUuid, Blank;
      if Blank(c.attachmentIds[i]) {
        FilesApply(s, c, i + 1, now, faults);
      } else {
        var q := UpsertFile(s.tables, c.orderId, c.attachmentIds[i], i + 1, now);
        if 3 + i !in faults && q.Upsert? {
          FilesApply(Write(s, q.row), c, i + 1, now, faults);
        }
      }
    }
  }

  lemma DeliveryPrepared(c: Command, faults: Faults)
    requires c.SaveDelivery?
    ensures Prepared(c, faults) <==>
              && 0 !in faults && 1 !in faults && 2 !in faults
              && forall k :: 0 <= k < |c.attachmentIds| && !Blank(c.attachmentIds[k]) ==> 3 + k !in faults
  {
    hide Blank;
    assert Prepares(c, 0) && Prepares(c, 1) && Prepares(c, 2);
    assert forall k :: 0 <= k < |c.attachmentIds| && !Blank(c.attachmentIds[k]) ==> Prepares(c, 3 + k);
  }

  lemma DeliveryApplies(s: Store, c: Command, now: Time, faults: Faults)
    requires c.SaveDelivery? && Keyed(s)
    ensures var e := SaveDeliveryTx(s, c, now, faults);
            && (e.Applied? <==> Accepts(s.tables, c) && Prepared(c, faults))
            && (e.Applied? ==> |e.store.log| > |s.log|)
            && (e.NoRow? <==> Misses(s.tables, c) && 0 !in faults && 1 !in faults)
  {
    hide IsUuid, Blank, Prepared, InsertFiles;
    UpdateApplies(s.tables, c, now);
    DeliveryPrepared(c, faults);
    var b := BeforeFiles(s, c, now);
    if b.Applied? {
      FilesApply(b.store, c, 0, now, faults);
    }
  }

  // ---- calls -----------------------------------------------------------------------

  lemma BodyApplies(s: Store, c: Command, now: Time, faults: Faults)
    requires Keyed(s) && (c.OpenDispute? && c.orderId in s.tables.orders ==> IsUuid(s.tables.orders[c.orderId].buyerId))
    ensures var e := Body(s, c, now, faults);
            && (e.Applied? <==> Accepts(s.tables, c) && Prepared(c, faults))
            && (e.Applied? ==> |e.store.log| > |s.log|)
            && (e.NoRow? <==> Misses(s.tables, c) && (IsTransaction(c) ==> 0 !in faults && 1 !in faults))
  {
    hide Accepts, Misses, Prepared, CreateTx, SaveDeliveryTx, RequestRevisionTx, OpenDisputeTx;
    if c.Create? {
      CreateApplies(s, c.p, now, faults);
      MissesOnlyUpdates(s.tables, c);
    } else if c.SaveDelivery? {
      DeliveryApplies(s, c, now, faults);
    } else if c.RequestRevision? {
      RevisionApplies(s, c, now, faults);
    } else if c.OpenDispute? {
      DisputeApplies(s, c, now, faults);
    } else {
      StatementApplies(s.tables, c, now);
      StatementsPrepareNothing(c, faults);
    }
  }

  lemma MissesOnlyUpdates(t: Tables, c: Command)
    requires c.Create?
    ensures !Misses(t, c)
  {}

  lemma StatementsPrepareNothing(c: Command, faults: Faults)
    requires !IsTransaction(c)
    ensures Prepared(c, faults)
  {}

  /** After any history, whatever round trips of a call fail: it takes effect
      exactly when its ids parse, its order is stored, its guards hold, nothing
      before its commit failed and the commit was not refused; it is told success
      exactly when its commit was acknowledged too, and not-found exactly when an
      update that parses found no row. */
  lemma CallsSucceedExactly(h: seq<Call>, c: Call)
    ensures var t, o, ready, last := Run(h).tables, Step(Run(h), c), Prepared(c.command, c.faults), FaultAt(c.faults, Last(c.command));
            && (o.store != Run(h) <==> Accepts(t, c.command) && ready && last != Some(Refused))
            && (o.reply == Success <==> Accepts(t, c.command) && ready && last == None)
            && (o.reply == NotFound <==>
                  Misses(t, c.command) && if IsTransaction(c.command) then 0 !in c.faults && 1 !in c.faults else last == None)
  {
    RunIsKeyed(h);
    OrdersAreSound(h, Target(c.command));
    BodyApplies(Run(h), c.command, c.now, c.faults);
    hide Body, Accepts, Misses, Prepared, Run, IsUuid;
  }
}
