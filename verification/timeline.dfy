/** Every column of an order's rows tells which committed call wrote it: the
    terms the first creation, the rest the last call of its kind. */
module Timeline {
  import opened Text
  import opened Tables
  import opened Outbox
  import opened Commands
  import opened History
  import opened Lifecycle

  type Kind = Command -> bool

  /** The last call of the kind about the order that committed. */
  ghost function Latest(h: seq<Call>, id: string, kind: Kind): Option<Call> {
    if h == [] then None
    else if Committed(h, id) && kind(h[|h| - 1].command) then Some(h[|h| - 1])
    else Latest(h[..|h| - 1], id, kind)
  }

  /** The first one. */
  ghost function Earliest(h: seq<Call>, id: string, kind: Kind): Option<Call> {
    if h == [] then None
    else
      var before := Earliest(h[..|h| - 1], id, kind);
      if before.Some? then before
      else if Committed(h, id) && kind(h[|h| - 1].command) then Some(h[|h| - 1]) else None
  }

  /** The history's last call is about the order and changed the store. */
  ghost predicate Committed(h: seq<Call>, id: string)
    requires h != []
  {
    var g, c := h[..|h| - 1], h[|h| - 1];
    Target(c.command) == id && Step(Run(g), c).store != Run(g)
  }

  // ---- which commands write which column ---------------------------------------

  predicate Creates(c: Command) {
    c.Create?
  }

  predicate Intends(c: Command) {
    c.MarkPaid? || c.MarkFunded? || c.BeginCheckout?
  }

  predicate Releases(c: Command) {
    c.MarkReleasePending? || c.MarkCompleted? || c.MarkDisputeResolved?
  }

  predicate Fails(c: Command) {
    c.MarkFailed? || c.MarkReleaseFailed?
  }

  predicate Delivers(c: Command) {
    c.SaveDelivery?
  }

  predicate Completes(c: Command) {
    c.MarkCompleted?
  }

  predicate Disputes(c: Command) {
    c.OpenDispute?
  }

  predicate Revises(c: Command) {
    c.RequestRevision?
  }

  predicate ChecksOut(c: Command) {
    c.SaveSession?
  }

  /** The status each update leaves. */
  function StatusOf(c: Command): string {
    if c.MarkPaid? then "paid"
    else if c.MarkFunded? then "funded"
    else if c.BeginCheckout? then "payment_pending"
    else if c.MarkFailed? then "failed"
    else if c.SaveDelivery? then "delivered"
    else if c.RequestRevision? then "revision_requested"
    else if c.OpenDispute? then "disputed"
    else if c.MarkReleasePending? then "release_pending"
    else if c.MarkCompleted? then "completed"
    else if c.MarkDisputeResolved? then "dispute_resolved"
    else if c.MarkReleaseFailed? then "release_failed"
    else "requirements_pending"
  }

  function TimeOf(c: Option<Call>): Option<Time> {
    if c.Some? then Some(c.value.now) else None
  }

  // ---- what the rows show ----------------------------------------------------------

  /** The calls an order's rows depend on. */
  datatype Writers = Writers(
    created: Option<Call>, recreated: Option<Call>, updated: Option<Call>, intended: Option<Call>, released: Option<Call>,
    failed: Option<Call>, delivered: Option<Call>, completed: Option<Call>, disputed: Option<Call>, revised: Option<Call>,
    session: Option<Call>, firstDelivered: Option<Call>, firstDisputed: Option<Call>, firstSession: Option<Call>)

  ghost function WritersOf(h: seq<Call>, id: string): Writers {
    Writers(Earliest(h, id, Creates), Latest(h, id, Creates), Latest(h, id, UpdatesOrder), Latest(h, id, Intends),
            Latest(h, id, Releases), Latest(h, id, Fails), Latest(h, id, Delivers), Latest(h, id, Completes),
            Latest(h, id, Disputes), Latest(h, id, Revises), Latest(h, id, ChecksOut),
            Earliest(h, id, Delivers), Earliest(h, id, Disputes), Earliest(h, id, ChecksOut))
  }

  /** The calls are of the kinds their places say. */
  predicate Kinds(w: Writers) {
    && (w.created.Some? ==> w.created.value.command.Create?)
    && (w.recreated.Some? ==> w.recreated.value.command.Create?)
    && (w.updated.Some? ==> UpdatesOrder(w.updated.value.command))
    && (w.intended.Some? ==> Intends(w.intended.value.command))
    && (w.released.Some? ==> Releases(w.released.value.command))
    && (w.failed.Some? ==> Fails(w.failed.value.command))
    && (w.delivered.Some? ==> w.delivered.value.command.SaveDelivery?)
    && (w.disputed.Some? ==> w.disputed.value.command.OpenDispute?)
    && (w.revised.Some? ==> w.revised.value.command.RequestRevision?)
    && (w.session.Some? ==> w.session.value.command.SaveSession?)
    && (w.created.Some? <==> w.recreated.Some?)
    && (w.delivered.Some? <==> w.firstDelivered.Some?)
    && (w.disputed.Some? <==> w.firstDisputed.Some?)
    && (w.session.Some? <==> w.firstSession.Some?)
  }

  /** Nothing about an order commits before its creation. */
  predicate Starts(w: Writers) {
    w.created.None? ==>
      && w.updated.None? && w.intended.None? && w.released.None? && w.failed.None? && w.delivered.None?
      && w.completed.None? && w.disputed.None? && w.revised.None? && w.session.None?
  }

  /** The orders row: the first creation's terms, the last update's status, and
      each other column from the last call that writes it. */
  ghost predicate ShowsOrder(o: OrderRow, w: Writers)
    requires Kinds(w) && w.created.Some?
  {
    SameTerms(NewOrder(w.created.value.command.p), o) && ShowsStatus(o, w) && ShowsPayment(o, w) && ShowsTimes(o, w)
  }

  ghost predicate ShowsStatus(o: OrderRow, w: Writers)
    requires Kinds(w) && w.created.Some?
  {
    && o.status == (if w.updated.Some? then StatusOf(w.updated.value.command) else "requirements_pending")
    && o.updatedAt == (if w.updated.Some? then w.updated.value.now else w.created.value.command.p.requestedAt)
  }

  ghost predicate ShowsPayment(o: OrderRow, w: Writers)
    requires Kinds(w)
  {
    && o.paymentIntentId == (if w.intended.Some? then Some(w.intended.value.command.intentId) else None)
    && o.paymentReleaseId == (if w.released.Some? && w.released.value.command.releaseId != ""
                              then Some(w.released.value.command.releaseId) else None)
    && o.failureReason == (if w.failed.Some? then Some(w.failed.value.command.reason) else None)
  }

  ghost predicate ShowsTimes(o: OrderRow, w: Writers) {
    && o.deliveredAt == TimeOf(w.delivered) && o.completedAt == TimeOf(w.completed) && o.disputedAt == TimeOf(w.disputed)
    && o.buyerResponseDeadline == None
  }

  /** The other rows: the last call's values under the first one's creation time;
      a revision row takes the time the request gives. */
  ghost predicate ShowsRows(x: Slice, w: Writers)
    requires Kinds(w)
  {
    ShowsSnapshot(x, w) && ShowsSession(x, w) && ShowsDelivery(x, w) && ShowsRevision(x, w) && ShowsDispute(x, w)
  }

  ghost predicate ShowsSnapshot(x: Slice, w: Writers)
    requires Kinds(w)
  {
    x.snapshot == (if w.created.Some? then Some(SnapshotOf(w.recreated.value.command.p, w.created.value.now)) else None)
  }

  ghost predicate ShowsSession(x: Slice, w: Writers)
    requires Kinds(w)
  {
    x.session == (if w.session.Some?
                  then var c := w.session.value;
                       Some(SessionRow(c.command.orderId, c.command.checkoutUrl, w.firstSession.value.now, c.now))
                  else None)
  }

  ghost predicate ShowsDelivery(x: Slice, w: Writers)
    requires Kinds(w)
  {
    x.delivery == (if w.delivered.Some?
                   then var c := w.delivered.value.command;
                        Some(DeliveryRow(c.orderId, c.sellerId, c.message, w.firstDelivered.value.now))
                   else None)
  }

  ghost predicate ShowsRevision(x: Slice, w: Writers)
    requires Kinds(w)
  {
    x.revision == (if w.revised.Some?
                   then var c := w.revised.value.command;
                        Some(RevisionRow(c.orderId, c.buyerId, c.reason, c.requestedAt))
                   else None)
  }

  ghost predicate ShowsDispute(x: Slice, w: Writers)
    requires Kinds(w)
  {
    && (x.dispute.Some? <==> w.disputed.Some?)
    && (x.dispute.Some? ==> w.created.Some?)
    && (x.dispute.Some? ==>
          var c, u := w.disputed.value.command, x.dispute.value;
          && u.orderId == c.orderId && u.initiatorId == c.initiatorId && u.disputeType == c.disputeType && u.reason == c.reason
          && u.initiatorRole == (if Named(c.initiatorId, w.created.value.command.p.buyerId) then "buyer" else "seller")
          && u.buyerId == w.created.value.command.p.buyerId
          && u.createdAt == w.firstDisputed.value.now)
  }

  ghost predicate Shows(x: Slice, w: Writers) {
    && Kinds(w) && Starts(w)
    && (x.order.Some? <==> w.created.Some?)
    && (x.order.Some? ==> ShowsOrder(x.order.value, w))
    && ShowsRows(x, w)
  }

  function Newer(kind: bool, c: Call, before: Option<Call>): Option<Call> {
    if kind then Some(c) else before
  }

  function Older(kind: bool, c: Call, before: Option<Call>): Option<Call> {
    if before.Some? then before else if kind then Some(c) else None
  }

  /** The writers after one more committed call. */
  function Wrote(w: Writers, c: Call): Writers {
    var d := c.command;
    Writers(Older(d.Create?, c, w.created), Newer(d.Create?, c, w.recreated), Newer(UpdatesOrder(d), c, w.updated),
            Newer(Intends(d), c, w.intended), Newer(Releases(d), c, w.released), Newer(Fails(d), c, w.failed),
            Newer(d.SaveDelivery?, c, w.delivered), Newer(d.MarkCompleted?, c, w.completed), Newer(d.OpenDispute?, c, w.disputed),
            Newer(d.RequestRevision?, c, w.revised), Newer(d.SaveSession?, c, w.session),
            Older(d.SaveDelivery?, c, w.firstDelivered), Older(d.OpenDispute?, c, w.firstDisputed), Older(d.SaveSession?, c, w.firstSession))
  }

  lemma WritersAfter(g: seq<Call>, c: Call, id: string)
    ensures WritersOf(g + [c], id)
            == if Target(c.command) == id && Step(Run(g), c).store != Run(g) then Wrote(WritersOf(g, id), c) else WritersOf(g, id)
  {
    hide Run, Step, Target;
    assert (g + [c])[..|g|] == g;
  }

  lemma KindsAfter(w: Writers, c: Call)
    requires Kinds(w)
    ensures Kinds(Wrote(w, c))
  {}

  lemma StartsAfter(x: Slice, w: Writers, c: Call)
    requires Shows(x, w) && Admits(x, c.command)
    ensures Starts(Wrote(w, c))
  {
    hide Kinds, ShowsOrder, ShowsRows;
  }

  lemma TermsAfter(x: Slice, w: Writers, c: Call)
    requires Shows(x, w) && Admits(x, c.command) && Kinds(Wrote(w, c))
    ensures var y := Advance(x, c.command, c.now);
            && (y.order.Some? <==> Wrote(w, c).created.Some?)
            && (y.order.Some? ==> SameTerms(NewOrder(Wrote(w, c).created.value.command.p), y.order.value))
  {
    hide Kinds, ShowsStatus, ShowsPayment, ShowsTimes, ShowsRows, StatusOf;
  }

  lemma StatusAfter(x: Slice, w: Writers, c: Call)
    requires Shows(x, w) && Admits(x, c.command) && Kinds(Wrote(w, c)) && Wrote(w, c).created.Some?
    requires Advance(x, c.command, c.now).order.Some?
    ensures ShowsStatus(Advance(x, c.command, c.now).order.value, Wrote(w, c))
  {
    hide ShowsPayment, ShowsTimes, ShowsRows, SameTerms;
  }

  lemma ChangedPayment(c: Command, o: OrderRow, now: Time)
    requires UpdatesOrder(c)
    ensures var n := Change(c, o, now);
            && n.paymentIntentId == (if Intends(c) then Some(c.intentId) else o.paymentIntentId)
            && n.paymentReleaseId == (if !Releases(c) then o.paymentReleaseId else if c.releaseId != "" then Some(c.releaseId) else None)
            && n.failureReason == (if Fails(c) then Some(c.reason) else o.failureReason)
  {}

  lemma PaymentAfter(x: Slice, w: Writers, c: Call)
    requires Shows(x, w) && Admits(x, c.command) && Kinds(Wrote(w, c))
    requires Advance(x, c.command, c.now).order.Some?
    ensures ShowsPayment(Advance(x, c.command, c.now).order.value, Wrote(w, c))
  {
    hide ShowsStatus, ShowsTimes, ShowsRows, SameTerms, StatusOf, Change, SnapshotOf, DisputeOf;
    if UpdatesOrder(c.command) && x.order.Some? {
      ChangedPayment(c.command, x.order.value, c.now);
    }
  }

  lemma TimesAfter(x: Slice, w: Writers, c: Call)
    requires Shows(x, w) && Admits(x, c.command)
    requires Advance(x, c.command, c.now).order.Some?
    ensures ShowsTimes(Advance(x, c.command, c.now).order.value, Wrote(w, c))
  {
    hide ShowsStatus, ShowsPayment, ShowsRows, SameTerms, StatusOf;
  }

  lemma RowsAfter(x: Slice, w: Writers, c: Call)
    requires Shows(x, w) && Admits(x, c.command) && Kinds(Wrote(w, c))
    ensures var y := Advance(x, c.command, c.now);
            ShowsSnapshot(y, Wrote(w, c)) && ShowsSession(y, Wrote(w, c)) && ShowsRevision(y, Wrote(w, c))
  {
    hide Change, RoleOf, ShowsOrder, ShowsDelivery, ShowsDispute;
  }

  lemma EvidenceAfter(x: Slice, w: Writers, c: Call)
    requires Shows(x, w) && Admits(x, c.command) && Kinds(Wrote(w, c))
    ensures var y := Advance(x, c.command, c.now);
            ShowsDelivery(y, Wrote(w, c))
  {
    hide Change, RoleOf, ShowsOrder, ShowsSnapshot, ShowsSession, ShowsRevision, ShowsDispute;
  }

  lemma DisputeAfter(x: Slice, w: Writers, c: Call)
    requires Shows(x, w) && Admits(x, c.command) && Kinds(Wrote(w, c))
    ensures ShowsDispute(Advance(x, c.command, c.now), Wrote(w, c))
  {
    hide Change, RoleOf, ShowsStatus, ShowsPayment, ShowsTimes, ShowsSnapshot, ShowsSession, ShowsRevision, ShowsDelivery;
    if c.command.OpenDispute? && x.order.Some? {
      RolesTold(c.command.initiatorId, x.order.value.buyerId);
    }
  }

  /** After any history an order's rows show exactly the calls that wrote them;
      an order is stored iff a creation of it committed. */
  lemma {:induction false} RowsShowTheirWriters(h: seq<Call>, id: string)
    ensures Shows(SliceOf(Run(h).tables, id), WritersOf(h, id))
  {
    if h == [] {
      NothingWritten(id);
    } else {
      hide Shows, WritersOf, Advance, Step, SliceOf;
      var g, c := h[..|h| - 1], h[|h| - 1];
      assert h == g + [c];
      RowsShowTheirWriters(g, id);
      RunIsKeyed(g);
      WritersAfter(g, c, id);
      if Target(c.command) != id {
        OtherOrdersUntouched(Run(g), c, id);
      } else {
        StepAdvances(Run(g), c);
        if Step(Run(g), c).store != Run(g) {
          WritersAdvance(SliceOf(Run(g).tables, id), WritersOf(g, id), c);
        }
      }
    }
  }

  lemma WritersAdvance(x: Slice, w: Writers, c: Call)
    requires Shows(x, w) && Admits(x, c.command)
    ensures Shows(Advance(x, c.command, c.now), Wrote(w, c))
  {
    hide Advance, Wrote, Admits, Kinds, Starts, ShowsStatus, ShowsPayment, ShowsTimes, ShowsSnapshot, ShowsSession, ShowsDelivery, ShowsRevision, ShowsDispute;
    KindsAfter(w, c);
    StartsAfter(x, w, c);
    TermsAfter(x, w, c);
    if Advance(x, c.command, c.now).order.Some? {
      StatusAfter(x, w, c);
      PaymentAfter(x, w, c);
      TimesAfter(x, w, c);
    }
    RowsAfter(x, w, c);
    EvidenceAfter(x, w, c);
    DisputeAfter(x, w, c);
  }

  lemma NothingWritten(id: string)
    ensures Shows(SliceOf(Run([]).tables, id), WritersOf([], id))
  {}
}
