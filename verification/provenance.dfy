/** Where cached orders come from, over every interleaving, and what that makes
    of the authorisation check and of the announcements. */
module Provenance {
  import opened Text
  import opened Tables
  import opened Outbox
  import opened Commands
  import opened History
  import opened Lifecycle
  import opened OrderHistory
  import opened ReadModel
  import D = Domain
  import O = OrderCaching

  // ---- provenance ----------------------------------------------------------------

  /** What the cache keeps of an order, without its enrichment. */
  function View(o: D.Order): D.Order {
    O.Projected(o).(pictureFileId := TrimSpace(o.pictureFileId), pictureUrl := "", customer := None, freelancer := None)
  }

  /** The order shows the row and the snapshot, field by field. */
  ghost predicate Tells(o: D.Order, row: OrderRow, s: SnapshotRow) {
    && o.orderId == row.orderId && o.buyerId == row.buyerId && o.sellerId == row.sellerId && o.status == row.status
    && o.paymentIntentId == (if row.paymentIntentId.Some? then row.paymentIntentId.value else "")
    && o.createdAt == row.createdAt && o.updatedAt == row.updatedAt
    && o.sellerUsername == s.sellerUsername && o.gigId == s.gigId && o.gigTitle == s.gigTitle
    && TrimSpace(o.pictureFileId) == TrimSpace(s.pictureFileId) && o.packageId == s.packageId
    && o.packageTier == s.packageTier && o.packageDescription == s.packageDescription
    && o.packageDeliveryDays == s.packageDeliveryDays && o.priceCents == s.priceCents && o.currency == s.currency
  }

  /** Which is what agreeing with the loaded order in the view says. */
  lemma ViewTells(o: D.Order, row: OrderRow, s: SnapshotRow)
    ensures Tells(o, row, s) <==> View(o) == View(D.Loaded(row, s))
  {
    hide TrimSpace;
  }

  /** The order shows the row of version `i` and the snapshot of version `j`. */
  ghost predicate From(h: seq<Call>, o: D.Order, i: nat, j: nat) {
    && i <= j <= |h|
    && o.orderId in Version(h, i).orders && o.orderId in Version(h, j).snapshots
    && Tells(o, Version(h, i).orders[o.orderId], Version(h, j).snapshots[o.orderId])
  }

  /** Its snapshot is no older than the one current when its row was read. */
  ghost predicate Provenanced(h: seq<Call>, o: D.Order) {
    exists i: nat, j: nat :: From(h, o, i, j)
  }

  lemma ProvenanceStays(h: seq<Call>, c: Call, o: D.Order)
    requires Provenanced(h, o)
    ensures Provenanced(h + [c], o)
  {
    hide Version;
    var i: nat, j: nat :| From(h, o, i, j);
    VersionStays(h, c, i);
    VersionStays(h, c, j);
    assert From(h + [c], o, i, j);
  }

  /** What happens to an order on its way keeps its provenance. */
  lemma SameView(h: seq<Call>, o: D.Order, p: D.Order)
    requires Provenanced(h, o) && View(p) == View(o) && p.orderId == o.orderId
    ensures Provenanced(h, p)
  {
    hide Version, View, Tells;
    var i: nat, j: nat :| From(h, o, i, j);
    ViewTells(o, Version(h, i).orders[o.orderId], Version(h, j).snapshots[o.orderId]);
    ViewTells(p, Version(h, i).orders[o.orderId], Version(h, j).snapshots[o.orderId]);
    assert From(h, p, i, j);
  }

  lemma HydrationKeepsView(o: D.Order, e: Enrichment)
    ensures View(Hydrated(o, e)) == View(o)
  {
    TrimIdempotent(IsSpace, o.pictureFileId);
  }

  lemma CachingKeepsView(o: D.Order)
    ensures View(O.Projected(o)) == View(o)
  {}

  /** The stored order a provenanced one stands for. */
  lemma ProvenancedOrderIsStored(h: seq<Call>, o: D.Order)
    requires Provenanced(h, o)
    ensures var t := Run(h).tables;
            && o.orderId in t.orders && o.orderId in t.snapshots
            && o.buyerId == t.orders[o.orderId].buyerId && o.sellerId == t.orders[o.orderId].sellerId
  {
    hide Version;
    var i: nat, j: nat :| From(h, o, i, j);
    OrderStays(h, i, o.orderId);
  }

  // ---- the invariant ---------------------------------------------------------------

  /** The order a request holds. */
  function InHand(stage: Stage): Option<D.Order> {
    match stage
    case Deciding(o) => Some(o)
    case Questioning(o, _) => Some(o)
    case Upserting(o) => Some(o)
    case Publishing(o) => Some(o)
    case Announcing(o) => Some(o)
    case _ => None
  }

  ghost predicate RequestSound(h: seq<Call>, r: Request) {
    && (InHand(r.stage).Some? ==> InHand(r.stage).value.orderId == IdOf(r.job) && Provenanced(h, InHand(r.stage).value))
    && (r.stage.ReadingSnapshot? ==>
          && r.stage.version <= |h| && IdOf(r.job) in Version(h, r.stage.version).orders
          && r.stage.row == Version(h, r.stage.version).orders[IdOf(r.job)])
    && (r.job.Preview? ==> !r.stage.Announcing?)
  }

  ghost predicate Stored(h: seq<Call>, id: string) {
    id in Run(h).tables.orders && id in Run(h).tables.snapshots
  }

  /** Every cached or published order, and every order a request holds, shows
      committed versions of its row and snapshot; what was announced is stored. */
  ghost predicate Traced(w: World) {
    && (forall id :: id in w.cache ==> w.cache[id].orderId == id && Provenanced(w.history, w.cache[id]))
    && (forall o :: o in w.topic ==> Provenanced(w.history, o))
    && (forall r: nat :: r < |w.requests| ==> RequestSound(w.history, w.requests[r]))
    && (forall id :: id in w.successes || id in w.completions ==> Stored(w.history, id))
  }

  lemma StoredStays(h: seq<Call>, c: Call, id: string)
    requires Stored(h, id)
    ensures Stored(h + [c], id)
  {
    LatestVersion(h);
    VersionStays(h, c, |h|);
    OrderStays(h + [c], |h|, id);
  }

  lemma RequestStays(h: seq<Call>, c: Call, r: Request)
    requires RequestSound(h, r)
    ensures RequestSound(h + [c], r)
  {
    hide Version, Provenanced;
    if InHand(r.stage).Some? {
      ProvenanceStays(h, c, InHand(r.stage).value);
    }
    if r.stage.ReadingSnapshot? {
      VersionStays(h, c, r.stage.version);
    }
  }

  /** One more call, whatever it does, leaves everything traced. */
  lemma CallKeepsTraced(w: World, c: Call)
    requires Traced(w)
    ensures Traced(w.(history := w.history + [c]))
  {
    hide Provenanced, RequestSound, Stored;
    forall id | id in w.cache ensures Provenanced(w.history + [c], w.cache[id]) {
      ProvenanceStays(w.history, c, w.cache[id]);
    }
    forall o | o in w.topic ensures Provenanced(w.history + [c], o) {
      ProvenanceStays(w.history, c, o);
    }
    forall r: nat | r < |w.requests| ensures RequestSound(w.history + [c], w.requests[r]) {
      RequestStays(w.history, c, w.requests[r]);
    }
    forall id | id in w.successes || id in w.completions ensures Stored(w.history + [c], id) {
      StoredStays(w.history, c, id);
    }
  }

  lemma TurnKeepsTraced(w: World, r: nat, stage: Stage)
    requires Traced(w) && r < |w.requests| && RequestSound(w.history, w.requests[r].(stage := stage))
    ensures Traced(Turned(w, r, stage))
  {
    hide Provenanced, RequestSound, Stored;
  }

  lemma CacheKeepsTraced(w: World, o: D.Order)
    requires Traced(w) && Provenanced(w.history, o)
    ensures Traced(w.(cache := w.cache[o.orderId := o]))
  {
    hide Provenanced, RequestSound, Stored;
  }

  // ---- one move ----------------------------------------------------------------------

  lemma RowIsCurrent(w: World, r: nat)
    requires Enabled(w, ReadRow(r)) && Traced(w)
    ensures Traced(Next(w, ReadRow(r)))
  {
    hide Provenanced, Stored;
    var id := IdOf(w.requests[r].job);
    LatestVersion(w.history);
    TurnKeepsTraced(w, r, Next(w, ReadRow(r)).requests[r].stage);
  }

  lemma SnapshotCompletes(w: World, r: nat)
    requires Enabled(w, ReadSnapshot(r)) && Traced(w)
    ensures Traced(Next(w, ReadSnapshot(r)))
  {
    var id, h := IdOf(w.requests[r].job), w.history;
    var i, row := w.requests[r].stage.version, w.requests[r].stage.row;
    assert RequestSound(h, w.requests[r]);
    LatestVersion(h);
    RunIsKeyed(h[..i]);
    if id in Current(w).tables.snapshots {
      var o := D.Loaded(row, Current(w).tables.snapshots[id]);
      assert From(h, o, i, |h|);
      LoadedIsSound(h, w.requests[r].job, o);
      TurnKeepsTraced(w, r, WithOrder(w.requests[r].job, o));
    } else {
      TurnKeepsTraced(w, r, Finished(false));
    }
  }

  lemma LoadedIsSound(h: seq<Call>, job: Job, o: D.Order)
    requires Provenanced(h, o) && o.orderId == IdOf(job)
    ensures RequestSound(h, Request(job, WithOrder(job, o)))
  {
    hide Provenanced, Version;
  }

  lemma CommandKeepsTraced(w: World, m: Move)
    requires Enabled(w, m) && Traced(w) && (m.Write? || m.Ask?)
    ensures Traced(Next(w, m))
  {
    hide Provenanced, Stored, Run, Step, Version;
    var t := Next(w, m);
    var c := t.history[|w.history|];
    assert t.history == w.history + [c];
    assert RequestSound(w.history, w.requests[m.r]);
    CallKeepsTraced(w, c);
    var grown := w.(history := w.history + [c]);
    RequestStays(w.history, c, w.requests[m.r]);
    TurnKeepsTraced(grown, m.r, t.requests[m.r].stage);
  }

  lemma LookUpKeepsTraced(w: World, m: Move)
    requires Enabled(w, m) && Traced(w) && m.LookUp?
    ensures Traced(Next(w, m))
  {
    hide Provenanced, Stored, Version, View;
    var id := IdOf(w.requests[m.r].job);
    if m.available && id in w.cache {
      CachingKeepsView(w.cache[id]);
      SameView(w.history, w.cache[id], O.Projected(w.cache[id]));
    }
    TurnKeepsTraced(w, m.r, Next(w, m).requests[m.r].stage);
  }

  lemma UpsertKeepsTraced(w: World, m: Move)
    requires Enabled(w, m) && Traced(w) && m.Upsert?
    ensures Traced(Next(w, m))
  {
    hide Provenanced, Stored, Version, View;
    assert RequestSound(w.history, w.requests[m.r]);
    var o := w.requests[m.r].stage.order;
    var p := Hydrated(o, m.enrichment);
    HydrationKeepsView(o, m.enrichment);
    SameView(w.history, o, p);
    TurnKeepsTraced(w, m.r, Publishing(p));
    CacheKeepsTraced(Turned(w, m.r, Publishing(p)), p);
  }

  lemma PublishKeepsTraced(w: World, m: Move)
    requires Enabled(w, m) && Traced(w) && m.Publish?
    ensures Traced(Next(w, m))
  {
    hide Provenanced, Stored, Version;
    assert RequestSound(w.history, w.requests[m.r]);
    TurnKeepsTraced(w, m.r, Next(w, m).requests[m.r].stage);
  }

  /** What is announced is stored by then. */
  lemma AnnounceKeepsTraced(w: World, m: Move)
    requires Enabled(w, m) && Traced(w) && m.Announce?
    ensures Traced(Next(w, m))
  {
    hide Provenanced, Version;
    assert RequestSound(w.history, w.requests[m.r]);
    ProvenancedOrderIsStored(w.history, w.requests[m.r].stage.order);
    TurnKeepsTraced(w, m.r, Finished(m.acknowledged));
  }

  lemma ArrivalKeepsTraced(w: World, job: Job)
    requires Traced(w)
    ensures Traced(Next(w, Arrive(job)))
  {
    hide Provenanced, Stored, Version;
    assert RequestSound(w.history, Request(job, FirstStage(job)));
  }

  lemma DecisionKeepsTraced(w: World, m: Move)
    requires Enabled(w, m) && Traced(w) && (m.Decide? || m.Abort?)
    ensures Traced(Next(w, m))
  {
    hide Provenanced, Stored, Version;
    assert RequestSound(w.history, w.requests[m.r]);
    TurnKeepsTraced(w, m.r, Next(w, m).requests[m.r].stage);
  }

  lemma ConsumptionKeepsTraced(w: World, o: D.Order)
    requires Enabled(w, Consume(o)) && Traced(w)
    ensures Traced(Next(w, Consume(o)))
  {
    hide Provenanced, Stored, RequestSound;
    CacheKeepsTraced(w, o);
  }

  lemma StepKeepsTraced(w: World, m: Move)
    requires Enabled(w, m) && Traced(w)
    ensures Traced(Next(w, m))
  {
    hide Next, Enabled, Traced;
    match m {
      case Write(_, _, _) => CommandKeepsTraced(w, m);
      case Ask(_, _, _) => CommandKeepsTraced(w, m);
      case LookUp(_, _) => LookUpKeepsTraced(w, m);
      case ReadRow(r) => RowIsCurrent(w, r);
      case ReadSnapshot(r) => SnapshotCompletes(w, r);
      case Upsert(_, _, _) => UpsertKeepsTraced(w, m);
      case Publish(_, _) => PublishKeepsTraced(w, m);
      case Announce(_, _, _) => AnnounceKeepsTraced(w, m);
      case Arrive(job) => ArrivalKeepsTraced(w, job);
      case Consume(o) => ConsumptionKeepsTraced(w, o);
      case _ => DecisionKeepsTraced(w, m);
    }
  }

  // ---- runs ------------------------------------------------------------------------------

  /** In every reachable state each cached order, each published one and each one
      a request holds shows one committed version of its row and one of its
      snapshot, the snapshot no older than the row; every order announced as
      created or recovered is stored with its snapshot. */
  lemma {:induction false} RunsAreTraced(worlds: seq<World>, moves: seq<Move>, n: nat)
    requires IsRun(worlds, moves) && n < |worlds|
    ensures Traced(worlds[n])
  {
    if n > 0 {
      RunsAreTraced(worlds, moves, n - 1);
      StepKeepsTraced(worlds[n - 1], moves[n - 1]);
    }
  }

  lemma AnnouncedOrdersExist(worlds: seq<World>, moves: seq<Move>, n: nat, id: string)
    requires IsRun(worlds, moves) && n < |worlds| && (id in worlds[n].successes || id in worlds[n].completions)
    ensures id in Current(worlds[n]).tables.orders && id in Current(worlds[n]).tables.snapshots
  {
    RunsAreTraced(worlds, moves, n);
  }

  // ---- authorisation -----------------------------------------------------------------------

  /** The order exists and the trimmed user is its buyer or its seller. */
  ghost predicate Allowed(t: Tables, id: string, userId: string) {
    && id in t.orders
    && (t.orders[id].buyerId == TrimSpace(userId) || t.orders[id].sellerId == TrimSpace(userId))
  }

  lemma AllowedStays(h: seq<Call>, c: Call, id: string, userId: string)
    requires Allowed(Run(h).tables, id, userId)
    ensures Allowed(Run(h + [c]).tables, id, userId)
  {
    hide Run;
    LatestVersion(h);
    VersionStays(h, c, |h|);
    OrderStays(h + [c], |h|, id);
  }

  /** The check on any copy of the order gives the answer of the stored order. */
  lemma CopiesDecideAlike(h: seq<Call>, o: D.Order, userId: string)
    requires Provenanced(h, o)
    ensures Grants(o, userId) <==> Allowed(Run(h).tables, o.orderId, userId)
  {
    hide Provenanced, Version, Run;
    ProvenancedOrderIsStored(h, o);
    OrdersAreSound(h, o.orderId);
    UuidIsTrimmed(o.buyerId);
    UuidIsTrimmed(o.sellerId);
  }

  predicate Granted(r: Request) {
    r.stage.Upserting? || r.stage.Publishing? || r.stage == Finished(true)
  }

  predicate Refused(r: Request) {
    r.stage == Finished(false)
  }

  /** Nothing blank names an order or a party. */
  lemma BlankNamesNothing(h: seq<Call>, id: string, userId: string)
    requires Blank(id) || Blank(userId)
    ensures !Allowed(Run(h).tables, TrimSpace(id), userId)
  {
    hide Run, Trim;
    BlankText(id);
    BlankText(userId);
    RunIsWellKeyed(h);
    OrdersAreSound(h, TrimSpace(id));
  }

  /** The moves by which a preview request is answered. */
  predicate Answers(w: World, m: Move, r: nat)
    requires Enabled(w, m)
  {
    && r < |Next(w, m).requests| && Next(w, m).requests[r].job.Preview?
    && (Granted(Next(w, m).requests[r]) || Refused(Next(w, m).requests[r]))
    && (r < |w.requests| ==> !Granted(w.requests[r]) && !Refused(w.requests[r]))
  }

  /** A preview request is granted or refused, unless it is aborted, exactly by
      the stored order at that moment: whatever stale copy the check used. */
  lemma AnswerIsExact(w: World, m: Move, r: nat)
    requires Traced(w) && Enabled(w, m) && Answers(w, m, r) && !m.Abort?
    ensures Next(w, m).history == w.history
    ensures var q := Next(w, m).requests[r];
            Granted(q) <==> Allowed(Current(w).tables, IdOf(q.job), q.job.userId)
  {
    hide Run, Provenanced, Version, Step;
    var q := Next(w, m).requests[r];
    assert r < |w.requests| ==> RequestSound(w.history, w.requests[r]);
    match m {
      case Arrive(job) => BlankNamesNothing(w.history, job.orderId, job.userId);
      case Decide(_) =>
        CopiesDecideAlike(w.history, w.requests[r].stage.order, q.job.userId);
      case ReadRow(_) =>
      case ReadSnapshot(_) => SnapshotIsThere(w, r);
      case _ =>
    }
  }

  lemma SnapshotIsThere(w: World, r: nat)
    requires Traced(w) && Enabled(w, ReadSnapshot(r))
    ensures IdOf(w.requests[r].job) in Current(w).tables.snapshots
  {
    hide Run, Provenanced;
    assert RequestSound(w.history, w.requests[r]);
    OrderStays(w.history, w.requests[r].stage.version, IdOf(w.requests[r].job));
  }

  predicate Answered(r: Request) {
    Granted(r) || Refused(r)
  }

  lemma AnswerStays(w: World, m: Move, r: nat)
    requires Enabled(w, m) && r < |w.requests| && w.requests[r].job.Preview? && Answered(w.requests[r]) && m != Abort(r)
    ensures r < |Next(w, m).requests| && Next(w, m).requests[r].job == w.requests[r].job
    ensures Granted(Next(w, m).requests[r]) == Granted(w.requests[r]) && Answered(Next(w, m).requests[r])
  {
    hide Run, Step;
  }

  /** At state `k` request `r` has just been answered. */
  ghost predicate JustAnswered(worlds: seq<World>, k: nat, r: nat) {
    && 0 < k < |worlds| && r < |worlds[k].requests| && Answered(worlds[k].requests[r])
    && (r < |worlds[k - 1].requests| ==> !Answered(worlds[k - 1].requests[r]))
  }

  /** Over every interleaving of commands, readers' write-backs and late,
      duplicated, reordered or lost projection messages, `GetOrderPreviewByID`
      grants a request that is not aborted exactly when, as it answers, the order
      is stored and the trimmed user is its buyer or its seller; and what it
      grants stays true. */
  lemma {:induction false} AuthorisationIsExact(worlds: seq<World>, moves: seq<Move>, n: nat, r: nat) returns (k: nat)
    requires IsRun(worlds, moves) && n < |worlds| && r < |worlds[n].requests|
    requires worlds[n].requests[r].job.Preview? && Answered(worlds[n].requests[r])
    requires forall j :: 0 <= j < n ==> moves[j] != Abort(r)
    ensures k <= n && JustAnswered(worlds, k, r)
    ensures var q := worlds[n].requests[r];
            && (Granted(q) <==> Allowed(Current(worlds[k]).tables, IdOf(q.job), q.job.userId))
            && (Granted(q) ==> Allowed(Current(worlds[n]).tables, IdOf(q.job), q.job.userId))
  {
    hide Next, Enabled, Run, Allowed;
    var w, m := worlds[n - 1], moves[n - 1];
    if r < |w.requests| {
      JobsStay(w, m, r);
    }
    if r < |w.requests| && Answered(w.requests[r]) {
      k := AuthorisationIsExact(worlds, moves, n - 1, r);
      AnswerStays(w, m, r);
      var c := HistoryGrows(w, m);
      if c.Some? && Granted(w.requests[r]) {
        AllowedStays(w.history, c.value, IdOf(w.requests[r].job), w.requests[r].job.userId);
      }
    } else {
      k := n;
      RunsAreTraced(worlds, moves, n - 1);
      if m.Abort? {
        OnlyAbortedAnswers(w, m, r);
      } else {
        AnswerIsExact(w, m, r);
      }
    }
  }

  lemma HistoryGrows(w: World, m: Move) returns (c: Option<Call>)
    requires Enabled(w, m)
    ensures Next(w, m).history == if c.Some? then w.history + [c.value] else w.history
  {
    hide Run, Step;
    c := if |Next(w, m).history| > |w.history| then Some(Next(w, m).history[|w.history|]) else None;
  }

  lemma JobsStay(w: World, m: Move, r: nat)
    requires Enabled(w, m) && r < |w.requests|
    ensures r < |Next(w, m).requests| && Next(w, m).requests[r].job == w.requests[r].job
  {
    hide Run, Step;
  }

  lemma OnlyAbortedAnswers(w: World, m: Move, r: nat)
    requires Enabled(w, m) && m.Abort? && r < |Next(w, m).requests|
    requires r < |w.requests| ==> !Answered(w.requests[r])
    ensures Answered(Next(w, m).requests[r]) ==> m == Abort(r)
  {
    hide Run, Step;
  }
}
