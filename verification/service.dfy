/** The application service over the write repository, the cache and the topics. */
module Application {
  import opened Text
  import opened Tables
  import opened Outbox
  import opened Commands
  import opened History
  import opened Batches
  import D = Domain
  import M = ReadModel
  import P = Postgres
  import R = Redis
  import Q = RequirementsCaching
  import G = DeliveryPage
  import F = DeliveryFiles
  import N = Requirements
  import Ordering

  datatype Error = OrderNotFound | OrderNotOwned | RepositoryFailed | PublishFailed

  function FromRepository(e: P.RepositoryError): Error {
    if e.Absent? then OrderNotFound else RepositoryFailed
  }

  /** `OrderSagaResult` on the create-result topic. */
  datatype CreateResult = CreateResult(sagaId: string, orderId: string, gigId: string, success: bool)

  /** What a request to the cache and to a topic meets. */
  datatype Weather = Weather(cache: Option<Fault>, send: Option<Fault>)

  /** A refused message is not on the topic; a lost acknowledgement leaves it there. */
  function AfterSend<T>(topic: seq<T>, message: T, fault: Option<Fault>): (after: seq<T>)
    ensures topic <= after && (after == topic <==> fault == Some(Refused))
    ensures after != topic ==> after[|topic|..] == [message]
  {
    if fault == Some(Refused) then topic else topic + [message]
  }

  /** The file service and the user service: an answer or an error. */
  datatype Peers = Peers(url: string -> Option<string>, user: string -> Option<D.User>)

  function TrimUser(u: D.User): D.User {
    D.User(TrimSpace(u.userId), TrimSpace(u.username), TrimSpace(u.displayName), TrimSpace(u.avatarUrl))
  }

  /** The user the user service answered, if it did, with every text trimmed. */
  ghost predicate IsUser(known: Option<D.User>, answer: Option<D.User>) {
    && (known.Some? <==> answer.Some?)
    && (answer.Some? ==>
          && known.value.userId == TrimSpace(answer.value.userId) && known.value.username == TrimSpace(answer.value.username)
          && known.value.displayName == TrimSpace(answer.value.displayName)
          && known.value.avatarUrl == TrimSpace(answer.value.avatarUrl))
  }

  /** `hydratePictureURL`: trims both picture fields in place, then fills a blank URL. */
  function WithPicture(o: D.Order, peers: Peers): D.Order {
    var file, url := TrimSpace(o.pictureFileId), TrimSpace(o.pictureUrl);
    var found := if file == "" || url != "" then None else peers.url(file);
    o.(pictureFileId := file, pictureUrl := if found.Some? then TrimSpace(found.value) else url)
  }

  function Participant(id: string, known: Option<D.User>, peers: Peers): Option<D.User> {
    if id == "" || known.Some? || peers.user(id).None? then known else Some(TrimUser(peers.user(id).value))
  }

  /** `hydrateParticipants` */
  function WithParticipants(o: D.Order, peers: Peers): D.Order {
    o.(customer := Participant(o.buyerId, o.customer, peers), freelancer := Participant(o.sellerId, o.freelancer, peers))
  }

  function Hydrated(o: D.Order, peers: Peers): D.Order {
    WithParticipants(WithPicture(o, peers), peers)
  }

  /** Hydration only enriches, so the interleaved model covers it. */
  lemma HydrationIsEnrichment(o: D.Order, peers: Peers)
    ensures exists e :: Hydrated(o, peers) == M.Hydrated(o, e)
  {
    var h := Hydrated(o, peers);
    assert h == M.Hydrated(o, M.Enrichment(h.pictureUrl, h.customer, h.freelancer));
  }

  /** The page a preview request answers with. */
  datatype Preview = Preview(order: D.Order, createdAt: string)

  /** What the database answers to the requirements query of an order. */
  type Database = (Tables, string) -> seq<N.JoinRow>

  ghost predicate Answering(database: Database) {
    forall t, id :: RowsKeyed(t) ==> Ordering.OrderedBy(database(t, id), N.JoinRows(t, id), N.RowKey)
  }

  /** What the database answers to the delivery files query, and whether the two
      delivery queries fail. */
  datatype DeliveryQueries = DeliveryQueries(files: (Tables, string) -> seq<FileRow>, firstFails: bool, secondFails: bool)

  ghost predicate AnsweringFiles(q: DeliveryQueries) {
    forall t, id :: RowsKeyed(t) ==> Ordering.OrderedBy(q.files(t, id), F.FilesOf(t, id), F.FileKey)
  }

  /** The delivery view the tables hold for an order. */
  ghost predicate IsView(t: Tables, id: string, v: F.DeliveryView) {
    && id in t.deliveries && v.orderId == id && v.delivery == t.deliveries[id]
    && F.InOrder(v.files) && forall f :: f in v.files <==> exists x :: (id, x) in t.files && f == t.files[(id, x)]
  }

  lemma StepStaysValid(s: Store, c: Call)
    requires Keyed(s) && WellKeyed(s.tables)
    ensures Keyed(Step(s, c).store) && WellKeyed(Step(s, c).store.tables)
  {
    hide Step;
    var t := Step(s, c).store.tables;
    StepKeepsKeys(s, c);
    StepKeepsRowKeys(s, c);
    CommitsNameUuids(s, c);
    forall id | id in t.orders ensures IsUuid(id) {
      if id !in s.tables.orders && id != Target(c.command) {
        StepAddsTarget(s, c, id);
      }
    }
  }

  lemma {:induction false} AskedStaysValid(s: Store, id: string, questions: seq<QuestionParams>, tries: seq<Try>)
    requires |tries| == |questions| && Keyed(s) && WellKeyed(s.tables)
    ensures Keyed(Asked(s, id, questions, tries).store) && WellKeyed(Asked(s, id, questions, tries).store.tables)
    decreases |questions|
  {
    if questions != [] {
      hide Step;
      var c := Call(SaveQuestion(id, questions[0]), tries[0].now, tries[0].faults);
      StepStaysValid(s, c);
      AskedStaysValid(Step(s, c).store, id, questions[1..], tries[1..]);
    }
  }

  lemma ReadBackId(s: Store, c: Call, trips: P.Reads)
    requires Keyed(s) && c.command.Create? && P.Replied(Step(s, c), c.command.p.orderId, trips).Ok?
    ensures P.Replied(Step(s, c), c.command.p.orderId, trips).value.orderId == c.command.p.orderId
  {
    hide Step;
    StepKeepsKeys(s, c);
  }

  lemma DraftStaysValid(s: Store, p: CreateParams, t: Try, questions: seq<QuestionParams>, tries: seq<Try>)
    requires |tries| == |questions| && Keyed(s) && WellKeyed(s.tables)
    ensures var k := Asked(Step(s, Call(Command.Create(p), t.now, t.faults)).store, p.orderId, questions, tries).store;
            Keyed(k) && WellKeyed(k.tables)
  {
    hide Step;
    StepStaysValid(s, Call(Command.Create(p), t.now, t.faults));
    AskedStaysValid(Step(s, Call(Command.Create(p), t.now, t.faults)).store, p.orderId, questions, tries);
  }

  lemma {:induction false} SavedStaysValid(s: Store, id: string, answers: seq<AnswerParams>, tries: seq<Try>)
    requires |tries| == |answers| && Keyed(s) && WellKeyed(s.tables)
    ensures Keyed(Saved(s, id, answers, tries).store) && WellKeyed(Saved(s, id, answers, tries).store.tables)
    decreases |answers|
  {
    if answers != [] {
      hide Step, P.Replied;
      var c := Call(SaveAnswer(id, answers[0].questionId, answers[0].value), tries[0].now, tries[0].faults);
      StepStaysValid(s, c);
      SavedStaysValid(Step(s, c).store, id, answers[1..], tries[1..]);
    }
  }

  class Service {
    const repo: P.Repository
    const read: R.Repository
    const peers: Peers
    var previews: seq<D.Order>
    var requirements: seq<Q.Requirements>
    var results: seq<CreateResult>
    var deliveries: seq<string>       // order ids on the delivery topic

    constructor (repo: P.Repository, read: R.Repository, peers: Peers)
      ensures this.repo == repo && this.read == read && this.peers == peers
      ensures previews == [] && requirements == [] && results == [] && deliveries == []
    {
      this.repo, this.read, this.peers := repo, read, peers;
      previews, requirements, results, deliveries := [], [], [], [];
    }

    /** The cache entry of an order after a refresh. */
    ghost function CachedAs(o: D.Order, fault: Option<Fault>, before: R.Entries): R.Entries {
      R.AfterSet(before, R.OrderKeyOf(o.orderId), R.O.Encode(R.O.ToCache(read.codec, o)), fault)
    }

    method HydratePictureUrl(order: D.Order) returns (o: D.Order)
      ensures o == WithPicture(order, peers)
      ensures o == order.(pictureFileId := TrimSpace(order.pictureFileId), pictureUrl := o.pictureUrl)
      ensures o.pictureUrl == if Blank(order.pictureFileId) || !Blank(order.pictureUrl) then TrimSpace(order.pictureUrl)
                              else match peers.url(TrimSpace(order.pictureFileId)) case Some(url) => TrimSpace(url) case None => ""
    {
      BlankText(order.pictureFileId);
      BlankText(order.pictureUrl);
      o := order.(pictureFileId := TrimSpace(order.pictureFileId), pictureUrl := TrimSpace(order.pictureUrl));
      if o.pictureFileId == "" || o.pictureUrl != "" {
        return;
      }
      var url := peers.url(o.pictureFileId);
      if url.Some? {
        o := o.(pictureUrl := TrimSpace(url.value));
      }
    }

    method HydrateParticipants(order: D.Order) returns (o: D.Order)
      ensures o == WithParticipants(order, peers)
      ensures o == order.(customer := o.customer, freelancer := o.freelancer)
      ensures if order.buyerId == "" || order.customer.Some? then o.customer == order.customer
              else IsUser(o.customer, peers.user(order.buyerId))
      ensures if order.sellerId == "" || order.freelancer.Some? then o.freelancer == order.freelancer
              else IsUser(o.freelancer, peers.user(order.sellerId))
    {
      o := order;
      if o.buyerId != "" && o.customer.None? {
        var customer := peers.user(o.buyerId);
        if customer.Some? {
          o := o.(customer := Some(TrimUser(customer.value)));
        }
      }
      if o.sellerId != "" && o.freelancer.None? {
        var freelancer := peers.user(o.sellerId);
        if freelancer.Some? {
          o := o.(freelancer := Some(TrimUser(freelancer.value)));
        }
      }
    }

    /** Hydrates, upserts and publishes; a failing cache or topic is only logged. */
    method RefreshOrderProjection(order: D.Order, w: Weather)
      modifies read`entries, this`previews
      ensures read.entries == CachedAs(Hydrated(order, peers), w.cache, old(read.entries))
      ensures previews == AfterSend(old(previews), Hydrated(order, peers), w.send)
    {
      var o := HydratePictureUrl(order);
      o := HydrateParticipants(o);
      var _ := read.Upsert(Some(o), w.cache);
      previews := AfterSend(previews, o, w.send);
    }

    method RefreshRequirements(r: Q.Requirements, w: Weather)
      modifies read`entries, this`requirements
      ensures read.entries == PageCachedAs(r.orderId, r, w.cache, old(read.entries))
      ensures requirements == AfterSend(old(requirements), r, w.send)
    {
      var _ := read.UpsertRequirements(r.orderId, Some(r), w.cache);
      requirements := AfterSend(requirements, r, w.send);
    }

    method PublishCreateResult(result: CreateResult, fault: Option<Fault>) returns (r: Result<(), Error>)
      modifies this`results
      ensures results == AfterSend(old(results), result, fault)
      ensures r.Ok? <==> fault.None?
    {
      results := AfterSend(results, result, fault);
      return if fault.Some? then Err(PublishFailed) else Ok(());
    }

    /** "success" is published only for an order committed and read back; any
        repository error, also one after the commit, is published as "failed". */
    method Create(p: CreateParams, t: Try, w: Weather, announced: Option<Fault>) returns (r: Result<(), Error>)
      modifies repo, read`entries, this`previews, this`results
      ensures var done := Step(old(repo.store), Call(Command.Create(p), t.now, t.faults));
              var order := P.Replied(done, p.orderId, t.trips);
              && repo.store == done.store
              && results == AfterSend(old(results), CreateResult(p.sagaId, p.orderId, TrimSpace(p.gigId), order.Ok?), announced)
              && (r.Ok? <==> announced.None?)
              && (order.Ok? ==>
                    && read.entries == CachedAs(Hydrated(order.value, peers), w.cache, old(read.entries))
                    && previews == AfterSend(old(previews), Hydrated(order.value, peers), w.send))
              && (order.Err? ==> read.entries == old(read.entries) && previews == old(previews))
    {
      var order := repo.Create(p, t.now, t.faults, t.trips);
      if order.Err? {
        r := PublishCreateResult(CreateResult(p.sagaId, p.orderId, TrimSpace(p.gigId), false), announced);
        return;
      }
      RefreshOrderProjection(order.value, w);
      r := PublishCreateResult(CreateResult(p.sagaId, p.orderId, TrimSpace(p.gigId), true), announced);
    }

    /** The methods that send one command and refresh its order: `Confirm`, `Fail`,
        `AttachFile`, `MarkOrderFunded` to `MarkReleaseFailed`, `RequestRevision`
        and `OpenDispute`. */
    method Apply(c: Command, t: Try, w: Weather) returns (r: Result<D.Order, Error>)
      requires !c.Create? && !c.SaveDelivery?
      modifies repo, read`entries, this`previews
      ensures var done := Step(old(repo.store), Call(c, t.now, t.faults));
              var order := P.Replied(done, c.orderId, t.trips);
              && repo.store == done.store
              && r == (if order.Ok? then Ok(order.value) else Err(FromRepository(order.error)))
              && (r == Err(OrderNotFound) <==> order == Err(P.Absent))
              && (order.Ok? ==>
                    && read.entries == CachedAs(Hydrated(order.value, peers), w.cache, old(read.entries))
                    && previews == AfterSend(old(previews), Hydrated(order.value, peers), w.send))
              && (order.Err? ==> read.entries == old(read.entries) && previews == old(previews))
    {
      var order;
      if c.RequestRevision? {
        order := repo.RequestRevision(c, t.now, t.faults, t.trips);
      } else if c.OpenDispute? {
        order := repo.OpenDispute(c, t.now, t.faults, t.trips);
      } else {
        order := repo.Execute(c, t.now, t.faults, t.trips);
      }
      if order.Err? {
        return Err(FromRepository(order.error));
      }
      RefreshOrderProjection(order.value, w);
      return Ok(order.value);
    }

    /** The checkout is begun and its session saved by two commits: an error of
        the second leaves the first. */
    method MarkPaymentPending(id: string, intentId: string, url: string, now: Time, first: Faults, second: Faults,
                              trips: P.Reads, w: Weather)
      returns (r: Result<D.Order, Error>)
      modifies repo, read`entries, this`previews
      ensures var begun := Step(old(repo.store), Call(BeginCheckout(id, intentId), now, first));
              var saved := Step(begun.store, Call(SaveSession(id, url), now, second));
              var order := P.Loading(saved.store.tables, id, trips);
              && repo.store == (if begun.reply == Success then saved.store else begun.store)
              && (r.Ok? <==> begun.reply == Success && saved.reply == Success && order.Ok?)
              && (r.Ok? ==>
                    && r.value == order.value
                    && read.entries == CachedAs(Hydrated(order.value, peers), w.cache, old(read.entries))
                    && previews == AfterSend(old(previews), Hydrated(order.value, peers), w.send))
              && (r.Err? ==> read.entries == old(read.entries) && previews == old(previews))
    {
      hide Step;
      var reply := repo.SaveCheckoutSession(id, intentId, url, now, first, second);
      if reply != Success {
        return Err(if reply == NotFound then OrderNotFound else RepositoryFailed);
      }
      var order := repo.GetById(id, trips);
      if order.Err? {
        return Err(FromRepository(order.error));
      }
      RefreshOrderProjection(order.value, w);
      return Ok(order.value);
    }

    /** The tables are keyed and every order id is a UUID: what histories give. */
    ghost predicate Valid()
      reads repo
    {
      Keyed(repo.store) && WellKeyed(repo.store.tables)
    }

    /** What refreshing both pages of an order leaves, its requirements page only
        if it could be read; either write may fail without the other. */
    ghost predicate PagesRefreshed(t: Tables, order: D.Order, id: string, failed: bool, w: Weather, v: Weather,
                                   before: R.Entries, queued: seq<Q.Requirements>, after: R.Entries, topic: seq<Q.Requirements>)
    {
      var refreshed := CachedAs(Hydrated(order, peers), w.cache, before);
      if failed || !N.HasPage(t, id) then after == refreshed && topic == queued
      else exists p ::
             && N.IsPage(t, id, p) && topic == AfterSend(queued, Q.FromPage(p), v.send)
             && after == PageCachedAs(id, Q.FromPage(p), v.cache, refreshed)
             && (v.cache != Some(Refused) ==> R.HoldsPage(read.codec, after, id, p))
    }

    /** The cache entry of a requirements page after a refresh. */
    ghost function PageCachedAs(id: string, r: Q.Requirements, fault: Option<Fault>, before: R.Entries): R.Entries {
      R.AfterSet(before, R.RequirementsKeyOf(id), Q.Encode(Q.Stored(read.codec, r)), fault)
    }

    /** Refreshes the order, then reads its requirements page and refreshes that. */
    method RefreshPages(order: D.Order, id: string, database: Database, failed: bool, w: Weather, v: Weather)
      returns (r: Result<(), Error>)
      requires Valid() && Answering(database)
      modifies read`entries, this`previews, this`requirements
      ensures previews == AfterSend(old(previews), Hydrated(order, peers), w.send)
      ensures r.Ok? <==> !failed && N.HasPage(repo.store.tables, id)
      ensures PagesRefreshed(repo.store.tables, order, id, failed, w, v,
                             old(read.entries), old(requirements), read.entries, requirements)
    {
      RefreshOrderProjection(order, w);
      StoredIdsAreNotBlank(repo.store.tables, id);
      var page := N.GetRequirementsById(repo.store.tables, id, database(repo.store.tables, id), failed);
      if page.Err? {
        return Err(if page.error.NotFound? then OrderNotFound else RepositoryFailed);
      }
      RefreshRequirements(Q.FromPage(page.value), v);
      if v.cache != Some(Refused) {
        R.PageIsHeld(read.codec, CachedAs(Hydrated(order, peers), w.cache, old(read.entries)), id, page.value, v.cache);
      }
      return Ok(());
    }

    /** Saves the answers one by one; see `Batches.BatchPersistsPrefix` for what a
        batch leaves. The pages are refreshed only if every answer was saved. */
    method SaveRequirementAnswers(id: string, answers: seq<AnswerParams>, tries: seq<Try>, trips: P.Reads,
                                  database: Database, failed: bool, w: Weather, v: Weather)
      returns (r: Result<D.Order, Error>)
      requires |tries| == |answers| && Valid() && Answering(database)
      modifies repo, read`entries, this`previews, this`requirements
      ensures var b := Saved(old(repo.store), id, answers, tries);
              var order := P.Loading(b.store.tables, id, trips);
              && repo.store == b.store
              && (r.Ok? <==> b.ok && order.Ok? && !failed && N.HasPage(b.store.tables, id))
              && (r.Ok? ==> r.value == order.value)
              && (b.ok && order.Ok? ==>
                    && previews == AfterSend(old(previews), Hydrated(order.value, peers), w.send)
                    && PagesRefreshed(b.store.tables, order.value, id, failed, w, v,
                                      old(read.entries), old(requirements), read.entries, requirements))
              && (!b.ok || order.Err? ==>
                    read.entries == old(read.entries) && previews == old(previews) && requirements == old(requirements))
    {
      hide Hydrated, R.AfterSet, N.HasPage;
      ghost var b := Saved(repo.store, id, answers, tries);
      for i := 0 to |answers|
        invariant Saved(repo.store, id, answers[i..], tries[i..]).store == b.store
        invariant Saved(repo.store, id, answers[i..], tries[i..]).ok == b.ok
        invariant read.entries == old(read.entries) && previews == old(previews) && requirements == old(requirements)
      {
        assert answers[i..][0] == answers[i] && answers[i..][1..] == answers[i + 1..];
        assert tries[i..][0] == tries[i] && tries[i..][1..] == tries[i + 1..];
        var saved := repo.Execute(SaveAnswer(id, answers[i].questionId, answers[i].value), tries[i].now, tries[i].faults, tries[i].trips);
        if saved.Err? {
          return Err(FromRepository(saved.error));
        }
      }
      var order := repo.GetById(id, trips);
      if order.Err? {
        return Err(FromRepository(order.error));
      }
      SavedStaysValid(old(repo.store), id, answers, tries);
      var refreshed := RefreshPages(order.value, id, database, failed, w, v);
      return if refreshed.Err? then Err(refreshed.error) else Ok(order.value);
    }

    method SaveBuyerInitialMessage(id: string, message: string, t: Try, database: Database, failed: bool, w: Weather, v: Weather)
      returns (r: Result<D.Order, Error>)
      requires Valid() && Answering(database)
      modifies repo, read`entries, this`previews, this`requirements
      ensures var done := Step(old(repo.store), Call(SaveMessage(id, message), t.now, t.faults));
              var order := P.Replied(done, id, t.trips);
              && repo.store == done.store
              && (r.Ok? <==> order.Ok? && !failed && N.HasPage(done.store.tables, id))
              && (r.Ok? ==> r.value == order.value)
              && (order.Ok? ==>
                    && previews == AfterSend(old(previews), Hydrated(order.value, peers), w.send)
                    && PagesRefreshed(done.store.tables, order.value, id, failed, w, v,
                                      old(read.entries), old(requirements), read.entries, requirements))
              && (order.Err? ==>
                    read.entries == old(read.entries) && previews == old(previews) && requirements == old(requirements))
    {
      hide Step, Hydrated, R.AfterSet, N.HasPage;
      var order := repo.Execute(SaveMessage(id, message), t.now, t.faults, t.trips);
      if order.Err? {
        return Err(FromRepository(order.error));
      }
      StepStaysValid(old(repo.store), Call(SaveMessage(id, message), t.now, t.faults));
      var refreshed := RefreshPages(order.value, id, database, failed, w, v);
      return if refreshed.Err? then Err(refreshed.error) else Ok(order.value);
    }

    /** The order a preview check sees: the cached one, else the stored one. */
    function Seen(id: string, unavailable: bool, trips: P.Reads): Option<D.Order>
      reads repo, read
    {
      var cached := if unavailable then Err(R.Unavailable) else R.OrderAt(read.codec, read.entries, id);
      if cached.Ok? then Some(cached.value)
      else if P.Loading(repo.store.tables, id, trips).Ok? then Some(P.Loading(repo.store.tables, id, trips).value)
      else None
    }

    /** Granted to the buyer or the seller of the order seen, which is written
        back to the cache and the topic; every refusal is a not-found. */
    method GetOrderPreviewById(orderId: string, userId: string, unavailable: bool, trips: P.Reads, w: Weather)
      returns (r: Result<Preview, Error>)
      modifies read`entries, this`previews
      ensures var seen := old(Seen(TrimSpace(orderId), unavailable, trips));
              && (r.Ok? <==> !Blank(orderId) && !Blank(userId) && seen.Some? && M.Grants(seen.value, userId))
              && (r.Err? ==> r.error == OrderNotFound && read.entries == old(read.entries) && previews == old(previews))
              && (r.Ok? ==>
                    && r.value == Preview(Hydrated(seen.value, peers), read.codec.format(seen.value.createdAt))
                    && read.entries == CachedAs(Hydrated(Hydrated(seen.value, peers), peers), w.cache, old(read.entries))
                    && previews == AfterSend(old(previews), Hydrated(Hydrated(seen.value, peers), peers), w.send))
    {
      var id, user := TrimSpace(orderId), TrimSpace(userId);
      BlankText(orderId);
      BlankText(userId);
      if id == "" || user == "" {
        return Err(OrderNotFound);
      }
      var order := read.GetById(id, unavailable);
      var o: D.Order;
      if order.Ok? {
        o := order.value;
      } else {
        var stored := repo.GetById(id, trips);
        if stored.Err? {
          return Err(OrderNotFound);
        }
        o := stored.value;
      }
      if TrimSpace(o.buyerId) != user && TrimSpace(o.sellerId) != user {
        return Err(OrderNotFound);
      }
      o := HydratePictureUrl(o);
      o := HydrateParticipants(o);
      RefreshOrderProjection(o, w);
      return Ok(Preview(o, read.codec.format(o.createdAt)));
    }

    /** Creates the order, saves its questions, and unless told to skip the
        projections refreshes the order and its requirements. */
    method CreateDraftOrder(p: CreateParams, questions: seq<QuestionParams>, skip: bool, t: Try, tries: seq<Try>,
                            database: Database, failed: bool, w: Weather, v: Weather)
      returns (r: Result<D.Order, Error>)
      requires Valid() && |tries| == |questions| && Answering(database)
      modifies repo, read`entries, this`previews, this`requirements
      ensures var done := Step(old(repo.store), Call(Command.Create(p), t.now, t.faults));
              var order := P.Replied(done, p.orderId, t.trips);
              var asked := Asked(done.store, p.orderId, questions, tries);
              && repo.store == (if order.Ok? then asked.store else done.store)
              && (r.Ok? ==> order.Ok? && r.value == order.value && asked.reply == Success)
              && (skip ==> (r.Ok? <==> order.Ok? && asked.reply == Success))
              && (skip || order.Err? || asked.reply != Success ==>
                    read.entries == old(read.entries) && previews == old(previews) && requirements == old(requirements))
              && (!skip && order.Ok? && asked.reply == Success ==>
                    && previews == AfterSend(old(previews), Hydrated(order.value, peers), w.send)
                    && PagesRefreshed(asked.store.tables, order.value, p.orderId, failed, w, v,
                                      old(read.entries), old(requirements), read.entries, requirements))
              && (!skip ==> (r.Ok? <==> order.Ok? && asked.reply == Success && !failed && N.HasPage(repo.store.tables, p.orderId)))
    {
      hide Step, Asked, Hydrated, RowsKeyed, IsUuid, R.AfterSet, N.HasPage;
      var order := repo.Create(p, t.now, t.faults, t.trips);
      if order.Err? {
        return Err(FromRepository(order.error));
      }
      ReadBackId(old(repo.store), Call(Command.Create(p), t.now, t.faults), t.trips);
      var reply := SaveQuestionSnapshots(repo, order.value.orderId, questions, tries);
      if reply != Success {
        return Err(RepositoryFailed);
      }
      if skip {
        return Ok(order.value);
      }
      DraftStaysValid(old(repo.store), p, t, questions, tries);
      var refreshed := RefreshPages(order.value, p.orderId, database, failed, w, v);
      return if refreshed.Err? then Err(refreshed.error) else Ok(order.value);
    }

    /** The order seen is the user's, who is named. */
    ghost predicate Admitted(orderId: string, userId: string, seen: Option<D.Order>) {
      !Blank(orderId) && !Blank(userId) && seen.Some? && M.Grants(seen.value, userId)
    }

    /** The cache after the access check: the order seen, hydrated, is written back. */
    ghost function Accessed(orderId: string, userId: string, seen: Option<D.Order>, w: Weather, before: R.Entries): R.Entries {
      if Admitted(orderId, userId, seen) then CachedAs(Hydrated(Hydrated(seen.value, peers), peers), w.cache, before) else before
    }

    /** Not-found and not-owned are told apart by a second, canonical read. */
    method CheckAccess(orderId: string, userId: string, unavailable: bool, trips: P.Reads, again: P.Reads, w: Weather)
      returns (r: Result<(), Error>)
      modifies read`entries, this`previews
      ensures var seen := old(Seen(TrimSpace(orderId), unavailable, trips));
              && (r.Ok? <==> !Blank(orderId) && !Blank(userId) && seen.Some? && M.Grants(seen.value, userId))
              && (r == Err(OrderNotOwned) <==>
                    !r.Ok? && !Blank(orderId) && !Blank(userId) && P.Loading(repo.store.tables, TrimSpace(orderId), again).Ok?)
              && (r.Err? ==> r.error in {OrderNotFound, OrderNotOwned} && read.entries == old(read.entries) && previews == old(previews))
              && (r.Ok? ==>
                    && read.entries == CachedAs(Hydrated(Hydrated(seen.value, peers), peers), w.cache, old(read.entries))
                    && previews == AfterSend(old(previews), Hydrated(Hydrated(seen.value, peers), peers), w.send))
      ensures forall id :: R.RequirementsAt(read.codec, read.entries, id) == old(R.RequirementsAt(read.codec, read.entries, id))
      ensures forall id :: R.DeliveryAt(read.codec, read.entries, id) == old(R.DeliveryAt(read.codec, read.entries, id))
    {
      var id, user := TrimSpace(orderId), TrimSpace(userId);
      BlankText(orderId);
      BlankText(userId);
      TrimIdempotent(IsSpace, orderId);
      TrimIdempotent(IsSpace, userId);
      BlankText(id);
      BlankText(user);
      if id == "" || user == "" {
        return Err(OrderNotFound);
      }
      var preview := GetOrderPreviewById(id, user, unavailable, trips, w);
      OrderWritesKeepPages(read.codec);
      if preview.Err? {
        var order := repo.GetById(id, again);
        return Err(if order.Err? then OrderNotFound else OrderNotOwned);
      }
      return Ok(());
    }

    /** The page from the cache, or from the database and then cached; which of
        the two does not show, see `RequirementsCaching.CachedPageIsCanonical`. */
    method GetOrderRequirementsById(orderId: string, userId: string, unavailable: bool, trips: P.Reads, again: P.Reads,
                                    cacheDown: bool, database: Database, failed: bool, w: Weather, v: Weather)
      returns (r: Result<Q.Served, Error>)
      requires Valid() && Answering(database)
      modifies read`entries, this`previews, this`requirements
      ensures var id := TrimSpace(orderId);
              var seen := old(Seen(id, unavailable, trips));
              var granted := Admitted(orderId, userId, seen);
              var cached := if cacheDown then Err(R.Unavailable) else old(R.RequirementsAt(read.codec, read.entries, id));
              var accessed := Accessed(orderId, userId, seen, w, old(read.entries));
              && (r.Ok? <==> granted && (cached.Ok? || (!failed && N.HasPage(repo.store.tables, id))))
              && (r.Ok? && cached.Ok? ==>
                    forall p :: D.Faithful(read.codec) && R.PageFits(p) && old(R.HoldsPage(read.codec, read.entries, id, p)) ==>
                      Q.ShowsPage(read.codec, r.value.pairs, r.value.message, p))
              && (r.Ok? && cached.Err? ==>
                    exists p ::
                      && N.IsPage(repo.store.tables, id, p) && Q.ShowsPage(read.codec, r.value.pairs, r.value.message, p)
                      && (v.cache != Some(Refused) ==> R.HoldsPage(read.codec, read.entries, id, p))
                      && requirements == AfterSend(old(requirements), Q.FromPage(p), v.send)
                      && read.entries == PageCachedAs(id, Q.FromPage(p), v.cache, accessed))
              && (r.Err? || cached.Ok? ==> requirements == old(requirements) && read.entries == accessed)
              && (r == Err(OrderNotOwned) <==>
                    !granted && !Blank(orderId) && !Blank(userId) && P.Loading(repo.store.tables, id, again).Ok?)
    {
      hide Hydrated, Q.ShowsPage, N.IsPage, D.Faithful, R.PageFits, R.HoldsPage, M.Grants;
      var access := CheckAccess(orderId, userId, unavailable, trips, again, w);
      if access.Err? {
        return Err(access.error);
      }
      var id := TrimSpace(orderId);
      var cached := read.GetRequirementsById(id, cacheDown);
      if cached.Ok? {
        var served := Q.ToResult(read.codec, cached.value);
        forall p | D.Faithful(read.codec) && R.PageFits(p) && old(R.HoldsPage(read.codec, read.entries, id, p))
          ensures Q.ShowsPage(read.codec, served.pairs, served.message, p)
        {
          R.HeldPageServed(read.codec, old(read.entries), id, p);
        }
        return Ok(served);
      }
      StoredIdsAreNotBlank(repo.store.tables, id);
      var page := N.GetRequirementsById(repo.store.tables, id, database(repo.store.tables, id), failed);
      if page.Err? {
        return Err(OrderNotFound);
      }
      ghost var before := read.entries;
      RefreshRequirements(Q.FromPage(page.value), v);
      if v.cache != Some(Refused) {
        R.PageIsHeld(read.codec, before, id, page.value, v.cache);
      }
      Q.DatabasePageShows(read.codec, page.value);
      var served := Q.ToResult(read.codec, Q.FromPage(page.value));
      return Ok(served);
    }

    /** The delivery page of the database, with URLs resolved. */
    method BuildOrderDeliveryProjection(id: string, q: DeliveryQueries) returns (r: Result<G.Page, Error>)
      requires Valid() && AnsweringFiles(q)
      ensures r.Ok? <==> !q.firstFails && id in repo.store.tables.deliveries && !q.secondFails
      ensures r == Err(OrderNotFound) <==> !q.firstFails && id !in repo.store.tables.deliveries
      ensures r.Ok? ==> exists v :: IsView(repo.store.tables, id, v) && G.ShowsView(read.codec, peers.url, r.value, v)
    {
      var view := F.GetDeliveryById(repo.store.tables, id, q.files(repo.store.tables, id), q.firstFails, q.secondFails);
      if view.Err? {
        return Err(if view.error.Missing? then OrderNotFound else RepositoryFailed);
      }
      var page := G.ToPage(read.codec, peers.url, G.Canonical(view.value));
      G.DatabasePageShows(read.codec, peers.url, view.value);
      assert IsView(repo.store.tables, id, view.value);
      return Ok(page.value);
    }

    /** The cache entry both writers of the delivery page leave. */
    ghost function DeliveryCachedAs(id: string, page: G.Page, fault: Option<Fault>, before: R.Entries): R.Entries {
      R.AfterSet(before, R.DeliveryKeyOf(id), G.Encode(G.CacheOf(read.codec, G.DomainOf(read.codec, id, page))), fault)
    }

    /** The cache holds the stored delivery, if the write was not refused. */
    ghost predicate Holds(id: string, v: F.DeliveryView, fault: Option<Fault>)
      reads read
    {
      D.Faithful(read.codec) && fault != Some(Refused) ==> R.HoldsView(read.codec, peers.url, read.entries, id, v)
    }

    lemma ViewHeld(id: string, page: G.Page, fault: Option<Fault>, before: R.Entries)
      requires read.entries == DeliveryCachedAs(id, page, fault, before)
      ensures forall v :: G.ShowsView(read.codec, peers.url, page, v) ==> Holds(id, v, fault)
    {
      forall v | G.ShowsView(read.codec, peers.url, page, v) && D.Faithful(read.codec) && fault != Some(Refused)
        ensures Holds(id, v, fault)
      {
        R.ViewIsHeld(read.codec, peers.url, before, id, page, v, fault);
      }
    }

    /** The synchronous writer, after a delivery is saved. */
    method RefreshOrderDeliveryProjection(id: string, q: DeliveryQueries, fault: Option<Fault>) returns (page: Result<G.Page, Error>, stored: bool)
      requires Valid() && AnsweringFiles(q)
      modifies read`entries
      ensures page.Ok? ==> read.entries == DeliveryCachedAs(id, page.value, fault, old(read.entries))
      ensures page.Err? ==> read.entries == old(read.entries)
      ensures page.Ok? ==> exists v ::
                && IsView(repo.store.tables, id, v) && G.ShowsView(read.codec, peers.url, page.value, v)
                && Holds(id, v, fault)
      ensures page.Ok? <==> !q.firstFails && id in repo.store.tables.deliveries && !q.secondFails
      ensures stored <==> page.Ok? && fault.None?
    {
      page := BuildOrderDeliveryProjection(id, q);
      if page.Err? {
        return page, false;
      }
      var d := G.ToDomain(read.codec, id, Some(page.value));
      var upserted := read.UpsertDelivery(id, d, fault);
      ViewHeld(id, page.value, fault, old(read.entries));
      return page, upserted.Ok?;
    }

    /** What refreshing an order and then its delivery page leaves, the page only
        if it could be read; either write may fail without the other. */
    ghost predicate DeliveryRefreshed(t: Tables, order: D.Order, q: DeliveryQueries, w: Weather, v: Weather,
                                      before: R.Entries, after: R.Entries)
    {
      var refreshed := CachedAs(Hydrated(order, peers), w.cache, before);
      if q.firstFails || q.secondFails || order.orderId !in t.deliveries then after == refreshed
      else exists page, view ::
             && IsView(t, order.orderId, view) && G.ShowsView(read.codec, peers.url, page, view)
             && after == DeliveryCachedAs(order.orderId, page, v.cache, refreshed)
             && (D.Faithful(read.codec) && v.cache != Some(Refused) ==> R.HoldsView(read.codec, peers.url, after, order.orderId, view))
    }

    /** Once the delivery is committed and read back the call succeeds: refreshing
        the order and the delivery page and announcing it are best effort. */
    method SaveDelivery(c: Command, t: Try, q: DeliveryQueries, w: Weather, v: Weather) returns (r: Result<D.Order, Error>)
      requires c.SaveDelivery? && Valid() && AnsweringFiles(q)
      modifies repo, read`entries, this`previews, this`deliveries
      ensures var done := Step(old(repo.store), Call(c, t.now, t.faults));
              var order := P.Replied(done, c.orderId, t.trips);
              && repo.store == done.store
              && r == (if order.Ok? then Ok(order.value) else Err(FromRepository(order.error)))
              && (order.Ok? ==>
                    && previews == AfterSend(old(previews), Hydrated(order.value, peers), w.send)
                    && deliveries == AfterSend(old(deliveries), order.value.orderId, v.send)
                    && DeliveryRefreshed(done.store.tables, order.value, q, w, v, old(read.entries), read.entries))
              && (order.Err? ==> read.entries == old(read.entries) && previews == old(previews) && deliveries == old(deliveries))
    {
      hide Step, Hydrated, R.AfterSet;
      var order := repo.SaveDelivery(c, t.now, t.faults, t.trips);
      if order.Err? {
        return Err(FromRepository(order.error));
      }
      RefreshOrderProjection(order.value, w);
      StepStaysValid(old(repo.store), Call(c, t.now, t.faults));
      var _, _ := RefreshOrderDeliveryProjection(order.value.orderId, q, v.cache);
      deliveries := AfterSend(deliveries, order.value.orderId, v.send);
      return Ok(order.value);
    }

    /** The page from the cache, or from the database and then cached and
        announced on the delivery topic. A cached document without a head is
        answered as no page and no error. */
    method GetOrderDeliveryById(orderId: string, userId: string, unavailable: bool, trips: P.Reads, again: P.Reads,
                                cacheDown: bool, q: DeliveryQueries, w: Weather, v: Weather)
      returns (r: Result<Option<G.Page>, Error>)
      requires Valid() && AnsweringFiles(q)
      modifies read`entries, this`previews, this`deliveries
      ensures var id := TrimSpace(orderId);
              var seen := old(Seen(id, unavailable, trips));
              var granted := Admitted(orderId, userId, seen);
              var cached := if cacheDown then Err(R.Unavailable) else old(R.DeliveryAt(read.codec, read.entries, id));
              var t := repo.store.tables;
              var accessed := Accessed(orderId, userId, seen, w, old(read.entries));
              && (r.Ok? <==> granted && (cached.Ok? || (!q.firstFails && id in t.deliveries && !q.secondFails)))
              && (r.Ok? && cached.Ok? ==> r.value == G.PageOf(read.codec, peers.url, cached.value))
              && (r.Ok? && cached.Ok? ==>
                    forall view :: D.Faithful(read.codec) && R.ViewFits(view) && old(R.HoldsView(read.codec, peers.url, read.entries, id, view)) ==>
                      r.value.Some? && G.ShowsCachedView(read.codec, peers.url, r.value.value, view))
              && (r.Ok? && cached.Err? ==>
                    && r.value.Some? && deliveries == AfterSend(old(deliveries), id, v.send)
                    && (exists view :: IsView(t, id, view) && G.ShowsView(read.codec, peers.url, r.value.value, view) && Holds(id, view, v.cache))
                    && read.entries == DeliveryCachedAs(id, r.value.value, v.cache, accessed))
              && (r.Err? || cached.Ok? ==>
                    deliveries == old(deliveries) && read.entries == accessed)
    {
      hide Hydrated, G.ShowsView, G.ShowsCachedView, IsView, D.Faithful, R.ViewFits, R.HoldsView, M.Grants;
      var access := CheckAccess(orderId, userId, unavailable, trips, again, w);
      if access.Err? {
        return Err(access.error);
      }
      var id := TrimSpace(orderId);
      var cached := read.GetDeliveryById(id, cacheDown);
      if cached.Ok? {
        var page := G.ToPage(read.codec, peers.url, cached.value);
        forall view | D.Faithful(read.codec) && R.ViewFits(view) && old(R.HoldsView(read.codec, peers.url, read.entries, id, view))
          ensures page.Some? && G.ShowsCachedView(read.codec, peers.url, page.value, view)
        {
          R.HeldViewServed(read.codec, peers.url, old(read.entries), id, view);
        }
        return Ok(page);
      }
      var built := BuildOrderDeliveryProjection(id, q);
      if built.Err? {
        return Err(built.error);
      }
      var d := G.ToDomain(read.codec, id, Some(built.value));
      ghost var before := read.entries;
      var _ := read.UpsertDelivery(id, d, v.cache);
      ViewHeld(id, built.value, v.cache, before);
      deliveries := AfterSend(deliveries, id, v.send);
      return Ok(Some(built.value));
    }
  }

  lemma StoredIdsAreNotBlank(t: Tables, id: string)
    requires WellKeyed(t)
    ensures id in t.orders ==> !Blank(id)
  {
    if id in t.orders {
      UuidIsTrimmed(id);
      BlankText(id);
    }
  }

  /** Writing an order leaves the other cached documents as they read. */
  lemma OrderWritesKeepPages(c: D.Codec)
    ensures forall e, key, raw, fault, id :: R.RequirementsAt(c, R.AfterSet(e, R.OrderKeyOf(key), raw, fault), id) == R.RequirementsAt(c, e, id)
    ensures forall e, key, raw, fault, id :: R.DeliveryAt(c, R.AfterSet(e, R.OrderKeyOf(key), raw, fault), id) == R.DeliveryAt(c, e, id)
  {
    forall e, key, raw, fault, id
      ensures R.RequirementsAt(c, R.AfterSet(e, R.OrderKeyOf(key), raw, fault), id) == R.RequirementsAt(c, e, id)
      ensures R.DeliveryAt(c, R.AfterSet(e, R.OrderKeyOf(key), raw, fault), id) == R.DeliveryAt(c, e, id)
    {
      R.KeysAreDistinct(key, id);
    }
  }
}
