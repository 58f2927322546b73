/** Requests, the order cache and the preview topic, interleaved: commands write
    and then refresh the projection with what they read back, readers write back
    what they read, and topic messages arrive late, twice, out of order or never. */
module ReadModel {
  import opened Text
  import opened Tables
  import opened Outbox
  import opened Commands
  import opened History
  import opened Lifecycle
  import D = Domain
  import O = OrderCaching

  // ---- requests ----------------------------------------------------------------

  datatype Job =
    | Submit(p: CreateParams)                                           // Create, announced on the result topic
    | Draft(p: CreateParams, questions: seq<QuestionParams>, recovery: bool)  // CreateDraftOrder
    | Mutate(orderId: string, commands: seq<Command>)                   // the other commands
    | Preview(orderId: string, userId: string)                          // GetOrderPreviewByID

  datatype Stage =
    | Writing(k: nat)                             // about to run command k
    | LookingUp                                   // about to read the cache
    | ReadingRow                                  // about to read the orders row
    | ReadingSnapshot(version: nat, row: OrderRow)  // row read at that version of the store
    | Deciding(order: D.Order)                    // about to check the user
    | Questioning(order: D.Order, k: nat)         // about to save question k
    | Upserting(order: D.Order)
    | Publishing(order: D.Order)
    | Announcing(order: D.Order)
    | Finished(ok: bool)

  datatype Request = Request(job: Job, stage: Stage)

  /** The store is what the history of calls left; its version k is what the
      first k calls left. */
  datatype World = World(
    history: seq<Call>,
    cache: map<string, D.Order>,      // last order upserted under each id
    topic: set<D.Order>,              // preview messages ever published
    successes: set<string>,           // order ids of "success" create results
    completions: set<string>,         // order ids of migration.recovery.completed
    requests: seq<Request>)

  const START := World([], map[], {}, {}, {}, [])

  function CommandsOf(job: Job): seq<Command> {
    match job
    case Submit(p) => [Create(p)]
    case Draft(p, _, _) => [Create(p)]
    case Mutate(_, commands) => commands
    case Preview(_, _) => []
  }

  function IdOf(job: Job): string {
    match job
    case Submit(p) => p.orderId
    case Draft(p, _, _) => p.orderId
    case Mutate(id, _) => id
    case Preview(id, _) => TrimSpace(id)
  }

  /** Best-effort enrichment: whatever the file and user services answer. */
  datatype Enrichment = Enrichment(pictureUrl: string, customer: Option<D.User>, freelancer: Option<D.User>)

  /** `hydratePictureURL` and `hydrateParticipants` on the order in place. */
  function Hydrated(o: D.Order, e: Enrichment): D.Order {
    o.(pictureFileId := TrimSpace(o.pictureFileId), pictureUrl := e.pictureUrl, customer := e.customer, freelancer := e.freelancer)
  }

  datatype Move =
    | Arrive(job: Job)
    | Write(r: nat, now: Time, faults: Faults)
    | LookUp(r: nat, available: bool)
    | ReadRow(r: nat)
    | ReadSnapshot(r: nat)
    | Decide(r: nat)
    | Ask(r: nat, now: Time, faults: Faults)
    | Upsert(r: nat, enrichment: Enrichment, stored: bool)
    | Publish(r: nat, sent: bool)
    | Announce(r: nat, sent: bool, acknowledged: bool)
    | Abort(r: nat)
    | Consume(order: D.Order)

  function Current(w: World): Store {
    Run(w.history)
  }

  predicate Enabled(w: World, m: Move) {
    match m
    case Arrive(_) => true
    case Write(r, _, _) => r < |w.requests| && w.requests[r].stage.Writing? && w.requests[r].stage.k < |CommandsOf(w.requests[r].job)|
    case LookUp(r, _) => r < |w.requests| && w.requests[r].stage.LookingUp?
    case ReadRow(r) => r < |w.requests| && w.requests[r].stage.ReadingRow?
    case ReadSnapshot(r) => r < |w.requests| && w.requests[r].stage.ReadingSnapshot?
    case Decide(r) => r < |w.requests| && w.requests[r].stage.Deciding? && w.requests[r].job.Preview?
    case Ask(r, _, _) =>
      && r < |w.requests| && w.requests[r].stage.Questioning? && w.requests[r].job.Draft?
      && w.requests[r].stage.k < |w.requests[r].job.questions|
    case Upsert(r, _, _) => r < |w.requests| && w.requests[r].stage.Upserting?
    case Publish(r, _) => r < |w.requests| && w.requests[r].stage.Publishing?
    case Announce(r, sent, acknowledged) => r < |w.requests| && w.requests[r].stage.Announcing? && (acknowledged ==> sent)
    case Abort(r) => r < |w.requests| && !w.requests[r].stage.Finished?
    case Consume(o) => o in w.topic
  }

  /** Where a request starts. */
  function FirstStage(job: Job): Stage {
    match job
    case Preview(id, user) => if Blank(id) || Blank(user) then Finished(false) else LookingUp
    case _ => AfterWrites(job, 0)
  }

  function AfterWrites(job: Job, k: nat): Stage {
    if k < |CommandsOf(job)| then Writing(k) else ReadingRow
  }

  /** What the request does with the order it read. */
  function WithOrder(job: Job, o: D.Order): Stage {
    match job
    case Draft(_, _, _) => AfterQuestions(job, o, 0)
    case Preview(_, _) => Deciding(o)
    case _ => Upserting(o)
  }

  function AfterQuestions(job: Job, o: D.Order, k: nat): Stage
    requires job.Draft?
  {
    if k < |job.questions| then Questioning(o, k)
    else if job.recovery then Announcing(o)
    else Upserting(o)
  }

  /** The check on the user: buyer or seller, trimmed. */
  predicate Grants(o: D.Order, userId: string) {
    TrimSpace(o.buyerId) == TrimSpace(userId) || TrimSpace(o.sellerId) == TrimSpace(userId)
  }

  function Turned(w: World, r: nat, stage: Stage): World
    requires r < |w.requests|
  {
    w.(requests := w.requests[r := w.requests[r].(stage := stage)])
  }

  function Next(w: World, m: Move): World
    requires Enabled(w, m)
  {
    match m
    case Arrive(job) => w.(requests := w.requests + [Request(job, FirstStage(job))])
    case Write(r, now, faults) =>
      var job, k := w.requests[r].job, w.requests[r].stage.k;
      var call := Call(CommandsOf(job)[k], now, faults);
      var ok := Step(Current(w), call).reply == Success;
      Turned(w, r, if ok then AfterWrites(job, k + 1) else Finished(false)).(history := w.history + [call])
    case LookUp(r, available) =>
      var id := IdOf(w.requests[r].job);
      Turned(w, r, if available && id in w.cache then Deciding(O.Projected(w.cache[id])) else ReadingRow)
    case ReadRow(r) =>
      var id, t := IdOf(w.requests[r].job), Current(w).tables;
      Turned(w, r, if id in t.orders then ReadingSnapshot(|w.history|, t.orders[id]) else Finished(false))
    case ReadSnapshot(r) =>
      var id, t := IdOf(w.requests[r].job), Current(w).tables;
      Turned(w, r, if id in t.snapshots then WithOrder(w.requests[r].job, D.Loaded(w.requests[r].stage.row, t.snapshots[id]))
                   else Finished(false))
    case Decide(r) =>
      var o := w.requests[r].stage.order;
      Turned(w, r, if Grants(o, w.requests[r].job.userId) then Upserting(o) else Finished(false))
    case Ask(r, now, faults) =>
      var job, o, k := w.requests[r].job, w.requests[r].stage.order, w.requests[r].stage.k;
      var call := Call(SaveQuestion(o.orderId, job.questions[k]), now, faults);
      var ok := Step(Current(w), call).reply == Success;
      Turned(w, r, if ok then AfterQuestions(job, o, k + 1) else Finished(false)).(history := w.history + [call])
    case Upsert(r, enrichment, stored) =>
      var o := Hydrated(w.requests[r].stage.order, enrichment);
      Turned(w, r, Publishing(o)).(cache := if stored then w.cache[o.orderId := o] else w.cache)
    case Publish(r, sent) =>
      var o := w.requests[r].stage.order;
      Turned(w, r, if w.requests[r].job.Submit? then Announcing(o) else Finished(true)).(
        topic := if sent then w.topic + {o} else w.topic)
    case Announce(r, sent, acknowledged) =>
      var job, id := w.requests[r].job, IdOf(w.requests[r].job);
      Turned(w, r, Finished(acknowledged)).(
        successes := if sent && job.Submit? then w.successes + {id} else w.successes,
        completions := if sent && job.Draft? then w.completions + {id} else w.completions)
    case Abort(r) => Turned(w, r, Finished(false))
    case Consume(o) => w.(cache := w.cache[o.orderId := o])
  }

  ghost predicate IsRun(worlds: seq<World>, moves: seq<Move>) {
    && |worlds| == |moves| + 1 && worlds[0] == START
    && forall k :: 0 <= k < |moves| ==> Enabled(worlds[k], moves[k]) && worlds[k + 1] == Next(worlds[k], moves[k])
  }
}
