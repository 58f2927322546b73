/** Commands one after the other over a FIFO preview topic: once the topic is
    drained the cache shows the database. */
module Drain {
  import opened Text
  import opened Tables
  import opened Outbox
  import opened Commands
  import opened History
  import opened Lifecycle
  import opened OrderHistory
  import opened Provenance
  import D = Domain
  import O = OrderCaching
  import M = ReadModel

  /** The store, the cache, the messages still queued, and the orders that have
      copies and whose page a job changed without publishing it. */
  datatype Line = Line(history: seq<Call>, cache: map<string, D.Order>, queue: seq<D.Order>, stale: set<string>)

  const IDLE := Line([], map[], [], {})

  datatype Move =
    | Do(job: M.Job, calls: seq<Call>, readable: bool, enrichment: M.Enrichment)
    | Look(orderId: string, userId: string, enrichment: M.Enrichment)
    | Deliver

  /** The commands of a job in order: what precedes the read-back, and the
      question snapshots a draft saves after it. */
  function Before(job: M.Job): seq<Command> {
    M.CommandsOf(job)
  }

  function After(job: M.Job): seq<Command> {
    if job.Draft?
    then seq(|job.questions|, i requires 0 <= i < |job.questions| => SaveQuestion(job.p.orderId, job.questions[i]))
    else []
  }

  function CommandsIn(calls: seq<Call>): seq<Command> {
    seq(|calls|, i requires 0 <= i < |calls| => calls[i].command)
  }

  /** Every command of the job is about its order. */
  ghost predicate Aimed(job: M.Job) {
    job.Mutate? ==> forall c :: c in job.commands ==> Target(c) == job.orderId
  }

  /** The calls up to the first that does not succeed. */
  ghost function Sent(h: seq<Call>, calls: seq<Call>): (sent: nat)
    ensures sent <= |calls|
    decreases |calls|
  {
    if calls == [] then 0
    else if Step(Run(h), calls[0]).reply != Success then 1
    else 1 + Sent(h + [calls[0]], calls[1..])
  }

  ghost predicate AllSucceed(h: seq<Call>, calls: seq<Call>)
    decreases |calls|
  {
    calls == [] || (Step(Run(h), calls[0]).reply == Success && AllSucceed(h + [calls[0]], calls[1..]))
  }

  /** The order as `GetByID` returns it with nothing in between. */
  ghost function Read(t: Tables, id: string): Option<D.Order> {
    if id in t.orders && id in t.snapshots then Some(D.Loaded(t.orders[id], t.snapshots[id])) else None
  }

  /** The page of an order in the database. */
  ghost function Page(t: Tables, id: string): Option<D.Order> {
    if Read(t, id).Some? then Some(View(Read(t, id).value)) else None
  }

  /** What became of a job: the history it leaves and the order it refreshes. */
  datatype Done = Done(history: seq<Call>, refreshed: Option<D.Order>)

  /** The calls before the order is read back, and those after. */
  function First(m: Move): seq<Call>
    requires m.Do?
  {
    if |Before(m.job)| <= |m.calls| then m.calls[..|Before(m.job)|] else m.calls
  }

  function Second(m: Move): seq<Call>
    requires m.Do?
  {
    if |Before(m.job)| <= |m.calls| then m.calls[|Before(m.job)|..] else []
  }

  ghost function Performed(h: seq<Call>, m: Move): Done
    requires m.Do?
  {
    var first, last := First(m), Second(m);
    if !AllSucceed(h, first) then Done(h + first[..Sent(h, first)], None)
    else
      var h1 := h + first;
      var o := Read(Run(h1).tables, M.IdOf(m.job));
      if !m.readable || o.None? then Done(h1, None)
      else if !AllSucceed(h1, last) then Done(h1 + last[..Sent(h1, last)], None)
      else Done(h1 + last, if m.job.Draft? && m.job.recovery then None else o)
  }

  /** The newest copy of an order: the last one queued, else the cached one. */
  function Newest(cache: map<string, D.Order>, queue: seq<D.Order>, id: string): Option<D.Order> {
    if queue == [] then (if id in cache then Some(cache[id]) else None)
    else if queue[|queue| - 1].orderId == id then Some(queue[|queue| - 1])
    else Newest(cache, queue[..|queue| - 1], id)
  }

  /** No copy of the order is queued. */
  predicate Quiet(l: Line, id: string) {
    forall o :: o in l.queue ==> o.orderId != id
  }

  /** A reader finds the order uncached or as its newest copy shows it. */
  ghost predicate Shown(l: Line, id: string) {
    id in l.cache && id !in l.stale ==>
      Newest(l.cache, l.queue, id).Some? && View(l.cache[id]) == View(Newest(l.cache, l.queue, id).value)
  }

  ghost predicate Enabled(l: Line, m: Move) {
    match m
    case Do(job, calls, _, _) => Aimed(job) && !job.Preview? && CommandsIn(calls) == Before(job) + After(job)
    case Look(id, _, _) => Shown(l, TrimSpace(id))
    case Deliver => l.queue != []
  }

  /** Upsert and publish, both done. */
  function Refresh(l: Line, o: D.Order, e: M.Enrichment): Line {
    var p := M.Hydrated(o, e);
    l.(cache := l.cache[p.orderId := p], queue := l.queue + [p])
  }

  lemma CallsCover(l: Line, m: Move)
    requires m.Do? && Enabled(l, m)
    ensures |m.calls| == |Before(m.job)| + |After(m.job)|
  {
    assert |CommandsIn(m.calls)| == |m.calls|;
  }

  /** The job refreshes the order. */
  ghost predicate Refreshes(l: Line, m: Move, id: string)
    requires Enabled(l, m)
  {
    m.Do? && M.IdOf(m.job) == id
    && Performed(l.history, m).refreshed.Some?
  }

  /** The job changes the page of an order there are copies of, without refreshing it. */
  ghost predicate Leaves(l: Line, m: Move, id: string)
    requires Enabled(l, m)
  {
    m.Do? && M.IdOf(m.job) == id && !Refreshes(l, m, id) && Newest(l.cache, l.queue, id).Some?
    && Page(Run(Performed(l.history, m).history).tables, id) != Page(Run(l.history).tables, id)
  }

  /** What a reader leaves, whatever it finds. */
  ghost function Looked(l: Line, orderId: string, userId: string, e: M.Enrichment): Line {
    var id := TrimSpace(orderId);
    var o := if id in l.cache then Some(O.Projected(l.cache[id])) else Read(Run(l.history).tables, id);
    if !Blank(orderId) && !Blank(userId) && o.Some? && M.Grants(o.value, userId) then Refresh(l, o.value, e) else l
  }

  ghost function Next(l: Line, m: Move): Line
    requires Enabled(l, m)
  {
    match m
    case Do(job, calls, _, e) =>
      var id, d := M.IdOf(job), Performed(l.history, m);
      var k := l.(history := d.history);
      if d.refreshed.Some? then Refresh(k, d.refreshed.value, e).(stale := l.stale - {id})
      else if Leaves(l, m, id) then k.(stale := l.stale + {id})
      else k
    case Look(orderId, userId, e) => Looked(l, orderId, userId, e)
    case Deliver => l.(cache := l.cache[l.queue[0].orderId := l.queue[0]], queue := l.queue[1..])
  }

  ghost predicate IsRun(lines: seq<Line>, moves: seq<Move>) {
    && |lines| == |moves| + 1 && lines[0] == IDLE
    && forall k :: 0 <= k < |moves| ==> Enabled(lines[k], moves[k]) && lines[k + 1] == Next(lines[k], moves[k])
  }

  // ---- the invariant ---------------------------------------------------------------

  /** The newest copy of every order that is not stale shows its page. */
  ghost predicate InStep(l: Line) {
    && (forall id :: id in l.cache ==> l.cache[id].orderId == id)
    && forall id :: id !in l.stale && Newest(l.cache, l.queue, id).Some? ==>
         Page(Run(l.history).tables, id) == Some(View(Newest(l.cache, l.queue, id).value))
  }

  lemma {:induction false} DeliveryKeepsNewest(cache: map<string, D.Order>, queue: seq<D.Order>, id: string)
    requires queue != []
    ensures Newest(cache[queue[0].orderId := queue[0]], queue[1..], id) == Newest(cache, queue, id)
  {
    var n := |queue| - 1;
    if n == 0 {
      assert queue[..n] == [] && queue[1..] == [];
    } else {
      assert queue[1..][..n - 1] == queue[..n][1..];
      assert queue[1..][n - 1] == queue[n];
      DeliveryKeepsNewest(cache, queue[..n], id);
    }
  }

  lemma {:induction false} QueuedIsNewest(cache: map<string, D.Order>, other: map<string, D.Order>, queue: seq<D.Order>, id: string)
    requires id in cache <==> id in other
    requires id in cache ==> cache[id] == other[id]
    ensures Newest(cache, queue, id) == Newest(other, queue, id)
  {
    if queue != [] {
      QueuedIsNewest(cache, other, queue[..|queue| - 1], id);
    }
  }

  lemma {:induction false} QuietIsCached(cache: map<string, D.Order>, queue: seq<D.Order>, id: string)
    requires forall o :: o in queue ==> o.orderId != id
    ensures Newest(cache, queue, id) == if id in cache then Some(cache[id]) else None
  {
    if queue != [] {
      assert queue[|queue| - 1] in queue;
      QuietIsCached(cache, queue[..|queue| - 1], id);
    }
  }

  /** A refresh makes its order the newest copy and no other. */
  lemma RefreshedIsNewest(l: Line, o: D.Order, e: M.Enrichment, id: string)
    ensures var k := Refresh(l, o, e);
            Newest(k.cache, k.queue, id) == if id == o.orderId then Some(M.Hydrated(o, e)) else Newest(l.cache, l.queue, id)
  {
    var k := Refresh(l, o, e);
    assert k.queue[..|k.queue| - 1] == l.queue;
    if id != o.orderId {
      QueuedIsNewest(k.cache, l.cache, l.queue, id);
    }
  }

  // ---- one move ----------------------------------------------------------------------

  /** A command that cannot change the order's rows on the page. */
  predicate Harmless(c: Command, id: string) {
    Target(c) != id || c.SaveQuestion?
  }

  lemma HarmlessCall(s: Store, c: Call, id: string)
    requires Keyed(s) && Harmless(c.command, id)
    ensures SliceOf(Step(s, c).store.tables, id) == SliceOf(s.tables, id)
  {
    if Target(c.command) != id {
      OtherOrdersUntouched(s, c, id);
    } else {
      StepAdvances(s, c);
    }
  }

  lemma {:induction false} HarmlessCalls(h: seq<Call>, calls: seq<Call>, id: string)
    requires forall c :: c in calls ==> Harmless(c.command, id)
    ensures Page(Run(h + calls).tables, id) == Page(Run(h).tables, id)
    decreases |calls|
  {
    hide Step, Page, SliceOf;
    if calls == [] {
      assert h + calls == h;
    } else {
      var front, c := calls[..|calls| - 1], calls[|calls| - 1];
      HarmlessCalls(h, front, id);
      RunIsKeyed(h + front);
      HarmlessCall(Run(h + front), c, id);
      LastCall(h + front, c);
      assert h + calls == (h + front) + [c];
      SamePage(Run(h + front).tables, Run(h + calls).tables, id);
    }
  }

  lemma LastCall(h: seq<Call>, c: Call)
    ensures Run(h + [c]) == Step(Run(h), c).store
  {
    assert (h + [c])[..|h|] == h;
  }

  lemma SamePage(t: Tables, t': Tables, id: string)
    requires SliceOf(t, id) == SliceOf(t', id)
    ensures Page(t, id) == Page(t', id)
  {}

  /** The calls a job sent are a prefix of its calls. */
  lemma PerformedPrefix(l: Line, m: Move) returns (n: nat)
    requires m.Do? && Enabled(l, m)
    ensures n <= |m.calls| && Performed(l.history, m).history == l.history + m.calls[..n]
  {
    hide Run, Step, Read, AllSucceed, M.CommandsOf;
    CallsCover(l, m);
    var b := |Before(m.job)|;
    var first, last := m.calls[..b], m.calls[b..];
    var h1 := l.history + first;
    if !AllSucceed(l.history, first) {
      n := Sent(l.history, first);
      assert first[..n] == m.calls[..n];
    } else if !m.readable || Read(Run(h1).tables, M.IdOf(m.job)).None? {
      n := b;
    } else if !AllSucceed(h1, last) {
      n := b + Sent(h1, last);
      assert h1 + last[..Sent(h1, last)] == l.history + m.calls[..n];
    } else {
      n := |m.calls|;
      assert h1 + last == l.history + m.calls[..n];
    }
  }

  lemma JobCallsAim(l: Line, m: Move, k: nat)
    requires m.Do? && Enabled(l, m) && k < |m.calls|
    ensures Target(m.calls[k].command) == M.IdOf(m.job)
    ensures |Before(m.job)| <= k ==> m.calls[k].command.SaveQuestion?
  {
    var all := Before(m.job) + After(m.job);
    assert CommandsIn(m.calls)[k] == all[k];
    if k < |Before(m.job)| {
      assert all[k] in Before(m.job);
    }
  }

  lemma OtherPagesStay(l: Line, m: Move, id: string)
    requires m.Do? && Enabled(l, m) && id != M.IdOf(m.job)
    ensures Page(Run(Performed(l.history, m).history).tables, id) == Page(Run(l.history).tables, id)
  {
    hide Run, Page, Performed, Enabled;
    var n := PerformedPrefix(l, m);
    forall c | c in m.calls[..n] ensures Harmless(c.command, id) {
      var k :| 0 <= k < n && m.calls[k] == c;
      JobCallsAim(l, m, k);
    }
    HarmlessCalls(l.history, m.calls[..n], id);
  }

  /** The order a job refreshes is the one its calls left. */
  lemma RefreshShowsPage(l: Line, m: Move)
    requires m.Do? && Enabled(l, m) && Performed(l.history, m).refreshed.Some?
    ensures var d := Performed(l.history, m);
            && d.refreshed.value.orderId == M.IdOf(m.job)
            && Page(Run(d.history).tables, M.IdOf(m.job)) == Some(View(d.refreshed.value))
  {
    hide Run, View, Step, AllSucceed, M.CommandsOf;
    var b := |Before(m.job)|;
    var h1, last := l.history + m.calls[..b], m.calls[b..];
    RunIsKeyed(h1);
    forall c | c in last ensures c.command.SaveQuestion? {
      var k :| 0 <= k < |last| && last[k] == c;
      JobCallsAim(l, m, b + k);
    }
    HarmlessCalls(h1, last, M.IdOf(m.job));
  }

  lemma DoKeepsInStep(l: Line, m: Move)
    requires m.Do? && Enabled(l, m) && InStep(l)
    ensures InStep(Next(l, m))
  {
    hide Run, Page, View, Performed, Enabled, M.Hydrated;
    var k, d, o := Next(l, m), Performed(l.history, m), M.IdOf(m.job);
    if d.refreshed.Some? {
      RefreshShowsPage(l, m);
      HydrationKeepsId(d.refreshed.value, m.enrichment);
      HydrationKeepsView(d.refreshed.value, m.enrichment);
    }
    forall id | id !in k.stale && Newest(k.cache, k.queue, id).Some?
      ensures Page(Run(k.history).tables, id) == Some(View(Newest(k.cache, k.queue, id).value))
    {
      if d.refreshed.Some? {
        RefreshedIsNewest(l.(history := d.history), d.refreshed.value, m.enrichment, id);
      }
      if id != o {
        OtherPagesStay(l, m, id);
      }
    }
  }

  lemma HydrationKeepsId(o: D.Order, e: M.Enrichment)
    ensures M.Hydrated(o, e).orderId == o.orderId
  {}

  lemma LookKeepsInStep(l: Line, m: Move)
    requires m.Look? && Enabled(l, m) && InStep(l)
    ensures InStep(Next(l, m))
  {
    hide Run, View, M.Hydrated, M.Grants;
    var id := TrimSpace(m.orderId);
    var k := Next(l, m);
    if k != l {
      var o := if id in l.cache then O.Projected(l.cache[id]) else Read(Run(l.history).tables, id).value;
      RunIsKeyed(l.history);
      HydrationKeepsId(o, m.enrichment);
      HydrationKeepsView(o, m.enrichment);
      if id in l.cache {
        CachingKeepsView(l.cache[id]);
      }
      forall i | i !in k.stale && Newest(k.cache, k.queue, i).Some?
        ensures Page(Run(k.history).tables, i) == Some(View(Newest(k.cache, k.queue, i).value))
      {
        RefreshedIsNewest(l, o, m.enrichment, i);
      }
    }
  }

  lemma DeliverKeepsInStep(l: Line)
    requires Enabled(l, Deliver) && InStep(l)
    ensures InStep(Next(l, Deliver))
  {
    hide Run, Page, View;
    var k := Next(l, Deliver);
    forall id | id !in k.stale && Newest(k.cache, k.queue, id).Some?
      ensures Page(Run(k.history).tables, id) == Some(View(Newest(k.cache, k.queue, id).value))
    {
      DeliveryKeepsNewest(l.cache, l.queue, id);
    }
  }

  // ---- runs ----------------------------------------------------------------------------

  lemma {:induction false} RunsStayInStep(lines: seq<Line>, moves: seq<Move>, n: nat)
    requires IsRun(lines, moves) && n < |lines|
    ensures InStep(lines[n])
  {
    if n > 0 {
      hide Next, Enabled, InStep;
      RunsStayInStep(lines, moves, n - 1);
      match moves[n - 1] {
        case Do(_, _, _, _) => DoKeepsInStep(lines[n - 1], moves[n - 1]);
        case Look(_, _, _) => LookKeepsInStep(lines[n - 1], moves[n - 1]);
        case Deliver => DeliverKeepsInStep(lines[n - 1]);
      }
    } else {
      NothingInStep();
    }
  }

  lemma NothingInStep()
    ensures InStep(IDLE)
  {}

  /** A move makes an order stale by leaving it, and fresh by refreshing it. */
  lemma StaleAfter(l: Line, m: Move, id: string)
    requires Enabled(l, m)
    ensures id in Next(l, m).stale <==> Leaves(l, m, id) || (id in l.stale && !Refreshes(l, m, id))
  {
    hide Run, Page, Performed, Newest, Shown, Enabled;
  }

  /** A stale order was left by a job, and no later one refreshed it. */
  lemma {:induction false} StaleOrdersWereLeft(lines: seq<Line>, moves: seq<Move>, n: nat, id: string) returns (k: nat)
    requires IsRun(lines, moves) && n < |lines| && id in lines[n].stale
    ensures k < n && Leaves(lines[k], moves[k], id)
    ensures forall j :: k < j < n ==> !Refreshes(lines[j], moves[j], id)
  {
    hide Next, Enabled, Leaves, Refreshes;
    StaleAfter(lines[n - 1], moves[n - 1], id);
    if Leaves(lines[n - 1], moves[n - 1], id) {
      k := n - 1;
    } else {
      k := StaleOrdersWereLeft(lines, moves, n - 1, id);
    }
  }

  /** Every job that left the order was followed by one that refreshed it. */
  ghost predicate EveryChangeRefreshed(lines: seq<Line>, moves: seq<Move>, id: string)
    requires IsRun(lines, moves)
  {
    forall k :: 0 <= k < |moves| && Leaves(lines[k], moves[k], id) ==>
      exists j :: k < j < |moves| && Refreshes(lines[j], moves[j], id)
  }

  /** Once the topic is drained a cached order shows its page in the database, if
      every job that changed the page without refreshing it was followed by one
      that did. */
  lemma DrainedCacheConverges(lines: seq<Line>, moves: seq<Move>, id: string)
    requires IsRun(lines, moves) && EveryChangeRefreshed(lines, moves, id)
    requires lines[|moves|].queue == [] && id in lines[|moves|].cache
    ensures var l := lines[|moves|]; Page(Run(l.history).tables, id) == Some(View(l.cache[id])) && ShowsRows(l, id)
  {
    hide Run, Page, View, Next, Enabled, Leaves, Refreshes;
    RunsStayInStep(lines, moves, |moves|);
    if id in lines[|moves|].stale {
      var k := StaleOrdersWereLeft(lines, moves, |moves|, id);
    }
    PageShowsRows(lines[|moves|], id);
  }

  /** The cached order shows the row and the snapshot the database holds now. */
  ghost predicate ShowsRows(l: Line, id: string)
    requires id in l.cache
  {
    var t := Run(l.history).tables;
    id in t.orders && id in t.snapshots && Tells(l.cache[id], t.orders[id], t.snapshots[id])
  }

  lemma PageShowsRows(l: Line, id: string)
    requires id in l.cache && Page(Run(l.history).tables, id) == Some(View(l.cache[id]))
    ensures ShowsRows(l, id)
  {
    hide Run, View, Tells;
    ViewTells(l.cache[id], Run(l.history).tables.orders[id], Run(l.history).tables.snapshots[id]);
  }

  // ---- which jobs leave an order -----------------------------------------------------------

  lemma PagesPersist(h: seq<Call>, n: nat, id: string)
    requires n <= |h| && Page(Run(h[..n]).tables, id).Some?
    ensures Page(Run(h).tables, id).Some?
  {
    OrderStays(h, n, id);
  }

  /** A job leaves its order only if it is a recovery, which skips the projection,
      or its read-back failed, or one of its calls did. */
  lemma OnlyFailuresLeave(l: Line, m: Move)
    requires m.Do? && Enabled(l, m) && InStep(l) && Leaves(l, m, M.IdOf(m.job))
    ensures || (m.job.Draft? && m.job.recovery) || !m.readable
            || !AllSucceed(l.history, First(m)) || !AllSucceed(l.history + First(m), Second(m))
  {
    hide Run, View, Step, InStep, Newest;
    var h1 := l.history + First(m);
    if Page(Run(l.history).tables, M.IdOf(m.job)).Some? {
      assert h1[..|l.history|] == l.history;
      PagesPersist(h1, |l.history|, M.IdOf(m.job));
    }
  }

  /** Every call of the job succeeds, the order reads back, and it is no recovery
      of an order that is stored. */
  ghost predicate Clean(l: Line, m: Move)
    requires Enabled(l, m)
  {
    m.Do? ==>
      && m.readable && (m.job.Draft? && m.job.recovery ==> Page(Run(l.history).tables, M.IdOf(m.job)).None?)
      && AllSucceed(l.history, First(m)) && AllSucceed(l.history + First(m), Second(m))
  }

  lemma CleanJobsLeaveNothing(l: Line, m: Move, id: string)
    requires Enabled(l, m) && InStep(l) && id !in l.stale && Clean(l, m)
    ensures !Leaves(l, m, id)
  {
    hide Run, Page, View, Step, AllSucceed, Performed, Shown, Newest;
    if Leaves(l, m, id) {
      OnlyFailuresLeave(l, m);
      LeftOrdersHadPages(l, m, id);
    }
  }

  lemma LeftOrdersHadPages(l: Line, m: Move, id: string)
    requires Enabled(l, m) && InStep(l) && id !in l.stale && Leaves(l, m, id)
    ensures Page(Run(l.history).tables, id).Some?
  {
    hide Run, Page, View, Performed, Enabled;
  }

  lemma {:induction false} CleanRunsAreNeverStale(lines: seq<Line>, moves: seq<Move>, n: nat)
    requires IsRun(lines, moves) && n < |lines|
    requires forall k :: 0 <= k < |moves| ==> Clean(lines[k], moves[k])
    ensures lines[n].stale == {}
  {
    hide Run, Next, Enabled, Clean, InStep, Leaves, Refreshes;
    if n > 0 {
      CleanRunsAreNeverStale(lines, moves, n - 1);
      RunsStayInStep(lines, moves, n - 1);
      forall id ensures id !in lines[n].stale {
        StaleAfter(lines[n - 1], moves[n - 1], id);
        CleanJobsLeaveNothing(lines[n - 1], moves[n - 1], id);
      }
    }
  }

  /** A run whose jobs all succeed, read back and recover no stored order ends,
      once drained, with every cached order equal to its page. */
  lemma CleanRunsConverge(lines: seq<Line>, moves: seq<Move>, id: string)
    requires IsRun(lines, moves)
    requires forall k :: 0 <= k < |moves| ==> Clean(lines[k], moves[k])
    requires lines[|moves|].queue == [] && id in lines[|moves|].cache
    ensures var l := lines[|moves|]; Page(Run(l.history).tables, id) == Some(View(l.cache[id])) && ShowsRows(l, id)
  {
    hide Run, Page, View, Next, Enabled, Clean;
    CleanRunsAreNeverStale(lines, moves, |moves|);
    RunsStayInStep(lines, moves, |moves|);
    PageShowsRows(lines[|moves|], id);
  }

  // ---- reads while copies are queued -------------------------------------------------------

  /** Every queued message is delivered. */
  ghost function Drained(l: Line): Line
    decreases |l.queue|
  {
    if l.queue == [] then l else Drained(Next(l, Deliver))
  }

  /** The drained cache holds the newest copy of every order. */
  lemma {:induction false} DrainedShowsNewest(l: Line, id: string)
    ensures var d := Drained(l);
            && d.queue == [] && d.history == l.history
            && Newest(l.cache, l.queue, id) == if id in d.cache then Some(d.cache[id]) else None
    decreases |l.queue|
  {
    if l.queue != [] {
      DeliveryKeepsNewest(l.cache, l.queue, id);
      DrainedShowsNewest(Next(l, Deliver), id);
    }
  }

  lemma {:induction false} CachedHasNewest(cache: map<string, D.Order>, queue: seq<D.Order>, id: string)
    requires id in cache
    ensures Newest(cache, queue, id).Some?
  {
    if queue != [] {
      CachedHasNewest(cache, queue[..|queue| - 1], id);
    }
  }

  /** A reader writes back and republishes the cached copy it was shown. Once the
      topic is drained the order shows its page if and only if that copy showed
      what the newest one did. */
  lemma LookIsHarmlessIfShown(l: Line, id: string, e: M.Enrichment)
    requires InStep(l) && id in l.cache && id !in l.stale
    ensures Newest(l.cache, l.queue, id).Some?
    ensures var d := Drained(Refresh(l, O.Projected(l.cache[id]), e));
            && d.queue == [] && d.history == l.history && id in d.cache
            && (Page(Run(d.history).tables, id) == Some(View(d.cache[id]))
                <==> View(l.cache[id]) == View(Newest(l.cache, l.queue, id).value))
  {
    hide Run, Page, View, M.Hydrated, Next, Refresh;
    var o := O.Projected(l.cache[id]);
    CachedHasNewest(l.cache, l.queue, id);
    RefreshedIsNewest(l, o, e, id);
    RefreshKeepsHistory(l, o, e);
    DrainedShowsNewest(Refresh(l, o, e), id);
    HydrationKeepsView(o, e);
    CachingKeepsView(l.cache[id]);
  }

  lemma RefreshKeepsHistory(l: Line, o: D.Order, e: M.Enrichment)
    ensures Refresh(l, o, e).history == l.history && Refresh(l, o, e).stale == l.stale
  {}

  /** With no copy of the order queued a reader does no harm. */
  lemma QuietIsShown(l: Line, id: string)
    requires Quiet(l, id)
    ensures Shown(l, id)
  {
    QuietIsCached(l.cache, l.queue, id);
  }
}
