/** The service's methods are runs of the interleaved model: what `Create`,
    `CreateDraftOrder` and `GetOrderPreviewByID` leave is what their requests leave, step by step. */
module ServiceRuns {
  import opened Text
  import opened Tables
  import opened Outbox
  import opened Commands
  import opened History
  import opened ReadModel
  import D = Domain
  import O = OrderCaching
  import P = Postgres
  import B = Batches

  /** The moves lead from one world to the other. */
  ghost predicate Leads(w: World, moves: seq<Move>, t: World) {
    if moves == [] then w == t
    else
      var n := |moves| - 1;
      exists v :: Leads(w, moves[..n], v) && Enabled(v, moves[n]) && t == Next(v, moves[n])
  }

  ghost predicate Reaches(w: World, t: World) {
    exists moves :: Leads(w, moves, t)
  }

  lemma Stay(w: World)
    ensures Reaches(w, w)
  {
    assert Leads(w, [], w);
  }

  lemma Go(w: World, v: World, m: Move)
    requires Reaches(w, v) && Enabled(v, m)
    ensures Reaches(w, Next(v, m))
  {
    hide Next, Enabled;
    var moves :| Leads(w, moves, v);
    assert (moves + [m])[..|moves|] == moves;
    assert Leads(w, moves + [m], Next(v, m));
  }

  function With(w: World, job: Job, stage: Stage): World {
    w.(requests := w.requests + [Request(job, stage)])
  }

  /** The two reads of `GetByID`, of which either may fail. */
  lemma Reading(start: World, w: World, job: Job, trips: P.Reads) returns (t: World)
    requires Reaches(start, With(w, job, ReadingRow))
    ensures var r := P.Loading(Current(w).tables, IdOf(job), trips);
            && Reaches(start, t)
            && t == With(w, job, if r.Ok? then WithOrder(job, r.value) else Finished(false))
  {
    hide Reaches, Run;
    var i, v := |w.requests|, With(w, job, ReadingRow);
    var r := P.Loading(Current(w).tables, IdOf(job), trips);
    if trips.rowFails || !IsUuid(IdOf(job)) {
      Go(start, v, Abort(i));
      t := With(w, job, Finished(false));
      assert Next(v, Abort(i)) == t;
    } else {
      Go(start, v, ReadRow(i));
      if IdOf(job) in Current(w).tables.orders {
        t := SecondRead(start, w, job, trips.snapshotFails);
      } else {
        t := With(w, job, Finished(false));
        assert Next(v, ReadRow(i)) == t;
      }
    }
  }

  lemma SecondRead(start: World, w: World, job: Job, fails: bool) returns (t: World)
    requires IdOf(job) in Current(w).tables.orders
    requires Reaches(start, Next(With(w, job, ReadingRow), ReadRow(|w.requests|)))
    ensures var id, tables := IdOf(job), Current(w).tables;
            && Reaches(start, t)
            && t == With(w, job, if !fails && id in tables.snapshots
                                 then WithOrder(job, D.Loaded(tables.orders[id], tables.snapshots[id])) else Finished(false))
  {
    hide Reaches, Run, WithOrder;
    var i, row := |w.requests|, Current(w).tables.orders[IdOf(job)];
    var v := With(w, job, ReadingSnapshot(|w.history|, row));
    assert Next(With(w, job, ReadingRow), ReadRow(i)) == v;
    if fails {
      Go(start, v, Abort(i));
      t := Next(v, Abort(i));
    } else {
      Go(start, v, ReadSnapshot(i));
      t := Next(v, ReadSnapshot(i));
    }
  }

  /** `refreshOrderProjection`. */
  function Refreshed(w: World, o: D.Order, e: Enrichment, stored: bool, sent: bool): World {
    var p := Hydrated(o, e);
    w.(cache := if stored then w.cache[p.orderId := p] else w.cache, topic := if sent then w.topic + {p} else w.topic)
  }

  lemma Refreshing(start: World, w: World, job: Job, o: D.Order, e: Enrichment, stored: bool, sent: bool)
    requires Reaches(start, With(w, job, Upserting(o)))
    ensures Reaches(start, With(Refreshed(w, o, e, stored, sent), job, if job.Submit? then Announcing(Hydrated(o, e)) else Finished(true)))
  {
    hide Reaches, Hydrated;
    var i, p := |w.requests|, Hydrated(o, e);
    var v := With(w, job, Upserting(o));
    Go(start, v, Move.Upsert(i, e, stored));
    var u := With(w.(cache := if stored then w.cache[p.orderId := p] else w.cache), job, Publishing(p));
    assert Next(v, Move.Upsert(i, e, stored)) == u;
    Go(start, u, Publish(i, sent));
    assert Next(u, Publish(i, sent))
        == With(Refreshed(w, o, e, stored, sent), job, if job.Submit? then Announcing(p) else Finished(true));
  }

  /** `Create`: history, cache, topic and announcement are those of a request
      that writes, reads back, refreshes and announces. */
  lemma CreateIsARun(w: World, p: CreateParams, now: Time, faults: Faults, trips: P.Reads, e: Enrichment,
                     stored: bool, sent: bool, announced: bool)
    returns (t: World)
    ensures Reaches(w, t)
    ensures var call := Call(Create(p), now, faults);
            var order := P.Replied(Step(Current(w), call), p.orderId, trips);
            && t.history == w.history + [call]
            && (order.Ok? ==>
                  && t.cache == Refreshed(w, order.value, e, stored, sent).cache
                  && t.topic == Refreshed(w, order.value, e, stored, sent).topic
                  && t.successes == (if announced then w.successes + {p.orderId} else w.successes))
            && (order.Err? ==> t.cache == w.cache && t.topic == w.topic && t.successes == w.successes)
  {
    hide Reaches, Run, Step, P.Loading, Refreshed, IsUuid, Hydrated;
    var job, call, i := Submit(p), Call(Create(p), now, faults), |w.requests|;
    Stay(w);
    Go(w, w, Arrive(job));
    var v := With(w, job, Writing(0));
    assert Next(w, Arrive(job)) == v;
    Go(w, v, Write(i, now, faults));
    var h := w.(history := w.history + [call]);
    AfterCall(w, call);
    if Step(Current(w), call).reply == Success {
      assert Next(v, Write(i, now, faults)) == With(h, job, ReadingRow);
      var u := Reading(w, h, job, trips);
      var r := P.Loading(Current(h).tables, p.orderId, trips);
      if r.Ok? {
        Refreshing(w, h, job, r.value, e, stored, sent);
        t := AnnouncedRun(w, h, job, r.value, e, stored, sent, announced);
        RefreshedAlike(w, h.history, r.value, e, stored, sent);
      } else {
        t := u;
      }
    } else {
      t := With(h, job, Finished(false));
      assert Next(v, Write(i, now, faults)) == t;
    }
  }

  lemma RefreshedAlike(w: World, h: seq<Call>, o: D.Order, e: Enrichment, stored: bool, sent: bool)
    ensures var a, b := Refreshed(w.(history := h), o, e, stored, sent), Refreshed(w, o, e, stored, sent);
            a.cache == b.cache && a.topic == b.topic && b.history == w.history && b.requests == w.requests
  {}

  lemma AfterCall(w: World, c: Call)
    ensures Current(w.(history := w.history + [c])) == Step(Current(w), c).store
  {
    assert (w.history + [c])[..|w.history|] == w.history;
  }

  lemma AnnouncedRun(start: World, w: World, job: Job, o: D.Order, e: Enrichment, stored: bool, sent: bool, announced: bool)
    returns (t: World)
    requires job.Submit? && Reaches(start, With(Refreshed(w, o, e, stored, sent), job, Announcing(Hydrated(o, e))))
    ensures Reaches(start, t) && t.history == w.history
    ensures t.cache == Refreshed(w, o, e, stored, sent).cache && t.topic == Refreshed(w, o, e, stored, sent).topic
    ensures t.successes == if announced then w.successes + {job.p.orderId} else w.successes
  {
    hide Reaches, Hydrated;
    var v := With(Refreshed(w, o, e, stored, sent), job, Announcing(Hydrated(o, e)));
    Go(start, v, Announce(|w.requests|, announced, announced));
    t := Next(v, Announce(|w.requests|, announced, announced));
  }

  /** The order a preview request sees in the model's cache, else in the store. */
  ghost function Seen(w: World, id: string, unavailable: bool, trips: P.Reads): Option<D.Order> {
    var stored := P.Loading(Current(w).tables, id, trips);
    if !unavailable && id in w.cache then Some(O.Projected(w.cache[id]))
    else if stored.Ok? then Some(stored.value) else None
  }

  /** `GetOrderPreviewByID`: granted and written back exactly as a request that
      looks up, reads, decides and refreshes. */
  lemma PreviewIsARun(w: World, orderId: string, userId: string, unavailable: bool, trips: P.Reads, e: Enrichment,
                      stored: bool, sent: bool)
    returns (t: World)
    ensures Reaches(w, t)
    ensures var seen := Seen(w, TrimSpace(orderId), unavailable, trips);
            var granted := !Blank(orderId) && !Blank(userId) && seen.Some? && Grants(seen.value, userId);
            && |t.requests| == |w.requests| + 1 && t.requests[|w.requests|].stage == Finished(granted)
            && t.history == w.history
            && (granted ==>
                  && t.cache == Refreshed(w, seen.value, e, stored, sent).cache
                  && t.topic == Refreshed(w, seen.value, e, stored, sent).topic)
            && (!granted ==> t.cache == w.cache && t.topic == w.topic)
  {
    hide Reaches, Run, P.Loading, Refreshed, Grants, Trim;
    var job, i, id := Job.Preview(orderId, userId), |w.requests|, TrimSpace(orderId);
    Stay(w);
    Go(w, w, Arrive(job));
    if Blank(orderId) || Blank(userId) {
      t := Next(w, Arrive(job));
    } else {
      var v := With(w, job, LookingUp);
      assert Next(w, Arrive(job)) == v;
      Go(w, v, LookUp(i, !unavailable));
      if !unavailable && id in w.cache {
        var o := O.Projected(w.cache[id]);
        assert Next(v, LookUp(i, !unavailable)) == With(w, job, Deciding(o));
        t := DecidedRun(w, w, job, o, e, stored, sent);
        RefreshedAlike(w, w.history, o, e, stored, sent);
      } else {
        assert Next(v, LookUp(i, !unavailable)) == With(w, job, ReadingRow);
        t := Reading(w, w, job, trips);
        var r := P.Loading(Current(w).tables, id, trips);
        if r.Ok? {
          t := DecidedRun(w, w, job, r.value, e, stored, sent);
          RefreshedAlike(w, w.history, r.value, e, stored, sent);
        }
      }
    }
  }

  lemma DecidedRun(start: World, w: World, job: Job, o: D.Order, e: Enrichment, stored: bool, sent: bool) returns (t: World)
    requires job.Preview? && Reaches(start, With(w, job, Deciding(o)))
    ensures Reaches(start, t)
    ensures t == if Grants(o, job.userId) then With(Refreshed(w, o, e, stored, sent), job, Finished(true)) else With(w, job, Finished(false))
  {
    hide Reaches, Grants, Refreshed;
    var i, v := |w.requests|, With(w, job, Deciding(o));
    Go(start, v, Decide(i));
    if Grants(o, job.userId) {
      assert Next(v, Decide(i)) == With(w, job, Upserting(o));
      Refreshing(start, w, job, o, e, stored, sent);
      t := With(Refreshed(w, o, e, stored, sent), job, Finished(true));
    } else {
      t := With(w, job, Finished(false));
      assert Next(v, Decide(i)) == t;
    }
  }

  // ---- drafts ----------------------------------------------------------------------

  /** Where a draft goes when its questions are saved, or one was not. */
  function Asked(job: Job, o: D.Order, reply: Reply): Stage
    requires job.Draft?
  {
    if reply != Success then Finished(false) else if job.recovery then Announcing(o) else Upserting(o)
  }

  /** The rest of the questions, each its own commit, up to the first failure. */
  lemma {:induction false} Asking(start: World, w: World, job: Job, o: D.Order, k: nat, tries: seq<B.Try>) returns (h: seq<Call>)
    requires job.Draft? && |tries| == |job.questions| && k <= |tries|
    requires Reaches(start, With(w, job, AfterQuestions(job, o, k)))
    ensures var asked := B.Asked(Current(w), o.orderId, job.questions[k..], tries[k..]);
            && Run(h) == asked.store
            && Reaches(start, With(w.(history := h), job, Asked(job, o, asked.reply)))
    decreases |tries| - k
  {
    hide Reaches, Step, Run;
    var i, questions := |w.requests|, job.questions;
    if k == |questions| {
      h := w.history;
      assert w.(history := h) == w;
    } else {
      var call := Call(SaveQuestion(o.orderId, questions[k]), tries[k].now, tries[k].faults);
      var v := With(w, job, Questioning(o, k));
      Go(start, v, Ask(i, call.now, call.faults));
      AfterCall(w, call);
      h := w.history + [call];
      assert questions[k..][0] == questions[k] && questions[k..][1..] == questions[k + 1..];
      assert tries[k..][0] == tries[k] && tries[k..][1..] == tries[k + 1..];
      var u := w.(history := h);
      if Step(Current(w), call).reply == Success {
        assert Next(v, Ask(i, call.now, call.faults)) == With(u, job, AfterQuestions(job, o, k + 1));
        h := Asking(start, u, job, o, k + 1, tries);
        assert u.(history := h) == w.(history := h);
      } else {
        assert Next(v, Ask(i, call.now, call.faults)) == With(u, job, Finished(false));
      }
    }
  }

  lemma DraftRead(w: World, call: Call, trips: P.Reads)
    requires call.command.Create? && P.Replied(Step(Current(w), call), call.command.p.orderId, trips).Ok?
    ensures P.Replied(Step(Current(w), call), call.command.p.orderId, trips).value.orderId == call.command.p.orderId
  {
    hide Step, Run;
    RunIsKeyed(w.history);
    StepKeepsKeys(Run(w.history), call);
  }

  /** The creation and its read-back. */
  lemma Drafting(w: World, job: Job, call: Call, trips: P.Reads) returns (t: World)
    requires job.Draft? && call.command == Create(job.p)
    ensures var h, order := w.(history := w.history + [call]), P.Replied(Step(Current(w), call), job.p.orderId, trips);
            && Reaches(w, t)
            && t == With(h, job, if order.Ok? then AfterQuestions(job, order.value, 0) else Finished(false))
  {
    hide Reaches, Run, Step, P.Loading, IsUuid;
    var i := |w.requests|;
    Stay(w);
    Go(w, w, Arrive(job));
    var v := With(w, job, Writing(0));
    assert Next(w, Arrive(job)) == v;
    Go(w, v, Write(i, call.now, call.faults));
    var h := w.(history := w.history + [call]);
    AfterCall(w, call);
    if Step(Current(w), call).reply == Success {
      assert Next(v, Write(i, call.now, call.faults)) == With(h, job, ReadingRow);
      t := Reading(w, h, job, trips);
    } else {
      t := With(h, job, Finished(false));
      assert Next(v, Write(i, call.now, call.faults)) == t;
    }
  }

  lemma RefreshedKeeps(w: World, o: D.Order, e: Enrichment, stored: bool, sent: bool)
    ensures var t := Refreshed(w, o, e, stored, sent);
            t.history == w.history && t.successes == w.successes && t.completions == w.completions
  {}

  /** `CreateDraftOrder`, and the recovery's completion after it: what they leave
      in the store, the cache, the topic and the completions is what a draft
      request of the interleaved model leaves. */
  lemma DraftIsARun(w: World, job: Job, call: Call, trips: P.Reads, tries: seq<B.Try>, e: Enrichment,
                    stored: bool, sent: bool, announced: bool)
    returns (t: World)
    requires job.Draft? && call.command == Create(job.p) && |tries| == |job.questions|
    ensures Reaches(w, t) && t.successes == w.successes
    ensures var done := Step(Current(w), call);
            var order := P.Replied(done, job.p.orderId, trips);
            var asked := B.Asked(done.store, job.p.orderId, job.questions, tries);
            var saved := order.Ok? && asked.reply == Success;
            && Current(t) == (if order.Ok? then asked.store else done.store)
            && t.completions == (if saved && job.recovery && announced then w.completions + {job.p.orderId} else w.completions)
            && (if saved && !job.recovery
                then t.cache == Refreshed(w, order.value, e, stored, sent).cache && t.topic == Refreshed(w, order.value, e, stored, sent).topic
                else t.cache == w.cache && t.topic == w.topic)
  {
    hide Reaches, Run, Step, P.Loading, Refreshed, Hydrated, IsUuid, B.Asked;
    var i, order := |w.requests|, P.Replied(Step(Current(w), call), job.p.orderId, trips);
    var h := w.(history := w.history + [call]);
    AfterCall(w, call);
    t := Drafting(w, job, call, trips);
    if order.Ok? {
      DraftRead(w, call, trips);
      var after := Asking(w, h, job, order.value, 0, tries);
      assert job.questions[0..] == job.questions && tries[0..] == tries;
      var reply := B.Asked(Current(h), job.p.orderId, job.questions, tries).reply;
      var u := h.(history := after);
      t := With(u, job, Asked(job, order.value, reply));
      if reply == Success && job.recovery {
        Go(w, t, Announce(i, announced, announced));
        t := Next(t, Announce(i, announced, announced));
      } else if reply == Success {
        Refreshing(w, u, job, order.value, e, stored, sent);
        t := With(Refreshed(u, order.value, e, stored, sent), job, Finished(true));
        assert w.(history := after) == u;
        RefreshedAlike(w, after, order.value, e, stored, sent);
        RefreshedKeeps(u, order.value, e, stored, sent);
      }
    }
  }
}
