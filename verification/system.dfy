/** The recovery topic end to end: the explicit consumer loop running the
    recovery handler, over everything else the service does meanwhile. */
module RecoverySystem {
  import opened Text
  import opened Commands
  import B = Broker
  import L = NoLoss
  import W = ReadModel
  import T = Provenance

  /** `calls` tells which request of the service a worker's handler call is. */
  datatype System = System(bus: B.State, world: W.World, calls: map<nat, nat>)

  /** What an accepted command creates; none for one that fails validation. */
  type Parser = string -> Option<CreateParams>

  datatype Move =
    | Bus(m: B.Move)                          // a worker or the topics
    | Serve(v: W.Move)                        // any request, or a topic message
    | Begin(worker: nat)                      // the handler is called
    | Return(worker: nat, permanent: bool)    // it returns what its request came to

  /** Moves of the loop that neither call the handler nor return from it. */
  predicate Aside(s: B.State, m: B.Move)
    requires B.WellFormed(s) && B.Enabled(s, m)
  {
    !m.Finish? && (m.Unwrap? ==> !B.Handled(s, m.worker).decodes) && (m.Start? ==> m.mode.Explicit?)
  }

  function JobOf(parse: Parser, m: B.Message): Option<W.Job> {
    if parse(m.value).Some? then Some(W.Draft(parse(m.value).value, [], true)) else None
  }

  ghost predicate Enabled(parse: Parser, s: System, m: Move) {
    B.WellFormed(s.bus)
    && match m
       case Bus(b) => B.Enabled(s.bus, b) && Aside(s.bus, b)
       case Serve(v) => W.Enabled(s.world, v)
       case Begin(i) => B.Enabled(s.bus, B.Unwrap(i)) && B.Handled(s.bus, i).decodes
       case Return(i, _) => B.Enabled(s.bus, B.Finish(i, false, false)) && (i in s.calls ==> Done(s, i))
  }

  /** The request of the worker's call has finished. */
  predicate Done(s: System, i: nat)
    requires i in s.calls
  {
    s.calls[i] < |s.world.requests| && s.world.requests[s.calls[i]].stage.Finished?
  }

  predicate Succeeds(s: System, i: nat) {
    i in s.calls && Done(s, i) && s.world.requests[s.calls[i]].stage.ok
  }

  ghost function Next(parse: Parser, s: System, m: Move): System
    requires Enabled(parse, s, m)
  {
    match m
    case Bus(b) => s.(bus := B.Next(s.bus, b))
    case Serve(v) => s.(world := W.Next(s.world, v))
    case Begin(i) =>
      var bus, job := B.Next(s.bus, B.Unwrap(i)), JobOf(parse, B.Handled(s.bus, i));
      if job.Some? then System(bus, W.Next(s.world, W.Arrive(job.value)), s.calls[i := |s.world.requests|])
      else System(bus, s.world, s.calls - {i})
    case Return(i, permanent) => s.(bus := B.Next(s.bus, B.Finish(i, Succeeds(s, i), permanent)))
  }

  ghost predicate Careful(parse: Parser, s: System, m: Move)
    requires Enabled(parse, s, m)
  {
    m.Bus? ==> L.Careful(s.bus, m.m)
  }

  ghost predicate IsRun(parse: Parser, states: seq<System>, moves: seq<Move>) {
    && |states| == |moves| + 1
    && (exists n: nat, max: nat :: states[0] == System(B.Initial(n, max), W.START, map[]))
    && forall k :: 0 <= k < |moves| ==>
         && Enabled(parse, states[k], moves[k]) && Careful(parse, states[k], moves[k])
         && states[k + 1] == Next(parse, states[k], moves[k])
  }

  // ---- the invariant -----------------------------------------------------------------

  /** A recovery that finished well announced its order. */
  ghost predicate RecoveriesAnnounced(w: W.World) {
    forall r: nat :: r < |w.requests| ==> Announced(w, w.requests[r])
  }

  predicate Announced(w: W.World, r: W.Request) {
    r.job.Draft? && r.job.recovery ==>
      && !r.stage.Upserting? && !r.stage.Publishing?
      && (r.stage == W.Finished(true) ==> W.IdOf(r.job) in w.completions)
  }

  /** A running handler call is the recovery its message asks for. */
  ghost predicate CallsMatch(parse: Parser, s: System) {
    B.WellFormed(s.bus)
    && forall i: nat :: B.At(s.bus, i, B.Running) && i in s.calls ==>
         && s.calls[i] < |s.world.requests|
         && JobOf(parse, B.Handled(s.bus, i)) == Some(s.world.requests[s.calls[i]].job)
  }

  ghost predicate Published(s: B.State, m: B.Message) {
    exists p :: 0 <= p < |s.log| && m in s.log[p]
  }

  /** Some message of the event is a command whose order was announced. */
  ghost predicate Completed(parse: Parser, s: System, e: string) {
    exists m: B.Message :: Published(s.bus, m) && m.event == e && parse(m.value).Some? && parse(m.value).value.orderId in s.world.completions
  }

  ghost predicate SuccessesCompleted(parse: Parser, s: System) {
    forall h :: h in s.bus.trace && h.Succeeded? ==> Completed(parse, s, h.event)
  }

  ghost predicate ExplicitOnly(s: B.State) {
    && (forall i :: 0 <= i < |s.workers| ==> s.workers[i].mode.Explicit?)
    && (forall h :: h in s.trace ==> !h.Queued?)
  }

  ghost predicate Sound(parse: Parser, s: System) {
    && L.Lossless(s.bus) && ExplicitOnly(s.bus) && T.Traced(s.world)
    && RecoveriesAnnounced(s.world) && CallsMatch(parse, s) && SuccessesCompleted(parse, s)
  }

  // ---- one move ------------------------------------------------------------------------

  /** A move turns one request at most, and announces a recovery before it ends well. */
  lemma RequestAfter(w: W.World, m: W.Move, r: nat)
    requires W.Enabled(w, m) && r < |w.requests| && Announced(w, w.requests[r])
    ensures r < |W.Next(w, m).requests| && W.Next(w, m).requests[r].job == w.requests[r].job
    ensures Announced(W.Next(w, m), W.Next(w, m).requests[r])
  {
    hide W.Current, W.Hydrated, W.Grants, W.CommandsOf;
  }

  lemma CompletionsGrow(w: W.World, m: W.Move)
    requires W.Enabled(w, m)
    ensures w.completions <= W.Next(w, m).completions
    ensures |w.requests| <= |W.Next(w, m).requests|
    ensures |w.requests| < |W.Next(w, m).requests| ==> m.Arrive? && W.Next(w, m).requests == w.requests + [W.Request(m.job, W.FirstStage(m.job))]
  {
    hide W.Current, W.Hydrated, W.Grants, W.CommandsOf, W.FirstStage;
  }

  lemma ServingAnnounces(w: W.World, m: W.Move)
    requires W.Enabled(w, m) && RecoveriesAnnounced(w)
    ensures RecoveriesAnnounced(W.Next(w, m))
    ensures |w.requests| <= |W.Next(w, m).requests| && w.completions <= W.Next(w, m).completions
    ensures forall r: nat :: r < |w.requests| ==> W.Next(w, m).requests[r].job == w.requests[r].job
  {
    hide W.Next, W.Enabled;
    CompletionsGrow(w, m);
    forall r: nat | r < |w.requests|
      ensures W.Next(w, m).requests[r].job == w.requests[r].job && Announced(W.Next(w, m), W.Next(w, m).requests[r])
    {
      RequestAfter(w, m, r);
    }
  }

  /** The loop's own moves keep every running call and every outcome. */
  lemma AsideKeepsCalls(s: B.State, m: B.Move, i: nat)
    requires B.WellFormed(s) && B.Enabled(s, m) && Aside(s, m) && B.WellFormed(B.Next(s, m)) && B.At(B.Next(s, m), i, B.Running)
    ensures B.At(s, i, B.Running) && B.Handled(B.Next(s, m), i) == B.Handled(s, i)
  {
    hide B.RetryCopy, B.WillRequeue, B.EventOf;
    B.LogGrows(s, m);
    if i >= |s.workers| {
      L.NewcomersStart(s, m, i);
    } else if !B.Acts(m, i) {
      B.OthersStay(s, m, i);
    }
  }

  lemma AsideKeepsTrace(s: B.State, m: B.Move)
    requires B.WellFormed(s) && B.Enabled(s, m) && Aside(s, m) && ExplicitOnly(s)
    ensures B.Next(s, m).trace == s.trace
  {
    hide B.RetryCopy, B.EventOf;
  }

  lemma PublishedStays(s: B.State, m: B.Move, x: B.Message)
    requires B.WellFormed(s) && B.Enabled(s, m) && Published(s, x)
    ensures Published(B.Next(s, m), x)
  {
    B.LogGrows(s, m);
    var p :| 0 <= p < |s.log| && x in s.log[p];
    assert x in B.Next(s, m).log[p];
  }

  lemma CompletedStays(parse: Parser, s: System, t: System, e: string)
    requires Completed(parse, s, e) && s.world.completions <= t.world.completions
    requires forall x :: Published(s.bus, x) ==> Published(t.bus, x)
    ensures Completed(parse, t, e)
  {
    hide Published;
    var m: B.Message :| Published(s.bus, m) && m.event == e && parse(m.value).Some? && parse(m.value).value.orderId in s.world.completions;
  }

  lemma BusStep(parse: Parser, s: System, b: B.Move)
    requires Sound(parse, s) && Enabled(parse, s, Bus(b)) && L.Careful(s.bus, b)
    ensures Sound(parse, Next(parse, s, Bus(b)))
  {
    hide B.Next, B.Enabled, L.Lossless, L.Careful, T.Traced, RecoveriesAnnounced, Published;
    var t := Next(parse, s, Bus(b));
    B.MoveKeepsForm(s.bus, b);
    L.StepLossless(s.bus, b);
    L.ExplicitStep(s.bus, b);
    AsideKeepsTrace(s.bus, b);
    forall i: nat | B.At(t.bus, i, B.Running) && i in t.calls
      ensures t.calls[i] < |t.world.requests| && JobOf(parse, B.Handled(t.bus, i)) == Some(t.world.requests[t.calls[i]].job)
    {
      AsideKeepsCalls(s.bus, b, i);
    }
    forall x | Published(s.bus, x) ensures Published(t.bus, x) {
      PublishedStays(s.bus, b, x);
    }
    forall h | h in t.bus.trace && h.Succeeded? ensures Completed(parse, t, h.event) {
      CompletedStays(parse, s, t, h.event);
    }
  }

  lemma ServeStep(parse: Parser, s: System, v: W.Move)
    requires Sound(parse, s) && Enabled(parse, s, Serve(v))
    ensures Sound(parse, Next(parse, s, Serve(v)))
  {
    hide W.Next, W.Enabled, L.Lossless, T.Traced, RecoveriesAnnounced, Published, ExplicitOnly;
    var t := Next(parse, s, Serve(v));
    T.StepKeepsTraced(s.world, v);
    ServingAnnounces(s.world, v);
    forall h | h in t.bus.trace && h.Succeeded? ensures Completed(parse, t, h.event) {
      CompletedStays(parse, s, t, h.event);
    }
  }

  /** The worker is inside the handler now, the others are where they were. */
  lemma BeginsRunning(s: B.State, i: nat, j: nat)
    requires B.WellFormed(s) && B.Enabled(s, B.Unwrap(i)) && B.Handled(s, i).decodes
    requires B.WellFormed(B.Next(s, B.Unwrap(i))) && B.At(B.Next(s, B.Unwrap(i)), j, B.Running)
    ensures if j == i then B.Handled(B.Next(s, B.Unwrap(i)), i) == B.Handled(s, i)
            else B.At(s, j, B.Running) && B.Handled(B.Next(s, B.Unwrap(i)), j) == B.Handled(s, j)
  {
    hide B.WillRequeue, B.EventOf;
  }

  lemma BeginTrace(s: B.State, i: nat)
    requires B.WellFormed(s) && B.Enabled(s, B.Unwrap(i)) && B.Handled(s, i).decodes
    ensures i < |s.workers| && B.Busy(s.workers[i])
    ensures B.Next(s, B.Unwrap(i)).trace == s.trace + [B.Started(i, B.EventOf(s, i))]
    ensures L.Careful(s, B.Unwrap(i))
  {
    hide B.WillRequeue;
  }

  lemma BeginStep(parse: Parser, s: System, i: nat)
    requires Sound(parse, s) && Enabled(parse, s, Begin(i))
    ensures Sound(parse, Next(parse, s, Begin(i)))
  {
    hide B.Next, B.Enabled, L.Lossless, L.Careful, T.Traced, RecoveriesAnnounced, Published;
    var t, b := Next(parse, s, Begin(i)), B.Unwrap(i);
    BeginTrace(s.bus, i);
    B.MoveKeepsForm(s.bus, b);
    L.StepLossless(s.bus, b);
    L.ExplicitStep(s.bus, b);
    var job := JobOf(parse, B.Handled(s.bus, i));
    if job.Some? {
      T.StepKeepsTraced(s.world, W.Arrive(job.value));
      ServingAnnounces(s.world, W.Arrive(job.value));
    }
    forall j: nat | B.At(t.bus, j, B.Running) && j in t.calls
      ensures t.calls[j] < |t.world.requests| && JobOf(parse, B.Handled(t.bus, j)) == Some(t.world.requests[t.calls[j]].job)
    {
      BeginsRunning(s.bus, i, j);
    }
    forall x | Published(s.bus, x) ensures Published(t.bus, x) {
      PublishedStays(s.bus, b, x);
    }
    forall h | h in t.bus.trace && h.Succeeded? ensures Completed(parse, t, h.event) {
      CompletedStays(parse, s, t, h.event);
    }
  }

  lemma ReturnTrace(s: B.State, i: nat, ok: bool, permanent: bool)
    requires B.WellFormed(s) && B.Enabled(s, B.Finish(i, ok, permanent))
    ensures B.Next(s, B.Finish(i, ok, permanent)).trace
            == s.trace + [if ok then B.Succeeded(i, B.EventOf(s, i)) else B.Gave(i, B.EventOf(s, i))]
    ensures L.Careful(s, B.Finish(i, ok, permanent))
  {
    hide B.WillRequeue;
  }

  lemma ReturnsRunning(s: B.State, i: nat, ok: bool, permanent: bool, j: nat)
    requires B.WellFormed(s) && B.Enabled(s, B.Finish(i, ok, permanent))
    requires B.WellFormed(B.Next(s, B.Finish(i, ok, permanent))) && B.At(B.Next(s, B.Finish(i, ok, permanent)), j, B.Running)
    ensures B.At(s, j, B.Running) && B.Handled(B.Next(s, B.Finish(i, ok, permanent)), j) == B.Handled(s, j)
  {
    hide B.WillRequeue, B.EventOf;
  }

  /** A handler call that succeeds has announced its order. */
  lemma SuccessIsCompleted(parse: Parser, s: System, i: nat)
    requires Sound(parse, s) && Enabled(parse, s, Return(i, false)) && Succeeds(s, i)
    ensures Completed(parse, s, B.EventOf(s.bus, i))
  {
    hide L.Lossless, T.Traced, ExplicitOnly, SuccessesCompleted;
    var m, r := B.Handled(s.bus, i), s.world.requests[s.calls[i]];
    assert Announced(s.world, r);
    assert m in s.bus.log[s.bus.workers[i].partition];
    assert Published(s.bus, m);
  }

  lemma ReturnStep(parse: Parser, s: System, i: nat, permanent: bool)
    requires Sound(parse, s) && Enabled(parse, s, Return(i, permanent))
    ensures Sound(parse, Next(parse, s, Return(i, permanent)))
  {
    hide B.Next, L.Lossless, L.Careful, T.Traced, RecoveriesAnnounced, Published;
    var ok := Succeeds(s, i);
    var t, b := Next(parse, s, Return(i, permanent)), B.Finish(i, ok, permanent);
    ReturnTrace(s.bus, i, ok, permanent);
    B.MoveKeepsForm(s.bus, b);
    L.StepLossless(s.bus, b);
    L.ExplicitStep(s.bus, b);
    if ok {
      SuccessIsCompleted(parse, s, i);
    }
    forall j: nat | B.At(t.bus, j, B.Running) && j in t.calls
      ensures t.calls[j] < |t.world.requests| && JobOf(parse, B.Handled(t.bus, j)) == Some(t.world.requests[t.calls[j]].job)
    {
      ReturnsRunning(s.bus, i, ok, permanent, j);
    }
    forall x | Published(s.bus, x) ensures Published(t.bus, x) {
      PublishedStays(s.bus, b, x);
    }
    forall h | h in t.bus.trace && h.Succeeded? ensures Completed(parse, t, h.event) {
      CompletedStays(parse, s, t, h.event);
    }
  }

  // ---- runs ----------------------------------------------------------------------------

  lemma StepKeepsSound(parse: Parser, s: System, m: Move)
    requires Sound(parse, s) && Enabled(parse, s, m) && Careful(parse, s, m)
    ensures Sound(parse, Next(parse, s, m))
  {
    hide Sound, Next, Enabled;
    match m {
      case Bus(b) => BusStep(parse, s, b);
      case Serve(v) => ServeStep(parse, s, v);
      case Begin(i) => BeginStep(parse, s, i);
      case Return(i, permanent) => ReturnStep(parse, s, i, permanent);
    }
  }

  lemma {:induction false} RunsAreSound(parse: Parser, states: seq<System>, moves: seq<Move>, n: nat)
    requires IsRun(parse, states, moves) && n < |states|
    ensures Sound(parse, states[n])
  {
    if n > 0 {
      hide Sound, Next, Enabled, Careful;
      RunsAreSound(parse, states, moves, n - 1);
      StepKeepsSound(parse, states[n - 1], moves[n - 1]);
    }
  }

  predicate CommittedAt(s: B.State, p: nat, k: nat) {
    p < |s.log| && p < |s.committed| && k < s.committed[p] && k < |s.log[p]|
  }

  /** A recovery message below its partition's committed offset is dead-lettered,
      is with a worker between claim and outcome, or its event was completed: the
      completion is announced, and its order is stored with its snapshot. */
  lemma CommittedRecoveriesAreStored(parse: Parser, states: seq<System>, moves: seq<Move>, n: nat, p: nat, k: nat)
    requires IsRun(parse, states, moves) && n < |states|
    requires CommittedAt(states[n].bus, p, k)
    ensures var s, e := states[n], states[n].bus.log[p][k].event;
            || L.Holds(s.bus.dlq, e)
            || (exists i: nat :: B.WellFormed(s.bus) && L.InFlight(s.bus, i, e))
            || exists m: B.Message ::
                 && Published(s.bus, m) && m.event == e && parse(m.value).Some?
                 && parse(m.value).value.orderId in s.world.completions
                 && T.Stored(s.world.history, parse(m.value).value.orderId)
  {
    RunsAreSound(parse, states, moves, n);
    var s, e := states[n], states[n].bus.log[p][k].event;
    assert L.Below(s.bus, p, s.bus.committed[p]);
    assert L.Settled(s.bus, e) by {
      assert L.Covered(s.bus, e);
    }
    if L.HasSucceeded(s.bus, e) {
      assert Completed(parse, s, e);
    }
  }
}
