/** What the claim table guarantees over every interleaving of both loops,
    with crashes, lost or refused requests and stale workers. */
module Claims {
  import opened Broker

  /** Between its claim and its release. */
  predicate Owns(w: Worker) {
    w.pc.Owned? || w.pc.Running? || w.pc.Failed?
  }

  predicate Holds(s: State, i: nat, e: string)
    requires WellFormed(s)
  {
    i < |s.workers| && Owns(s.workers[i]) && EventOf(s, i) == e
  }

  /** At most one delivery of an event is between claim and release, and its
      claim is in the table. */
  ghost predicate OneOwner(s: State)
    requires WellFormed(s)
  {
    && (forall i: nat, e :: Holds(s, i, e) ==> e in s.claims)
    && (forall i: nat, j: nat, e :: Holds(s, i, e) && Holds(s, j, e) ==> i == j)
  }

  /** The handler call begun at `k` has not returned an error before `n`. */
  ghost predicate Open(trace: seq<Happening>, k: nat, n: nat) {
    && k < n <= |trace| && trace[k].Started?
    && forall j :: k < j < n ==> trace[j] != Gave(trace[k].worker, trace[k].event)
  }

  /** A handler is called for an event only after every earlier call for it,
      by whichever worker, returned an error. */
  ghost predicate TakeTurns(trace: seq<Happening>) {
    forall k: nat, n: nat :: k < n < |trace| && trace[n].Started? && Open(trace, k, n)
      ==> trace[k].event != trace[n].event
  }

  /** After a success for an event no handler is called for it, none returns. */
  ghost predicate SuccessIsLast(trace: seq<Happening>) {
    forall k, n :: 0 <= k < n < |trace| && trace[k].Succeeded? && trace[n].event == trace[k].event ==> trace[n].Queued?
  }

  /** A call that has not returned an error keeps the claim, and only its own
      worker may hold the event, inside the handler. */
  ghost predicate OpenCallsHold(s: State)
    requires WellFormed(s)
  {
    forall k :: 0 <= k < |s.trace| && Open(s.trace, k, |s.trace|) ==> CallHolds(s, s.trace[k].worker, s.trace[k].event)
  }

  ghost predicate CallHolds(s: State, w: nat, e: string)
    requires WellFormed(s)
  {
    e in s.claims && forall i: nat :: Holds(s, i, e) ==> i == w && At(s, i, Running)
  }

  /** A success keeps the claim for good. */
  ghost predicate SuccessHolds(s: State)
    requires WellFormed(s)
  {
    forall h :: h in s.trace && h.Succeeded? ==> SuccessKeeps(s, h.event)
  }

  ghost predicate SuccessKeeps(s: State, e: string)
    requires WellFormed(s)
  {
    e in s.claims && forall i: nat :: !Holds(s, i, e)
  }

  ghost predicate Exclusive(s: State) {
    && WellFormed(s) && OneOwner(s) && TakeTurns(s.trace) && SuccessIsLast(s.trace)
    && OpenCallsHold(s) && SuccessHolds(s)
  }

  // ---- one move ------------------------------------------------------------

  /** Who holds what after a move: only the actor changes, and it starts to
      hold an event only if the event was unclaimed. */
  lemma HoldersAfter(s: State, m: Move, i: nat, e: string)
    requires WellFormed(s) && Enabled(s, m) && WellFormed(Next(s, m)) && Holds(Next(s, m), i, e)
    ensures if Holds(s, i, e) then !(m.Release? && m.worker == i)
            else m == Claim(i) && e !in s.claims && Next(s, m).claims == s.claims + {e}
  {
    hide Next, Enabled;
    LogGrows(s, m);
    StartedInPlace(s, m);
    if i < |s.workers| {
      if Acts(m, i) {
        ActorHolds(s, m, i, e);
      } else {
        OthersStay(s, m, i);
      }
    }
  }

  lemma ActorHolds(s: State, m: Move, i: nat, e: string)
    requires WellFormed(s) && Enabled(s, m) && WellFormed(Next(s, m)) && Holds(Next(s, m), i, e)
    requires i < |s.workers| && Acts(m, i)
    ensures if Holds(s, i, e) then !m.Release?
            else m.Claim? && e !in s.claims && Next(s, m).claims == s.claims + {e}
  {
    hide RetryCopy, WillRequeue;
  }

  /** A handler call goes on until it returns an error or leaves the holders. */
  lemma CallGoesOn(s: State, m: Move, i: nat, e: string)
    requires WellFormed(s) && Enabled(s, m) && WellFormed(Next(s, m))
    requires Holds(s, i, e) && At(s, i, Running) && Holds(Next(s, m), i, e)
    ensures At(Next(s, m), i, Running) || Next(s, m).trace == s.trace + [Gave(i, e)]
  {
    hide RetryCopy, WillRequeue, EventOf;
  }

  /** A claim goes only when its holder releases it. */
  lemma ClaimsAfter(s: State, m: Move, e: string)
    requires WellFormed(s) && Enabled(s, m) && e in s.claims && e !in Next(s, m).claims
    ensures m.Release? && Holds(s, m.worker, e) && s.workers[m.worker].pc.Failed?
  {
    hide RetryCopy, WillRequeue;
  }

  /** A released event is held by nobody. */
  lemma ReleaseFrees(s: State, m: Move, e: string)
    requires WellFormed(s) && OneOwner(s) && Enabled(s, m) && WellFormed(Next(s, m))
    requires e in s.claims && e !in Next(s, m).claims
    ensures forall i: nat :: !Holds(Next(s, m), i, e)
  {
    ClaimsAfter(s, m, e);
    forall i: nat | Holds(Next(s, m), i, e) ensures false {
      HoldersAfter(s, m, i, e);
    }
  }

  /** What the move tells by adding `h` to the trace. */
  predicate TraceEntry(s: State, m: Move, h: Happening)
    requires WellFormed(s) && Enabled(s, m)
  {
    && (h.Queued? || Holds(s, h.worker, h.event))
    && match h
       case Started(i, e) => m == Unwrap(i) && At(s, i, Owned) && At(Next(s, m), i, Running)
       case Succeeded(i, e) => m.Finish? && m.worker == i && At(Next(s, m), i, Committing)
       case Gave(i, e) => m.Finish? && m.worker == i
       case Queued(_, _) => m.Requeue?
  }

  /** What a move adds to the trace, and who did it. */
  lemma TraceAfter(s: State, m: Move)
    requires WellFormed(s) && Enabled(s, m)
    ensures var t := Next(s, m);
            || t.trace == s.trace
            || exists h :: t.trace == s.trace + [h] && TraceEntry(s, m, h)
  {
    hide RetryCopy, WillRequeue;
    match m {
      case Unwrap(i) =>
        if Handled(s, i).decodes {
          assert TraceEntry(s, m, Started(i, EventOf(s, i)));
        }
      case Finish(i, ok, _) =>
        if ok {
          assert TraceEntry(s, m, Succeeded(i, EventOf(s, i)));
        } else {
          assert TraceEntry(s, m, Gave(i, EventOf(s, i)));
        }
      case Requeue(i, ack) =>
        if !ack.Refused? {
          assert TraceEntry(s, m, Queued(i, EventOf(s, i)));
        }
      case _ =>
    }
  }

  lemma StepOneOwner(s: State, m: Move)
    requires WellFormed(s) && OneOwner(s) && Enabled(s, m) && WellFormed(Next(s, m))
    ensures OneOwner(Next(s, m))
  {
    hide Next, Enabled, Holds;
    var t := Next(s, m);
    forall i: nat, e | Holds(t, i, e) ensures e in t.claims {
      HoldersAfter(s, m, i, e);
      if e !in t.claims {
        ReleaseFrees(s, m, e);
      }
    }
    forall i: nat, j: nat, e | Holds(t, i, e) && Holds(t, j, e) ensures i == j {
      HoldersAfter(s, m, i, e);
      HoldersAfter(s, m, j, e);
    }
  }

  lemma OpenBefore(trace: seq<Happening>, h: Happening, k: nat, n: nat)
    requires n <= |trace|
    ensures Open(trace + [h], k, n) == Open(trace, k, n)
    ensures Open(trace + [h], k, |trace| + 1) && k == |trace| ==> h.Started?
    ensures Open(trace + [h], k, |trace| + 1) && k < |trace| ==> Open(trace, k, |trace|) && h != Gave(trace[k].worker, trace[k].event)
  {
    var all := trace + [h];
    assert forall j :: 0 <= j < |trace| ==> all[j] == trace[j];
    assert all[|trace|] == h;
  }

  lemma StepTrace(s: State, m: Move)
    requires Exclusive(s) && Enabled(s, m) && WellFormed(Next(s, m))
    ensures TakeTurns(Next(s, m).trace) && SuccessIsLast(Next(s, m).trace)
  {
    hide Next, Enabled, Open;
    var t := Next(s, m);
    TraceAfter(s, m);
    if t.trace != s.trace {
      var h :| t.trace == s.trace + [h] && TraceEntry(s, m, h);
      forall k: nat, n: nat | k < n < |t.trace| && t.trace[n].Started? && Open(t.trace, k, n)
        ensures t.trace[k].event != t.trace[n].event
      {
        OpenBefore(s.trace, h, k, n);
        assert t.trace[k] == s.trace[k] && (n < |s.trace| || t.trace[n] == h);
        assert n == |s.trace| ==> CallHolds(s, t.trace[k].worker, t.trace[k].event);
      }
      forall k, n | 0 <= k < n < |t.trace| && t.trace[k].Succeeded? && t.trace[n].event == t.trace[k].event
        ensures t.trace[n].Queued?
      {
        if n == |s.trace| {
          assert s.trace[k] in s.trace && t.trace[n] == h;
        }
      }
    }
  }

  lemma CallStillHolds(s: State, m: Move, w: nat, e: string)
    requires WellFormed(s) && Enabled(s, m) && WellFormed(Next(s, m))
    requires CallHolds(s, w, e) && Next(s, m).trace != s.trace + [Gave(w, e)]
    ensures CallHolds(Next(s, m), w, e)
  {
    hide Next, Enabled, Holds;
    if e !in Next(s, m).claims {
      ClaimsAfter(s, m, e);
    }
    forall i: nat | Holds(Next(s, m), i, e) ensures i == w && At(Next(s, m), i, Running) {
      HoldersAfter(s, m, i, e);
      CallGoesOn(s, m, i, e);
    }
  }

  lemma CallBegins(s: State, m: Move, w: nat, e: string)
    requires Exclusive(s) && Enabled(s, m) && WellFormed(Next(s, m)) && At(Next(s, m), w, Running)
    requires m == Unwrap(w) && Holds(s, w, e)
    ensures CallHolds(Next(s, m), w, e)
  {
    hide Next, Enabled, Holds;
    if e !in Next(s, m).claims {
      ClaimsAfter(s, m, e);
    }
    forall i: nat | Holds(Next(s, m), i, e) ensures i == w {
      HoldersAfter(s, m, i, e);
    }
  }

  lemma StepOpenCalls(s: State, m: Move)
    requires Exclusive(s) && Enabled(s, m) && WellFormed(Next(s, m))
    ensures OpenCallsHold(Next(s, m))
  {
    hide Next, Enabled, Open, CallHolds, Holds;
    var t := Next(s, m);
    TraceAfter(s, m);
    forall k | 0 <= k < |t.trace| && Open(t.trace, k, |t.trace|)
      ensures CallHolds(t, t.trace[k].worker, t.trace[k].event)
    {
      if t.trace == s.trace {
        CallStillHolds(s, m, t.trace[k].worker, t.trace[k].event);
      } else {
        var h :| t.trace == s.trace + [h] && TraceEntry(s, m, h);
        OpenBefore(s.trace, h, k, |s.trace|);
        if k < |s.trace| {
          assert t.trace[|s.trace|] == h;
          CallStillHolds(s, m, t.trace[k].worker, t.trace[k].event);
        } else {
          CallBegins(s, m, h.worker, h.event);
        }
      }
    }
  }

  lemma StepSuccessHolds(s: State, m: Move)
    requires Exclusive(s) && Enabled(s, m) && WellFormed(Next(s, m))
    ensures SuccessHolds(Next(s, m))
  {
    hide Next, Enabled, Holds;
    var t := Next(s, m);
    TraceAfter(s, m);
    forall h | h in t.trace && h.Succeeded? ensures SuccessKeeps(t, h.event) {
      if h in s.trace {
        if h.event !in t.claims {
          ClaimsAfter(s, m, h.event);
        }
        forall i: nat | Holds(t, i, h.event) ensures false {
          HoldersAfter(s, m, i, h.event);
        }
      } else {
        SuccessComes(s, m, h);
      }
    }
  }

  lemma SuccessComes(s: State, m: Move, h: Happening)
    requires Exclusive(s) && Enabled(s, m) && WellFormed(Next(s, m)) && h.Succeeded? && TraceEntry(s, m, h)
    ensures SuccessKeeps(Next(s, m), h.event)
  {
    hide Next, Enabled;
    if h.event !in Next(s, m).claims {
      ClaimsAfter(s, m, h.event);
    }
    forall i: nat | Holds(Next(s, m), i, h.event) ensures false {
      HoldersAfter(s, m, i, h.event);
    }
  }

  lemma StepExclusive(s: State, m: Move)
    requires Exclusive(s) && Enabled(s, m)
    ensures Exclusive(Next(s, m))
  {
    hide Next, Enabled, OneOwner, OpenCallsHold, SuccessHolds;
    MoveKeepsForm(s, m);
    StepOneOwner(s, m);
    StepTrace(s, m);
    StepOpenCalls(s, m);
    StepSuccessHolds(s, m);
  }

  // ---- runs ------------------------------------------------------------------

  /** In every reachable state at most one delivery of an event is between its
      claim and its release, handler calls for an event take turns, and after a
      success none follows; a claim with a success is in the table. */
  lemma {:induction false} RunsAreExclusive(states: seq<State>, moves: seq<Move>, n: nat)
    requires IsRun(states, moves) && n < |states|
    ensures Exclusive(states[n])
  {
    if n > 0 {
      RunsAreExclusive(states, moves, n - 1);
      StepExclusive(states[n - 1], moves[n - 1]);
    }
  }

  lemma {:induction false} TraceGrows(states: seq<State>, moves: seq<Move>, a: nat, b: nat)
    requires IsRun(states, moves) && a <= b < |states|
    ensures states[a].trace <= states[b].trace
    decreases b
  {
    if a < b {
      hide Next, Enabled;
      TraceGrows(states, moves, a, b - 1);
      TraceAfter(states[b - 1], moves[b - 1]);
    }
  }

  /** Once a handler has returned success for an event, its claim is in the
      table in every later state, and no handler is called for it again. */
  lemma SuccessIsFinal(states: seq<State>, moves: seq<Move>, a: nat, b: nat, h: Happening, n: nat)
    requires IsRun(states, moves) && a <= b < |states|
    requires h in states[a].trace && h.Succeeded?
    ensures h.event in states[b].claims
    ensures |states[a].trace| <= n < |states[b].trace| && states[b].trace[n].event == h.event ==> states[b].trace[n].Queued?
  {
    TraceGrows(states, moves, a, b);
    RunsAreExclusive(states, moves, b);
    var k :| 0 <= k < |states[a].trace| && states[a].trace[k] == h;
    assert states[b].trace[k] == h;
  }
}
