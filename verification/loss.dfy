/** No message below a committed offset is lost, as long as no worker dies
    holding one and the writes that move a message elsewhere succeed. */
module NoLoss {
  import opened Retry
  import opened Broker

  // ---- where an event can be ---------------------------------------------------

  predicate HasSucceeded(s: State, e: string) {
    exists h :: h in s.trace && h.Succeeded? && h.event == e
  }

  predicate WasQueued(s: State, e: string) {
    exists h :: h in s.trace && h.Queued? && h.event == e
  }

  predicate Holds(messages: seq<Message>, e: string) {
    exists m :: m in messages && m.event == e
  }

  /** Between its claim and the end of its disposal. */
  predicate Handling(w: Worker) {
    w.pc.Owned? || w.pc.Running? || w.pc.Failed? || w.pc.Disposing?
  }

  predicate InFlight(s: State, i: nat, e: string)
    requires WellFormed(s)
  {
    i < |s.workers| && Handling(s.workers[i]) && EventOf(s, i) == e
  }

  /** Handled successfully, dead-lettered, or with a worker between claim and outcome. */
  ghost predicate Settled(s: State, e: string)
    requires WellFormed(s)
  {
    HasSucceeded(s, e) || Holds(s.dlq, e) || exists i: nat :: InFlight(s, i, e)
  }

  predicate Behind(w: Worker, p: nat, k: nat) {
    w.partition == p && !w.pc.Stopped? ==> w.offset < k || (w.offset == k && (w.pc.Idle? || w.pc.Got?))
  }

  /** Not committed, and no live reader of the partition is past it. */
  ghost predicate Ahead(s: State, p: nat, k: nat)
    requires WellFormed(s)
  {
    && p < |s.log| && s.committed[p] <= k < |s.log[p]|
    && forall i :: 0 <= i < |s.workers| ==> Behind(s.workers[i], p, k)
  }

  ghost predicate Fresh(s: State, e: string)
    requires WellFormed(s)
  {
    exists p: nat, k: nat :: FreshAt(s, p, k, e)
  }

  ghost predicate FreshAt(s: State, p: nat, k: nat, e: string)
    requires WellFormed(s)
  {
    Ahead(s, p, k) && s.log[p][k].event == e
  }

  /** Settled, or requeued with the copy still to be consumed. */
  ghost predicate Covered(s: State, e: string)
    requires WellFormed(s)
  {
    Settled(s, e) || (WasQueued(s, e) && (Holds(s.retries, e) || Fresh(s, e)))
  }

  /** The moves left out: a worker dying between claim and outcome, a claim
      taken by a request that reports an error, an envelope that does not unwrap
      in the explicit loop, a retry copy or dead letter not written, and a
      release not done before a requeue. */
  predicate Careful(s: State, m: Move)
    requires WellFormed(s) && Enabled(s, m)
  {
    match m
    case ClaimFails(_, ack) => ack.Refused?
    case Unwrap(i) => s.workers[i].mode.Group? || Handled(s, i).decodes
    case Release(i, ack) => ack.Refused? ==> !WillRequeue(s, i)
    case Requeue(_, ack) => !ack.Refused?
    case DeadLetter(_, ack) => !ack.Refused?
    case Crash(i) => !Handling(s.workers[i])
    case _ => true
  }

  // ---- the invariant -------------------------------------------------------------

  /** In flight, and not about to turn to the retry topic. */
  predicate Keeps(s: State, i: nat, e: string)
    requires WellFormed(s)
  {
    InFlight(s, i, e) && !(s.workers[i].pc.Disposing? && WillRequeue(s, i))
  }

  ghost predicate Backed(s: State, e: string)
    requires WellFormed(s)
  {
    HasSucceeded(s, e) || Holds(s.dlq, e) || exists i: nat :: Keeps(s, i, e)
  }

  /** A duplicate is skipped only for a claim that leads somewhere. */
  ghost predicate ClaimsBacked(s: State)
    requires WellFormed(s)
  {
    forall e :: e in s.claims ==> Backed(s, e)
  }

  ghost predicate CommitsCovered(s: State)
    requires WellFormed(s)
  {
    forall i: nat :: (At(s, i, Committing) || At(s, i, Passing)) ==> Covered(s, EventOf(s, i))
  }

  /** Every message of the partition below the offset is covered. */
  ghost predicate Below(s: State, p: nat, k: nat)
    requires WellFormed(s) && p < |s.log| && k <= |s.log[p]|
  {
    forall j :: 0 <= j < k ==> Covered(s, s.log[p][j].event)
  }

  ghost predicate Lossless(s: State) {
    && WellFormed(s) && ClaimsBacked(s) && CommitsCovered(s)
    && (forall p: nat :: p < |s.log| ==> Below(s, p, s.committed[p]))
    && (forall i: nat :: i < |s.workers| && !s.workers[i].pc.Stopped? ==>
          Below(s, s.workers[i].partition, s.workers[i].offset))
  }

  // ---- one move --------------------------------------------------------------------

  /** Outcomes are never taken back. */
  lemma OutcomesStay(s: State, m: Move, e: string)
    requires WellFormed(s) && Enabled(s, m)
    ensures HasSucceeded(s, e) ==> HasSucceeded(Next(s, m), e)
    ensures WasQueued(s, e) ==> WasQueued(Next(s, m), e)
    ensures Holds(s.dlq, e) ==> Holds(Next(s, m).dlq, e)
  {
    hide RetryCopy, WillRequeue, EventOf;
    assert s.trace <= Next(s, m).trace && s.dlq <= Next(s, m).dlq;
  }

  /** What becomes of a delivery in flight. */
  lemma FlightAfter(s: State, m: Move, i: nat, e: string)
    requires WellFormed(s) && Enabled(s, m) && Careful(s, m) && WellFormed(Next(s, m)) && InFlight(s, i, e)
    ensures Settled(Next(s, m), e) || (WasQueued(Next(s, m), e) && Holds(Next(s, m).retries, e))
  {
    var t := Next(s, m);
    LogGrows(s, m);
    if !Acts(m, i) {
      OthersStay(s, m, i);
      assert InFlight(t, i, e);
    } else if m.Finish? && m.ok {
      assert Succeeded(i, e) in t.trace;
    } else if m.Requeue? {
      assert Queued(i, e) in t.trace && RetryCopy(Handled(s, i)) in t.retries;
    } else if m.DeadLetter? {
      assert Handled(s, i) in t.dlq;
    } else {
      assert InFlight(t, i, e);
    }
  }

  /** A claim that leads somewhere still does, or is given up. */
  lemma KeeperAfter(s: State, m: Move, i: nat, e: string)
    requires WellFormed(s) && Enabled(s, m) && Careful(s, m) && WellFormed(Next(s, m)) && Keeps(s, i, e)
    ensures e in Next(s, m).claims ==> Backed(Next(s, m), e)
  {
    hide RetryCopy;
    var t := Next(s, m);
    LogGrows(s, m);
    if !Acts(m, i) {
      OthersStay(s, m, i);
      assert Keeps(t, i, e);
    } else if m.Finish? && m.ok {
      assert Succeeded(i, e) in t.trace;
    } else if m.DeadLetter? {
      assert Handled(s, i) in t.dlq;
    } else if e in t.claims {
      assert Keeps(t, i, e);
    }
  }

  lemma StepClaimsBacked(s: State, m: Move)
    requires Lossless(s) && Enabled(s, m) && Careful(s, m) && WellFormed(Next(s, m))
    ensures ClaimsBacked(Next(s, m))
  {
    hide Covered, Keeps;
    var t := Next(s, m);
    forall e | e in t.claims ensures Backed(t, e) {
      if e in s.claims {
        OutcomesStay(s, m, e);
        if i: nat :| Keeps(s, i, e) {
          KeeperAfter(s, m, i, e);
        }
      } else {
        ClaimerKeeps(s, m, e);
      }
    }
  }

  lemma ClaimerKeeps(s: State, m: Move, e: string)
    requires WellFormed(s) && Enabled(s, m) && Careful(s, m) && WellFormed(Next(s, m))
    requires e in Next(s, m).claims && e !in s.claims
    ensures Backed(Next(s, m), e)
  {
    hide RetryCopy;
    LogGrows(s, m);
    assert m.Claim?;
    assert Keeps(Next(s, m), m.worker, e);
  }

  predicate ClaimsAt(s: State, m: Move, p: nat, k: nat)
    requires WellFormed(s) && Enabled(s, m)
  {
    m.Claim? && s.workers[m.worker].partition == p && s.workers[m.worker].offset == k
  }

  lemma BehindAfter(s: State, m: Move, i: nat, p: nat, k: nat)
    requires WellFormed(s) && Enabled(s, m) && i < |s.workers| && Behind(s.workers[i], p, k)
    requires !ClaimsAt(s, m, p, k)
    ensures i < |Next(s, m).workers| && Behind(Next(s, m).workers[i], p, k)
  {
    if !Acts(m, i) {
      OthersStay(s, m, i);
    } else {
      hide RetryCopy, WillRequeue, EventOf;
    }
  }

  /** Only a commit by a worker past its message moves the committed offset. */
  lemma CommittedAfter(s: State, m: Move, p: nat)
    requires WellFormed(s) && Enabled(s, m) && p < |s.log|
    ensures |Next(s, m).committed| == |s.log|
    ensures Next(s, m).committed[p] != s.committed[p] ==>
              && m.Commit? && (At(s, m.worker, Committing) || At(s, m.worker, Passing))
              && s.workers[m.worker].partition == p
              && Next(s, m).committed[p] == s.workers[m.worker].offset + 1
  {
    hide RetryCopy, WillRequeue, EventOf;
  }

  lemma NewcomersStart(s: State, m: Move, i: nat)
    requires WellFormed(s) && Enabled(s, m) && |s.workers| <= i < |Next(s, m).workers|
    ensures m.Start? && i == |s.workers| && Next(s, m).workers[i] == Worker(m.mode, m.partition, m.offset, Idle)
    ensures m.partition < |s.log| && m.offset <= s.committed[m.partition]
  {
    hide RetryCopy, WillRequeue, EventOf;
  }

  /** A message nobody is past stays so, unless a worker claims it or skips it
      as a duplicate. */
  lemma AheadAfter(s: State, m: Move, p: nat, k: nat)
    requires WellFormed(s) && Enabled(s, m) && WellFormed(Next(s, m)) && Ahead(s, p, k)
    requires !ClaimsAt(s, m, p, k)
    ensures Ahead(Next(s, m), p, k)
  {
    hide Next, Enabled, ClaimsAt;
    LogGrows(s, m);
    CommittedAfter(s, m, p);
    forall i | 0 <= i < |Next(s, m).workers| ensures Behind(Next(s, m).workers[i], p, k) {
      if i < |s.workers| {
        BehindAfter(s, m, i, p, k);
      } else {
        NewcomersStart(s, m, i);
      }
    }
  }

  /** A republished copy is ahead of every reader. */
  lemma CopyIsAhead(s: State, m: Move)
    requires WellFormed(s) && Enabled(s, m) && m.Redeliver? && WellFormed(Next(s, m))
    ensures Fresh(Next(s, m), s.retries[m.copy].event)
  {
    assert FreshAt(Next(s, m), m.partition, |s.log[m.partition]|, s.retries[m.copy].event);
  }

  lemma SettledStays(s: State, m: Move, e: string)
    requires WellFormed(s) && Enabled(s, m) && Careful(s, m) && WellFormed(Next(s, m)) && Settled(s, e)
    ensures Covered(Next(s, m), e)
  {
    hide Next, Enabled, Careful, InFlight;
    OutcomesStay(s, m, e);
    if i: nat :| InFlight(s, i, e) {
      FlightAfter(s, m, i, e);
    }
  }

  lemma BackedIsSettled(s: State, e: string)
    requires WellFormed(s) && Backed(s, e)
    ensures Settled(s, e)
  {
    hide InFlight;
    if i: nat :| Keeps(s, i, e) {
      assert InFlight(s, i, e);
    }
  }

  lemma CopyStays(s: State, m: Move, e: string)
    requires WellFormed(s) && Enabled(s, m) && WellFormed(Next(s, m))
    requires WasQueued(s, e) && Holds(s.retries, e)
    ensures Covered(Next(s, m), e)
  {
    OutcomesStay(s, m, e);
    var c :| c in s.retries && c.event == e;
    if c !in Next(s, m).retries {
      CopyLeaves(s, m, c);
      CopyIsAhead(s, m);
    }
  }

  lemma CopyLeaves(s: State, m: Move, c: Message)
    requires WellFormed(s) && Enabled(s, m) && c in s.retries && c !in Next(s, m).retries
    ensures m.Redeliver? && s.retries[m.copy] == c
  {
    hide RetryCopy, WillRequeue, EventOf;
    if m.Redeliver? && !m.keep {
      var r, j := s.retries, m.copy;
      assert r == r[..j] + [r[j]] + r[j + 1..];
    }
  }

  lemma FreshStays(s: State, m: Move, e: string, p: nat, k: nat)
    requires Lossless(s) && Enabled(s, m) && Careful(s, m) && WellFormed(Next(s, m))
    requires WasQueued(s, e) && FreshAt(s, p, k, e)
    ensures Covered(Next(s, m), e)
  {
    hide Next, Careful, Settled;
    LogGrows(s, m);
    OutcomesStay(s, m, e);
    if ClaimsAt(s, m, p, k) {
      if e in s.claims {
        BackedIsSettled(s, e);
        SettledStays(s, m, e);
      } else {
        ClaimSettles(s, m.worker, e);
      }
    } else {
      AheadAfter(s, m, p, k);
      assert FreshAt(Next(s, m), p, k, e);
    }
  }

  lemma ClaimSettles(s: State, i: nat, e: string)
    requires WellFormed(s) && Enabled(s, Claim(i)) && WellFormed(Next(s, Claim(i))) && EventOf(s, i) == e && e !in s.claims
    ensures Settled(Next(s, Claim(i)), e)
  {
    assert InFlight(Next(s, Claim(i)), i, e);
  }

  lemma CoveredStays(s: State, m: Move, e: string)
    requires Lossless(s) && Enabled(s, m) && Careful(s, m) && WellFormed(Next(s, m)) && Covered(s, e)
    ensures Covered(Next(s, m), e)
  {
    hide Next, Enabled, Careful, Settled, FreshAt;
    if Settled(s, e) {
      SettledStays(s, m, e);
    } else if Holds(s.retries, e) {
      CopyStays(s, m, e);
    } else {
      var p: nat, k: nat :| FreshAt(s, p, k, e);
      FreshStays(s, m, e, p, k);
    }
  }

  lemma OutcomeCovers(s: State, e: string)
    requires WellFormed(s) && (HasSucceeded(s, e) || Holds(s.dlq, e))
    ensures Covered(s, e)
  {}

  lemma CommitterCovered(s: State, m: Move, i: nat)
    requires Lossless(s) && Enabled(s, m) && Careful(s, m) && WellFormed(Next(s, m)) && Acts(m, i)
    requires At(Next(s, m), i, Committing) || At(Next(s, m), i, Passing)
    ensures Covered(Next(s, m), EventOf(Next(s, m), i))
  {
    hide Covered, RetryCopy, WillRequeue;
    var e, t := EventOf(s, i), Next(s, m);
    LogGrows(s, m);
    assert EventOf(t, i) == e;
    if m.Finish? {
      assert Succeeded(i, e) in t.trace;
      OutcomeCovers(t, e);
    } else if m.DeadLetter? {
      assert Handled(s, i) in t.dlq;
      OutcomeCovers(t, e);
    } else {
      BackedIsSettled(s, e);
      SettledStays(s, m, e);
    }
  }

  lemma StepCommitsCovered(s: State, m: Move)
    requires Lossless(s) && Enabled(s, m) && Careful(s, m) && WellFormed(Next(s, m))
    ensures CommitsCovered(Next(s, m))
  {
    hide Next, Enabled, Careful, Covered;
    var t := Next(s, m);
    LogGrows(s, m);
    forall i: nat | At(t, i, Committing) || At(t, i, Passing) ensures Covered(t, EventOf(t, i)) {
      if i >= |s.workers| {
        NewcomersStart(s, m, i);
        assert false;
      } else if Acts(m, i) {
        CommitterCovered(s, m, i);
      } else {
        OthersStay(s, m, i);
        CoveredStays(s, m, EventOf(s, i));
      }
    }
  }

  /** A reader goes past a message only when the message is covered. */
  lemma OffsetAfter(s: State, m: Move, i: nat)
    requires Lossless(s) && Enabled(s, m) && Careful(s, m) && i < |s.workers|
    ensures i < |Next(s, m).workers|
    ensures var w, v := s.workers[i], Next(s, m).workers[i];
            && v.partition == w.partition && (w.pc.Stopped? ==> v.pc.Stopped?)
            && (v.offset != w.offset ==> v.offset == w.offset + 1 && Busy(w) && Covered(s, EventOf(s, i)))
  {
    hide Covered, RetryCopy;
    if !Acts(m, i) {
      OthersStay(s, m, i);
    } else if m.Claim? {
      if EventOf(s, i) in s.claims {
        BackedIsSettled(s, EventOf(s, i));
        SettledCovers(s, EventOf(s, i));
      }
    } else if m.Requeue? {
      assert InFlight(s, i, EventOf(s, i));
      SettledCovers(s, EventOf(s, i));
    }
  }

  lemma SettledCovers(s: State, e: string)
    requires WellFormed(s) && Settled(s, e)
    ensures Covered(s, e)
  {}

  lemma BelowAfter(s: State, m: Move, p: nat, k: nat)
    requires Lossless(s) && Enabled(s, m) && Careful(s, m) && WellFormed(Next(s, m))
    requires p < |s.log| && k <= |s.log[p]| && Below(s, p, k)
    ensures p < |Next(s, m).log| && k <= |Next(s, m).log[p]| && Below(Next(s, m), p, k)
  {
    hide Next, Enabled, Careful, Covered;
    LogGrows(s, m);
    forall j | 0 <= j < k ensures Covered(Next(s, m), Next(s, m).log[p][j].event) {
      CoveredStays(s, m, s.log[p][j].event);
    }
  }

  lemma BelowNext(s: State, p: nat, k: nat)
    requires WellFormed(s) && p < |s.log| && k < |s.log[p]| && Below(s, p, k) && Covered(s, s.log[p][k].event)
    ensures Below(s, p, k + 1)
  {}

  lemma StepReaders(s: State, m: Move, i: nat)
    requires Lossless(s) && Enabled(s, m) && Careful(s, m) && WellFormed(Next(s, m))
    requires i < |Next(s, m).workers| && !Next(s, m).workers[i].pc.Stopped?
    ensures Below(Next(s, m), Next(s, m).workers[i].partition, Next(s, m).workers[i].offset)
  {
    hide Next, Enabled, Careful, Covered;
    if i < |s.workers| {
      var w := s.workers[i];
      OffsetAfter(s, m, i);
      if Next(s, m).workers[i].offset == w.offset {
        BelowAfter(s, m, w.partition, w.offset);
      } else {
        BelowNext(s, w.partition, w.offset);
        BelowAfter(s, m, w.partition, w.offset + 1);
      }
    } else {
      NewcomersStart(s, m, i);
      BelowAfter(s, m, m.partition, s.committed[m.partition]);
    }
  }

  lemma StepCommitted(s: State, m: Move, p: nat)
    requires Lossless(s) && Enabled(s, m) && Careful(s, m) && WellFormed(Next(s, m)) && p < |Next(s, m).log|
    ensures Below(Next(s, m), p, Next(s, m).committed[p])
  {
    hide Next, Enabled, Careful, Covered;
    LogGrows(s, m);
    CommittedAfter(s, m, p);
    if Next(s, m).committed[p] == s.committed[p] {
      BelowAfter(s, m, p, s.committed[p]);
    } else {
      var w := s.workers[m.worker];
      BelowNext(s, p, w.offset);
      BelowAfter(s, m, p, w.offset + 1);
    }
  }

  lemma StepLossless(s: State, m: Move)
    requires Lossless(s) && Enabled(s, m) && Careful(s, m)
    ensures Lossless(Next(s, m))
  {
    hide Next, Enabled, Careful, ClaimsBacked, CommitsCovered, Below;
    MoveKeepsForm(s, m);
    StepClaimsBacked(s, m);
    StepCommitsCovered(s, m);
    forall p: nat | p < |Next(s, m).log| ensures Below(Next(s, m), p, Next(s, m).committed[p]) {
      StepCommitted(s, m, p);
    }
    forall i: nat | i < |Next(s, m).workers| && !Next(s, m).workers[i].pc.Stopped?
      ensures Below(Next(s, m), Next(s, m).workers[i].partition, Next(s, m).workers[i].offset)
    {
      StepReaders(s, m, i);
    }
  }

  // ---- runs --------------------------------------------------------------------------

  ghost predicate CarefulRun(states: seq<State>, moves: seq<Move>) {
    IsRun(states, moves) && forall k :: 0 <= k < |moves| ==> Careful(states[k], moves[k])
  }

  lemma {:induction false} RunsAreLossless(states: seq<State>, moves: seq<Move>, n: nat)
    requires CarefulRun(states, moves) && n < |states|
    ensures Lossless(states[n])
  {
    if n > 0 {
      RunsAreLossless(states, moves, n - 1);
      StepLossless(states[n - 1], moves[n - 1]);
    }
  }

  /** In every state of a careful run, the event of a message below its
      partition's committed offset was handled successfully, is dead-lettered,
      is with a worker between claim and outcome, or was requeued and its copy
      is still to be consumed. */
  lemma NoSilentLoss(states: seq<State>, moves: seq<Move>, n: nat, p: nat, k: nat)
    requires CarefulRun(states, moves) && n < |states| && p < |states[n].log| && k < states[n].committed[p]
    ensures Covered(states[n], states[n].log[p][k].event)
  {
    RunsAreLossless(states, moves, n);
    assert Below(states[n], p, states[n].committed[p]);
  }

  /** The explicit loop has no retry topic: there the last case is empty. */
  lemma {:induction false} ExplicitNeverRequeues(states: seq<State>, moves: seq<Move>, n: nat)
    requires IsRun(states, moves) && n < |states|
    requires forall k :: 0 <= k < |moves| && moves[k].Start? ==> moves[k].mode.Explicit?
    ensures forall i :: 0 <= i < |states[n].workers| ==> states[n].workers[i].mode.Explicit?
    ensures forall h :: h in states[n].trace ==> !h.Queued?
  {
    if n > 0 {
      ExplicitNeverRequeues(states, moves, n - 1);
      ExplicitStep(states[n - 1], moves[n - 1]);
    }
  }

  lemma ExplicitStep(s: State, m: Move)
    requires WellFormed(s) && Enabled(s, m) && (m.Start? ==> m.mode.Explicit?)
    requires forall i :: 0 <= i < |s.workers| ==> s.workers[i].mode.Explicit?
    requires forall h :: h in s.trace ==> !h.Queued?
    ensures forall i :: 0 <= i < |Next(s, m).workers| ==> Next(s, m).workers[i].mode.Explicit?
    ensures forall h :: h in Next(s, m).trace ==> !h.Queued?
  {
    hide RetryCopy, EventOf;
  }

  /** Careful runs of the explicit loop alone: below the committed offset
      everything succeeded, is dead-lettered, or is between claim and outcome. */
  lemma ExplicitLoopLosesNothing(states: seq<State>, moves: seq<Move>, n: nat, p: nat, k: nat)
    requires CarefulRun(states, moves) && n < |states| && p < |states[n].log| && k < states[n].committed[p]
    requires forall k :: 0 <= k < |moves| && moves[k].Start? ==> moves[k].mode.Explicit?
    ensures Settled(states[n], states[n].log[p][k].event)
  {
    NoSilentLoss(states, moves, n, p, k);
    ExplicitNeverRequeues(states, moves, n);
  }

  /** Once everything is committed, nothing waits in the retry topic and no
      worker holds a message, every event ever published was handled
      successfully or is dead-lettered. */
  lemma DrainedTopicsAreHandled(states: seq<State>, moves: seq<Move>, p: nat, k: nat)
    requires CarefulRun(states, moves)
    requires var s := states[|moves|];
             && s.retries == [] && (forall i :: 0 <= i < |s.workers| ==> !Handling(s.workers[i]))
             && (forall q :: 0 <= q < |s.log| ==> s.committed[q] == |s.log[q]|)
             && p < |s.log| && k < |s.log[p]|
    ensures var s := states[|moves|];
            HasSucceeded(s, s.log[p][k].event) || Holds(s.dlq, s.log[p][k].event)
  {
    NoSilentLoss(states, moves, |moves|, p, k);
  }
}
