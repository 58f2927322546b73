/** One iteration of each consumer loop, uninterrupted: the order of its requests,
    and what the iteration as a whole leaves. */
module Loops {
  import opened Retry
  import opened Broker

  /** How the handler call goes; the explicit loop may fail without calling it. */
  datatype Call = Succeeds | Fails(permanent: bool) | NeverCalled

  /** What becomes of the requests an iteration makes. */
  datatype Outcomes = Outcomes(claim: Ack, call: Call, release: Ack, queue: Ack, letter: Ack, commit: Ack)

  datatype Claiming = Taken | Duplicate | Unclaimed

  /** What a handler call leaves in the trace. */
  function CallTrace(i: nat, e: string, call: Call): seq<Happening> {
    match call
    case Succeeds => [Started(i, e), Succeeded(i, e)]
    case Fails(_) => [Started(i, e), Gave(i, e)]
    case NeverCalled => []
  }

  /** Handler calls for the event. */
  function Calls(trace: seq<Happening>, e: string): nat {
    if trace == [] then 0
    else
      var last := trace[|trace| - 1];
      Calls(trace[..|trace| - 1], e) + if last.Started? && last.event == e then 1 else 0
  }

  lemma CallsAppended(trace: seq<Happening>, h: Happening, e: string)
    ensures Calls(trace + [h], e) == Calls(trace, e) + if h.Started? && h.event == e then 1 else 0
  {
    assert (trace + [h])[..|trace|] == trace;
  }

  /** A call is counted once, and nothing else an iteration notes. */
  lemma CallIsCounted(trace: seq<Happening>, i: nat, e: string, call: Call, queued: bool)
    requires !call.NeverCalled?
    ensures Calls(trace + CallTrace(i, e, call) + (if queued then [Queued(i, e)] else []), e) == Calls(trace, e) + 1
  {
    var called := trace + CallTrace(i, e, call);
    var outcome := if call.Succeeds? then Succeeded(i, e) else Gave(i, e);
    assert called == (trace + [Started(i, e)]) + [outcome];
    CallsAppended(trace, Started(i, e), e);
    CallsAppended(trace + [Started(i, e)], outcome, e);
    CallsAppended(called, Queued(i, e), e);
    assert called + [] == called;
  }

  /** An iteration leaves one more call or none. */
  lemma IterationIsCounted(before: seq<Happening>, after: seq<Happening>, i: nat, e: string, call: Call)
    requires !call.NeverCalled? && Iterated(before, after, i, e, call)
    ensures Calls(after, e) == Calls(before, e) + if after == before then 0 else 1
  {
    var called := before + CallTrace(i, e, call);
    CallIsCounted(before, i, e, call, false);
    CallIsCounted(before, i, e, call, true);
    assert called + [] == called;
    assert after == before || after == called || after == called + [Queued(i, e)];
  }

  predicate Iterated(before: seq<Happening>, after: seq<Happening>, i: nat, e: string, call: Call) {
    after == before || after == before + CallTrace(i, e, call) || after == before + CallTrace(i, e, call) + [Queued(i, e)]
  }

  lemma Outcome(before: seq<Happening>, after: seq<Happening>, i: nat, e: string, call: Call)
    requires Iterated(before, after, i, e, call)
    ensures call.Succeeds? && after != before ==> Succeeded(i, e) in after
  {
    if call.Succeeds? && after != before {
      assert after[|before| + 1] == Succeeded(i, e);
    }
  }

  /** The message worker `i` takes next. */
  function Last(s: State, i: nat): Message
    requires WellFormed(s) && i < |s.workers| && s.workers[i].offset < |s.log[s.workers[i].partition]|
  {
    s.log[s.workers[i].partition][s.workers[i].offset]
  }

  /** The same message on its next attempt: event, value and whether it unwraps
      are kept, and every header but the retry header. */
  ghost predicate NextAttempt(copy: Message, m: Message) {
    && copy.event == m.event && copy.value == m.value && copy.decodes == m.decodes
    && (AttemptOf(m.headers) < MAX_INT64 ==> AttemptOf(copy.headers) == AttemptOf(m.headers) + 1)
    && exists at :: KeptAt(copy.headers, m.headers, at)
  }

  lemma CopyIsNextAttempt(m: Message)
    ensures NextAttempt(RetryCopy(m), m)
  {
    hide Requeued;
    RequeuedKeeps(m.headers, AttemptOf(m.headers) + 1);
    if AttemptOf(m.headers) < MAX_INT64 {
      RequeuedAttempt(m.headers, AttemptOf(m.headers) + 1);
    }
  }

  /** Handler calls a message may cost. */
  function Most(maxAttempts: nat): nat {
    if maxAttempts == 0 then 1 else maxAttempts
  }

  predicate Transient(call: Call) {
    call.Fails? && !call.permanent
  }

  /** The chain of attempts ends with iteration `n`: the first that is no
      transient failure, or the last attempt. */
  ghost predicate EndsAt(w: nat -> Outcomes, maxAttempts: nat, n: nat) {
    && (forall j: nat :: j < n ==> Transient(w(j).call))
    && n < Most(maxAttempts) && (Transient(w(n).call) ==> n + 1 == Most(maxAttempts))
  }

  /** The message as it was published, on attempt `n`. */
  ghost predicate OnAttempt(d: Message, m: Message, n: nat) {
    d.event == m.event && d.value == m.value && d.decodes == m.decodes && AttemptOf(d.headers) == n
  }

  /** How a chain of `n + 1` handler calls ends: with a success that stays claimed,
      or with the message dead-lettered and its event unclaimed. */
  ghost predicate Ended(s: State, t: State, i: nat, m: Message, call: Call, n: nat) {
    && Calls(t.trace, m.event) == Calls(s.trace, m.event) + n + 1
    && if call.Succeeds? then Succeeded(i, m.event) in t.trace && m.event in t.claims && t.dlq == s.dlq
       else |t.dlq| == |s.dlq| + 1 && s.dlq <= t.dlq && OnAttempt(t.dlq[|s.dlq|], m, n + 1) && m.event !in t.claims
  }

  /** Every request works. */
  predicate Calm(w: Outcomes) {
    w.claim.Done? && w.release.Done? && w.queue.Done? && w.letter.Done? && w.commit.Done?
  }

  class Bus {
    var state: State

    constructor (s: State)
      ensures state == s
    {
      state := s;
    }

    method Step(m: Move)
      requires WellFormed(state) && Enabled(state, m)
      modifies this
      ensures state == Next(old(state), m) && WellFormed(state)
    {
      MoveKeepsForm(state, m);
      state := Next(state, m);
    }

    /** Fetches the next message and claims its event. */
    method FetchAndClaim(i: nat, ack: Ack) returns (c: Claiming)
      requires WellFormed(state) && At(state, i, Idle)
      requires state.workers[i].offset < |state.log[state.workers[i].partition]|
      modifies this
      ensures WellFormed(state)
      ensures var s, v := old(state), old(state).workers[i];
              var e := s.log[v.partition][v.offset].event;
              && c == (if !ack.Done? then Unclaimed else if e in s.claims then Duplicate else Taken)
              && state == (match c
                           case Taken => Moved(s, i, Owned).(claims := s.claims + {e})
                           case Duplicate => if v.mode.Group? then Passed(s, i) else Moved(s, i, Passing)
                           case Unclaimed => Moved(s, i, Stopped).(claims := if ack.Lost? then s.claims + {e} else s.claims))
    {
      hide RetryCopy, WillRequeue;
      var s, v := state, state.workers[i];
      Step(Fetch(i));
      if ack != Done {
        Step(ClaimFails(i, ack));
        assert state.workers == Moved(s, i, Stopped).workers;
        return Unclaimed;
      }
      var claimed := Handled(state, i).event !in state.claims;
      Step(Claim(i));
      assert state.workers == (if claimed then Moved(s, i, Owned) else if v.mode.Group? then Passed(s, i) else Moved(s, i, Passing)).workers;
      return if claimed then Taken else Duplicate;
    }

    /** Calls the handler, or fails before. */
    method CallHandler(i: nat, call: Call)
      requires WellFormed(state) && At(state, i, Owned) && Handled(state, i).decodes
      requires call.NeverCalled? ==> state.workers[i].mode.Explicit?
      modifies this
      ensures WellFormed(state)
      ensures state == Moved(old(state), i, if call.Succeeds? then Committing else Failed(call.Fails? && call.permanent)).(
                         trace := old(state).trace + CallTrace(i, EventOf(old(state), i), call))
    {
      hide RetryCopy, WillRequeue;
      var s := state;
      if call.NeverCalled? {
        Step(NotCalled(i));
      } else {
        Step(Unwrap(i));
        Step(Finish(i, call.Succeeds?, call.Fails? && call.permanent));
      }
      assert state.workers == Moved(s, i, if call.Succeeds? then Committing else Failed(call.Fails? && call.permanent)).workers;
      assert state.trace == s.trace + CallTrace(i, EventOf(s, i), call);
    }

    /** Releases the claim; an error is ignored. */
    method ReleaseClaim(i: nat, ack: Ack)
      requires WellFormed(state) && i < |state.workers| && state.workers[i].pc.Failed?
      modifies this
      ensures WellFormed(state)
      ensures var s := old(state);
              state == Moved(s, i, Disposing(s.workers[i].pc.permanent)).(
                claims := if ack.Refused? then s.claims else s.claims - {EventOf(s, i)})
    {
      hide RetryCopy, WillRequeue;
      Step(Release(i, ack));
    }

    /** Worker `i` of the explicit loop takes the next message of its partition.
        A duplicate and a handled message are committed; a failed one is released,
        dead-lettered and committed whether or not those two requests worked; an
        undecodable one keeps its claim and stops the worker. */
    method ExplicitIteration(i: nat, w: Outcomes) returns (goesOn: bool)
      requires WellFormed(state) && At(state, i, Idle) && state.workers[i].mode.Explicit?
      requires state.workers[i].offset < |state.log[state.workers[i].partition]|
      modifies this
      ensures WellFormed(state) && state.log == old(state).log && state.retries == old(state).retries
      ensures var s, v := old(state), old(state).workers[i];
              var m := s.log[v.partition][v.offset];
              var duplicate, failed := m.event in s.claims, !w.call.Succeeds?;
              var handled := w.claim.Done? && !duplicate && m.decodes;
              && (goesOn <==> w.claim.Done? && (duplicate || m.decodes) && w.commit.Done?)
              && state.workers == s.workers[i := if goesOn then v.(offset := v.offset + 1) else v.(pc := Stopped)]
              && state.committed == (if w.claim.Done? && (duplicate || m.decodes) && !w.commit.Refused?
                                     then s.committed[v.partition := v.offset + 1] else s.committed)
              && (m.event in state.claims <==> duplicate || (if handled then !failed || w.release.Refused? else !w.claim.Refused?))
              && state.claims - {m.event} == s.claims - {m.event}
              && state.dlq == (if handled && failed && !w.letter.Refused? then s.dlq + [m] else s.dlq)
              && state.trace == s.trace + (if handled then CallTrace(i, m.event, w.call) else [])
    {
      hide RetryCopy, AttemptOf, Next, Enabled;
      var claiming := FetchAndClaim(i, w.claim);
      if claiming.Unclaimed? {
        return false;
      }
      if claiming.Taken? {
        if !Handled(state, i).decodes {
          StopUndecoded(i);
          return false;
        }
        ServeExplicitly(i, w);
      }
      CommitOffset(i, w.commit);
      return w.commit.Done?;
    }

    /** The handler call; after a failure the release and the dead letter. */
    method ServeExplicitly(i: nat, w: Outcomes)
      requires WellFormed(state) && At(state, i, Owned) && state.workers[i].mode.Explicit? && Handled(state, i).decodes
      modifies this
      ensures WellFormed(state)
      ensures var s, e, failed := old(state), EventOf(old(state), i), !w.call.Succeeds?;
              state == Moved(s, i, Committing).(
                trace := s.trace + CallTrace(i, e, w.call),
                claims := if failed && !w.release.Refused? then s.claims - {e} else s.claims,
                dlq := if failed && !w.letter.Refused? then s.dlq + [Handled(s, i)] else s.dlq)
    {
      hide RetryCopy, AttemptOf, Next, Enabled;
      ghost var s := state;
      CallHandler(i, w.call);
      if !w.call.Succeeds? {
        ReleaseClaim(i, w.release);
        WriteDeadLetter(i, w.letter);
      }
      assert state.workers == Moved(s, i, Committing).workers;
    }

    method StopUndecoded(i: nat)
      requires WellFormed(state) && At(state, i, Owned) && state.workers[i].mode.Explicit? && !Handled(state, i).decodes
      modifies this
      ensures WellFormed(state) && state == Moved(old(state), i, Stopped)
    {
      hide RetryCopy, WillRequeue;
      Step(Unwrap(i));
    }

    /** Writes the dead letter of a message that will not be retried. */
    method WriteDeadLetter(i: nat, ack: Ack)
      requires WellFormed(state) && i < |state.workers| && state.workers[i].pc.Disposing? && !WillRequeue(state, i)
      modifies this
      ensures WellFormed(state)
      ensures var s := old(state);
              state == Moved(s, i, if s.workers[i].mode.Group? then Stopped else Committing).(
                dlq := if ack.Refused? then s.dlq else s.dlq + [Handled(s, i)])
    {
      hide RetryCopy, AttemptOf;
      Step(DeadLetter(i, ack));
    }

    method CommitOffset(i: nat, ack: Ack)
      requires WellFormed(state) && (At(state, i, Committing) || At(state, i, Passing))
      modifies this
      ensures WellFormed(state)
      ensures var s := old(state);
              state == (if ack.Done? then Passed(s, i) else Moved(s, i, Stopped)).(
                committed := if ack.Refused? then s.committed
                             else s.committed[s.workers[i].partition := s.workers[i].offset + 1])
    {
      hide RetryCopy, WillRequeue;
      Step(Commit(i, ack));
    }

    /** Puts the copy with the next attempt on the retry topic. */
    method EnqueueRetry(i: nat, ack: Ack)
      requires WellFormed(state) && At(state, i, Disposing(false)) && WillRequeue(state, i)
      modifies this
      ensures WellFormed(state)
      ensures var s := old(state);
              state == (if ack.Done? then Passed(s, i) else Moved(s, i, Stopped)).(
                retries := if ack.Refused? then s.retries else s.retries + [RetryCopy(Handled(s, i))],
                trace := if ack.Refused? then s.trace else s.trace + [Queued(i, EventOf(s, i))])
    {
      hide RetryCopy, AttemptOf;
      Step(Requeue(i, ack));
    }

    /** A reader of the group loop takes the next message. A duplicate is passed
        without a commit; a failed one is released and requeued with the next
        attempt or, when permanent or out of attempts, dead-lettered, after which
        the reader stops, as it does for an undecodable one; only success commits. */
    method GroupIteration(i: nat, w: Outcomes) returns (goesOn: bool)
      requires WellFormed(state) && At(state, i, Idle) && state.workers[i].mode.Group? && !w.call.NeverCalled?
      requires state.workers[i].offset < |state.log[state.workers[i].partition]|
      modifies this
      ensures WellFormed(state) && state.log == old(state).log
      ensures var s, v := old(state), old(state).workers[i];
              var m := s.log[v.partition][v.offset];
              var duplicate, failed := m.event in s.claims, w.call.Fails?;
              var handled := w.claim.Done? && !duplicate && m.decodes;
              var requeued := handled && failed && !w.call.permanent && AttemptOf(m.headers) < s.maxAttempts;
              var buried := w.claim.Done? && !duplicate && (!m.decodes || (failed && !requeued));
              && (goesOn <==> (w.claim.Done? && duplicate) || (handled && !failed && w.commit.Done?) || (requeued && w.queue.Done?))
              && state.workers == s.workers[i := if goesOn then v.(offset := v.offset + 1) else v.(pc := Stopped)]
              && state.committed == (if handled && !failed && !w.commit.Refused?
                                     then s.committed[v.partition := v.offset + 1] else s.committed)
              && (m.event in state.claims <==> duplicate || (if handled && failed then w.release.Refused? else !w.claim.Refused?))
              && state.claims - {m.event} == s.claims - {m.event}
              && (if requeued && !w.queue.Refused?
                  then |state.retries| == |s.retries| + 1 && s.retries <= state.retries && NextAttempt(state.retries[|s.retries|], m)
                  else state.retries == s.retries)
              && state.dlq == (if buried && !w.letter.Refused? then s.dlq + [m] else s.dlq)
              && state.trace == s.trace + (if handled then CallTrace(i, m.event, w.call) else [])
                                + (if requeued && !w.queue.Refused? then [Queued(i, m.event)] else [])
              && state.maxAttempts == s.maxAttempts
    {
      hide RetryCopy, AttemptOf, Next, Enabled;
      var claiming := FetchAndClaim(i, w.claim);
      if !claiming.Taken? {
        return claiming.Duplicate?;
      }
      if !Handled(state, i).decodes {
        TurnToDeadLetter(i);
        WriteDeadLetter(i, w.letter);
        return false;
      }
      CopyIsNextAttempt(Handled(state, i));
      goesOn := ServeInGroup(i, w);
    }

    /** The handler call and what follows its outcome. */
    method ServeInGroup(i: nat, w: Outcomes) returns (goesOn: bool)
      requires WellFormed(state) && At(state, i, Owned) && state.workers[i].mode.Group? && Handled(state, i).decodes
      requires !w.call.NeverCalled?
      modifies this
      ensures WellFormed(state)
      ensures var s, v, m := old(state), old(state).workers[i], Handled(old(state), i);
              var failed := w.call.Fails?;
              var requeued := failed && !w.call.permanent && AttemptOf(m.headers) < s.maxAttempts;
              var queued := requeued && !w.queue.Refused?;
              && (goesOn <==> if failed then requeued && w.queue.Done? else w.commit.Done?)
              && state == (if goesOn then Passed(s, i) else Moved(s, i, Stopped)).(
                   committed := if !failed && !w.commit.Refused? then s.committed[v.partition := v.offset + 1] else s.committed,
                   claims := if failed && !w.release.Refused? then s.claims - {m.event} else s.claims,
                   retries := if queued then s.retries + [RetryCopy(m)] else s.retries,
                   dlq := if failed && !requeued && !w.letter.Refused? then s.dlq + [m] else s.dlq,
                   trace := s.trace + CallTrace(i, m.event, w.call) + if queued then [Queued(i, m.event)] else [])
    {
      hide RetryCopy, AttemptOf, Next, Enabled, CallTrace;
      ghost var s := state;
      CallHandler(i, w.call);
      assert Handled(state, i) == Handled(s, i) && state.workers[i].mode.Group?;
      assert Moved(state, i, Stopped).workers == Moved(s, i, Stopped).workers && Passed(state, i).workers == Passed(s, i).workers;
      if w.call.Fails? {
        goesOn := RetryOrBury(i, w);
      } else {
        CommitOffset(i, w.commit);
        goesOn := w.commit.Done?;
      }
    }

    /** Disposes of a failed message: its claim is released, then it is requeued or
        dead-lettered. */
    method RetryOrBury(i: nat, w: Outcomes) returns (goesOn: bool)
      requires WellFormed(state) && i < |state.workers| && state.workers[i].pc.Failed? && state.workers[i].mode.Group?
      modifies this
      ensures WellFormed(state)
      ensures var s, m := old(state), Handled(old(state), i);
              var requeued := !s.workers[i].pc.permanent && AttemptOf(m.headers) < s.maxAttempts;
              && (goesOn <==> requeued && w.queue.Done?)
              && state == (if goesOn then Passed(s, i) else Moved(s, i, Stopped)).(
                   claims := if w.release.Refused? then s.claims else s.claims - {m.event},
                   retries := if requeued && !w.queue.Refused? then s.retries + [RetryCopy(m)] else s.retries,
                   trace := if requeued && !w.queue.Refused? then s.trace + [Queued(i, m.event)] else s.trace,
                   dlq := if !requeued && !w.letter.Refused? then s.dlq + [m] else s.dlq)
    {
      hide RetryCopy, AttemptOf, Next, Enabled;
      ghost var s := state;
      ReleaseClaim(i, w.release);
      assert Handled(state, i) == Handled(s, i) && state.workers[i].mode.Group?;
      assert Moved(state, i, Stopped).workers == Moved(s, i, Stopped).workers && Passed(state, i).workers == Passed(s, i).workers;
      goesOn := false;
      if WillRequeue(state, i) {
        hide WillRequeue;
        EnqueueRetry(i, w.queue);
        goesOn := w.queue.Done?;
      } else {
        WriteDeadLetter(i, w.letter);
      }
    }

    /** The retry topic gives its only copy back to the partition. */
    method TakeCopyBack(p: nat)
      requires WellFormed(state) && p < |state.log| && |state.retries| == 1
      modifies this
      ensures WellFormed(state)
      ensures var s := old(state); state == s.(log := s.log[p := s.log[p] + s.retries], retries := [])
    {
      hide RetryCopy, WillRequeue, EventOf;
      assert state.retries == [state.retries[0]] && state.retries[..0] + state.retries[1..] == [];
      Step(Redeliver(0, p, false));
    }

    /** The last message of a partition and all its retry copies through one
        reader, nobody else acting: the event costs at most MaxAttempts handler
        calls. When every request works, a claimed event is skipped, an undecodable
        message is dead-lettered uncalled, and any other gets exactly the calls up
        to the first that does not fail transiently, or MaxAttempts of them; then it
        succeeded and stays claimed, or the message is dead-lettered as published. */
    method DriveMessage(i: nat, w: nat -> Outcomes)
      requires WellFormed(state) && At(state, i, Idle) && state.workers[i].mode.Group? && state.retries == []
      requires state.workers[i].offset + 1 == |state.log[state.workers[i].partition]|
      requires AttemptOf(Last(state, i).headers) == 1 && state.maxAttempts <= MAX_INT64
      requires forall k :: !w(k).call.NeverCalled?
      modifies this
      ensures WellFormed(state)
      ensures var s, e := old(state), Last(old(state), i).event;
              && Calls(state.trace, e) <= Calls(s.trace, e) + Most(s.maxAttempts)
              && ((forall k :: Calm(w(k))) && e in s.claims ==> state.trace == s.trace && state.dlq == s.dlq)
              && ((forall k :: Calm(w(k))) && e !in s.claims && !Last(s, i).decodes ==>
                    state.trace == s.trace && state.dlq == s.dlq + [Last(s, i)])
              && ((forall k :: Calm(w(k))) && e !in s.claims && Last(s, i).decodes ==>
                    exists n: nat :: EndsAt(w, s.maxAttempts, n) && Ended(s, state, i, Last(s, i), w(n).call, n))
    {
      hide RetryCopy, AttemptOf, Next, Enabled, Requeued, Calls, WillRequeue, KeptAt;
      ghost var s, e, first := state, Last(state, i).event, Last(state, i);
      var p := state.workers[i].partition;
      var k := 0;
      while true
        invariant WellFormed(state) && At(state, i, Idle) && state.workers[i].mode.Group? && state.retries == []
        invariant state.workers[i].partition == p && state.workers[i].offset + 1 == |state.log[p]|
        invariant OnAttempt(Last(state, i), first, k + 1) && state.maxAttempts == s.maxAttempts
        invariant k < Most(s.maxAttempts)
        invariant Calls(state.trace, e) == Calls(s.trace, e) + k && state.dlq == s.dlq
        invariant if k == 0 then state == s && Last(state, i) == first else e !in s.claims && first.decodes
        invariant forall j :: 0 <= j < k ==> Transient(w(j).call)
        invariant (forall j :: Calm(w(j))) && k > 0 ==> e !in state.claims
        decreases s.maxAttempts - k
      {
        ghost var before, m := state, Last(state, i);
        var goesOn := GroupIteration(i, w(k));
        IterationIsCounted(before.trace, state.trace, i, e, w(k).call);
        if |state.retries| == 0 || !goesOn {
          Outcome(before.trace, state.trace, i, e, w(k).call);
          assert (forall j :: Calm(w(j))) && e !in s.claims && first.decodes ==>
                   EndsAt(w, s.maxAttempts, k) && Ended(s, state, i, first, w(k).call, k);
          return;
        }
        TakeCopyBack(p);
        k := k + 1;
      }
    }

    method TurnToDeadLetter(i: nat)
      requires WellFormed(state) && At(state, i, Owned) && state.workers[i].mode.Group? && !Handled(state, i).decodes
      modifies this
      ensures WellFormed(state) && state == Moved(old(state), i, Disposing(true))
    {
      hide RetryCopy, WillRequeue;
      Step(Unwrap(i));
    }
  }
}
