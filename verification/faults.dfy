/** Each fault `NoLoss.Careful` leaves out does lose a message: one run for each,
    careful but for that one move. */
module LossByFault {
  import opened Retry
  import opened Broker
  import opened NoLoss

  /** A message below the committed offset that nothing will handle. */
  ghost predicate Loses(s: State) {
    WellFormed(s) && exists p, k :: 0 <= p < |s.log| && 0 <= k < s.committed[p] && !Covered(s, s.log[p][k].event)
  }

  ghost predicate CarefulBut(states: seq<State>, moves: seq<Move>, fault: Move) {
    IsRun(states, moves) && forall k :: 0 <= k < |moves| ==> moves[k] == fault || Careful(states[k], moves[k])
  }

  /** Some run whose moves are all careful but `fault` ends in `s`. */
  ghost predicate Reached(fault: Move, s: State) {
    exists states, moves :: CarefulBut(states, moves, fault) && states[|moves|] == s
  }

  predicate Allowed(s: State, m: Move, fault: Move) {
    WellFormed(s) && Enabled(s, m) && (m == fault || Careful(s, m))
  }

  lemma Go(fault: Move, s: State, m: Move, t: State)
    requires Reached(fault, s) && Allowed(s, m, fault) && Next(s, m) == t
    ensures Reached(fault, t)
  {
    hide Enabled, Next, Careful, WellFormed;
    var states, moves :| CarefulBut(states, moves, fault) && states[|moves|] == s;
    RunsExtend(states, moves, m);
    assert CarefulBut(states + [t], moves + [m], fault);
  }

  // ---- one message, one worker ------------------------------------------------

  const MESSAGE := Message("a", true, [], "")
  const GARBLED := Message("a", false, [], "")

  function One(m: Message, mode: Mode, pc: Pc, claims: set<string>, trace: seq<Happening>): State {
    State([[m]], [0], claims, [], [], [Worker(mode, 0, 0, pc)], trace, 3)
  }

  lemma Published(m: Message, fault: Move)
    ensures Reached(fault, State([[m]], [0], {}, [], [], [], [], 3))
  {
    var s := Initial(1, 3);
    assert CarefulBut([s], [], fault);
    assert s == State([[]], [0], {}, [], [], [], [], 3);
    var t := State([[m]], [0], {}, [], [], [], [], 3);
    assert Next(s, Publish(0, m)).log[0] == [m];
    hide Reached;
    Go(fault, s, Publish(0, m), t);
  }

  lemma Fetched(m: Message, mode: Mode, fault: Move)
    ensures Reached(fault, One(m, mode, Got, {}, []))
  {
    hide Reached, RetryCopy;
    Published(m, fault);
    var s := State([[m]], [0], {}, [], [], [], [], 3);
    Go(fault, s, Start(mode, 0, 0), One(m, mode, Idle, {}, []));
    Go(fault, One(m, mode, Idle, {}, []), Fetch(0), One(m, mode, Got, {}, []));
  }

  lemma Claimed(m: Message, mode: Mode, fault: Move)
    ensures Reached(fault, One(m, mode, Owned, {m.event}, []))
  {
    hide Reached, RetryCopy;
    Fetched(m, mode, fault);
    Go(fault, One(m, mode, Got, {}, []), Claim(0), One(m, mode, Owned, {m.event}, []));
  }

  function Two(m: Message, offset: nat, pc: Pc, committed: nat): State {
    State([[m]], [committed], {m.event}, [], [], [Worker(Explicit, 0, 0, Stopped), Worker(Explicit, 0, offset, pc)], [], 3)
  }

  /** A message claimed by a stopped worker is skipped by the next generation. */
  lemma NextGenerationSkips(m: Message, fault: Move)
    requires Reached(fault, One(m, Explicit, Stopped, {m.event}, []))
    ensures Reached(fault, Two(m, 1, Idle, 1)) && Loses(Two(m, 1, Idle, 1))
  {
    hide Reached, RetryCopy;
    NextGenerationFetches(m, fault);
    Go(fault, Two(m, 0, Got, 0), Claim(1), Two(m, 0, Passing, 0));
    NextGenerationCommits(m, fault);
  }

  lemma NextGenerationCommits(m: Message, fault: Move)
    requires Reached(fault, Two(m, 0, Passing, 0))
    ensures Reached(fault, Two(m, 1, Idle, 1)) && Loses(Two(m, 1, Idle, 1))
  {
    hide Reached, RetryCopy, Loses;
    Go(fault, Two(m, 0, Passing, 0), Commit(1, Done), Two(m, 1, Idle, 1));
    Forgotten(Two(m, 1, Idle, 1), 0, 0);
  }

  lemma NextGenerationFetches(m: Message, fault: Move)
    requires Reached(fault, One(m, Explicit, Stopped, {m.event}, []))
    ensures Reached(fault, Two(m, 0, Got, 0))
  {
    hide Reached, RetryCopy;
    Go(fault, One(m, Explicit, Stopped, {m.event}, []), Start(Explicit, 0, 0), Two(m, 0, Idle, 0));
    Go(fault, Two(m, 0, Idle, 0), Fetch(1), Two(m, 0, Got, 0));
  }

  lemma Forgotten(s: State, p: nat, k: nat)
    requires WellFormed(s) && p < |s.log| && k < s.committed[p]
    requires s.dlq == [] && s.retries == []
    requires forall i :: 0 <= i < |s.workers| ==> !Handling(s.workers[i])
    requires forall q :: 0 <= q < |s.log| ==> s.committed[q] == |s.log[q]|
    requires forall h :: h in s.trace && h.event == s.log[p][k].event ==> !h.Succeeded?
    ensures Loses(s)
  {
    assert !Covered(s, s.log[p][k].event);
  }

  /** A worker that dies between claim and outcome. */
  lemma CrashLoses()
    ensures exists t :: Reached(Crash(0), t) && Loses(t)
  {
    hide Reached, RetryCopy, Loses;
    Claimed(MESSAGE, Explicit, Crash(0));
    Go(Crash(0), One(MESSAGE, Explicit, Owned, {"a"}, []), Crash(0), One(MESSAGE, Explicit, Stopped, {"a"}, []));
    NextGenerationSkips(MESSAGE, Crash(0));
  }

  /** A claim stored although its request reports an error. */
  lemma LostClaimLoses()
    ensures exists t :: Reached(ClaimFails(0, Lost), t) && Loses(t)
  {
    hide Reached, RetryCopy, Loses;
    var fault := ClaimFails(0, Lost);
    Fetched(MESSAGE, Explicit, fault);
    Go(fault, One(MESSAGE, Explicit, Got, {}, []), fault, One(MESSAGE, Explicit, Stopped, {"a"}, []));
    NextGenerationSkips(MESSAGE, fault);
  }

  /** An envelope that does not unwrap in the explicit loop: the claim stays. */
  lemma GarbledLoses()
    ensures exists t :: Reached(Unwrap(0), t) && Loses(t)
  {
    hide Reached, RetryCopy, Loses;
    Claimed(GARBLED, Explicit, Unwrap(0));
    Go(Unwrap(0), One(GARBLED, Explicit, Owned, {"a"}, []), Unwrap(0), One(GARBLED, Explicit, Stopped, {"a"}, []));
    NextGenerationSkips(GARBLED, Unwrap(0));
  }

  const CALLED := [Started(0, "a"), Gave(0, "a")]

  lemma HandlerFailed(mode: Mode, fault: Move)
    ensures Reached(fault, One(MESSAGE, mode, Failed(false), {"a"}, CALLED))
  {
    hide Reached, RetryCopy;
    Claimed(MESSAGE, mode, fault);
    Go(fault, One(MESSAGE, mode, Owned, {"a"}, []), Unwrap(0), One(MESSAGE, mode, Running, {"a"}, [Started(0, "a")]));
    Go(fault, One(MESSAGE, mode, Running, {"a"}, [Started(0, "a")]), Finish(0, false, false),
       One(MESSAGE, mode, Failed(false), {"a"}, CALLED));
  }

  /** A dead letter not written: the explicit loop commits the offset anyway. */
  lemma UnwrittenDeadLetterLoses()
    ensures exists t :: Reached(DeadLetter(0, Refused), t) && Loses(t)
  {
    hide Reached, RetryCopy, Loses;
    var fault := DeadLetter(0, Refused);
    HandlerReleased(fault);
    Go(fault, One(MESSAGE, Explicit, Disposing(false), {}, CALLED), fault, One(MESSAGE, Explicit, Committing, {}, CALLED));
    UnwrittenIsCommitted(fault);
  }

  lemma HandlerReleased(fault: Move)
    ensures Reached(fault, One(MESSAGE, Explicit, Disposing(false), {}, CALLED))
  {
    hide Reached, RetryCopy;
    HandlerFailed(Explicit, fault);
    Go(fault, One(MESSAGE, Explicit, Failed(false), {"a"}, CALLED), Release(0, Done),
       One(MESSAGE, Explicit, Disposing(false), {}, CALLED));
  }

  lemma UnwrittenIsCommitted(fault: Move)
    requires Reached(fault, One(MESSAGE, Explicit, Committing, {}, CALLED))
    ensures exists t :: Reached(fault, t) && Loses(t)
  {
    hide Reached, RetryCopy, Loses;
    var t := State([[MESSAGE]], [1], {}, [], [], [Worker(Explicit, 0, 1, Idle)], CALLED, 3);
    Go(fault, One(MESSAGE, Explicit, Committing, {}, CALLED), Commit(0, Done), t);
    Forgotten(t, 0, 0);
  }

  // ---- the group loop ------------------------------------------------------------

  const OTHER := Message("c", true, [], "")

  /** A worker at the end of the only partition, about to see one more message. */
  predicate AtEnd(s: State, i: nat) {
    && WellFormed(s) && |s.log| == 1 && "c" !in s.claims
    && i < |s.workers| && s.workers[i] == Worker(Group, 0, |s.log[0]|, Idle)
  }

  function WithOther(s: State, i: nat, pc: Pc): State
    requires AtEnd(s, i)
  {
    s.(log := [s.log[0] + [OTHER]], workers := s.workers[i := Worker(Group, 0, |s.log[0]|, pc)])
  }

  lemma OtherClaimed(s: State, i: nat, fault: Move)
    requires Reached(fault, s) && AtEnd(s, i)
    ensures Reached(fault, WithOther(s, i, Owned).(claims := s.claims + {"c"}))
  {
    hide Reached, RetryCopy, WillRequeue;
    Go(fault, s, Publish(0, OTHER), WithOther(s, i, Idle));
    Go(fault, WithOther(s, i, Idle), Fetch(i), WithOther(s, i, Got));
    Go(fault, WithOther(s, i, Got), Claim(i), WithOther(s, i, Owned).(claims := s.claims + {"c"}));
  }

  function Past(s: State, i: nat): State
    requires AtEnd(s, i)
  {
    s.(log := [s.log[0] + [OTHER]], committed := [|s.log[0]| + 1], claims := s.claims + {"c"},
       workers := s.workers[i := Worker(Group, 0, |s.log[0]| + 1, Idle)],
       trace := s.trace + [Started(i, "c")] + [Succeeded(i, "c")])
  }

  /** The worker handles one more message and commits past everything. */
  lemma OtherCommitted(s: State, i: nat, fault: Move)
    requires Reached(fault, s) && AtEnd(s, i)
    ensures Reached(fault, Past(s, i))
  {
    hide Reached, RetryCopy, WillRequeue;
    OtherClaimed(s, i, fault);
    var owned := WithOther(s, i, Owned).(claims := s.claims + {"c"});
    var running := WithOther(s, i, Running).(claims := s.claims + {"c"}, trace := s.trace + [Started(i, "c")]);
    Go(fault, owned, Unwrap(i), running);
    OtherSucceeds(s, i, fault);
  }

  lemma OtherSucceeds(s: State, i: nat, fault: Move)
    requires AtEnd(s, i)
    requires Reached(fault, WithOther(s, i, Running).(claims := s.claims + {"c"}, trace := s.trace + [Started(i, "c")]))
    ensures Reached(fault, Past(s, i))
  {
    hide Reached, RetryCopy, WillRequeue;
    var running := WithOther(s, i, Running).(claims := s.claims + {"c"}, trace := s.trace + [Started(i, "c")]);
    var done := WithOther(s, i, Committing).(claims := s.claims + {"c"}, trace := s.trace + [Started(i, "c")] + [Succeeded(i, "c")]);
    Go(fault, running, Finish(i, true, false), done);
    Go(fault, done, Commit(i, Done), Past(s, i));
  }

  /** A release not done before a requeue: the copy is taken for a duplicate. */
  lemma UnreleasedRequeueLoses()
    ensures exists t :: Reached(Release(0, Refused), t) && Loses(t)
  {
    hide Reached, RetryCopy, Loses;
    var fault := Release(0, Refused);
    HandlerFailed(Group, fault);
    var s := One(MESSAGE, Group, Disposing(false), {"a"}, CALLED);
    Go(fault, One(MESSAGE, Group, Failed(false), {"a"}, CALLED), fault, s);
    CopyIsQueued(fault);
    CopyIsSkipped(RetryCopy(MESSAGE), fault);
  }

  const QUEUED := CALLED + [Queued(0, "a")]

  function Queueing(copy: Message): State {
    State([[MESSAGE]], [0], {"a"}, [copy], [], [Worker(Group, 0, 1, Idle)], QUEUED, 3)
  }

  lemma CopyIsQueued(fault: Move)
    requires Reached(fault, One(MESSAGE, Group, Disposing(false), {"a"}, CALLED))
    ensures RetryCopy(MESSAGE).event == "a"
    ensures Reached(fault, Queueing(RetryCopy(MESSAGE)))
  {
    hide Reached;
    Go(fault, One(MESSAGE, Group, Disposing(false), {"a"}, CALLED), Requeue(0, Done),
       Queueing(RetryCopy(MESSAGE)));
  }

  function Returned(copy: Message, offset: nat, pc: Pc): State {
    State([[MESSAGE, copy]], [0], {"a"}, [], [], [Worker(Group, 0, offset, pc)], QUEUED, 3)
  }

  lemma CopyReturns(copy: Message, fault: Move)
    requires Reached(fault, Queueing(copy))
    ensures Reached(fault, Returned(copy, 1, Idle))
  {
    hide Reached, Careful, Next;
    CopyTaken(copy);
    Go(fault, Queueing(copy), Redeliver(0, 0, false), Returned(copy, 1, Idle));
  }

  lemma CopyTaken(copy: Message)
    ensures Enabled(Queueing(copy), Redeliver(0, 0, false)) && Careful(Queueing(copy), Redeliver(0, 0, false))
    ensures Next(Queueing(copy), Redeliver(0, 0, false)) == Returned(copy, 1, Idle)
  {
    hide RetryCopy, WillRequeue, EventOf;
    var s := Queueing(copy);
    assert s.retries[..0] + s.retries[1..] == [];
    assert s.log[0] + [copy] == [MESSAGE, copy];
  }

  lemma CopyIsSkipped(copy: Message, fault: Move)
    requires copy.event == "a"
    requires Reached(fault, Queueing(copy))
    ensures exists t :: Reached(fault, t) && Loses(t)
  {
    hide Reached, RetryCopy, Loses, WillRequeue;
    CopyReturns(copy, fault);
    Go(fault, Returned(copy, 1, Idle), Fetch(0), Returned(copy, 1, Got));
    Go(fault, Returned(copy, 1, Got), Claim(0), Returned(copy, 2, Idle));
    OtherPasses(Returned(copy, 2, Idle), 0, fault);
  }

  /** What nobody holds is lost once a later message of the partition is committed. */
  lemma OtherPasses(s: State, i: nat, fault: Move)
    requires Reached(fault, s) && AtEnd(s, i) && s.log[0] != [] && s.log[0][0].event == "a"
    requires s.dlq == [] && s.retries == [] && |s.committed| == 1
    requires forall j :: 0 <= j < |s.workers| ==> !Handling(s.workers[j])
    requires forall h :: h in s.trace ==> !h.Succeeded?
    ensures exists t :: Reached(fault, t) && Loses(t)
  {
    hide Reached, RetryCopy, Loses, Next, Enabled;
    OtherCommitted(s, i, fault);
    var t := Past(s, i);
    assert WellFormed(t);
    Forgotten(t, 0, 0);
  }

  // ---- a retry copy not written ---------------------------------------------------

  function Both(pc: Pc, offset: nat, pc1: Pc, claims: set<string>): State {
    State([[MESSAGE]], [0], claims, [], [], [Worker(Group, 0, 0, pc), Worker(Group, 0, offset, pc1)], CALLED, 3)
  }

  lemma SecondReaderFetches(fault: Move)
    ensures Reached(fault, Both(Failed(false), 0, Got, {"a"}))
  {
    hide Reached, RetryCopy, WillRequeue;
    HandlerFailed(Group, fault);
    Go(fault, One(MESSAGE, Group, Failed(false), {"a"}, CALLED), Start(Group, 0, 0), Both(Failed(false), 0, Idle, {"a"}));
    Go(fault, Both(Failed(false), 0, Idle, {"a"}), Fetch(1), Both(Failed(false), 0, Got, {"a"}));
  }

  /** A second reader takes the message for a duplicate while the first still
      holds it; the first then fails to requeue it. */
  lemma UnwrittenCopyLoses()
    ensures exists t :: Reached(Requeue(0, Refused), t) && Loses(t)
  {
    hide Reached, RetryCopy, Loses, WillRequeue;
    var fault := Requeue(0, Refused);
    SecondReaderFetches(fault);
    Go(fault, Both(Failed(false), 0, Got, {"a"}), Claim(1), Both(Failed(false), 1, Idle, {"a"}));
    DuplicateOfUnwritten(fault);
  }

  lemma DuplicateOfUnwritten(fault: Move)
    requires fault == Requeue(0, Refused) && Reached(fault, Both(Failed(false), 1, Idle, {"a"}))
    ensures exists t :: Reached(fault, t) && Loses(t)
  {
    hide Reached, RetryCopy, Loses;
    Go(fault, Both(Failed(false), 1, Idle, {"a"}), Release(0, Done), Both(Disposing(false), 1, Idle, {}));
    CopyIsUnwritten(fault);
  }

  lemma CopyIsUnwritten(fault: Move)
    requires fault == Requeue(0, Refused) && Reached(fault, Both(Disposing(false), 1, Idle, {}))
    ensures exists t :: Reached(fault, t) && Loses(t)
  {
    hide Reached, Loses;
    Go(fault, Both(Disposing(false), 1, Idle, {}), fault, Both(Stopped, 1, Idle, {}));
    OtherPasses(Both(Stopped, 1, Idle, {}), 1, fault);
  }
}
