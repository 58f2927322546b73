/** The attempts messages carry, over every run of the consumer loops. */
module Attempts {
  import opened Retry
  import opened Broker

  function Bound(s: State): nat {
    if s.maxAttempts == 0 then 1 else s.maxAttempts
  }

  /** Copies waiting or back in a partition are on an attempt there is. */
  ghost predicate Bounded(s: State) {
    && s.maxAttempts <= MAX_INT64
    && (forall j :: 0 <= j < |s.retries| ==> 2 <= AttemptOf(s.retries[j].headers) <= s.maxAttempts)
    && (forall p, k :: 0 <= p < |s.log| && 0 <= k < |s.log[p]| ==> AttemptOf(s.log[p][k].headers) <= Bound(s))
  }

  /** Producers send no retry header. */
  predicate FirstAttempt(m: Move) {
    m.Publish? ==> AttemptOf(m.message.headers) == 1
  }

  lemma RequeueBounded(s: State, m: Move)
    requires WellFormed(s) && Enabled(s, m) && Bounded(s) && m.Requeue?
    ensures Bounded(Next(s, m)) && Next(s, m).maxAttempts == s.maxAttempts
  {
    hide AttemptOf, RetryCopy, EventOf;
    CopyIsNext(Handled(s, m.worker), s.maxAttempts);
  }

  lemma StepBounded(s: State, m: Move)
    requires WellFormed(s) && Enabled(s, m) && Bounded(s) && FirstAttempt(m)
    ensures Bounded(Next(s, m)) && Next(s, m).maxAttempts == s.maxAttempts
  {
    hide AttemptOf, RetryCopy, EventOf, WillRequeue;
    if m.Requeue? {
      hide Next, Enabled, Bounded, WellFormed;
      RequeueBounded(s, m);
    }
  }

  lemma CopyIsNext(m: Message, max: nat)
    requires AttemptOf(m.headers) < max <= MAX_INT64
    ensures AttemptOf(RetryCopy(m).headers) == AttemptOf(m.headers) + 1 >= 2
  {
    AttemptIsFirstCarried(m.headers);
    RequeuedAttempt(m.headers, AttemptOf(m.headers) + 1);
  }

  /** The message carries what some producer published. */
  ghost predicate Genuine(moves: seq<Move>, n: nat, m: Message)
    requires n <= |moves|
  {
    exists k :: 0 <= k < n && moves[k].Publish? && Bears(m, moves[k].message)
  }

  predicate Bears(m: Message, published: Message) {
    m.event == published.event && m.value == published.value && m.decodes == published.decodes
  }

  /** The message is in a partition, on the retry topic or dead-lettered. */
  ghost predicate Held(s: State, m: Message) {
    || m in s.retries || m in s.dlq
    || exists p, k :: 0 <= p < |s.log| && 0 <= k < |s.log[p]| && s.log[p][k] == m
  }

  ghost predicate AllGenuine(s: State, moves: seq<Move>, n: nat)
    requires n <= |moves|
  {
    forall m :: Held(s, m) ==> Genuine(moves, n, m)
  }

  /** What a move puts on a topic is published by it or was on one before. */
  lemma MoveCopies(s: State, m: Move, x: Message)
    requires WellFormed(s) && Enabled(s, m) && Held(Next(s, m), x)
    ensures (m.Publish? && x == m.message) || exists y :: Bears(x, y) && Held(s, y)
  {
    hide AttemptOf, WillRequeue;
    assert Bears(x, x);
    if m.Requeue? && x in Next(s, m).retries && x !in s.retries {
      assert Bears(x, Handled(s, m.worker));
    }
  }

  lemma StepGenuine(s: State, moves: seq<Move>, n: nat)
    requires n < |moves| && WellFormed(s) && Enabled(s, moves[n]) && AllGenuine(s, moves, n)
    ensures AllGenuine(Next(s, moves[n]), moves, n + 1)
  {
    hide Next, Enabled, WellFormed, Held;
    forall x | Held(Next(s, moves[n]), x) ensures Genuine(moves, n + 1, x) {
      MoveCopies(s, moves[n], x);
      if !(moves[n].Publish? && x == moves[n].message) {
        var y :| Bears(x, y) && Held(s, y);
        var k :| 0 <= k < n && moves[k].Publish? && Bears(y, moves[k].message);
        assert Bears(x, moves[k].message);
      } else {
        assert Bears(x, moves[n].message);
      }
    }
  }

  /** In every run each message in a partition, waiting for its retry or
      dead-lettered carries the event and the value some producer published. */
  lemma {:induction false} MessagesAreGenuine(states: seq<State>, moves: seq<Move>, n: nat)
    requires IsRun(states, moves) && n < |states|
    ensures AllGenuine(states[n], moves, n)
  {
    hide Next, Enabled;
    if n > 0 {
      MessagesAreGenuine(states, moves, n - 1);
      StepGenuine(states[n - 1], moves, n - 1);
    }
  }

  /** In every run no message is ever on an attempt beyond the last, whatever is
      duplicated, released or lost: a copy carries one attempt more than the
      message it copies, so a chain of copies has at most MaxAttempts messages. */
  lemma {:induction false} AttemptsAreBounded(states: seq<State>, moves: seq<Move>, n: nat)
    requires IsRun(states, moves) && n < |states| && states[0].maxAttempts <= MAX_INT64
    requires forall k :: 0 <= k < |moves| ==> FirstAttempt(moves[k])
    ensures Bounded(states[n]) && states[n].maxAttempts == states[0].maxAttempts
  {
    if n > 0 {
      AttemptsAreBounded(states, moves, n - 1);
      StepBounded(states[n - 1], moves[n - 1]);
    }
  }
}
