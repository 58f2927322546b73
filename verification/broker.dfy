/** The two Kafka consumer loops as interleaved workers over the claim table,
    the topic partitions, their committed offsets, the retry topic and the
    dead-letter topic. */
module Broker {
  import opened Retry

  /** A message: the event id it is claimed under, whether its envelope unwraps,
      and what a retry copy keeps. */
  datatype Message = Message(event: string, decodes: bool, headers: seq<Header>, value: string)

  /** `Subscribe` without a durable name, or one partition of `runExplicitConsumerGroup`. */
  datatype Mode = Group | Explicit

  datatype Pc =
    | Idle                        // about to fetch
    | Got                         // fetched, about to claim
    | Owned                       // claimed, about to unwrap
    | Running                     // inside the handler
    | Failed(permanent: bool)     // handler failed, about to release the claim
    | Disposing(permanent: bool)  // about to requeue or dead-letter
    | Committing                  // outcome recorded, about to commit the offset
    | Passing                     // someone else's claim, about to commit the offset
    | Stopped

  /** `offset` is the position being handled, or next to fetch when idle. */
  datatype Worker = Worker(mode: Mode, partition: nat, offset: nat, pc: Pc)

  datatype Happening =
    | Started(worker: nat, event: string)
    | Succeeded(worker: nat, event: string)
    | Gave(worker: nat, event: string)      // the handler returned an error
    | Queued(worker: nat, event: string)    // a retry copy reached the retry topic

  datatype State = State(
    log: seq<seq<Message>>,       // by partition
    committed: seq<nat>,          // by partition: the first offset not committed
    claims: set<string>,          // processed_events
    retries: seq<Message>,
    dlq: seq<Message>,
    workers: seq<Worker>,
    trace: seq<Happening>,
    maxAttempts: nat)

  /** How a request to the database or to Kafka ends: done, done while the
      caller sees an error, or not done. */
  datatype Ack = Done | Lost | Refused

  datatype Move =
    | Publish(partition: nat, message: Message)
    | Start(mode: Mode, partition: nat, offset: nat)
    | Fetch(worker: nat)
    | Claim(worker: nat)
    | ClaimFails(worker: nat, ack: Ack)
    | Unwrap(worker: nat)
    | NotCalled(worker: nat)
    | Finish(worker: nat, ok: bool, permanent: bool)
    | Release(worker: nat, ack: Ack)
    | Requeue(worker: nat, ack: Ack)
    | DeadLetter(worker: nat, ack: Ack)
    | Commit(worker: nat, ack: Ack)
    | Redeliver(copy: nat, partition: nat, keep: bool)
    | Crash(worker: nat)

  // ---- states ----------------------------------------------------------------

  predicate Busy(w: Worker) {
    !w.pc.Idle? && !w.pc.Stopped?
  }

  predicate Placed(s: State, w: Worker) {
    w.partition < |s.log| && w.offset + (if Busy(w) then 1 else 0) <= |s.log[w.partition]|
  }

  predicate WellFormed(s: State) {
    && |s.committed| == |s.log|
    && (forall p :: 0 <= p < |s.log| ==> s.committed[p] <= |s.log[p]|)
    && (forall i :: 0 <= i < |s.workers| ==> Placed(s, s.workers[i]))
  }

  /** The message a busy worker is handling. */
  function Handled(s: State, i: nat): Message
    requires WellFormed(s) && i < |s.workers| && Busy(s.workers[i])
  {
    s.log[s.workers[i].partition][s.workers[i].offset]
  }

  function EventOf(s: State, i: nat): string
    requires WellFormed(s) && i < |s.workers| && Busy(s.workers[i])
  {
    Handled(s, i).event
  }

  function Initial(partitions: nat, maxAttempts: nat): State {
    State(seq(partitions, _ => []), seq(partitions, _ => 0), {}, [], [], [], [], maxAttempts)
  }

  // ---- moves -------------------------------------------------------------------

  predicate At(s: State, i: nat, pc: Pc) {
    i < |s.workers| && s.workers[i].pc == pc
  }

  /** The group loop requeues a failure that is not permanent, up to the last attempt. */
  predicate WillRequeue(s: State, i: nat)
    requires WellFormed(s) && i < |s.workers| && Busy(s.workers[i])
  {
    && s.workers[i].mode.Group?
    && (s.workers[i].pc == Failed(false) || s.workers[i].pc == Disposing(false))
    && AttemptOf(Handled(s, i).headers) < s.maxAttempts
  }

  predicate Enabled(s: State, m: Move)
    requires WellFormed(s)
  {
    match m
    case Publish(p, _) => p < |s.log|
    case Start(_, p, k) => p < |s.log| && k <= s.committed[p]
    case Fetch(i) => At(s, i, Idle) && s.workers[i].offset < |s.log[s.workers[i].partition]|
    case Claim(i) => At(s, i, Got)
    case ClaimFails(i, ack) => At(s, i, Got) && !ack.Done?
    case Unwrap(i) => At(s, i, Owned)
    case NotCalled(i) => At(s, i, Owned) && s.workers[i].mode.Explicit? && Handled(s, i).decodes
    case Finish(i, _, _) => At(s, i, Running)
    case Release(i, _) => At(s, i, Failed(true)) || At(s, i, Failed(false))
    case Requeue(i, _) => At(s, i, Disposing(false)) && WillRequeue(s, i)
    case DeadLetter(i, _) => (At(s, i, Disposing(true)) || At(s, i, Disposing(false))) && !WillRequeue(s, i)
    case Commit(i, _) => At(s, i, Committing) || At(s, i, Passing)
    case Redeliver(j, p, _) => j < |s.retries| && p < |s.log|
    case Crash(i) => i < |s.workers|
  }

  function Moved(s: State, i: nat, pc: Pc): State
    requires i < |s.workers|
  {
    s.(workers := s.workers[i := s.workers[i].(pc := pc)])
  }

  /** The worker turns to the next offset. */
  function Passed(s: State, i: nat): State
    requires i < |s.workers|
  {
    s.(workers := s.workers[i := s.workers[i].(pc := Idle, offset := s.workers[i].offset + 1)])
  }

  function Noted(s: State, h: Happening): State {
    s.(trace := s.trace + [h])
  }

  function Appended(s: State, p: nat, m: Message): State
    requires p < |s.log|
  {
    s.(log := s.log[p := s.log[p] + [m]])
  }

  /** The copy the retry topic holds: the value kept, the attempt raised. */
  function RetryCopy(m: Message): Message {
    m.(headers := Requeued(m.headers, AttemptOf(m.headers) + 1))
  }

  function Next(s: State, m: Move): State
    requires WellFormed(s) && Enabled(s, m)
  {
    match m
    case Publish(p, message) => Appended(s, p, message)
    case Start(mode, p, k) => s.(workers := s.workers + [Worker(mode, p, k, Idle)])
    case Fetch(i) => Moved(s, i, Got)
    case Claim(i) =>
      if EventOf(s, i) !in s.claims then Moved(s, i, Owned).(claims := s.claims + {EventOf(s, i)})
      else if s.workers[i].mode.Group? then Passed(s, i)
      else Moved(s, i, Passing)
    case ClaimFails(i, ack) =>
      Moved(s, i, Stopped).(claims := if ack.Lost? then s.claims + {EventOf(s, i)} else s.claims)
    case Unwrap(i) =>
      if Handled(s, i).decodes then Noted(Moved(s, i, Running), Started(i, EventOf(s, i)))
      else if s.workers[i].mode.Group? then Moved(s, i, Disposing(true))
      else Moved(s, i, Stopped)
    case NotCalled(i) => Moved(s, i, Failed(false))
    case Finish(i, ok, permanent) =>
      if ok then Noted(Moved(s, i, Committing), Succeeded(i, EventOf(s, i)))
      else Noted(Moved(s, i, Failed(permanent)), Gave(i, EventOf(s, i)))
    case Release(i, ack) =>
      Moved(s, i, Disposing(s.workers[i].pc.permanent)).(
        claims := if ack.Refused? then s.claims else s.claims - {EventOf(s, i)})
    case Requeue(i, ack) =>
      var after := if ack.Done? then Passed(s, i) else Moved(s, i, Stopped);
      if ack.Refused? then after
      else Noted(after.(retries := s.retries + [RetryCopy(Handled(s, i))]), Queued(i, EventOf(s, i)))
    case DeadLetter(i, ack) =>
      Moved(s, i, if s.workers[i].mode.Group? then Stopped else Committing).(
        dlq := if ack.Refused? then s.dlq else s.dlq + [Handled(s, i)])
    case Commit(i, ack) =>
      (if ack.Done? then Passed(s, i) else Moved(s, i, Stopped)).(
        committed := if ack.Refused? then s.committed
                     else s.committed[s.workers[i].partition := s.workers[i].offset + 1])
    case Redeliver(j, p, keep) =>
      Appended(s, p, s.retries[j]).(
        retries := if keep then s.retries else s.retries[..j] + s.retries[j + 1..])
    case Crash(i) => Moved(s, i, Stopped)
  }

  /** The worker a move is about. */
  predicate Acts(m: Move, i: nat) {
    !m.Publish? && !m.Start? && !m.Redeliver? && m.worker == i
  }

  lemma OthersStay(s: State, m: Move, i: nat)
    requires WellFormed(s) && Enabled(s, m) && i < |s.workers| && !Acts(m, i)
    ensures i < |Next(s, m).workers| && Next(s, m).workers[i] == s.workers[i]
  {
    hide RetryCopy, WillRequeue, EventOf;
  }

  lemma LogGrows(s: State, m: Move)
    requires WellFormed(s) && Enabled(s, m)
    ensures |Next(s, m).log| == |s.log|
    ensures forall p :: 0 <= p < |s.log| ==> s.log[p] <= Next(s, m).log[p]
  {
    hide RetryCopy, WillRequeue, EventOf;
  }

  /** A worker in its place stays in one. */
  lemma ActorKeepsPlace(s: State, m: Move, i: nat)
    requires WellFormed(s) && Enabled(s, m) && i < |s.workers| && Acts(m, i)
    ensures i < |Next(s, m).workers| && Placed(s, Next(s, m).workers[i])
  {
    hide RetryCopy, WillRequeue, EventOf;
  }

  lemma CommitsKeepPlace(s: State, m: Move)
    requires WellFormed(s) && Enabled(s, m)
    ensures |Next(s, m).committed| == |s.log|
    ensures forall p :: 0 <= p < |s.log| ==> Next(s, m).committed[p] <= |s.log[p]|
  {
    hide RetryCopy, WillRequeue, EventOf;
  }

  lemma StartedInPlace(s: State, m: Move)
    requires WellFormed(s) && Enabled(s, m)
    ensures |s.workers| <= |Next(s, m).workers| <= |s.workers| + 1
    ensures |s.workers| < |Next(s, m).workers| ==>
              Placed(s, Next(s, m).workers[|s.workers|]) && Next(s, m).workers[|s.workers|].pc.Idle?
  {
    hide RetryCopy, WillRequeue, EventOf;
  }

  lemma MoveKeepsForm(s: State, m: Move)
    requires WellFormed(s) && Enabled(s, m)
    ensures WellFormed(Next(s, m))
  {
    hide Next, Enabled, Acts;
    var t := Next(s, m);
    LogGrows(s, m);
    StartedInPlace(s, m);
    CommitsKeepPlace(s, m);
    forall i: nat | i < |t.workers| ensures Placed(t, t.workers[i]) {
      if i < |s.workers| {
        if Acts(m, i) {
          ActorKeepsPlace(s, m, i);
        } else {
          OthersStay(s, m, i);
        }
      }
    }
  }

  // ---- runs --------------------------------------------------------------------

  /** An interleaving of any number of workers, readers' generations, crashes
      and faults, from empty topics. */
  ghost predicate IsRun(states: seq<State>, moves: seq<Move>) {
    && |states| == |moves| + 1
    && (exists n: nat, max: nat :: states[0] == Initial(n, max))
    && (forall k :: 0 <= k < |states| ==> WellFormed(states[k]))
    && forall k :: 0 <= k < |moves| ==> Enabled(states[k], moves[k]) && states[k + 1] == Next(states[k], moves[k])
  }

  /** Every enabled move extends a run, so runs exclude no behaviour. */
  lemma RunsExtend(states: seq<State>, moves: seq<Move>, m: Move)
    requires IsRun(states, moves) && Enabled(states[|moves|], m)
    ensures IsRun(states + [Next(states[|moves|], m)], moves + [m])
  {
    MoveKeepsForm(states[|moves|], m);
  }
}
