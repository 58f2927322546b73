/** The outbox trigger: every row written, updated or deleted appends one event
    in the same transaction. Replaying the events rebuilds the tables. */
module Outbox {
  import opened Tables

  datatype Operation = Created | Updated | Deactivated

  /** A firing of the trigger: the operation and the row it was given. */
  datatype Firing = Firing(operation: Operation, row: Row)

  datatype Store = Store(tables: Tables, log: seq<Firing>)

  const EMPTY_STORE: Store := Store(EMPTY, [])

  /** The trigger after an INSERT or an UPDATE of `r`. */
  function Write(s: Store, r: Row): Store {
    Store(Put(s.tables, r), s.log + [Firing(if Has(s.tables, r) then Updated else Created, r)])
  }

  /** The trigger after a DELETE of `r`. */
  function Erase(s: Store, r: Row): Store {
    Store(Remove(s.tables, r), s.log + [Firing(Deactivated, r)])
  }

  /** One `outbox_events` row, without its random id and its timestamps. The
      table the row came from is not recorded. */
  datatype Event = Event(aggregateId: string, operation: Operation, payload: Json)

  /** What `capture_order_outbox_event` inserts. */
  function Capture(f: Firing): Event {
    Event(OrderIdOf(f.row), f.operation, ToJson(f.row))
  }

  function Events(log: seq<Firing>): seq<Event> {
    seq(|log|, i requires 0 <= i < |log| => Capture(log[i]))
  }

  /** What a consumer of the outbox does with one event. */
  function Absorb(t: Tables, e: Event): Tables {
    if e.operation == Deactivated then Remove(t, FromJson(e.payload)) else Put(t, FromJson(e.payload))
  }

  function Replay(events: seq<Event>): Tables {
    if events == [] then EMPTY
    else Absorb(Replay(events[..|events| - 1]), events[|events| - 1])
  }

  /** The store's events tell its whole content. */
  ghost predicate Rebuilt(s: Store) {
    Replay(Events(s.log)) == s.tables
  }

  lemma ReplayAppended(log: seq<Firing>, f: Firing)
    ensures Replay(Events(log + [f])) == Absorb(Replay(Events(log)), Capture(f))
  {
    var all := Events(log + [f]);
    assert all[..|log|] == Events(log);
  }

  lemma WriteIsReplayed(s: Store, r: Row)
    requires Rebuilt(s)
    ensures Rebuilt(Write(s, r))
  {
    RowRoundTrip(r);
    ReplayAppended(s.log, Write(s, r).log[|s.log|]);
  }

  lemma EraseIsReplayed(s: Store, r: Row)
    requires Rebuilt(s)
    ensures Rebuilt(Erase(s, r))
  {
    RowRoundTrip(r);
    ReplayAppended(s.log, Erase(s, r).log[|s.log|]);
  }
}
