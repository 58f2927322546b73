/** `Create` sent again for an order that exists. */
module Recreation {
  import opened Text
  import opened Tables
  import opened Outbox
  import opened Commands
  import opened History
  import opened Lifecycle
  import opened OrderHistory

  /** Creating an existing order changes no table but its snapshot, and of the
      snapshot everything but when it was taken. Status, parties, timestamps
      and counters of the order stay. */
  lemma RecreationKeepsTheOrder(s: Store, c: Call)
    requires Keyed(s) && c.command.Create? && c.command.p.orderId in s.tables.orders
    requires Evidence(SliceOf(s.tables, c.command.p.orderId))
    ensures var p, t, t' := c.command.p, s.tables, Step(s, c).store.tables;
            t' == t || t' == t.(snapshots := t.snapshots[p.orderId := SnapshotOf(p, t.snapshots[p.orderId].createdAt)])
  {
    hide Step;
    RecreationLeaves(s, c);
  }

  /** Writing rows that are stored already changes no table. */
  lemma RewritingChangesNothing(t: Tables, o: OrderRow, n: SnapshotRow)
    requires o.orderId in t.orders && t.orders[o.orderId] == o
    requires n.orderId in t.snapshots && t.snapshots[n.orderId] == n
    ensures Put(t, Order(o)) == t && Put(t, Snapshot(n)) == t
  {
    assert t.orders[o.orderId := o] == t.orders;
    assert t.snapshots[n.orderId := n] == t.snapshots;
  }

  /** Two creations ask for the same order: only the time they were requested may
      differ, since a command that gives none gets the clock's. */
  predicate Alike(p: CreateParams, q: CreateParams) {
    p.(requestedAt := q.requestedAt) == q
  }

  /** The order of a creation is stored, and its snapshot shows that creation. */
  ghost predicate Shows(s: Store, p: CreateParams) {
    && p.orderId in s.tables.orders && p.orderId in s.tables.snapshots
    && s.tables.snapshots[p.orderId] == SnapshotOf(p, s.tables.snapshots[p.orderId].createdAt)
  }

  /** After `g`, the history `h` commits no creation of the order with other terms. */
  ghost predicate OnlyAlike(g: seq<Call>, h: seq<Call>, p: CreateParams) {
    forall i :: 0 <= i < |h| && Creates(h[i], p.orderId) && Commits(g + h[..i], h[i]) ==> Alike(h[i].command.p, p)
  }

  predicate Creates(c: Call, id: string) {
    c.command.Create? && c.command.p.orderId == id
  }

  ghost predicate Commits(h: seq<Call>, c: Call) {
    Step(Run(h), c).store != Run(h)
  }

  lemma AdvanceShows(x: Slice, c: Command, now: Time, p: CreateParams)
    requires x.order.Some? && x.snapshot.Some? && x.snapshot.value == SnapshotOf(p, x.snapshot.value.createdAt)
    requires c.Create? ==> Alike(c.p, p)
    ensures var y := Advance(x, c, now);
            y.order.Some? && y.snapshot.Some? && y.snapshot.value == SnapshotOf(p, y.snapshot.value.createdAt)
  {
    hide Change, RoleOf;
  }

  lemma StepShows(s: Store, c: Call, p: CreateParams)
    requires Keyed(s) && Shows(s, p)
    requires Creates(c, p.orderId) && Step(s, c).store != s ==> Alike(c.command.p, p)
    ensures Shows(Step(s, c).store, p)
  {
    hide Step, Advance;
    var x, y := SliceOf(s.tables, p.orderId), SliceOf(Step(s, c).store.tables, p.orderId);
    if Step(s, c).store == s {
      return;
    }
    if Target(c.command) == p.orderId {
      StepAdvances(s, c);
      AdvanceShows(x, c.command, c.now, p);
    } else {
      OtherOrdersUntouched(s, c, p.orderId);
    }
    assert Shows(s, p) && (y == x || y.order.Some?);
  }

  lemma OnlyAlikeBefore(g: seq<Call>, h: seq<Call>, p: CreateParams)
    requires OnlyAlike(g, h, p) && h != []
    ensures OnlyAlike(g, h[..|h| - 1], p)
  {
    hide Step, Run;
    var front := h[..|h| - 1];
    forall i | 0 <= i < |front| && Creates(front[i], p.orderId) && Commits(g + front[..i], front[i])
      ensures Alike(front[i].command.p, p)
    {
      assert front[..i] == h[..i];
    }
  }

  lemma {:induction false} HistoryShows(g: seq<Call>, h: seq<Call>, p: CreateParams)
    requires Shows(Run(g), p) && OnlyAlike(g, h, p)
    ensures Shows(Run(g + h), p)
    decreases |h|
  {
    hide Shows, Step, Run;
    if h == [] {
      assert g + h == g;
    } else {
      var front, c := h[..|h| - 1], h[|h| - 1];
      OnlyAlikeBefore(g, h, p);
      HistoryShows(g, front, p);
      RunIsKeyed(g + front);
      StepShows(Run(g + front), c, p);
      assert g + h == (g + front) + [c];
      RunOneMore(g + front, c);
    }
  }

  lemma RunOneMore(h: seq<Call>, c: Call)
    ensures Run(h + [c]) == Step(Run(h), c).store
  {
    assert (h + [c])[..|h|] == h;
  }

  /** A creation that succeeded, sent again after any further history of payments,
      deliveries, questions or anything else - other than a creation of the order
      with other terms - changes no table, however that further sending fails. */
  lemma RecreationIsIdempotent(g: seq<Call>, c: Call, later: seq<Call>, again: Call)
    requires c.command.Create? && Step(Run(g), c).reply == Success && OnlyAlike(g + [c], later, c.command.p)
    requires again.command.Create? && Alike(again.command.p, c.command.p)
    ensures Step(Run(g + [c] + later), again).store.tables == Run(g + [c] + later).tables
  {
    hide Step;
    var p := c.command.p;
    RunIsKeyed(g);
    SnapshotIsCreated(Run(g), c);
    RunOneMore(g, c);
    HistoryShows(g + [c], later, p);
    var s := Run(g + [c] + later);
    RunIsKeyed(g + [c] + later);
    RecreationRewrites(s, again, s.tables.orders[p.orderId], s.tables.snapshots[p.orderId]);
  }

  /** Which creations of a stored order change a table: those that commit and ask
      for other gig terms than its snapshot shows. */
  lemma RecreationChangesOnlyOtherTerms(h: seq<Call>, c: Call)
    requires c.command.Create? && c.command.p.orderId in Run(h).tables.orders
    ensures c.command.p.orderId in Run(h).tables.snapshots
    ensures var s, p := Run(h), c.command.p;
            Step(s, c).store.tables == s.tables
            <==> Step(s, c).store == s || s.tables.snapshots[p.orderId] == SnapshotOf(p, s.tables.snapshots[p.orderId].createdAt)
  {
    hide Step;
    var s, p := Run(h), c.command.p;
    RunIsKeyed(h);
    OrdersAreSound(h, p.orderId);
    var n := s.tables.snapshots[p.orderId];
    RecreationLeaves(s, c);
    if n == SnapshotOf(p, n.createdAt) {
      assert s.tables.snapshots[p.orderId := n] == s.tables.snapshots;
    }
  }

  lemma RecreationLeaves(s: Store, c: Call)
    requires Keyed(s) && c.command.Create? && c.command.p.orderId in s.tables.orders && c.command.p.orderId in s.tables.snapshots
    ensures var p, t := c.command.p, s.tables;
            || Step(s, c).store == s
            || Step(s, c).store.tables == t.(snapshots := t.snapshots[p.orderId := SnapshotOf(p, t.snapshots[p.orderId].createdAt)])
  {
    hide IsUuid;
    CallsAreAtomic(s, c);
    var o := s.tables.orders[c.command.p.orderId];
    assert s.tables.orders[o.orderId := o] == s.tables.orders;
    assert Put(s.tables, Order(o)) == s.tables;
  }

  lemma SnapshotIsCreated(s: Store, c: Call)
    requires Keyed(s) && c.command.Create? && Step(s, c).reply == Success
    ensures var p, t := c.command.p, Step(s, c).store.tables;
            && p.orderId in t.orders && p.orderId in t.snapshots
            && t.snapshots[p.orderId] == SnapshotOf(p, t.snapshots[p.orderId].createdAt)
  {
    CallsAreAtomic(s, c);
    CreateAdvances(s, c.command, c.now);
  }

  lemma RecreationRewrites(s: Store, c: Call, o: OrderRow, n: SnapshotRow)
    requires c.command.Create? && o.orderId == n.orderId == c.command.p.orderId
    requires o.orderId in s.tables.orders && s.tables.orders[o.orderId] == o
    requires n.orderId in s.tables.snapshots && s.tables.snapshots[n.orderId] == n && n == SnapshotOf(c.command.p, n.createdAt)
    ensures Step(s, c).store.tables == s.tables
  {
    hide IsUuid;
    CallsAreAtomic(s, c);
    RewritingChangesNothing(s.tables, o, n);
  }
}
