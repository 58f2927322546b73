/** What every history says about the orders it stored. */
module OrderHistory {
  import opened Text
  import opened Tables
  import opened Outbox
  import opened Commands
  import opened History
  import opened Lifecycle

  /** The tables after the first `k` calls. */
  ghost function Version(h: seq<Call>, k: nat): Tables
    requires k <= |h|
  {
    Run(h[..k]).tables
  }

  /** Calls to come do not change the versions there are. */
  lemma VersionStays(h: seq<Call>, c: Call, k: nat)
    requires k <= |h|
    ensures Version(h + [c], k) == Version(h, k)
  {
    assert (h + [c])[..k] == h[..k];
  }

  lemma LatestVersion(h: seq<Call>)
    ensures Version(h, |h|) == Run(h).tables
  {
    assert h[..|h|] == h;
  }

  /** Parties of a stored order are canonical UUIDs and its snapshot is stored. */
  ghost predicate Sound(x: Slice) {
    x.order.Some? ==> IsUuid(x.order.value.buyerId) && IsUuid(x.order.value.sellerId) && x.snapshot.Some?
  }

  lemma CreateNamesUuids(s: Store, c: Call)
    requires c.command.Create? && Step(s, c).store != s
    ensures IsUuid(c.command.p.buyerId) && IsUuid(c.command.p.sellerId)
  {
    CallsAreAtomic(s, c);
  }

  lemma AdvanceIsSound(x: Slice, c: Command, now: Time)
    requires Sound(x) && Admits(x, c) && (c.Create? ==> IsUuid(c.p.buyerId) && IsUuid(c.p.sellerId))
    ensures Sound(Advance(x, c, now))
  {
    hide IsUuid;
  }

  lemma {:induction false} OrdersAreSound(h: seq<Call>, id: string)
    ensures Sound(SliceOf(Run(h).tables, id))
  {
    hide Sound, Step, Advance;
    if h == [] {
      NothingIsSound(id);
    } else {
      var g, c := h[..|h| - 1], h[|h| - 1];
      OrdersAreSound(g, id);
      RunIsKeyed(g);
      if id == Target(c.command) {
        StepAdvances(Run(g), c);
        if Step(Run(g), c).store != Run(g) {
          if c.command.Create? {
            CreateNamesUuids(Run(g), c);
          }
          AdvanceIsSound(SliceOf(Run(g).tables, id), c.command, c.now);
        }
      } else {
        OtherOrdersUntouched(Run(g), c, id);
      }
    }
  }

  lemma NothingIsSound(id: string)
    ensures Sound(SliceOf(EMPTY_STORE.tables, id))
  {}

  /** An order of some version is stored ever after, with its snapshot, parties
      and terms. */
  lemma OrderStays(h: seq<Call>, k: nat, id: string)
    requires k <= |h| && id in Version(h, k).orders
    ensures id in Run(h).tables.orders && id in Run(h).tables.snapshots
    ensures SameTerms(Version(h, k).orders[id], Run(h).tables.orders[id])
  {
    RunPersists(h, k, id);
    OrdersAreSound(h, id);
    assert SliceOf(Version(h, k), id).order == Some(Version(h, k).orders[id]);
  }
}
