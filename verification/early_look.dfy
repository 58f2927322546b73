/** A run that ends with a stale cache because a reader looked too early: an order
    is created and paid, one of its two copies is delivered, its buyer looks. */
module EarlyLook {
  import opened Text
  import opened Tables
  import opened Outbox
  import opened Commands
  import opened History
  import opened Lifecycle
  import opened Provenance
  import opened Drain
  import D = Domain
  import O = OrderCaching
  import M = ReadModel
  import S = Samples

  const NOTHING := M.Enrichment("", None, None)

  const CREATING := Move.Do(M.Submit(S.ORDER), [S.CREATION], true, NOTHING)

  const PAYING := Move.Do(M.Mutate(S.ID, [S.PAYMENT.command]), [S.PAYMENT], true, NOTHING)

  /** What a job of one call that succeeds and reads back does. */
  lemma OneCallRefreshes(l: Line, job: M.Job, c: Call, e: M.Enrichment)
    requires Aimed(job) && !job.Preview? && !job.Draft? && M.CommandsOf(job) == [c.command]
    requires Step(Run(l.history), c).reply == Success && Read(Run(l.history + [c]).tables, M.IdOf(job)).Some?
    ensures Enabled(l, Move.Do(job, [c], true, e))
    ensures Next(l, Move.Do(job, [c], true, e))
            == Refresh(l.(history := l.history + [c], stale := l.stale - {M.IdOf(job)}), Read(Run(l.history + [c]).tables, M.IdOf(job)).value, e)
  {
    hide Run, Step, Read, Page, Newest;
    var m := Move.Do(job, [c], true, e);
    assert CommandsIn([c]) == [c.command];
    assert m.calls[..1] == [c] && m.calls[1..] == [];
    CallSucceeds(l.history, c);
    assert l.history + [c] + [] == l.history + [c];
  }

  lemma CallSucceeds(h: seq<Call>, c: Call)
    requires Step(Run(h), c).reply == Success
    ensures AllSucceed(h, [c]) && AllSucceed(h + [c], [])
  {
    hide Run, Step;
    assert [c][1..] == [];
  }

  function Older(): D.Order {
    M.Hydrated(D.Loaded(NewOrder(S.ORDER), SnapshotOf(S.ORDER, 0)), NOTHING)
  }

  function Newer(): D.Order {
    M.Hydrated(D.Loaded(Change(S.PAYMENT.command, NewOrder(S.ORDER), 1), SnapshotOf(S.ORDER, 0)), NOTHING)
  }

  lemma CopiesDiffer()
    ensures Older().orderId == Newer().orderId == S.ID
    ensures View(Older()) != View(Newer())
  {
    hide Trim;
    assert View(Older()).status == "requirements_pending" && View(Newer()).status == "paid";
  }

  function Created(): Line {
    Line([S.CREATION], map[S.ID := Older()], [Older()], {})
  }

  function Paid(): Line {
    Line([S.CREATION, S.PAYMENT], map[S.ID := Newer()], [Older(), Newer()], {})
  }

  /** The cache shows the older copy, the newer one is still queued. */
  function Behind(): Line {
    Line([S.CREATION, S.PAYMENT], map[S.ID := Older()], [Newer()], {})
  }

  lemma CreatedLine()
    ensures Enabled(IDLE, CREATING) && Next(IDLE, CREATING) == Created()
  {
    hide Run, Step, M.Hydrated;
    S.CreationSucceeds();
    EmptyRun();
    HydrationKeepsId(D.Loaded(NewOrder(S.ORDER), SnapshotOf(S.ORDER, 0)), NOTHING);
    assert [] + [S.CREATION] == [S.CREATION];
    OneCallRefreshes(IDLE, M.Submit(S.ORDER), S.CREATION, NOTHING);
  }

  lemma EmptyRun()
    ensures Run([]) == EMPTY_STORE
  {}

  lemma PaidLine()
    ensures Enabled(Created(), PAYING) && Next(Created(), PAYING) == Paid()
  {
    hide Run, Step, M.Hydrated;
    S.PaymentSucceeds();
    HydrationKeepsId(D.Loaded(Change(S.PAYMENT.command, NewOrder(S.ORDER), 1), SnapshotOf(S.ORDER, 0)), NOTHING);
    assert [S.CREATION] + [S.PAYMENT] == [S.CREATION, S.PAYMENT];
    OneCallRefreshes(Created(), M.Mutate(S.ID, [S.PAYMENT.command]), S.PAYMENT, NOTHING);
  }

  lemma BehindLine()
    ensures Enabled(Paid(), Deliver) && Next(Paid(), Deliver) == Behind()
  {
    CopiesDiffer();
    hide Older, Newer;
  }

  /** The run reaches a line where the buyer's read is not shown the newest copy;
      once the topic is drained the cached order does not show its page. */
  lemma EarlyLookGoesStale()
    ensures IsRun([IDLE, Created(), Paid(), Behind()], [CREATING, PAYING, Deliver])
    ensures !Shown(Behind(), S.ID)
    ensures var l := Looked(Behind(), S.ID, S.ID, NOTHING);
            var d := Drained(l);
            && l != Behind() && d.queue == [] && S.ID in d.cache
            && Page(Run(d.history).tables, S.ID) != Some(View(d.cache[S.ID]))
  {
    var lines, moves := [IDLE, Created(), Paid(), Behind()], [CREATING, PAYING, Deliver];
    RunIsOne(lines, moves);
    RunsStayInStep(lines, moves, 3);
    BuyerLooks();
    CopiesDiffer();
    hide Older, Newer, Run, Page, View, Drained, Looked, Refresh;
    assert Newest(Behind().cache, Behind().queue, S.ID) == Some(Newer());
    LookIsHarmlessIfShown(Behind(), S.ID, NOTHING);
  }

  lemma RunIsOne(lines: seq<Line>, moves: seq<Move>)
    requires lines == [IDLE, Created(), Paid(), Behind()] && moves == [CREATING, PAYING, Deliver]
    ensures IsRun(lines, moves)
  {
    hide Enabled, Next, Created, Paid, Behind;
    CreatedLine();
    PaidLine();
    BehindLine();
  }

  lemma BuyerLooks()
    ensures Looked(Behind(), S.ID, S.ID, NOTHING) == Refresh(Behind(), O.Projected(Older()), NOTHING)
    ensures Looked(Behind(), S.ID, S.ID, NOTHING) != Behind()
  {
    CopiesDiffer();
    S.IdIsUuid();
    UuidIsTrimmed(S.ID);
    BlankText(S.ID);
    assert Older().buyerId == S.ID;
    hide Older, Newer, Trim;
    assert |Refresh(Behind(), O.Projected(Older()), NOTHING).queue| == 2;
  }
}
