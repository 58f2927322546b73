/** The cache of the interleaved model is the Redis store: reading and writing
    either is reading and writing the other. */
module CacheMirror {
  import opened Text
  import opened Tables
  import opened Commands
  import opened History
  import D = Domain
  import O = OrderCaching
  import R = Redis
  import M = ReadModel
  import P = Postgres
  import T = Provenance
  import H = OrderHistory

  /** Each order key holds the encoding of the order cached under the id. */
  ghost predicate Mirrors(c: D.Codec, e: R.Entries, cache: map<string, D.Order>) {
    && (forall id :: id in cache <==> R.OrderKeyOf(id) in e)
    && (forall id :: id in cache ==> e[R.OrderKeyOf(id)] == O.Encode(O.ToCache(c, cache[id])))
  }

  lemma UpsertKeepsMirror(c: D.Codec, e: R.Entries, cache: map<string, D.Order>, o: D.Order, fault: Option<Fault>)
    requires Mirrors(c, e, cache)
    ensures Mirrors(c, R.AfterSet(e, R.OrderKeyOf(o.orderId), O.Encode(O.ToCache(c, o)), fault),
                    if fault == Some(Refused) then cache else cache[o.orderId := o])
  {
    hide O.Encode, O.ToCache, R.OrderKeyOf;
    forall id ensures R.OrderKeyOf(id) == R.OrderKeyOf(o.orderId) ==> id == o.orderId {
      R.KeysAreDistinct(id, o.orderId);
    }
  }

  /** A cached order reads back as its projection, an uncached one as missing. */
  lemma MirrorReads(c: D.Codec, e: R.Entries, cache: map<string, D.Order>, id: string)
    requires D.Faithful(c) && Mirrors(c, e, cache)
    requires id in cache ==> !Blank(cache[id].orderId) && O.Sized(cache[id])
    ensures R.OrderAt(c, e, id) == if id in cache then Ok(O.Projected(cache[id])) else Err(R.Missing)
  {
    if id in cache {
      R.UpsertReadsBack(c, cache[id]);
    }
  }

  /** The order the service's preview check sees, in a state the interleaved
      model reaches and with reads that do not fail, is granted to exactly the
      stored order's parties - whether Redis answers or not. */
  lemma SeenOrderDecides(c: D.Codec, e: R.Entries, w: M.World, orderId: string, userId: string, unavailable: bool)
    requires D.Faithful(c) && T.Traced(w) && Mirrors(c, e, w.cache)
    requires forall id :: id in w.cache ==> O.Sized(w.cache[id])
    ensures var id, t := TrimSpace(orderId), M.Current(w).tables;
            var cached := if unavailable then Err(R.Unavailable) else R.OrderAt(c, e, id);
            var stored := P.Loading(t, id, P.Reads(false, false));
            var seen := if cached.Ok? then Some(cached.value) else if stored.Ok? then Some(stored.value) else None;
            (!Blank(orderId) && !Blank(userId) && seen.Some? && M.Grants(seen.value, userId)) <==> T.Allowed(t, id, userId)
  {
    hide Run, Trim, O.Encode, T.Provenanced, M.Grants, T.Allowed, R.OrderAt;
    var id := TrimSpace(orderId);
    if Blank(orderId) || Blank(userId) {
      T.BlankNamesNothing(w.history, orderId, userId);
    } else if !unavailable && id in w.cache {
      CachedIdIsUuid(w, id);
      MirrorReads(c, e, w.cache, id);
      T.CachingKeepsView(w.cache[id]);
      T.SameView(w.history, w.cache[id], O.Projected(w.cache[id]));
      T.CopiesDecideAlike(w.history, O.Projected(w.cache[id]), userId);
    } else {
      if !unavailable {
        MirrorReads(c, e, w.cache, id);
      }
      StoredDecides(w.history, id, userId);
    }
  }

  lemma CachedIdIsUuid(w: M.World, id: string)
    requires T.Traced(w) && id in w.cache
    ensures !Blank(w.cache[id].orderId)
  {
    T.ProvenancedOrderIsStored(w.history, w.cache[id]);
    RunIsWellKeyed(w.history);
    UuidIsTrimmed(id);
    BlankText(id);
  }

  lemma StoredDecides(h: seq<Call>, id: string, userId: string)
    ensures var stored := P.Loading(Run(h).tables, id, P.Reads(false, false));
            (stored.Ok? && M.Grants(stored.value, userId)) <==> T.Allowed(Run(h).tables, id, userId)
  {
    hide T.View;
    RunIsWellKeyed(h);
    RunIsKeyed(h);
    H.OrdersAreSound(h, id);
    var t := Run(h).tables;
    if id in t.orders {
      H.LatestVersion(h);
      assert T.From(h, D.Loaded(t.orders[id], t.snapshots[id]), |h|, |h|);
      T.CopiesDecideAlike(h, D.Loaded(t.orders[id], t.snapshots[id]), userId);
    }
  }
}
