/** The Redis read repository: one keyed store for the three cached documents. */
module Redis {
  import opened Text
  import opened Json
  import opened Commands
  import D = Domain
  import O = OrderCaching
  import Q = RequirementsCaching
  import P = DeliveryPage
  import N = Requirements
  import F = DeliveryFiles

  function OrderKeyOf(id: string): string {
    "order:" + id
  }

  function RequirementsKeyOf(id: string): string {
    "requirements:" + id
  }

  function DeliveryKeyOf(id: string): string {
    "order_delivery:" + id
  }

  lemma PrefixInjective(prefix: string, a: string, b: string)
    requires prefix + a == prefix + b
    ensures a == b
  {
    assert a == (prefix + a)[|prefix|..] && b == (prefix + b)[|prefix|..];
  }

  /** No two documents share a key. */
  lemma KeysAreDistinct(a: string, b: string)
    ensures OrderKeyOf(a) != RequirementsKeyOf(b)
    ensures OrderKeyOf(a) != DeliveryKeyOf(b)
    ensures RequirementsKeyOf(a) != DeliveryKeyOf(b)
    ensures OrderKeyOf(a) == OrderKeyOf(b) ==> a == b
    ensures RequirementsKeyOf(a) == RequirementsKeyOf(b) ==> a == b
    ensures DeliveryKeyOf(a) == DeliveryKeyOf(b) ==> a == b
  {
    assert OrderKeyOf(a)[0] == 'o' && RequirementsKeyOf(b)[0] == 'r' && RequirementsKeyOf(a)[0] == 'r' && DeliveryKeyOf(b)[0] == 'o';
    assert OrderKeyOf(a)[5] == ':' && DeliveryKeyOf(b)[5] == '_';
    if OrderKeyOf(a) == OrderKeyOf(b) {
      PrefixInjective("order:", a, b);
    }
    if RequirementsKeyOf(a) == RequirementsKeyOf(b) {
      PrefixInjective("requirements:", a, b);
    }
    if DeliveryKeyOf(a) == DeliveryKeyOf(b) {
      PrefixInjective("order_delivery:", a, b);
    }
  }

  datatype CacheError = NilValue | Missing | Unavailable | Undecodable

  type Entries = map<string, Raw>

  /** What a SET leaves, when it may be refused or its reply lost. */
  function AfterSet(e: Entries, key: string, value: Raw, fault: Option<Fault>): Entries {
    if fault == Some(Refused) then e else e[key := value]
  }

  // ---- what a payload means ----------------------------------------------------

  /** The order a stored payload stands for. */
  function OrderIn(c: D.Codec, raw: Raw): Result<D.Order, CacheError> {
    var nested, legacy := O.DecodeOrder(raw), O.DecodeLegacy(raw);
    if nested.Some? && !Blank(nested.value.order.orderId) then Ok(O.FromCache(c, nested.value))
    else if legacy.Some? && (nested.None? || !Blank(legacy.value.orderId)) then Ok(O.FromLegacy(c, legacy.value))
    else Err(if nested.None? then Undecodable else Missing)
  }

  function OrderAt(c: D.Codec, e: Entries, id: string): Result<D.Order, CacheError> {
    if OrderKeyOf(id) in e then OrderIn(c, e[OrderKeyOf(id)]) else Err(Missing)
  }

  function Summarized(r: Result<D.Order, CacheError>): Result<D.Preview, CacheError> {
    if r.Ok? then Ok(D.Summary(r.value)) else Err(r.error)
  }

  function RequirementsAt(c: D.Codec, e: Entries, id: string): Result<Q.Requirements, CacheError> {
    if RequirementsKeyOf(id) !in e then Err(Missing)
    else
      var x := Q.Decode(e[RequirementsKeyOf(id)]);
      if x.Some? then Ok(Q.ReadBack(c, id, x.value)) else Err(Undecodable)
  }

  function DeliveryAt(c: D.Codec, e: Entries, id: string): Result<P.Stored, CacheError> {
    if DeliveryKeyOf(id) !in e then Err(Missing)
    else
      var x := P.Decode(e[DeliveryKeyOf(id)]);
      if x.None? then Err(Undecodable)
      else if Blank(x.value.message) && Blank(x.value.createdAt) && x.value.files == [] then Err(Missing)
      else Ok(P.FromCache(c, id, x.value))
  }

  class Repository {
    var entries: Entries
    const codec: D.Codec

    constructor (codec: D.Codec)
      ensures entries == map[] && this.codec == codec
    {
      entries := map[];
      this.codec := codec;
    }

    method Set(key: string, value: Raw, fault: Option<Fault>) returns (r: Result<(), CacheError>)
      modifies this`entries
      ensures entries == AfterSet(old(entries), key, value, fault)
      ensures r == if fault.Some? then Err(Unavailable) else Ok(())
    {
      if fault != Some(Refused) {
        entries := entries[key := value];
      }
      return if fault.Some? then Err(Unavailable) else Ok(());
    }

    method Upsert(order: Option<D.Order>, fault: Option<Fault>) returns (r: Result<(), CacheError>)
      modifies this`entries
      ensures order.None? ==> r == Err(NilValue) && entries == old(entries)
      ensures order.Some? ==>
                && entries == AfterSet(old(entries), OrderKeyOf(order.value.orderId), O.Encode(O.ToCache(codec, order.value)), fault)
                && (r.Ok? <==> fault.None?)
    {
      if order.None? {
        return Err(NilValue);
      }
      var cache := O.ToCache(codec, order.value);
      r := Set(OrderKeyOf(order.value.orderId), O.Encode(cache), fault);
    }

    method UpsertRequirements(orderId: string, requirements: Option<Q.Requirements>, fault: Option<Fault>)
      returns (r: Result<(), CacheError>)
      modifies this`entries
      ensures requirements.None? ==> r == Err(NilValue) && entries == old(entries)
      ensures requirements.Some? ==>
                && entries == AfterSet(old(entries), RequirementsKeyOf(orderId), Q.Encode(Q.Stored(codec, requirements.value)), fault)
                && (r.Ok? <==> fault.None?)
    {
      if requirements.None? {
        return Err(NilValue);
      }
      var cache := Q.MapToCache(codec, requirements.value);
      r := Set(RequirementsKeyOf(orderId), Q.Encode(cache), fault);
    }

    method UpsertDelivery(orderId: string, delivery: Option<P.Stored>, fault: Option<Fault>)
      returns (r: Result<(), CacheError>)
      modifies this`entries
      ensures delivery.None? ==> r == Err(NilValue) && entries == old(entries)
      ensures delivery.Some? ==>
                && entries == AfterSet(old(entries), DeliveryKeyOf(orderId), P.Encode(P.CacheOf(codec, delivery.value)), fault)
                && (r.Ok? <==> fault.None?)
    {
      if delivery.None? {
        return Err(NilValue);
      }
      var cache := P.MapToCache(codec, delivery.value);
      r := Set(DeliveryKeyOf(orderId), P.Encode(cache), fault);
    }

    method GetDeliveryById(orderId: string, unavailable: bool) returns (r: Result<P.Stored, CacheError>)
      ensures r == if unavailable then Err(Unavailable) else DeliveryAt(codec, entries, orderId)
    {
      if unavailable {
        return Err(Unavailable);
      }
      if DeliveryKeyOf(orderId) !in entries {
        return Err(Missing);
      }
      var cache := P.Decode(entries[DeliveryKeyOf(orderId)]);
      if cache.None? {
        return Err(Undecodable);
      }
      if Blank(cache.value.message) && Blank(cache.value.createdAt) && |cache.value.files| == 0 {
        return Err(Missing);
      }
      var d := P.MapToDomain(codec, orderId, cache.value);
      return Ok(d);
    }

    method GetById(orderId: string, unavailable: bool) returns (r: Result<D.Order, CacheError>)
      ensures r == if unavailable then Err(Unavailable) else OrderAt(codec, entries, orderId)
    {
      if unavailable {
        return Err(Unavailable);
      }
      if OrderKeyOf(orderId) !in entries {
        return Err(Missing);
      }
      var raw := entries[OrderKeyOf(orderId)];
      var cache, legacy := O.DecodeOrder(raw), O.DecodeLegacy(raw);
      if cache.None? {
        return if legacy.None? then Err(Undecodable) else Ok(O.FromLegacy(codec, legacy.value));
      }
      if Blank(cache.value.order.orderId) {
        if legacy.Some? && !Blank(legacy.value.orderId) {
          return Ok(O.FromLegacy(codec, legacy.value));
        }
        return Err(Missing);
      }
      return Ok(O.FromCache(codec, cache.value));
    }

    /** For every stored payload, the id, time and status of what `GetById`
        answers, or its error. */
    method GetPreviewById(orderId: string, unavailable: bool) returns (r: Result<D.Preview, CacheError>)
      ensures r == if unavailable then Err(Unavailable) else Summarized(OrderAt(codec, entries, orderId))
      ensures r.Ok? ==>
                var o := OrderAt(codec, entries, orderId).value;
                r.value.orderId == o.orderId && r.value.createdAt == o.createdAt && r.value.status == o.status
    {
      if unavailable {
        return Err(Unavailable);
      }
      if OrderKeyOf(orderId) !in entries {
        return Err(Missing);
      }
      var raw := entries[OrderKeyOf(orderId)];
      var cache, legacy := O.DecodeOrder(raw), O.DecodeLegacy(raw);
      if cache.None? {
        if legacy.None? {
          return Err(Undecodable);
        }
        return Ok(D.Preview(legacy.value.orderId, D.ParseOrZero(codec, legacy.value.createdAt), legacy.value.status));
      }
      if Blank(cache.value.order.orderId) {
        if legacy.Some? && !Blank(legacy.value.orderId) {
          return Ok(D.Preview(legacy.value.orderId, D.ParseOrZero(codec, legacy.value.createdAt), legacy.value.status));
        }
        return Err(Missing);
      }
      var header := cache.value.order;
      return Ok(D.Preview(header.orderId, D.ParseOrZero(codec, header.createdAt), header.status));
    }

    method GetRequirementsById(orderId: string, unavailable: bool) returns (r: Result<Q.Requirements, CacheError>)
      ensures r == if unavailable then Err(Unavailable) else RequirementsAt(codec, entries, orderId)
    {
      if unavailable {
        return Err(Unavailable);
      }
      if RequirementsKeyOf(orderId) !in entries {
        return Err(Missing);
      }
      var cache := Q.Decode(entries[RequirementsKeyOf(orderId)]);
      if cache.None? {
        return Err(Undecodable);
      }
      var out := Q.MapToDomain(codec, orderId, cache.value);
      return Ok(out);
    }
  }

  // ---- round trips ---------------------------------------------------------------

  /** An order with a non-blank id reads back as its projection; the legacy
      branch is not taken. */
  lemma UpsertReadsBack(c: D.Codec, o: D.Order)
    requires D.Faithful(c) && O.Sized(o) && !Blank(o.orderId)
    ensures O.DecodeOrder(O.Encode(O.ToCache(c, o))) == Some(O.ToCache(c, o))
    ensures OrderIn(c, O.Encode(O.ToCache(c, o))) == Ok(O.Projected(o)) && O.ShowsSame(O.Projected(o), o)
  {
    hide O.Encode, O.DecodeOrder, O.DecodeLegacy;
    O.OrderRoundTrip(O.ToCache(c, o));
    O.MappersProject(c, o);
  }

  /** A flat document with a non-blank id always reads back through the legacy branch. */
  lemma LegacyReadsBack(c: D.Codec, l: O.Legacy)
    requires InRange(l.priceCents, INT64) && InRange(l.deliveryDays, INT32) && !Blank(l.orderId)
    ensures OrderIn(c, O.EncodeLegacy(l)) == Ok(O.FromLegacy(c, l))
  {
    hide O.EncodeLegacy, O.DecodeOrder, O.DecodeLegacy;
    O.LegacyRoundTrip(l);
    O.LegacyLooksBlank(l);
  }

  /** An order with a blank id is answered exactly for a payload that does not
      decode as nested and decodes as flat with a blank id: only the branch after
      a decoding error skips the check. */
  lemma BlankOrderServed(c: D.Codec, raw: Raw)
    ensures OrderIn(c, raw).Ok? && Blank(OrderIn(c, raw).value.orderId)
            <==> O.DecodeOrder(raw).None? && O.DecodeLegacy(raw).Some? && Blank(O.DecodeLegacy(raw).value.orderId)
  {
    hide O.DecodeOrder, O.DecodeLegacy;
  }

  /** Such a payload exists: a scalar in place of the order header. */
  lemma BlankOrderWitness(c: D.Codec)
    ensures OrderIn(c, Parsed(Object(map[OrderKey := Flag(true)]))).Ok?
  {}

  // ---- what the cache shows of the tables --------------------------------------------

  /** The cached requirements document of the order shows the page. */
  ghost predicate HoldsPage(c: D.Codec, e: Entries, id: string, p: N.Page) {
    && RequirementsKeyOf(id) in e
    && exists x :: e[RequirementsKeyOf(id)] == Q.Encode(x) && Q.ShowsPage(c, x.pairs, x.message, p)
  }

  /** The cached delivery document of the order shows the stored delivery. */
  ghost predicate HoldsView(c: D.Codec, resolve: P.Resolver, e: Entries, id: string, v: F.DeliveryView) {
    && DeliveryKeyOf(id) in e
    && exists x :: e[DeliveryKeyOf(id)] == P.Encode(x) && P.CachesView(c, resolve, x, v)
  }

  /** Positions are 32-bit numbers. */
  predicate PageFits(p: N.Page) {
    forall i :: 0 <= i < |p.items| ==> InRange(p.items[i].sortOrder, INT32)
  }

  predicate ViewFits(v: F.DeliveryView) {
    forall i :: 0 <= i < |v.files| ==> InRange(v.files[i].sortOrder, INT32)
  }

  lemma PageIsHeld(c: D.Codec, e: Entries, id: string, p: N.Page, fault: Option<Fault>)
    requires fault != Some(Refused)
    ensures HoldsPage(c, AfterSet(e, RequirementsKeyOf(id), Q.Encode(Q.Stored(c, Q.FromPage(p))), fault), id, p)
  {
    Q.DatabasePageShows(c, p);
    hide Q.Encode, Q.Stored, Q.FromPage;
    var x := Q.Stored(c, Q.FromPage(p));
    assert Q.ShowsPage(c, x.pairs, x.message, p);
  }

  /** A page held in the cache is read and served as a page that shows the same. */
  lemma HeldPageServed(c: D.Codec, e: Entries, id: string, p: N.Page)
    requires D.Faithful(c) && PageFits(p) && HoldsPage(c, e, id, p)
    ensures RequirementsAt(c, e, id).Ok?
    ensures var served := Q.Page(c, RequirementsAt(c, e, id).value); Q.ShowsPage(c, served.pairs, served.message, p)
  {
    var x :| e[RequirementsKeyOf(id)] == Q.Encode(x) && Q.ShowsPage(c, x.pairs, x.message, p);
    assert Q.Sized(x.pairs) by {
      assert forall i :: 0 <= i < |x.pairs| ==> Q.ShowsItem(x.pairs[i], p.items[i]);
    }
    Q.CachedPageShows(c, id, x, p);
  }

  lemma ViewIsHeld(c: D.Codec, resolve: P.Resolver, e: Entries, id: string, page: P.Page, v: F.DeliveryView, fault: Option<Fault>)
    requires D.Faithful(c) && fault != Some(Refused) && P.ShowsView(c, resolve, page, v)
    ensures HoldsView(c, resolve, AfterSet(e, DeliveryKeyOf(id), P.Encode(P.CacheOf(c, P.DomainOf(c, id, page))), fault), id, v)
  {
    P.RefreshCaches(c, resolve, id, page, v);
  }

  lemma HeldViewServed(c: D.Codec, resolve: P.Resolver, e: Entries, id: string, v: F.DeliveryView)
    requires D.Faithful(c) && ViewFits(v) && HoldsView(c, resolve, e, id, v)
    ensures DeliveryAt(c, e, id).Ok? && P.PageOf(c, resolve, DeliveryAt(c, e, id).value).Some?
    ensures P.ShowsCachedView(c, resolve, P.PageOf(c, resolve, DeliveryAt(c, e, id).value).value, v)
  {
    var x :| e[DeliveryKeyOf(id)] == P.Encode(x) && P.CachesView(c, resolve, x, v);
    assert P.Sized(x.files) by {
      assert forall i :: 0 <= i < |x.files| ==> P.ShowsFile(c, resolve, x.files[i], v.files[i]);
    }
    P.CachedViewShows(c, resolve, id, x, v);
  }

  /** A delivery with a head always reads back as itself, trimmed, without seller. */
  lemma DeliveryReadsBack(c: D.Codec, e: Entries, id: string, d: P.Stored)
    requires D.Faithful(c) && d.delivery.Some? && P.Sized(P.CacheOf(c, d).files)
    requires DeliveryKeyOf(id) in e && e[DeliveryKeyOf(id)] == P.Encode(P.CacheOf(c, d))
    ensures DeliveryAt(c, e, id) == Ok(P.FromCache(c, id, P.CacheOf(c, d)))
  {
    hide P.Encode, P.Decode;
    P.CacheRoundTrip(P.CacheOf(c, d));
    BlankText(c.format(d.delivery.value.createdAt));
  }
}
