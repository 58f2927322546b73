/** The Kafka projection subscribers: the asynchronous writers of the cache. */
module Subscribers {
  import opened Text
  import opened Commands
  import A = Application
  import D = Domain
  import R = Redis
  import Q = RequirementsCaching
  import G = DeliveryPage

  /** `previewSubscriber.handle`: caches the order it was sent, whatever is cached. */
  method HandlePreview(read: R.Repository, message: Option<D.Order>, fault: Option<Fault>) returns (ok: bool)
    modifies read`entries
    ensures message.None? ==> !ok && read.entries == old(read.entries)
    ensures message.Some? ==>
              && (ok <==> fault.None?)
              && read.entries == R.AfterSet(old(read.entries), R.OrderKeyOf(message.value.orderId),
                                            R.O.Encode(R.O.ToCache(read.codec, message.value)), fault)
  {
    if message.None? {
      return false;
    }
    var r := read.Upsert(message, fault);
    return r.Ok?;
  }

  /** `requirementsSubscriber.handle` */
  method HandleRequirements(read: R.Repository, message: Option<Q.Requirements>, fault: Option<Fault>) returns (ok: bool)
    modifies read`entries
    ensures message.None? ==> !ok && read.entries == old(read.entries)
    ensures message.Some? ==>
              && (ok <==> fault.None?)
              && read.entries == R.AfterSet(old(read.entries), R.RequirementsKeyOf(message.value.orderId),
                                            Q.Encode(Q.Stored(read.codec, message.value)), fault)
  {
    if message.None? {
      return false;
    }
    var r := read.UpsertRequirements(message.value.orderId, message, fault);
    return r.Ok?;
  }

  /** `deliverySubscriber.handle`: only the order id of the message is used; the
      page is built from the database, and cached exactly as the synchronous
      refresh caches it. */
  method HandleDelivery(service: A.Service, orderId: Option<string>, q: A.DeliveryQueries, fault: Option<Fault>) returns (ok: bool)
    requires service.Valid() && A.AnsweringFiles(q)
    modifies service.read`entries
    ensures ok <==> orderId.Some? && fault.None? && !q.firstFails && !q.secondFails
                    && orderId.value in service.repo.store.tables.deliveries
    ensures !ok && (orderId.None? || q.firstFails || q.secondFails || orderId.value !in service.repo.store.tables.deliveries)
            ==> service.read.entries == old(service.read.entries)
    ensures orderId.Some? && !q.firstFails && !q.secondFails && orderId.value in service.repo.store.tables.deliveries ==>
              exists page, v ::
                && A.IsView(service.repo.store.tables, orderId.value, v)
                && G.ShowsView(service.read.codec, service.peers.url, page, v)
                && service.Holds(orderId.value, v, fault)
                && service.read.entries == service.DeliveryCachedAs(orderId.value, page, fault, old(service.read.entries))
  {
    if orderId.None? {
      return false;
    }
    var page := service.BuildOrderDeliveryProjection(orderId.value, q);
    if page.Err? {
      return false;
    }
    var d := G.DeliveryProjection(service.read.codec, orderId.value, Some(page.value));
    G.WritersAgree(service.read.codec, orderId.value, page.value);
    var r := service.read.UpsertDelivery(orderId.value, d, fault);
    service.ViewHeld(orderId.value, page.value, fault, old(service.read.entries));
    return r.Ok?;
  }
}
