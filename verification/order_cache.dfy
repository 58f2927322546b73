/** The cached order document, nested and legacy, and its mapping to the domain. */
module OrderCaching {
  import opened Text
  import opened Json
  import D = Domain

  datatype Header = Header(orderId: string, createdAt: string, status: string, updatedAt: string)

  datatype Package = Package(
    packageId: string, title: string, priceCents: int, currency: string, description: string, deliveryDays: int)

  datatype Gig = Gig(gigId: string, title: string, pictureUrl: string, package: Package)

  datatype OrderCache = OrderCache(
    order: Header, gig: Gig, customer: Option<D.User>, freelancer: Option<D.User>, buyerId: string,
    sellerId: string, sellerUsername: string, pictureFileId: string, paymentIntentId: string)

  datatype Legacy = Legacy(
    orderId: string, sagaId: string, buyerId: string, sellerId: string, sellerUsername: string,
    gigId: string, gigTitle: string, pictureFileId: string, pictureUrl: string, packageId: string,
    packageTier: string, packageDescription: string, deliveryDays: int, priceCents: int, currency: string,
    status: string, paymentIntentId: string, createdAt: string, updatedAt: string)

  // ---- domain mapping --------------------------------------------------------

  function ToCache(c: D.Codec, o: D.Order): OrderCache {
    OrderCache(
      Header(o.orderId, c.format(o.createdAt), o.status, c.format(o.updatedAt)),
      Gig(o.gigId, o.gigTitle, o.pictureUrl,
          Package(o.packageId, o.packageTier, o.priceCents, o.currency, o.packageDescription, o.packageDeliveryDays)),
      o.customer, o.freelancer, o.buyerId, o.sellerId, o.sellerUsername, o.pictureFileId, o.paymentIntentId)
  }

  function FromCache(c: D.Codec, x: OrderCache): D.Order {
    D.Order.Order(x.order.orderId, "", x.buyerId, x.sellerId, x.sellerUsername, x.customer, x.freelancer,
            x.gig.gigId, x.gig.title, x.pictureFileId, x.gig.pictureUrl, x.gig.package.packageId,
            x.gig.package.title, x.gig.package.description, x.gig.package.deliveryDays, x.gig.package.priceCents,
            x.gig.package.currency, x.order.status, "", x.paymentIntentId, "", "",
            D.ZERO, D.ZERO, D.ZERO, D.ZERO, 0, D.ParseOrZero(c, x.order.createdAt), D.ParseOrZero(c, x.order.updatedAt))
  }

  function FromLegacy(c: D.Codec, l: Legacy): D.Order {
    D.Order.Order(l.orderId, l.sagaId, l.buyerId, l.sellerId, l.sellerUsername, None, None,
            l.gigId, l.gigTitle, l.pictureFileId, l.pictureUrl, l.packageId, l.packageTier, l.packageDescription,
            l.deliveryDays, l.priceCents, l.currency, l.status, "", l.paymentIntentId, "", "",
            D.ZERO, D.ZERO, D.ZERO, D.ZERO, 0, D.ParseOrZero(c, l.createdAt), D.ParseOrZero(c, l.updatedAt))
  }

  /** What the cache keeps of an order: everything but the saga, idempotency key,
      release, failure reason, lifecycle times and revision count. */
  function Projected(o: D.Order): D.Order {
    o.(sagaId := "", idempotencyKey := "", paymentReleaseId := "", failureReason := "", deliveredAt := D.ZERO,
       completedAt := D.ZERO, disputedAt := D.ZERO, buyerResponseDeadline := D.ZERO, revisionCountUsed := 0)
  }

  /** The fields the order page shows, each its own. */
  ghost predicate ShowsSame(x: D.Order, o: D.Order) {
    && x.orderId == o.orderId && x.buyerId == o.buyerId && x.sellerId == o.sellerId && x.sellerUsername == o.sellerUsername
    && x.customer == o.customer && x.freelancer == o.freelancer && x.gigId == o.gigId && x.gigTitle == o.gigTitle
    && x.pictureFileId == o.pictureFileId && x.pictureUrl == o.pictureUrl && x.packageId == o.packageId
    && x.packageTier == o.packageTier && x.packageDescription == o.packageDescription
    && x.packageDeliveryDays == o.packageDeliveryDays && x.priceCents == o.priceCents && x.currency == o.currency
    && x.status == o.status && x.paymentIntentId == o.paymentIntentId && x.createdAt == o.createdAt && x.updatedAt == o.updatedAt
  }

  lemma MappersProject(c: D.Codec, o: D.Order)
    requires D.Faithful(c)
    ensures FromCache(c, ToCache(c, o)) == Projected(o) && ShowsSame(Projected(o), o)
  {}

  /** The flat document of an order. */
  function LegacyOf(c: D.Codec, o: D.Order): Legacy {
    Legacy(o.orderId, o.sagaId, o.buyerId, o.sellerId, o.sellerUsername, o.gigId, o.gigTitle, o.pictureFileId,
           o.pictureUrl, o.packageId, o.packageTier, o.packageDescription, o.packageDeliveryDays, o.priceCents,
           o.currency, o.status, o.paymentIntentId, c.format(o.createdAt), c.format(o.updatedAt))
  }

  /** Either document of an order stands for the same order; the flat one keeps
      the saga, the nested one the participants. */
  lemma FlatAndNestedAgree(c: D.Codec, o: D.Order)
    ensures FromLegacy(c, LegacyOf(c, o))
            == FromCache(c, ToCache(c, o)).(sagaId := o.sagaId, customer := None, freelancer := None)
  {}

  /** The widths of the Go fields. */
  predicate Sized(o: D.Order) {
    InRange(o.packageDeliveryDays, INT32) && InRange(o.priceCents, INT64)
  }

  // ---- encoding ----------------------------------------------------------------

  function HeaderJson(h: Header): Json {
    Document(k => HeaderMember(h, k))
  }

  function HeaderMember(h: Header, k: Key): Json {
    match k
    case OrderIdKey => Text(h.orderId)
    case CreatedAtKey => Text(h.createdAt)
    case StatusKey => Text(h.status)
    case UpdatedAtKey => OmitEmpty(h.updatedAt)
    case _ => Null
  }

  function PackageJson(p: Package): Json {
    Document(k => PackageMember(p, k))
  }

  function PackageMember(p: Package, k: Key): Json {
    match k
    case PackageIdKey => Text(p.packageId)
    case TitleKey => Text(p.title)
    case PriceCentsKey => Number(p.priceCents)
    case CurrencyKey => Text(p.currency)
    case DescriptionKey => Text(p.description)
    case DeliveryDaysKey => Number(p.deliveryDays)
    case _ => Null
  }

  function GigJson(g: Gig): Json {
    Document(k => GigMember(g, k))
  }

  function GigMember(g: Gig, k: Key): Json {
    match k
    case GigIdKey => Text(g.gigId)
    case TitleKey => Text(g.title)
    case PictureUrlKey => Text(g.pictureUrl)
    case PackageKey => PackageJson(g.package)
    case _ => Null
  }

  function UserDocument(u: D.User): Json {
    Document(k => UserMember(u, k))
  }

  function UserMember(u: D.User, k: Key): Json {
    match k
    case UserIdKey => Text(u.userId)
    case UsernameKey => Text(u.username)
    case DisplayNameKey => Text(u.displayName)
    case AvatarUrlKey => Text(u.avatarUrl)
    case _ => Null
  }

  function UserJson(u: Option<D.User>): Json {
    if u.Some? then UserDocument(u.value) else Null
  }

  function OrderMember(x: OrderCache, k: Key): Json {
    match k
    case OrderKey => HeaderJson(x.order)
    case GigKey => GigJson(x.gig)
    case CustomerKey => UserJson(x.customer)
    case FreelancerKey => UserJson(x.freelancer)
    case BuyerIdKey => OmitEmpty(x.buyerId)
    case SellerIdKey => OmitEmpty(x.sellerId)
    case SellerUsernameKey => OmitEmpty(x.sellerUsername)
    case PictureFileIdKey => OmitEmpty(x.pictureFileId)
    case PaymentIntentIdKey => OmitEmpty(x.paymentIntentId)
    case _ => Null
  }

  function OrderJson(x: OrderCache): Json {
    Document(k => OrderMember(x, k))
  }

  /** `json.Marshal(cache)` */
  function Encode(x: OrderCache): Raw {
    Parsed(OrderJson(x))
  }

  function LegacyMember(l: Legacy, k: Key): Json {
    match k
    case OrderIdKey => Text(l.orderId)
    case SagaIdKey => Text(l.sagaId)
    case BuyerIdKey => Text(l.buyerId)
    case SellerIdKey => Text(l.sellerId)
    case SellerUsernameKey => OmitEmpty(l.sellerUsername)
    case GigIdKey => Text(l.gigId)
    case GigTitleKey => Text(l.gigTitle)
    case PictureFileIdKey => OmitEmpty(l.pictureFileId)
    case PictureUrlKey => OmitEmpty(l.pictureUrl)
    case PackageIdKey => Text(l.packageId)
    case PackageTierKey => Text(l.packageTier)
    case PackageDescriptionKey => Text(l.packageDescription)
    case DeliveryDaysKey => Number(l.deliveryDays)
    case PriceCentsKey => Number(l.priceCents)
    case CurrencyKey => Text(l.currency)
    case StatusKey => Text(l.status)
    case PaymentIntentIdKey => OmitEmpty(l.paymentIntentId)
    case CreatedAtKey => Text(l.createdAt)
    case UpdatedAtKey => Text(l.updatedAt)
    case _ => Null
  }

  /** What the service stored before the nested document. */
  function EncodeLegacy(l: Legacy): Raw {
    Parsed(LegacyJson(l))
  }

  function LegacyJson(l: Legacy): Json {
    Document(k => LegacyMember(l, k))
  }

  // ---- decoding ------------------------------------------------------------------

  function DecodeHeader(j: Json): Option<Header> {
    if !Texts(j, {OrderIdKey, CreatedAtKey, StatusKey, UpdatedAtKey}) then None
    else Some(Header(Txt(j, OrderIdKey), Txt(j, CreatedAtKey), Txt(j, StatusKey), Txt(j, UpdatedAtKey)))
  }

  function DecodePackage(j: Json): Option<Package> {
    var price, days := AsInt(Member(j, PriceCentsKey), INT64), AsInt(Member(j, DeliveryDaysKey), INT32);
    if !Texts(j, {PackageIdKey, TitleKey, CurrencyKey, DescriptionKey}) || price.None? || days.None? then None
    else Some(Package(Txt(j, PackageIdKey), Txt(j, TitleKey), price.value, Txt(j, CurrencyKey),
                      Txt(j, DescriptionKey), days.value))
  }

  function DecodeGig(j: Json): Option<Gig> {
    var package := DecodePackage(Member(j, PackageKey));
    if !Texts(j, {GigIdKey, TitleKey, PictureUrlKey}) || package.None? then None
    else Some(Gig(Txt(j, GigIdKey), Txt(j, TitleKey), Txt(j, PictureUrlKey), package.value))
  }

  /** An optional struct member: absent or null is none. */
  function DecodeUser(j: Json): Option<Option<D.User>> {
    if j.Null? then Some(None)
    else if !Texts(j, {UserIdKey, UsernameKey, DisplayNameKey, AvatarUrlKey}) then None
    else Some(Some(D.User(Txt(j, UserIdKey), Txt(j, UsernameKey), Txt(j, DisplayNameKey), Txt(j, AvatarUrlKey))))
  }

  function DecodeOrder(raw: Raw): Option<OrderCache> {
    if raw.Malformed? || !Texts(raw.json, {BuyerIdKey, SellerIdKey, SellerUsernameKey, PictureFileIdKey, PaymentIntentIdKey})
    then None
    else
      var j := raw.json;
      var header, gig := DecodeHeader(Member(j, OrderKey)), DecodeGig(Member(j, GigKey));
      var customer, freelancer := DecodeUser(Member(j, CustomerKey)), DecodeUser(Member(j, FreelancerKey));
      if header.None? || gig.None? || customer.None? || freelancer.None? then None
      else Some(OrderCache(header.value, gig.value, customer.value, freelancer.value,
                           Txt(j, BuyerIdKey), Txt(j, SellerIdKey), Txt(j, SellerUsernameKey),
                           Txt(j, PictureFileIdKey), Txt(j, PaymentIntentIdKey)))
  }

  const LEGACY_TEXTS := {
    OrderIdKey, SagaIdKey, BuyerIdKey, SellerIdKey, SellerUsernameKey, GigIdKey, GigTitleKey, PictureFileIdKey,
    PictureUrlKey, PackageIdKey, PackageTierKey, PackageDescriptionKey, CurrencyKey, StatusKey, PaymentIntentIdKey,
    CreatedAtKey, UpdatedAtKey}

  function DecodeLegacy(raw: Raw): Option<Legacy> {
    if raw.Malformed? || !Texts(raw.json, LEGACY_TEXTS) then None
    else
      var j := raw.json;
      var days, price := AsInt(Member(j, DeliveryDaysKey), INT32), AsInt(Member(j, PriceCentsKey), INT64);
      if days.None? || price.None? then None
      else
        Some(Legacy(Txt(j, OrderIdKey), Txt(j, SagaIdKey), Txt(j, BuyerIdKey), Txt(j, SellerIdKey), Txt(j, SellerUsernameKey),
                    Txt(j, GigIdKey), Txt(j, GigTitleKey), Txt(j, PictureFileIdKey), Txt(j, PictureUrlKey),
                    Txt(j, PackageIdKey), Txt(j, PackageTierKey), Txt(j, PackageDescriptionKey), days.value, price.value,
                    Txt(j, CurrencyKey), Txt(j, StatusKey), Txt(j, PaymentIntentIdKey), Txt(j, CreatedAtKey), Txt(j, UpdatedAtKey)))
  }

  // ---- round trips -----------------------------------------------------------------

  lemma PackageMembers(p: Package)
    ensures PackageJson(p).Object? && forall k :: Member(PackageJson(p), k) == PackageMember(p, k)
  {}

  lemma OrderMembers(x: OrderCache)
    ensures OrderJson(x).Object? && forall k :: Member(OrderJson(x), k) == OrderMember(x, k)
  {}

  lemma LegacyMembers(l: Legacy)
    ensures LegacyJson(l).Object? && forall k :: Member(LegacyJson(l), k) == LegacyMember(l, k)
  {}

  lemma UserMembers(u: D.User)
    ensures UserDocument(u).Object? && forall k :: Member(UserDocument(u), k) == UserMember(u, k)
  {}

  lemma PackageKept(p: Package)
    ensures PackageJson(p).Object?
    ensures Member(PackageJson(p), PackageIdKey) == Text(p.packageId)
    ensures Member(PackageJson(p), TitleKey) == Text(p.title)
    ensures Member(PackageJson(p), PriceCentsKey) == Number(p.priceCents)
    ensures Member(PackageJson(p), CurrencyKey) == Text(p.currency)
    ensures Member(PackageJson(p), DescriptionKey) == Text(p.description)
    ensures Member(PackageJson(p), DeliveryDaysKey) == Number(p.deliveryDays)
  {
    hide PackageJson, Member;
    PackageMembers(p);
  }

  lemma UserKept(u: D.User)
    ensures UserDocument(u).Object?
    ensures Member(UserDocument(u), UserIdKey) == Text(u.userId)
    ensures Member(UserDocument(u), UsernameKey) == Text(u.username)
    ensures Member(UserDocument(u), DisplayNameKey) == Text(u.displayName)
    ensures Member(UserDocument(u), AvatarUrlKey) == Text(u.avatarUrl)
  {
    hide UserDocument, Member;
    UserMembers(u);
  }

  lemma GigKept(g: Gig)
    ensures GigJson(g).Object?
    ensures Member(GigJson(g), GigIdKey) == Text(g.gigId)
    ensures Member(GigJson(g), TitleKey) == Text(g.title)
    ensures Member(GigJson(g), PictureUrlKey) == Text(g.pictureUrl)
    ensures Member(GigJson(g), PackageKey) == PackageJson(g.package)
  {}

  lemma BlocksKept(x: OrderCache)
    ensures OrderJson(x).Object?
    ensures Member(OrderJson(x), OrderKey) == HeaderJson(x.order)
    ensures Member(OrderJson(x), GigKey) == GigJson(x.gig)
    ensures Member(OrderJson(x), CustomerKey) == UserJson(x.customer)
    ensures Member(OrderJson(x), FreelancerKey) == UserJson(x.freelancer)
  {
    hide OrderJson, Member;
    OrderMembers(x);
  }

  lemma ReferencesKept(x: OrderCache)
    ensures OrderJson(x).Object?
    ensures Member(OrderJson(x), BuyerIdKey) == OmitEmpty(x.buyerId)
    ensures Member(OrderJson(x), SellerIdKey) == OmitEmpty(x.sellerId)
    ensures Member(OrderJson(x), SellerUsernameKey) == OmitEmpty(x.sellerUsername)
    ensures Member(OrderJson(x), PictureFileIdKey) == OmitEmpty(x.pictureFileId)
    ensures Member(OrderJson(x), PaymentIntentIdKey) == OmitEmpty(x.paymentIntentId)
  {
    hide OrderJson, Member;
    OrderMembers(x);
  }

  lemma LegacyPartiesKept(l: Legacy)
    ensures LegacyJson(l).Object?
    ensures Member(LegacyJson(l), OrderIdKey) == Text(l.orderId)
    ensures Member(LegacyJson(l), SagaIdKey) == Text(l.sagaId)
    ensures Member(LegacyJson(l), BuyerIdKey) == Text(l.buyerId)
    ensures Member(LegacyJson(l), SellerIdKey) == Text(l.sellerId)
    ensures Member(LegacyJson(l), SellerUsernameKey) == OmitEmpty(l.sellerUsername)
    ensures Member(LegacyJson(l), StatusKey) == Text(l.status)
    ensures Member(LegacyJson(l), PaymentIntentIdKey) == OmitEmpty(l.paymentIntentId)
  {
    hide LegacyJson, Member;
    LegacyMembers(l);
  }

  lemma LegacyGigKept(l: Legacy)
    ensures LegacyJson(l).Object?
    ensures Member(LegacyJson(l), GigIdKey) == Text(l.gigId)
    ensures Member(LegacyJson(l), GigTitleKey) == Text(l.gigTitle)
    ensures Member(LegacyJson(l), PictureFileIdKey) == OmitEmpty(l.pictureFileId)
    ensures Member(LegacyJson(l), PictureUrlKey) == OmitEmpty(l.pictureUrl)
    ensures Member(LegacyJson(l), PackageIdKey) == Text(l.packageId)
    ensures Member(LegacyJson(l), PackageTierKey) == Text(l.packageTier)
    ensures Member(LegacyJson(l), PackageDescriptionKey) == Text(l.packageDescription)
  {
    hide LegacyJson, Member;
    LegacyMembers(l);
  }

  lemma LegacyTermsKept(l: Legacy)
    ensures LegacyJson(l).Object?
    ensures Member(LegacyJson(l), DeliveryDaysKey) == Number(l.deliveryDays)
    ensures Member(LegacyJson(l), PriceCentsKey) == Number(l.priceCents)
    ensures Member(LegacyJson(l), CurrencyKey) == Text(l.currency)
    ensures Member(LegacyJson(l), CreatedAtKey) == Text(l.createdAt)
    ensures Member(LegacyJson(l), UpdatedAtKey) == Text(l.updatedAt)
  {
    hide LegacyJson, Member;
    LegacyMembers(l);
  }

  lemma LegacyHasNoBlocks(l: Legacy)
    ensures LegacyJson(l).Object?
    ensures Member(LegacyJson(l), OrderKey) == Null
    ensures Member(LegacyJson(l), GigKey) == Null
    ensures Member(LegacyJson(l), CustomerKey) == Null
    ensures Member(LegacyJson(l), FreelancerKey) == Null
  {
    hide LegacyJson, Member;
    LegacyMembers(l);
  }

  lemma PackageRoundTrip(p: Package)
    requires InRange(p.priceCents, INT64) && InRange(p.deliveryDays, INT32)
    ensures DecodePackage(PackageJson(p)) == Some(p)
  {
    hide PackageJson, Member;
    PackageKept(p);
  }

  lemma UserRoundTrip(u: Option<D.User>)
    ensures DecodeUser(UserJson(u)) == Some(u)
  {
    hide UserDocument, Member;
    if u.Some? {
      UserKept(u.value);
    }
  }

  lemma HeaderRoundTrip(h: Header)
    ensures DecodeHeader(HeaderJson(h)) == Some(h)
  {}

  lemma GigRoundTrip(g: Gig)
    requires InRange(g.package.priceCents, INT64) && InRange(g.package.deliveryDays, INT32)
    ensures DecodeGig(GigJson(g)) == Some(g)
  {
    hide GigJson, PackageJson, Member;
    GigKept(g);
    PackageRoundTrip(g.package);
  }

  lemma OrderRoundTrip(x: OrderCache)
    requires InRange(x.gig.package.priceCents, INT64) && InRange(x.gig.package.deliveryDays, INT32)
    ensures DecodeOrder(Encode(x)) == Some(x)
  {
    hide OrderJson, Member, HeaderJson, GigJson, UserJson, DecodeHeader, DecodeGig, DecodeUser;
    BlocksKept(x);
    ReferencesKept(x);
    HeaderRoundTrip(x.order);
    GigRoundTrip(x.gig);
    UserRoundTrip(x.customer);
    UserRoundTrip(x.freelancer);
  }

  lemma LegacyRoundTrip(l: Legacy)
    requires InRange(l.priceCents, INT64) && InRange(l.deliveryDays, INT32)
    ensures DecodeLegacy(EncodeLegacy(l)) == Some(l)
  {
    hide LegacyJson, Member;
    LegacyPartiesKept(l);
    LegacyGigKept(l);
    LegacyTermsKept(l);
  }

  /** A flat document read as a nested one is accepted, with a blank header. */
  lemma LegacyLooksBlank(l: Legacy)
    ensures var x := DecodeOrder(EncodeLegacy(l)); x.Some? && x.value.order.orderId == ""
  {
    hide LegacyJson;
    LegacyPartiesKept(l);
    LegacyGigKept(l);
    LegacyHasNoBlocks(l);
  }
}
