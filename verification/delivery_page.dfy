/** The delivery page: from the database, through the cache, and by either of
    the two writers of the cache. */
module DeliveryPage {
  import opened Text
  import opened Json
  import D = Domain
  import T = Tables
  import F = DeliveryFiles

  /** `domain.OrderDelivery` without the order id it repeats. */
  datatype Delivery = Delivery(sellerId: string, message: string, createdAt: T.Time)

  datatype File = File(fileId: string, fileUrl: string, sortOrder: int, createdAt: T.Time)

  /** `domain.OrderDeliveryProjection` */
  datatype Stored = Stored(orderId: string, delivery: Option<Delivery>, files: seq<File>)

  datatype PageHead = PageHead(sellerId: string, message: string, createdAt: string)

  datatype PageFile = PageFile(fileId: string, fileUrl: string, sortOrder: int, createdAt: string)

  /** The service's projection, the page it answers with. */
  datatype Page = Page(head: PageHead, files: seq<PageFile>)

  /** `model.DeliveryCache` */
  datatype DeliveryCache = DeliveryCache(message: string, createdAt: string, files: seq<PageFile>)

  /** The file service: an URL, or an error. */
  type Resolver = string -> Option<string>

  // ---- one file at a time -------------------------------------------------------

  /** The URL the page shows: the stored one, else what the file service answers. */
  function UrlOf(resolve: Resolver, f: File): string {
    if TrimSpace(f.fileUrl) != "" then TrimSpace(f.fileUrl) else Resolved(resolve, f.fileId)
  }

  function Resolved(resolve: Resolver, fileId: string): string {
    if resolve(fileId).Some? then TrimSpace(resolve(fileId).value) else ""
  }

  function Shown(c: D.Codec, resolve: Resolver, f: File): PageFile {
    PageFile(TrimSpace(f.fileId), UrlOf(resolve, f), f.sortOrder, c.format(f.createdAt))
  }

  function ParsedOrZero(c: D.Codec, s: string): T.Time {
    if c.parse(s).Some? then c.parse(s).value else D.ZERO
  }

  function Kept(c: D.Codec, f: PageFile): File {
    File(TrimSpace(f.fileId), TrimSpace(f.fileUrl), f.sortOrder, ParsedOrZero(c, f.createdAt))
  }

  function Cached(c: D.Codec, f: File): PageFile {
    PageFile(TrimSpace(f.fileId), TrimSpace(f.fileUrl), f.sortOrder, c.format(f.createdAt))
  }

  function Uncached(c: D.Codec, f: PageFile): File {
    File(TrimSpace(f.fileId), TrimSpace(f.fileUrl), f.sortOrder, D.ParseOrZero(c, f.createdAt))
  }

  function MapSeq<A, B>(xs: seq<A>, f: A -> B): (ys: seq<B>)
    ensures |ys| == |xs| && forall i :: 0 <= i < |xs| ==> ys[i] == f(xs[i])
  {
    seq(|xs|, i requires 0 <= i < |xs| => f(xs[i]))
  }

  // ---- the mappers ----------------------------------------------------------------

  function PageOf(c: D.Codec, resolve: Resolver, d: Stored): Option<Page> {
    if d.delivery.None? then None
    else
      var x := d.delivery.value;
      Some(Page(PageHead(TrimSpace(x.sellerId), TrimSpace(x.message), c.format(x.createdAt)),
                MapSeq(d.files, f => Shown(c, resolve, f))))
  }

  /** `toOrderDeliveryProjection` */
  method ToPage(c: D.Codec, resolve: Resolver, d: Stored) returns (out: Option<Page>)
    ensures out == PageOf(c, resolve, d)
  {
    if d.delivery.None? {
      return None;
    }
    var x := d.delivery.value;
    var files: seq<PageFile> := [];
    for i := 0 to |d.files|
      invariant |files| == i && forall j :: 0 <= j < i ==> files[j] == Shown(c, resolve, d.files[j])
    {
      var fileUrl := TrimSpace(d.files[i].fileUrl);
      if fileUrl == "" {
        var url := resolve(d.files[i].fileId);
        if url.Some? {
          fileUrl := TrimSpace(url.value);
        }
      }
      files := files + [PageFile(TrimSpace(d.files[i].fileId), fileUrl, d.files[i].sortOrder, c.format(d.files[i].createdAt))];
    }
    assert files == MapSeq(d.files, f => Shown(c, resolve, f));
    return Some(Page(PageHead(TrimSpace(x.sellerId), TrimSpace(x.message), c.format(x.createdAt)), files));
  }

  function DomainOf(c: D.Codec, orderId: string, p: Page): Stored {
    Stored(orderId, Some(Delivery(TrimSpace(p.head.sellerId), TrimSpace(p.head.message), ParsedOrZero(c, p.head.createdAt))),
           MapSeq(p.files, f => Kept(c, f)))
  }

  /** `toDomainOrderDeliveryProjection`, before the synchronous cache write. */
  method ToDomain(c: D.Codec, orderId: string, p: Option<Page>) returns (out: Option<Stored>)
    ensures out == if p.None? then None else Some(DomainOf(c, orderId, p.value))
  {
    if p.None? {
      return None;
    }
    var head, pageFiles := p.value.head, p.value.files;
    var delivery := Delivery(TrimSpace(head.sellerId), TrimSpace(head.message), D.ZERO);
    var t := c.parse(head.createdAt);
    if t.Some? {
      delivery := delivery.(createdAt := t.value);
    }
    var files: seq<File> := [];
    for i := 0 to |pageFiles|
      invariant |files| == i && forall j :: 0 <= j < i ==> files[j] == Kept(c, pageFiles[j])
    {
      files := files + [Kept(c, pageFiles[i])];
    }
    assert files == MapSeq(pageFiles, f => Kept(c, f));
    return Some(Stored(orderId, Some(delivery), files));
  }

  function ProjectionOf(c: D.Codec, orderId: string, p: Page): Stored {
    DomainOf(c, orderId, p.(head := p.head.(sellerId := "")))
  }

  /** `deliveryProjection`, before the subscriber's cache write: no seller id. */
  method DeliveryProjection(c: D.Codec, orderId: string, p: Option<Page>) returns (out: Option<Stored>)
    ensures out == if p.None? then None else Some(ProjectionOf(c, orderId, p.value))
  {
    if p.None? {
      return None;
    }
    var pageFiles := p.value.files;
    var delivery := Delivery("", TrimSpace(p.value.head.message), D.ZERO);
    var t := c.parse(p.value.head.createdAt);
    if t.Some? {
      delivery := delivery.(createdAt := t.value);
    }
    var files: seq<File> := [];
    for i := 0 to |pageFiles|
      invariant |files| == i && forall j :: 0 <= j < i ==> files[j] == Kept(c, pageFiles[j])
    {
      files := files + [Kept(c, pageFiles[i])];
    }
    assert files == MapSeq(pageFiles, f => Kept(c, f));
    return Some(Stored(orderId, Some(delivery), files));
  }

  function CacheOf(c: D.Codec, d: Stored): DeliveryCache {
    DeliveryCache(if d.delivery.Some? then TrimSpace(d.delivery.value.message) else "",
                  if d.delivery.Some? then c.format(d.delivery.value.createdAt) else "",
                  MapSeq(d.files, f => Cached(c, f)))
  }

  /** `mapDeliveryToCache` */
  method MapToCache(c: D.Codec, d: Stored) returns (out: DeliveryCache)
    ensures out == CacheOf(c, d)
  {
    var message, createdAt := "", "";
    if d.delivery.Some? {
      message, createdAt := TrimSpace(d.delivery.value.message), c.format(d.delivery.value.createdAt);
    }
    var files: seq<PageFile> := [];
    for i := 0 to |d.files|
      invariant |files| == i && forall j :: 0 <= j < i ==> files[j] == Cached(c, d.files[j])
    {
      files := files + [Cached(c, d.files[i])];
    }
    assert files == MapSeq(d.files, f => Cached(c, f));
    return DeliveryCache(message, createdAt, files);
  }

  function FromCache(c: D.Codec, orderId: string, x: DeliveryCache): Stored {
    Stored(TrimSpace(orderId),
           if Blank(x.message) && Blank(x.createdAt) then None
           else Some(Delivery("", TrimSpace(x.message), D.ParseOrZero(c, x.createdAt))),
           MapSeq(x.files, f => Uncached(c, f)))
  }

  /** `mapDeliveryCacheToDomain` */
  method MapToDomain(c: D.Codec, orderId: string, x: DeliveryCache) returns (out: Stored)
    ensures out == FromCache(c, orderId, x)
  {
    out := Stored(TrimSpace(orderId), None, []);
    if !Blank(x.message) || !Blank(x.createdAt) {
      out := out.(delivery := Some(Delivery("", TrimSpace(x.message), D.ParseOrZero(c, x.createdAt))));
    }
    var files: seq<File> := [];
    for i := 0 to |x.files|
      invariant |files| == i && forall j :: 0 <= j < i ==> files[j] == Uncached(c, x.files[j])
    {
      files := files + [Uncached(c, x.files[i])];
    }
    assert files == MapSeq(x.files, f => Uncached(c, f));
    out := out.(files := files);
  }

  // ---- JSON ------------------------------------------------------------------------

  function FileMember(f: PageFile, k: Key): Json {
    match k
    case FileIdKey => Text(f.fileId)
    case FileUrlKey => Text(f.fileUrl)
    case SortOrderKey => Number(f.sortOrder)
    case CreatedAtKey => Text(f.createdAt)
    case _ => Null
  }

  function FileJson(f: PageFile): Json {
    Document(k => FileMember(f, k))
  }

  function HeadMember(x: DeliveryCache, k: Key): Json {
    match k
    case DeliveryMessageKey => Text(x.message)
    case CreatedAtKey => Text(x.createdAt)
    case _ => Null
  }

  function HeadJson(x: DeliveryCache): Json {
    Document(k => HeadMember(x, k))
  }

  function CacheMember(x: DeliveryCache, k: Key): Json {
    match k
    case OrderDeliveryKey => HeadJson(x)
    case DeliveryFilesKey => List(MapSeq(x.files, f => FileJson(f)))
    case _ => Null
  }

  function CacheJson(x: DeliveryCache): Json {
    Document(k => CacheMember(x, k))
  }

  function Encode(x: DeliveryCache): Raw {
    Parsed(CacheJson(x))
  }

  function DecodeFile(j: Json): Option<PageFile> {
    var order := AsInt(Member(j, SortOrderKey), INT32);
    if !Texts(j, {FileIdKey, FileUrlKey, CreatedAtKey}) || order.None? then None
    else Some(PageFile(Txt(j, FileIdKey), Txt(j, FileUrlKey), order.value, Txt(j, CreatedAtKey)))
  }

  function Decode(raw: Raw): Option<DeliveryCache> {
    if raw.Malformed? || !IsDocument(raw.json) then None
    else
      var head, list := Member(raw.json, OrderDeliveryKey), AsList(Member(raw.json, DeliveryFilesKey));
      if !Texts(head, {DeliveryMessageKey, CreatedAtKey}) || list.None? then None
      else
        var files := DecodeAll(list.value, DecodeFile);
        if files.None? then None else Some(DeliveryCache(Txt(head, DeliveryMessageKey), Txt(head, CreatedAtKey), files.value))
  }

  predicate Sized(files: seq<PageFile>) {
    forall i :: 0 <= i < |files| ==> InRange(files[i].sortOrder, INT32)
  }

  lemma FileMembers(f: PageFile)
    ensures FileJson(f).Object? && forall k :: Member(FileJson(f), k) == FileMember(f, k)
  {}

  lemma HeadMembers(x: DeliveryCache)
    ensures HeadJson(x).Object? && forall k :: Member(HeadJson(x), k) == HeadMember(x, k)
  {}

  lemma CacheMembers(x: DeliveryCache)
    ensures CacheJson(x).Object? && forall k :: Member(CacheJson(x), k) == CacheMember(x, k)
  {}

  lemma FileRoundTrip(f: PageFile)
    requires InRange(f.sortOrder, INT32)
    ensures DecodeFile(FileJson(f)) == Some(f)
  {
    hide FileJson, Member;
    FileMembers(f);
  }

  lemma HeadKept(x: DeliveryCache)
    ensures Texts(HeadJson(x), {DeliveryMessageKey, CreatedAtKey})
    ensures Txt(HeadJson(x), DeliveryMessageKey) == x.message && Txt(HeadJson(x), CreatedAtKey) == x.createdAt
  {
    hide HeadJson, Member;
    HeadMembers(x);
  }

  lemma FilesDecode(files: seq<PageFile>)
    requires Sized(files)
    ensures DecodeAll(MapSeq(files, f => FileJson(f)), DecodeFile) == Some(files)
  {
    hide FileJson, DecodeFile;
    var items := MapSeq(files, f => FileJson(f));
    forall i | 0 <= i < |files| ensures DecodeFile(items[i]) == Some(files[i]) {
      FileRoundTrip(files[i]);
    }
    assert DecodeAll(items, DecodeFile).value == files;
  }

  lemma CacheRoundTrip(x: DeliveryCache)
    requires Sized(x.files)
    ensures Decode(Encode(x)) == Some(x)
  {
    hide CacheJson, HeadJson, FileJson, DecodeFile, Member, Texts, Txt, MapSeq;
    CacheMembers(x);
    HeadKept(x);
    FilesDecode(x.files);
  }

  // ---- agreement ---------------------------------------------------------------------

  /** The synchronous refresh and the Kafka subscriber store the same value for
      every projection, whatever its times and texts. */
  lemma WritersAgree(c: D.Codec, orderId: string, p: Page)
    ensures CacheOf(c, DomainOf(c, orderId, p)) == CacheOf(c, ProjectionOf(c, orderId, p))
  {}

  /** What the cache holds after a refresh of the canonical delivery. */
  function Refreshed(c: D.Codec, resolve: Resolver, orderId: string, d: Stored): DeliveryCache
    requires d.delivery.Some?
  {
    CacheOf(c, DomainOf(c, orderId, PageOf(c, resolve, d).value))
  }

  lemma TrimTwice(s: string)
    ensures TrimSpace(TrimSpace(s)) == TrimSpace(s)
  {
    TrimIdempotent(IsSpace, s);
  }

  /** One file through the cache: its page entry, with the URL looked up again
      under the trimmed id when it was blank. */
  lemma FileThroughCache(c: D.Codec, resolve: Resolver, f: File)
    requires D.Faithful(c)
    ensures var shown := Shown(c, resolve, f);
            Shown(c, resolve, Uncached(c, Cached(c, Kept(c, shown))))
            == shown.(fileUrl := if shown.fileUrl != "" then shown.fileUrl else Resolved(resolve, TrimSpace(f.fileId)))
  {
    hide Trim;
    TrimTwice(f.fileId);
    TrimTwice(f.fileUrl);
    if resolve(f.fileId).Some? {
      TrimTwice(resolve(f.fileId).value);
    }
    BlankText("");
    D.ParsesFormatted(c, f.createdAt);
  }

  /** A file service that cannot resolve a file by its id does not by its trimmed id. */
  predicate UrlsSettled(resolve: Resolver, files: seq<File>) {
    forall i :: 0 <= i < |files| ==> UrlOf(resolve, files[i]) != "" || Resolved(resolve, TrimSpace(files[i].fileId)) == ""
  }

  /** The page served from the cache after a refresh is the page built from the
      database - message, creation time, files, order - without the seller id,
      exactly when no blank URL resolves under its trimmed file id. */
  lemma CachedPageIsCanonical(c: D.Codec, resolve: Resolver, orderId: string, d: Stored)
    requires D.Faithful(c) && d.delivery.Some?
    ensures var p := PageOf(c, resolve, d).value;
            PageOf(c, resolve, FromCache(c, orderId, Refreshed(c, resolve, orderId, d))) == Some(p.(head := p.head.(sellerId := "")))
            <==> UrlsSettled(resolve, d.files)
  {
    hide Trim;
    var p := PageOf(c, resolve, d).value;
    var x := FromCache(c, orderId, Refreshed(c, resolve, orderId, d));
    TrimTwice(d.delivery.value.message);
    BlankText(c.format(d.delivery.value.createdAt));
    BlankText("");
    D.ParsesFormatted(c, d.delivery.value.createdAt);
    var served := PageOf(c, resolve, x).value;
    assert served.head == p.head.(sellerId := "");
    forall i | 0 <= i < |d.files|
      ensures served.files[i] == p.files[i] <==> UrlOf(resolve, d.files[i]) != "" || Resolved(resolve, TrimSpace(d.files[i].fileId)) == ""
    {
      FileThroughCache(c, resolve, d.files[i]);
    }
    assert served.files == p.files <==> UrlsSettled(resolve, d.files);
  }

  /** Stored ids that carry no surrounding space always meet the condition. */
  lemma TrimmedIdsSettle(resolve: Resolver, files: seq<File>)
    requires forall i :: 0 <= i < |files| ==> TrimSpace(files[i].fileId) == files[i].fileId
    ensures UrlsSettled(resolve, files)
  {}

  /** The canonical delivery as the repository returns it: no URL is stored. */
  function Canonical(v: F.DeliveryView): Stored {
    Stored(v.orderId, Some(Delivery(v.delivery.sellerId, v.delivery.message, v.delivery.createdAt)),
           MapSeq(v.files, (f: T.FileRow) => File(f.fileId, "", f.sortOrder, f.createdAt)))
  }

  // ---- from the tables to the page served ---------------------------------------------

  /** The page's file shows the stored one, with the URL the file service answers. */
  ghost predicate ShowsFile(c: D.Codec, resolve: Resolver, f: PageFile, row: T.FileRow) {
    && f.fileId == TrimSpace(row.fileId) && f.sortOrder == row.sortOrder && f.createdAt == c.format(row.createdAt)
    && f.fileUrl == (match resolve(row.fileId) case Some(url) => TrimSpace(url) case None => "")
  }

  ghost predicate ShowsFiles(c: D.Codec, resolve: Resolver, files: seq<PageFile>, rows: seq<T.FileRow>) {
    |files| == |rows| && forall i :: 0 <= i < |rows| ==> ShowsFile(c, resolve, files[i], rows[i])
  }

  /** The page shows the stored delivery and its files, one by one. */
  ghost predicate ShowsView(c: D.Codec, resolve: Resolver, p: Page, v: F.DeliveryView) {
    && p.head.sellerId == TrimSpace(v.delivery.sellerId) && p.head.message == TrimSpace(v.delivery.message)
    && p.head.createdAt == c.format(v.delivery.createdAt)
    && ShowsFiles(c, resolve, p.files, v.files)
  }

  /** So does the cached document, but for the seller. */
  ghost predicate CachesView(c: D.Codec, resolve: Resolver, x: DeliveryCache, v: F.DeliveryView) {
    && x.message == TrimSpace(v.delivery.message) && x.createdAt == c.format(v.delivery.createdAt)
    && ShowsFiles(c, resolve, x.files, v.files)
  }

  /** A page from the cache has no seller, and a URL that was not found is looked
      up once more, under the trimmed id. */
  ghost predicate ShowsCachedView(c: D.Codec, resolve: Resolver, p: Page, v: F.DeliveryView) {
    && p.head == PageHead("", TrimSpace(v.delivery.message), c.format(v.delivery.createdAt))
    && |p.files| == |v.files|
    && forall i :: 0 <= i < |v.files| ==> ShowsCachedFile(c, resolve, p.files[i], v.files[i])
  }

  ghost predicate ShowsCachedFile(c: D.Codec, resolve: Resolver, f: PageFile, row: T.FileRow) {
    && f.fileId == TrimSpace(row.fileId) && f.sortOrder == row.sortOrder && f.createdAt == c.format(row.createdAt)
    && f.fileUrl == (match resolve(row.fileId)
                     case Some(url) => if Blank(url) then Again(resolve, row.fileId) else TrimSpace(url)
                     case None => Again(resolve, row.fileId))
  }

  function Again(resolve: Resolver, fileId: string): string {
    match resolve(TrimSpace(fileId)) case Some(url) => TrimSpace(url) case None => ""
  }

  lemma DatabasePageShows(c: D.Codec, resolve: Resolver, v: F.DeliveryView)
    ensures PageOf(c, resolve, Canonical(v)).Some?
    ensures ShowsView(c, resolve, PageOf(c, resolve, Canonical(v)).value, v)
  {
    BlankText("");
    hide Trim;
  }

  lemma RefreshCaches(c: D.Codec, resolve: Resolver, orderId: string, p: Page, v: F.DeliveryView)
    requires D.Faithful(c) && ShowsView(c, resolve, p, v)
    ensures CachesView(c, resolve, CacheOf(c, DomainOf(c, orderId, p)), v)
  {
    hide Trim;
    TrimTwice(v.delivery.message);
    var x := CacheOf(c, DomainOf(c, orderId, p));
    forall i | 0 <= i < |v.files| ensures ShowsFile(c, resolve, x.files[i], v.files[i]) {
      assert ShowsFile(c, resolve, p.files[i], v.files[i]);
      FileCachedAgain(c, resolve, p.files[i], v.files[i]);
    }
  }

  lemma FileCachedAgain(c: D.Codec, resolve: Resolver, f: PageFile, row: T.FileRow)
    requires D.Faithful(c) && ShowsFile(c, resolve, f, row)
    ensures ShowsFile(c, resolve, Cached(c, Kept(c, f)), row)
  {
    hide Trim;
    TrimTwice(row.fileId);
    BlankText("");
    if resolve(row.fileId).Some? {
      TrimTwice(resolve(row.fileId).value);
    }
  }

  /** A cached document that shows a delivery is served as a page that shows it. */
  lemma CachedViewShows(c: D.Codec, resolve: Resolver, orderId: string, x: DeliveryCache, v: F.DeliveryView)
    requires D.Faithful(c) && Sized(x.files) && CachesView(c, resolve, x, v)
    ensures Decode(Encode(x)) == Some(x) && !Blank(x.createdAt)
    ensures PageOf(c, resolve, FromCache(c, orderId, x)).Some?
    ensures ShowsCachedView(c, resolve, PageOf(c, resolve, FromCache(c, orderId, x)).value, v)
  {
    CacheRoundTrip(x);
    hide Trim, Decode, Encode;
    TrimTwice(v.delivery.message);
    BlankText(x.createdAt);
    BlankText("");
    D.ParsesFormatted(c, v.delivery.createdAt);
    var p := PageOf(c, resolve, FromCache(c, orderId, x)).value;
    forall i | 0 <= i < |v.files| ensures ShowsCachedFile(c, resolve, p.files[i], v.files[i]) {
      assert ShowsFile(c, resolve, x.files[i], v.files[i]);
      FileServedAgain(c, resolve, x.files[i], v.files[i]);
    }
  }

  lemma FileServedAgain(c: D.Codec, resolve: Resolver, f: PageFile, row: T.FileRow)
    requires D.Faithful(c) && ShowsFile(c, resolve, f, row)
    ensures ShowsCachedFile(c, resolve, Shown(c, resolve, Uncached(c, f)), row)
  {
    hide Trim;
    TrimTwice(row.fileId);
    BlankText("");
    if resolve(row.fileId).Some? {
      TrimTwice(resolve(row.fileId).value);
      BlankText(resolve(row.fileId).value);
    }
    D.ParsesFormatted(c, row.createdAt);
  }
}
