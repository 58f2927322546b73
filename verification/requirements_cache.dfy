/** The cached requirements page: what is stored, what is read back, and what
    the page served from either shows. */
module RequirementsCaching {
  import opened Text
  import opened Json
  import D = Domain
  import R = Requirements

  datatype Question = Question(questionId: string, text: string, kind: string, required: bool, sortOrder: int)

  /** A question with its optional answer; a cached pair may lack the question. */
  datatype Pair = Pair(question: Option<Question>, answer: Option<string>)

  /** `domain.OrderRequirements` */
  datatype Requirements = Requirements(
    orderId: string, buyerId: string, sellerId: string, pairs: seq<Pair>, message: Option<R.CustomerMessage>)

  datatype CachedMessage = CachedMessage(message: string, createdAt: string, updatedAt: string)

  datatype RequirementsCache = RequirementsCache(pairs: seq<Pair>, message: Option<CachedMessage>)

  /** `OrderRequirementsResult` */
  datatype Served = Served(pairs: seq<Pair>, message: Option<CachedMessage>)

  function TrimQuestion(q: Question): Question {
    Question(TrimSpace(q.questionId), TrimSpace(q.text), TrimSpace(q.kind), q.required, q.sortOrder)
  }

  function TrimPair(p: Pair): Pair {
    Pair(if p.question.Some? then Some(TrimQuestion(p.question.value)) else None,
         if p.answer.Some? then Some(TrimSpace(p.answer.value)) else None)
  }

  function TrimPairs(pairs: seq<Pair>): seq<Pair> {
    seq(|pairs|, i requires 0 <= i < |pairs| => TrimPair(pairs[i]))
  }

  function CacheMessage(c: D.Codec, m: Option<R.CustomerMessage>): Option<CachedMessage> {
    if m.None? then None
    else Some(CachedMessage(TrimSpace(m.value.message), c.format(m.value.createdAt), c.format(m.value.updatedAt)))
  }

  function ReadMessage(c: D.Codec, m: Option<CachedMessage>): Option<R.CustomerMessage> {
    if m.None? then None
    else Some(R.CustomerMessage(TrimSpace(m.value.message), D.ParseOrZero(c, m.value.createdAt),
                                D.ParseOrZero(c, m.value.updatedAt)))
  }

  /** The same pair with its texts trimmed, each in its own field. */
  ghost predicate Trimmed(out: Pair, p: Pair) {
    && (out.question.Some? <==> p.question.Some?)
    && (p.question.Some? ==>
          var a, b := out.question.value, p.question.value;
          && a.questionId == TrimSpace(b.questionId) && a.text == TrimSpace(b.text) && a.kind == TrimSpace(b.kind)
          && a.required == b.required && a.sortOrder == b.sortOrder)
    && (out.answer.Some? <==> p.answer.Some?)
    && (p.answer.Some? ==> out.answer.value == TrimSpace(p.answer.value))
  }

  ghost predicate AllTrimmed(out: seq<Pair>, pairs: seq<Pair>) {
    |out| == |pairs| && forall i :: 0 <= i < |pairs| ==> Trimmed(out[i], pairs[i])
  }

  /** The message with its text trimmed and its two times as text. */
  ghost predicate Formatted(c: D.Codec, out: Option<CachedMessage>, m: Option<R.CustomerMessage>) {
    && (out.Some? <==> m.Some?)
    && (m.Some? ==>
          && out.value.message == TrimSpace(m.value.message)
          && out.value.createdAt == c.format(m.value.createdAt) && out.value.updatedAt == c.format(m.value.updatedAt))
  }

  /** Appends every pair, trimmed. */
  method AppendTrimmed(pairs: seq<Pair>) returns (out: seq<Pair>)
    ensures out == TrimPairs(pairs) && AllTrimmed(out, pairs)
  {
    out := [];
    for i := 0 to |pairs|
      invariant |out| == i && forall j :: 0 <= j < i ==> out[j] == TrimPair(pairs[j])
    {
      out := out + [TrimPair(pairs[i])];
    }
  }

  /** `mapRequirementsToCache` */
  method MapToCache(c: D.Codec, r: Requirements) returns (out: RequirementsCache)
    ensures out == Stored(c, r)
    ensures AllTrimmed(out.pairs, r.pairs) && Formatted(c, out.message, r.message)
  {
    var pairs := AppendTrimmed(r.pairs);
    out := RequirementsCache(pairs, None);
    if r.message.Some? {
      var m := r.message.value;
      out := out.(message := Some(CachedMessage(TrimSpace(m.message), c.format(m.createdAt), c.format(m.updatedAt))));
    }
  }

  /** `mapRequirementsCacheToDomain`: the parties are not cached. */
  method MapToDomain(c: D.Codec, orderId: string, x: RequirementsCache) returns (out: Requirements)
    ensures out == ReadBack(c, orderId, x)
    ensures AllTrimmed(out.pairs, x.pairs) && out.orderId == TrimSpace(orderId) && (out.message.Some? <==> x.message.Some?)
    ensures x.message.Some? ==>
              && out.message.value.message == TrimSpace(x.message.value.message)
              && out.message.value.createdAt == D.ParseOrZero(c, x.message.value.createdAt)
              && out.message.value.updatedAt == D.ParseOrZero(c, x.message.value.updatedAt)
  {
    var pairs := AppendTrimmed(x.pairs);
    out := Requirements(TrimSpace(orderId), "", "", pairs, None);
    if x.message.Some? {
      var m := x.message.value;
      out := out.(message := Some(R.CustomerMessage(TrimSpace(m.message), D.ParseOrZero(c, m.createdAt),
                                                    D.ParseOrZero(c, m.updatedAt))));
    }
  }

  /** `toOrderRequirementsResult` */
  method ToResult(c: D.Codec, r: Requirements) returns (out: Served)
    ensures out == Page(c, r)
    ensures AllTrimmed(out.pairs, r.pairs) && Formatted(c, out.message, r.message)
  {
    var pairs := AppendTrimmed(r.pairs);
    out := Served(pairs, None);
    if r.message.Some? {
      var m := r.message.value;
      out := out.(message := Some(CachedMessage(TrimSpace(m.message), c.format(m.createdAt), c.format(m.updatedAt))));
    }
  }

  function Stored(c: D.Codec, r: Requirements): RequirementsCache {
    RequirementsCache(TrimPairs(r.pairs), CacheMessage(c, r.message))
  }

  function ReadBack(c: D.Codec, orderId: string, x: RequirementsCache): Requirements {
    Requirements(TrimSpace(orderId), "", "", TrimPairs(x.pairs), ReadMessage(c, x.message))
  }

  function Page(c: D.Codec, r: Requirements): Served {
    Served(TrimPairs(r.pairs), CacheMessage(c, r.message))
  }

  // ---- JSON ------------------------------------------------------------------

  function QuestionMember(q: Question, k: Key): Json {
    match k
    case QuestionIdKey => Text(q.questionId)
    case TextKey => Text(q.text)
    case TypeKey => Text(q.kind)
    case RequiredKey => Flag(q.required)
    case SortOrderKey => Number(q.sortOrder)
    case _ => Null
  }

  function QuestionJson(q: Question): Json {
    Document(k => QuestionMember(q, k))
  }

  function AnswerMember(a: string, k: Key): Json {
    if k == ValueKey then Text(a) else Null
  }

  function AnswerJson(a: string): Json {
    Document(k => AnswerMember(a, k))
  }

  function PairMember(p: Pair, k: Key): Json {
    match k
    case QuestionKey => if p.question.Some? then QuestionJson(p.question.value) else Null
    case AnswerKey => if p.answer.Some? then AnswerJson(p.answer.value) else Null
    case _ => Null
  }

  function PairJson(p: Pair): Json {
    Document(k => PairMember(p, k))
  }

  function MessageMember(m: CachedMessage, k: Key): Json {
    match k
    case MessageKey => Text(m.message)
    case CreatedAtKey => Text(m.createdAt)
    case UpdatedAtKey => Text(m.updatedAt)
    case _ => Null
  }

  function MessageJson(m: CachedMessage): Json {
    Document(k => MessageMember(m, k))
  }

  function CacheMember(x: RequirementsCache, k: Key): Json {
    match k
    case QuestionsAnswersKey => List(seq(|x.pairs|, i requires 0 <= i < |x.pairs| => PairJson(x.pairs[i])))
    case CustomerMessageKey => if x.message.Some? then MessageJson(x.message.value) else Null
    case _ => Null
  }

  function CacheJson(x: RequirementsCache): Json {
    Document(k => CacheMember(x, k))
  }

  function Encode(x: RequirementsCache): Raw {
    Parsed(CacheJson(x))
  }

  function DecodeQuestion(j: Json): Option<Option<Question>> {
    if j.Null? then Some(None)
    else
      var required, order := AsFlag(Member(j, RequiredKey)), AsInt(Member(j, SortOrderKey), INT32);
      if !Texts(j, {QuestionIdKey, TextKey, TypeKey}) || required.None? || order.None? then None
      else Some(Some(Question(Txt(j, QuestionIdKey), Txt(j, TextKey), Txt(j, TypeKey), required.value, order.value)))
  }

  function DecodeAnswer(j: Json): Option<Option<string>> {
    if j.Null? then Some(None)
    else if !Texts(j, {ValueKey}) then None
    else Some(Some(Txt(j, ValueKey)))
  }

  function DecodePair(j: Json): Option<Pair> {
    var q, a := DecodeQuestion(Member(j, QuestionKey)), DecodeAnswer(Member(j, AnswerKey));
    if !IsDocument(j) || q.None? || a.None? then None else Some(Pair(q.value, a.value))
  }

  function DecodeMessage(j: Json): Option<Option<CachedMessage>> {
    if j.Null? then Some(None)
    else if !Texts(j, {MessageKey, CreatedAtKey, UpdatedAtKey}) then None
    else Some(Some(CachedMessage(Txt(j, MessageKey), Txt(j, CreatedAtKey), Txt(j, UpdatedAtKey))))
  }

  function Decode(raw: Raw): Option<RequirementsCache> {
    if raw.Malformed? || !IsDocument(raw.json) then None
    else
      var list, message := AsList(Member(raw.json, QuestionsAnswersKey)), DecodeMessage(Member(raw.json, CustomerMessageKey));
      if list.None? || message.None? then None
      else
        var pairs := DecodeAll(list.value, DecodePair);
        if pairs.None? then None else Some(RequirementsCache(pairs.value, message.value))
  }

  predicate Sized(pairs: seq<Pair>) {
    forall i :: 0 <= i < |pairs| && pairs[i].question.Some? ==> InRange(pairs[i].question.value.sortOrder, INT32)
  }

  lemma QuestionMembers(q: Question)
    ensures QuestionJson(q).Object? && forall k :: Member(QuestionJson(q), k) == QuestionMember(q, k)
  {}

  lemma MessageMembers(m: CachedMessage)
    ensures MessageJson(m).Object? && forall k :: Member(MessageJson(m), k) == MessageMember(m, k)
  {}

  lemma PairMembers(p: Pair)
    ensures PairJson(p).Object? && forall k :: Member(PairJson(p), k) == PairMember(p, k)
  {}

  lemma CacheMembers(x: RequirementsCache)
    ensures CacheJson(x).Object? && forall k :: Member(CacheJson(x), k) == CacheMember(x, k)
  {}

  lemma QuestionKept(q: Question)
    ensures QuestionJson(q).Object?
    ensures Member(QuestionJson(q), QuestionIdKey) == Text(q.questionId)
    ensures Member(QuestionJson(q), TextKey) == Text(q.text)
    ensures Member(QuestionJson(q), TypeKey) == Text(q.kind)
    ensures Member(QuestionJson(q), RequiredKey) == Flag(q.required)
    ensures Member(QuestionJson(q), SortOrderKey) == Number(q.sortOrder)
  {
    hide QuestionJson, Member;
    QuestionMembers(q);
  }

  lemma QuestionRoundTrip(q: Question)
    requires InRange(q.sortOrder, INT32)
    ensures DecodeQuestion(QuestionJson(q)) == Some(Some(q))
  {
    hide QuestionJson, Member;
    QuestionKept(q);
  }

  lemma AnswerRoundTrip(a: string)
    ensures DecodeAnswer(AnswerJson(a)) == Some(Some(a))
  {}

  lemma PairRoundTrip(p: Pair)
    requires p.question.Some? ==> InRange(p.question.value.sortOrder, INT32)
    ensures DecodePair(PairJson(p)) == Some(p)
  {
    hide PairJson, Member, QuestionJson, AnswerJson, DecodeQuestion, DecodeAnswer;
    PairMembers(p);
    if p.question.Some? {
      QuestionRoundTrip(p.question.value);
    }
    if p.answer.Some? {
      AnswerRoundTrip(p.answer.value);
    }
    NullPairs();
  }

  lemma NullPairs()
    ensures DecodeQuestion(Null) == Some(None) && DecodeAnswer(Null) == Some(None)
  {}

  lemma MessageRoundTrip(m: CachedMessage)
    ensures DecodeMessage(MessageJson(m)) == Some(Some(m))
  {
    hide MessageJson, Member;
    MessageMembers(m);
  }

  lemma CacheRoundTrip(x: RequirementsCache)
    requires Sized(x.pairs)
    ensures Decode(Encode(x)) == Some(x)
  {
    hide CacheJson, Member, PairJson, DecodePair, MessageJson, DecodeMessage;
    CacheMembers(x);
    forall i | 0 <= i < |x.pairs| ensures DecodePair(PairJson(x.pairs[i])) == Some(x.pairs[i]) {
      PairRoundTrip(x.pairs[i]);
    }
    if x.message.Some? {
      MessageRoundTrip(x.message.value);
    }
    NoMessage();
    var decoded := Decode(Encode(x));
    assert decoded.Some? && decoded.value.pairs == x.pairs;
  }

  lemma NoMessage()
    ensures DecodeMessage(Null) == Some(None)
  {}

  // ---- the page ----------------------------------------------------------------

  lemma TrimPairsIdempotent(pairs: seq<Pair>)
    ensures TrimPairs(TrimPairs(pairs)) == TrimPairs(pairs)
  {
    forall i | 0 <= i < |pairs| ensures TrimPair(TrimPair(pairs[i])) == TrimPair(pairs[i]) {
      TrimPairIdempotent(pairs[i]);
    }
  }

  lemma TrimPairIdempotent(p: Pair)
    ensures TrimPair(TrimPair(p)) == TrimPair(p)
  {
    hide Trim;
    if p.question.Some? {
      TrimIdempotent(IsSpace, p.question.value.questionId);
      TrimIdempotent(IsSpace, p.question.value.text);
      TrimIdempotent(IsSpace, p.question.value.kind);
    }
    if p.answer.Some? {
      TrimIdempotent(IsSpace, p.answer.value);
    }
  }

  /** The page served from the cache is the page served from the database, for
      every requirements document: text, order, answers and message. */
  lemma CachedPageIsCanonical(c: D.Codec, orderId: string, r: Requirements)
    requires D.Faithful(c) && Sized(r.pairs)
    ensures Decode(Encode(Stored(c, r))).Some?
    ensures Page(c, ReadBack(c, orderId, Decode(Encode(Stored(c, r))).value)) == Page(c, r)
  {
    CacheRoundTrip(Stored(c, r));
    TrimPairsIdempotent(r.pairs);
    if r.message.Some? {
      TrimIdempotent(IsSpace, r.message.value.message);
    }
  }

  // ---- from the tables to the page served ---------------------------------------------

  /** The pair shows the item: its question, and its answer iff it has one. */
  ghost predicate ShowsItem(a: Pair, i: R.Item) {
    && a.question.Some?
    && a.question.value.questionId == TrimSpace(i.questionId) && a.question.value.text == TrimSpace(i.text)
    && a.question.value.kind == TrimSpace(i.kind) && a.question.value.required == i.required
    && a.question.value.sortOrder == i.sortOrder
    && (a.answer.Some? <==> i.answer.Some?)
    && (i.answer.Some? ==> a.answer.value == TrimSpace(i.answer.value))
  }

  /** The pairs show the page's items, one by one, and the message its message. */
  ghost predicate ShowsPage(c: D.Codec, pairs: seq<Pair>, message: Option<CachedMessage>, p: R.Page) {
    && |pairs| == |p.items| && (forall i :: 0 <= i < |pairs| ==> ShowsItem(pairs[i], p.items[i]))
    && Formatted(c, message, p.message)
  }

  /** What is cached and what is served for a page read from the tables shows it. */
  lemma DatabasePageShows(c: D.Codec, p: R.Page)
    ensures ShowsPage(c, Stored(c, FromPage(p)).pairs, Stored(c, FromPage(p)).message, p)
    ensures ShowsPage(c, Page(c, FromPage(p)).pairs, Page(c, FromPage(p)).message, p)
  {
    hide Trim;
  }

  /** A cached document that shows a page is served as one that shows it. */
  lemma CachedPageShows(c: D.Codec, orderId: string, x: RequirementsCache, p: R.Page)
    requires D.Faithful(c) && Sized(x.pairs) && ShowsPage(c, x.pairs, x.message, p)
    ensures Decode(Encode(x)) == Some(x)
    ensures var served := Page(c, ReadBack(c, orderId, x)); ShowsPage(c, served.pairs, served.message, p)
  {
    CacheRoundTrip(x);
    hide Trim, Decode, Encode;
    var served := Page(c, ReadBack(c, orderId, x));
    forall i | 0 <= i < |x.pairs| ensures ShowsItem(served.pairs[i], p.items[i]) {
      assert ShowsItem(x.pairs[i], p.items[i]);
      var item := p.items[i];
      TrimIdempotent(IsSpace, item.questionId);
      TrimIdempotent(IsSpace, item.text);
      TrimIdempotent(IsSpace, item.kind);
      if item.answer.Some? {
        TrimIdempotent(IsSpace, item.answer.value);
      }
    }
    if p.message.Some? {
      TrimIdempotent(IsSpace, p.message.value.message);
      D.ParsesFormatted(c, p.message.value.createdAt);
      D.ParsesFormatted(c, p.message.value.updatedAt);
    }
  }

  /** What the repository hands to the cache for a page read from the tables. */
  function FromPage(p: R.Page): Requirements {
    Requirements(p.orderId, p.buyerId, p.sellerId,
                 seq(|p.items|, i requires 0 <= i < |p.items| => PairOf(p.items[i])), p.message)
  }

  function PairOf(i: R.Item): Pair {
    Pair(Some(Question(i.questionId, i.text, i.kind, i.required, i.sortOrder)), i.answer)
  }
}
