/** JSON values and the rules by which Go decodes them into structs: a missing
    or null member is the zero value, a member of another type is an error. */
module Json {
  import opened Text

  /** The member names of all cached documents. */
  datatype Key =
    | OrderKey | GigKey | CustomerKey | FreelancerKey | PackageKey
    | OrderIdKey | SagaIdKey | CreatedAtKey | StatusKey | UpdatedAtKey | GigIdKey | TitleKey | PictureUrlKey
    | PackageIdKey | PriceCentsKey | CurrencyKey | DescriptionKey | DeliveryDaysKey
    | UserIdKey | UsernameKey | DisplayNameKey | AvatarUrlKey
    | BuyerIdKey | SellerIdKey | SellerUsernameKey | PictureFileIdKey | PaymentIntentIdKey
    | GigTitleKey | PackageTierKey | PackageDescriptionKey
    | OrderDeliveryKey | DeliveryFilesKey | DeliveryMessageKey | FileIdKey | FileUrlKey | SortOrderKey
    | QuestionsAnswersKey | CustomerMessageKey | QuestionKey | AnswerKey | QuestionIdKey | TextKey | TypeKey
    | RequiredKey | ValueKey | MessageKey

  datatype Json =
    | Null
    | Text(text: string)
    | Number(number: int)
    | Fraction
    | Flag(flag: bool)
    | List(items: seq<Json>)
    | Object(members: map<Key, Json>)

  /** A stored payload: bytes that are not JSON, or a JSON value. */
  datatype Raw = Malformed | Parsed(json: Json)

  const INT32 := 0x8000_0000
  const INT64 := 0x8000_0000_0000_0000

  predicate InRange(n: int, bound: int) {
    -bound <= n < bound
  }

  function AsText(j: Json): Option<string> {
    match j
    case Null => Some("")
    case Text(s) => Some(s)
    case _ => None
  }

  function AsInt(j: Json, bound: int): Option<int> {
    match j
    case Null => Some(0)
    case Number(n) => if InRange(n, bound) then Some(n) else None
    case _ => None
  }

  function AsFlag(j: Json): Option<bool> {
    match j
    case Null => Some(false)
    case Flag(b) => Some(b)
    case _ => None
  }

  function AsList(j: Json): Option<seq<Json>> {
    match j
    case Null => Some([])
    case List(items) => Some(items)
    case _ => None
  }

  /** A member with `omitempty`: an empty string is left out. */
  function OmitEmpty(s: string): Json {
    if s == "" then Null else Text(s)
  }

  /** The document with these members; null ones are left out, which reads back the same. */
  function Document(member: Key -> Json): Json {
    Object(map k: Key | !member(k).Null? :: member(k))
  }

  /** The member of a value that should be a document. */
  function Member(j: Json, k: Key): Json {
    if j.Object? && k in j.members then j.members[k] else Null
  }

  predicate IsDocument(j: Json) {
    j.Null? || j.Object?
  }

  predicate Texts(j: Json, keys: set<Key>) {
    IsDocument(j) && forall k :: k in keys ==> AsText(Member(j, k)).Some?
  }

  function Txt(j: Json, k: Key): string {
    var s := AsText(Member(j, k));
    if s.Some? then s.value else ""
  }

  /** Decode every item, or none. */
  function DecodeAll<T>(items: seq<Json>, decode: Json -> Option<T>): (r: Option<seq<T>>)
    ensures r.Some? ==> |r.value| == |items| && forall i :: 0 <= i < |items| ==> decode(items[i]) == Some(r.value[i])
    ensures (forall i :: 0 <= i < |items| ==> decode(items[i]).Some?) ==> r.Some?
  {
    if items == [] then Some([])
    else
      var first, rest := decode(items[0]), DecodeAll(items[1..], decode);
      if first.Some? && rest.Some? then Some([first.value] + rest.value) else None
  }
}
