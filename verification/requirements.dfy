/** The requirements page and the payment prerequisites, as queries over the tables. */
module Requirements {
  import opened Text
  import opened Tables
  import opened Ordering

  /** One row of the three LEFT JOINs. */
  datatype JoinRow = JoinRow(
    orderId: string, buyerId: string, sellerId: string,
    question: Option<QuestionRow>, answer: Option<string>, message: Option<MessageRow>)

  /** The order's questions. */
  ghost function QuestionsOf(t: Tables, id: string): set<QuestionRow> {
    set k | k in t.questions && t.questions[k].orderId == id :: t.questions[k]
  }

  ghost function AnswerTo(t: Tables, q: QuestionRow): Option<string> {
    if (q.orderId, q.questionId) in t.answers then Some(t.answers[(q.orderId, q.questionId)].value) else None
  }

  ghost function MessageOf(t: Tables, id: string): Option<MessageRow> {
    if id in t.messages then Some(t.messages[id]) else None
  }

  ghost function Joined(t: Tables, o: OrderRow, q: Option<QuestionRow>): JoinRow {
    JoinRow(o.orderId, o.buyerId, o.sellerId, q, if q.Some? then AnswerTo(t, q.value) else None,
            MessageOf(t, o.orderId))
  }

  /** FROM orders LEFT JOIN questions LEFT JOIN answers LEFT JOIN messages: a row
      per question, or one row without a question. */
  ghost function JoinRows(t: Tables, id: string): set<JoinRow> {
    if id !in t.orders then {}
    else if QuestionsOf(t, id) == {} then {Joined(t, t.orders[id], None)}
    else set q | q in QuestionsOf(t, id) :: Joined(t, t.orders[id], Some(q))
  }

  /** ORDER BY q.sort_order, q.question_id; a row without a question is alone. */
  function RowKey(r: JoinRow): SortKey {
    if r.question.Some? then SortKey(r.question.value.sortOrder, r.question.value.questionId) else SortKey(0, "")
  }

  // ---- the page ----------------------------------------------------------

  datatype Item = Item(
    questionId: string, text: string, kind: string, required: bool, sortOrder: int, answer: Option<string>)

  datatype CustomerMessage = CustomerMessage(message: string, createdAt: Time, updatedAt: Time)

  datatype Page = Page(
    orderId: string, buyerId: string, sellerId: string, items: seq<Item>, message: Option<CustomerMessage>)

  function ItemOf(q: QuestionRow, answer: Option<string>): Item {
    Item(q.questionId, q.text, q.kind, q.required, q.sortOrder, answer)
  }

  function ItemKey(i: Item): SortKey {
    SortKey(i.sortOrder, i.questionId)
  }

  /** The message the page shows: one that is not blank to Go. */
  function Shown(m: Option<MessageRow>): Option<CustomerMessage> {
    if m.Some? && !Blank(m.value.message)
    then Some(CustomerMessage(m.value.message, m.value.createdAt, m.value.updatedAt)) else None
  }

  /** The item shows the question stored under the key, column by column, and the
      value of the answer stored under it, if one is. */
  ghost predicate Lists(t: Tables, k: (string, string), i: Item)
    requires k in t.questions
  {
    var q := t.questions[k];
    && i.questionId == q.questionId && i.text == q.text && i.kind == q.kind && i.required == q.required && i.sortOrder == q.sortOrder
    && (i.answer.Some? <==> k in t.answers)
    && (i.answer.Some? ==> i.answer.value == t.answers[k].value)
  }

  /** By position, questions at one position by id. */
  ghost predicate InOrder(items: seq<Item>) {
    forall a, b :: 0 <= a < b < |items| ==>
      || items[a].sortOrder < items[b].sortOrder
      || (items[a].sortOrder == items[b].sortOrder && StrLess(items[a].questionId, items[b].questionId))
  }

  /** The page of an order, told from the tables alone: its questions strictly
      sorted by (sort_order, question_id), each with its stored answer if any,
      and its message when not blank. */
  ghost predicate IsPage(t: Tables, id: string, p: Page) {
    && id in t.orders
    && p.orderId == id && p.buyerId == t.orders[id].buyerId && p.sellerId == t.orders[id].sellerId
    && InOrder(p.items)
    && (forall i :: i in p.items <==> exists k :: k in t.questions && k.0 == id && Lists(t, k, i))
    && (p.message.Some? <==> id in t.messages && !Blank(t.messages[id].message))
    && (p.message.Some? ==>
          var m := t.messages[id]; p.message.value == CustomerMessage(m.message, m.createdAt, m.updatedAt))
  }

  /** There is something to show: a question, or a message that is not blank. */
  ghost predicate HasPage(t: Tables, id: string) {
    id in t.orders && ((exists k :: k in t.questions && k.0 == id) || (id in t.messages && !Blank(t.messages[id].message)))
  }

  /** The items of the fold are those the tables list. */
  lemma ItemsAreListed(t: Tables, id: string, i: Item)
    requires RowsKeyed(t)
    ensures (exists q :: q in QuestionsOf(t, id) && i == ItemOf(q, AnswerTo(t, q)))
            <==> exists k :: k in t.questions && k.0 == id && Lists(t, k, i)
  {
    if q :| q in QuestionsOf(t, id) && i == ItemOf(q, AnswerTo(t, q)) {
      assert Lists(t, (q.orderId, q.questionId), i);
    }
    if k :| k in t.questions && k.0 == id && Lists(t, k, i) {
      assert t.questions[k] in QuestionsOf(t, id);
      assert i == ItemOf(t.questions[k], AnswerTo(t, t.questions[k]));
    }
  }

  lemma QuestionsShown(t: Tables, id: string)
    requires RowsKeyed(t)
    ensures QuestionsOf(t, id) != {} <==> exists k :: k in t.questions && k.0 == id
  {
    if q :| q in QuestionsOf(t, id) {
      assert (q.orderId, q.questionId) in t.questions;
    }
    if k :| k in t.questions && k.0 == id {
      assert t.questions[k] in QuestionsOf(t, id);
    }
  }

  datatype ReadError = NotFound | Unavailable

  function ItemsOf(rows: seq<JoinRow>): seq<Item> {
    if rows == [] then []
    else
      var last := rows[|rows| - 1];
      ItemsOf(rows[..|rows| - 1])
      + if last.question.Some? then [ItemOf(last.question.value, last.answer)] else []
  }

  /** The row carries the order's parties and message. */
  ghost predicate Belongs(t: Tables, id: string, r: JoinRow) {
    && id in t.orders && r.orderId == id
    && r.buyerId == t.orders[id].buyerId && r.sellerId == t.orders[id].sellerId
    && r.message == MessageOf(t, id)
  }

  /** The page carries the order's parties and message. */
  ghost predicate Heads(t: Tables, id: string, p: Page) {
    && id in t.orders && p.orderId == id
    && p.buyerId == t.orders[id].buyerId && p.sellerId == t.orders[id].sellerId
    && p.message == Shown(MessageOf(t, id))
  }

  lemma RowsBelong(t: Tables, id: string, rows: seq<JoinRow>)
    requires RowsKeyed(t) && OrderedBy(rows, JoinRows(t, id), RowKey)
    ensures forall k :: 0 <= k < |rows| ==> Belongs(t, id, rows[k])
  {
    MembersOfAnswer(rows, JoinRows(t, id), RowKey);
    forall k | 0 <= k < |rows| ensures Belongs(t, id, rows[k]) {
      assert rows[k] in rows;
    }
  }

  lemma SortedInOrder(items: seq<Item>)
    requires StrictlySorted(items, ItemKey)
    ensures InOrder(items)
  {}

  lemma ItemsShown(t: Tables, id: string, items: seq<Item>)
    requires RowsKeyed(t)
    requires forall i :: i in items <==> exists q :: q in QuestionsOf(t, id) && i == ItemOf(q, AnswerTo(t, q))
    ensures forall i :: i in items <==> exists k :: k in t.questions && k.0 == id && Lists(t, k, i)
    ensures items != [] <==> QuestionsOf(t, id) != {}
  {
    hide Lists;
    forall i ensures i in items <==> exists k :: k in t.questions && k.0 == id && Lists(t, k, i) {
      ItemsAreListed(t, id, i);
    }
    assert items != [] ==> items[0] in items;
    if q :| q in QuestionsOf(t, id) {
      assert ItemOf(q, AnswerTo(t, q)) in items;
    }
  }

  lemma FoldIsPage(t: Tables, id: string, rows: seq<JoinRow>, p: Page)
    requires RowsKeyed(t) && OrderedBy(rows, JoinRows(t, id), RowKey)
    requires Heads(t, id, p) && p.items == ItemsOf(rows)
    ensures IsPage(t, id, p)
    ensures p.items != [] <==> QuestionsOf(t, id) != {}
  {
    ItemsAreThePage(t, id, rows);
    SortedInOrder(p.items);
    ItemsShown(t, id, p.items);
    hide StrictlySorted, Lists, InOrder, QuestionsOf, OrderedBy, RowsKeyed;
  }

  /** The variables of the scan over the result rows. */
  datatype Scan = Scan(out: Page, hasQuestion: bool, seenMessage: bool)

  const START := Scan(Page("", "", "", [], None), false, false)

  function Next(a: Scan, r: JoinRow): Scan {
    var shown := Shown(r.message);
    var take := !a.seenMessage && shown.Some?;
    Scan(Page(r.orderId, r.buyerId, r.sellerId,
              a.out.items + if r.question.Some? then [ItemOf(r.question.value, r.answer)] else [],
              if take then shown else a.out.message),
         a.hasQuestion || r.question.Some?, a.seenMessage || take)
  }

  function Scanned(rows: seq<JoinRow>): Scan {
    if rows == [] then START else Next(Scanned(rows[..|rows| - 1]), rows[|rows| - 1])
  }

  /** Folds the rows the database returned for one order into its page. */
  method GetRequirementsById(ghost t: Tables, id: string, rows: seq<JoinRow>, failed: bool)
    returns (r: Result<Page, ReadError>)
    requires RowsKeyed(t) && (id in t.orders ==> !Blank(id))
    requires OrderedBy(rows, JoinRows(t, id), RowKey)
    ensures failed ==> r == Err(Unavailable)
    ensures !failed ==> (r.Ok? <==> HasPage(t, id)) && (r.Err? ==> r.error == NotFound)
    ensures r.Ok? ==> IsPage(t, id, r.value)
  {
    if failed {
      return Err(Unavailable);
    }
    var out := START.out;
    var hasQuestion, seenMessage := false, false;
    for i := 0 to |rows|
      invariant Scan(out, hasQuestion, seenMessage) == Scanned(rows[..i])
    {
      var row := rows[i];
      assert rows[..i + 1][..i] == rows[..i];
      out := out.(orderId := row.orderId, buyerId := row.buyerId, sellerId := row.sellerId);
      if row.question.Some? {
        hasQuestion := true;
        out := out.(items := out.items + [ItemOf(row.question.value, row.answer)]);
      }
      if !seenMessage && row.message.Some? && !Blank(row.message.value.message) {
        var m := row.message.value;
        out := out.(message := Some(CustomerMessage(m.message, m.createdAt, m.updatedAt)));
        seenMessage := true;
      }
    }
    assert rows[..|rows|] == rows;
    ScanIsPage(t, id, rows);
    QuestionsShown(t, id);
    if Blank(out.orderId) {
      return Err(NotFound);
    }
    if !hasQuestion && !seenMessage {
      return Err(NotFound);
    }
    return Ok(out);
  }

  lemma {:induction false} ScanCollects(t: Tables, id: string, rows: seq<JoinRow>)
    requires forall k :: 0 <= k < |rows| ==> Belongs(t, id, rows[k])
    ensures var a := Scanned(rows);
            && a.out.items == ItemsOf(rows) && (a.hasQuestion <==> a.out.items != [])
            && (rows != [] ==> Heads(t, id, a.out)) && a.seenMessage == a.out.message.Some?
  {
    if rows != [] {
      ScanCollects(t, id, rows[..|rows| - 1]);
    }
  }

  /** The scan ends with the page and its two flags, or with nothing. */
  lemma ScanIsPage(t: Tables, id: string, rows: seq<JoinRow>)
    requires RowsKeyed(t) && OrderedBy(rows, JoinRows(t, id), RowKey)
    ensures var a := Scanned(rows);
            if id in t.orders then
              && IsPage(t, id, a.out) && a.seenMessage == a.out.message.Some?
              && (a.hasQuestion <==> QuestionsOf(t, id) != {})
            else Blank(a.out.orderId)
  {
    OrdersHaveRows(t, id, rows);
    RowsBelong(t, id, rows);
    ScanCollects(t, id, rows);
    if id in t.orders {
      FoldIsPage(t, id, rows, Scanned(rows).out);
    }
  }

  lemma OrdersHaveRows(t: Tables, id: string, rows: seq<JoinRow>)
    requires OrderedBy(rows, JoinRows(t, id), RowKey)
    ensures rows != [] <==> id in t.orders
  {
    MembersOfAnswer(rows, JoinRows(t, id), RowKey);
    assert rows != [] ==> rows[0] in rows;
    if id in t.orders {
      var o := t.orders[id];
      if q :| q in QuestionsOf(t, id) {
        assert Joined(t, o, Some(q)) in rows;
      } else {
        assert Joined(t, o, None) in rows;
      }
    }
  }

  lemma {:induction false} ItemsFollowRows(rows: seq<JoinRow>)
    requires forall k :: 0 <= k < |rows| ==> rows[k].question.Some?
    ensures |ItemsOf(rows)| == |rows|
    ensures forall k :: 0 <= k < |rows| ==> ItemsOf(rows)[k] == ItemOf(rows[k].question.value, rows[k].answer)
  {
    if rows != [] {
      ItemsFollowRows(rows[..|rows| - 1]);
    }
  }

  lemma DistinctRowKeys(t: Tables, id: string)
    requires RowsKeyed(t)
    ensures DistinctKeys(JoinRows(t, id), RowKey)
  {}

  lemma NoQuestionsNoItems(t: Tables, id: string, rows: seq<JoinRow>)
    requires id in t.orders && QuestionsOf(t, id) == {} && OrderedBy(rows, JoinRows(t, id), RowKey)
    ensures ItemsOf(rows) == []
  {
    assert |multiset(rows)| == |multiset{Joined(t, t.orders[id], None)}|;
    assert rows[0] in multiset(rows);
    assert rows == [Joined(t, t.orders[id], None)];
    assert rows[..|rows| - 1] == [];
  }

  lemma QuestionsAreItems(t: Tables, id: string, rows: seq<JoinRow>)
    requires id in t.orders && QuestionsOf(t, id) != {} && Exactly(rows, JoinRows(t, id))
    ensures |ItemsOf(rows)| == |rows|
    ensures forall k :: 0 <= k < |rows| ==> ItemKey(ItemsOf(rows)[k]) == RowKey(rows[k])
    ensures forall i :: i in ItemsOf(rows) <==> exists q :: q in QuestionsOf(t, id) && i == ItemOf(q, AnswerTo(t, q))
  {
    var o := t.orders[id];
    forall k | 0 <= k < |rows|
      ensures rows[k].question.Some? && rows[k].question.value in QuestionsOf(t, id)
      ensures rows[k].answer == AnswerTo(t, rows[k].question.value)
    {
      assert rows[k] in rows;
    }
    ItemsFollowRows(rows);
    forall q | q in QuestionsOf(t, id) ensures ItemOf(q, AnswerTo(t, q)) in ItemsOf(rows) {
      assert Joined(t, o, Some(q)) in rows;
      var k :| 0 <= k < |rows| && rows[k] == Joined(t, o, Some(q));
      assert ItemsOf(rows)[k] == ItemOf(q, AnswerTo(t, q));
    }
  }

  lemma ItemsAreThePage(t: Tables, id: string, rows: seq<JoinRow>)
    requires RowsKeyed(t) && id in t.orders && OrderedBy(rows, JoinRows(t, id), RowKey)
    ensures StrictlySorted(ItemsOf(rows), ItemKey)
    ensures forall i :: i in ItemsOf(rows) <==> exists q :: q in QuestionsOf(t, id) && i == ItemOf(q, AnswerTo(t, q))
  {
    DistinctRowKeys(t, id);
    AnswerIsStrict(rows, JoinRows(t, id), RowKey);
    if QuestionsOf(t, id) == {} {
      NoQuestionsNoItems(t, id, rows);
    } else {
      QuestionsAreItems(t, id, rows);
    }
  }

  /** The tables determine the page. */
  lemma PageIsUnique(t: Tables, id: string, p: Page, q: Page)
    requires IsPage(t, id, p) && IsPage(t, id, q)
    ensures p == q
  {
    assert StrictlySorted(p.items, ItemKey) && StrictlySorted(q.items, ItemKey);
    SortedListsAgree(p.items, q.items, ItemKey);
  }

  // ---- payment prerequisites -----------------------------------------------

  /** NOT EXISTS a required question for which NOT EXISTS an answer. */
  ghost predicate RequirementsCompleted(t: Tables, id: string) {
    !exists q :: q in QuestionsOf(t, id) && q.required
                 && !exists k :: k in t.answers && k == (q.orderId, q.questionId)
  }

  /** EXISTS a message that SQL's trim does not empty. */
  predicate MessageCompleted(t: Tables, id: string) {
    id in t.messages && !SqlBlank(t.messages[id].message)
  }

  /** The snapshot used for payment agrees with the page: completed iff every
      required item shown has an answer. A message shown is a completed one, and
      a completed one is shown unless it is whitespace that is not all spaces. */
  lemma PrerequisitesMatchPage(t: Tables, id: string, p: Page)
    requires RowsKeyed(t) && IsPage(t, id, p)
    ensures RequirementsCompleted(t, id) <==> forall i :: i in p.items && i.required ==> i.answer.Some?
    ensures p.message.Some? ==> MessageCompleted(t, id)
    ensures MessageCompleted(t, id) && p.message.None? <==>
              id in t.messages
              && Blank(t.messages[id].message)
              && exists k :: 0 <= k < |t.messages[id].message| && t.messages[id].message[k] != ' '
  {
    forall i ensures i in p.items <==> exists q :: q in QuestionsOf(t, id) && i == ItemOf(q, AnswerTo(t, q)) {
      ItemsAreListed(t, id, i);
    }
    if RequirementsCompleted(t, id) {
      forall i | i in p.items && i.required ensures i.answer.Some? {
        var q :| q in QuestionsOf(t, id) && i == ItemOf(q, AnswerTo(t, q));
      }
    }
    if forall i :: i in p.items && i.required ==> i.answer.Some? {
      forall q | q in QuestionsOf(t, id) && q.required ensures (q.orderId, q.questionId) in t.answers {
        assert ItemOf(q, AnswerTo(t, q)) in p.items;
      }
    }
  }
}
