/** What a draft order shows: every detail belongs to a stored order, so the page
    of a new draft lists exactly the questions it was created with. */
module Drafts {
  import opened Text
  import opened Tables
  import opened Outbox
  import opened Commands
  import opened History
  import opened Lifecycle
  import opened Timeline
  import opened Details
  import opened Batches
  import N = Requirements
  import Success

  lemma {:induction false} LatestCommitted(h: seq<Call>, id: string, kind: Kind) returns (n: nat)
    requires Latest(h, id, kind).Some?
    ensures n < |h| && kind(h[n].command) && Target(h[n].command) == id
    ensures Step(Run(h[..n]), h[n]).store != Run(h[..n])
  {
    hide Step, Run;
    n := |h| - 1;
    if !(Committed(h, id) && kind(h[n].command)) {
      var g := h[..n];
      n := LatestCommitted(g, id, kind);
      assert g[..n] == h[..n];
    }
  }

  /** After any history the order of every stored detail is stored. */
  lemma DetailsHaveOrders(h: seq<Call>, id: string, at: Place)
    requires Stored(Run(h).tables, id, at).Some?
    ensures id in Run(h).tables.orders
  {
    hide Stored, Step, Run;
    DetailsShowTheirWriters(h, id, at);
    var n := LatestCommitted(h, id, KindAt(at));
    Success.CallsSucceedExactly(h[..n], h[n]);
    RunPersists(h, n, id);
    assert SliceOf(Run(h[..n]).tables, id).order.Some?;
  }

  /** The tables a draft leaves: the order created, its questions saved. */
  function DraftTables(h: seq<Call>, c: Call, questions: seq<QuestionParams>, tries: seq<Try>): Tables
    requires c.command.Create? && |tries| == |questions|
  {
    Asked(Run(h + [c]), c.command.p.orderId, questions, tries).store.tables
  }

  lemma CreationAddsNoDetail(h: seq<Call>, c: Call, at: Place)
    requires c.command.Create? && c.command.p.orderId !in Run(h).tables.orders
    ensures Stored(Run(h + [c]).tables, c.command.p.orderId, at) == None
  {
    hide Stored, Step;
    var id := c.command.p.orderId;
    if Stored(Run(h).tables, id, at).Some? {
      DetailsHaveOrders(h, id, at);
    }
    RunIsKeyed(h);
    OthersLeave(Run(h), c, id, at);
    assert (h + [c])[..|h|] == h;
  }

  /** The item shows the question, unanswered. */
  ghost predicate Asks(i: N.Item, q: QuestionParams) {
    && i.questionId == q.questionId && i.text == q.text && i.kind == q.kind && i.required == q.required
    && i.sortOrder == q.sortOrder && i.answer == None
  }

  /** A draft of a new order that saves its questions has a page of exactly those
      questions - of two under one id the later - unanswered, and no message. */
  lemma DraftPageListsItsQuestions(h: seq<Call>, c: Call, questions: seq<QuestionParams>, tries: seq<Try>, page: N.Page)
    requires c.command.Create? && c.command.p.orderId !in Run(h).tables.orders && |tries| == |questions|
    requires Asked(Run(h + [c]), c.command.p.orderId, questions, tries).reply == Success
    requires N.IsPage(DraftTables(h, c, questions, tries), c.command.p.orderId, page)
    ensures forall j: nat :: LastAmong(questions, |questions|, j) ==> exists i :: i in page.items && Asks(i, questions[j])
    ensures forall i :: i in page.items ==> exists j: nat :: LastAmong(questions, |questions|, j) && Asks(i, questions[j])
    ensures page.message == None
  {
    hide Run, Step, Asked, IsUuid;
    var id, s := c.command.p.orderId, Run(h + [c]);
    var t := DraftTables(h, c, questions, tries);
    var k := StopsSomewhere(s.tables, id, questions, tries);
    forall x ensures ShowsLast(RowAt(t, id, x), None, id, questions, tries, |questions|, x) && (id, x) !in t.answers {
      SavedQuestionsAreStored(s, id, questions, tries, k, x);
      CreationAddsNoDetail(h, c, InQuestions(x));
      CreationAddsNoDetail(h, c, InAnswers(x));
    }
    SavedQuestionsAreStored(s, id, questions, tries, k, "");
    CreationAddsNoDetail(h, c, InMessages);
    assert id !in t.messages;
    forall j: nat | LastAmong(questions, |questions|, j) ensures exists i :: i in page.items && Asks(i, questions[j]) {
      QuestionIsListed(t, id, questions, tries, page, j);
    }
    forall i | i in page.items ensures exists j: nat :: LastAmong(questions, |questions|, j) && Asks(i, questions[j]) {
      var q :| q in t.questions && q.0 == id && N.Lists(t, q, i);
      var j := LastStored(t, id, questions, tries, q.1);
      assert Asks(i, questions[j]);
    }
  }

  lemma QuestionIsListed(t: Tables, id: string, questions: seq<QuestionParams>, tries: seq<Try>, page: N.Page, j: nat)
    requires |tries| == |questions| && N.IsPage(t, id, page) && LastAmong(questions, |questions|, j)
    requires ShowsLast(RowAt(t, id, questions[j].questionId), None, id, questions, tries, |questions|, questions[j].questionId)
    requires (id, questions[j].questionId) !in t.answers
    ensures exists i :: i in page.items && Asks(i, questions[j])
  {
    var q := questions[j];
    var i := N.Item(q.questionId, q.text, q.kind, q.required, q.sortOrder, None);
    assert ShowsQuestion(RowAt(t, id, q.questionId).value, id, q);
    assert N.Lists(t, (id, q.questionId), i);
    assert Asks(i, q);
  }

  lemma {:induction false} LastIn(questions: seq<QuestionParams>, n: nat, x: string) returns (j: nat)
    requires n <= |questions| && Among(questions, n, x)
    ensures LastAmong(questions, n, j) && questions[j].questionId == x
  {
    j := n - 1;
    if questions[j].questionId != x {
      j := LastIn(questions, n - 1, x);
    }
  }

  lemma LastStored(t: Tables, id: string, questions: seq<QuestionParams>, tries: seq<Try>, x: string) returns (j: nat)
    requires |questions| == |tries| && (id, x) in t.questions
    requires ShowsLast(RowAt(t, id, x), None, id, questions, tries, |questions|, x)
    ensures LastAmong(questions, |questions|, j) && questions[j].questionId == x && ShowsQuestion(t.questions[(id, x)], id, questions[j])
  {
    j := LastIn(questions, |questions|, x);
  }
}
