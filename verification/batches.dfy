/** Calls sent one after another until one fails, each its own commit: question
    snapshots and requirement answers. */
module Batches {
  import opened Text
  import opened Tables
  import opened Outbox
  import opened Commands
  import opened History
  import P = Postgres
  import S = Samples

  /** The conditions one call meets. */
  datatype Try = Try(now: Time, faults: Faults, trips: P.Reads)

  // ---- question snapshots ----------------------------------------------------

  /** The first failure ends the batch. */
  function Asked(s: Store, id: string, questions: seq<QuestionParams>, tries: seq<Try>): Outcome
    requires |tries| == |questions|
    decreases |questions|
  {
    if questions == [] then Outcome(s, Success)
    else
      var o := Step(s, Call(SaveQuestion(id, questions[0]), tries[0].now, tries[0].faults));
      if o.reply != Success then Outcome(o.store, Failure) else Asked(o.store, id, questions[1..], tries[1..])
  }

  method SaveQuestionSnapshots(repo: P.Repository, id: string, questions: seq<QuestionParams>, tries: seq<Try>)
    returns (reply: Reply)
    requires |tries| == |questions|
    modifies repo
    ensures Outcome(repo.store, reply) == Asked(old(repo.store), id, questions, tries)
  {
    for i := 0 to |questions|
      invariant Asked(repo.store, id, questions[i..], tries[i..]) == Asked(old(repo.store), id, questions, tries)
    {
      assert questions[i..][0] == questions[i] && questions[i..][1..] == questions[i + 1..];
      assert tries[i..][0] == tries[i] && tries[i..][1..] == tries[i + 1..];
      var c := SaveQuestion(id, questions[i]);
      reply := repo.Run1(Statement(repo.store.tables, c, tries[i].now), FaultAt(tries[i].faults, 0));
      if reply != Success {
        return Failure;
      }
    }
    return Success;
  }

  /** The upsert of a question is valid: its ids parse and its order is stored. */
  predicate Savable(t: Tables, id: string, q: QuestionParams) {
    IsUuid(id) && IsUuid(q.questionId) && id in t.orders
  }

  /** The first `k` saves are valid and meet no fault, the one after them is not
      or does. */
  predicate StopsAt(t: Tables, id: string, questions: seq<QuestionParams>, tries: seq<Try>, k: nat)
    requires |tries| == |questions|
  {
    && k <= |questions|
    && (forall j :: 0 <= j < k ==> Savable(t, id, questions[j]) && FaultAt(tries[j].faults, 0) == None)
    && (k < |questions| ==> !Savable(t, id, questions[k]) || FaultAt(tries[k].faults, 0) != None)
  }

  lemma {:induction false} StopsSomewhere(t: Tables, id: string, questions: seq<QuestionParams>, tries: seq<Try>) returns (k: nat)
    requires |tries| == |questions|
    ensures StopsAt(t, id, questions, tries, k)
  {
    k := 0;
    while k < |questions| && Savable(t, id, questions[k]) && FaultAt(tries[k].faults, 0) == None
      invariant k <= |questions|
      invariant forall j :: 0 <= j < k ==> Savable(t, id, questions[j]) && FaultAt(tries[j].faults, 0) == None
    {
      k := k + 1;
    }
  }

  function RowAt(t: Tables, id: string, questionId: string): Option<QuestionRow> {
    Get(t.questions, (id, questionId))
  }

  /** What saving a question makes of its row. */
  function RowAfter(before: Option<QuestionRow>, id: string, q: QuestionParams, now: Time): QuestionRow {
    QuestionRow(id, q.questionId, q.text, q.kind, q.required, q.optionsJson, q.sortOrder,
                if before.Some? then before.value.createdAt else now)
  }

  lemma QuestionCall(s: Store, id: string, q: QuestionParams, t: Try, order: string, questionId: string)
    ensures var o, fault := Step(s, Call(SaveQuestion(id, q), t.now, t.faults)), FaultAt(t.faults, 0);
            && (o.reply == Success <==> Savable(s.tables, id, q) && fault == None)
            && o.store.tables == s.tables.(questions := o.store.tables.questions)
            && RowAt(o.store.tables, order, questionId)
               == if Savable(s.tables, id, q) && fault != Some(Refused) && order == id && q.questionId == questionId
                  then Some(RowAfter(RowAt(s.tables, id, questionId), id, q, t.now)) else RowAt(s.tables, order, questionId)
  {
    hide IsUuid;
  }

  /** The row the first `n` saves leave. */
  function Rows(before: Option<QuestionRow>, id: string, questions: seq<QuestionParams>, tries: seq<Try>, n: nat,
                questionId: string): Option<QuestionRow>
    requires n <= |questions| == |tries|
  {
    if n == 0 then before
    else
      var row := Rows(before, id, questions, tries, n - 1, questionId);
      if questions[n - 1].questionId == questionId then Some(RowAfter(row, id, questions[n - 1], tries[n - 1].now)) else row
  }

  lemma {:induction false} RowsOfTail(before: Option<QuestionRow>, id: string, questions: seq<QuestionParams>, tries: seq<Try>,
                                      n: nat, questionId: string)
    requires 0 < n <= |questions| == |tries|
    ensures Rows(before, id, questions, tries, n, questionId)
            == Rows(Rows(before, id, questions, tries, 1, questionId), id, questions[1..], tries[1..], n - 1, questionId)
  {
    if n > 1 {
      RowsOfTail(before, id, questions, tries, n - 1, questionId);
    }
  }

  /** Some of the first `n` questions has the id. */
  ghost predicate Among(questions: seq<QuestionParams>, n: nat, questionId: string)
    requires n <= |questions|
  {
    exists j :: 0 <= j < n && questions[j].questionId == questionId
  }

  ghost predicate LastAmong(questions: seq<QuestionParams>, n: nat, j: nat)
    requires n <= |questions|
  {
    j < n && forall m :: j < m < n ==> questions[m].questionId != questions[j].questionId
  }

  ghost predicate FirstAmong(questions: seq<QuestionParams>, n: nat, j: nat)
    requires n <= |questions|
  {
    j < n && forall m :: 0 <= m < j ==> questions[m].questionId != questions[j].questionId
  }

  /** Columns of the last of the first `n` questions under the id, first time
      saved; the row before them if there is none. */
  ghost predicate ShowsLast(row: Option<QuestionRow>, before: Option<QuestionRow>, id: string, questions: seq<QuestionParams>,
                            tries: seq<Try>, n: nat, questionId: string)
    requires n <= |questions| == |tries|
  {
    && (if Among(questions, n, questionId) then row.Some? else row == before)
    && (forall j: nat :: LastAmong(questions, n, j) && questions[j].questionId == questionId ==>
          row.Some? && ShowsQuestion(row.value, id, questions[j]))
    && (before.Some? ==> row.Some? && row.value.createdAt == before.value.createdAt)
    && (before.None? ==>
          forall j: nat :: FirstAmong(questions, n, j) && questions[j].questionId == questionId ==>
            row.Some? && row.value.createdAt == tries[j].now)
  }

  ghost predicate ShowsQuestion(r: QuestionRow, id: string, q: QuestionParams) {
    && r.orderId == id && r.questionId == q.questionId && r.text == q.text && r.kind == q.kind
    && r.required == q.required && r.optionsJson == q.optionsJson && r.sortOrder == q.sortOrder
  }

  lemma {:induction false} RowsAmong(before: Option<QuestionRow>, id: string, questions: seq<QuestionParams>, tries: seq<Try>,
                                     n: nat, questionId: string)
    requires n <= |questions| == |tries|
    ensures var row := Rows(before, id, questions, tries, n, questionId);
            && (if Among(questions, n, questionId) then row.Some? else row == before)
            && (before.Some? ==> row.Some? && row.value.createdAt == before.value.createdAt)
  {
    if n > 0 {
      RowsAmong(before, id, questions, tries, n - 1, questionId);
      assert Among(questions, n, questionId) <==> Among(questions, n - 1, questionId) || questions[n - 1].questionId == questionId;
    }
  }

  lemma {:induction false} RowsShowColumns(before: Option<QuestionRow>, id: string, questions: seq<QuestionParams>, tries: seq<Try>,
                                           n: nat, questionId: string, j: nat)
    requires n <= |questions| == |tries| && LastAmong(questions, n, j) && questions[j].questionId == questionId
    ensures var row := Rows(before, id, questions, tries, n, questionId);
            row.Some? && ShowsQuestion(row.value, id, questions[j])
  {
    if j < n - 1 {
      RowsShowColumns(before, id, questions, tries, n - 1, questionId, j);
    }
  }

  lemma {:induction false} RowsShowTime(id: string, questions: seq<QuestionParams>, tries: seq<Try>, n: nat, questionId: string, j: nat)
    requires n <= |questions| == |tries| && FirstAmong(questions, n, j) && questions[j].questionId == questionId
    ensures var row := Rows(None, id, questions, tries, n, questionId); row.Some? && row.value.createdAt == tries[j].now
  {
    if j < n - 1 {
      RowsShowTime(id, questions, tries, n - 1, questionId, j);
    } else {
      RowsAmong(None, id, questions, tries, j, questionId);
    }
  }

  lemma RowsShowLast(before: Option<QuestionRow>, id: string, questions: seq<QuestionParams>, tries: seq<Try>,
                     n: nat, questionId: string)
    requires n <= |questions| == |tries|
    ensures ShowsLast(Rows(before, id, questions, tries, n, questionId), before, id, questions, tries, n, questionId)
  {
    hide Rows, Among, ShowsQuestion;
    RowsAmong(before, id, questions, tries, n, questionId);
    forall j: nat | LastAmong(questions, n, j) && questions[j].questionId == questionId
      ensures var row := Rows(before, id, questions, tries, n, questionId);
              row.Some? && ShowsQuestion(row.value, id, questions[j])
    {
      RowsShowColumns(before, id, questions, tries, n, questionId, j);
    }
    forall j: nat | before.None? && FirstAmong(questions, n, j) && questions[j].questionId == questionId
      ensures var row := Rows(before, id, questions, tries, n, questionId); row.Some? && row.value.createdAt == tries[j].now
    {
      RowsShowTime(id, questions, tries, n, questionId, j);
    }
  }

  lemma RowsOfOne(before: Option<QuestionRow>, id: string, questions: seq<QuestionParams>, tries: seq<Try>, questionId: string)
    requires 0 < |questions| == |tries|
    ensures Rows(before, id, questions, tries, 0, questionId) == before
    ensures Rows(before, id, questions, tries, 1, questionId)
            == if questions[0].questionId == questionId then Some(RowAfter(before, id, questions[0], tries[0].now)) else before
  {
    hide RowAfter;
    assert Rows(before, id, questions, tries, 0, questionId) == before;
  }

  lemma StopsInTail(t: Tables, t': Tables, id: string, questions: seq<QuestionParams>, tries: seq<Try>, k: nat)
    requires |tries| == |questions| && StopsAt(t, id, questions, tries, k) && 0 < k && t'.orders == t.orders
    ensures StopsAt(t', id, questions[1..], tries[1..], k - 1)
  {
    hide IsUuid;
  }

  lemma SavableAtStop(t: Tables, id: string, questions: seq<QuestionParams>, tries: seq<Try>, k: nat)
    requires 0 < |tries| == |questions| && StopsAt(t, id, questions, tries, k)
    ensures k > 0 <==> Savable(t, id, questions[0]) && FaultAt(tries[0].faults, 0) == None
    ensures FaultAt(tries[0].faults, 0) in {None, Some(Refused), Some(Lost)}
  {
    hide Savable;
    var fault := FaultAt(tries[0].faults, 0);
    assert fault.Some? ==> fault.value == Refused || fault.value == Lost;
  }

  lemma {:induction false} AskedRows(s: Store, id: string, questions: seq<QuestionParams>, tries: seq<Try>, k: nat, n: nat,
                                     order: string, questionId: string)
    requires |tries| == |questions| && StopsAt(s.tables, id, questions, tries, k)
    requires n == k + if k < |questions| && Savable(s.tables, id, questions[k]) && FaultAt(tries[k].faults, 0) == Some(Lost) then 1 else 0
    ensures var o := Asked(s, id, questions, tries);
            && (o.reply == Success <==> k == |questions|) && o.reply != NotFound
            && o.store.tables == s.tables.(questions := o.store.tables.questions)
            && RowAt(o.store.tables, order, questionId)
               == if order == id then Rows(RowAt(s.tables, id, questionId), id, questions, tries, n, questionId)
                  else RowAt(s.tables, order, questionId)
    decreases |questions|
  {
    if questions != [] {
      hide Step, RowAt, RowAfter, Rows, StopsAt, Savable;
      SavableAtStop(s.tables, id, questions, tries, k);
      RowsOfOne(RowAt(s.tables, id, questionId), id, questions, tries, questionId);
      var o := Step(s, Call(SaveQuestion(id, questions[0]), tries[0].now, tries[0].faults));
      QuestionCall(s, id, questions[0], tries[0], order, questionId);
      if k > 0 {
        StopsInTail(s.tables, o.store.tables, id, questions, tries, k);
        AskedRows(o.store, id, questions[1..], tries[1..], k - 1, n - 1, order, questionId);
        RowsOfTail(RowAt(s.tables, id, questionId), id, questions, tries, n, questionId);
      } else {
        assert Asked(s, id, questions, tries) == Outcome(o.store, Failure);
      }
    }
  }

  /** The loop answers success exactly when every save is valid and meets no
      fault. It leaves each question the last of its saved parameters under the
      order and its id, and nothing else changed: the saves before the failing one,
      and the failing one exactly when it is valid and only its reply was lost. */
  lemma SavedQuestionsAreStored(s: Store, id: string, questions: seq<QuestionParams>, tries: seq<Try>, k: nat, questionId: string)
    requires |tries| == |questions| && StopsAt(s.tables, id, questions, tries, k)
    ensures var o := Asked(s, id, questions, tries);
            var lost := k < |questions| && Savable(s.tables, id, questions[k]) && FaultAt(tries[k].faults, 0) == Some(Lost);
            && o.reply == (if k == |questions| then Success else Failure)
            && ShowsLast(RowAt(o.store.tables, id, questionId), RowAt(s.tables, id, questionId), id, questions, tries,
                         if lost then k + 1 else k, questionId)
    ensures var o := Asked(s, id, questions, tries);
            && o.store.tables == s.tables.(questions := o.store.tables.questions)
            && forall order, other :: order != id ==> RowAt(o.store.tables, order, other) == RowAt(s.tables, order, other)
  {
    hide Asked, RowAt, Rows;
    var n := k + if k < |questions| && Savable(s.tables, id, questions[k]) && FaultAt(tries[k].faults, 0) == Some(Lost) then 1 else 0;
    AskedRows(s, id, questions, tries, k, n, id, questionId);
    RowsShowLast(RowAt(s.tables, id, questionId), id, questions, tries, n, questionId);
    forall order, other | order != id
      ensures RowAt(Asked(s, id, questions, tries).store.tables, order, other) == RowAt(s.tables, order, other)
    {
      AskedRows(s, id, questions, tries, k, n, order, other);
    }
  }

  // ---- requirement answers -----------------------------------------------------

  datatype AnswerParams = AnswerParams(questionId: string, value: string)

  /** How the loop of the service's `SaveRequirementAnswers` ends: the store, the
      number of answers whose statement took effect, and whether all succeeded. */
  datatype Batch = Batch(store: Store, persisted: nat, ok: bool)

  /** Each answer is saved and the order read back; the first error ends the loop. */
  function Saved(s: Store, id: string, answers: seq<AnswerParams>, tries: seq<Try>): (b: Batch)
    requires |tries| == |answers|
    ensures b.persisted <= |answers| && (b.ok ==> b.persisted == |answers|)
    decreases |answers|
  {
    if answers == [] then Batch(s, 0, true)
    else
      var c := SaveAnswer(id, answers[0].questionId, answers[0].value);
      var o := Step(s, Call(c, tries[0].now, tries[0].faults));
      if P.Replied(o, id, tries[0].trips).Err? then Batch(o.store, if o.store != s then 1 else 0, false)
      else
        var rest := Saved(o.store, id, answers[1..], tries[1..]);
        rest.(persisted := rest.persisted + 1)
  }

  /** The last value the first `n` answers give the question. */
  function LastValue(answers: seq<AnswerParams>, n: nat, questionId: string): Option<string>
    requires n <= |answers|
  {
    if n == 0 then None
    else if answers[n - 1].questionId == questionId then Some(answers[n - 1].value)
    else LastValue(answers, n - 1, questionId)
  }

  function ValueAt(t: Tables, id: string, questionId: string): Option<string> {
    if (id, questionId) in t.answers then Some(t.answers[(id, questionId)].value) else None
  }

  /** What the first `n` answers make of a stored value. */
  function After(answers: seq<AnswerParams>, n: nat, questionId: string, before: Option<string>): Option<string>
    requires n <= |answers|
  {
    if LastValue(answers, n, questionId).Some? then LastValue(answers, n, questionId) else before
  }

  lemma AnswerCall(s: Store, id: string, a: AnswerParams, t: Try, order: string, questionId: string)
    ensures var s' := Step(s, Call(SaveAnswer(id, a.questionId, a.value), t.now, t.faults)).store;
            && s'.tables == s.tables.(answers := s'.tables.answers)
            && (s' != s || ValueAt(s'.tables, order, questionId) == ValueAt(s.tables, order, questionId))
            && ValueAt(s'.tables, order, questionId)
               == if s' != s && order == id && a.questionId == questionId then Some(a.value)
                  else ValueAt(s.tables, order, questionId)
  {}

  lemma AnswerSucceeds(s: Store, id: string, a: AnswerParams, t: Try)
    requires Step(s, Call(SaveAnswer(id, a.questionId, a.value), t.now, t.faults)).reply == Success
    ensures Step(s, Call(SaveAnswer(id, a.questionId, a.value), t.now, t.faults)).store != s
  {
    var s' := Step(s, Call(SaveAnswer(id, a.questionId, a.value), t.now, t.faults)).store;
    assert |s'.log| == |s.log| + 1;
  }

  /** The upsert of an answer is valid and reaches the database. */
  predicate TakesEffect(t: Tables, id: string, a: AnswerParams, fault: Option<Fault>) {
    && IsUuid(id) && IsUuid(a.questionId) && id in t.orders && (id, a.questionId) in t.questions
    && fault != Some(Refused)
  }

  lemma AnswerTakesEffect(s: Store, id: string, a: AnswerParams, t: Try)
    ensures var s' := Step(s, Call(SaveAnswer(id, a.questionId, a.value), t.now, t.faults)).store;
            s' != s <==> TakesEffect(s.tables, id, a, FaultAt(t.faults, 0))
  {
    hide IsUuid;
    var s' := Step(s, Call(SaveAnswer(id, a.questionId, a.value), t.now, t.faults)).store;
    if TakesEffect(s.tables, id, a, FaultAt(t.faults, 0)) {
      assert |s'.log| == |s.log| + 1;
    }
  }

  lemma {:induction false} LastValueOfTail(answers: seq<AnswerParams>, n: nat, questionId: string)
    requires 0 < n <= |answers|
    ensures LastValue(answers, n, questionId)
            == After(answers[1..], n - 1, questionId, if answers[0].questionId == questionId then Some(answers[0].value) else None)
  {
    if n > 1 {
      LastValueOfTail(answers, n - 1, questionId);
      assert answers[1..][n - 2] == answers[n - 1];
    }
  }

  lemma AfterOne(answers: seq<AnswerParams>, questionId: string, before: Option<string>)
    requires answers != []
    ensures After(answers, 0, questionId, before) == before
    ensures After(answers, 1, questionId, before)
            == if answers[0].questionId == questionId then Some(answers[0].value) else before
  {
    assert LastValue(answers, 0, questionId) == None;
  }

  lemma AfterTail(answers: seq<AnswerParams>, n: nat, questionId: string, before: Option<string>)
    requires 0 < n <= |answers|
    ensures After(answers, n, questionId, before)
            == After(answers[1..], n - 1, questionId, if answers[0].questionId == questionId then Some(answers[0].value) else before)
  {
    LastValueOfTail(answers, n, questionId);
  }

  /** The batch changes nothing but answers of its order: exactly those whose
      statement took effect, each question left with the last of their values. */
  lemma {:induction false} BatchPersistsPrefix(s: Store, id: string, answers: seq<AnswerParams>, tries: seq<Try>,
                                               order: string, questionId: string)
    requires |tries| == |answers|
    ensures var b := Saved(s, id, answers, tries);
            && b.store.tables == s.tables.(answers := b.store.tables.answers)
            && ValueAt(b.store.tables, order, questionId)
               == if order == id then After(answers, b.persisted, questionId, ValueAt(s.tables, order, questionId))
                  else ValueAt(s.tables, order, questionId)
    decreases |answers|
  {
    if answers != [] {
      hide Step, After, ValueAt;
      var o := Step(s, Call(SaveAnswer(id, answers[0].questionId, answers[0].value), tries[0].now, tries[0].faults));
      AnswerCall(s, id, answers[0], tries[0], order, questionId);
      if P.Replied(o, id, tries[0].trips).Ok? {
        AnswerSucceeds(s, id, answers[0], tries[0]);
        BatchPersistsPrefix(o.store, id, answers[1..], tries[1..], order, questionId);
        AfterTail(answers, Saved(s, id, answers, tries).persisted, questionId, ValueAt(s.tables, order, questionId));
      } else {
        AfterOne(answers, questionId, ValueAt(s.tables, order, questionId));
      }
    }
  }

  /** Where the loop stops: `k` is the answer that failed. */
  ghost predicate FailsAt(s: Store, id: string, answers: seq<AnswerParams>, tries: seq<Try>, k: nat)
    requires |tries| == |answers|
    decreases |answers|
  {
    answers != []
    && var o := Step(s, Call(SaveAnswer(id, answers[0].questionId, answers[0].value), tries[0].now, tries[0].faults));
       if P.Replied(o, id, tries[0].trips).Err? then k == 0
       else k > 0 && FailsAt(o.store, id, answers[1..], tries[1..], k - 1)
  }

  /** A failing batch persists every answer before the failing one, and the
      failing one exactly when its upsert is valid for the tables the batch found
      and its request was not refused: it failed by a lost reply or a read-back. */
  lemma {:induction false} FailingBatchPersistsPrefix(s: Store, id: string, answers: seq<AnswerParams>, tries: seq<Try>, k: nat)
    requires |tries| == |answers| && FailsAt(s, id, answers, tries, k)
    ensures k < |answers| && !Saved(s, id, answers, tries).ok
    ensures Saved(s, id, answers, tries).persisted
            == k + if TakesEffect(s.tables, id, answers[k], FaultAt(tries[k].faults, 0)) then 1 else 0
    decreases |answers|
  {
    hide Step, IsUuid;
    var o := Step(s, Call(SaveAnswer(id, answers[0].questionId, answers[0].value), tries[0].now, tries[0].faults));
    if P.Replied(o, id, tries[0].trips).Ok? {
      AnswerCall(s, id, answers[0], tries[0], id, answers[0].questionId);
      FailingBatchPersistsPrefix(o.store, id, answers[1..], tries[1..], k - 1);
    } else {
      AnswerTakesEffect(s, id, answers[0], tries[0]);
    }
  }

  /** A batch that does not succeed fails at one answer. */
  lemma {:induction false} FailingBatchFailsOnce(s: Store, id: string, answers: seq<AnswerParams>, tries: seq<Try>) returns (k: nat)
    requires |tries| == |answers| && !Saved(s, id, answers, tries).ok
    ensures FailsAt(s, id, answers, tries, k)
    decreases |answers|
  {
    hide Step, IsUuid;
    var o := Step(s, Call(SaveAnswer(id, answers[0].questionId, answers[0].value), tries[0].now, tries[0].faults));
    if P.Replied(o, id, tries[0].trips).Err? {
      k := 0;
    } else {
      var j := FailingBatchFailsOnce(o.store, id, answers[1..], tries[1..]);
      k := j + 1;
    }
  }

  /** A batch of one answer that is told to have failed, by a lost reply or by a
      read-back, on tables a history leaves: the answer is stored. */
  lemma FailedAnswerIsStored(lost: bool)
    ensures var s, answers := Run([S.CREATION, S.ASKING]), [AnswerParams(S.ID, "answer")];
            var tries := [Try(1, if lost then map[0 := Lost] else map[], P.Reads(!lost, false))];
            && FailsAt(s, S.ID, answers, tries, 0)
            && Saved(s, S.ID, answers, tries).persisted == 1
            && ValueAt(Saved(s, S.ID, answers, tries).store.tables, S.ID, S.ID) == Some("answer")
  {
    S.AskingSucceeds();
    S.IdIsUuid();
    hide IsUuid;
    var s, answers := Run([S.CREATION, S.ASKING]), [AnswerParams(S.ID, "answer")];
    var tries := [Try(1, if lost then map[0 := Lost] else map[], P.Reads(!lost, false))];
    AnswerTakesEffect(s, S.ID, answers[0], tries[0]);
    AnswerCall(s, S.ID, answers[0], tries[0], S.ID, S.ID);
    LostOrUnread(s, answers[0], tries[0], lost);
  }

  lemma LostOrUnread(s: Store, a: AnswerParams, t: Try, lost: bool)
    requires FaultAt(t.faults, 0) == (if lost then Some(Lost) else None) && t.trips.rowFails == !lost
    ensures P.Replied(Step(s, Call(SaveAnswer(S.ID, a.questionId, a.value), t.now, t.faults)), S.ID, t.trips).Err?
  {
    hide IsUuid;
  }
}
