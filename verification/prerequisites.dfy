/** How the payment prerequisites move over a history. */
module Prerequisites {
  import opened Text
  import opened Tables
  import opened Outbox
  import opened Commands
  import opened History
  import opened Requirements

  ghost predicate Answered(t: Tables, id: string) {
    RowsKeyed(t) && RequirementsCompleted(t, id)
  }

  lemma WriteKeepsAnswered(s: Store, r: Row, id: string)
    requires Answered(s.tables, id) && !(r.Question? && r.q.orderId == id)
    ensures Answered(Write(s, r).tables, id)
  {
    var t, t' := s.tables, Write(s, r).tables;
    forall q | q in QuestionsOf(t', id) ensures q in QuestionsOf(t, id) {
      var k :| k in t'.questions && t'.questions[k] == q;
      assert k in t.questions;
    }
    assert forall k :: k in t.answers ==> k in t'.answers;
  }

  /** The question a committed snapshot adds or replaces. */
  lemma QuestionWritten(s: Store, c: Call)
    requires c.command.SaveQuestion? && Step(s, c).store != s
    ensures var d, t, t' := c.command, s.tables, Step(s, c).store.tables;
            exists at :: t' == t.(questions := t.questions[(d.orderId, d.q.questionId) :=
              QuestionRow(d.orderId, d.q.questionId, d.q.text, d.q.kind, d.q.required, d.q.optionsJson, d.q.sortOrder, at)])
  {
    CallsAreAtomic(s, c);
    var row := UpsertQuestion(s.tables, c.command.orderId, c.command.q, c.now).row;
    assert row.q.createdAt == row.q.createdAt;
  }

  /** Completed requirements stay completed through every call, except one that
      saves a required question of that order which has no answer stored. */
  lemma RequirementsFallOnlyToQuestions(s: Store, c: Call, id: string)
    requires Keyed(s) && Answered(s.tables, id)
    ensures !RequirementsCompleted(Step(s, c).store.tables, id) <==>
              && Step(s, c).store != s && c.command.SaveQuestion? && c.command.orderId == id
              && c.command.q.required && (id, c.command.q.questionId) !in s.tables.answers
  {
    var d, t, t' := c.command, s.tables, Step(s, c).store.tables;
    if d.SaveQuestion? && d.orderId == id {
      if Step(s, c).store != s {
        QuestionWritten(s, c);
        var k := (id, d.q.questionId);
        forall q | q in QuestionsOf(t', id) ensures q == t'.questions[k] || q in QuestionsOf(t, id) {
          var j :| j in t'.questions && t'.questions[j] == q;
          assert j == k || j in t.questions;
        }
        assert t'.questions[k] in QuestionsOf(t', id);
      }
    } else {
      hide Step;
      var p := (x: Store) => Answered(x.tables, id);
      forall x, r | p(x) && Writes(d, r) ensures p(Write(x, r)) {
        WriteKeepsAnswered(x, r, id);
      }
      StepKeeps(p, s, c);
    }
  }

  /** A saved message is the one the page shows, unless blank, and the one that
      counts for payment, unless all spaces; it keeps its first creation time. */
  lemma SavedMessageIsShown(s: Store, c: Call)
    requires c.command.SaveMessage? && Step(s, c).store != s
    ensures var id, m, t, t' := c.command.orderId, c.command.message, s.tables, Step(s, c).store.tables;
            var created := if id in t.messages then t.messages[id].createdAt else c.now;
            && Shown(MessageOf(t', id)) == (if Blank(m) then None else Some(CustomerMessage(m, created, c.now)))
            && (MessageCompleted(t', id) <==> !SqlBlank(m))
            && t'.questions == t.questions && t'.answers == t.answers
  {
    CallsAreAtomic(s, c);
  }
}
