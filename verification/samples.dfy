/** A short history to show runs with: one order created, one question saved. */
module Samples {
  import opened Text
  import opened Tables
  import opened Outbox
  import opened Commands
  import opened History
  import opened Lifecycle

  const ID := "00000000-0000-0000-0000-000000000000"

  const ORDER := CreateParams(ID, ID, ID, ID, "", ID, "", "", ID, "", "", 0, 0, "", "", 0)

  const QUESTION := QuestionParams(ID, "", "", true, "", 0)

  const CREATION := Call(Create(ORDER), 0, CALM)

  const ASKING := Call(SaveQuestion(ID, QUESTION), 0, CALM)

  lemma IdIsUuid()
    ensures IsUuid(ID)
  {}

  /** The creation succeeds on empty tables. */
  lemma CreationSucceeds()
    ensures Step(EMPTY_STORE, CREATION).reply == Success
    ensures Run([CREATION]) == Step(EMPTY_STORE, CREATION).store
    ensures var t := Run([CREATION]).tables;
            && ID in t.orders && t.orders[ID] == NewOrder(ORDER)
            && ID in t.snapshots && t.snapshots[ID] == SnapshotOf(ORDER, 0)
  {
    IdIsUuid();
    hide IsUuid;
    assert [CREATION][..0] == [];
  }

  lemma AskingSucceeds()
    ensures Step(Run([CREATION]), ASKING).reply == Success
    ensures Run([CREATION, ASKING]) == Step(Run([CREATION]), ASKING).store
    ensures var t := Run([CREATION, ASKING]).tables;
            ID in t.orders && ID in t.snapshots && (ID, ID) in t.questions
  {
    CreationSucceeds();
    IdIsUuid();
    hide IsUuid;
    assert [CREATION, ASKING][..1] == [CREATION];
  }

  const PAYMENT := Call(MarkPaid(ID, ID), 1, CALM)

  lemma PaymentSucceeds()
    ensures Step(Run([CREATION]), PAYMENT).reply == Success
    ensures Run([CREATION, PAYMENT]) == Step(Run([CREATION]), PAYMENT).store
    ensures var t := Run([CREATION, PAYMENT]).tables;
            && ID in t.orders && t.orders[ID] == Change(PAYMENT.command, NewOrder(ORDER), 1)
            && ID in t.snapshots && t.snapshots[ID] == SnapshotOf(ORDER, 0)
  {
    CreationSucceeds();
    IdIsUuid();
    hide IsUuid;
    assert [CREATION, PAYMENT][..1] == [CREATION];
  }
}
