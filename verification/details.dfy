/** The rows an order has many of - questions, answers, attachments, delivered
    files - and its message: over every history each shows the last committed call
    that wrote it, under the time of the first. */
module Details {
  import opened Text
  import opened Tables
  import opened Outbox
  import opened Commands
  import opened History
  import opened Timeline
  import DeliveryFiles

  /** Where an order keeps a detail. */
  datatype Place =
    | InQuestions(questionId: string)
    | InAnswers(answered: string)
    | InMessages
    | InAttachments(attachmentId: string)
    | InFiles(fileId: string)

  function Stored(t: Tables, id: string, at: Place): Option<Row> {
    match at
    case InQuestions(x) => if (id, x) in t.questions then Some(Question(t.questions[(id, x)])) else None
    case InAnswers(x) => if (id, x) in t.answers then Some(Answer(t.answers[(id, x)])) else None
    case InMessages => if id in t.messages then Some(Message(t.messages[id])) else None
    case InAttachments(x) => if (id, x) in t.attachments then Some(Attachment(t.attachments[(id, x)])) else None
    case InFiles(x) => if (id, x) in t.files then Some(DeliveryFile(t.files[(id, x)])) else None
  }

  /** The commands that write there. */
  predicate WritesAt(c: Command, at: Place) {
    match at
    case InQuestions(x) => c.SaveQuestion? && c.q.questionId == x
    case InAnswers(x) => c.SaveAnswer? && c.questionId == x
    case InMessages => c.SaveMessage?
    case InAttachments(x) => c.AttachFile? && c.attachmentId == x
    case InFiles(x) => c.SaveDelivery? && x in c.attachmentIds && !Blank(x)
  }

  function KindAt(at: Place): Kind {
    (c: Command) => WritesAt(c, at)
  }

  /** The row holds what the command asked for, column by column, first stored at
      `created`; a file stands at the one-based place of its last mention. */
  ghost predicate Tells(r: Row, c: Call, created: Time) {
    match r
    case Question(q) =>
      && c.command.SaveQuestion? && q.orderId == c.command.orderId && q.questionId == c.command.q.questionId
      && q.text == c.command.q.text && q.kind == c.command.q.kind && q.required == c.command.q.required
      && q.optionsJson == c.command.q.optionsJson && q.sortOrder == c.command.q.sortOrder && q.createdAt == created
    case Answer(a) =>
      && c.command.SaveAnswer? && a.orderId == c.command.orderId && a.questionId == c.command.questionId
      && a.value == c.command.value && a.createdAt == created
    case Message(m) =>
      && c.command.SaveMessage? && m.orderId == c.command.orderId && m.message == c.command.message
      && m.createdAt == created && m.updatedAt == c.now
    case Attachment(x) =>
      && c.command.AttachFile? && x.orderId == c.command.orderId && x.attachmentId == c.command.attachmentId
      && x.fileId == c.command.fileId && x.sortOrder == c.command.sortOrder && x.createdAt == created
    case DeliveryFile(f) =>
      && c.command.SaveDelivery? && f.orderId == c.command.orderId && f.createdAt == created
      && exists j :: DeliveredAs(c.command.attachmentIds, f.fileId, j) && f.sortOrder == j + 1
    case _ => false
  }

  /** The last mention of a file. */
  ghost predicate DeliveredAs(ids: seq<string>, x: string, j: int) {
    0 <= j < |ids| && ids[j] == x && forall k :: j < k < |ids| ==> ids[k] != x
  }

  function CreatedAt(r: Row): Time
    requires r.Question? || r.Answer? || r.Message? || r.Attachment? || r.DeliveryFile?
  {
    match r
    case Question(q) => q.createdAt
    case Answer(a) => a.createdAt
    case Message(m) => m.createdAt
    case Attachment(x) => x.createdAt
    case DeliveryFile(f) => f.createdAt
  }

  // ---- one call ------------------------------------------------------------------

  /** A single statement writes its row at its own place. */
  lemma StatementTells(s: Store, c: Call, at: Place)
    requires WritesAt(c.command, at) && !at.InFiles? && Step(s, c).store != s
    ensures var before, after := Stored(s.tables, Target(c.command), at), Stored(Step(s, c).store.tables, Target(c.command), at);
            after.Some? && Tells(after.value, c, if before.Some? then CreatedAt(before.value) else c.now)
  {
    hide IsUuid;
    CallsAreAtomic(s, c);
  }

  /** A detail statement leaves every other place alone. */
  lemma StatementLeaves(s: Store, c: Call, id: string, at: Place)
    requires c.command.SaveQuestion? || c.command.SaveAnswer? || c.command.SaveMessage? || c.command.AttachFile?
    requires !(Target(c.command) == id && WritesAt(c.command, at))
    ensures Stored(Step(s, c).store.tables, id, at) == Stored(s.tables, id, at)
  {
    var q := Statement(s.tables, c.command, c.now);
    hide Step, Statement, IsUuid, Write, Keys;
    if Step(s, c).store != s {
      StatementPlans(s.tables, c.command, c.now);
      OneRowLeft(s, c);
      RowLeaves(s, q.row, c.command, id, at);
    }
  }

  /** Its row has its own key. */
  predicate Keys(c: Command, r: Row) {
    match r
    case Question(q) => c.SaveQuestion? && q.orderId == c.orderId && q.questionId == c.q.questionId
    case Answer(a) => c.SaveAnswer? && a.orderId == c.orderId && a.questionId == c.questionId
    case Message(m) => c.SaveMessage? && m.orderId == c.orderId
    case Attachment(x) => c.AttachFile? && x.orderId == c.orderId && x.attachmentId == c.attachmentId
    case _ => false
  }

  lemma StatementPlans(t: Tables, c: Command, now: Time)
    requires c.SaveQuestion? || c.SaveAnswer? || c.SaveMessage? || c.AttachFile?
    ensures Statement(t, c, now).Upsert? ==> Keys(c, Statement(t, c, now).row)
  {
    hide IsUuid;
  }

  lemma OneRowLeft(s: Store, c: Call)
    requires !IsTransaction(c.command) && Step(s, c).store != s
    ensures var q := Statement(s.tables, c.command, c.now); q.Upsert? && Step(s, c).store == Write(s, q.row)
  {
    hide Statement;
  }

  lemma RowLeaves(s: Store, r: Row, c: Command, id: string, at: Place)
    requires Keys(c, r) && !(Target(c) == id && WritesAt(c, at))
    ensures Stored(Write(s, r).tables, id, at) == Stored(s.tables, id, at)
  {}

  predicate IsDetail(c: Command) {
    c.SaveQuestion? || c.SaveAnswer? || c.SaveMessage? || c.AttachFile?
  }

  /** Only a delivery of the order writes a file's place, the other commands that
      are no detail statement none at all. */
  lemma WriteElsewhere(s: Store, r: Row, c: Command, id: string, at: Place)
    requires Writes(c, r) && !IsDetail(c) && !(c.SaveDelivery? && c.orderId == id && at.InFiles?)
    ensures Stored(Write(s, r).tables, id, at) == Stored(s.tables, id, at)
  {}

  lemma OthersLeave(s: Store, c: Call, id: string, at: Place)
    requires Keyed(s) && !IsDetail(c.command) && !(c.command.SaveDelivery? && c.command.orderId == id && at.InFiles?)
    ensures Stored(Step(s, c).store.tables, id, at) == Stored(s.tables, id, at)
  {
    hide Step, Write, Stored, IsDetail;
    var row := Stored(s.tables, id, at);
    var p := (y: Store) => Holds(y.tables, id, at, row);
    forall y, r | p(y) && Writes(c.command, r) ensures p(Write(y, r)) {
      WriteElsewhere(y, r, c.command, id, at);
    }
    StepKeeps(p, s, c);
  }

  ghost predicate Holds(t: Tables, id: string, at: Place, row: Option<Row>) {
    Stored(t, id, at) == row
  }

  // ---- delivered files -------------------------------------------------------------

  function FileAt(t: Tables, id: string, x: string): Option<FileRow> {
    Get(t.files, (id, x))
  }

  predicate MentionedFrom(ids: seq<string>, i: nat, x: string) {
    !Blank(x) && exists j :: i <= j < |ids| && ids[j] == x
  }

  lemma MentionedNext(ids: seq<string>, i: nat, x: string)
    requires i < |ids|
    ensures MentionedFrom(ids, i, x) <==> (!Blank(x) && ids[i] == x) || MentionedFrom(ids, i + 1, x)
  {}

  /** The row of a file mentioned is the file's, under its first time. */
  ghost predicate Refiled(before: Option<FileRow>, after: Option<FileRow>, id: string, x: string, now: Time) {
    && after.Some? && after.value.orderId == id && after.value.fileId == x
    && after.value.createdAt == if before.Some? then before.value.createdAt else now
  }

  lemma FileInserted(s: Store, c: Command, i: nat, now: Time, x: string)
    requires c.SaveDelivery? && i < |c.attachmentIds| && !Blank(c.attachmentIds[i])
    requires UpsertFile(s.tables, c.orderId, c.attachmentIds[i], i + 1, now).Upsert?
    ensures var before, after := FileAt(s.tables, c.orderId, x), FileAt(AfterFile(s, c, i, now).tables, c.orderId, x);
            if c.attachmentIds[i] == x then Refiled(before, after, c.orderId, x, now) else after == before
  {
    hide IsUuid;
  }

  lemma {:induction false} FilesInserted(s: Store, c: Command, i: nat, now: Time, x: string)
    requires c.SaveDelivery? && i <= |c.attachmentIds| && InsertFiles(s, c, i, now, CALM).Applied?
    ensures var before, after := FileAt(s.tables, c.orderId, x), FileAt(InsertFiles(s, c, i, now, CALM).store.tables, c.orderId, x);
            if MentionedFrom(c.attachmentIds, i, x) then Refiled(before, after, c.orderId, x, now) else after == before
    decreases |c.attachmentIds| - i
  {
    if i < |c.attachmentIds| {
      hide Blank, FileAt, UpsertFile, MentionedFrom, Write;
      MentionedNext(c.attachmentIds, i, x);
      if Blank(c.attachmentIds[i]) {
        FilesInserted(s, c, i + 1, now, x);
      } else {
        FileInserted(s, c, i, now, x);
        FilesInserted(AfterFile(s, c, i, now), c, i + 1, now, x);
      }
    }
  }

  /** A committed delivery writes the files it mentions and no other. */
  lemma DeliveryTells(s: Store, c: Call, x: string)
    requires c.command.SaveDelivery? && Step(s, c).store != s
    ensures var before, after := FileAt(s.tables, c.command.orderId, x), FileAt(Step(s, c).store.tables, c.command.orderId, x);
            if WritesAt(c.command, InFiles(x))
            then after.Some? && Tells(DeliveryFile(after.value), c, if before.Some? then before.value.createdAt else c.now)
            else after == before
  {
    hide Step, IsUuid, FileAt;
    var d := c.command;
    DeliveryFiled(s, c, x);
    DeliveryFiles.DeliveryPlacesFiles(s, c, x);
    DeliveryFiles.LastIndexIsLast(d.attachmentIds, x);
    assert FileAt(Step(s, c).store.tables, d.orderId, x).Some? ==>
             DeliveryFiles.PositionIn(Step(s, c).store.tables, d.orderId, x)
             == Some(FileAt(Step(s, c).store.tables, d.orderId, x).value.sortOrder) by {
      PositionIsStored(Step(s, c).store.tables, d.orderId, x);
    }
    if WritesAt(d, InFiles(x)) {
      var j := DeliveryFiles.LastIndex(d.attachmentIds, x);
      assert DeliveredAs(d.attachmentIds, x, j);
    }
  }

  lemma PositionIsStored(t: Tables, id: string, x: string)
    ensures DeliveryFiles.PositionIn(t, id, x) == if FileAt(t, id, x).Some? then Some(FileAt(t, id, x).value.sortOrder) else None
  {}

  lemma DeliveryFiled(s: Store, c: Call, x: string)
    requires c.command.SaveDelivery? && Step(s, c).store != s
    ensures var before, after := FileAt(s.tables, c.command.orderId, x), FileAt(Step(s, c).store.tables, c.command.orderId, x);
            if MentionedFrom(c.command.attachmentIds, 0, x) then Refiled(before, after, c.command.orderId, x, c.now) else after == before
  {
    CallsAreAtomic(s, c);
    var d := c.command;
    var b := BeforeFiles(s, d, c.now).store;
    assert b.tables.files == s.tables.files;
    FilesInserted(b, d, 0, c.now, x);
  }

  // ---- histories -------------------------------------------------------------------

  /** One call: the place it writes shows it, every other is as it was. */
  lemma StepTells(s: Store, c: Call, id: string, at: Place)
    requires Keyed(s)
    ensures var before, after := Stored(s.tables, id, at), Stored(Step(s, c).store.tables, id, at);
            if Target(c.command) == id && Step(s, c).store != s && WritesAt(c.command, at)
            then after.Some? && Tells(after.value, c, if before.Some? then CreatedAt(before.value) else c.now)
            else after == before
  {
    hide Step, Tells;
    if Step(s, c).store == s {
      return;
    }
    if IsDetail(c.command) {
      if Target(c.command) == id && WritesAt(c.command, at) {
        StatementTells(s, c, at);
      } else {
        StatementLeaves(s, c, id, at);
      }
    } else if c.command.SaveDelivery? && c.command.orderId == id && at.InFiles? {
      DeliveryTells(s, c, at.fileId);
    } else {
      OthersLeave(s, c, id, at);
    }
  }

  lemma TellsKeepsTime(r: Row, c: Call, created: Time)
    requires Tells(r, c, created)
    ensures CreatedAt(r) == created
  {}

  /** After any history a detail is stored iff a call wrote it and committed; it
      shows the last of them, under the time of the first. */
  lemma {:induction false} DetailsShowTheirWriters(h: seq<Call>, id: string, at: Place)
    ensures var row, last, first := Stored(Run(h).tables, id, at), Latest(h, id, KindAt(at)), Earliest(h, id, KindAt(at));
            && (row.Some? <==> last.Some?) && (last.Some? <==> first.Some?)
            && (row.Some? ==> Tells(row.value, last.value, first.value.now))
  {
    if h != [] {
      hide Stored, Step, Tells, CreatedAt;
      var g, c := h[..|h| - 1], h[|h| - 1];
      DetailsShowTheirWriters(g, id, at);
      RunIsKeyed(g);
      StepTells(Run(g), c, id, at);
      var row := Stored(Run(g).tables, id, at);
      if row.Some? {
        TellsKeepsTime(row.value, Latest(g, id, KindAt(at)).value, Earliest(g, id, KindAt(at)).value.now);
      }
    } else {
      NothingStored(id, at);
    }
  }

  lemma NothingStored(id: string, at: Place)
    ensures Stored(Run([]).tables, id, at) == None
  {}
}
