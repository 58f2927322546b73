/** Delivery attachments: what `SaveDelivery` stores and `GetDeliveryByID` reads back. */
module DeliveryFiles {
  import opened Text
  import opened Tables
  import opened Ordering
  import opened Outbox
  import opened Commands
  import opened History
  import opened Lifecycle

  /** Index of the last occurrence, or -1. */
  function LastIndex(ids: seq<string>, x: string): int {
    if ids == [] then -1
    else if ids[|ids| - 1] == x then |ids| - 1
    else LastIndex(ids[..|ids| - 1], x)
  }

  lemma {:induction false} LastIndexIsLast(ids: seq<string>, x: string)
    ensures -1 <= LastIndex(ids, x) < |ids|
    ensures LastIndex(ids, x) >= 0 ==> ids[LastIndex(ids, x)] == x
    ensures forall j :: LastIndex(ids, x) < j < |ids| ==> ids[j] != x
  {
    if ids != [] && ids[|ids| - 1] != x {
      LastIndexIsLast(ids[..|ids| - 1], x);
    }
  }

  /** Stored position of a file of the order. */
  function PositionIn(t: Tables, id: string, x: string): Option<int> {
    if (id, x) in t.files then Some(t.files[(id, x)].sortOrder) else None
  }

  /** Positions a delivery gives its attachments from index `i` on, over those
      stored before: blank ids give none, a repeated id the last one. */
  function Placed(ids: seq<string>, i: nat, x: string, before: Option<int>): Option<int> {
    if !Blank(x) && LastIndex(ids, x) >= i then Some(LastIndex(ids, x) + 1) else before
  }

  lemma {:induction false} FilesArePlaced(s: Store, c: Command, i: nat, now: Time, x: string)
    requires c.SaveDelivery? && i <= |c.attachmentIds| && InsertFiles(s, c, i, now, CALM).Applied?
    ensures PositionIn(InsertFiles(s, c, i, now, CALM).store.tables, c.orderId, x)
            == Placed(c.attachmentIds, i, x, PositionIn(s.tables, c.orderId, x))
    decreases |c.attachmentIds| - i
  {
    LastIndexIsLast(c.attachmentIds, x);
    if i < |c.attachmentIds| {
      if Blank(c.attachmentIds[i]) {
        FilesArePlaced(s, c, i + 1, now, x);
      } else {
        FilesArePlaced(AfterFile(s, c, i, now), c, i + 1, now, x);
      }
    }
  }

  /** A committed delivery places its attachments and moves no other file. */
  lemma DeliveryPlacesFiles(s: Store, c: Call, x: string)
    requires c.command.SaveDelivery? && Step(s, c).store != s
    ensures PositionIn(Step(s, c).store.tables, c.command.orderId, x)
            == Placed(c.command.attachmentIds, 0, x, PositionIn(s.tables, c.command.orderId, x))
  {
    CallsAreAtomic(s, c);
    var d := c.command;
    var b := BeforeFiles(s, d, c.now).store;
    assert b.tables.files == s.tables.files;
    FilesArePlaced(b, d, 0, c.now, x);
  }

  ghost predicate Stays(t: Tables, id: string, x: string, p: Option<int>) {
    PositionIn(t, id, x) == p
  }

  lemma WriteMovesNoFile(s: Store, r: Row, id: string, x: string)
    requires !(r.DeliveryFile? && r.f.orderId == id)
    ensures PositionIn(Write(s, r).tables, id, x) == PositionIn(s.tables, id, x)
  {}

  lemma OtherCallsMoveNoFile(s: Store, c: Call, id: string, x: string)
    requires Keyed(s) && !(c.command.SaveDelivery? && c.command.orderId == id)
    ensures PositionIn(Step(s, c).store.tables, id, x) == PositionIn(s.tables, id, x)
  {
    hide Step, Write, PositionIn;
    var at := PositionIn(s.tables, id, x);
    var p := (y: Store) => Stays(y.tables, id, x, at);
    forall y, r | p(y) && Writes(c.command, r) ensures p(Write(y, r)) {
      WriteMovesNoFile(y, r, id, x);
    }
    StepKeeps(p, s, c);
  }

  /** Where the history's most recent committed delivery naming `x` put it. */
  ghost function LastPlaced(h: seq<Call>, id: string, x: string): Option<int> {
    if h == [] then None
    else
      var g, c := h[..|h| - 1], h[|h| - 1];
      var before := LastPlaced(g, id, x);
      if c.command.SaveDelivery? && c.command.orderId == id && Step(Run(g), c).store != Run(g)
      then Placed(c.command.attachmentIds, 0, x, before) else before
  }

  /** After any history the order's files are the attachments of all its
      committed deliveries, each at the position its most recent one gave it. */
  lemma {:induction false} FilesOfAllDeliveries(h: seq<Call>, id: string, x: string)
    ensures PositionIn(Run(h).tables, id, x) == LastPlaced(h, id, x)
  {
    if h != [] {
      var g, c := h[..|h| - 1], h[|h| - 1];
      FilesOfAllDeliveries(g, id, x);
      RunIsKeyed(g);
      if c.command.SaveDelivery? && c.command.orderId == id {
        if Step(Run(g), c).store != Run(g) {
          DeliveryPlacesFiles(Run(g), c, x);
        }
      } else {
        OtherCallsMoveNoFile(Run(g), c, id, x);
      }
    }
  }

  // ---- reading back --------------------------------------------------------

  ghost function FilesOf(t: Tables, id: string): set<FileRow> {
    set k | k in t.files && t.files[k].orderId == id :: t.files[k]
  }

  function FileKey(f: FileRow): SortKey {
    SortKey(f.sortOrder, f.fileId)
  }

  /** The canonical delivery page. */
  datatype DeliveryView = DeliveryView(orderId: string, delivery: DeliveryRow, files: seq<FileRow>)

  datatype LoadError = Missing | Failing

  /** By position, files at one position by id. */
  ghost predicate InOrder(files: seq<FileRow>) {
    forall a, b :: 0 <= a < b < |files| ==>
      || files[a].sortOrder < files[b].sortOrder
      || (files[a].sortOrder == files[b].sortOrder && StrLess(files[a].fileId, files[b].fileId))
  }

  lemma FilesAreStored(t: Tables, id: string)
    requires RowsKeyed(t)
    ensures forall f :: f in FilesOf(t, id) <==> exists x :: (id, x) in t.files && f == t.files[(id, x)]
  {
    forall f | f in FilesOf(t, id) ensures exists x :: (id, x) in t.files && f == t.files[(id, x)] {
      assert (id, f.fileId) in t.files;
    }
  }

  lemma DistinctFileKeys(t: Tables, id: string)
    requires RowsKeyed(t)
    ensures DistinctKeys(FilesOf(t, id), FileKey)
  {}

  /** Reads the delivery row, then appends the file rows the second query
      returned. Found iff a delivery row exists; the files come strictly sorted
      by (sort_order, file_id) and are exactly the order's. */
  method GetDeliveryById(t: Tables, id: string, rows: seq<FileRow>, firstFails: bool, secondFails: bool)
    returns (r: Result<DeliveryView, LoadError>)
    requires RowsKeyed(t) && OrderedBy(rows, FilesOf(t, id), FileKey)
    ensures r.Ok? <==> !firstFails && id in t.deliveries && !secondFails
    ensures r == Err(Missing) <==> !firstFails && id !in t.deliveries
    ensures r.Ok? ==>
              && r.value.orderId == id && r.value.delivery == t.deliveries[id]
              && StrictlySorted(r.value.files, FileKey) && Exactly(r.value.files, FilesOf(t, id))
              && InOrder(r.value.files) && forall f :: f in r.value.files <==> exists x :: (id, x) in t.files && f == t.files[(id, x)]
  {
    if firstFails {
      return Err(Failing);
    }
    if id !in t.deliveries {
      return Err(Missing);
    }
    if secondFails {
      return Err(Failing);
    }
    var files: seq<FileRow> := [];
    for i := 0 to |rows|
      invariant files == rows[..i]
    {
      files := files + [rows[i]];
    }
    DistinctFileKeys(t, id);
    AnswerIsStrict(rows, FilesOf(t, id), FileKey);
    FilesAreStored(t, id);
    return Ok(DeliveryView(id, t.deliveries[id], files));
  }

  /** The non-blank ids in input order, keeping the last occurrence of each,
      with the one-based index each was given at; `n` ids came before. */
  function Survivors(ids: seq<string>, n: nat): seq<SortKey> {
    if ids == [] then []
    else
      var rest := Survivors(ids[1..], n + 1);
      if Blank(ids[0]) || ids[0] in ids[1..] then rest else [SortKey(n + 1, ids[0])] + rest
  }

  lemma {:induction false} SurvivorsAreSorted(ids: seq<string>, n: nat)
    ensures forall i :: 0 <= i < |Survivors(ids, n)| ==> n < Survivors(ids, n)[i].position
    ensures StrictlySorted(Survivors(ids, n), (k: SortKey) => k)
  {
    if ids != [] {
      SurvivorsAreSorted(ids[1..], n + 1);
    }
  }

  lemma {:induction false} SurvivorsAreLast(ids: seq<string>, n: nat, k: SortKey)
    ensures k in Survivors(ids, n) <==> !Blank(k.id) && k.id in ids && k.position == n + LastIndex(ids, k.id) + 1
  {
    if ids != [] {
      SurvivorsAreLast(ids[1..], n + 1, k);
      LastIndexIsLast(ids, k.id);
      LastIndexIsLast(ids[1..], k.id);
      LastOfTail(ids, k.id);
    }
  }

  lemma LastOfTail(ids: seq<string>, x: string)
    requires ids != []
    ensures LastIndex(ids, x) ==
            if x in ids[1..] then LastIndex(ids[1..], x) + 1 else if ids[0] == x then 0 else -1
  {
    LastIndexIsLast(ids, x);
    LastIndexIsLast(ids[1..], x);
    var a, b := LastIndex(ids, x), LastIndex(ids[1..], x);
    if x in ids[1..] {
      assert b >= 0 && ids[b + 1] == x;
      assert a >= 1 ==> ids[1..][a - 1] == x;
    } else {
      assert forall j :: 1 <= j < |ids| ==> ids[j] == ids[1..][j - 1];
    }
  }

  lemma StoredFile(t: Tables, id: string, x: string)
    requires RowsKeyed(t)
    ensures (id, x) in t.files ==> t.files[(id, x)] in FilesOf(t, id)
  {}

  /** First delivery of an order: reading it back gives the non-blank attachment
      ids in input order, the last occurrence of each, at its input position. */
  lemma AttachmentsRoundTrip(s: Store, c: Call, files: seq<FileRow>)
    requires c.command.SaveDelivery? && Step(s, c).store != s
    requires RowsKeyed(s.tables) && FilesOf(s.tables, c.command.orderId) == {}
    requires StrictlySorted(files, FileKey) && Exactly(files, FilesOf(Step(s, c).store.tables, c.command.orderId))
    ensures seq(|files|, i requires 0 <= i < |files| => FileKey(files[i])) == Survivors(c.command.attachmentIds, 0)
  {
    hide Step;
    StepKeepsRowKeys(s, c);
    var id, ids, t' := c.command.orderId, c.command.attachmentIds, Step(s, c).store.tables;
    var keys := seq(|files|, i requires 0 <= i < |files| => FileKey(files[i]));
    forall k ensures k in keys <==> k in Survivors(ids, 0) {
      SurvivorsAreLast(ids, 0, k);
      LastIndexIsLast(ids, k.id);
      DeliveryPlacesFiles(s, c, k.id);
      StoredFile(s.tables, id, k.id);
      if k in keys {
        var i :| 0 <= i < |keys| && keys[i] == k;
        assert files[i] in files;
      }
      if k in Survivors(ids, 0) {
        var f := t'.files[(id, k.id)];
        assert f in files;
        var i :| 0 <= i < |files| && files[i] == f;
        assert keys[i] == k;
      }
    }
    SurvivorsAreSorted(ids, 0);
    SortedListsAgree(keys, Survivors(ids, 0), (k: SortKey) => k);
  }
}
