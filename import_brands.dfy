/** The `import_brands` command: brand records from a JSON list are
    validated, gathered into batches, and each batch is written in one
    transaction, creating brands whose id was not stored when the import
    began and updating the others. */
module ImportBrands {
  import opened Common
  import opened ImportCommon

  /** The columns the import sets on a brand. */
  datatype BrandValues = BrandValues(name: Value, image: Value)

  /** Stored brands by brand id. */
  type BrandRows = map<Value, BrandValues>

  datatype Counts = Counts(created: nat, updated: nat)

  /** What the command reports: the format error, the error message of an
      exception that stopped the import, or the summary line. */
  datatype Report = InvalidFormat | Failed | Complete(created: nat, updated: nat, skipped: nat)

  /** A record the command accepts: it has both an id and a name. */
  predicate IsValid(r: Record)
  {
    "id" in r && "name" in r
  }

  /** The records that are batched, in file order. */
  function ValidRecords(records: seq<Record>): (valid: seq<Record>)
    ensures |valid| <= |records|
  {
    if records == [] then []
    else
      var n := |records| - 1;
      ValidRecords(records[..n]) + (if IsValid(records[n]) then [records[n]] else [])
  }

  /** The id of a record. Only records that passed `IsValid` reach the
      batch code, so the default is never used; it keeps the batch
      functions total. */
  function IdOf(r: Record): Value
  {
    Get(r, "id", VNull)
  }

  /** Name, and the image URL defaulting to the empty string (the name's
      default is never used, as for `IdOf`). */
  function ValuesOf(r: Record): BrandValues
  {
    BrandValues(Get(r, "name", VNull), Get(r, "image_url", VStr("")))
  }

  function PairOf(r: Record): (Value, BrandValues)
  {
    (IdOf(r), ValuesOf(r))
  }

  /** The `(id, values)` pair of every record of a batch. */
  function Pairs(batch: seq<Record>): seq<(Value, BrandValues)>
  {
    if batch == [] then []
    else Pairs(batch[..|batch| - 1]) + [PairOf(batch[|batch| - 1])]
  }

  /** The brands to create: records whose id was not stored when the
      import began. */
  function ToCreate(batch: seq<Record>, existing: set<Value>): seq<(Value, BrandValues)>
  {
    if batch == [] then []
    else
      var r := batch[|batch| - 1];
      ToCreate(batch[..|batch| - 1], existing) + (if IdOf(r) in existing then [] else [PairOf(r)])
  }

  /** The brands to update: records whose id was stored when the import
      began. */
  function ToUpdate(batch: seq<Record>, existing: set<Value>): seq<(Value, BrandValues)>
  {
    if batch == [] then []
    else
      var r := batch[|batch| - 1];
      ToUpdate(batch[..|batch| - 1], existing) + (if IdOf(r) in existing then [PairOf(r)] else [])
  }

  datatype BatchOutcome = Committed(rows: BrandRows, created: nat, updated: nat) | Raised

  /** Some record of the batch has a list for its id: testing it against
      the set of stored ids raises. */
  predicate AnyListId(batch: seq<Record>)
  {
    exists j :: 0 <= j < |batch| && Unhashable(IdOf(batch[j]))
  }

  /** One batch in its transaction: the partition, the inserts, then the
      chunked updates; a list id or a refused insert raises and leaves the
      table as it was. */
  function BatchSpec(rows: BrandRows, existing: set<Value>, batch: seq<Record>): BatchOutcome
  {
    var toCreate := ToCreate(batch, existing);
    var toUpdate := ToUpdate(batch, existing);
    if AnyListId(batch) || InsertRefused(rows, toCreate) then Raised
    else
      var inserted := rows + LastWins(toCreate);
      Committed(ChunkedRows(inserted, toUpdate), |toCreate|, ChunkedCount(inserted, toUpdate))
  }

  /** The batches in order; an exception stops the import at the batch
      that raised it, earlier batches staying committed. */
  function RunBatches(rows: BrandRows, existing: set<Value>, counts: Counts, batches: seq<seq<Record>>)
    : (BrandRows, Option<Counts>)
    decreases |batches|
  {
    if batches == [] then (rows, Some(counts))
    else
      var outcome := BatchSpec(rows, existing, batches[0]);
      if outcome.Raised? then (rows, None)
      else RunBatches(outcome.rows, existing, Add(counts, outcome), batches[1..])
  }

  function Add(counts: Counts, outcome: BatchOutcome): Counts
    requires outcome.Committed?
  {
    Counts(counts.created + outcome.created, counts.updated + outcome.updated)
  }

  /** Batches hold `batch_size` records, or one each when that is below 1
      (a batch is sent as soon as its length reaches `batch_size`). */
  function BatchLength(batchSize: int): nat
  {
    if batchSize < 1 then 1 else batchSize
  }

  /** The whole command, given the stored brands and the decoded file. */
  function ImportSpec(rows: BrandRows, doc: JsonDoc, batchSize: int): (BrandRows, Report)
  {
    if doc.NotAList? then (rows, InvalidFormat)
    else
      var valid := ValidRecords(doc.records);
      var run := RunBatches(rows, rows.Keys, Counts(0, 0), Chunks(valid, BatchLength(batchSize)));
      Summary(run, |doc.records| - |valid|)
  }

  /** The final table, and the report: the summary line when every batch
      committed, the error otherwise. */
  function Summary(run: (BrandRows, Option<Counts>), skipped: nat): (BrandRows, Report)
  {
    (run.0, if run.1.Some? then Complete(run.1.value.created, run.1.value.updated, skipped) else Failed)
  }

  // ---------------------------------------------------------------------
  // Validation and batching

  /** A record is batched exactly when it has an id and a name. */
  lemma {:induction false} ValidRecordsMembers(records: seq<Record>)
    ensures forall r :: r in ValidRecords(records) <==> r in records && IsValid(r)
  {
    if records != [] {
      var n := |records| - 1;
      ValidRecordsMembers(records[..n]);
      assert records == records[..n] + [records[n]];
    }
  }

  lemma ValidRecordsSnoc(records: seq<Record>, i: nat)
    requires i < |records|
    ensures ValidRecords(records[..i + 1])
         == ValidRecords(records[..i]) + (if IsValid(records[i]) then [records[i]] else [])
  {
    assert records[..i + 1][..i] == records[..i];
  }

  lemma {:induction false} ValidRecordsAppend(a: seq<Record>, b: seq<Record>)
    ensures ValidRecords(a + b) == ValidRecords(a) + ValidRecords(b)
    decreases |b|
  {
    if b == [] {
      assert a + b == a;
    } else {
      var n := |b| - 1;
      assert (a + b)[..|a + b| - 1] == a + b[..n];
      ValidRecordsAppend(a, b[..n]);
    }
  }

  /** The valid records, in order, cut into batches that all hold
      `BatchLength(batchSize)` records except a shorter last one. */
  lemma BrandBatches(records: seq<Record>, batchSize: int)
    ensures Flatten(Chunks(ValidRecords(records), BatchLength(batchSize))) == ValidRecords(records)
    ensures forall i :: 0 <= i < |Chunks(ValidRecords(records), BatchLength(batchSize))| - 1 ==>
      |Chunks(ValidRecords(records), BatchLength(batchSize))[i]| == BatchLength(batchSize)
    ensures forall i :: 0 <= i < |Chunks(ValidRecords(records), BatchLength(batchSize))| ==>
      0 < |Chunks(ValidRecords(records), BatchLength(batchSize))[i]| <= BatchLength(batchSize)
  {
    ChunksCover(ValidRecords(records), BatchLength(batchSize));
    ChunksSizes(ValidRecords(records), BatchLength(batchSize));
  }

  // ---------------------------------------------------------------------
  // The partition of a batch

  /** Every record of a batch goes to exactly one list: to the updates
      when its id was stored when the import began, else to the inserts. */
  lemma {:induction false} PartitionFacts(batch: seq<Record>, existing: set<Value>)
    ensures |ToCreate(batch, existing)| + |ToUpdate(batch, existing)| == |batch|
    ensures forall i :: 0 <= i < |ToUpdate(batch, existing)| ==> ToUpdate(batch, existing)[i].0 in existing
    ensures forall i :: 0 <= i < |ToCreate(batch, existing)| ==> ToCreate(batch, existing)[i].0 !in existing
  {
    if batch != [] {
      PartitionFacts(batch[..|batch| - 1], existing);
    }
  }

  lemma {:induction false} PartitionLastWins(batch: seq<Record>, existing: set<Value>)
    ensures LastWins(Pairs(batch)) == LastWins(ToCreate(batch, existing)) + LastWins(ToUpdate(batch, existing))
  {
    if batch == [] {
      assert LastWins<Value, BrandValues>([]) + LastWins([]) == map[];
    } else {
      var n := |batch| - 1;
      var r := batch[n];
      var x := PairOf(r);
      PartitionLastWins(batch[..n], existing);
      var c := ToCreate(batch[..n], existing);
      var u := ToUpdate(batch[..n], existing);
      LastWinsSnoc(Pairs(batch[..n]), x);
      if IdOf(r) in existing {
        assert ToUpdate(batch, existing) == u + [x];
        assert ToCreate(batch, existing) == c;
        LastWinsSnoc(u, x);
        UnionUpdateRight(LastWins(c), LastWins(u), x.0, x.1);
      } else {
        PartitionFacts(batch[..n], existing);
        LastWinsKeys(u);
        assert x.0 !in LastWins(u);
        assert ToCreate(batch, existing) == c + [x];
        assert ToUpdate(batch, existing) == u;
        LastWinsSnoc(c, x);
        UnionUpdateLeft(LastWins(c), LastWins(u), x.0, x.1);
      }
    }
  }

  /** A committed batch leaves every brand it names with the values of its
      last record for that id, and every other brand as it was. */
  lemma BatchCommitted(rows: BrandRows, existing: set<Value>, batch: seq<Record>)
    requires existing <= rows.Keys
    requires BatchSpec(rows, existing, batch).Committed?
    ensures BatchSpec(rows, existing, batch).rows == rows + LastWins(Pairs(batch))
  {
    var c := ToCreate(batch, existing);
    var u := ToUpdate(batch, existing);
    var inserted := rows + LastWins(c);
    assert Ids(u) <= inserted.Keys by {
      PartitionFacts(batch, existing);
    }
    ChunkedUpdateStored(inserted, u);
    PartitionLastWins(batch, existing);
    UnionAssoc(rows, LastWins(c), LastWins(u));
  }

  /** The counters of a committed batch: one insert per new brand, and at
      most one update per record sent to the updates. */
  lemma BatchCounts(rows: BrandRows, existing: set<Value>, batch: seq<Record>)
    requires BatchSpec(rows, existing, batch).Committed?
    ensures BatchSpec(rows, existing, batch).created == |ToCreate(batch, existing)|
    ensures BatchSpec(rows, existing, batch).updated <= |ToUpdate(batch, existing)|
  {
    ChunkedUpdateCountBound(rows + LastWins(ToCreate(batch, existing)), ToUpdate(batch, existing));
  }

  /** The stored ids are read once, before the first batch: a brand that an
      earlier batch created is sent to the inserts again, and the batch that
      repeats its id raises. */
  lemma RepeatedNewIdRaises(rows: BrandRows, existing: set<Value>, batch: seq<Record>, j: nat)
    requires j < |batch|
    requires IdOf(batch[j]) !in existing && IdOf(batch[j]) in rows
    ensures BatchSpec(rows, existing, batch) == Raised
  {
    CreateHasNew(batch, existing, j);
  }

  lemma {:induction false} CreateHasNew(batch: seq<Record>, existing: set<Value>, j: nat)
    requires j < |batch| && IdOf(batch[j]) !in existing
    ensures exists i :: 0 <= i < |ToCreate(batch, existing)| && ToCreate(batch, existing)[i].0 == IdOf(batch[j])
  {
    var n := |batch| - 1;
    if j < n {
      assert batch[..n][j] == batch[j];
      CreateHasNew(batch[..n], existing, j);
      var i :| 0 <= i < |ToCreate(batch[..n], existing)| && ToCreate(batch[..n], existing)[i].0 == IdOf(batch[j]);
      assert ToCreate(batch, existing)[i] == ToCreate(batch[..n], existing)[i];
    } else {
      var c := ToCreate(batch[..n], existing);
      assert ToCreate(batch, existing)[|c|] == PairOf(batch[n]);
    }
  }

  // ---------------------------------------------------------------------
  // The whole import

  lemma RunBatchesStep(rows: BrandRows, existing: set<Value>, counts: Counts, batches: seq<seq<Record>>)
    requires batches != []
    ensures BatchSpec(rows, existing, batches[0]).Raised? ==> RunBatches(rows, existing, counts, batches) == (rows, None)
    ensures BatchSpec(rows, existing, batches[0]).Committed? ==>
      RunBatches(rows, existing, counts, batches)
      == RunBatches(BatchSpec(rows, existing, batches[0]).rows, existing,
                    Add(counts, BatchSpec(rows, existing, batches[0])), batches[1..])
  {
  }

  lemma {:induction false} RunBatchesAppend(rows: BrandRows, existing: set<Value>, counts: Counts,
                                            a: seq<seq<Record>>, b: seq<seq<Record>>)
    ensures RunBatches(rows, existing, counts, a + b)
         == if RunBatches(rows, existing, counts, a).1.None? then RunBatches(rows, existing, counts, a)
            else RunBatches(RunBatches(rows, existing, counts, a).0, existing,
                            RunBatches(rows, existing, counts, a).1.value, b)
    decreases |a|
  {
    if a == [] {
      assert a + b == b;
    } else {
      assert (a + b)[0] == a[0] && (a + b)[1..] == a[1..] + b;
      RunBatchesStep(rows, existing, counts, a);
      RunBatchesStep(rows, existing, counts, a + b);
      var outcome := BatchSpec(rows, existing, a[0]);
      if outcome.Committed? {
        RunBatchesAppend(outcome.rows, existing, Add(counts, outcome), a[1..], b);
      }
    }
  }

  /** When no batch raises, every brand named in the batches holds the
      values of its last record, and every other brand is untouched. */
  lemma {:induction false} RunBatchesComplete(rows: BrandRows, existing: set<Value>, counts: Counts,
                                              batches: seq<seq<Record>>)
    requires existing <= rows.Keys
    requires RunBatches(rows, existing, counts, batches).1.Some?
    ensures RunBatches(rows, existing, counts, batches).0 == rows + LastWins(Pairs(Flatten(batches)))
    decreases |batches|
  {
    if batches == [] {
      assert LastWins(Pairs([])) == map[];
      assert rows + map[] == rows;
    } else {
      var b := batches[0];
      var outcome := BatchSpec(rows, existing, b);
      var later := LastWins(Pairs(Flatten(batches[1..])));
      assert RunBatches(rows, existing, counts, batches)
          == RunBatches(outcome.rows, existing, Add(counts, outcome), batches[1..]) by {
        RunBatchesStep(rows, existing, counts, batches);
      }
      assert outcome.rows == rows + LastWins(Pairs(b)) by {
        BatchCommitted(rows, existing, b);
      }
      RunBatchesComplete(outcome.rows, existing, Add(counts, outcome), batches[1..]);
      assert LastWins(Pairs(Flatten(batches))) == LastWins(Pairs(b)) + later by {
        assert Flatten(batches) == b + Flatten(batches[1..]);
        PairsAppend(b, Flatten(batches[1..]));
        LastWinsAppend(Pairs(b), Pairs(Flatten(batches[1..])));
      }
      UnionAssoc(rows, LastWins(Pairs(b)), later);
    }
  }

  lemma {:induction false} PairsAppend(a: seq<Record>, b: seq<Record>)
    ensures Pairs(a + b) == Pairs(a) + Pairs(b)
    decreases |b|
  {
    if b == [] {
      assert a + b == a;
    } else {
      var n := |b| - 1;
      assert (a + b)[..|a + b| - 1] == a + b[..n];
      PairsAppend(a, b[..n]);
    }
  }

  /** A batch holding a list id raises, and with it the whole import. */
  lemma {:induction false} RunBatchesListId(rows: BrandRows, existing: set<Value>, counts: Counts,
                                            batches: seq<seq<Record>>, i: nat, j: nat)
    requires i < |batches| && j < |batches[i]| && Unhashable(IdOf(batches[i][j]))
    ensures RunBatches(rows, existing, counts, batches).1.None?
    decreases i
  {
    RunBatchesStep(rows, existing, counts, batches);
    var outcome := BatchSpec(rows, existing, batches[0]);
    if i == 0 {
      assert AnyListId(batches[0]);
    } else if outcome.Committed? {
      assert batches[1..][i - 1] == batches[i];
      RunBatchesListId(outcome.rows, existing, Add(counts, outcome), batches[1..], i - 1, j);
    }
  }

  /** A valid record whose id is a list makes the import fail, whatever
      else the file holds. */
  lemma ListIdFails(rows: BrandRows, records: seq<Record>, batchSize: int, j: nat)
    requires j < |records| && IsValid(records[j]) && Unhashable(IdOf(records[j]))
    ensures ImportSpec(rows, JsonList(records), batchSize).1 == Failed
  {
    var valid := ValidRecords(records);
    var k := BatchLength(batchSize);
    ValidRecordsMembers(records);
    assert records[j] in valid;
    ChunksCover(valid, k);
    FlattenMember(Chunks(valid, k), records[j]);
    var a, b :| 0 <= a < |Chunks(valid, k)| && 0 <= b < |Chunks(valid, k)[a]| && Chunks(valid, k)[a][b] == records[j];
    RunBatchesListId(rows, rows.Keys, Counts(0, 0), Chunks(valid, k), a, b);
  }

  /** A file that is not a list imports nothing. */
  lemma NotAListImportsNothing(rows: BrandRows, batchSize: int)
    ensures ImportSpec(rows, NotAList, batchSize) == (rows, InvalidFormat)
  {
  }

  /** A completed import counts the records without id or name as skipped,
      and leaves every brand of the file with the values of its last
      record. */
  lemma ImportComplete(rows: BrandRows, records: seq<Record>, batchSize: int)
    requires ImportSpec(rows, JsonList(records), batchSize).1.Complete?
    ensures ImportSpec(rows, JsonList(records), batchSize).1.skipped == |records| - |ValidRecords(records)|
    ensures ImportSpec(rows, JsonList(records), batchSize).0 == rows + LastWins(Pairs(ValidRecords(records)))
  {
    var valid := ValidRecords(records);
    var k := BatchLength(batchSize);
    ChunksCover(valid, k);
    RunBatchesComplete(rows, rows.Keys, Counts(0, 0), Chunks(valid, k));
  }

  // ---------------------------------------------------------------------
  // The command

  class BrandTable {
    var rows: BrandRows

    constructor(initial: BrandRows)
      ensures rows == initial
    {
      rows := initial;
    }

    /** The loop of `_process_batch` that sends each record to the inserts
        or to the updates; it stops when a record's id is a list. */
    static method Partition(batch: seq<Record>, existing: set<Value>)
      returns (ok: bool, toCreate: seq<(Value, BrandValues)>, toUpdate: seq<(Value, BrandValues)>)
      ensures ok <==> !AnyListId(batch)
      ensures ok ==> toCreate == ToCreate(batch, existing) && toUpdate == ToUpdate(batch, existing)
    {
      toCreate, toUpdate := [], [];
      var i := 0;
      while i < |batch|
        invariant i <= |batch|
        invariant toCreate == ToCreate(batch[..i], existing)
        invariant toUpdate == ToUpdate(batch[..i], existing)
        invariant forall j :: 0 <= j < i ==> !Unhashable(IdOf(batch[j]))
      {
        var r := batch[i];
        assert batch[..i + 1] == batch[..i] + [r];
        if Unhashable(IdOf(r)) {
          // The membership test raises.
          assert AnyListId(batch);
          return false, toCreate, toUpdate;
        }
        if IdOf(r) in existing {
          toUpdate := toUpdate + [PairOf(r)];
        } else {
          toCreate := toCreate + [PairOf(r)];
        }
        i := i + 1;
      }
      assert batch[..i] == batch;
      ok := true;
    }

    /** `_process_batch`: the partition loop, the insert, and the chunked
        updates, all inside one transaction. */
    method ProcessBatch(batch: seq<Record>, existing: set<Value>, counts: Counts) returns (ok: bool, next: Counts)
      modifies this
      ensures var outcome := BatchSpec(old(rows), existing, batch);
        if outcome.Raised? then !ok && rows == old(rows) && next == counts
        else ok && rows == outcome.rows && next == Add(counts, outcome)
    {
      var toCreate, toUpdate;
      ok, toCreate, toUpdate := Partition(batch, existing);
      if !ok {
        // The transaction is rolled back.
        return false, counts;
      }
      ghost var outcome := BatchSpec(rows, existing, batch);
      if InsertRefused(rows, toCreate) {
        // The insert raises; the transaction is rolled back.
        assert outcome == Raised;
        return false, counts;
      }
      rows := rows + LastWins(toCreate);
      var updated := 0;
      if toUpdate != [] {
        rows, updated := UpdateInChunks(rows, toUpdate);
      }
      assert outcome == Committed(rows, |toCreate|, updated);
      next := Counts(counts.created + |toCreate|, counts.updated + updated);
      ok := true;
    }

    /** One more batch sent after the batches `done`, from the table and
        counters they left. */
    method Send(ghost rows0: BrandRows, existing: set<Value>, ghost done: seq<seq<Record>>, batch: seq<Record>,
                counts: Counts) returns (ok: bool, next: Counts)
      requires RunBatches(rows0, existing, Counts(0, 0), done) == (rows, Some(counts))
      modifies this
      ensures RunBatches(rows0, existing, Counts(0, 0), done + [batch]) == (rows, if ok then Some(next) else None)
    {
      RunBatchesSnoc(rows0, existing, done, batch, rows, counts);
      ok, next := ProcessBatch(batch, existing, counts);
    }

    /** `handle`: validation, batching as records arrive, and the summary. */
    method Handle(doc: JsonDoc, batchSize: int) returns (report: Report)
      modifies this
      ensures (rows, report) == ImportSpec(old(rows), doc, batchSize)
    {
      if doc.NotAList? {
        return InvalidFormat;
      }
      var records := doc.records;
      ghost var k := BatchLength(batchSize);
      ghost var rows0 := rows;
      var existing := rows.Keys;
      var counts := Counts(0, 0);
      var skipped := 0;
      var batch: seq<Record> := [];
      ghost var done: seq<seq<Record>> := [];
      var i := 0;
      assert records[..0] == [];
      while i < |records|
        invariant Gathered(records, i, k, done, batch, skipped)
        invariant RunBatches(rows0, existing, Counts(0, 0), done) == (rows, Some(counts))
      {
        var r := records[i];
        if !IsValid(r) {
          SkipStep(records, i, k, done, batch, skipped);
          skipped := skipped + 1;
        } else if |batch + [r]| < batchSize {
          KeepStep(records, i, k, done, batch, skipped);
          batch := batch + [r];
        } else {
          FlushStep(records, i, k, done, batch, skipped);
          batch := batch + [r];
          var ok;
          ok, counts := Send(rows0, existing, done, batch, counts);
          if !ok {
            ghost var rest := SentFirst(records, i + 1, k, done + [batch], skipped);
            RunBatchesStopped(rows0, existing, Counts(0, 0), done + [batch], rest);
            FinishFailed(rows0, records, batchSize, done + [batch] + rest, rows);
            return Failed;
          }
          done := done + [batch];
          batch := [];
        }
        i := i + 1;
      }
      ghost var last := if batch == [] then [] else [batch];
      EndShape(records, k, done, batch, skipped);
      if batch != [] {
        var ok;
        ok, counts := Send(rows0, existing, done, batch, counts);
        if !ok {
          FinishFailed(rows0, records, batchSize, done + last, rows);
          return Failed;
        }
      } else {
        assert done + last == done;
      }
      Finish(rows0, records, batchSize, ValidRecords(records), done + last, rows, counts, skipped);
      report := Complete(counts.created, counts.updated, skipped);
    }
  }

  /** The records side of `handle`'s loop after `i` records: the batches
      sent so far are full and, with the pending batch, hold the valid
      records seen so far, in order; the others were counted as skipped. */
  ghost predicate Gathered(records: seq<Record>, i: nat, k: nat, done: seq<seq<Record>>, batch: seq<Record>,
                           skipped: nat)
  {
    && i <= |records| && k > 0
    && Flatten(done) + batch == ValidRecords(records[..i])
    && (forall j :: 0 <= j < |done| ==> |done[j]| == k)
    && |batch| < k
    && skipped == i - |ValidRecords(records[..i])|
  }

  lemma SkipStep(records: seq<Record>, i: nat, k: nat, done: seq<seq<Record>>, batch: seq<Record>, skipped: nat)
    requires Gathered(records, i, k, done, batch, skipped)
    requires i < |records| && !IsValid(records[i])
    ensures Gathered(records, i + 1, k, done, batch, skipped + 1)
  {
    ValidRecordsSnoc(records, i);
  }

  lemma KeepStep(records: seq<Record>, i: nat, k: nat, done: seq<seq<Record>>, batch: seq<Record>, skipped: nat)
    requires Gathered(records, i, k, done, batch, skipped)
    requires i < |records| && IsValid(records[i]) && |batch| + 1 < k
    ensures Gathered(records, i + 1, k, done, batch + [records[i]], skipped)
  {
    ValidRecordsSnoc(records, i);
    assert Flatten(done) + (batch + [records[i]]) == (Flatten(done) + batch) + [records[i]];
  }

  /** A batch that reaches `k` records is sent. */
  lemma FlushStep(records: seq<Record>, i: nat, k: nat, done: seq<seq<Record>>, batch: seq<Record>, skipped: nat)
    requires Gathered(records, i, k, done, batch, skipped)
    requires i < |records| && IsValid(records[i]) && |batch| + 1 == k
    ensures Gathered(records, i + 1, k, done + [batch + [records[i]]], [], skipped)
  {
    var full := batch + [records[i]];
    var sent := done + [full];
    ValidRecordsSnoc(records, i);
    FlattenSnoc(done, full);
    ConcatAssoc(Flatten(done), batch, [records[i]]);
    assert Flatten(sent) + [] == Flatten(sent);
    forall j | 0 <= j < |sent|
      ensures |sent[j]| == k
    {
      if j < |done| {
        assert sent[j] == done[j];
      }
    }
  }

  /** With no batch pending, the batches of the whole file start with the
      ones sent so far. */
  lemma SentFirst(records: seq<Record>, i: nat, k: nat, done: seq<seq<Record>>, skipped: nat)
      returns (rest: seq<seq<Record>>)
    requires Gathered(records, i, k, done, [], skipped)
    ensures Chunks(ValidRecords(records), k) == done + rest
  {
    var tail := ValidRecords(records[i..]);
    rest := Chunks(tail, k);
    assert ValidRecords(records) == Flatten(done) + tail by {
      assert records == records[..i] + records[i..];
      ValidRecordsAppend(records[..i], records[i..]);
    }
    ChunksOfFull(done, tail, k);
  }

  /** After the last record, the batches sent and the pending one are the
      batches of the whole file. */
  lemma EndShape(records: seq<Record>, k: nat, done: seq<seq<Record>>, batch: seq<Record>, skipped: nat)
    requires Gathered(records, |records|, k, done, batch, skipped)
    ensures Chunks(ValidRecords(records), k) == done + (if batch == [] then [] else [batch])
    ensures skipped == |records| - |ValidRecords(records)|
  {
    assert records[..|records|] == records;
    ChunksOfFull(done, batch, k);
    if batch == [] {
      assert done + Chunks([], k) == done + [];
    } else {
      assert batch[..Min(k, |batch|)] == batch && batch[|batch|..] == [];
      assert Chunks(batch, k) == [batch];
    }
  }

  /** The command's result once the batches of the file are known and all
      of them committed. */
  lemma Finish(rows0: BrandRows, records: seq<Record>, batchSize: int, valid: seq<Record>,
               batches: seq<seq<Record>>, rows: BrandRows, counts: Counts, skipped: nat)
    requires ValidRecords(records) == valid && Chunks(valid, BatchLength(batchSize)) == batches
    requires RunBatches(rows0, rows0.Keys, Counts(0, 0), batches) == (rows, Some(counts))
    requires skipped == |records| - |valid|
    ensures ImportSpec(rows0, JsonList(records), batchSize) == (rows, Complete(counts.created, counts.updated, skipped))
  {
    assert ImportSpec(rows0, JsonList(records), batchSize) == Summary((rows, Some(counts)), skipped);
  }

  /** The command's result once the batches of the file are known and one
      of them raised. */
  lemma FinishFailed(rows0: BrandRows, records: seq<Record>, batchSize: int, batches: seq<seq<Record>>,
                     rows: BrandRows)
    requires Chunks(ValidRecords(records), BatchLength(batchSize)) == batches
    requires RunBatches(rows0, rows0.Keys, Counts(0, 0), batches) == (rows, None)
    ensures ImportSpec(rows0, JsonList(records), batchSize) == (rows, Failed)
  {
  }

  /** Sending one more batch after the ones sent so far. */
  lemma RunBatchesSnoc(rows0: BrandRows, existing: set<Value>, done: seq<seq<Record>>, batch: seq<Record>,
                       rows: BrandRows, counts: Counts)
    requires RunBatches(rows0, existing, Counts(0, 0), done) == (rows, Some(counts))
    ensures var outcome := BatchSpec(rows, existing, batch);
      RunBatches(rows0, existing, Counts(0, 0), done + [batch])
        == if outcome.Raised? then (rows, None) else (outcome.rows, Some(Add(counts, outcome)))
  {
    RunBatchesAppend(rows0, existing, Counts(0, 0), done, [batch]);
    RunBatchesStep(rows, existing, counts, [batch]);
    assert [batch][1..] == [];
  }

  /** A batch that raised ends the whole import: the batches after it are
      never sent. */
  lemma RunBatchesStopped(rows0: BrandRows, existing: set<Value>, c0: Counts, a: seq<seq<Record>>, b: seq<seq<Record>>)
    requires RunBatches(rows0, existing, c0, a).1.None?
    ensures RunBatches(rows0, existing, c0, a + b) == RunBatches(rows0, existing, c0, a)
  {
    RunBatchesAppend(rows0, existing, c0, a, b);
  }
}
