/** The `import_product_models` command: model records from a JSON list are
    cut into fixed slices, and each slice is written in one transaction.
    A record needs an id, a name and a brand id that names a stored brand;
    a model whose id was stored when the import began is updated, any
    other is created. A failed insert is counted as errors and the slice's
    transaction is rolled back; only an accepted record whose id is a list
    stops the import, since testing that id against the stored ids
    raises. */
module ImportProductModels {
  import opened Common
  import opened ImportCommon

  /** The columns the import sets on a product model: the brand is the
      stored brand whose id prints as the record's `brand_id`. */
  datatype ModelValues = ModelValues(name: Value, brand: string, image: Value)

  /** Stored product models by model id. */
  type ModelRows = map<Value, ModelValues>

  /** The `stats` counters. */
  datatype Stats = Stats(created: nat, updated: nat, skipped: nat, errors: nat)

  /** What the command reports: the format error, the error message of an
      exception, or the summary line with the counters. */
  datatype Report = InvalidFormat | Failed | Complete(stats: Stats)

  function Plus(a: Stats, b: Stats): Stats
  {
    Stats(a.created + b.created, a.updated + b.updated, a.skipped + b.skipped, a.errors + b.errors)
  }

  /** A record with an id, a name and a brand id. */
  predicate HasRequired(r: Record)
  {
    "id" in r && "name" in r && "brand_id" in r
  }

  /** `str(model_data['brand_id'])`, the key of the brand cache. */
  function BrandKey(r: Record): string
  {
    PyStr(Get(r, "brand_id", VNull))
  }

  /** A record the command writes: complete, and naming a stored brand. */
  predicate Accepted(r: Record, brands: set<string>)
  {
    HasRequired(r) && BrandKey(r) in brands
  }

  /** The id of a record; the default is never used, since only accepted
      records reach the partition. */
  function IdOf(r: Record): Value
  {
    Get(r, "id", VNull)
  }

  /** Name, brand, and the image URL defaulting to the empty string. */
  function ValuesOf(r: Record): ModelValues
  {
    ModelValues(Get(r, "name", VNull), BrandKey(r), Get(r, "image_url", VStr("")))
  }

  function PairOf(r: Record): (Value, ModelValues)
  {
    (IdOf(r), ValuesOf(r))
  }

  /** The accepted records of a slice, in order. */
  function AcceptedRecords(batch: seq<Record>, brands: set<string>): seq<Record>
  {
    if batch == [] then []
    else
      var n := |batch| - 1;
      AcceptedRecords(batch[..n], brands) + (if Accepted(batch[n], brands) then [batch[n]] else [])
  }

  /** The `(id, values)` pair of every accepted record of a slice. */
  function AcceptedPairs(batch: seq<Record>, brands: set<string>): seq<(Value, ModelValues)>
  {
    if batch == [] then []
    else
      var n := |batch| - 1;
      AcceptedPairs(batch[..n], brands) + (if Accepted(batch[n], brands) then [PairOf(batch[n])] else [])
  }

  /** The records of a slice the command skips. */
  function Skipped(batch: seq<Record>, brands: set<string>): nat
  {
    if batch == [] then 0
    else
      var n := |batch| - 1;
      Skipped(batch[..n], brands) + (if Accepted(batch[n], brands) then 0 else 1)
  }

  /** The models to create: accepted records whose id was not stored when
      the import began. */
  function ToCreate(batch: seq<Record>, brands: set<string>, existing: set<Value>): seq<(Value, ModelValues)>
  {
    if batch == [] then []
    else
      var n := |batch| - 1;
      var r := batch[n];
      ToCreate(batch[..n], brands, existing)
        + (if Accepted(r, brands) && IdOf(r) !in existing then [PairOf(r)] else [])
  }

  /** The models to update: accepted records whose id was stored when the
      import began. */
  function ToUpdate(batch: seq<Record>, brands: set<string>, existing: set<Value>): seq<(Value, ModelValues)>
  {
    if batch == [] then []
    else
      var n := |batch| - 1;
      var r := batch[n];
      ToUpdate(batch[..n], brands, existing)
        + (if Accepted(r, brands) && IdOf(r) in existing then [PairOf(r)] else [])
  }

  /** A slice's effect on the table and on the counters, or the exception
      that leaves the slice's transaction and stops the import. */
  datatype BatchOutcome = BatchOutcome(rows: ModelRows, delta: Stats) | Raised

  /** Some accepted record has a list for its id: testing it against the
      stored ids raises. */
  predicate AnyListId(batch: seq<Record>, brands: set<string>)
  {
    exists j :: 0 <= j < |batch| && Accepted(batch[j], brands) && Unhashable(IdOf(batch[j]))
  }

  /** The writes of a slice in their transaction. A refused insert is
      caught, but it has broken the transaction: the update queries that
      follow raise and are caught too, and the transaction is rolled back
      at its end. */
  function WriteSpec(rows: ModelRows, toCreate: seq<(Value, ModelValues)>, toUpdate: seq<(Value, ModelValues)>)
    : BatchOutcome
  {
    if InsertRefused(rows, toCreate) then BatchOutcome(rows, Stats(0, 0, 0, |toCreate| + |toUpdate|))
    else
      var inserted := rows + LastWins(toCreate);
      BatchOutcome(ChunkedRows(inserted, toUpdate), Stats(|toCreate|, ChunkedCount(inserted, toUpdate), 0, 0))
  }

  /** One slice: its skipped records, then its writes; a list id raises
      during the partition, before any write. */
  function BatchSpec(rows: ModelRows, brands: set<string>, existing: set<Value>, batch: seq<Record>): BatchOutcome
  {
    if AnyListId(batch, brands) then Raised
    else
    var written := WriteSpec(rows, ToCreate(batch, brands, existing), ToUpdate(batch, brands, existing));
    BatchOutcome(written.rows, written.delta.(skipped := Skipped(batch, brands)))
  }

  /** The slices in order; a slice that raises stops the import, the
      slices before it staying committed. */
  function RunBatches(rows: ModelRows, brands: set<string>, existing: set<Value>, stats: Stats,
                      batches: seq<seq<Record>>): (ModelRows, Option<Stats>)
    decreases |batches|
  {
    if batches == [] then (rows, Some(stats))
    else
      var outcome := BatchSpec(rows, brands, existing, batches[0]);
      if outcome.Raised? then (rows, None)
      else RunBatches(outcome.rows, brands, existing, Plus(stats, outcome.delta), batches[1..])
  }

  /** The whole command, given the stored models, the ids of the stored
      brands as strings, and the decoded file. */
  function ImportSpec(rows: ModelRows, brands: set<string>, doc: JsonDoc, batchSize: int): (ModelRows, Report)
  {
    if doc.NotAList? then (rows, InvalidFormat)
    else
      var slices := RangeSlices(doc.records, batchSize);
      if slices.None? then (rows, Failed)
      else
        var run := RunBatches(rows, brands, rows.Keys, Stats(0, 0, 0, 0), slices.value);
        (run.0, if run.1.Some? then Complete(run.1.value) else Failed)
  }

  // ---------------------------------------------------------------------
  // The partition of a slice

  /** Every record of a slice is skipped, sent to the inserts or sent to
      the updates, and to exactly one of them; a record goes to the
      updates exactly when its id was stored when the import began. */
  lemma {:induction false} PartitionFacts(batch: seq<Record>, brands: set<string>, existing: set<Value>)
    ensures Skipped(batch, brands) + |ToCreate(batch, brands, existing)| + |ToUpdate(batch, brands, existing)|
         == |batch|
    ensures |ToCreate(batch, brands, existing)| + |ToUpdate(batch, brands, existing)|
         == |AcceptedRecords(batch, brands)|
    ensures forall i :: 0 <= i < |ToUpdate(batch, brands, existing)| ==> ToUpdate(batch, brands, existing)[i].0 in existing
    ensures forall i :: 0 <= i < |ToCreate(batch, brands, existing)| ==> ToCreate(batch, brands, existing)[i].0 !in existing
  {
    if batch != [] {
      PartitionFacts(batch[..|batch| - 1], brands, existing);
    }
  }

  /** A record is written exactly when it has an id, a name and a brand id
      naming a stored brand. */
  lemma {:induction false} AcceptedMembers(batch: seq<Record>, brands: set<string>)
    ensures forall r :: r in AcceptedRecords(batch, brands) <==> r in batch && Accepted(r, brands)
  {
    if batch != [] {
      var n := |batch| - 1;
      AcceptedMembers(batch[..n], brands);
      assert batch == batch[..n] + [batch[n]];
    }
  }

  /** Taken together, the inserts and the updates give every accepted id
      the values of its last record. */
  lemma {:induction false} PartitionLastWins(batch: seq<Record>, brands: set<string>, existing: set<Value>)
    ensures LastWins(AcceptedPairs(batch, brands))
         == LastWins(ToCreate(batch, brands, existing)) + LastWins(ToUpdate(batch, brands, existing))
  {
    if batch == [] {
      assert LastWins<Value, ModelValues>([]) + LastWins([]) == map[];
    } else {
      var n := |batch| - 1;
      var r := batch[n];
      var x := PairOf(r);
      var accepted := AcceptedPairs(batch[..n], brands);
      PartitionLastWins(batch[..n], brands, existing);
      var c := ToCreate(batch[..n], brands, existing);
      var u := ToUpdate(batch[..n], brands, existing);
      if !Accepted(r, brands) {
        assert AcceptedPairs(batch, brands) == accepted;
        assert ToCreate(batch, brands, existing) == c && ToUpdate(batch, brands, existing) == u;
      } else {
        assert AcceptedPairs(batch, brands) == accepted + [x];
        LastWinsSnoc(accepted, x);
        if IdOf(r) in existing {
          assert ToUpdate(batch, brands, existing) == u + [x];
          assert ToCreate(batch, brands, existing) == c;
          LastWinsSnoc(u, x);
          UnionUpdateRight(LastWins(c), LastWins(u), x.0, x.1);
        } else {
          PartitionFacts(batch[..n], brands, existing);
          LastWinsKeys(u);
          assert x.0 !in LastWins(u);
          assert ToCreate(batch, brands, existing) == c + [x];
          assert ToUpdate(batch, brands, existing) == u;
          LastWinsSnoc(c, x);
          UnionUpdateLeft(LastWins(c), LastWins(u), x.0, x.1);
        }
      }
    }
  }

  // ---------------------------------------------------------------------
  // One slice

  /** A slice whose insert goes through leaves every accepted model with
      the values of its last record and every other model as it was; it
      counts one creation per insert, at most one update per record sent
      to the updates, and no error. */
  lemma BatchCommitted(rows: ModelRows, brands: set<string>, existing: set<Value>, batch: seq<Record>)
    requires existing <= rows.Keys
    requires !AnyListId(batch, brands)
    requires !InsertRefused(rows, ToCreate(batch, brands, existing))
    ensures BatchSpec(rows, brands, existing, batch).rows == rows + LastWins(AcceptedPairs(batch, brands))
    ensures BatchSpec(rows, brands, existing, batch).delta.created == |ToCreate(batch, brands, existing)|
    ensures BatchSpec(rows, brands, existing, batch).delta.updated <= |ToUpdate(batch, brands, existing)|
    ensures BatchSpec(rows, brands, existing, batch).delta.errors == 0
  {
    var c := ToCreate(batch, brands, existing);
    var u := ToUpdate(batch, brands, existing);
    var inserted := rows + LastWins(c);
    assert Ids(u) <= inserted.Keys by {
      PartitionFacts(batch, brands, existing);
    }
    ChunkedUpdateStored(inserted, u);
    ChunkedUpdateCountBound(inserted, u);
    PartitionLastWins(batch, brands, existing);
    UnionAssoc(rows, LastWins(c), LastWins(u));
  }

  /** A slice whose insert is refused changes no model, creates and
      updates nothing, and counts every record it would have written as an
      error. */
  lemma BatchRefused(rows: ModelRows, brands: set<string>, existing: set<Value>, batch: seq<Record>)
    requires !AnyListId(batch, brands)
    requires InsertRefused(rows, ToCreate(batch, brands, existing))
    ensures BatchSpec(rows, brands, existing, batch).rows == rows
    ensures BatchSpec(rows, brands, existing, batch).delta
         == Stats(0, 0, Skipped(batch, brands), |AcceptedRecords(batch, brands)|)
  {
    PartitionFacts(batch, brands, existing);
  }

  /** The stored ids are read once, before the first slice: a model that
      an earlier slice created is sent to the inserts again, and the slice
      that repeats its id is rolled back (or raises, when it also holds a
      list id). */
  lemma RepeatedNewIdRefused(rows: ModelRows, brands: set<string>, existing: set<Value>, batch: seq<Record>, j: nat)
    requires j < |batch| && Accepted(batch[j], brands)
    requires IdOf(batch[j]) !in existing && IdOf(batch[j]) in rows
    ensures BatchSpec(rows, brands, existing, batch).Raised? || BatchSpec(rows, brands, existing, batch).rows == rows
  {
    var i := CreateHasNew(batch, brands, existing, j);
    StoredIdRefused(rows, ToCreate(batch, brands, existing), i);
  }

  lemma {:induction false} CreateHasNew(batch: seq<Record>, brands: set<string>, existing: set<Value>, j: nat)
      returns (i: nat)
    requires j < |batch| && Accepted(batch[j], brands) && IdOf(batch[j]) !in existing
    ensures i < |ToCreate(batch, brands, existing)| && ToCreate(batch, brands, existing)[i].0 == IdOf(batch[j])
  {
    var n := |batch| - 1;
    if j < n {
      assert batch[..n][j] == batch[j];
      i := CreateHasNew(batch[..n], brands, existing, j);
      assert ToCreate(batch, brands, existing)[i] == ToCreate(batch[..n], brands, existing)[i];
    } else {
      i := |ToCreate(batch[..n], brands, existing)|;
    }
  }

  // ---------------------------------------------------------------------
  // The whole import

  lemma {:induction false} SkippedAppend(a: seq<Record>, b: seq<Record>, brands: set<string>)
    ensures Skipped(a + b, brands) == Skipped(a, brands) + Skipped(b, brands)
    decreases |b|
  {
    if b == [] {
      assert a + b == a;
    } else {
      var n := |b| - 1;
      assert (a + b)[..|a + b| - 1] == a + b[..n];
      SkippedAppend(a, b[..n], brands);
    }
  }

  lemma RunBatchesCons(rows: ModelRows, brands: set<string>, existing: set<Value>, stats: Stats,
                       batch: seq<Record>, rest: seq<seq<Record>>)
    ensures var outcome := BatchSpec(rows, brands, existing, batch);
      RunBatches(rows, brands, existing, stats, [batch] + rest)
        == if outcome.Raised? then (rows, None)
           else RunBatches(outcome.rows, brands, existing, Plus(stats, outcome.delta), rest)
  {
    assert ([batch] + rest)[0] == batch && ([batch] + rest)[1..] == rest;
  }

  /** The skipped counter ends up counting every record of every slice
      that the command does not write. */
  lemma {:induction false} RunBatchesSkipped(rows: ModelRows, brands: set<string>, existing: set<Value>,
                                             stats: Stats, batches: seq<seq<Record>>)
    requires RunBatches(rows, brands, existing, stats, batches).1.Some?
    ensures RunBatches(rows, brands, existing, stats, batches).1.value.skipped
         == stats.skipped + Skipped(Flatten(batches), brands)
    decreases |batches|
  {
    if batches != [] {
      var outcome := BatchSpec(rows, brands, existing, batches[0]);
      RunBatchesSkipped(outcome.rows, brands, existing, Plus(stats, outcome.delta), batches[1..]);
      SkippedAppend(batches[0], Flatten(batches[1..]), brands);
    }
  }

  /** A list id anywhere in two runs of records is a list id in one of
      them. */
  lemma AnyListIdAppend(a: seq<Record>, b: seq<Record>, brands: set<string>)
    ensures AnyListId(a + b, brands) <==> AnyListId(a, brands) || AnyListId(b, brands)
  {
    if AnyListId(a + b, brands) {
      var j :| 0 <= j < |a + b| && Accepted((a + b)[j], brands) && Unhashable(IdOf((a + b)[j]));
      if j < |a| {
        assert (a + b)[j] == a[j];
      } else {
        assert (a + b)[j] == b[j - |a|];
      }
    }
    if AnyListId(a, brands) {
      var j :| 0 <= j < |a| && Accepted(a[j], brands) && Unhashable(IdOf(a[j]));
      assert (a + b)[j] == a[j];
    }
    if AnyListId(b, brands) {
      var j :| 0 <= j < |b| && Accepted(b[j], brands) && Unhashable(IdOf(b[j]));
      assert (a + b)[|a| + j] == b[j];
    }
  }

  /** The slices stop short exactly when an accepted record of one of them
      has a list for its id. */
  lemma {:induction false} RunBatchesRaise(rows: ModelRows, brands: set<string>, existing: set<Value>,
                                           stats: Stats, batches: seq<seq<Record>>)
    ensures RunBatches(rows, brands, existing, stats, batches).1.None? <==> AnyListId(Flatten(batches), brands)
    decreases |batches|
  {
    if batches != [] {
      AnyListIdAppend(batches[0], Flatten(batches[1..]), brands);
      var outcome := BatchSpec(rows, brands, existing, batches[0]);
      if outcome.BatchOutcome? {
        RunBatchesRaise(outcome.rows, brands, existing, Plus(stats, outcome.delta), batches[1..]);
      }
    }
  }

  /** The slices of a positive batch size cover the file in order, all of
      `batch_size` records except a shorter last one. */
  lemma ModelBatches(records: seq<Record>, batchSize: int)
    requires batchSize > 0
    ensures Flatten(Chunks(records, batchSize)) == records
    ensures forall i :: 0 <= i < |Chunks(records, batchSize)| - 1 ==> |Chunks(records, batchSize)[i]| == batchSize
    ensures forall i :: 0 <= i < |Chunks(records, batchSize)| ==> 0 < |Chunks(records, batchSize)[i]| <= batchSize
  {
    ChunksCover(records, batchSize);
    ChunksSizes(records, batchSize);
  }

  /** A file that is a list is imported to the end unless the batch size
      is zero, which makes `range` raise before any slice, or an accepted
      record has a list for its id, which raises in its slice; a negative
      batch size gives no slice at all. Every record the command does not
      write is counted as skipped. */
  lemma ImportOutcome(rows: ModelRows, brands: set<string>, records: seq<Record>, batchSize: int)
    ensures batchSize == 0 ==> ImportSpec(rows, brands, JsonList(records), batchSize) == (rows, Failed)
    ensures batchSize < 0 ==>
      ImportSpec(rows, brands, JsonList(records), batchSize) == (rows, Complete(Stats(0, 0, 0, 0)))
    ensures batchSize > 0 && AnyListId(records, brands) ==>
      ImportSpec(rows, brands, JsonList(records), batchSize).1 == Failed
    ensures batchSize > 0 && !AnyListId(records, brands) ==>
      ImportSpec(rows, brands, JsonList(records), batchSize).1.Complete?
      && ImportSpec(rows, brands, JsonList(records), batchSize).1.stats.skipped == Skipped(records, brands)
  {
    if batchSize > 0 {
      ChunksCover(records, batchSize);
      RunBatchesRaise(rows, brands, rows.Keys, Stats(0, 0, 0, 0), Chunks(records, batchSize));
      if !AnyListId(records, brands) {
        RunBatchesSkipped(rows, brands, rows.Keys, Stats(0, 0, 0, 0), Chunks(records, batchSize));
      }
    }
  }

  /** A file that is not a list imports nothing. */
  lemma NotAListImportsNothing(rows: ModelRows, brands: set<string>, batchSize: int)
    ensures ImportSpec(rows, brands, NotAList, batchSize) == (rows, InvalidFormat)
  {
  }

  // ---------------------------------------------------------------------
  // The command

  class ModelTable {
    var rows: ModelRows

    constructor(initial: ModelRows)
      ensures rows == initial
    {
      rows := initial;
    }

    /** The loop of `_process_batch` that validates the records of a slice
        and sends each accepted one to the inserts or to the updates. */
    static method Partition(batch: seq<Record>, brands: set<string>, existing: set<Value>)
      returns (ok: bool, toCreate: seq<(Value, ModelValues)>, toUpdate: seq<(Value, ModelValues)>, skipped: nat)
      ensures ok <==> !AnyListId(batch, brands)
      ensures ok ==> toCreate == ToCreate(batch, brands, existing)
      ensures ok ==> toUpdate == ToUpdate(batch, brands, existing)
      ensures ok ==> skipped == Skipped(batch, brands)
    {
      toCreate, toUpdate, skipped := [], [], 0;
      var i := 0;
      while i < |batch|
        invariant i <= |batch|
        invariant toCreate == ToCreate(batch[..i], brands, existing)
        invariant toUpdate == ToUpdate(batch[..i], brands, existing)
        invariant skipped == Skipped(batch[..i], brands)
        invariant forall j :: 0 <= j < i ==> !(Accepted(batch[j], brands) && Unhashable(IdOf(batch[j])))
      {
        var r := batch[i];
        assert batch[..i + 1][..i] == batch[..i] && batch[..i + 1][i] == r;
        if !HasRequired(r) {
          skipped := skipped + 1;
        } else if BrandKey(r) !in brands {
          skipped := skipped + 1;
        } else if Unhashable(IdOf(r)) {
          // The membership test against the stored ids raises.
          assert Accepted(batch[i], brands);
          return false, toCreate, toUpdate, skipped;
        } else if IdOf(r) in existing {
          toUpdate := toUpdate + [PairOf(r)];
        } else {
          toCreate := toCreate + [PairOf(r)];
        }
        i := i + 1;
      }
      assert batch[..i] == batch;
      ok := true;
    }

    /** `_process_batch`: the validation and partition loop, then the
        writes and the counters; `ok` is false when the slice raised, which
        leaves the table as it was. */
    method ProcessBatch(batch: seq<Record>, brands: set<string>, existing: set<Value>, stats: Stats)
      returns (ok: bool, next: Stats)
      modifies this
      ensures var outcome := BatchSpec(old(rows), brands, existing, batch);
        if outcome.Raised? then !ok && rows == old(rows) && next == stats
        else ok && rows == outcome.rows && next == Plus(stats, outcome.delta)
    {
      var toCreate, toUpdate, skipped;
      ok, toCreate, toUpdate, skipped := Partition(batch, brands, existing);
      if !ok {
        return false, stats;
      }
      var created, updated, errors := Write(toCreate, toUpdate);
      next := Stats(stats.created + created, stats.updated + updated, stats.skipped + skipped, stats.errors + errors);
    }

    /** The insert and the chunked updates inside the slice's transaction. */
    method Write(toCreate: seq<(Value, ModelValues)>, toUpdate: seq<(Value, ModelValues)>)
      returns (created: nat, updated: nat, errors: nat)
      modifies this
      ensures var outcome := WriteSpec(old(rows), toCreate, toUpdate);
        rows == outcome.rows && Stats(created, updated, 0, errors) == outcome.delta
    {
      var saved := rows;
      created, updated, errors := 0, 0, 0;
      var broken := false;
      if toCreate != [] {
        if InsertRefused(rows, toCreate) {
          // The IntegrityError is caught, but the transaction is broken.
          errors := errors + |toCreate|;
          broken := true;
        } else {
          rows := rows + LastWins(toCreate);
          created := |toCreate|;
        }
      } else {
        assert !InsertRefused(rows, toCreate) by {
          assert Ids(toCreate) == {};
        }
        assert rows + LastWins(toCreate) == rows;
      }
      if toUpdate != [] {
        if broken {
          // The first query of the update loop raises and is caught.
          errors := errors + |toUpdate|;
        } else {
          rows, updated := UpdateInChunks(rows, toUpdate);
        }
      }
      if broken {
        // The transaction is rolled back when its block ends.
        rows := saved;
      }
    }

    /** `handle`: the slices `records[i:i + batch_size]` for `i` in
        `range(0, len(records), batch_size)`, and the summary. */
    method Handle(brands: set<string>, doc: JsonDoc, batchSize: int) returns (report: Report)
      modifies this
      ensures (rows, report) == ImportSpec(old(rows), brands, doc, batchSize)
    {
      if doc.NotAList? {
        return InvalidFormat;
      }
      var records := doc.records;
      if batchSize == 0 {
        // `range` raises before the first slice.
        return Failed;
      }
      var existing := rows.Keys;
      var stats := Some(Stats(0, 0, 0, 0));
      // With a negative step `range` is empty and no slice runs.
      if batchSize > 0 {
        stats := RunSlices(brands, existing, records, batchSize);
      }
      report := if stats.Some? then Complete(stats.value) else Failed;
    }

    /** The next slice of `batch_size` records, in its transaction, after
        the slices before it: `total` is what the whole loop leaves. */
    method SendSlice(ghost total: (ModelRows, Option<Stats>), brands: set<string>, existing: set<Value>,
                     rest: seq<Record>, batchSize: nat, stats: Stats) returns (ok: bool, next: Stats)
      requires batchSize > 0 && rest != []
      requires total == RunBatches(rows, brands, existing, stats, Chunks(rest, batchSize))
      modifies this
      ensures ok ==> total == RunBatches(rows, brands, existing, next, Chunks(rest[Min(batchSize, |rest|)..], batchSize))
      ensures !ok ==> total == (rows, None)
    {
      Advance(brands, existing, rest, batchSize, rows, stats);
      var batch := rest[..Min(batchSize, |rest|)];
      ok, next := ProcessBatch(batch, brands, existing, stats);
    }

    /** The loop of `handle` over the slices, with a positive step; a slice
        that raises ends it. */
    method RunSlices(brands: set<string>, existing: set<Value>, records: seq<Record>, batchSize: nat)
      returns (result: Option<Stats>)
      requires batchSize > 0
      modifies this
      ensures (rows, result) == RunBatches(old(rows), brands, existing, Stats(0, 0, 0, 0), Chunks(records, batchSize))
    {
      ghost var total := RunBatches(rows, brands, existing, Stats(0, 0, 0, 0), Chunks(records, batchSize));
      var stats := Stats(0, 0, 0, 0);
      // The records from the start of the next slice on.
      var rest := records;
      while rest != []
        invariant total == RunBatches(rows, brands, existing, stats, Chunks(rest, batchSize))
        decreases |rest|
      {
        var ok;
        ok, stats := SendSlice(total, brands, existing, rest, batchSize, stats);
        if !ok {
          // The exception leaves `handle`'s loop.
          return None;
        }
        rest := rest[Min(batchSize, |rest|)..];
      }
      result := Some(stats);
    }
  }

  /** The first slice of the records left: when it ran, the rest of the
      import is the slices after it; when it raised, the import ends. */
  lemma Advance(brands: set<string>, existing: set<Value>, rest: seq<Record>, k: nat, rows: ModelRows, stats: Stats)
    requires k > 0 && rest != []
    ensures var outcome := BatchSpec(rows, brands, existing, rest[..Min(k, |rest|)]);
      RunBatches(rows, brands, existing, stats, Chunks(rest, k))
        == if outcome.Raised? then (rows, None)
           else RunBatches(outcome.rows, brands, existing, Plus(stats, outcome.delta), Chunks(rest[Min(k, |rest|)..], k))
  {
    var tail := Chunks(rest[Min(k, |rest|)..], k);
    assert Chunks(rest, k) == [rest[..Min(k, |rest|)]] + tail;
    assert ([rest[..Min(k, |rest|)]] + tail)[1..] == tail;
  }
}
