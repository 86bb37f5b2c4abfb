/** The `import_products` command: product records from a JSON list are
    cut into fixed slices, and each slice is written in one transaction.
    A record needs an id, a name, a known model and a known category, and
    a brand id that is empty or known; whether a product exists is looked
    up in the table as the slice begins. Unless images are skipped, every
    accepted record also queues its main image and its extra images, and
    the queued images are stored in chunks; an image already stored is
    not queued again.
    A failed insert is counted as errors; a price that `float` refuses, or
    extra images that cannot be iterated, raise and end the import. */
module ImportProducts {
  import opened Common
  import opened ImportCommon

  /** The columns the import sets on a product; the category is the stored
      category whose id prints as the record's `category_id`. */
  datatype ProductValues = ProductValues(name: Value, description: Value, price: Value, image: Value,
                                         category: string, sku: Value)

  /** Stored products by id. */
  type ProductRows = map<Value, ProductValues>

  /** A stored product image: the product id and the image URL. */
  type ImageRow = (Value, Value)

  /** The product table and the product image table. */
  datatype Tables = Tables(products: ProductRows, images: seq<ImageRow>)

  /** The ids of the stored brands, models and categories, as strings. */
  datatype Caches = Caches(brands: set<string>, models: set<string>, categories: set<string>)

  /** The `stats` counters. */
  datatype Stats = Stats(created: nat, updated: nat, skipped: nat, errors: nat, imagesProcessed: nat)

  /** What the command reports: the format error, the error message of an
      exception, or the summary line with the counters. */
  datatype Report = InvalidFormat | Failed | Complete(stats: Stats)

  function Plus(a: Stats, b: Stats): Stats
  {
    Stats(a.created + b.created, a.updated + b.updated, a.skipped + b.skipped, a.errors + b.errors,
          a.imagesProcessed + b.imagesProcessed)
  }

  // ---------------------------------------------------------------------
  // One record

  predicate HasRequired(r: Record)
  {
    "id" in r && "name" in r && "model_id" in r && "category_id" in r
  }

  function ModelKey(r: Record): string { PyStr(Get(r, "model_id", VNull)) }

  function CategoryKey(r: Record): string { PyStr(Get(r, "category_id", VNull)) }

  /** `str(product_data.get('brand_id', ''))`. */
  function BrandKey(r: Record): string { PyStr(Get(r, "brand_id", VStr(""))) }

  /** A record the command writes: complete, with a known model and
      category, and a brand id that is empty or known. */
  predicate Accepted(r: Record, caches: Caches)
  {
    && HasRequired(r)
    && ModelKey(r) in caches.models
    && CategoryKey(r) in caches.categories
    && (BrandKey(r) == "" || BrandKey(r) in caches.brands)
  }

  function IdOf(r: Record): Value { Get(r, "id", VNull) }

  /** The values written for a record, with their defaults. The price is
      kept as the value the file gives; `PriceParses` says whether `float`
      accepts it. */
  function ValuesOf(r: Record): ProductValues
  {
    ProductValues(Get(r, "name", VNull), Get(r, "description", VStr("")), Get(r, "price", VInt(0)),
                  Get(r, "image_url", VStr("")), CategoryKey(r), Get(r, "sku", VStr("")))
  }

  function PairOf(r: Record): (Value, ProductValues) { (IdOf(r), ValuesOf(r)) }

  /** A decimal numeral: an optional sign, then digits with at most one
      point, and at least one digit. */
  predicate IsDecimal(s: string)
  {
    var t := if |s| > 0 && (s[0] == '+' || s[0] == '-') then s[1..] else s;
    || (|t| > 0 && AllDigits(t))
    || (exists i :: 0 <= i < |t| && t[i] == '.' && |t| > 1 && AllDigits(t[..i]) && AllDigits(t[i + 1..]))
  }

  /** `float(product_data.get('price', 0))` does not raise. */
  predicate PriceParses(v: Value)
  {
    match v
    case VInt(_) => true
    case VBool(_) => true
    case VStr(s) => IsDecimal(Strip(s))
    case _ => false
  }

  /** What `for image_url in value` iterates over: the items of a list or
      the characters of a string; anything else is not iterable. */
  function Iterated(v: Value): Option<seq<Value>>
  {
    match v
    case VList(xs) => Some(xs)
    case VStr(s) => Some(seq(|s|, i requires 0 <= i < |s| => VStr([s[i]])))
    case _ => None
  }

  /** The image URLs of a record: the main image when it is truthy, then
      the extra images in order; None when the extra images raise. */
  function RecordUrls(r: Record): Option<seq<Value>>
  {
    var main := if Truthy(Get(r, "image_url", VNull)) then [r["image_url"]] else [];
    var extra := Iterated(Get(r, "extra_images", VList([])));
    if extra.None? then None else Some(main + extra.value)
  }

  function WithId(id: Value, urls: seq<Value>): (rows: seq<ImageRow>)
    ensures |rows| == |urls| && forall i :: 0 <= i < |urls| ==> rows[i] == (id, urls[i])
  {
    seq(|urls|, i requires 0 <= i < |urls| => (id, urls[i]))
  }

  /** An accepted record whose price, id or extra images raise: `float`
      refuses the price, the lookup by a list id raises `TypeError`, or the
      extra images are not iterable. */
  predicate Raises(r: Record, caches: Caches, skipImages: bool)
  {
    Accepted(r, caches)
    && (!PriceParses(Get(r, "price", VInt(0))) || Unhashable(IdOf(r)) || (!skipImages && RecordUrls(r).None?))
  }

  /** The images an accepted record queues. */
  function RecordImages(r: Record, caches: Caches, skipImages: bool): seq<ImageRow>
  {
    if Accepted(r, caches) && !skipImages && RecordUrls(r).Some? then WithId(IdOf(r), RecordUrls(r).value) else []
  }

  // ---------------------------------------------------------------------
  // The partition of a slice

  predicate AnyRaises(batch: seq<Record>, caches: Caches, skipImages: bool)
  {
    batch != [] && (AnyRaises(batch[..|batch| - 1], caches, skipImages) || Raises(batch[|batch| - 1], caches, skipImages))
  }

  function Skipped(batch: seq<Record>, caches: Caches): nat
  {
    if batch == [] then 0
    else
      var n := |batch| - 1;
      Skipped(batch[..n], caches) + (if Accepted(batch[n], caches) then 0 else 1)
  }

  function AcceptedPairs(batch: seq<Record>, caches: Caches): seq<(Value, ProductValues)>
  {
    if batch == [] then []
    else
      var n := |batch| - 1;
      AcceptedPairs(batch[..n], caches) + (if Accepted(batch[n], caches) then [PairOf(batch[n])] else [])
  }

  /** The products to create: accepted records whose product is not
      stored. */
  function ToCreate(batch: seq<Record>, caches: Caches, stored: set<Value>): seq<(Value, ProductValues)>
  {
    if batch == [] then []
    else
      var n := |batch| - 1;
      var r := batch[n];
      ToCreate(batch[..n], caches, stored) + (if Accepted(r, caches) && IdOf(r) !in stored then [PairOf(r)] else [])
  }

  /** The products to update: accepted records whose product is stored. */
  function ToUpdate(batch: seq<Record>, caches: Caches, stored: set<Value>): seq<(Value, ProductValues)>
  {
    if batch == [] then []
    else
      var n := |batch| - 1;
      var r := batch[n];
      ToUpdate(batch[..n], caches, stored) + (if Accepted(r, caches) && IdOf(r) in stored then [PairOf(r)] else [])
  }

  /** The images queued by a slice, record after record. */
  function Images(batch: seq<Record>, caches: Caches, skipImages: bool): seq<ImageRow>
  {
    if batch == [] then []
    else
      var n := |batch| - 1;
      Images(batch[..n], caches, skipImages) + RecordImages(batch[n], caches, skipImages)
  }

  // ---------------------------------------------------------------------
  // Images

  /** How many queued images `_process_image_batch` handles at once. */
  const IMAGE_CHUNK: nat := 500

  function ChunkIds(chunk: seq<ImageRow>): set<Value>
  {
    set p | p in chunk :: p.0
  }

  /** The query for the stored images of the chunk's products. */
  function StoredFor(table: seq<ImageRow>, chunk: seq<ImageRow>): set<ImageRow>
  {
    set p | p in table && p.0 in ChunkIds(chunk)
  }

  /** Some queued image has a URL that is a JSON list: the pair holding it
      cannot be hashed for the membership test. */
  predicate ListUrl(queued: seq<ImageRow>)
  {
    exists i :: 0 <= i < |queued| && Unhashable(queued[i].1)
  }

  /** The images of a chunk that the query did not return, in order;
      repeats within the chunk are kept. None when the membership test
      meets a list-valued URL and raises `TypeError`. */
  function NewImages(stored: set<ImageRow>, chunk: seq<ImageRow>): Option<seq<ImageRow>>
  {
    if chunk == [] then Some([])
    else
      var n := |chunk| - 1;
      var before := NewImages(stored, chunk[..n]);
      if before.None? || Unhashable(chunk[n].1) then None
      else Some(before.value + (if chunk[n] in stored then [] else [chunk[n]]))
  }

  /** One chunk in its savepoint: the table with the chunk's new images
      appended, or None when the chunk raised and its savepoint was rolled
      back. */
  function ImageChunk(table: seq<ImageRow>, chunk: seq<ImageRow>): Option<seq<ImageRow>>
  {
    var newRows := NewImages(StoredFor(table, chunk), chunk);
    if newRows.None? then None else Some(table + newRows.value)
  }

  /** The image table after the image loop, and whether a chunk raised. */
  datatype ImageRun = ImageRun(table: seq<ImageRow>, raised: bool)

  /** The chunks of 500 queued images, each stored in turn; the first chunk
      that raises ends the loop, and the chunks before it stay stored. */
  function ImagesChunked(table: seq<ImageRow>, queued: seq<ImageRow>): (r: ImageRun)
    ensures |table| <= |r.table|
    decreases |queued|
  {
    if queued == [] then ImageRun(table, false)
    else
      var n := Min(IMAGE_CHUNK, |queued|);
      var next := ImageChunk(table, queued[..n]);
      if next.None? then ImageRun(table, true)
      else ImagesChunked(next.value, queued[n..])
  }

  /** Where the chunk that raises begins, or the length of the queue when
      none does: a multiple of 500. */
  function RaisingChunkStart(queued: seq<ImageRow>): (k: nat)
    ensures k <= |queued|
    decreases |queued|
  {
    if queued == [] then 0
    else
      var n := Min(IMAGE_CHUNK, |queued|);
      if ListUrl(queued[..n]) then 0 else n + RaisingChunkStart(queued[n..])
  }

  // ---------------------------------------------------------------------
  // Slices and the whole import

  datatype BatchOutcome = Raised | Done(tables: Tables, delta: Stats)

  /** The writes of a slice in its transaction. A refused insert is
      caught, but it has broken the transaction: the update queries and the
      image savepoint that follow raise and are caught too, and the
      transaction is rolled back at its end. A chunk of images that raises
      is rolled back to its own savepoint; the exception ends the image
      loop and counts every queued image as an error, and the rest of the
      slice commits. */
  function WriteSpec(t: Tables, toCreate: seq<(Value, ProductValues)>, toUpdate: seq<(Value, ProductValues)>,
                     queued: seq<ImageRow>): BatchOutcome
  {
    if InsertRefused(t.products, toCreate) then Done(t, Stats(0, 0, 0, |toCreate| + |toUpdate| + |queued|, 0))
    else
      var inserted := t.products + LastWins(toCreate);
      var run := ImagesChunked(t.images, queued);
      Done(Tables(ChunkedRows(inserted, toUpdate), run.table),
           Stats(|toCreate|, ChunkedCount(inserted, toUpdate), 0, if run.raised then |queued| else 0,
                 |run.table| - |t.images|))
  }

  /** One slice: a raising record rolls it back and ends the import;
      otherwise its skipped records, then its writes. */
  function BatchSpec(t: Tables, caches: Caches, skipImages: bool, batch: seq<Record>): BatchOutcome
  {
    if AnyRaises(batch, caches, skipImages) then Raised
    else
      var stored := t.products.Keys;
      var written := WriteSpec(t, ToCreate(batch, caches, stored), ToUpdate(batch, caches, stored),
                               Images(batch, caches, skipImages));
      Done(written.tables, written.delta.(skipped := Skipped(batch, caches)))
  }

  /** The slices in order, up to the one that raised. */
  function RunBatches(t: Tables, caches: Caches, skipImages: bool, stats: Stats, batches: seq<seq<Record>>)
    : (Tables, Option<Stats>)
    decreases |batches|
  {
    if batches == [] then (t, Some(stats))
    else
      var outcome := BatchSpec(t, caches, skipImages, batches[0]);
      if outcome.Raised? then (t, None)
      else RunBatches(outcome.tables, caches, skipImages, Plus(stats, outcome.delta), batches[1..])
  }

  /** The whole command, given the stored tables, the caches and the
      decoded file. */
  function ImportSpec(t: Tables, caches: Caches, skipImages: bool, doc: JsonDoc, batchSize: int): (Tables, Report)
  {
    if doc.NotAList? then (t, InvalidFormat)
    else
      var slices := RangeSlices(doc.records, batchSize);
      if slices.None? then (t, Failed)
      else
        var run := RunBatches(t, caches, skipImages, Stats(0, 0, 0, 0, 0), slices.value);
        (run.0, if run.1.Some? then Complete(run.1.value) else Failed)
  }

  // ---------------------------------------------------------------------
  // The partition

  /** Every record of a slice is skipped, sent to the inserts or sent to
      the updates, and to exactly one of them, by whether its product is
      stored. */
  lemma {:induction false} PartitionFacts(batch: seq<Record>, caches: Caches, stored: set<Value>)
    ensures Skipped(batch, caches) + |ToCreate(batch, caches, stored)| + |ToUpdate(batch, caches, stored)| == |batch|
    ensures |ToCreate(batch, caches, stored)| + |ToUpdate(batch, caches, stored)| == |AcceptedPairs(batch, caches)|
    ensures forall i :: 0 <= i < |ToUpdate(batch, caches, stored)| ==> ToUpdate(batch, caches, stored)[i].0 in stored
    ensures forall i :: 0 <= i < |ToCreate(batch, caches, stored)| ==> ToCreate(batch, caches, stored)[i].0 !in stored
  {
    if batch != [] {
      PartitionFacts(batch[..|batch| - 1], caches, stored);
    }
  }

  /** Taken together, the inserts and the updates give every accepted id
      the values of its last record. */
  lemma {:induction false} PartitionLastWins(batch: seq<Record>, caches: Caches, stored: set<Value>)
    ensures LastWins(AcceptedPairs(batch, caches))
         == LastWins(ToCreate(batch, caches, stored)) + LastWins(ToUpdate(batch, caches, stored))
  {
    if batch == [] {
      assert LastWins<Value, ProductValues>([]) + LastWins([]) == map[];
    } else {
      var n := |batch| - 1;
      var r := batch[n];
      var x := PairOf(r);
      var accepted := AcceptedPairs(batch[..n], caches);
      PartitionLastWins(batch[..n], caches, stored);
      var c := ToCreate(batch[..n], caches, stored);
      var u := ToUpdate(batch[..n], caches, stored);
      if !Accepted(r, caches) {
        assert AcceptedPairs(batch, caches) == accepted;
        assert ToCreate(batch, caches, stored) == c && ToUpdate(batch, caches, stored) == u;
      } else {
        assert AcceptedPairs(batch, caches) == accepted + [x];
        LastWinsSnoc(accepted, x);
        if IdOf(r) in stored {
          assert ToUpdate(batch, caches, stored) == u + [x];
          assert ToCreate(batch, caches, stored) == c;
          LastWinsSnoc(u, x);
          UnionUpdateRight(LastWins(c), LastWins(u), x.0, x.1);
        } else {
          PartitionFacts(batch[..n], caches, stored);
          LastWinsKeys(u);
          assert x.0 !in LastWins(u);
          assert ToCreate(batch, caches, stored) == c + [x];
          assert ToUpdate(batch, caches, stored) == u;
          LastWinsSnoc(c, x);
          UnionUpdateLeft(LastWins(c), LastWins(u), x.0, x.1);
        }
      }
    }
  }

  /** The images of consecutive records are queued in record order. */
  lemma {:induction false} ImagesAppend(a: seq<Record>, b: seq<Record>, caches: Caches, skipImages: bool)
    ensures Images(a + b, caches, skipImages) == Images(a, caches, skipImages) + Images(b, caches, skipImages)
    decreases |b|
  {
    if b == [] {
      assert a + b == a;
    } else {
      var n := |b| - 1;
      assert (a + b)[..|a + b| - 1] == a + b[..n];
      assert (a + b)[|a + b| - 1] == b[n];
      ImagesAppend(a, b[..n], caches, skipImages);
      var x, y, z := Images(a, caches, skipImages), Images(b[..n], caches, skipImages), RecordImages(b[n], caches, skipImages);
      assert Images(a + b, caches, skipImages) == (x + y) + z;
      assert Images(b, caches, skipImages) == y + z;
      ConcatAssoc(x, y, z);
    }
  }

  /** With images skipped, a slice queues no image. */
  lemma {:induction false} SkipImagesQueuesNothing(batch: seq<Record>, caches: Caches)
    ensures Images(batch, caches, true) == []
  {
    if batch != [] {
      SkipImagesQueuesNothing(batch[..|batch| - 1], caches);
    }
  }

  /** A raising record anywhere in the file makes the file raise. */
  lemma {:induction false} AnyRaisesAppend(a: seq<Record>, b: seq<Record>, caches: Caches, skipImages: bool)
    ensures AnyRaises(a + b, caches, skipImages) <==> AnyRaises(a, caches, skipImages) || AnyRaises(b, caches, skipImages)
    decreases |b|
  {
    if b == [] {
      assert a + b == a;
    } else {
      var n := |b| - 1;
      assert (a + b)[..|a + b| - 1] == a + b[..n];
      AnyRaisesAppend(a, b[..n], caches, skipImages);
    }
  }

  lemma {:induction false} SkippedAppend(a: seq<Record>, b: seq<Record>, caches: Caches)
    ensures Skipped(a + b, caches) == Skipped(a, caches) + Skipped(b, caches)
    decreases |b|
  {
    if b == [] {
      assert a + b == a;
    } else {
      var n := |b| - 1;
      assert (a + b)[..|a + b| - 1] == a + b[..n];
      SkippedAppend(a, b[..n], caches);
    }
  }

  // ---------------------------------------------------------------------
  // Images

  /** A list-valued URL in two queues put together is one in either. */
  lemma ListUrlAppend(a: seq<ImageRow>, b: seq<ImageRow>)
    ensures ListUrl(a + b) <==> ListUrl(a) || ListUrl(b)
  {
    if ListUrl(a + b) {
      var i :| 0 <= i < |a + b| && Unhashable((a + b)[i].1);
      if i < |a| {
        assert Unhashable(a[i].1);
      } else {
        assert Unhashable(b[i - |a|].1);
      }
    }
    if ListUrl(a) {
      var i :| 0 <= i < |a| && Unhashable(a[i].1);
      assert (a + b)[i] == a[i];
    }
    if ListUrl(b) {
      var i :| 0 <= i < |b| && Unhashable(b[i].1);
      assert (a + b)[|a| + i] == b[i];
    }
  }

  /** The membership test raises exactly on a chunk holding a list-valued
      URL; otherwise the new images of the chunk are its images that the
      query did not return, and only those. */
  lemma {:induction false} NewImagesMembers(stored: set<ImageRow>, chunk: seq<ImageRow>)
    ensures NewImages(stored, chunk).None? <==> ListUrl(chunk)
    ensures NewImages(stored, chunk).Some? ==>
      forall p :: p in NewImages(stored, chunk).value <==> p in chunk && p !in stored
  {
    if chunk != [] {
      var n := |chunk| - 1;
      NewImagesMembers(stored, chunk[..n]);
      assert chunk == chunk[..n] + [chunk[n]];
      ListUrlAppend(chunk[..n], [chunk[n]]);
      assert ListUrl([chunk[n]]) <==> Unhashable(chunk[n].1) by {
        if Unhashable(chunk[n].1) {
          assert [chunk[n]][0] == chunk[n];
        }
      }
    }
  }

  /** Restricting the query to the chunk's products loses nothing: an
      image of the chunk is returned exactly when it is stored. */
  lemma StoredForChunk(table: seq<ImageRow>, chunk: seq<ImageRow>)
    ensures forall p :: p in chunk ==> (p in StoredFor(table, chunk) <==> p in table)
  {
    forall p | p in chunk ensures p.0 in ChunkIds(chunk) {
    }
  }

  /** A chunk raises exactly when it holds a list-valued URL, and then
      appends nothing; otherwise it appends to the image table exactly its
      images that are not stored yet: a stored image is never queued for
      creation again. */
  lemma ImageChunkAppends(table: seq<ImageRow>, chunk: seq<ImageRow>)
    ensures ImageChunk(table, chunk).None? <==> ListUrl(chunk)
    ensures ImageChunk(table, chunk).Some? ==> ImageChunk(table, chunk).value[..|table|] == table
    ensures ImageChunk(table, chunk).Some? ==>
      forall p :: p in ImageChunk(table, chunk).value[|table|..] <==> p in chunk && p !in table
  {
    NewImagesMembers(StoredFor(table, chunk), chunk);
    StoredForChunk(table, chunk);
    if ImageChunk(table, chunk).Some? {
      assert ImageChunk(table, chunk).value[|table|..] == NewImages(StoredFor(table, chunk), chunk).value;
    }
  }

  /** After the chunks, the image table keeps what it held; a chunk raised
      exactly when some queued URL is a list, and when none did the table
      holds every queued image, and nothing else. */
  lemma {:induction false} ImagesChunkedFacts(table: seq<ImageRow>, queued: seq<ImageRow>)
    ensures |table| <= |ImagesChunked(table, queued).table|
    ensures ImagesChunked(table, queued).table[..|table|] == table
    ensures ImagesChunked(table, queued).raised <==> ListUrl(queued)
    ensures !ImagesChunked(table, queued).raised ==>
      forall p :: p in ImagesChunked(table, queued).table <==> p in table || p in queued
    decreases |queued|
  {
    if queued != [] {
      var n := Min(IMAGE_CHUNK, |queued|);
      assert queued == queued[..n] + queued[n..];
      ListUrlAppend(queued[..n], queued[n..]);
      ImageChunkAppends(table, queued[..n]);
      if !ListUrl(queued[..n]) {
        var t1 := ImageChunk(table, queued[..n]).value;
        ImagesChunkedFacts(t1, queued[n..]);
        var result := ImagesChunked(t1, queued[n..]).table;
        assert result[..|table|] == table by {
          assert result[..|table|] == result[..|t1|][..|table|];
        }
        forall p ensures p in t1 <==> p in table || p in queued[..n] {
          assert t1 == t1[..|table|] + t1[|table|..];
        }
      }
    }
  }

  /** The chunk that raises begins at a multiple of 500 and holds a
      list-valued URL, and no image before it has one. */
  lemma {:induction false} RaisingChunkStartFacts(queued: seq<ImageRow>)
    ensures var k := RaisingChunkStart(queued);
      && !ListUrl(queued[..k])
      && (k < |queued| ==> k % IMAGE_CHUNK == 0 && ListUrl(queued[k..k + Min(IMAGE_CHUNK, |queued| - k)]))
    decreases |queued|
  {
    if queued != [] {
      var n := Min(IMAGE_CHUNK, |queued|);
      if !ListUrl(queued[..n]) {
        var rest := queued[n..];
        RaisingChunkStartFacts(rest);
        var k' := RaisingChunkStart(rest);
        SliceAfter(queued, n, k');
        ListUrlAppend(queued[..n], rest[..k']);
        if n + k' < |queued| {
          assert n == IMAGE_CHUNK;
          assert (IMAGE_CHUNK + k') % IMAGE_CHUNK == k' % IMAGE_CHUNK;
          SliceWithin(queued, n, k', Min(IMAGE_CHUNK, |rest| - k'));
        }
      }
    }
  }

  /** Which images the loop stores: those of the chunks before the one that
      raises (`RaisingChunkStartFacts`), and the loop raised exactly when
      there is such a chunk. */
  lemma {:induction false} ImagesChunkedStored(table: seq<ImageRow>, queued: seq<ImageRow>)
    ensures ImagesChunked(table, queued).raised <==> RaisingChunkStart(queued) < |queued|
    ensures forall p :: p in ImagesChunked(table, queued).table
                   <==> p in table || p in queued[..RaisingChunkStart(queued)]
    decreases |queued|
  {
    if queued != [] {
      var n := Min(IMAGE_CHUNK, |queued|);
      var c := queued[..n];
      ImageChunkAppends(table, c);
      if !ListUrl(c) {
        var rest := queued[n..];
        var t1 := ImageChunk(table, c).value;
        ImagesChunkedStored(t1, rest);
        RaisingChunkStartFacts(rest);
        var k' := RaisingChunkStart(rest);
        SliceAfter(queued, n, k');
        forall p ensures p in t1 <==> p in table || p in c {
          assert t1 == t1[..|table|] + t1[|table|..];
        }
      }
    }
  }

  lemma SliceAfter<T>(s: seq<T>, n: nat, k: nat)
    requires n + k <= |s|
    ensures s[..n + k] == s[..n] + s[n..][..k]
  {
  }

  lemma SliceWithin<T>(s: seq<T>, n: nat, k: nat, m: nat)
    requires n + k + m <= |s|
    ensures s[n + k..n + k + m] == s[n..][k..k + m]
  {
  }

  lemma ImagesChunkedStep(table: seq<ImageRow>, queued: seq<ImageRow>, n: nat)
    requires queued != [] && n == Min(IMAGE_CHUNK, |queued|)
    ensures ImagesChunked(table, queued)
         == if ImageChunk(table, queued[..n]).None? then ImageRun(table, true)
            else ImagesChunked(ImageChunk(table, queued[..n]).value, queued[n..])
  {
  }

  // ---------------------------------------------------------------------
  // One slice

  /** A slice whose insert goes through leaves every accepted product with
      the values of its last record and every other product as it was, and
      runs the image loop over the queued images: when no queued URL is a
      list, it stores every queued image and counts no error; otherwise
      every queued image counts as an error. */
  lemma BatchCommitted(t: Tables, caches: Caches, skipImages: bool, batch: seq<Record>)
    requires !AnyRaises(batch, caches, skipImages)
    requires !InsertRefused(t.products, ToCreate(batch, caches, t.products.Keys))
    ensures var outcome := BatchSpec(t, caches, skipImages, batch);
      var queued := Images(batch, caches, skipImages);
      && outcome.tables.products == t.products + LastWins(AcceptedPairs(batch, caches))
      && outcome.tables.images == ImagesChunked(t.images, queued).table
      && outcome.delta.created == |ToCreate(batch, caches, t.products.Keys)|
      && outcome.delta.errors == (if ListUrl(queued) then |queued| else 0)
      && (!ListUrl(queued) ==> forall p :: p in outcome.tables.images <==> p in t.images || p in queued)
  {
    var stored := t.products.Keys;
    var c := ToCreate(batch, caches, stored);
    var u := ToUpdate(batch, caches, stored);
    var inserted := t.products + LastWins(c);
    assert Ids(u) <= inserted.Keys by {
      PartitionFacts(batch, caches, stored);
    }
    ChunkedUpdateStored(inserted, u);
    PartitionLastWins(batch, caches, stored);
    UnionAssoc(t.products, LastWins(c), LastWins(u));
    ImagesChunkedFacts(t.images, Images(batch, caches, skipImages));
  }

  /** A slice whose insert is refused changes neither table and counts as
      errors every product it would have written and every image it
      queued. */
  lemma BatchRefused(t: Tables, caches: Caches, skipImages: bool, batch: seq<Record>)
    requires !AnyRaises(batch, caches, skipImages)
    requires InsertRefused(t.products, ToCreate(batch, caches, t.products.Keys))
    ensures BatchSpec(t, caches, skipImages, batch)
         == Done(t, Stats(0, 0, Skipped(batch, caches),
                          |AcceptedPairs(batch, caches)| + |Images(batch, caches, skipImages)|, 0))
  {
    PartitionFacts(batch, caches, t.products.Keys);
  }

  // ---------------------------------------------------------------------
  // The whole import

  /** The first slice runs in its transaction; when it raised the import
      ends there, the tables as they were, and otherwise the slices after it
      go on from the tables and counters it left. */
  lemma Advance(caches: Caches, skipImages: bool, rest: seq<Record>, k: nat, t: Tables, stats: Stats)
    requires k > 0 && rest != []
    ensures var outcome := BatchSpec(t, caches, skipImages, rest[..Min(k, |rest|)]);
      RunBatches(t, caches, skipImages, stats, Chunks(rest, k))
        == if outcome.Raised? then (t, None)
           else RunBatches(outcome.tables, caches, skipImages, Plus(stats, outcome.delta), Chunks(rest[Min(k, |rest|)..], k))
  {
    var tail := Chunks(rest[Min(k, |rest|)..], k);
    assert Chunks(rest, k) == [rest[..Min(k, |rest|)]] + tail;
    assert ([rest[..Min(k, |rest|)]] + tail)[1..] == tail;
  }

  /** The slices run to the end exactly when no record of any of them
      raises, and the skipped counter then counts every record the command
      does not write. */
  lemma {:induction false} RunBatchesOutcome(t: Tables, caches: Caches, skipImages: bool, stats: Stats,
                                             batches: seq<seq<Record>>)
    ensures RunBatches(t, caches, skipImages, stats, batches).1.Some?
        <==> !AnyRaises(Flatten(batches), caches, skipImages)
    ensures RunBatches(t, caches, skipImages, stats, batches).1.Some? ==>
      RunBatches(t, caches, skipImages, stats, batches).1.value.skipped
        == stats.skipped + Skipped(Flatten(batches), caches)
    decreases |batches|
  {
    if batches != [] {
      AnyRaisesAppend(batches[0], Flatten(batches[1..]), caches, skipImages);
      var outcome := BatchSpec(t, caches, skipImages, batches[0]);
      if outcome.Done? {
        RunBatchesOutcome(outcome.tables, caches, skipImages, Plus(stats, outcome.delta), batches[1..]);
        SkippedAppend(batches[0], Flatten(batches[1..]), caches);
      }
    }
  }

  /** A file that is a list runs to the end exactly when the batch size is
      not zero and no record raises; a negative batch size gives no slice
      at all. */
  lemma ImportOutcome(t: Tables, caches: Caches, skipImages: bool, records: seq<Record>, batchSize: int)
    ensures batchSize == 0 ==> ImportSpec(t, caches, skipImages, JsonList(records), batchSize) == (t, Failed)
    ensures batchSize < 0 ==>
      ImportSpec(t, caches, skipImages, JsonList(records), batchSize) == (t, Complete(Stats(0, 0, 0, 0, 0)))
    ensures batchSize > 0 ==>
      (ImportSpec(t, caches, skipImages, JsonList(records), batchSize).1.Complete? <==> !AnyRaises(records, caches, skipImages))
    ensures batchSize > 0 && ImportSpec(t, caches, skipImages, JsonList(records), batchSize).1.Complete? ==>
      ImportSpec(t, caches, skipImages, JsonList(records), batchSize).1.stats.skipped == Skipped(records, caches)
  {
    if batchSize > 0 {
      ChunksCover(records, batchSize);
      RunBatchesOutcome(t, caches, skipImages, Stats(0, 0, 0, 0, 0), Chunks(records, batchSize));
    }
  }

  /** A file that is not a list imports nothing. */
  lemma NotAListImportsNothing(t: Tables, caches: Caches, skipImages: bool, batchSize: int)
    ensures ImportSpec(t, caches, skipImages, NotAList, batchSize) == (t, InvalidFormat)
  {
  }

  // ---------------------------------------------------------------------
  // The command

  class ProductStore {
    var products: ProductRows
    var images: seq<ImageRow>

    constructor(initialProducts: ProductRows, initialImages: seq<ImageRow>)
      ensures products == initialProducts && images == initialImages
    {
      products := initialProducts;
      images := initialImages;
    }

    /** The images queued by one record: its main image when truthy, then
        its extra images, iterated in order. */
    static method QueueRecordImages(r: Record) returns (ok: bool, queued: seq<ImageRow>)
      requires "id" in r
      ensures ok == RecordUrls(r).Some?
      ensures ok ==> queued == WithId(r["id"], RecordUrls(r).value)
    {
      var id := r["id"];
      var main: seq<Value> := [];
      queued := [];
      if Truthy(Get(r, "image_url", VNull)) {
        main := [r["image_url"]];
        queued := [(id, r["image_url"])];
      }
      var extra := Iterated(Get(r, "extra_images", VList([])));
      if extra.None? {
        // Iterating the value raises a TypeError.
        return false, queued;
      }
      var urls := extra.value;
      var j := 0;
      while j < |urls|
        invariant j <= |urls|
        invariant queued == WithId(id, main + urls[..j])
      {
        assert main + urls[..j + 1] == (main + urls[..j]) + [urls[j]];
        queued := queued + [(id, urls[j])];
        j := j + 1;
      }
      assert urls[..j] == urls;
      ok := true;
    }

    /** One record of the first loop of `_process_batch`: the validation,
        then `float` on the price, then the queued images; `raises` says
        whether one of them raised. */
    static method Admit(r: Record, caches: Caches, skipImages: bool) returns (raises: bool, recordImages: seq<ImageRow>)
      ensures raises == Raises(r, caches, skipImages)
      ensures !raises ==> recordImages == RecordImages(r, caches, skipImages)
    {
      recordImages := [];
      if !Accepted(r, caches) {
        return false, recordImages;
      }
      if !PriceParses(Get(r, "price", VInt(0))) {
        // `float` raises.
        return true, recordImages;
      }
      if Unhashable(IdOf(r)) {
        // The lookup by a list id raises `TypeError`, not `DoesNotExist`.
        return true, recordImages;
      }
      if !skipImages {
        var urlsOk;
        urlsOk, recordImages := QueueRecordImages(r);
        if !urlsOk {
          return true, recordImages;
        }
      }
      raises := false;
    }

    /** The first loop of `_process_batch`: validation, the lookup of the
        product, and the queued images. `ok` is false when a record
        raised. */
    static method Partition(batch: seq<Record>, caches: Caches, skipImages: bool, stored: set<Value>)
      returns (ok: bool, toCreate: seq<(Value, ProductValues)>, toUpdate: seq<(Value, ProductValues)>,
               queued: seq<ImageRow>, skipped: nat)
      ensures ok == !AnyRaises(batch, caches, skipImages)
      ensures ok ==> toCreate == ToCreate(batch, caches, stored) && toUpdate == ToUpdate(batch, caches, stored)
                     && queued == Images(batch, caches, skipImages) && skipped == Skipped(batch, caches)
    {
      toCreate, toUpdate, queued, skipped := [], [], [], 0;
      var i := 0;
      while i < |batch|
        invariant i <= |batch|
        invariant !AnyRaises(batch[..i], caches, skipImages)
        invariant toCreate == ToCreate(batch[..i], caches, stored)
        invariant toUpdate == ToUpdate(batch[..i], caches, stored)
        invariant queued == Images(batch[..i], caches, skipImages)
        invariant skipped == Skipped(batch[..i], caches)
      {
        var r := batch[i];
        PartitionStep(batch, caches, skipImages, stored, i);
        var raises, recordImages := Admit(r, caches, skipImages);
        if raises {
          RaisingPrefix(batch, i + 1, caches, skipImages);
          return false, toCreate, toUpdate, queued, skipped;
        }
        if !Accepted(r, caches) {
          skipped := skipped + 1;
        } else if IdOf(r) in stored {
          toUpdate := toUpdate + [PairOf(r)];
        } else {
          toCreate := toCreate + [PairOf(r)];
        }
        queued := queued + recordImages;
        i := i + 1;
      }
      assert batch[..i] == batch;
      ok := true;
    }

    /** `_process_image_batch` for one chunk: the query for the stored
        images of its products, then the insert of the others, in a
        savepoint; `ok` is false when the membership test raised, and the
        savepoint is then rolled back. */
    method ProcessImageChunk(chunk: seq<ImageRow>) returns (ok: bool, added: nat)
      modifies this
      ensures products == old(products)
      ensures ImageChunk(old(images), chunk) == if ok then Some(images) else None
      ensures !ok ==> images == old(images)
      ensures added == |images| - |old(images)|
    {
      var stored := StoredFor(images, chunk);
      var newImages: seq<ImageRow> := [];
      var j := 0;
      while j < |chunk|
        invariant j <= |chunk|
        invariant NewImages(stored, chunk[..j]) == Some(newImages)
      {
        assert chunk[..j + 1][..j] == chunk[..j] && chunk[..j + 1][j] == chunk[j];
        if Unhashable(chunk[j].1) {
          // Hashing the pair raises `TypeError`.
          NewImagesRaise(stored, chunk, j + 1);
          return false, 0;
        }
        var kept := if chunk[j] in stored then [] else [chunk[j]];
        assert NewImages(stored, chunk[..j + 1]) == Some(newImages + kept);
        newImages := newImages + kept;
        j := j + 1;
      }
      assert chunk[..j] == chunk;
      images := images + newImages;
      ok, added := true, |newImages|;
    }

    /** The image loop of `_process_batch`: chunks of 500 queued images;
        `raised` says whether a chunk raised and ended it. */
    method ProcessImages(queued: seq<ImageRow>) returns (raised: bool, added: nat)
      modifies this
      ensures products == old(products)
      ensures ImagesChunked(old(images), queued) == ImageRun(images, raised)
      ensures added == |images| - |old(images)|
    {
      added := 0;
      var i := 0;
      while i < |queued|
        invariant i <= |queued|
        invariant products == old(products)
        invariant ImagesChunked(old(images), queued) == ImagesChunked(images, queued[i..])
        invariant |old(images)| <= |images| && added == |images| - |old(images)|
        decreases |queued| - i
      {
        var n := Min(IMAGE_CHUNK, |queued| - i);
        var chunk := queued[i..i + n];
        ImagesChunkedStep(images, queued[i..], n);
        assert queued[i..][..n] == chunk && queued[i..][n..] == queued[i + n..];
        var ok, more := ProcessImageChunk(chunk);
        if !ok {
          return true, added;
        }
        added := added + more;
        i := i + n;
      }
      assert queued[i..] == [];
      raised := false;
    }

    /** The writes of `_process_batch` inside the slice's transaction. */
    method Write(toCreate: seq<(Value, ProductValues)>, toUpdate: seq<(Value, ProductValues)>, queued: seq<ImageRow>)
      returns (created: nat, updated: nat, errors: nat, added: nat)
      modifies this
      ensures WriteSpec(old(Tables(products, images)), toCreate, toUpdate, queued)
           == Done(Tables(products, images), Stats(created, updated, 0, errors, added))
    {
      var saved := products;
      created, updated, errors, added := 0, 0, 0, 0;
      var broken := false;
      if toCreate != [] {
        if InsertRefused(products, toCreate) {
          // The IntegrityError is caught, but the transaction is broken.
          errors := errors + |toCreate|;
          broken := true;
        } else {
          products := products + LastWins(toCreate);
          created := |toCreate|;
        }
      } else {
        assert !InsertRefused(products, toCreate) by {
          assert Ids(toCreate) == {};
        }
        assert products + LastWins(toCreate) == products;
      }
      if toUpdate != [] {
        if broken {
          // The first query of the update loop raises and is caught.
          errors := errors + |toUpdate|;
        } else {
          products, updated := UpdateInChunks(products, toUpdate);
        }
      }
      // The queue is empty when images are skipped.
      if queued != [] {
        if broken {
          // The first query inside the image block raises and is caught.
          errors := errors + |queued|;
        } else {
          var raised;
          raised, added := ProcessImages(queued);
          if raised {
            // The exception of the chunk is caught around the loop.
            errors := errors + |queued|;
          }
        }
      }
      if broken {
        // The transaction is rolled back when its block ends.
        products := saved;
      }
    }

    /** `_process_batch`. */
    method ProcessBatch(batch: seq<Record>, caches: Caches, skipImages: bool, stats: Stats)
      returns (ok: bool, next: Stats)
      modifies this
      ensures var outcome := BatchSpec(old(Tables(products, images)), caches, skipImages, batch);
        if outcome.Raised? then !ok && Tables(products, images) == old(Tables(products, images))
        else ok && Tables(products, images) == outcome.tables && next == Plus(stats, outcome.delta)
    {
      var toCreate, toUpdate, queued, skipped;
      ok, toCreate, toUpdate, queued, skipped := Partition(batch, caches, skipImages, products.Keys);
      if !ok {
        return false, stats;
      }
      var created, updated, errors, added := Write(toCreate, toUpdate, queued);
      next := Stats(stats.created + created, stats.updated + updated, stats.skipped + skipped,
                    stats.errors + errors, stats.imagesProcessed + added);
    }

    /** The next slice of `batch_size` records, in its transaction, after
        the slices before it: `total` is what the whole loop leaves. */
    method SendSlice(ghost total: (Tables, Option<Stats>), caches: Caches, skipImages: bool, rest: seq<Record>,
                     batchSize: nat, stats: Stats) returns (ok: bool, next: Stats)
      requires batchSize > 0 && rest != []
      requires total == RunBatches(Tables(products, images), caches, skipImages, stats, Chunks(rest, batchSize))
      modifies this
      ensures ok ==> total == RunBatches(Tables(products, images), caches, skipImages, next,
                                         Chunks(rest[Min(batchSize, |rest|)..], batchSize))
      ensures !ok ==> total == (Tables(products, images), None)
    {
      Advance(caches, skipImages, rest, batchSize, Tables(products, images), stats);
      var batch := rest[..Min(batchSize, |rest|)];
      ok, next := ProcessBatch(batch, caches, skipImages, stats);
    }

    /** The loop of `handle` over the slices, with a positive step; a slice
        that raises ends it. */
    method RunSlices(caches: Caches, skipImages: bool, records: seq<Record>, batchSize: nat)
      returns (ok: bool, stats: Stats)
      requires batchSize > 0
      modifies this
      ensures RunBatches(old(Tables(products, images)), caches, skipImages, Stats(0, 0, 0, 0, 0), Chunks(records, batchSize))
           == (Tables(products, images), if ok then Some(stats) else None)
    {
      ghost var total := RunBatches(Tables(products, images), caches, skipImages, Stats(0, 0, 0, 0, 0),
                                    Chunks(records, batchSize));
      stats := Stats(0, 0, 0, 0, 0);
      // The records from the start of the next slice on.
      var rest := records;
      while rest != []
        invariant total == RunBatches(Tables(products, images), caches, skipImages, stats, Chunks(rest, batchSize))
        decreases |rest|
      {
        ok, stats := SendSlice(total, caches, skipImages, rest, batchSize, stats);
        if !ok {
          return;
        }
        rest := rest[Min(batchSize, |rest|)..];
      }
      ok := true;
    }

    /** `handle`: the slices `records[i:i + batch_size]` for `i` in
        `range(0, len(records), batch_size)`, and the summary. */
    method Handle(caches: Caches, skipImages: bool, doc: JsonDoc, batchSize: int) returns (report: Report)
      modifies this
      ensures (Tables(products, images), report) == ImportSpec(old(Tables(products, images)), caches, skipImages, doc, batchSize)
    {
      if doc.NotAList? {
        return InvalidFormat;
      }
      var records := doc.records;
      if batchSize == 0 {
        // `range` raises before the first slice.
        return Failed;
      }
      var stats := Stats(0, 0, 0, 0, 0);
      // With a negative step `range` is empty and no slice runs.
      if batchSize > 0 {
        var ok;
        ok, stats := RunSlices(caches, skipImages, records, batchSize);
        if !ok {
          return Failed;
        }
      }
      report := Complete(stats);
    }
  }

  /** The partition of a slice one record longer: the record's own share
      is appended to each part. */
  lemma PartitionStep(batch: seq<Record>, caches: Caches, skipImages: bool, stored: set<Value>, i: nat)
    requires i < |batch|
    ensures var r := batch[i];
      && AnyRaises(batch[..i + 1], caches, skipImages) == (AnyRaises(batch[..i], caches, skipImages) || Raises(r, caches, skipImages))
      && Skipped(batch[..i + 1], caches) == Skipped(batch[..i], caches) + (if Accepted(r, caches) then 0 else 1)
      && ToCreate(batch[..i + 1], caches, stored)
         == ToCreate(batch[..i], caches, stored) + (if Accepted(r, caches) && IdOf(r) !in stored then [PairOf(r)] else [])
      && ToUpdate(batch[..i + 1], caches, stored)
         == ToUpdate(batch[..i], caches, stored) + (if Accepted(r, caches) && IdOf(r) in stored then [PairOf(r)] else [])
      && Images(batch[..i + 1], caches, skipImages) == Images(batch[..i], caches, skipImages) + RecordImages(r, caches, skipImages)
  {
    assert batch[..i + 1][..i] == batch[..i] && batch[..i + 1][i] == batch[i];
  }

  lemma RaisingPrefix(batch: seq<Record>, i: nat, caches: Caches, skipImages: bool)
    requires 0 < i <= |batch| && Raises(batch[i - 1], caches, skipImages)
    ensures AnyRaises(batch, caches, skipImages)
  {
    assert batch[..i][i - 1] == batch[i - 1];
    assert batch == batch[..i] + batch[i..];
    AnyRaisesAppend(batch[..i], batch[i..], caches, skipImages);
  }


  /** A chunk whose first `j` images reach a list-valued URL raises. */
  lemma NewImagesRaise(stored: set<ImageRow>, chunk: seq<ImageRow>, j: nat)
    requires 0 < j <= |chunk| && Unhashable(chunk[j - 1].1)
    ensures NewImages(stored, chunk) == None
  {
    assert chunk[..j][j - 1] == chunk[j - 1];
    assert chunk == chunk[..j] + chunk[j..];
    ListUrlAppend(chunk[..j], chunk[j..]);
    NewImagesMembers(stored, chunk);
  }

}
