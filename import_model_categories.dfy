/** The `import_model_categories` command: category records from a JSON
    list are cut into slices, and each slice is written in one
    transaction. A record needs an id, a name and the id of a stored
    product model; its category is created or updated with a description
    built from the model, and the model is linked to the category. A slice
    that raises is abandoned and the import goes on with the next one.

    Two defects of the command as written are modelled beside the
    corrected behaviour the rest of the module uses: a slice that both
    creates and updates categories raises while it re-keys its groups, and
    a model listed twice for one category makes the link insert fail,
    which silently rolls back the slice while its counts are still
    added. */
module ImportModelCategories {
  import opened Common
  import opened ImportCommon

  /** A stored product model: its primary key and the names the
      description is built from. */
  datatype ModelInfo = ModelInfo(pk: nat, brandName: string, name: string)

  /** Stored product models by their `model_id`. */
  type ModelTable = map<Value, ModelInfo>

  /** The columns the import sets on a category. */
  datatype CategoryValues = CategoryValues(name: Value, description: string)

  /** Stored categories by their `category_id`. */
  type CategoryRows = map<Value, CategoryValues>

  /** The rows of the category-to-model relation: the category id and the
      model's primary key. */
  type Links = set<(Value, nat)>

  datatype Tables = Tables(categories: CategoryRows, links: Links)

  datatype Counts = Counts(created: nat, updated: nat)

  /** What the command reports: the format error, the error message of an
      exception outside the slices, or the closing line. */
  datatype Report = InvalidFormat | Failed | Complete(created: nat, updated: nat, total: nat)

  function Add(a: Counts, b: Counts): Counts
  {
    Counts(a.created + b.created, a.updated + b.updated)
  }

  // ---------------------------------------------------------------------
  // One record

  predicate HasRequired(r: Record)
  {
    "id" in r && "name" in r && "model_id" in r
  }

  /** A record the command writes: complete, and naming a stored model. */
  predicate Accepted(r: Record, models: ModelTable)
  {
    HasRequired(r) && r["model_id"] in models
  }

  function IdOf(r: Record): Value { Get(r, "id", VNull) }

  /** The description of a category built from its model. */
  function Description(m: ModelInfo): string
  {
    "Category for " + m.brandName + " " + m.name
  }

  function ValuesOf(r: Record, models: ModelTable): CategoryValues
    requires Accepted(r, models)
  {
    CategoryValues(r["name"], Description(models[r["model_id"]]))
  }

  function PkOf(r: Record, models: ModelTable): nat
    requires Accepted(r, models)
  {
    models[r["model_id"]].pk
  }

  /** The `model_id` values of a slice, gathered in a set before the
      records are read. */
  function ModelIds(batch: seq<Record>): set<Value>
  {
    set i | 0 <= i < |batch| && "model_id" in batch[i] :: batch[i]["model_id"]
  }

  /** `prefetched` holds the stored models among those the slice names,
      as they are stored. */
  predicate Prefetched(batch: seq<Record>, models: ModelTable, prefetched: ModelTable)
  {
    && (forall m :: m in prefetched ==> m in models && prefetched[m] == models[m])
    && (forall i :: 0 <= i < |batch| && "model_id" in batch[i] && batch[i]["model_id"] in models ==>
          batch[i]["model_id"] in prefetched)
  }

  /** Gathering the model ids raises when one of them is a list, which
      cannot go in a set. */
  predicate AnyUnhashable(batch: seq<Record>)
  {
    exists i :: 0 <= i < |batch| && "model_id" in batch[i] && batch[i]["model_id"].VList?
  }

  /** An accepted record has a list for its category id: the key it is
      grouped under cannot be hashed, so the partition raises. */
  predicate AnyListCategoryId(batch: seq<Record>, models: ModelTable)
  {
    exists i :: 0 <= i < |batch| && Accepted(batch[i], models) && Unhashable(IdOf(batch[i]))
  }

  // ---------------------------------------------------------------------
  // The partition of a slice

  function AcceptedCount(batch: seq<Record>, models: ModelTable): nat
  {
    if batch == [] then 0
    else
      var n := |batch| - 1;
      AcceptedCount(batch[..n], models) + (if Accepted(batch[n], models) then 1 else 0)
  }

  /** The categories to create: accepted records whose category is not
      stored. */
  function ToCreate(batch: seq<Record>, models: ModelTable, stored: set<Value>): seq<(Value, CategoryValues)>
  {
    if batch == [] then []
    else
      var n := |batch| - 1;
      var r := batch[n];
      ToCreate(batch[..n], models, stored)
        + (if Accepted(r, models) && IdOf(r) !in stored then [(IdOf(r), ValuesOf(r, models))] else [])
  }

  /** The categories to update: accepted records whose category is
      stored. */
  function ToUpdate(batch: seq<Record>, models: ModelTable, stored: set<Value>): seq<(Value, CategoryValues)>
  {
    if batch == [] then []
    else
      var n := |batch| - 1;
      var r := batch[n];
      ToUpdate(batch[..n], models, stored)
        + (if Accepted(r, models) && IdOf(r) in stored then [(IdOf(r), ValuesOf(r, models))] else [])
  }

  /** The `category_models` dictionary: for every category of the slice,
      the primary keys of the models its records name. A stored category
      is keyed by its primary key and a new one by `None`, next to the
      category id, so the keys of one slice correspond one to one to its
      category ids. */
  function GroupMap(batch: seq<Record>, models: ModelTable): map<Value, seq<nat>>
  {
    if batch == [] then map[]
    else
      var n := |batch| - 1;
      var r := batch[n];
      var groups := GroupMap(batch[..n], models);
      if !Accepted(r, models) then groups
      else groups[IdOf(r) := (if IdOf(r) in groups then groups[IdOf(r)] else []) + [PkOf(r, models)]]
  }

  /** The keys of `category_models` in insertion order. */
  function GroupOrder(batch: seq<Record>, models: ModelTable): seq<Value>
  {
    if batch == [] then []
    else
      var n := |batch| - 1;
      var r := batch[n];
      var order := GroupOrder(batch[..n], models);
      if Accepted(r, models) && IdOf(r) !in order then order + [IdOf(r)] else order
  }

  /** The models named by the accepted records of one category, in input
      order. */
  function ModelPks(batch: seq<Record>, models: ModelTable, cid: Value): seq<nat>
  {
    if batch == [] then []
    else
      var n := |batch| - 1;
      var r := batch[n];
      ModelPks(batch[..n], models, cid) + (if Accepted(r, models) && IdOf(r) == cid then [PkOf(r, models)] else [])
  }

  // ---------------------------------------------------------------------
  // Updates

  /** How many categories `bulk_update` writes per statement. */
  const UPDATE_BATCH: nat := 1000

  /** One `UPDATE ... CASE WHEN` statement: when an object repeats, the
      first `WHEN` for its key gives the value. */
  function FirstWins<K(==), V>(pairs: seq<(K, V)>): map<K, V>
  {
    if pairs == [] then map[] else FirstWins(pairs[1..])[pairs[0].0 := pairs[0].1]
  }

  /** `bulk_update` in statements of 1000 objects. */
  function UpdateChunked(rows: CategoryRows, pending: seq<(Value, CategoryValues)>): CategoryRows
    decreases |pending|
  {
    if pending == [] then rows
    else
      var n := Min(UPDATE_BATCH, |pending|);
      UpdateChunked(rows + FirstWins(pending[..n]), pending[n..])
  }

  // ---------------------------------------------------------------------
  // Links

  /** The models already linked to a category. */
  function Linked(links: Links, cid: Value): set<nat>
  {
    set p | p in links && p.0 == cid :: p.1
  }

  /** The model ids queued for one category as written: those not linked
      yet, repeats kept. */
  function QueuedAsWritten(group: seq<nat>, linked: set<nat>): seq<nat>
  {
    if group == [] then []
    else
      var n := |group| - 1;
      QueuedAsWritten(group[..n], linked) + (if group[n] in linked then [] else [group[n]])
  }

  /** The model ids queued for one category, each once. */
  function Queued(group: seq<nat>, linked: set<nat>): seq<nat>
  {
    if group == [] then []
    else
      var n := |group| - 1;
      var queued := Queued(group[..n], linked);
      queued + (if group[n] in linked || group[n] in queued then [] else [group[n]])
  }

  predicate HasRepeat(s: seq<nat>)
  {
    exists i, j :: 0 <= i < j < |s| && s[i] == s[j]
  }

  /** Every pair of a category of the slice with one of its models. */
  function GroupPairs(groups: map<Value, seq<nat>>): Links
  {
    set cid, pk | cid in groups.Keys && pk in groups[cid] :: (cid, pk)
  }

  /** The pairs of the categories among `keys`. */
  function PairsOf(groups: map<Value, seq<nat>>, keys: seq<Value>): Links
  {
    set cid, pk | cid in keys && cid in groups.Keys && pk in groups[cid] :: (cid, pk)
  }

  /** As written, a repeated queued model makes the link insert fail for
      the unique pair of the relation table. */
  predicate LinkInsertFails(groups: map<Value, seq<nat>>, links: Links)
  {
    exists cid :: cid in groups && HasRepeat(QueuedAsWritten(groups[cid], Linked(links, cid)))
  }

  // ---------------------------------------------------------------------
  // Slices and the whole import

  datatype BatchOutcome = Raised | Done(tables: Tables, counts: Counts)

  /** The tables once a slice's categories and links are written. */
  function Written(t: Tables, batch: seq<Record>, models: ModelTable): Tables
  {
    var stored := t.categories.Keys;
    Tables(UpdateChunked(t.categories + LastWins(ToCreate(batch, models, stored)), ToUpdate(batch, models, stored)),
           t.links + GroupPairs(GroupMap(batch, models)))
  }

  function BatchCounts(t: Tables, batch: seq<Record>, models: ModelTable): Counts
  {
    Counts(|ToCreate(batch, models, t.categories.Keys)|, |ToUpdate(batch, models, t.categories.Keys)|)
  }

  /** One slice, corrected: it raises when a model id or the category id
      of an accepted record cannot be hashed, or
      when two of its new categories share an id (the insert or the lookup
      of the new category after it raises); otherwise its categories and
      links are written and it returns how many it created and updated. */
  function BatchSpec(t: Tables, models: ModelTable, batch: seq<Record>): BatchOutcome
  {
    if AnyUnhashable(batch) || AnyListCategoryId(batch, models) || !DistinctIds(ToCreate(batch, models, t.categories.Keys)) then Raised
    else Done(Written(t, batch, models), BatchCounts(t, batch, models))
  }

  /** One slice as written: re-keying the groups after the insert raises
      as soon as the slice also updates a category, and a repeated queued
      model fails the link insert, which leaves the transaction to be
      rolled back at its end while the counts are returned. */
  function BatchSpecAsWritten(t: Tables, models: ModelTable, batch: seq<Record>): BatchOutcome
  {
    var c := ToCreate(batch, models, t.categories.Keys);
    var u := ToUpdate(batch, models, t.categories.Keys);
    if AnyUnhashable(batch) || AnyListCategoryId(batch, models) || (c != [] && (!DistinctIds(c) || u != [])) then Raised
    else if LinkInsertFails(GroupMap(batch, models), t.links) then Done(t, BatchCounts(t, batch, models))
    else Done(Written(t, batch, models), BatchCounts(t, batch, models))
  }

  /** One pass of the slice loop: a slice that raised is passed over,
      one that ran adds its counts. */
  function SliceStep(t: Tables, models: ModelTable, counts: Counts, batch: seq<Record>): (Tables, Counts)
  {
    var outcome := BatchSpec(t, models, batch);
    if outcome.Raised? then (t, counts) else (outcome.tables, Add(counts, outcome.counts))
  }

  /** The slices in order. */
  function RunBatches(t: Tables, models: ModelTable, counts: Counts, batches: seq<seq<Record>>): (Tables, Counts)
    decreases |batches|
  {
    if batches == [] then (t, counts)
    else
      var next := SliceStep(t, models, counts, batches[0]);
      RunBatches(next.0, models, next.1, batches[1..])
  }

  /** The whole command, given the stored tables, the stored models and
      the decoded file. */
  function ImportSpec(t: Tables, models: ModelTable, doc: JsonDoc, batchSize: int): (Tables, Report)
  {
    if doc.NotAList? then (t, InvalidFormat)
    else
      var slices := RangeSlices(doc.records, batchSize);
      if slices.None? then (t, Failed)
      else
        var run := RunBatches(t, models, Counts(0, 0), slices.value);
        (run.0, Complete(run.1.created, run.1.updated, |doc.records|))
  }

  // ---------------------------------------------------------------------
  // The partition

  /** Every accepted record is created or updated, by whether its category
      is stored; a record that is not accepted contributes nothing. */
  lemma {:induction false} PartitionFacts(batch: seq<Record>, models: ModelTable, stored: set<Value>)
    ensures |ToCreate(batch, models, stored)| + |ToUpdate(batch, models, stored)| == AcceptedCount(batch, models)
    ensures AcceptedCount(batch, models) <= |batch|
    ensures forall i :: 0 <= i < |ToUpdate(batch, models, stored)| ==> ToUpdate(batch, models, stored)[i].0 in stored
    ensures forall i :: 0 <= i < |ToCreate(batch, models, stored)| ==> ToCreate(batch, models, stored)[i].0 !in stored
  {
    if batch != [] {
      PartitionFacts(batch[..|batch| - 1], models, stored);
    }
  }

  /** The dictionary has one key per category of the slice, in order of
      first appearance and without repeats, and lists under it the models
      of that category's records in input order. */
  lemma {:induction false} GroupsFacts(batch: seq<Record>, models: ModelTable)
    ensures forall cid :: cid in GroupMap(batch, models) <==> cid in GroupOrder(batch, models)
    ensures forall cid :: cid in GroupMap(batch, models) ==> GroupMap(batch, models)[cid] == ModelPks(batch, models, cid)
    ensures forall cid :: cid !in GroupMap(batch, models) ==> ModelPks(batch, models, cid) == []
    ensures forall i, j :: 0 <= i < j < |GroupOrder(batch, models)| ==> GroupOrder(batch, models)[i] != GroupOrder(batch, models)[j]
  {
    if batch != [] {
      var n := |batch| - 1;
      GroupsFacts(batch[..n], models);
    }
  }

  // ---------------------------------------------------------------------
  // Updates

  lemma {:induction false} FirstWinsKeys<K, V>(pairs: seq<(K, V)>)
    ensures FirstWins(pairs).Keys == Ids(pairs)
  {
    if pairs != [] {
      FirstWinsKeys(pairs[1..]);
      assert Ids(pairs) == Ids(pairs[1..]) + {pairs[0].0} by {
        forall x | x in Ids(pairs) ensures x in Ids(pairs[1..]) + {pairs[0].0} {
          var i :| 0 <= i < |pairs| && pairs[i].0 == x;
          if i > 0 {
            assert pairs[1..][i - 1] == pairs[i];
          }
        }
        forall x | x in Ids(pairs[1..]) ensures x in Ids(pairs) {
          var i :| 0 <= i < |pairs[1..]| && pairs[1..][i].0 == x;
          assert pairs[i + 1] == pairs[1..][i];
        }
      }
    }
  }

  /** Within one statement an object takes the values of its first
      occurrence. */
  lemma {:induction false} FirstWinsValue<K, V>(pairs: seq<(K, V)>, j: nat)
    requires j < |pairs| && forall i :: 0 <= i < j ==> pairs[i].0 != pairs[j].0
    ensures pairs[j].0 in FirstWins(pairs) && FirstWins(pairs)[pairs[j].0] == pairs[j].1
  {
    if j > 0 {
      FirstWinsValue(pairs[1..], j - 1);
    }
  }

  /** The updates change only the categories they name, and add none. */
  lemma {:induction false} UpdateChunkedKeeps(rows: CategoryRows, pending: seq<(Value, CategoryValues)>)
    requires Ids(pending) <= rows.Keys
    ensures UpdateChunked(rows, pending).Keys == rows.Keys
    ensures forall k :: k in rows && k !in Ids(pending) ==> UpdateChunked(rows, pending)[k] == rows[k]
    decreases |pending|
  {
    if pending != [] {
      var n := Min(UPDATE_BATCH, |pending|);
      var head := pending[..n];
      FirstWinsKeys(head);
      IdsSlice(pending, 0, n);
      IdsSlice(pending, n, |pending|);
      assert pending[0..n] == head && pending[n..|pending|] == pending[n..];
      UpdateChunkedKeeps(rows + FirstWins(head), pending[n..]);
    }
  }

  /** A slice of at most 1000 updates is one statement: each category
      takes the values of its first record. */
  lemma SingleStatementUpdate(rows: CategoryRows, pending: seq<(Value, CategoryValues)>)
    requires |pending| <= UPDATE_BATCH
    ensures UpdateChunked(rows, pending) == rows + FirstWins(pending)
  {
    if pending != [] {
      assert pending[..|pending|] == pending;
    }
  }

  lemma UpdateChunkedStep(rows: CategoryRows, pending: seq<(Value, CategoryValues)>, n: nat)
    requires pending != [] && n == Min(UPDATE_BATCH, |pending|)
    ensures UpdateChunked(rows, pending) == UpdateChunked(rows + FirstWins(pending[..n]), pending[n..])
  {
  }

  // ---------------------------------------------------------------------
  // Links

  /** As written, the queued models of a category are its models that are
      not linked yet, and only those. */
  lemma {:induction false} QueuedAsWrittenMembers(group: seq<nat>, linked: set<nat>)
    ensures forall pk :: pk in QueuedAsWritten(group, linked) <==> pk in group && pk !in linked
  {
    if group != [] {
      var n := |group| - 1;
      QueuedAsWrittenMembers(group[..n], linked);
      assert group == group[..n] + [group[n]];
    }
  }

  /** Corrected, they are the same models, each queued once. */
  lemma {:induction false} QueuedMembers(group: seq<nat>, linked: set<nat>)
    ensures forall pk :: pk in Queued(group, linked) <==> pk in group && pk !in linked
    ensures !HasRepeat(Queued(group, linked))
  {
    if group != [] {
      var n := |group| - 1;
      QueuedMembers(group[..n], linked);
      assert group == group[..n] + [group[n]];
    }
  }

  /** Where no model repeats, as written and corrected queue the same
      models. */
  lemma {:induction false} QueuedAgree(group: seq<nat>, linked: set<nat>)
    requires !HasRepeat(QueuedAsWritten(group, linked))
    ensures Queued(group, linked) == QueuedAsWritten(group, linked)
  {
    if group != [] {
      var n := |group| - 1;
      var prefix := QueuedAsWritten(group[..n], linked);
      var tail: seq<nat> := if group[n] in linked then [] else [group[n]];
      assert QueuedAsWritten(group, linked) == prefix + tail;
      RepeatExtends(prefix, tail);
      QueuedAgree(group[..n], linked);
      if group[n] !in linked {
        RepeatOfMember(prefix, group[n]);
      }
    }
  }

  lemma RepeatExtends(s: seq<nat>, t: seq<nat>)
    ensures HasRepeat(s) ==> HasRepeat(s + t)
  {
    if HasRepeat(s) {
      var i, j :| 0 <= i < j < |s| && s[i] == s[j];
      assert (s + t)[i] == s[i] && (s + t)[j] == s[j];
    }
  }

  lemma RepeatOfMember(s: seq<nat>, x: nat)
    ensures x in s ==> HasRepeat(s + [x])
  {
    if x in s {
      var i :| 0 <= i < |s| && s[i] == x;
      assert (s + [x])[i] == x && (s + [x])[|s|] == x;
    }
  }

  /** Linking a category to its queued models links it to every model of
      its group: the others were linked already. */
  lemma QueuedPairs(links: Links, cid: Value, group: seq<nat>, queued: seq<nat>)
    requires queued == Queued(group, Linked(links, cid))
    ensures links + (set pk | pk in queued :: (cid, pk)) == links + (set pk | pk in group :: (cid, pk))
  {
    QueuedMembers(group, Linked(links, cid));
    forall pk | pk in group && pk in Linked(links, cid)
      ensures (cid, pk) in links
    {
    }
  }

  lemma PairsOfStep(groups: map<Value, seq<nat>>, keys: seq<Value>, i: nat)
    requires i < |keys| && keys[i] in groups
    ensures PairsOf(groups, keys[..i + 1]) == PairsOf(groups, keys[..i]) + (set pk | pk in groups[keys[i]] :: (keys[i], pk))
  {
    assert keys[..i + 1] == keys[..i] + [keys[i]];
  }

  lemma PairsOfAll(groups: map<Value, seq<nat>>, keys: seq<Value>)
    requires forall cid :: cid in groups <==> cid in keys
    ensures PairsOf(groups, keys) == GroupPairs(groups)
  {
  }

  // ---------------------------------------------------------------------
  // One slice

  /** A slice that goes through creates its new categories with the values
      of their records, leaves every category it does not name as it was,
      has every category it names afterwards, and links each of them to
      the models of its records. */
  lemma BatchWrites(t: Tables, models: ModelTable, batch: seq<Record>)
    requires BatchSpec(t, models, batch).Done?
    ensures var c := ToCreate(batch, models, t.categories.Keys);
      var after := BatchSpec(t, models, batch).tables.categories;
      forall j :: 0 <= j < |c| ==> c[j].0 in after && after[c[j].0] == c[j].1
    ensures forall k :: k in t.categories && k !in GroupMap(batch, models) ==>
      k in BatchSpec(t, models, batch).tables.categories && BatchSpec(t, models, batch).tables.categories[k] == t.categories[k]
    ensures BatchSpec(t, models, batch).tables.categories.Keys == t.categories.Keys + GroupMap(batch, models).Keys
    ensures BatchSpec(t, models, batch).tables.links == t.links + GroupPairs(GroupMap(batch, models))
  {
    var stored := t.categories.Keys;
    var c := ToCreate(batch, models, stored);
    var u := ToUpdate(batch, models, stored);
    var inserted := t.categories + LastWins(c);
    PartitionFacts(batch, models, stored);
    LastWinsKeys(c);
    assert Ids(u) <= stored;
    UpdateChunkedKeeps(inserted, u);
    forall j | 0 <= j < |c| ensures c[j].0 in inserted && inserted[c[j].0] == c[j].1 && c[j].0 !in Ids(u) {
      LastWinsValue(c, j);
    }
    GroupKeys(batch, models, stored);
  }

  /** The categories of a slice are those of its accepted records, whether
      stored or new. */
  lemma {:induction false} GroupKeys(batch: seq<Record>, models: ModelTable, stored: set<Value>)
    ensures GroupMap(batch, models).Keys == Ids(ToCreate(batch, models, stored)) + Ids(ToUpdate(batch, models, stored))
  {
    if batch != [] {
      var n := |batch| - 1;
      GroupKeys(batch[..n], models, stored);
      var c := ToCreate(batch[..n], models, stored);
      var u := ToUpdate(batch[..n], models, stored);
      var r := batch[n];
      if Accepted(r, models) {
        var x := (IdOf(r), ValuesOf(r, models));
        IdsSnoc(c, x);
        IdsSnoc(u, x);
        if IdOf(r) in stored {
          assert ToUpdate(batch, models, stored) == u + [x] && ToCreate(batch, models, stored) == c;
        } else {
          assert ToCreate(batch, models, stored) == c + [x] && ToUpdate(batch, models, stored) == u;
        }
        assert GroupMap(batch, models).Keys == GroupMap(batch[..n], models).Keys + {IdOf(r)};
      } else {
        assert ToCreate(batch, models, stored) == c && ToUpdate(batch, models, stored) == u;
      }
    }
  }

  lemma IdsSnoc<K, V>(pairs: seq<(K, V)>, x: (K, V))
    ensures Ids(pairs + [x]) == Ids(pairs) + {x.0}
  {
    assert (pairs + [x])[|pairs|] == x;
    forall y | y in Ids(pairs) ensures y in Ids(pairs + [x]) {
      var i :| 0 <= i < |pairs| && pairs[i].0 == y;
      assert (pairs + [x])[i] == pairs[i];
    }
  }

  /** What `_process_batch` returns: one count per accepted record, split
      into created and updated. */
  lemma BatchCountsAccepted(t: Tables, models: ModelTable, batch: seq<Record>)
    requires BatchSpec(t, models, batch).Done?
    ensures BatchSpec(t, models, batch).counts.created + BatchSpec(t, models, batch).counts.updated
         == AcceptedCount(batch, models)
  {
    PartitionFacts(batch, models, t.categories.Keys);
  }

  /** As written and corrected agree on every slice that does not both
      create and update categories and whose queued models do not
      repeat. */
  lemma AsWrittenAgrees(t: Tables, models: ModelTable, batch: seq<Record>)
    requires ToCreate(batch, models, t.categories.Keys) == [] || ToUpdate(batch, models, t.categories.Keys) == []
    requires !LinkInsertFails(GroupMap(batch, models), t.links)
    ensures BatchSpecAsWritten(t, models, batch) == BatchSpec(t, models, batch)
  {
  }

  /** A stored category 10, a stored model 1 with primary key 7, and two
      records: one for category 10 and one for a new category 11. */
  const MIXED_MODELS: ModelTable := map[VInt(1) := ModelInfo(7, "Acme", "Z1")]
  const MIXED_TABLES: Tables := Tables(map[VInt(10) := CategoryValues(VStr("Old"), "")], {})
  const MIXED_BATCH: seq<Record> :=
    [map["id" := VInt(10), "name" := VStr("A"), "model_id" := VInt(1)],
     map["id" := VInt(11), "name" := VStr("B"), "model_id" := VInt(1)]]

  /** As written, the mixed slice raises and nothing of it is written;
      corrected, it updates category 10 and creates category 11. */
  lemma MixedSliceAsWritten()
    ensures BatchSpecAsWritten(MIXED_TABLES, MIXED_MODELS, MIXED_BATCH) == Raised
    ensures BatchSpec(MIXED_TABLES, MIXED_MODELS, MIXED_BATCH).Done?
    ensures BatchSpec(MIXED_TABLES, MIXED_MODELS, MIXED_BATCH).counts == Counts(1, 1)
  {
    var b := MIXED_BATCH;
    var stored := MIXED_TABLES.categories.Keys;
    assert b[..1][..0] == [] && b[..1][0] == b[0] && b[..2 - 1] == b[..1];
    assert Accepted(b[0], MIXED_MODELS) && Accepted(b[1], MIXED_MODELS);
    assert ToCreate(b[..1], MIXED_MODELS, stored) == [];
    assert ToUpdate(b[..1], MIXED_MODELS, stored) == [(VInt(10), ValuesOf(b[0], MIXED_MODELS))];
    assert ToCreate(b, MIXED_MODELS, stored) == [(VInt(11), ValuesOf(b[1], MIXED_MODELS))];
    assert ToUpdate(b, MIXED_MODELS, stored) == [(VInt(10), ValuesOf(b[0], MIXED_MODELS))];
    assert !AnyUnhashable(b) && !AnyListCategoryId(b, MIXED_MODELS);
  }

  /** A stored category 10 and two identical records linking it to model
      1, which is not linked yet. */
  const REPEAT_TABLES: Tables := Tables(map[VInt(10) := CategoryValues(VStr("Old"), "")], {})
  const REPEAT_BATCH: seq<Record> :=
    [map["id" := VInt(10), "name" := VStr("A"), "model_id" := VInt(1)],
     map["id" := VInt(10), "name" := VStr("A"), "model_id" := VInt(1)]]

  /** The partition of a slice one record longer. */
  lemma PartitionStep(batch: seq<Record>, models: ModelTable, stored: set<Value>, i: nat)
    requires i < |batch|
    ensures var r, p := batch[i], batch[..i];
      var groups := GroupMap(p, models);
      && ToCreate(batch[..i + 1], models, stored)
         == ToCreate(p, models, stored) + (if Accepted(r, models) && IdOf(r) !in stored then [(IdOf(r), ValuesOf(r, models))] else [])
      && ToUpdate(batch[..i + 1], models, stored)
         == ToUpdate(p, models, stored) + (if Accepted(r, models) && IdOf(r) in stored then [(IdOf(r), ValuesOf(r, models))] else [])
      && GroupMap(batch[..i + 1], models)
         == (if !Accepted(r, models) then groups
             else groups[IdOf(r) := (if IdOf(r) in groups then groups[IdOf(r)] else []) + [PkOf(r, models)]])
      && GroupOrder(batch[..i + 1], models)
         == (if Accepted(r, models) && IdOf(r) !in GroupOrder(p, models) then GroupOrder(p, models) + [IdOf(r)]
             else GroupOrder(p, models))
  {
    assert batch[..i + 1][..i] == batch[..i] && batch[..i + 1][i] == batch[i];
  }

  lemma GroupStep(batch: seq<Record>, models: ModelTable)
    requires batch != [] && Accepted(batch[|batch| - 1], models)
    ensures var r := batch[|batch| - 1];
      var groups := GroupMap(batch[..|batch| - 1], models);
      GroupMap(batch, models) == groups[IdOf(r) := (if IdOf(r) in groups then groups[IdOf(r)] else []) + [PkOf(r, models)]]
  {
  }

  lemma RepeatGroups()
    ensures GroupMap(REPEAT_BATCH, MIXED_MODELS).Keys == {VInt(10)}
    ensures GroupMap(REPEAT_BATCH, MIXED_MODELS)[VInt(10)] == [7, 7]
  {
    var b := REPEAT_BATCH;
    var b1 := b[..1];
    assert |b1| == 1 && b1[0] == b[0] && b1[..0] == [];
    assert IdOf(b[0]) == VInt(10) && PkOf(b[0], MIXED_MODELS) == 7;
    GroupStep(b1, MIXED_MODELS);
    assert GroupMap(b1[..|b1| - 1], MIXED_MODELS) == map[];
    assert b1[|b1| - 1] == b[0];
    var none: seq<nat> := [];
    assert none + [7] == [7];
    var g1 := GroupMap(b1, MIXED_MODELS);
    assert g1 == map[VInt(10) := [7]];
    assert |b| == 2 && b[..1] == b1;
    GroupStep(b, MIXED_MODELS);
  }

  /** As written, model 7 is queued twice, the link insert fails, and the
      slice is rolled back while two updates are counted; corrected, the
      category is updated and linked once. */
  lemma RepeatedLinkAsWritten()
    ensures BatchSpecAsWritten(REPEAT_TABLES, MIXED_MODELS, REPEAT_BATCH) == Done(REPEAT_TABLES, Counts(0, 2))
    ensures BatchSpec(REPEAT_TABLES, MIXED_MODELS, REPEAT_BATCH).Done?
    ensures BatchSpec(REPEAT_TABLES, MIXED_MODELS, REPEAT_BATCH).tables.links == {(VInt(10), 7)}
  {
    RepeatPartition();
    RepeatLinks();
  }

  lemma RepeatPartition()
    ensures ToCreate(REPEAT_BATCH, MIXED_MODELS, REPEAT_TABLES.categories.Keys) == []
    ensures |ToUpdate(REPEAT_BATCH, MIXED_MODELS, REPEAT_TABLES.categories.Keys)| == 2
    ensures !AnyUnhashable(REPEAT_BATCH) && !AnyListCategoryId(REPEAT_BATCH, MIXED_MODELS)
  {
    var b := REPEAT_BATCH;
    var stored := REPEAT_TABLES.categories.Keys;
    assert b[..1][..0] == [] && b[..1][0] == b[0] && b[..2 - 1] == b[..1];
    assert Accepted(b[0], MIXED_MODELS) && Accepted(b[1], MIXED_MODELS);
    assert IdOf(b[0]) == VInt(10) && IdOf(b[1]) == VInt(10) && VInt(10) in stored;
    assert ToCreate(b[..1], MIXED_MODELS, stored) == [];
    assert |ToUpdate(b[..1], MIXED_MODELS, stored)| == 1;
  }

  lemma RepeatLinks()
    ensures LinkInsertFails(GroupMap(REPEAT_BATCH, MIXED_MODELS), REPEAT_TABLES.links)
    ensures GroupPairs(GroupMap(REPEAT_BATCH, MIXED_MODELS)) == {(VInt(10), 7)}
  {
    RepeatGroups();
    var groups := GroupMap(REPEAT_BATCH, MIXED_MODELS);
    assert Linked(REPEAT_TABLES.links, VInt(10)) == {};
    TwiceQueuedFails(groups, REPEAT_TABLES.links, VInt(10), 7);
    SinglePairs(groups, VInt(10), 7);
  }

  /** A category with no link yet whose records name the same model twice
      queues it twice, and the link insert fails. */
  lemma TwiceQueuedFails(groups: map<Value, seq<nat>>, links: Links, cid: Value, pk: nat)
    requires cid in groups && groups[cid] == [pk, pk] && Linked(links, cid) == {}
    ensures LinkInsertFails(groups, links)
  {
    var group := groups[cid];
    assert group[..1] == [pk] && group[..1][..0] == [];
    assert QueuedAsWritten(group[..1], {}) == [pk];
    var queued := QueuedAsWritten(group, {});
    assert queued == [pk, pk];
    assert queued[0] == queued[1];
    assert HasRepeat(QueuedAsWritten(groups[cid], Linked(links, cid)));
  }

  /** One category whose records all name one model gives one pair. */
  lemma SinglePairs(groups: map<Value, seq<nat>>, cid: Value, pk: nat)
    requires groups.Keys == {cid} && groups[cid] == [pk, pk]
    ensures GroupPairs(groups) == {(cid, pk)}
  {
    assert forall c, p :: c in groups.Keys && p in groups[c] ==> c == cid && p == pk;
    assert pk in groups[cid];
  }

  // ---------------------------------------------------------------------
  // The whole import

  /** A slice that raised changes nothing, and the import goes on with the
      next one. */
  lemma RaisedSlicePassedOver(t: Tables, models: ModelTable, counts: Counts, batch: seq<Record>,
                              rest: seq<seq<Record>>)
    requires BatchSpec(t, models, batch).Raised?
    ensures RunBatches(t, models, counts, [batch] + rest) == RunBatches(t, models, counts, rest)
  {
    assert ([batch] + rest)[0] == batch && ([batch] + rest)[1..] == rest;
  }

  /** A slice holding an accepted record whose category id is a list is
      dropped whole, and the import goes on with the next one. */
  lemma ListCategoryIdPassedOver(t: Tables, models: ModelTable, counts: Counts, batch: seq<Record>,
                                 rest: seq<seq<Record>>, j: nat)
    requires j < |batch| && Accepted(batch[j], models) && Unhashable(IdOf(batch[j]))
    ensures RunBatches(t, models, counts, [batch] + rest) == RunBatches(t, models, counts, rest)
  {
    assert AnyListCategoryId(batch, models);
    RaisedSlicePassedOver(t, models, counts, batch, rest);
  }

  /** A file that is a list always completes unless the batch size is
      zero, and its closing line gives the number of records; a negative
      batch size gives no slice at all. */
  lemma ImportOutcome(t: Tables, models: ModelTable, records: seq<Record>, batchSize: int)
    ensures batchSize == 0 ==> ImportSpec(t, models, JsonList(records), batchSize) == (t, Failed)
    ensures batchSize < 0 ==> ImportSpec(t, models, JsonList(records), batchSize) == (t, Complete(0, 0, |records|))
    ensures batchSize > 0 ==> ImportSpec(t, models, JsonList(records), batchSize).1.Complete?
    ensures batchSize > 0 ==> ImportSpec(t, models, JsonList(records), batchSize).1.total == |records|
  {
  }

  /** A file that is not a list imports nothing. */
  lemma NotAListImportsNothing(t: Tables, models: ModelTable, batchSize: int)
    ensures ImportSpec(t, models, NotAList, batchSize) == (t, InvalidFormat)
  {
  }

  // ---------------------------------------------------------------------
  // The command

  class CategoryStore {
    var categories: CategoryRows
    var links: Links

    constructor(initialCategories: CategoryRows, initialLinks: Links)
      ensures categories == initialCategories && links == initialLinks
    {
      categories := initialCategories;
      links := initialLinks;
    }

    /** The second pass of `_process_batch` over the records, with the
        prefetched models. */
    static method Partition(batch: seq<Record>, models: ModelTable, stored: set<Value>)
      returns (ok: bool, toCreate: seq<(Value, CategoryValues)>, toUpdate: seq<(Value, CategoryValues)>,
               groups: map<Value, seq<nat>>, order: seq<Value>)
      ensures ok <==> !AnyListCategoryId(batch, models)
      ensures ok ==> toCreate == ToCreate(batch, models, stored) && toUpdate == ToUpdate(batch, models, stored)
      ensures ok ==> groups == GroupMap(batch, models) && order == GroupOrder(batch, models)
    {
      var prefetched := Prefetch(batch, models);
      toCreate, toUpdate, groups, order := [], [], map[], [];
      var i := 0;
      while i < |batch|
        invariant i <= |batch|
        invariant toCreate == ToCreate(batch[..i], models, stored) && toUpdate == ToUpdate(batch[..i], models, stored)
        invariant groups == GroupMap(batch[..i], models) && order == GroupOrder(batch[..i], models)
        invariant forall cid :: cid in groups <==> cid in order
        invariant forall j :: 0 <= j < i ==> !(Accepted(batch[j], models) && Unhashable(IdOf(batch[j])))
      {
        ok, toCreate, toUpdate, groups, order := SortRecord(batch, models, prefetched, stored, i,
                                                            toCreate, toUpdate, groups, order);
        if !ok {
          assert Accepted(batch[i], models) && Unhashable(IdOf(batch[i]));
          return;
        }
        i := i + 1;
      }
      assert batch[..i] == batch;
      ok := true;
    }

    /** The models the slice names, read in one query before the second
        pass. */
    static method Prefetch(batch: seq<Record>, models: ModelTable) returns (prefetched: ModelTable)
      ensures Prefetched(batch, models, prefetched)
    {
      var wanted := ModelIds(batch);
      prefetched := map m | m in models && m in wanted :: models[m];
    }

    /** One record of the second pass: a record that is complete and whose
        model was prefetched is placed; its category id, when it is a list,
        makes the category key unhashable and the pass raises. */
    static method SortRecord(batch: seq<Record>, models: ModelTable, prefetched: ModelTable, stored: set<Value>, i: nat,
                             toCreate: seq<(Value, CategoryValues)>, toUpdate: seq<(Value, CategoryValues)>,
                             groups: map<Value, seq<nat>>, order: seq<Value>)
      returns (ok: bool, toCreate': seq<(Value, CategoryValues)>, toUpdate': seq<(Value, CategoryValues)>,
               groups': map<Value, seq<nat>>, order': seq<Value>)
      requires i < |batch|
      requires Prefetched(batch, models, prefetched)
      requires toCreate == ToCreate(batch[..i], models, stored) && toUpdate == ToUpdate(batch[..i], models, stored)
      requires groups == GroupMap(batch[..i], models) && order == GroupOrder(batch[..i], models)
      requires forall cid :: cid in groups <==> cid in order
      ensures ok <==> !(Accepted(batch[i], models) && Unhashable(IdOf(batch[i])))
      ensures ok ==> toCreate' == ToCreate(batch[..i + 1], models, stored) && toUpdate' == ToUpdate(batch[..i + 1], models, stored)
      ensures ok ==> groups' == GroupMap(batch[..i + 1], models) && order' == GroupOrder(batch[..i + 1], models)
      ensures ok ==> forall cid :: cid in groups' <==> cid in order'
    {
      PartitionStep(batch, models, stored, i);
      toCreate', toUpdate', groups', order' := toCreate, toUpdate, groups, order;
      var r := batch[i];
      ok := true;
      if HasRequired(r) && r["model_id"] in prefetched {
        var model := prefetched[r["model_id"]];
        assert model == models[r["model_id"]] && r["id"] == IdOf(r);
        var cid := r["id"];
        if Unhashable(cid) {
          // The category key `(None, category_id)` cannot be hashed.
          return false, toCreate', toUpdate', groups', order';
        }
        var values := CategoryValues(r["name"], Description(model));
        toCreate', toUpdate', groups', order' := Place(cid, values, model.pk, stored, toCreate, toUpdate, groups, order);
      }
    }

    /** One accepted record: its category goes to the inserts or to the
        updates, and its model joins the category's group. */
    static method Place(cid: Value, values: CategoryValues, pk: nat, stored: set<Value>,
                        toCreate: seq<(Value, CategoryValues)>, toUpdate: seq<(Value, CategoryValues)>,
                        groups: map<Value, seq<nat>>, order: seq<Value>)
      returns (toCreate': seq<(Value, CategoryValues)>, toUpdate': seq<(Value, CategoryValues)>,
               groups': map<Value, seq<nat>>, order': seq<Value>)
      requires forall c :: c in groups <==> c in order
      ensures toCreate' == toCreate + (if cid !in stored then [(cid, values)] else [])
      ensures toUpdate' == toUpdate + (if cid in stored then [(cid, values)] else [])
      ensures groups' == groups[cid := (if cid in groups then groups[cid] else []) + [pk]]
      ensures order' == if cid !in order then order + [cid] else order
      ensures forall c :: c in groups' <==> c in order'
    {
      toCreate', toUpdate', groups', order' := toCreate, toUpdate, groups, order;
      if cid in stored {
        toUpdate' := toUpdate' + [(cid, values)];
      } else {
        toCreate' := toCreate' + [(cid, values)];
      }
      if cid !in groups' {
        groups' := groups'[cid := []];
        order' := order' + [cid];
      }
      groups' := groups'[cid := groups'[cid] + [pk]];
    }

    /** `bulk_update` of the stored categories, 1000 per statement. */
    method UpdateCategories(toUpdate: seq<(Value, CategoryValues)>)
      modifies this
      ensures categories == UpdateChunked(old(categories), toUpdate) && links == old(links)
    {
      var i := 0;
      while i < |toUpdate|
        invariant i <= |toUpdate| && links == old(links)
        invariant UpdateChunked(old(categories), toUpdate) == UpdateChunked(categories, toUpdate[i..])
        decreases |toUpdate| - i
      {
        var n := Min(UPDATE_BATCH, |toUpdate| - i);
        UpdateChunkedStep(categories, toUpdate[i..], n);
        assert toUpdate[i..][..n] == toUpdate[i..i + n] && toUpdate[i..][n..] == toUpdate[i + n..];
        categories := categories + FirstWins(toUpdate[i..i + n]);
        i := i + n;
      }
      assert toUpdate[i..] == [];
    }

    /** The relationship loop of `_process_batch`, corrected to queue each
        model once: every category of the slice is linked to the models
        of its records that it is not linked to yet. */
    method LinkGroups(groups: map<Value, seq<nat>>, order: seq<Value>)
      requires forall cid :: cid in groups <==> cid in order
      modifies this
      ensures links == old(links) + GroupPairs(groups) && categories == old(categories)
    {
      var i := 0;
      while i < |order|
        invariant i <= |order| && categories == old(categories)
        invariant links == old(links) + PairsOf(groups, order[..i])
      {
        var cid := order[i];
        var group := groups[cid];
        var linked := Linked(links, cid);
        var queued: seq<nat> := [];
        var j := 0;
        while j < |group|
          invariant j <= |group|
          invariant queued == Queued(group[..j], linked)
        {
          assert group[..j + 1][..j] == group[..j] && group[..j + 1][j] == group[j];
          if group[j] !in linked && group[j] !in queued {
            queued := queued + [group[j]];
          }
          j := j + 1;
        }
        assert group[..j] == group;
        QueuedPairs(links, cid, group, queued);
        links := links + (set pk | pk in queued :: (cid, pk));
        PairsOfStep(groups, order, i);
        i := i + 1;
      }
      assert order[..i] == order;
      PairsOfAll(groups, order);
    }

    /** `_process_batch`, corrected, in its transaction: `ok` is false
        when it raised, and nothing of the slice is then written. */
    method ProcessBatch(batch: seq<Record>, models: ModelTable) returns (ok: bool, created: nat, updated: nat)
      modifies this
      ensures ok <==> BatchSpec(old(Tables(categories, links)), models, batch).Done?
      ensures !ok ==> Tables(categories, links) == old(Tables(categories, links))
      ensures ok ==> Tables(categories, links) == BatchSpec(old(Tables(categories, links)), models, batch).tables
                     && Counts(created, updated) == BatchSpec(old(Tables(categories, links)), models, batch).counts
    {
      if AnyUnhashable(batch) {
        return false, 0, 0;
      }
      var partitioned, toCreate, toUpdate, groups, order := Partition(batch, models, categories.Keys);
      if !partitioned {
        return false, 0, 0;
      }
      GroupsFacts(batch, models);
      if toCreate != [] {
        if !DistinctIds(toCreate) {
          // The insert, or the lookup of a new category after it, raises.
          return false, 0, 0;
        }
        categories := categories + LastWins(toCreate);
      } else {
        assert categories + LastWins(toCreate) == categories;
      }
      if toUpdate != [] {
        UpdateCategories(toUpdate);
      } else {
        assert UpdateChunked(categories, toUpdate) == categories;
      }
      LinkGroups(groups, order);
      ok, created, updated := true, |toCreate|, |toUpdate|;
    }

    /** `handle`: the slices `records[i:i + batch_size]` for `i` in
        `range(0, len(records), batch_size)`, and the closing line. */
    method Handle(models: ModelTable, doc: JsonDoc, batchSize: int) returns (report: Report)
      modifies this
      ensures (Tables(categories, links), report) == ImportSpec(old(Tables(categories, links)), models, doc, batchSize)
    {
      if doc.NotAList? {
        return InvalidFormat;
      }
      var records := doc.records;
      if batchSize == 0 {
        // `range` raises before the first slice.
        return Failed;
      }
      var counts := Counts(0, 0);
      // With a negative step `range` is empty and no slice runs.
      if batchSize > 0 {
        counts := RunSlices(models, records, batchSize);
      }
      report := Complete(counts.created, counts.updated, |records|);
    }

    /** One pass of the loop of `handle`: the slice in its transaction,
        its counts added when it ran; a slice that raised is passed over. */
    method RunSlice(batch: seq<Record>, models: ModelTable, counts: Counts) returns (next: Counts)
      modifies this
      ensures (Tables(categories, links), next) == SliceStep(old(Tables(categories, links)), models, counts, batch)
    {
      var ok, created, updated := ProcessBatch(batch, models);
      next := if ok then Add(counts, Counts(created, updated)) else counts;
    }

    /** The next slice of `batch_size` records, sent after the slices
        before it: `total` is what the whole loop leaves. */
    method SendSlice(ghost total: (Tables, Counts), models: ModelTable, rest: seq<Record>, batchSize: nat,
                     counts: Counts) returns (next: Counts)
      requires batchSize > 0 && rest != []
      requires total == RunBatches(Tables(categories, links), models, counts, Chunks(rest, batchSize))
      modifies this
      ensures total == RunBatches(Tables(categories, links), models, next, Chunks(rest[Min(batchSize, |rest|)..], batchSize))
    {
      ghost var t := Tables(categories, links);
      var batch := rest[..Min(batchSize, |rest|)];
      next := RunSlice(batch, models, counts);
      Advance(models, rest, batchSize, batch, t, counts, Tables(categories, links), next);
    }

    /** The loop of `handle` over the slices, with a positive step. */
    method RunSlices(models: ModelTable, records: seq<Record>, batchSize: nat) returns (counts: Counts)
      requires batchSize > 0
      modifies this
      ensures (Tables(categories, links), counts)
           == RunBatches(old(Tables(categories, links)), models, Counts(0, 0), Chunks(records, batchSize))
    {
      ghost var total := RunBatches(Tables(categories, links), models, Counts(0, 0), Chunks(records, batchSize));
      counts := Counts(0, 0);
      // The records from the start of the next slice on.
      var rest := records;
      while rest != []
        invariant total == RunBatches(Tables(categories, links), models, counts, Chunks(rest, batchSize))
        decreases |rest|
      {
        counts := SendSlice(total, models, rest, batchSize, counts);
        rest := rest[Min(batchSize, |rest|)..];
      }
    }
  }

  /** One slice, run or passed over, leaves the rest of the import to the
      slices after it. */
  lemma Advance(models: ModelTable, rest: seq<Record>, k: nat, batch: seq<Record>,
                t: Tables, counts: Counts, t2: Tables, next: Counts)
    requires k > 0 && rest != [] && batch == rest[..Min(k, |rest|)]
    requires (t2, next) == SliceStep(t, models, counts, batch)
    ensures RunBatches(t, models, counts, Chunks(rest, k)) == RunBatches(t2, models, next, Chunks(rest[Min(k, |rest|)..], k))
  {
    var tail := Chunks(rest[Min(k, |rest|)..], k);
    assert Chunks(rest, k) == [batch] + tail;
    assert ([batch] + tail)[0] == batch && ([batch] + tail)[1..] == tail;
  }


}
