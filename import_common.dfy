/** What the catalogue import commands share: decoded JSON records, the
    slicing of a record list into batches, and the chunked update of rows
    that already exist. */
module ImportCommon {
  import opened Common

  /** One decoded JSON object of the import file. */
  type Record = map<string, Value>

  /** What `json.load` produced: a list of objects, or anything else. */
  datatype JsonDoc = JsonList(records: seq<Record>) | NotAList

  predicate HasKeys(r: Record, keys: seq<string>)
  {
    forall k :: k in keys ==> k in r
  }

  /** `record.get(key, default)`. */
  function Get(r: Record, key: string, default: Value): Value
  {
    if key in r then r[key] else default
  }

  /** A value Python cannot hash: a list cannot be a set member or a
      dictionary key, nor part of a tuple used as one, so testing it for
      membership in a set or dictionary raises `TypeError`. */
  predicate Unhashable(v: Value)
  {
    v.VList?
  }

  function Min(a: nat, b: nat): nat { if a <= b then a else b }

  // ---------------------------------------------------------------------
  // Batches

  function Flatten<T>(ss: seq<seq<T>>): seq<T>
  {
    if ss == [] then [] else ss[0] + Flatten(ss[1..])
  }

  /** The slices `s[i:i + k]` for `i` in `range(0, len(s), k)`. */
  function Chunks<T>(s: seq<T>, k: nat): seq<seq<T>>
    requires k > 0
    decreases |s|
  {
    if s == [] then [] else [s[..Min(k, |s|)]] + Chunks(s[Min(k, |s|)..], k)
  }

  /** What `range(0, len(s), step)` yields as slices: a zero step raises
      (None), a negative one yields nothing. */
  function RangeSlices<T>(s: seq<T>, step: int): Option<seq<seq<T>>>
  {
    if step == 0 then None
    else if step < 0 then Some([])
    else Some(Chunks(s, step))
  }

  lemma {:induction false} FlattenAppend<T>(a: seq<seq<T>>, b: seq<seq<T>>)
    ensures Flatten(a + b) == Flatten(a) + Flatten(b)
  {
    if a == [] {
      assert a + b == b;
    } else {
      assert (a + b)[0] == a[0] && (a + b)[1..] == a[1..] + b;
      FlattenAppend(a[1..], b);
      assert a[0] + (Flatten(a[1..]) + Flatten(b)) == (a[0] + Flatten(a[1..])) + Flatten(b);
    }
  }

  /** An element of the joined slices lies in one of them. */
  lemma {:induction false} FlattenMember<T>(ss: seq<seq<T>>, x: T)
    requires x in Flatten(ss)
    ensures exists i, j :: 0 <= i < |ss| && 0 <= j < |ss[i]| && ss[i][j] == x
  {
    if x in ss[0] {
      var j :| 0 <= j < |ss[0]| && ss[0][j] == x;
      assert ss[0][j] == x;
    } else {
      FlattenMember(ss[1..], x);
      var i, j :| 0 <= i < |ss[1..]| && 0 <= j < |ss[1..][i]| && ss[1..][i][j] == x;
      assert ss[i + 1][j] == x;
    }
  }

  lemma FlattenSnoc<T>(ss: seq<seq<T>>, s: seq<T>)
    ensures Flatten(ss + [s]) == Flatten(ss) + s
  {
    FlattenAppend(ss, [s]);
    assert Flatten([s]) == s + Flatten([s][1..]);
    assert [s][1..] == [];
  }

  /** The slices put back together are the input, in order. */
  lemma {:induction false} ChunksCover<T>(s: seq<T>, k: nat)
    requires k > 0
    ensures Flatten(Chunks(s, k)) == s
    decreases |s|
  {
    if s != [] {
      var n := Min(k, |s|);
      ChunksCover(s[n..], k);
      assert s == s[..n] + s[n..];
    }
  }

  /** Every slice is non-empty and holds at most `k` elements; all but the
      last hold exactly `k`. */
  lemma {:induction false} ChunksSizes<T>(s: seq<T>, k: nat)
    requires k > 0
    ensures forall i :: 0 <= i < |Chunks(s, k)| ==> 0 < |Chunks(s, k)[i]| <= k
    ensures forall i :: 0 <= i < |Chunks(s, k)| - 1 ==> |Chunks(s, k)[i]| == k
    decreases |s|
  {
    if s != [] {
      var n := Min(k, |s|);
      ChunksSizes(s[n..], k);
      if |s| <= k {
        assert s[n..] == [];
      }
    }
  }

  lemma MulPred(q: nat, k: nat)
    requires q > 0
    ensures q * k == (q - 1) * k + k
  {
  }

  /** Element `q * k + r` of the input is element `r` of slice `q`: each
      element lies in exactly the slice `range` gives it. */
  lemma {:induction false} ChunksPosition<T>(s: seq<T>, k: nat, q: nat, r: nat)
    requires r < k && q * k + r < |s|
    ensures q < |Chunks(s, k)| && r < |Chunks(s, k)[q]|
    ensures Chunks(s, k)[q][r] == s[q * k + r]
  {
    ChunksAt(s, k, q, q * k, r);
  }

  /** `ChunksPosition` with the start of slice `q` named `base`. */
  lemma {:induction false} ChunksAt<T>(s: seq<T>, k: nat, q: nat, base: nat, r: nat)
    requires base == q * k && r < k && base + r < |s|
    ensures q < |Chunks(s, k)| && r < |Chunks(s, k)[q]|
    ensures Chunks(s, k)[q][r] == s[base + r]
    decreases q
  {
    if q > 0 {
      MulPred(q, k);
      assert k <= base;
      ChunksAt(s[k..], k, q - 1, base - k, r);
      assert Chunks(s, k) == [s[..k]] + Chunks(s[k..], k);
    }
  }

  /** Slices that are all full, followed by whatever remains: the chunking
      starts with exactly those slices. */
  lemma {:induction false} ChunksOfFull<T>(ss: seq<seq<T>>, t: seq<T>, k: nat)
    requires k > 0
    requires forall i :: 0 <= i < |ss| ==> |ss[i]| == k
    ensures Chunks(Flatten(ss) + t, k) == ss + Chunks(t, k)
  {
    if ss != [] {
      ChunksOfFull(ss[1..], t, k);
      ChunksOfFullStep(ss, t, k);
    } else {
      assert Flatten(ss) + t == t;
    }
  }

  lemma ChunksOfFullStep<T>(ss: seq<seq<T>>, t: seq<T>, k: nat)
    requires k > 0 && ss != [] && |ss[0]| == k
    requires Chunks(Flatten(ss[1..]) + t, k) == ss[1..] + Chunks(t, k)
    ensures Chunks(Flatten(ss) + t, k) == ss + Chunks(t, k)
  {
    var rest := Flatten(ss[1..]) + t;
    ConcatAssoc(ss[0], Flatten(ss[1..]), t);
    ChunksCons(ss[0], rest, k);
    assert ss == [ss[0]] + ss[1..];
    ConcatAssoc([ss[0]], ss[1..], Chunks(t, k));
  }

  /** A full slice in front is the first slice. */
  lemma ChunksCons<T>(a: seq<T>, rest: seq<T>, k: nat)
    requires k > 0 && |a| == k
    ensures Chunks(a + rest, k) == [a] + Chunks(rest, k)
  {
    var s := a + rest;
    assert s[..k] == a && s[k..] == rest;
  }

  /** One slice taken off the front, as a loop over `range` takes it. */
  lemma ChunksStep<T>(s: seq<T>, i: nat, k: nat)
    requires k > 0 && i < |s|
    ensures Chunks(s[i..], k) == [s[i..i + Min(k, |s| - i)]] + Chunks(s[i + Min(k, |s| - i)..], k)
  {
    var n := Min(k, |s| - i);
    assert s[i..][..n] == s[i..i + n];
    assert s[i..][n..] == s[i + n..];
  }

  // ---------------------------------------------------------------------
  // Updating existing rows in chunks

  /** How many update pairs are looked up per query. */
  const UPDATE_CHUNK: nat := 100

  /** The ids of a list of `(id, values)` pairs. */
  function Ids<K(==), V>(pairs: seq<(K, V)>): set<K>
  {
    set i | 0 <= i < |pairs| :: pairs[i].0
  }

  predicate DistinctIds<K(==), V>(pairs: seq<(K, V)>)
  {
    forall i, j :: 0 <= i < j < |pairs| ==> pairs[i].0 != pairs[j].0
  }

  /** `bulk_create(..., ignore_conflicts=False)` raises when an id repeats
      among the new rows or is already stored: the id column is unique. */
  predicate InsertRefused<K(==), V>(rows: map<K, V>, toCreate: seq<(K, V)>)
  {
    !DistinctIds(toCreate) || !(Ids(toCreate) !! rows.Keys)
  }

  /** A new row whose id is already stored makes the whole insert fail. */
  lemma StoredIdRefused<K, V>(rows: map<K, V>, toCreate: seq<(K, V)>, j: nat)
    requires j < |toCreate| && toCreate[j].0 in rows
    ensures InsertRefused(rows, toCreate)
  {
    assert toCreate[j].0 in Ids(toCreate);
  }

  /** `{item[0]: item[1] for item in pairs}`: a later pair for the same id
      replaces an earlier one. */
  function LastWins<K(==), V>(pairs: seq<(K, V)>): map<K, V>
  {
    if pairs == [] then map[]
    else LastWins(pairs[..|pairs| - 1])[pairs[|pairs| - 1].0 := pairs[|pairs| - 1].1]
  }

  lemma {:induction false} LastWinsKeys<K, V>(pairs: seq<(K, V)>)
    ensures LastWins(pairs).Keys == Ids(pairs)
  {
    if pairs != [] {
      var n := |pairs| - 1;
      LastWinsKeys(pairs[..n]);
      assert Ids(pairs) == Ids(pairs[..n]) + {pairs[n].0} by {
        forall x | x in Ids(pairs) ensures x in Ids(pairs[..n]) + {pairs[n].0} {
          var i :| 0 <= i < |pairs| && pairs[i].0 == x;
          if i < n { assert pairs[..n][i] == pairs[i]; }
        }
        forall x | x in Ids(pairs[..n]) ensures x in Ids(pairs) {
          var i :| 0 <= i < n && pairs[..n][i].0 == x;
          assert pairs[i] == pairs[..n][i];
        }
      }
    }
  }

  /** The value kept for an id is the one of its last pair. */
  lemma {:induction false} LastWinsValue<K, V>(pairs: seq<(K, V)>, j: nat)
    requires j < |pairs|
    requires forall l :: j < l < |pairs| ==> pairs[l].0 != pairs[j].0
    ensures pairs[j].0 in LastWins(pairs) && LastWins(pairs)[pairs[j].0] == pairs[j].1
  {
    var n := |pairs| - 1;
    if j < n {
      assert pairs[..n][j] == pairs[j];
      forall l | j < l < n ensures pairs[..n][l].0 != pairs[..n][j].0 {
        assert pairs[..n][l] == pairs[l];
      }
      LastWinsValue(pairs[..n], j);
    }
  }

  lemma LastWinsSnoc<K, V>(pairs: seq<(K, V)>, x: (K, V))
    ensures LastWins(pairs + [x]) == LastWins(pairs)[x.0 := x.1]
  {
    assert (pairs + [x])[..|pairs + [x]| - 1] == pairs;
  }

  lemma UnionAssoc<K, V>(a: map<K, V>, b: map<K, V>, c: map<K, V>)
    ensures (a + b) + c == a + (b + c)
  {
  }

  /** Overriding a key of the right operand of a map union. */
  lemma UnionUpdateRight<K, V>(a: map<K, V>, b: map<K, V>, k: K, v: V)
    ensures (a + b)[k := v] == a + b[k := v]
  {
  }

  /** Overriding a key that the right operand lacks. */
  lemma UnionUpdateLeft<K, V>(a: map<K, V>, b: map<K, V>, k: K, v: V)
    requires k !in b
    ensures (a + b)[k := v] == a[k := v] + b
  {
  }

  lemma {:induction false} LastWinsAppend<K, V>(a: seq<(K, V)>, b: seq<(K, V)>)
    ensures LastWins(a + b) == LastWins(a) + LastWins(b)
    decreases |b|
  {
    if b == [] {
      assert a + b == a;
    } else {
      var n := |b| - 1;
      assert (a + b)[..|a + b| - 1] == a + b[..n];
      assert (a + b)[|a + b| - 1] == b[n];
      LastWinsAppend(a, b[..n]);
    }
  }

  lemma {:induction false} IdsCount<K, V>(pairs: seq<(K, V)>)
    ensures |Ids(pairs)| <= |pairs|
    ensures DistinctIds(pairs) ==> |Ids(pairs)| == |pairs|
  {
    if pairs != [] {
      var n := |pairs| - 1;
      IdsCount(pairs[..n]);
      LastWinsKeys(pairs);
      LastWinsKeys(pairs[..n]);
      assert Ids(pairs) == Ids(pairs[..n]) + {pairs[n].0};
      if DistinctIds(pairs) {
        assert DistinctIds(pairs[..n]) by {
          forall i, j | 0 <= i < j < n ensures pairs[..n][i].0 != pairs[..n][j].0 {
            assert pairs[..n][i] == pairs[i] && pairs[..n][j] == pairs[j];
          }
        }
        forall i | 0 <= i < n ensures pairs[..n][i].0 != pairs[n].0 {
          assert pairs[..n][i] == pairs[i];
        }
      }
    }
  }

  /** One chunk: the stored rows whose id the chunk names get that id's
      values ... */
  function ChunkRows<K(==), V>(rows: map<K, V>, chunk: seq<(K, V)>): map<K, V>
  {
    var u := LastWins(chunk);
    map k | k in rows :: if k in u then u[k] else rows[k]
  }

  /** ... and the chunk counts the stored rows it found. */
  function ChunkFound<K(==), V>(rows: map<K, V>, chunk: seq<(K, V)>): nat
  {
    |set k | k in LastWins(chunk) && k in rows|
  }

  /** The whole update, chunks of `UPDATE_CHUNK` pairs in order: the rows
      it leaves ... */
  function ChunkedRows<K(==), V>(rows: map<K, V>, pending: seq<(K, V)>): map<K, V>
    decreases |pending|
  {
    if pending == [] then rows
    else
      var n := Min(UPDATE_CHUNK, |pending|);
      ChunkedRows(ChunkRows(rows, pending[..n]), pending[n..])
  }

  /** ... and the number of rows it reports updated. */
  function ChunkedCount<K(==), V>(rows: map<K, V>, pending: seq<(K, V)>): nat
    decreases |pending|
  {
    if pending == [] then 0
    else
      var n := Min(UPDATE_CHUNK, |pending|);
      ChunkFound(rows, pending[..n]) + ChunkedCount(ChunkRows(rows, pending[..n]), pending[n..])
  }

  /** Chunking changes nothing about the outcome: every stored row named in
      the list ends with the values of its last pair, no row is added, and
      the rest are untouched. */
  lemma {:induction false} ChunkedUpdateRows<K, V>(rows: map<K, V>, pending: seq<(K, V)>)
    ensures ChunkedRows(rows, pending).Keys == rows.Keys
    ensures forall k :: k in rows ==>
      ChunkedRows(rows, pending)[k] == if k in LastWins(pending) then LastWins(pending)[k] else rows[k]
    decreases |pending|
  {
    if pending != [] {
      var n := Min(UPDATE_CHUNK, |pending|);
      var r1 := ChunkRows(rows, pending[..n]);
      ChunkedUpdateRows(r1, pending[n..]);
      assert pending == pending[..n] + pending[n..];
      LastWinsAppend(pending[..n], pending[n..]);
    }
  }

  /** When every id of the pending pairs is stored, the chunked updates
      amount to one dictionary update with the last value of each id. */
  lemma ChunkedUpdateStored<K, V>(rows: map<K, V>, pending: seq<(K, V)>)
    requires Ids(pending) <= rows.Keys
    ensures ChunkedRows(rows, pending) == rows + LastWins(pending)
  {
    ChunkedUpdateRows(rows, pending);
    LastWinsKeys(pending);
    var r := ChunkedRows(rows, pending);
    var e := rows + LastWins(pending);
    assert r.Keys == e.Keys;
    forall k | k in r ensures r[k] == e[k] {
    }
  }

  lemma SubsetCard<T>(a: set<T>, b: set<T>)
    requires a <= b
    ensures |a| <= |b|
  {
    if a != {} {
      var x :| x in a;
      SubsetCard(a - {x}, b - {x});
    }
  }

  lemma ChunkFoundBound<K, V>(rows: map<K, V>, chunk: seq<(K, V)>)
    ensures ChunkFound(rows, chunk) <= |chunk|
  {
    LastWinsKeys(chunk);
    IdsCount(chunk);
    assert (set k | k in LastWins(chunk) && k in rows) == LastWins(chunk).Keys * rows.Keys;
    SubsetCard(LastWins(chunk).Keys * rows.Keys, LastWins(chunk).Keys);
  }

  lemma ChunkFoundAll<K, V>(rows: map<K, V>, chunk: seq<(K, V)>)
    requires DistinctIds(chunk) && Ids(chunk) <= rows.Keys
    ensures ChunkFound(rows, chunk) == |chunk|
  {
    LastWinsKeys(chunk);
    IdsCount(chunk);
    assert (set k | k in LastWins(chunk) && k in rows) == Ids(chunk);
  }

  /** The count never exceeds the number of pairs. */
  lemma {:induction false} ChunkedUpdateCountBound<K, V>(rows: map<K, V>, pending: seq<(K, V)>)
    ensures ChunkedCount(rows, pending) <= |pending|
    decreases |pending|
  {
    if pending != [] {
      var n := Min(UPDATE_CHUNK, |pending|);
      ChunkFoundBound(rows, pending[..n]);
      ChunkedUpdateCountBound(ChunkRows(rows, pending[..n]), pending[n..]);
    }
  }

  lemma DistinctSlice<K, V>(pairs: seq<(K, V)>, a: nat, b: nat)
    requires DistinctIds(pairs) && a <= b <= |pairs|
    ensures DistinctIds(pairs[a..b])
  {
    forall i, j | 0 <= i < j < b - a ensures pairs[a..b][i].0 != pairs[a..b][j].0 {
      assert pairs[a..b][i] == pairs[a + i] && pairs[a..b][j] == pairs[a + j];
    }
  }

  lemma IdsSlice<K, V>(pairs: seq<(K, V)>, a: nat, b: nat)
    requires a <= b <= |pairs|
    ensures Ids(pairs[a..b]) <= Ids(pairs)
  {
    forall x | x in Ids(pairs[a..b]) ensures x in Ids(pairs) {
      var i :| 0 <= i < b - a && pairs[a..b][i].0 == x;
      assert pairs[a..b][i] == pairs[a + i];
    }
  }

  /** When the ids are distinct and all stored, every pair counts once. */
  lemma {:induction false} ChunkedUpdateCountAll<K, V>(rows: map<K, V>, pending: seq<(K, V)>)
    requires DistinctIds(pending) && Ids(pending) <= rows.Keys
    ensures ChunkedCount(rows, pending) == |pending|
    decreases |pending|
  {
    if pending != [] {
      var n := Min(UPDATE_CHUNK, |pending|);
      DistinctSlice(pending, 0, n);
      IdsSlice(pending, 0, n);
      ChunkFoundAll(rows, pending[..n]);
      DistinctSlice(pending, n, |pending|);
      IdsSlice(pending, n, |pending|);
      assert pending[0..n] == pending[..n] && pending[n..|pending|] == pending[n..];
      assert ChunkRows(rows, pending[..n]).Keys == rows.Keys;
      ChunkedUpdateCountAll(ChunkRows(rows, pending[..n]), pending[n..]);
    }
  }

  lemma ChunkedStep<K, V>(rows: map<K, V>, pending: seq<(K, V)>, n: nat)
    requires pending != [] && n == Min(UPDATE_CHUNK, |pending|)
    ensures ChunkedRows(rows, pending) == ChunkedRows(ChunkRows(rows, pending[..n]), pending[n..])
    ensures ChunkedCount(rows, pending)
         == ChunkFound(rows, pending[..n]) + ChunkedCount(ChunkRows(rows, pending[..n]), pending[n..])
  {
  }

  /** The update loop: one query per chunk of at most `UPDATE_CHUNK`
      pairs, each counting the rows it found. */
  method UpdateInChunks<K(==), V>(rows: map<K, V>, toUpdate: seq<(K, V)>) returns (updated: map<K, V>, count: nat)
    ensures updated == ChunkedRows(rows, toUpdate) && count == ChunkedCount(rows, toUpdate)
  {
    updated, count := rows, 0;
    var i := 0;
    while i < |toUpdate|
      invariant i <= |toUpdate|
      invariant ChunkedRows(rows, toUpdate) == ChunkedRows(updated, toUpdate[i..])
      invariant ChunkedCount(rows, toUpdate) == count + ChunkedCount(updated, toUpdate[i..])
      decreases |toUpdate| - i
    {
      var n := Min(UPDATE_CHUNK, |toUpdate| - i);
      var chunk := toUpdate[i..i + n];
      ChunkedStep(updated, toUpdate[i..], n);
      assert toUpdate[i..][..n] == chunk && toUpdate[i..][n..] == toUpdate[i + n..];
      count := count + ChunkFound(updated, chunk);
      updated := ChunkRows(updated, chunk);
      i := i + n;
    }
    assert toUpdate[i..] == [];
  }
}
