/** The batching rule of `insert_dummy_data` (databases/postgresql.py and
    databases/sqlite.py use the same loop): rows are appended to a pending
    statement, which is flushed after row i when i is a positive multiple of
    500 or the last row. */
module Batching {

  /** Flush after row `i` of `n`: `(i % 500 == 0 and i > 0) or i == n-1`. */
  predicate IsFlushPoint(i: nat, n: nat)
  {
    (i % 500 == 0 && i > 0) || i == n - 1
  }

  /** The batches the loop emits from row `i` on, with `pending` the rows
      accumulated since the last flush. This follows the loop step by step. */
  function BatchesFrom<T>(rows: seq<T>, i: nat, pending: seq<T>): seq<seq<T>>
    requires i <= |rows|
    decreases |rows| - i
  {
    if i == |rows| then []
    else if IsFlushPoint(i, |rows|) then [pending + [rows[i]]] + BatchesFrom(rows, i + 1, [])
    else BatchesFrom(rows, i + 1, pending + [rows[i]])
  }

  /** One iteration of the loop, seen from the emitted batches `done` so far. */
  lemma BatchesFromStep<T>(rows: seq<T>, i: nat, pending: seq<T>, done: seq<seq<T>>)
    requires i < |rows|
    ensures IsFlushPoint(i, |rows|) ==>
              done + BatchesFrom(rows, i, pending) == (done + [pending + [rows[i]]]) + BatchesFrom(rows, i + 1, [])
    ensures !IsFlushPoint(i, |rows|) ==>
              done + BatchesFrom(rows, i, pending) == done + BatchesFrom(rows, i + 1, pending + [rows[i]])
  {
  }

  /** The batches of a whole insertion. */
  function Batches<T>(rows: seq<T>): seq<seq<T>>
  {
    BatchesFrom(rows, 0, [])
  }

  /** Consecutive pieces of `size` elements, the last one possibly shorter. */
  function Chunks<T>(s: seq<T>, size: nat): seq<seq<T>>
    requires size > 0
    decreases |s|
  {
    if |s| == 0 then []
    else if |s| <= size then [s]
    else [s[..size]] + Chunks(s[size..], size)
  }

  /** An independent statement of the batching: a first batch of up to 501
      rows (rows 0..500), then batches of 500. */
  function ReferenceBatches<T>(rows: seq<T>): seq<seq<T>>
  {
    if |rows| <= 501 then Chunks(rows, 501) else [rows[..501]] + Chunks(rows[501..], 500)
  }

  /** All batches, concatenated in order. */
  function Flatten<T>(batches: seq<seq<T>>): seq<T>
  {
    if |batches| == 0 then [] else batches[0] + Flatten(batches[1..])
  }

  /** After row 500 the pending rows start at a row j with j % 500 == 1, and
      the loop emits exactly the 500-row chunks of rows[j..]. */
  lemma {:induction false} LaterBatches<T>(rows: seq<T>, j: nat, i: nat)
    requires 501 <= j <= i <= |rows|
    requires j % 500 == 1
    requires i - j < 500
    requires i == |rows| ==> i == j
    ensures BatchesFrom(rows, i, rows[j..i]) == Chunks(rows[j..], 500)
    decreases |rows| - i
  {
    var n := |rows|;
    if i == n {
      assert rows[j..] == [];
    } else {
      assert rows[j..i] + [rows[i]] == rows[j..i + 1];
      if i - j == 499 || i == n - 1 {
        assert IsFlushPoint(i, n);
        if i + 1 == n {
          assert rows[j..i + 1] == rows[j..];
          assert Chunks(rows[j..], 500) == [rows[j..]];
        } else {
          assert i - j == 499;
          assert rows[j..][..500] == rows[j..i + 1];
          assert rows[j..][500..] == rows[i + 1..];
          assert rows[i + 1..i + 1] == [];
          LaterBatches(rows, i + 1, i + 1);
        }
      } else {
        assert (i - j) % 500 == i - j;
        assert !IsFlushPoint(i, n);
        LaterBatches(rows, j, i + 1);
      }
    }
  }

  /** Up to row 500 the pending rows are rows[..i]; the loop then emits the
      reference batches. */
  lemma {:induction false} FirstBatch<T>(rows: seq<T>, i: nat)
    requires i <= 500 && i < |rows|
    ensures BatchesFrom(rows, i, rows[..i]) == ReferenceBatches(rows)
    decreases |rows| - i
  {
    var n := |rows|;
    assert rows[..i] + [rows[i]] == rows[..i + 1];
    if i == 500 || i == n - 1 {
      assert IsFlushPoint(i, n);
      if i == n - 1 {
        assert rows[..i + 1] == rows;
        assert BatchesFrom(rows, i + 1, []) == [];
      } else {
        assert rows[501..501] == [];
        LaterBatches(rows, 501, 501);
      }
    } else {
      assert !IsFlushPoint(i, n);
      FirstBatch(rows, i + 1);
    }
  }

  /** The loop's batches are the reference batches. */
  lemma BatchesAreReference<T>(rows: seq<T>)
    ensures Batches(rows) == ReferenceBatches(rows)
  {
    if |rows| > 0 {
      assert rows[..0] == [];
      FirstBatch(rows, 0);
    }
  }

  lemma {:induction false} ChunksFlatten<T>(s: seq<T>, size: nat)
    requires size > 0
    ensures Flatten(Chunks(s, size)) == s
    ensures forall k :: 0 <= k < |Chunks(s, size)| ==> 0 < |Chunks(s, size)[k]| <= size
    decreases |s|
  {
    if |s| > size {
      ChunksFlatten(s[size..], size);
      var rest := Chunks(s[size..], size);
      assert ([s[..size]] + rest)[1..] == rest;
      assert s[..size] + s[size..] == s;
    }
  }

  /** Every row is emitted exactly once and in order: the batches, concatenated,
      are the rows. */
  lemma EveryRowOnceInOrder<T>(rows: seq<T>)
    ensures Flatten(Batches(rows)) == rows
  {
    BatchesAreReference(rows);
    if |rows| > 501 {
      ChunksFlatten(rows[501..], 500);
      var rest := Chunks(rows[501..], 500);
      assert ([rows[..501]] + rest)[1..] == rest;
      assert rows[..501] + rows[501..] == rows;
    } else {
      ChunksFlatten(rows, 501);
    }
  }

  /** Batch sizes: no batch is empty, the first holds min(n, 501) rows and
      every later one at most 500; no rows means no batch. */
  lemma BatchSizes<T>(rows: seq<T>)
    ensures |rows| == 0 <==> Batches(rows) == []
    ensures |rows| > 0 ==> |Batches(rows)[0]| == if |rows| < 501 then |rows| else 501
    ensures forall k :: 0 <= k < |Batches(rows)| ==> |Batches(rows)[k]| > 0
    ensures forall k :: 1 <= k < |Batches(rows)| ==> |Batches(rows)[k]| <= 500
  {
    BatchesAreReference(rows);
    if |rows| > 501 {
      ChunksFlatten(rows[501..], 500);
      var rest := Chunks(rows[501..], 500);
      assert forall k :: 1 <= k < |Batches(rows)| ==> Batches(rows)[k] == rest[k - 1];
    } else if |rows| > 0 {
      assert Batches(rows) == [rows];
    }
  }
}
