/**
 * The batch inserter that each `batchImport*` function of import.go (and each
 * `import*` function of cmd/gtfs/commands/import.go) repeats for one record
 * type: read the decoded records one at a time, buffer them, write every full
 * buffer of `batchSize` records as one unit, flush a trailing partial buffer,
 * and stop at the first failed write.
 *
 * The eight copies differ only in their record type and in the `ItemType`
 * they tag their result with, so they are one generic method here. The store
 * is a write log with a failure oracle: `Db.rejects` holds the numbers of the
 * writes (counted from 0 over the store's lifetime) that fail.
 */
module BatchInsert {
  import opened Wrappers
  import opened Entities

  /** `batchSize`: the number of records written as one unit. */
  const BatchSize: nat := 1000

  function Min(a: int, b: int): int {
    if a <= b then a else b
  }

  /** Why the import of one source reports an error. */
  datatype ImportError =
    | OpenFailed(path: string)
    | UnknownItemType(kind: ItemType)
    | DecodeFailed(message: string)
    | WriteFailed(attempt: nat)

  /**
   * `ImportItemsResult` without its elapsed time: the kind, the records and
   * batches written, and the error if the import failed. Every error path
   * leaves `Count` and `Batches` at zero.
   */
  datatype ImportItemsResult = ImportItemsResult(itemType: ItemType, count: nat, batches: nat, error: Option<ImportError>)

  /** The records of a sequence of writes, in write order. */
  function Flatten<T>(writes: seq<seq<T>>): seq<T> {
    if writes == [] then [] else writes[0] + Flatten(writes[1..])
  }

  /**
   * The batches the inserter writes when no write fails: consecutive runs of
   * `BatchSize` records, then the rest if any. There are ⌈N/1000⌉ of them,
   * none empty, all but the last full, and together they are the input in
   * arrival order.
   */
  function Chunks<T>(s: seq<T>): seq<seq<T>>
    decreases |s|
  {
    if s == [] then []
    else if |s| <= BatchSize then [s]
    else [s[..BatchSize]] + Chunks(s[BatchSize..])
  }

  lemma {:induction false} ChunksShape<T>(s: seq<T>)
    ensures |Chunks(s)| == (|s| + BatchSize - 1) / BatchSize
    ensures forall j :: 0 <= j < |Chunks(s)| ==> 1 <= |Chunks(s)[j]| <= BatchSize
    ensures forall j :: 0 <= j < |Chunks(s)| - 1 ==> |Chunks(s)[j]| == BatchSize
    ensures Flatten(Chunks(s)) == s
    decreases |s|
  {
    if s == [] {
    } else if |s| <= BatchSize {
      assert Flatten([s]) == s + Flatten([]);
    } else {
      var rest := s[BatchSize..];
      ChunksShape(rest);
      var r := Chunks(s);
      assert r[1..] == Chunks(rest);
      assert s[..BatchSize] + rest == s;
    }
  }

  /** The j-th batch is the j-th run of `BatchSize` records (the last may be short). */
  lemma {:induction false} ChunkAt<T>(s: seq<T>, j: nat)
    requires j < |Chunks(s)|
    ensures j * BatchSize < |s|
    ensures Chunks(s)[j] == s[j * BatchSize .. Min((j + 1) * BatchSize, |s|)]
    decreases j
  {
    if j > 0 {
      ChunkAt(s[BatchSize..], j - 1);
    }
  }

  /** The first k batches hold the first `k * BatchSize` records. */
  lemma {:induction false} FlattenChunksPrefix<T>(s: seq<T>, k: nat)
    requires k <= |Chunks(s)|
    ensures Flatten(Chunks(s)[..k]) == s[..Min(k * BatchSize, |s|)]
    decreases k
  {
    if k == 0 {
      assert Chunks(s)[..0] == [];
    } else if |s| <= BatchSize {
      assert Chunks(s)[..k] == Chunks(s);
    } else {
      var rest := s[BatchSize..];
      FlattenChunksPrefix(rest, k - 1);
      assert Chunks(s)[..k] == [s[..BatchSize]] + Chunks(rest)[..k - 1];
      assert Flatten(Chunks(s)[..k]) == s[..BatchSize] + Flatten(Chunks(rest)[..k - 1]);
      assert s[..BatchSize] + rest[..Min((k - 1) * BatchSize, |rest|)] == s[..Min(k * BatchSize, |s|)];
    }
  }

  /** A buffer that fills up holds the next batch. */
  lemma ChunkFull<T>(s: seq<T>, b: nat)
    requires (b + 1) * BatchSize <= |s|
    ensures b < |Chunks(s)| && Chunks(s)[b] == s[b * BatchSize .. (b + 1) * BatchSize]
  {
    ChunksShape(s);
    ChunkAt(s, b);
  }

  /** A non-empty buffer left at the end of the input holds the last batch. */
  lemma ChunkLast<T>(s: seq<T>, b: nat)
    requires b * BatchSize < |s| < (b + 1) * BatchSize
    ensures |Chunks(s)| == b + 1 && Chunks(s)[b] == s[b * BatchSize..]
  {
    ChunksShape(s);
    ChunkAt(s, b);
  }

  /** An input that fills its last buffer exactly has no trailing batch. */
  lemma ChunksExact<T>(s: seq<T>, b: nat)
    requires |s| == b * BatchSize
    ensures |Chunks(s)| == b
  {
    ChunksShape(s);
  }

  /**
   * The store as the inserter sees it: the batches written so far, the number
   * of writes issued, and which writes fail. A failed write stores nothing.
   */
  class Db<T> {
    var written: seq<seq<T>>
    var attempts: nat
    const rejects: set<nat>

    constructor (rejects: set<nat>)
      ensures written == [] && attempts == 0 && this.rejects == rejects
    {
      written := [];
      attempts := 0;
      this.rejects := rejects;
    }

    /** `db.Create(batch)`: one write of a whole batch. */
    method Create(batch: seq<T>) returns (err: Option<ImportError>)
      modifies this
      ensures attempts == old(attempts) + 1
      ensures old(attempts) in rejects ==> err == Some(WriteFailed(old(attempts))) && written == old(written)
      ensures old(attempts) !in rejects ==> err == None && written == old(written) + [batch]
    {
      if attempts in rejects {
        err := Some(WriteFailed(attempts));
      } else {
        written := written + [batch];
        err := None;
      }
      attempts := attempts + 1;
    }
  }

  /** The position of the first failing write among n writes numbered from `start`, or n. */
  function FirstRejected(start: nat, n: nat, rejects: set<nat>): (k: nat)
    ensures k <= n
    decreases n
  {
    if n == 0 || start in rejects then 0
    else 1 + FirstRejected(start + 1, n - 1, rejects)
  }

  /** The writes before the first failing one all succeed, and that one fails. */
  lemma {:induction false} FirstRejectedSpec(start: nat, n: nat, rejects: set<nat>)
    ensures var k := FirstRejected(start, n, rejects);
      && (forall a :: start <= a < start + k ==> a !in rejects)
      && (k < n ==> start + k in rejects)
    decreases n
  {
    if n != 0 && start !in rejects {
      FirstRejectedSpec(start + 1, n - 1, rejects);
    }
  }

  /** What one run of the inserter does: the batches it stores, the writes it issues, its result. */
  datatype BatchRun<T> = BatchRun(written: seq<seq<T>>, attempts: nat, result: ImportItemsResult)

  /**
   * The run of the inserter over `items` against a store whose next write is
   * number `start`: the batches are written in order until one fails; that
   * write is the last one issued and its error is reported for `kind`.
   */
  function BatchOutcome<T>(items: seq<T>, kind: ItemType, start: nat, rejects: set<nat>): BatchRun<T> {
    var chunks := Chunks(items);
    var k := FirstRejected(start, |chunks|, rejects);
    if k < |chunks| then
      BatchRun(chunks[..k], k + 1, ImportItemsResult(kind, 0, 0, Some(WriteFailed(start + k))))
    else
      BatchRun(chunks, |chunks|, ImportItemsResult(kind, |items|, |chunks|, None))
  }

  /** The run when write number `start + k` is the first to fail. */
  lemma OutcomeFailsAt<T>(items: seq<T>, kind: ItemType, start: nat, rejects: set<nat>, k: nat)
    requires k < |Chunks(items)| && start + k in rejects
    requires forall a :: start <= a < start + k ==> a !in rejects
    ensures BatchOutcome(items, kind, start, rejects)
      == BatchRun(Chunks(items)[..k], k + 1, ImportItemsResult(kind, 0, 0, Some(WriteFailed(start + k))))
  {
    FirstRejectedSpec(start, |Chunks(items)|, rejects);
    assert FirstRejected(start, |Chunks(items)|, rejects) == k;
  }

  /** The run when none of its writes fails. */
  lemma OutcomeSucceeds<T>(items: seq<T>, kind: ItemType, start: nat, rejects: set<nat>)
    requires forall a :: start <= a < start + |Chunks(items)| ==> a !in rejects
    ensures BatchOutcome(items, kind, start, rejects)
      == BatchRun(Chunks(items), |Chunks(items)|, ImportItemsResult(kind, |items|, |Chunks(items)|, None))
  {
    FirstRejectedSpec(start, |Chunks(items)|, rejects);
    assert FirstRejected(start, |Chunks(items)|, rejects) == |Chunks(items)|;
  }

  /**
   * `db.Create(batch)` for the b-th batch of the input, with the inserter's
   * reaction: on failure the run ends as `BatchOutcome` says, otherwise one
   * more batch is stored.
   */
  method WriteBatch<T>(db: Db<T>, items: seq<T>, kind: ItemType, batch: seq<T>, b: nat,
                       ghost start: nat, ghost base: seq<seq<T>>) returns (err: Option<ImportError>)
    requires b < |Chunks(items)| && batch == Chunks(items)[b]
    requires db.written == base + Chunks(items)[..b] && db.attempts == start + b
    requires forall a :: start <= a < start + b ==> a !in db.rejects
    modifies db
    ensures err.Some? ==>
      var run := BatchOutcome(items, kind, start, db.rejects);
      && db.written == base + run.written
      && db.attempts == start + run.attempts
      && run.result == ImportItemsResult(kind, 0, 0, err)
    ensures err.None? ==>
      && db.written == base + Chunks(items)[..b + 1]
      && db.attempts == start + b + 1
      && forall a :: start <= a < start + b + 1 ==> a !in db.rejects
  {
    err := db.Create(batch);
    if err.Some? {
      OutcomeFailsAt(items, kind, start, db.rejects, b);
    } else {
      assert Chunks(items)[..b + 1] == Chunks(items)[..b] + [batch];
    }
  }

  /**
   * One `batchImport*` function: counts and buffers the records one by one,
   * writes each full buffer, flushes the trailing partial buffer, and returns
   * at the first failed write.
   */
  method BatchImport<T>(db: Db<T>, items: seq<T>, kind: ItemType) returns (r: ImportItemsResult)
    modifies db
    ensures var run := BatchOutcome(items, kind, old(db.attempts), db.rejects);
      && db.written == old(db.written) + run.written
      && db.attempts == old(db.attempts) + run.attempts
      && r == run.result
  {
    ghost var start := db.attempts;
    ghost var base := db.written;
    var itemCount: nat := 0;
    var batchCount: nat := 0;
    var batch: seq<T> := [];
    var i := 0;
    while i < |items|
      invariant 0 <= i <= |items|
      invariant itemCount == i
      invariant |batch| < BatchSize
      invariant i == batchCount * BatchSize + |batch|
      invariant batch == items[batchCount * BatchSize .. i]
      invariant batchCount <= |Chunks(items)|
      invariant db.written == base + Chunks(items)[..batchCount]
      invariant db.attempts == start + batchCount
      invariant forall a :: start <= a < start + batchCount ==> a !in db.rejects
    {
      itemCount := itemCount + 1;
      assert items[batchCount * BatchSize .. i + 1] == items[batchCount * BatchSize .. i] + [items[i]];
      batch := batch + [items[i]];
      i := i + 1;
      if |batch| == BatchSize {
        ChunkFull(items, batchCount);
        var err := WriteBatch(db, items, kind, batch, batchCount, start, base);
        if err.Some? {
          return ImportItemsResult(kind, 0, 0, err);
        }
        batchCount := batchCount + 1;
        batch := [];
      }
    }
    if |batch| > 0 {
      ChunkLast(items, batchCount);
      var err := WriteBatch(db, items, kind, batch, batchCount, start, base);
      if err.Some? {
        return ImportItemsResult(kind, 0, 0, err);
      }
      batchCount := batchCount + 1;
    } else {
      ChunksExact(items, batchCount);
    }
    assert Chunks(items)[..batchCount] == Chunks(items);
    OutcomeSucceeds(items, kind, start, db.rejects);
    r := ImportItemsResult(kind, itemCount, batchCount, None);
  }

  /**
   * With no failing write, N records give `Count` N and `Batches` ⌈N/1000⌉
   * (none for no records), and the batches written are the input in order.
   */
  lemma NoFailureCounts<T>(items: seq<T>, kind: ItemType, start: nat, rejects: set<nat>)
    requires forall a :: start <= a < start + (|items| + BatchSize - 1) / BatchSize ==> a !in rejects
    ensures var run := BatchOutcome(items, kind, start, rejects);
      && run.result == ImportItemsResult(kind, |items|, (|items| + BatchSize - 1) / BatchSize, None)
      && (run.result.batches == 0 <==> items == [])
      && Flatten(run.written) == items
      && run.attempts == |run.written|
  {
    ChunksShape(items);
    OutcomeSucceeds(items, kind, start, rejects);
  }

  /**
   * Whatever fails, each issued write holds 1 to 1000 records, every write
   * but the last holds exactly 1000, and the stored batches are the first
   * records of the input in arrival order.
   */
  lemma WritesAreBatches<T>(items: seq<T>, kind: ItemType, start: nat, rejects: set<nat>)
    ensures var run := BatchOutcome(items, kind, start, rejects);
      && (forall j :: 0 <= j < |run.written| ==> 1 <= |run.written[j]| <= BatchSize)
      && (forall j :: 0 <= j < |run.written| - 1 ==> |run.written[j]| == BatchSize)
      && Flatten(run.written) == items[..Min(|run.written| * BatchSize, |items|)]
  {
    ChunksShape(items);
    var chunks := Chunks(items);
    var k := FirstRejected(start, |chunks|, rejects);
    FlattenChunksPrefix(items, if k < |chunks| then k else |chunks|);
    assert chunks[..|chunks|] == chunks;
  }

  /**
   * The first failed write ends the run: its error is reported under the
   * inserter's kind with zero counts, no later write is issued, and the
   * batches written before it stay stored.
   */
  lemma FailureStops<T>(items: seq<T>, kind: ItemType, start: nat, rejects: set<nat>)
    ensures var run := BatchOutcome(items, kind, start, rejects);
      run.result.error.Some? ==>
        && run.result == ImportItemsResult(kind, 0, 0, Some(WriteFailed(start + |run.written|)))
        && start + |run.written| in rejects
        && (forall a :: start <= a < start + |run.written| ==> a !in rejects)
        && run.attempts == |run.written| + 1
        && run.written == Chunks(items)[..|run.written|]
        && |run.written| * BatchSize < |items|
        && Flatten(run.written) == items[..|run.written| * BatchSize]
  {
    ChunksShape(items);
    var chunks := Chunks(items);
    var k := FirstRejected(start, |chunks|, rejects);
    FirstRejectedSpec(start, |chunks|, rejects);
    if k < |chunks| {
      FlattenChunksPrefix(items, k);
      ChunkAt(items, k);
    }
  }
}
