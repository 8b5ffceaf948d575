/** Batched construction of the company-law vector store (initialize.py,
    the build branch of `initialize_vector_store`). The store is seen as the
    sequence of chunks it indexes and `merge_from` as appending, so the
    claims about batching become claims about partitions of a sequence. */
module IndexBuild {
  import opened Wrappers
  import opened Session

  /** An external call the initialisation makes, in the order it makes
      them; a call that raises is still recorded as attempted. */
  datatype Effect =
    | LoadIndex                                   // FAISS.load_local
    | DownloadPdf                                 // urlretrieve of the statute PDF
    | LoadPdf                                     // PyMuPDFLoader(...).load()
    | SplitDocuments                              // text_splitter.split_documents
    | EmbedBatch(index: nat, batch: seq<Document>)  // FAISS.from_documents(batch)
    | MergeBatch(index: nat)                      // vector_store.merge_from(batch store)
    | Progress(done: nat, total: nat)             // the "done/total バッチ完了" log line
    | SaveIndex(store: Store)                     // vector_store.save_local

  function Min(a: int, b: int): int {
    if a < b then a else b
  }

  /** The batches the code embeds: `texts[:size]` first (even when it is
      empty), then `texts[i:i + size]` for each `i` in `range(size, n, size)`. */
  function Batches(texts: seq<Document>, size: nat): seq<seq<Document>>
    requires size > 0
    decreases |texts|
  {
    if |texts| <= size then [texts] else [texts[..size]] + Batches(texts[size..], size)
  }

  /** All batches, one after the other: merging into the first store. */
  function Concat(batches: seq<seq<Document>>): seq<Document> {
    if |batches| == 0 then [] else batches[0] + Concat(batches[1..])
  }

  /** The batches partition the chunks: together, in order, they are
      exactly `texts`. */
  lemma {:induction false} BatchesPartition(texts: seq<Document>, size: nat)
    requires size > 0
    ensures Concat(Batches(texts, size)) == texts
    decreases |texts|
  {
    var bs := Batches(texts, size);
    if |texts| <= size {
      assert bs[1..] == [];
    } else {
      assert bs[0] == texts[..size] && bs[1..] == Batches(texts[size..], size);
      BatchesPartition(texts[size..], size);
      assert texts[..size] + texts[size..] == texts;
    }
  }

  /** No batch is larger than `size`, and when there is anything to embed
      no batch is empty. */
  lemma {:induction false} BatchesBounded(texts: seq<Document>, size: nat)
    requires size > 0
    ensures |Batches(texts, size)| >= 1
    ensures forall j | 0 <= j < |Batches(texts, size)| ::
      |Batches(texts, size)[j]| <= size && (|texts| > 0 ==> |Batches(texts, size)[j]| > 0)
    decreases |texts|
  {
    if |texts| > size {
      BatchesBounded(texts[size..], size);
      var bs := Batches(texts, size);
      assert forall j | 1 <= j < |bs| :: bs[j] == Batches(texts[size..], size)[j - 1];
    }
  }

  /** Batch `j` (counting from 1) exists exactly when the loop index
      `j * size` is still below the number of chunks. */
  lemma {:induction false} BatchExists(texts: seq<Document>, size: nat, j: nat)
    requires size > 0 && j >= 1
    ensures j < |Batches(texts, size)| <==> j * size < |texts|
    decreases j
  {
    if |texts| > size && j > 1 {
      BatchExists(texts[size..], size, j - 1);
      assert (j - 1) * size == j * size - size;
    }
  }

  /** Batch `j` is the slice `texts[j * size : j * size + size]`. */
  lemma {:induction false} BatchAt(texts: seq<Document>, size: nat, j: nat)
    requires size > 0 && j < |Batches(texts, size)|
    ensures j * size <= |texts|
    ensures Batches(texts, size)[j] == texts[j * size..Min(j * size + size, |texts|)]
    decreases j
  {
    if j > 0 {
      BatchAt(texts[size..], size, j - 1);
      assert (j - 1) * size == j * size - size;
      assert texts[size..][(j - 1) * size..Min((j - 1) * size + size, |texts| - size)]
        == texts[j * size..Min(j * size + size, |texts|)];
    }
  }

  lemma MulMonotone(a: int, b: int, c: nat)
    requires a <= b
    ensures a * c <= b * c
  {
    assert b * c - a * c == (b - a) * c;
  }

  /** Floor division is determined by its bracketing multiples. */
  lemma DivUnique(x: nat, size: nat, q: nat)
    requires size > 0
    requires q * size <= x < q * size + size
    ensures x / size == q
  {
    var d := x / size;
    assert x == d * size + x % size;
    assert (q - 1) * size == q * size - size && (q + 1) * size == q * size + size;
    if d < q {
      MulMonotone(d, q - 1, size);
    } else if d > q {
      MulMonotone(q + 1, d, size);
    }
  }

  lemma DivExact(k: nat, size: nat)
    requires size > 0
    ensures (k * size) / size == k
  {
    DivUnique(k * size, size, k);
  }

  /** When `k * size` is the first multiple of `size` that reaches `n`, the
      ceiling `(n + size - 1) // size` is `k`. */
  lemma CeilDiv(n: nat, size: nat, k: nat)
    requires size > 0 && k >= 1
    requires (k - 1) * size < n <= k * size
    ensures (n + size - 1) / size == k
  {
    assert (k - 1) * size == k * size - size;
    DivUnique(n + size - 1, size, k);
  }

  /** For at least one chunk the number of batches is `ceil(n / size)`,
      the total the progress log prints; with none there is still the one
      empty first batch while the log prints a total of 0. */
  lemma BatchCount(texts: seq<Document>, size: nat)
    requires size > 0
    ensures |texts| == 0 ==> |Batches(texts, size)| == 1 && ProgressTotal(0, size) == 0
    ensures |texts| >= 1 ==> |Batches(texts, size)| == ProgressTotal(|texts|, size)
  {
    var k := |Batches(texts, size)|;
    BatchesBounded(texts, size);
    if |texts| >= 1 {
      BatchExists(texts, size, k);
      if k > 1 {
        BatchExists(texts, size, k - 1);
      }
      CeilDiv(|texts|, size, k);
    }
  }

  /** The total shown in the progress log: `(n + size - 1) // size`. */
  function ProgressTotal(n: nat, size: nat): nat
    requires size > 0
  {
    (n + size - 1) / size
  }

  /** The calls for batch `j` when it succeeds: embed it, merge it unless it
      is the first (which becomes the store), and log `j + 1` of `total`. */
  function BatchSteps(batches: seq<seq<Document>>, j: nat, total: nat): seq<Effect>
    requires j < |batches|
  {
    [EmbedBatch(j, batches[j])] + (if j == 0 then [] else [MergeBatch(j)]) + [Progress(j + 1, total)]
  }

  /** The calls for the first `k` batches, all successful. */
  function StepsUpTo(batches: seq<seq<Document>>, k: nat, total: nat): seq<Effect>
    requires k <= |batches|
  {
    if k == 0 then [] else StepsUpTo(batches, k - 1, total) + BatchSteps(batches, k - 1, total)
  }

  /** The first of the batches `0 .. k-1` whose embedding raises. */
  function FirstFailure(fail: nat -> Option<string>, k: nat): (f: Option<nat>)
    ensures f.None? ==> forall j | 0 <= j < k :: fail(j).None?
    ensures f.Some? ==> f.value < k && fail(f.value).Some? && forall j | 0 <= j < f.value :: fail(j).None?
  {
    if k == 0 then None
    else
      match FirstFailure(fail, k - 1)
      case Some(j) => Some(j)
      case None => if fail(k - 1).Some? then Some(k - 1) else None
  }

  /** Once batch `k` has failed, looking further does not change the first
      failure. */
  lemma {:induction false} FirstFailureStays(fail: nat -> Option<string>, k: nat, m: nat)
    requires k < m
    requires FirstFailure(fail, k) == None && fail(k).Some?
    ensures FirstFailure(fail, m) == Some(k)
    decreases m
  {
    if m > k + 1 {
      FirstFailureStays(fail, k, m - 1);
    }
  }

  datatype BuildOutcome = BuildOutcome(store: Result<Store>, effects: seq<Effect>)

  /** Reference behaviour of the batch loop. `fail(j)` is the error raised
      while embedding batch `j`, if any. When no batch fails the store holds
      the concatenated batches; otherwise the build stops at the first
      failing batch with its error. */
  function EmbedAll(texts: seq<Document>, size: nat, fail: nat -> Option<string>): (r: BuildOutcome)
    requires size > 0
    ensures r.store.Success? <==> forall j | 0 <= j < |Batches(texts, size)| :: fail(j).None?
    ensures r.store.Success? ==> r.store.value == Store(texts)
  {
    var bs := Batches(texts, size);
    var total := ProgressTotal(|texts|, size);
    BatchesPartition(texts, size);
    match FirstFailure(fail, |bs|)
    case None => BuildOutcome(Success(Store(Concat(bs))), StepsUpTo(bs, |bs|, total))
    case Some(f) => BuildOutcome(Failure(fail(f).value), StepsUpTo(bs, f, total) + [EmbedBatch(f, bs[f])])
  }

  /** One pass of the batch loop, seen from batch `k >= 1`: its slice
      starts at `k * size`, its index is `k * size // size`, and a successful
      pass extends the merged chunks and the calls by exactly this batch. */
  lemma LoopStep(texts: seq<Document>, size: nat, i: nat, k: nat, total: nat)
    requires size > 0 && 1 <= k < |Batches(texts, size)| && i == k * size
    ensures i < |texts| && i / size == k && i + size == (k + 1) * size
    ensures Batches(texts, size)[k] == texts[i..Min(i + size, |texts|)]
    ensures texts[..Min(i + size, |texts|)] == texts[..Min(i, |texts|)] + Batches(texts, size)[k]
    ensures StepsUpTo(Batches(texts, size), k + 1, total)
      == StepsUpTo(Batches(texts, size), k, total)
         + [EmbedBatch(k, Batches(texts, size)[k]), MergeBatch(k), Progress(k + 1, total)]
    ensures k + 1 < |Batches(texts, size)| <==> i + size < |texts|
  {
    BatchExists(texts, size, k);
    BatchExists(texts, size, k + 1);
    DivExact(k, size);
    BatchAt(texts, size, k);
    assert (k + 1) * size == k * size + size;
  }

  /** The first batch is `texts[:size]`, and a second one exists exactly
      when the chunks do not fit in the first. */
  lemma FirstStep(texts: seq<Document>, size: nat, total: nat)
    requires size > 0
    ensures |Batches(texts, size)| >= 1
    ensures Batches(texts, size)[0] == texts[..Min(size, |texts|)]
    ensures StepsUpTo(Batches(texts, size), 1, total)
      == [EmbedBatch(0, Batches(texts, size)[0]), Progress(1, total)]
    ensures 1 < |Batches(texts, size)| <==> size < |texts|
  {
    BatchExists(texts, size, 1);
    BatchAt(texts, size, 0);
  }

  /** The reference outcome when batch `k` is the first to fail. */
  lemma StopsAt(texts: seq<Document>, size: nat, fail: nat -> Option<string>, k: nat)
    requires size > 0 && k < |Batches(texts, size)|
    requires FirstFailure(fail, k) == None && fail(k).Some?
    ensures EmbedAll(texts, size, fail) == BuildOutcome(
      Failure(fail(k).value),
      StepsUpTo(Batches(texts, size), k, ProgressTotal(|texts|, size)) + [EmbedBatch(k, Batches(texts, size)[k])])
  {
    FirstFailureStays(fail, k, |Batches(texts, size)|);
  }

  /** The reference outcome when no batch fails. */
  lemma Completes(texts: seq<Document>, size: nat, fail: nat -> Option<string>)
    requires size > 0
    requires FirstFailure(fail, |Batches(texts, size)|) == None
    ensures EmbedAll(texts, size, fail) == BuildOutcome(
      Success(Store(texts)),
      StepsUpTo(Batches(texts, size), |Batches(texts, size)|, ProgressTotal(|texts|, size)))
  {
    BatchesPartition(texts, size);
  }

  /** The batch loop as the code writes it: the first slice builds the
      store, then the index `i` runs over `range(size, n, size)`, each slice
      is embedded and merged, and the progress line prints `i // size + 1`.
      It behaves exactly like the reference `EmbedAll`. */
  method EmbedInBatches(texts: seq<Document>, size: nat, fail: nat -> Option<string>)
    returns (store: Result<Store>, effects: seq<Effect>)
    requires size > 0
    ensures BuildOutcome(store, effects) == EmbedAll(texts, size, fail)
  {
    var n := |texts|;
    var total := (n + size - 1) / size;
    FirstStep(texts, size, total);
    var first := texts[..Min(size, n)];
    effects := [EmbedBatch(0, first)];
    if fail(0).Some? {
      StopsAt(texts, size, fail, 0);
      store := Failure(fail(0).value);
      return;
    }
    effects := effects + [Progress(1, total)];
    store, effects := EmbedRemaining(texts, size, fail, total, first, effects);
  }

  /** The loop over `range(size, n, size)`, entered with the first batch
      embedded and logged. */
  method EmbedRemaining(texts: seq<Document>, size: nat, fail: nat -> Option<string>, total: nat,
                        first: seq<Document>, firstEffects: seq<Effect>)
    returns (store: Result<Store>, effects: seq<Effect>)
    requires size > 0 && total == ProgressTotal(|texts|, size)
    requires fail(0).None?
    requires first == texts[..Min(size, |texts|)]
    requires firstEffects == StepsUpTo(Batches(texts, size), 1, total)
    ensures BuildOutcome(store, effects) == EmbedAll(texts, size, fail)
  {
    ghost var bs := Batches(texts, size);
    var n := |texts|;
    FirstStep(texts, size, total);
    var acc := first;
    effects := firstEffects;
    var i := size;
    ghost var k := 1;
    while i < n
      invariant 1 <= k <= |bs|
      invariant i == k * size
      invariant k < |bs| <==> i < n
      invariant acc == texts[..Min(i, n)]
      invariant effects == StepsUpTo(bs, k, total)
      invariant FirstFailure(fail, k) == None
      decreases n - i
    {
      var batch := texts[i..Min(i + size, n)];
      var j := i / size;
      assert j == k && batch == bs[k] by {
        LoopStep(texts, size, i, k, total);
      }
      if fail(j).Some? {
        assert EmbedAll(texts, size, fail) == BuildOutcome(Failure(fail(j).value), effects + [EmbedBatch(j, batch)]) by {
          StopsAt(texts, size, fail, k);
        }
        effects := effects + [EmbedBatch(j, batch)];
        store := Failure(fail(j).value);
        return;
      }
      assert && acc + batch == texts[..Min(i + size, n)]
             && effects + [EmbedBatch(j, batch), MergeBatch(j), Progress(j + 1, total)] == StepsUpTo(bs, k + 1, total)
             && i + size == (k + 1) * size
             && (k + 1 < |bs| <==> i + size < n)
             && FirstFailure(fail, k + 1) == None
      by {
        LoopStep(texts, size, i, k, total);
      }
      acc := acc + batch;
      effects := effects + [EmbedBatch(j, batch), MergeBatch(j), Progress(j + 1, total)];
      i := i + size;
      k := k + 1;
    }
    assert acc == texts;
    Completes(texts, size, fail);
    store := Success(Store(acc));
  }

  /** The `done` counters of the progress lines, in order. */
  function ProgressIndices(effects: seq<Effect>): seq<nat> {
    if |effects| == 0 then []
    else
      var last := effects[|effects| - 1];
      ProgressIndices(effects[..|effects| - 1]) + (if last.Progress? then [last.done] else [])
  }

  /** The batches handed to `from_documents`, in order. */
  function EmbeddedBatches(effects: seq<Effect>): seq<seq<Document>> {
    if |effects| == 0 then []
    else
      var last := effects[|effects| - 1];
      EmbeddedBatches(effects[..|effects| - 1]) + (if last.EmbedBatch? then [last.batch] else [])
  }

  /** The number of `merge_from` calls. */
  function MergeCount(effects: seq<Effect>): nat {
    if |effects| == 0 then 0
    else
      var last := effects[|effects| - 1];
      MergeCount(effects[..|effects| - 1]) + (if last.MergeBatch? then 1 else 0)
  }

  lemma {:induction false} FiltersDistribute(a: seq<Effect>, b: seq<Effect>)
    ensures ProgressIndices(a + b) == ProgressIndices(a) + ProgressIndices(b)
    ensures EmbeddedBatches(a + b) == EmbeddedBatches(a) + EmbeddedBatches(b)
    ensures MergeCount(a + b) == MergeCount(a) + MergeCount(b)
    decreases |b|
  {
    if |b| == 0 {
      assert a + b == a;
    } else {
      var b' := b[..|b| - 1];
      assert (a + b)[..|a + b| - 1] == a + b';
      assert (a + b)[|a + b| - 1] == b[|b| - 1];
      FiltersDistribute(a, b');
    }
  }

  /** After `k` successful batches the progress log has printed 1, 2, ..., k
      (each once, increasing), every batch has been embedded in order, and
      every batch but the first has been merged. */
  lemma {:induction false} StepsAccount(batches: seq<seq<Document>>, k: nat, total: nat)
    requires k <= |batches|
    ensures ProgressIndices(StepsUpTo(batches, k, total)) == seq(k, i => i + 1)
    ensures EmbeddedBatches(StepsUpTo(batches, k, total)) == batches[..k]
    ensures MergeCount(StepsUpTo(batches, k, total)) == if k == 0 then 0 else k - 1
  {
    if k > 0 {
      var prev := StepsUpTo(batches, k - 1, total);
      var step := BatchSteps(batches, k - 1, total);
      StepsAccount(batches, k - 1, total);
      FiltersDistribute(prev, step);
      var m := if k - 1 == 0 then [] else [MergeBatch(k - 1)];
      FiltersDistribute([EmbedBatch(k - 1, batches[k - 1])], m);
      FiltersDistribute([EmbedBatch(k - 1, batches[k - 1])] + m, [Progress(k, total)]);
      assert [EmbedBatch(k - 1, batches[k - 1])][..0] == [];
      assert [Progress(k, total)][..0] == [];
      assert m != [] ==> m[..0] == [];
      assert batches[..k] == batches[..k - 1] + [batches[k - 1]];
    }
  }

  /** A complete build embeds exactly the partition of the chunks, in
      order, merges all batches after the first, and logs the progress
      indices 1 .. ceil(n / size) once each. */
  lemma BuildAccount(texts: seq<Document>, size: nat, fail: nat -> Option<string>)
    requires size > 0
    requires EmbedAll(texts, size, fail).store.Success?
    ensures var effects := EmbedAll(texts, size, fail).effects;
      && EmbeddedBatches(effects) == Batches(texts, size)
      && MergeCount(effects) == |Batches(texts, size)| - 1
      && ProgressIndices(effects) == seq(|Batches(texts, size)|, i => i + 1)
      && (|texts| >= 1 ==> |ProgressIndices(effects)| == ProgressTotal(|texts|, size))
  {
    var bs := Batches(texts, size);
    BatchesBounded(texts, size);
    BatchCount(texts, size);
    StepsAccount(bs, |bs|, ProgressTotal(|texts|, size));
    assert bs[..|bs|] == bs;
  }
}
