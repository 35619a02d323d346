/** The Megatron runtime's view of a request: rectangular tensors, their microbatches and the loss
    reported over them. Tensors are rows of mathematical integers and reals. */
module TensorBatches {
  import opened Wrappers
  import opened Contracts
  import opened Seqs

  datatype TensorBatch = TensorBatch(inputIds: seq<seq<int>>, targetTokens: seq<seq<int>>, weights: seq<seq<real>>) {
    /** shape[0] * shape[1] of a two-dimensional tensor. */
    function TokenCount(): nat {
      if inputIds == [] then 0 else |inputIds| * |inputIds[0]|
    }
  }

  /** int(value): truncation toward zero. */
  function Truncate(value: real): int {
    if value >= 0.0 then value.Floor else -((-value).Floor)
  }

  function Truncated(values: seq<real>): seq<int> {
    seq(|values|, i requires 0 <= i < |values| => Truncate(values[i]))
  }

  predicate RowAccepted(d: Datum) {
    && d.tokenIds != []
    && "target_tokens" in d.lossFnInputs && |d.lossFnInputs["target_tokens"]| == |d.tokenIds|
    && "weights" in d.lossFnInputs && |d.lossFnInputs["weights"]| == |d.tokenIds|
  }

  predicate Accepted(data: seq<Datum>, lossFn: string) {
    && lossFn == "cross_entropy"
    && data != []
    && forall i :: 0 <= i < |data| ==> RowAccepted(data[i]) && |data[i].tokenIds| == |data[0].tokenIds|
  }

  function TargetRow(d: Datum): seq<int>
    requires RowAccepted(d)
  {
    Truncated(d.lossFnInputs["target_tokens"])
  }

  function WeightRow(d: Datum): seq<real>
    requires RowAccepted(d)
  {
    d.lossFnInputs["weights"]
  }

  /** Row i of each tensor comes from datum i. */
  function BatchOf(data: seq<Datum>): TensorBatch
    requires forall i :: 0 <= i < |data| ==> RowAccepted(data[i])
  {
    TensorBatch(
      seq(|data|, i requires 0 <= i < |data| => data[i].tokenIds),
      seq(|data|, i requires 0 <= i < |data| => TargetRow(data[i])),
      seq(|data|, i requires 0 <= i < |data| => WeightRow(data[i])))
  }

  function ToTensorBatch(data: seq<Datum>, lossFn: string): Result<TensorBatch, Error> {
    if Accepted(data, lossFn) then Ok(BatchOf(data)) else Err(InvalidRequest)
  }

  /** int() of a number: the nearest integer that is not further from zero. */
  ghost predicate CutsTowardZero(value: real, n: int) {
    if value >= 0.0 then n as real <= value < (n + 1) as real else (n - 1) as real < value <= n as real
  }

  /** Row by row, the tokens, target tokens and weights that were sent. */
  ghost predicate Converts(data: seq<Datum>, batch: TensorBatch) {
    && |batch.inputIds| == |batch.targetTokens| == |batch.weights| == |data|
    && forall i :: 0 <= i < |data| ==>
         && "target_tokens" in data[i].lossFnInputs && "weights" in data[i].lossFnInputs
         && batch.inputIds[i] == data[i].tokenIds
         && |batch.targetTokens[i]| == |data[i].lossFnInputs["target_tokens"]|
         && (forall j :: 0 <= j < |batch.targetTokens[i]| ==>
               CutsTowardZero(data[i].lossFnInputs["target_tokens"][j], batch.targetTokens[i][j]))
         && batch.weights[i] == data[i].lossFnInputs["weights"]
  }

  lemma BatchConverts(data: seq<Datum>)
    requires forall i :: 0 <= i < |data| ==> RowAccepted(data[i])
    ensures Converts(data, BatchOf(data))
  {
    forall i, j | 0 <= i < |data| && 0 <= j < |data[i].lossFnInputs["target_tokens"]|
      ensures CutsTowardZero(data[i].lossFnInputs["target_tokens"][j], BatchOf(data).targetTokens[i][j])
    {
      TruncateCuts(data[i].lossFnInputs["target_tokens"][j]);
    }
  }

  lemma TruncateCuts(value: real)
    ensures CutsTowardZero(value, Truncate(value))
  {
  }

  /** There is only one way to convert data like that. */
  lemma ConversionIsUnique(data: seq<Datum>, batch: TensorBatch)
    requires (forall i :: 0 <= i < |data| ==> RowAccepted(data[i])) && Converts(data, batch)
    ensures batch == BatchOf(data)
  {
    var other := BatchOf(data);
    BatchConverts(data);
    forall i | 0 <= i < |data| ensures batch.targetTokens[i] == other.targetTokens[i] {
      forall j | 0 <= j < |batch.targetTokens[i]| ensures batch.targetTokens[i][j] == other.targetTokens[i][j] {
        var value := data[i].lossFnInputs["target_tokens"][j];
        assert CutsTowardZero(value, batch.targetTokens[i][j]) && CutsTowardZero(value, other.targetTokens[i][j]);
      }
    }
    assert batch.inputIds == other.inputIds && batch.targetTokens == other.targetTokens;
    assert batch.weights == other.weights;
  }

  method DatumsToTensorBatch(data: seq<Datum>, lossFn: string) returns (r: Result<TensorBatch, Error>)
    ensures r.Ok? <==>
      && lossFn == "cross_entropy" && data != []
      && forall i :: 0 <= i < |data| ==>
           && |data[i].tokenIds| == |data[0].tokenIds| > 0
           && "target_tokens" in data[i].lossFnInputs && "weights" in data[i].lossFnInputs
           && |data[i].lossFnInputs["target_tokens"]| == |data[i].lossFnInputs["weights"]| == |data[i].tokenIds|
    ensures r.Err? ==> r.error == InvalidRequest
    ensures r.Ok? ==> Converts(data, r.value)
    ensures r == ToTensorBatch(data, lossFn)
  {
    if lossFn != "cross_entropy" || data == [] {
      return Err(InvalidRequest);
    }
    var tokenRows: seq<seq<int>> := [];
    var targetRows: seq<seq<int>> := [];
    var weightRows: seq<seq<real>> := [];
    var expected: Option<nat> := None;
    for index := 0 to |data|
      invariant forall i :: 0 <= i < index ==> RowAccepted(data[i]) && |data[i].tokenIds| == |data[0].tokenIds|
      invariant expected == if index == 0 then None else Some(|data[0].tokenIds|)
      invariant TensorBatch(tokenRows, targetRows, weightRows) == BatchOf(data[..index])
    {
      var tokens := data[index].tokenIds;
      if tokens == [] {
        return Err(InvalidRequest);
      }
      if "target_tokens" !in data[index].lossFnInputs || "weights" !in data[index].lossFnInputs {
        return Err(InvalidRequest);
      }
      var targets := data[index].lossFnInputs["target_tokens"];
      var weights := data[index].lossFnInputs["weights"];
      if |targets| != |tokens| || |weights| != |tokens| {
        return Err(InvalidRequest);
      }
      if expected == None {
        expected := Some(|tokens|);
      } else if |tokens| != expected.value {
        return Err(InvalidRequest);
      }
      tokenRows := tokenRows + [tokens];
      targetRows := targetRows + [Truncated(targets)];
      weightRows := weightRows + [weights];
    }
    assert data[..|data|] == data;
    BatchConverts(data);
    r := Ok(TensorBatch(tokenRows, targetRows, weightRows));
  }

  function TokenTotal(data: seq<Datum>): nat {
    if data == [] then 0 else |data[0].tokenIds| + TokenTotal(data[1..])
  }

  lemma {:induction false} EqualRowsTotal(data: seq<Datum>, length: nat)
    requires forall i :: 0 <= i < |data| ==> |data[i].tokenIds| == length
    ensures TokenTotal(data) == |data| * length
  {
    if data != [] {
      EqualRowsTotal(data[1..], length);
      assert |data| * length == (|data| - 1) * length + length;
    }
  }

  /** The token count of an accepted request is the number of tokens sent. */
  lemma TokenCountIsTotal(data: seq<Datum>, lossFn: string)
    requires Accepted(data, lossFn)
    ensures BatchOf(data).TokenCount() == TokenTotal(data)
  {
    EqualRowsTotal(data, |data[0].tokenIds|);
  }

  // ---------------------------------------------------------------- microbatches

  ghost predicate Aligned(batch: TensorBatch) {
    |batch.inputIds| == |batch.targetTokens| == |batch.weights|
  }

  /** What a batch needs to be split. */
  predicate Splits(batch: TensorBatch, microBatchSize: int) {
    microBatchSize > 0 && batch.inputIds != [] && |batch.inputIds| % microBatchSize == 0
  }

  /** A contiguous group of rows, the same in all three tensors. */
  function Rows(batch: TensorBatch, start: nat, end: nat): TensorBatch
    requires start <= end <= |batch.inputIds| == |batch.targetTokens| == |batch.weights|
  {
    TensorBatch(batch.inputIds[start..end], batch.targetTokens[start..end], batch.weights[start..end])
  }

  /** The batch cut into consecutive groups of size rows. */
  function Microbatches(batch: TensorBatch, size: nat): (parts: seq<TensorBatch>)
    requires Aligned(batch) && size > 0 && |batch.inputIds| % size == 0
    decreases |batch.inputIds|
  {
    if batch.inputIds == [] then [] else
      assert |batch.inputIds| >= size && (|batch.inputIds| - size) % size == 0 by {
        DividedTail(|batch.inputIds|, size);
      }
      [Rows(batch, 0, size)] + Microbatches(Rows(batch, size, |batch.inputIds|), size)
  }

  lemma NextMicrobatch(batch: TensorBatch, start: nat, size: nat)
    requires Aligned(batch) && size > 0 && start < |batch.inputIds|
    requires (|batch.inputIds| - start) % size == 0
    ensures start + size <= |batch.inputIds| && (|batch.inputIds| - (start + size)) % size == 0
    ensures Microbatches(Rows(batch, start, |batch.inputIds|), size)
         == [Rows(batch, start, start + size)] + Microbatches(Rows(batch, start + size, |batch.inputIds|), size)
  {
    var total := |batch.inputIds|;
    DividedTail(total - start, size);
    var rest := Rows(batch, start, total);
    assert Rows(rest, 0, size) == Rows(batch, start, start + size);
    assert Rows(rest, size, total - start) == Rows(batch, start + size, total);
  }

  lemma {:induction false} MicrobatchCount(batch: TensorBatch, size: nat)
    requires Aligned(batch) && size > 0 && |batch.inputIds| % size == 0
    ensures |batch.inputIds| == size * |Microbatches(batch, size)|
    decreases |batch.inputIds|
  {
    if batch.inputIds != [] {
      DividedTail(|batch.inputIds|, size);
      var rest := Rows(batch, size, |batch.inputIds|);
      MicrobatchCount(rest, size);
      MulNext(size, |Microbatches(batch, size)|);
    }
  }

  /** Row i of microbatch k is row size * k + i of the batch, in all three tensors. */
  ghost predicate IsRow(batch: TensorBatch, size: nat, k: nat, part: TensorBatch, i: nat)
    requires Aligned(batch) && Aligned(part) && i < |part.inputIds|
  {
    var row := size * k + i;
    && row < |batch.inputIds|
    && part.inputIds[i] == batch.inputIds[row] && part.targetTokens[i] == batch.targetTokens[row]
    && part.weights[i] == batch.weights[row]
  }

  ghost predicate IsMicrobatch(batch: TensorBatch, size: nat, k: nat, part: TensorBatch)
    requires Aligned(batch)
  {
    && Aligned(part) && |part.inputIds| == size
    && forall i :: 0 <= i < size ==> IsRow(batch, size, k, part, i)
  }

  /** Groups of size rows, in order and all of them. */
  ghost predicate AreMicrobatches(batch: TensorBatch, size: nat, parts: seq<TensorBatch>)
    requires Aligned(batch)
  {
    && |batch.inputIds| == size * |parts|
    && forall k :: 0 <= k < |parts| ==> IsMicrobatch(batch, size, k, parts[k])
  }

  lemma {:induction false} MicrobatchAt(batch: TensorBatch, size: nat, k: nat)
    requires Aligned(batch) && size > 0 && |batch.inputIds| % size == 0 && k < |Microbatches(batch, size)|
    ensures IsMicrobatch(batch, size, k, Microbatches(batch, size)[k])
    decreases |batch.inputIds|
  {
    DividedTail(|batch.inputIds|, size);
    if k == 0 {
      FirstMicrobatch(batch, size);
    } else {
      MicrobatchAt(Rows(batch, size, |batch.inputIds|), size, k - 1);
      LaterMicrobatch(batch, size, k, Microbatches(batch, size)[k]);
    }
  }

  lemma FirstMicrobatch(batch: TensorBatch, size: nat)
    requires Aligned(batch) && size <= |batch.inputIds|
    ensures IsMicrobatch(batch, size, 0, Rows(batch, 0, size))
  {
    forall i | 0 <= i < size ensures IsRow(batch, size, 0, Rows(batch, 0, size), i) {}
  }

  lemma LaterMicrobatch(batch: TensorBatch, size: nat, k: nat, part: TensorBatch)
    requires Aligned(batch) && size <= |batch.inputIds| && k > 0
    requires IsMicrobatch(Rows(batch, size, |batch.inputIds|), size, k - 1, part)
    ensures IsMicrobatch(batch, size, k, part)
  {
    MulNext(size, k);
    forall i | 0 <= i < size ensures IsRow(batch, size, k, part, i) {
      assert IsRow(Rows(batch, size, |batch.inputIds|), size, k - 1, part, i);
    }
  }

  lemma MicrobatchesInOrder(batch: TensorBatch, size: nat)
    requires Aligned(batch) && size > 0 && |batch.inputIds| % size == 0
    ensures AreMicrobatches(batch, size, Microbatches(batch, size))
  {
    MicrobatchCount(batch, size);
    forall k | 0 <= k < |Microbatches(batch, size)|
      ensures IsMicrobatch(batch, size, k, Microbatches(batch, size)[k])
    {
      MicrobatchAt(batch, size, k);
    }
  }

  lemma WholeBatch(batch: TensorBatch)
    requires Aligned(batch)
    ensures Rows(batch, 0, |batch.inputIds|) == batch
  {
  }

  lemma OneMicrobatch(batch: TensorBatch)
    requires Aligned(batch) && batch.inputIds != []
    ensures |batch.inputIds| % |batch.inputIds| == 0 && Microbatches(batch, |batch.inputIds|) == [batch]
  {
    WholeBatch(batch);
    MultipleMod(1, |batch.inputIds|);
    NextMicrobatch(batch, 0, |batch.inputIds|);
  }

  method SplitTensorBatch(batch: TensorBatch, microBatchSize: int) returns (r: Result<seq<TensorBatch>, Error>)
    requires Aligned(batch)
    ensures r.Ok? <==> microBatchSize > 0 && batch.inputIds != [] && |batch.inputIds| % microBatchSize == 0
    ensures r.Err? ==> r.error == InvalidRequest
    ensures r.Ok? ==> AreMicrobatches(batch, microBatchSize, r.value)
    ensures r.Ok? ==> r.value == Microbatches(batch, microBatchSize)
  {
    if microBatchSize <= 0 {
      return Err(InvalidRequest);
    }
    var total := |batch.inputIds|;
    if total <= 0 || total % microBatchSize != 0 {
      return Err(InvalidRequest);
    }
    WholeBatch(batch);
    if total == microBatchSize {
      OneMicrobatch(batch);
      MicrobatchesInOrder(batch, microBatchSize);
      return Ok([batch]);
    }
    var microbatches: seq<TensorBatch> := [];
    var start := 0;
    while start < total
      invariant 0 <= start <= total
      invariant (total - start) % microBatchSize == 0
      invariant microbatches + Microbatches(Rows(batch, start, total), microBatchSize)
             == Microbatches(batch, microBatchSize)
    {
      NextMicrobatch(batch, start, microBatchSize);
      var end := start + microBatchSize;
      Associates(microbatches, [Rows(batch, start, end)], Microbatches(Rows(batch, end, total), microBatchSize));
      microbatches := microbatches + [Rows(batch, start, end)];
      start := end;
    }
    assert microbatches == Microbatches(batch, microBatchSize) by {
      assert Microbatches(Rows(batch, total, total), microBatchSize) == [];
      assert microbatches + [] == microbatches;
    }
    MicrobatchesInOrder(batch, microBatchSize);
    r := Ok(microbatches);
  }

  /** Microbatch by microbatch, the rows of a group of data. */
  function BatchesOf(groups: seq<seq<Datum>>): seq<TensorBatch>
    requires forall d :: d in Flatten(groups) ==> RowAccepted(d)
  {
    if groups == [] then []
    else [BatchOf(groups[0])] + BatchesOf(groups[1..])
  }

  lemma BatchOfConcat(a: seq<Datum>, b: seq<Datum>)
    requires forall d :: d in a + b ==> RowAccepted(d)
    ensures forall d :: d in a || d in b ==> RowAccepted(d)
    ensures Rows(BatchOf(a + b), 0, |a|) == BatchOf(a)
    ensures Rows(BatchOf(a + b), |a|, |a| + |b|) == BatchOf(b)
  {
    forall d | d in a || d in b ensures RowAccepted(d) {
      assert d in a + b;
    }
    var batch := BatchOf(a + b);
    assert forall i :: 0 <= i < |a| ==> (a + b)[i] == a[i];
    assert forall i :: 0 <= i < |b| ==> (a + b)[|a| + i] == b[i];
    var left, right := Rows(batch, 0, |a|), Rows(batch, |a|, |a| + |b|);
    assert left.inputIds == BatchOf(a).inputIds && right.inputIds == BatchOf(b).inputIds;
    assert left.targetTokens == BatchOf(a).targetTokens && right.targetTokens == BatchOf(b).targetTokens;
    assert left.weights == BatchOf(a).weights && right.weights == BatchOf(b).weights;
  }

  lemma MicrobatchesConcat(first: seq<Datum>, rest: seq<Datum>, size: nat)
    requires size > 0 && |first| == size && |rest| % size == 0 && |first + rest| % size == 0
    requires forall d :: d in first + rest ==> RowAccepted(d)
    ensures forall d :: d in first || d in rest ==> RowAccepted(d)
    ensures Microbatches(BatchOf(first + rest), size) == [BatchOf(first)] + Microbatches(BatchOf(rest), size)
  {
    var batch := BatchOf(first + rest);
    BatchOfConcat(first, rest);
    assert Rows(batch, 0, |first + rest|) == batch;
    NextMicrobatch(batch, 0, size);
    assert Rows(batch, size, |first + rest|) == BatchOf(rest);
  }

  /** Flattening full groups and splitting the tensors again gives back the groups, row-aligned. */
  lemma {:induction false} RegroupFull(groups: seq<seq<Datum>>, size: nat)
    requires size > 0 && forall g :: g in groups ==> |g| == size
    requires forall d :: d in Flatten(groups) ==> RowAccepted(d)
    ensures |Flatten(groups)| % size == 0
    ensures Microbatches(BatchOf(Flatten(groups)), size) == BatchesOf(groups)
  {
    FlattenLength(groups, size);
    if groups != [] {
      var first, rest := groups[0], Flatten(groups[1..]);
      assert first in groups && Flatten(groups) == first + rest;
      assert forall d :: d in rest ==> d in Flatten(groups);
      RegroupFull(groups[1..], size);
      MicrobatchesConcat(first, rest, size);
      assert BatchesOf(groups) == [BatchOf(first)] + BatchesOf(groups[1..]);
    }
  }

  lemma {:induction false} MicrobatchesAreFull(batch: TensorBatch, size: nat)
    requires Aligned(batch) && size > 0 && |batch.inputIds| % size == 0
    ensures forall b :: b in Microbatches(batch, size) ==> |b.inputIds| == size
    decreases |batch.inputIds|
  {
    if batch.inputIds != [] {
      DividedTail(|batch.inputIds|, size);
      MicrobatchesAreFull(Rows(batch, size, |batch.inputIds|), size);
    }
  }

  lemma {:induction false} BatchesOfIndex(groups: seq<seq<Datum>>, k: nat)
    requires k < |groups|
    requires forall d :: d in Flatten(groups) ==> RowAccepted(d)
    ensures |BatchesOf(groups)| == |groups|
    ensures forall d :: d in groups[k] ==> RowAccepted(d)
    ensures BatchesOf(groups)[k] == BatchOf(groups[k])
  {
    BatchesOfLength(groups);
    if k > 0 {
      BatchesOfIndex(groups[1..], k - 1);
    }
  }

  lemma {:induction false} BatchesOfLength(groups: seq<seq<Datum>>)
    requires forall d :: d in Flatten(groups) ==> RowAccepted(d)
    ensures |BatchesOf(groups)| == |groups|
  {
    if groups != [] { BatchesOfLength(groups[1..]); }
  }

  /** Splitting the flattened groups gives them back exactly when every one of them is full. */
  lemma RegroupIffFull(groups: seq<seq<Datum>>, size: nat)
    requires size > 0 && Flatten(groups) != []
    requires forall d :: d in Flatten(groups) ==> RowAccepted(d)
    ensures (|Flatten(groups)| % size == 0 && Microbatches(BatchOf(Flatten(groups)), size) == BatchesOf(groups))
       <==> forall g :: g in groups ==> |g| == size
  {
    if forall g :: g in groups ==> |g| == size {
      RegroupFull(groups, size);
    } else if |Flatten(groups)| % size == 0 && Microbatches(BatchOf(Flatten(groups)), size) == BatchesOf(groups) {
      forall k | 0 <= k < |groups| ensures |groups[k]| == size {
        BatchesOfIndex(groups, k);
        MicrobatchesAreFull(BatchOf(Flatten(groups)), size);
        assert BatchesOf(groups)[k] in BatchesOf(groups);
      }
      assert false;
    }
  }
}
