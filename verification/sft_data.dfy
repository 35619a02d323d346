/** Supervised fine-tuning data: prompts and completions become rows of shifted targets whose weights
    pick out the completion, and rows become batches. */
module SftData {
  import opened Wrappers
  import opened Contracts
  import opened Seqs
  import opened TensorBatches
  import opened Losses

  datatype Tokenizer = Tokenizer(pad: int, bos: int, eos: int, encode: string -> seq<int>)

  datatype Example = Example(prompt: string, completion: string, weight: real)

  datatype DataConfig = DataConfig(sequenceLength: int, batchSize: int, dropOverlong: bool) {
    predicate Valid() {
      sequenceLength >= 2 && batchSize > 0
    }
  }

  function Whole(t: Tokenizer, prompt: seq<int>, completion: seq<int>): seq<int> {
    [t.bos] + prompt + completion + [t.eos]
  }

  /** The entry at position i of a row that goes on with fill. */
  function At(xs: seq<int>, i: nat, fill: int): int {
    if i < |xs| then xs[i] else fill
  }

  /** Position by position: the tokens, the token that follows, and the weight on predicting it. */
  function Encoding(t: Tokenizer, prompt: seq<int>, completion: seq<int>, weight: real, length: nat): Datum {
    var whole := Whole(t, prompt, completion);
    Datum(seq(length, i requires 0 <= i < length => At(whole, i, t.pad)),
          map["target_tokens" := seq(length, i requires 0 <= i < length => At(whole, i + 1, t.pad) as real),
              "weights" := seq(length, i requires 0 <= i < length =>
                             if |prompt| <= i <= |prompt| + |completion| then weight else 0.0)])
  }

  predicate Dropped(config: DataConfig, prompt: seq<int>, completion: seq<int>, weight: real) {
    || (config.dropOverlong && |prompt| + |completion| + 2 > config.sequenceLength)
    || weight <= 0.0
    || |prompt| >= config.sequenceLength
  }

  function Encode(example: Example, t: Tokenizer, config: DataConfig): Result<Option<Datum>, Error> {
    var prompt, completion := t.encode(example.prompt), t.encode(example.completion);
    if !config.Valid() || completion == [] then Err(ValueError)
    else if Dropped(config, prompt, completion, example.weight) then Ok(None)
    else Ok(Some(Encoding(t, prompt, completion, example.weight, config.sequenceLength)))
  }

  function Reals(xs: seq<int>): seq<real> {
    seq(|xs|, i requires 0 <= i < |xs| => xs[i] as real)
  }

  function Fill<T>(x: T, n: nat): seq<T> {
    seq(n, _ => x)
  }

  method AnyPositive(weights: seq<real>) returns (found: bool)
    ensures found <==> exists i :: 0 <= i < |weights| && weights[i] > 0.0
  {
    for i := 0 to |weights|
      invariant forall k :: 0 <= k < i ==> weights[k] <= 0.0
    {
      if weights[i] > 0.0 {
        return true;
      }
    }
    found := false;
  }

  lemma RowIsEncoding(t: Tokenizer, prompt: seq<int>, completion: seq<int>, weight: real, length: nat,
                      inputIds: seq<int>, targetTokens: seq<int>, weights: seq<real>)
    requires |inputIds| == |targetTokens| == |weights| == length
    requires var whole := Whole(t, prompt, completion);
      forall i :: 0 <= i < length ==>
        && inputIds[i] == At(whole, i, t.pad) && targetTokens[i] == At(whole, i + 1, t.pad)
        && weights[i] == if |prompt| <= i <= |prompt| + |completion| then weight else 0.0
    ensures Datum(inputIds, map["target_tokens" := Reals(targetTokens), "weights" := weights])
         == Encoding(t, prompt, completion, weight, length)
  {
    var d := Encoding(t, prompt, completion, weight, length);
    assert inputIds == d.tokenIds && weights == d.lossFnInputs["weights"];
    assert Reals(targetTokens) == d.lossFnInputs["target_tokens"];
  }

  method EncodeSftExample(example: Example, t: Tokenizer, config: DataConfig) returns (r: Result<Option<Datum>, Error>)
    ensures EncodesTo(example, t, config, r)
    ensures r == Encode(example, t, config)
  {
    EncodeIs(example, t, config);
    if !config.Valid() {
      return Err(ValueError);
    }
    var length := config.sequenceLength;
    var prompt := t.encode(example.prompt);
    var completion := t.encode(example.completion);
    if completion == [] {
      return Err(ValueError);
    }
    var inputIds := [t.bos] + prompt + completion + [t.eos];
    if |inputIds| > length && config.dropOverlong {
      return Ok(None);
    }
    var targetTokens := inputIds[1..] + [t.pad];
    var first, end := |prompt|, |prompt| + |completion| + 1;
    var weights := seq(|inputIds|, i requires 0 <= i < |inputIds| => if first <= i < end then example.weight else 0.0);
    weights := weights[|weights| - 1 := 0.0];

    var cut := if |inputIds| < length then |inputIds| else length;
    inputIds := inputIds[..cut];
    targetTokens := targetTokens[..cut];
    weights := weights[..cut];

    var padCount := length - |inputIds|;
    if padCount > 0 {
      inputIds := inputIds + Fill(t.pad, padCount);
      targetTokens := targetTokens + Fill(t.pad, padCount);
      weights := weights + Fill(0.0, padCount);
    }
    RowIsEncoding(t, prompt, completion, example.weight, length, inputIds, targetTokens, weights);

    var any := AnyPositive(weights);
    if !any {
      assert example.weight <= 0.0 || first >= length by {
        if first < length { assert weights[first] == example.weight; }
      }
      return Ok(None);
    }
    r := Ok(Some(Datum(inputIds, map["target_tokens" := Reals(targetTokens), "weights" := weights])));
  }

  // ---------------------------------------------------------------- what an encoding says

  /** Overlong when such are dropped, of no weight, or with a prompt that fills the row. */
  ghost predicate LeavesOut(example: Example, t: Tokenizer, config: DataConfig) {
    var prompt, completion := t.encode(example.prompt), t.encode(example.completion);
    || (config.dropOverlong && |prompt| + |completion| + 2 > config.sequenceLength)
    || example.weight <= 0.0 || |prompt| >= config.sequenceLength
  }

  /** A row of this length: the begin token, prompt, completion and end token, cut or padded; every label
      but the last is the token that follows; the weight sits on one stretch after the prompt, and the
      labels there are the completion and the end token, as far as the row reaches. */
  ghost predicate Teaches(tokens: seq<int>, labels: seq<int>, weights: seq<real>, example: Example, t: Tokenizer,
                          length: int)
  {
    var prompt, completion := t.encode(example.prompt), t.encode(example.completion);
    var whole, n := [t.bos] + prompt + completion + [t.eos], Least(|completion| + 1, length - |prompt|);
    && |tokens| == |labels| == |weights| == length
    && (forall i :: 0 <= i < length ==> tokens[i] == if i < |whole| then whole[i] else t.pad)
    && (forall i :: 0 <= i < length - 1 ==> labels[i] == tokens[i + 1])
    && 0 < n && |prompt| + n <= length && example.weight > 0.0
    && (forall i :: 0 <= i < length ==> weights[i] == if |prompt| <= i < |prompt| + n then example.weight else 0.0)
    && labels[|prompt|..|prompt| + n] == (completion + [t.eos])[..n]
  }

  ghost predicate RowTeaches(d: Datum, example: Example, t: Tokenizer, length: int) {
    && "target_tokens" in d.lossFnInputs && "weights" in d.lossFnInputs
    && exists labels: seq<int> ::
         && d.lossFnInputs["target_tokens"] == Reals(labels)
         && Teaches(d.tokenIds, labels, d.lossFnInputs["weights"], example, t, length)
  }

  /** ValueError exactly for bad sizes or a completion without tokens; None exactly for an example that is
      left out; else its row. */
  ghost predicate EncodesTo(example: Example, t: Tokenizer, config: DataConfig, r: Result<Option<Datum>, Error>) {
    if config.sequenceLength < 2 || config.batchSize <= 0 || t.encode(example.completion) == [] then
      r == Err(ValueError)
    else if LeavesOut(example, t, config) then r == Ok(None)
    else r.Ok? && r.value.Some? && RowTeaches(r.value.value, example, t, config.sequenceLength)
  }

  lemma EncodeIs(example: Example, t: Tokenizer, config: DataConfig)
    ensures EncodesTo(example, t, config, Encode(example, t, config))
  {
    if config.Valid() && t.encode(example.completion) != [] {
      EncodeMeans(example, t, config);
    }
  }

  function Labels(t: Tokenizer, prompt: seq<int>, completion: seq<int>, length: nat): seq<int> {
    seq(length, i requires 0 <= i < length => At(Whole(t, prompt, completion), i + 1, t.pad))
  }

  lemma LabelsTeach(example: Example, t: Tokenizer, length: nat)
    requires t.encode(example.completion) != [] && example.weight > 0.0 && |t.encode(example.prompt)| < length
    ensures var prompt, completion := t.encode(example.prompt), t.encode(example.completion);
      var d := Encoding(t, prompt, completion, example.weight, length);
      Teaches(d.tokenIds, Labels(t, prompt, completion, length), d.lossFnInputs["weights"], example, t, length)
  {
    var prompt, completion := t.encode(example.prompt), t.encode(example.completion);
    var n, labels := Least(|completion| + 1, length - |prompt|), Labels(t, prompt, completion, length);
    var whole := Whole(t, prompt, completion);
    forall i | 0 <= i < n ensures labels[|prompt|..|prompt| + n][i] == (completion + [t.eos])[..n][i] {
      var at := |prompt| + i;
      assert labels[at] == At(whole, at + 1, t.pad);
      assert whole[at + 1] == (completion + [t.eos])[i];
    }
    assert labels[|prompt|..|prompt| + n] == (completion + [t.eos])[..n];
  }

  /** An example is left out exactly when it is overlong and such are dropped, weighs nothing, or its
      prompt fills the row; otherwise its row teaches its completion. */
  lemma EncodeMeans(example: Example, t: Tokenizer, config: DataConfig)
    requires config.Valid() && t.encode(example.completion) != []
    ensures var r := Encode(example, t, config);
      && r.Ok?
      && (r.value.None? <==> LeavesOut(example, t, config))
      && (r.value.Some? ==> RowTeaches(r.value.value, example, t, config.sequenceLength))
  {
    var prompt, completion := t.encode(example.prompt), t.encode(example.completion);
    if Encode(example, t, config).value.Some? {
      LabelsTeach(example, t, config.sequenceLength);
      var d, labels := Encode(example, t, config).value.value, Labels(t, prompt, completion, config.sequenceLength);
      assert d.lossFnInputs["target_tokens"] == Reals(labels);
    }
  }

  // ---------------------------------------------------------------- batches

  /** Full batches in order, the last one possibly short but not empty. */
  ghost predicate FullButLast<T>(batches: seq<seq<T>>, size: nat) {
    && (forall i :: 0 <= i < |batches| - 1 ==> |batches[i]| == size)
    && (batches != [] ==> 0 < |batches[|batches| - 1]| <= size)
  }

  method BatchDatums<T>(datums: seq<T>, batchSize: int) returns (r: Result<seq<seq<T>>, Error>)
    ensures r.Ok? <==> batchSize > 0 && datums != []
    ensures r.Err? ==> r.error == ValueError
    ensures r.Ok? ==> Flatten(r.value) == datums && FullButLast(r.value, batchSize)
  {
    if batchSize <= 0 {
      return Err(ValueError);
    }
    var batches: seq<seq<T>> := [];
    var batch: seq<T> := [];
    for i := 0 to |datums|
      invariant |batch| < batchSize
      invariant forall k :: 0 <= k < |batches| ==> |batches[k]| == batchSize
      invariant Flatten(batches) + batch == datums[..i]
    {
      assert datums[..i + 1] == datums[..i] + [datums[i]];
      Associates(Flatten(batches), batch, [datums[i]]);
      batch := batch + [datums[i]];
      if |batch| == batchSize {
        FlattenSnoc(batches, batch);
        batches := batches + [batch];
        batch := [];
      }
    }
    if batch != [] {
      FlattenSnoc(batches, batch);
      batches := batches + [batch];
    }
    if batches == [] {
      return Err(ValueError);
    }
    r := Ok(batches);
  }

  /** There is only one way to batch like that. */
  lemma {:induction false} BatchingIsUnique<T>(a: seq<seq<T>>, b: seq<seq<T>>, size: nat)
    requires size > 0 && FullButLast(a, size) && FullButLast(b, size) && Flatten(a) == Flatten(b)
    ensures a == b
  {
    if a == [] || b == [] {
      NonEmptyFlat(a, size);
      NonEmptyFlat(b, size);
    } else {
      FirstBatch(a, size);
      FirstBatch(b, size);
      assert a[0] == b[0];
      assert Flatten(a[1..]) == Flatten(a)[|a[0]|..] == Flatten(b[1..]);
      BatchingIsUnique(a[1..], b[1..], size);
      assert a == [a[0]] + a[1..] && b == [b[0]] + b[1..];
    }
  }

  lemma NonEmptyFlat<T>(a: seq<seq<T>>, size: nat)
    requires size > 0 && FullButLast(a, size)
    ensures a == [] <==> Flatten(a) == []
  {
    if a != [] { assert |a[0]| > 0; }
  }

  lemma FirstBatch<T>(a: seq<seq<T>>, size: nat)
    requires size > 0 && FullButLast(a, size) && a != []
    ensures FullButLast(a[1..], size)
    ensures a[0] == Flatten(a)[..Least(size, |Flatten(a)|)]
  {
    assert Flatten(a) == a[0] + Flatten(a[1..]);
    if |a| == 1 {
      assert Flatten(a[1..]) == [];
    }
  }

  /** Every batch is full exactly when the size divides the number of rows. */
  lemma AllFullIff<T>(batches: seq<seq<T>>, size: nat)
    requires size > 0 && FullButLast(batches, size)
    ensures (forall b :: b in batches ==> |b| == size) <==> |Flatten(batches)| % size == 0
  {
    if batches != [] {
      var front, last := batches[..|batches| - 1], batches[|batches| - 1];
      assert batches == front + [last];
      assert forall b :: b in front ==> |b| == size;
      FlattenLength(front, size);
      FlattenSnoc(front, last);
      if |last| == size {
        FlattenLength(batches, size);
      } else {
        DivModUnique(|Flatten(batches)|, size, |front|, |last|);
      }
    }
  }

  /** The examples that are kept, encoded, in order. */
  function Kept(examples: seq<Example>, t: Tokenizer, config: DataConfig): Result<seq<Datum>, Error> {
    if examples == [] then Ok([])
    else
      match Kept(examples[..|examples| - 1], t, config)
      case Err(e) => Err(e)
      case Ok(before) =>
        match Encode(examples[|examples| - 1], t, config)
        case Err(e) => Err(e)
        case Ok(None) => Ok(before)
        case Ok(Some(d)) => Ok(before + [d])
  }

  /** The rows are those of the examples at these places, in order, and no other example has one. */
  ghost predicate RowsOf(rows: seq<Datum>, examples: seq<Example>, t: Tokenizer, config: DataConfig,
                         places: seq<nat>)
  {
    && |places| == |rows|
    && (forall m, n :: 0 <= m < n < |places| ==> places[m] < places[n])
    && (forall m :: 0 <= m < |places| ==>
          && places[m] < |examples| && !LeavesOut(examples[places[m]], t, config)
          && RowTeaches(rows[m], examples[places[m]], t, config.sequenceLength))
    && forall i :: 0 <= i < |examples| ==> i in places || LeavesOut(examples[i], t, config)
  }

  /** Every example's completion has a token. */
  ghost predicate AllComplete(examples: seq<Example>, t: Tokenizer) {
    forall i :: 0 <= i < |examples| ==> t.encode(examples[i].completion) != []
  }

  /** One more example adds its row, or none. */
  lemma RowsNext(rows: seq<Datum>, front: seq<Example>, last: Example, t: Tokenizer, config: DataConfig,
                 places: seq<nat>)
    requires RowsOf(rows, front, t, config, places)
    ensures LeavesOut(last, t, config) ==> RowsOf(rows, front + [last], t, config, places)
    ensures forall d :: !LeavesOut(last, t, config) && RowTeaches(d, last, t, config.sequenceLength) ==>
      RowsOf(rows + [d], front + [last], t, config, places + [|front|])
  {
    forall i | 0 <= i < |front + [last]|
      ensures i in places + [|front|] || LeavesOut((front + [last])[i], t, config)
      ensures LeavesOut(last, t, config) ==> i in places || LeavesOut((front + [last])[i], t, config)
    {
      if i < |front| {
        assert i in places || LeavesOut(front[i], t, config);
      } else {
        assert (places + [|front|])[|places|] == i;
      }
    }
  }

  lemma {:induction false} KeptRows(examples: seq<Example>, t: Tokenizer, config: DataConfig)
    returns (places: seq<nat>)
    requires config.Valid() && AllComplete(examples, t)
    ensures Kept(examples, t, config).Ok?
    ensures RowsOf(Kept(examples, t, config).value, examples, t, config, places)
  {
    places := [];
    if examples != [] {
      var front, last := examples[..|examples| - 1], examples[|examples| - 1];
      assert examples == front + [last];
      assert AllComplete(front, t) && t.encode(last.completion) != [];
      var before := KeptRows(front, t, config);
      EncodeMeans(last, t, config);
      RowsNext(Kept(front, t, config).value, front, last, t, config, before);
      places := if LeavesOut(last, t, config) then before else before + [|front|];
    }
  }

  lemma {:induction false} KeptIffComplete(examples: seq<Example>, t: Tokenizer, config: DataConfig)
    ensures Kept(examples, t, config).Ok? <==> examples == [] || (config.Valid() && AllComplete(examples, t))
  {
    if examples != [] {
      var front, last := examples[..|examples| - 1], examples[|examples| - 1];
      assert examples == front + [last];
      KeptIffComplete(front, t, config);
    }
  }

  /** Encode the examples, in whatever order they come, and batch what is kept. */
  method LoadSftBatches(examples: seq<Example>, t: Tokenizer, config: DataConfig)
    returns (r: Result<seq<seq<Datum>>, Error>)
    ensures r.Ok? <==>
      && config.sequenceLength >= 2 && config.batchSize > 0 && AllComplete(examples, t)
      && exists i :: 0 <= i < |examples| && !LeavesOut(examples[i], t, config)
    ensures r.Err? ==> r.error == ValueError
    ensures r.Ok? ==> FullButLast(r.value, config.batchSize)
    ensures r.Ok? ==> exists places :: RowsOf(Flatten(r.value), examples, t, config, places)
    ensures r.Ok? ==> Kept(examples, t, config) == Ok(Flatten(r.value))
  {
    var datums: seq<Datum> := [];
    for i := 0 to |examples|
      invariant Kept(examples[..i], t, config) == Ok(datums)
    {
      assert examples[..i + 1][..i] == examples[..i];
      var encoded := EncodeSftExample(examples[i], t, config);
      if encoded.Err? {
        return Err(encoded.error);
      }
      if encoded.value.Some? {
        datums := datums + [encoded.value.value];
      }
    }
    assert examples[..|examples|] == examples;
    KeptIffComplete(examples, t, config);
    if examples != [] {
      ghost var places := KeptRows(examples, t, config);
      assert datums == [] ==> forall i :: 0 <= i < |examples| ==> LeavesOut(examples[i], t, config);
      assert datums != [] ==> !LeavesOut(examples[places[0]], t, config);
    }
    r := BatchDatums(datums, config.batchSize);
  }

  // ---------------------------------------------------------------- downstream

  ghost predicate PositiveRow(row: seq<real>) {
    NonNegative(row) && exists i :: 0 <= i < |row| && row[i] > 0.0
  }

  /** A row as encoding makes it: accepted, of the given length, no negative weight, some positive. */
  ghost predicate Trainable(d: Datum, length: int) {
    && RowAccepted(d) && |d.tokenIds| == length
    && PositiveRow(d.lossFnInputs["weights"])
  }

  lemma EncodedIsTrainable(example: Example, t: Tokenizer, config: DataConfig)
    ensures var r := Encode(example, t, config);
      r.Ok? && r.value.Some? ==> Trainable(r.value.value, config.sequenceLength)
  {
    var r := Encode(example, t, config);
    if r.Ok? && r.value.Some? {
      EncodeMeans(example, t, config);
      assert r.value.value.lossFnInputs["weights"][|t.encode(example.prompt)|] > 0.0;
    }
  }

  lemma {:induction false} KeptAreTrainable(examples: seq<Example>, t: Tokenizer, config: DataConfig)
    requires Kept(examples, t, config).Ok?
    ensures forall d :: d in Kept(examples, t, config).value ==> Trainable(d, config.sequenceLength)
  {
    if examples != [] {
      KeptAreTrainable(examples[..|examples| - 1], t, config);
      EncodedIsTrainable(examples[|examples| - 1], t, config);
    }
  }

  /** Any non-empty list of trainable rows of one length passes every row check. */
  lemma TrainableIsAccepted(data: seq<Datum>, length: int)
    requires data != [] && forall d :: d in data ==> Trainable(d, length)
    ensures Accepted(data, "cross_entropy")
  {
    forall i | 0 <= i < |data| ensures RowAccepted(data[i]) && |data[i].tokenIds| == |data[0].tokenIds| {
      assert Trainable(data[i], length) && Trainable(data[0], length);
    }
  }

  lemma {:induction false} SumNonNegative(xs: seq<real>)
    requires NonNegative(xs)
    ensures SumReal(xs) >= 0.0
    ensures PositiveRow(xs) ==> SumReal(xs) > 0.0
  {
    if xs != [] {
      forall k | 0 <= k < |xs[1..]| ensures xs[1..][k] >= 0.0 { assert xs[1..][k] == xs[k + 1]; }
      SumNonNegative(xs[1..]);
      if PositiveRow(xs) && xs[0] == 0.0 {
        var i :| 0 <= i < |xs| && xs[i] > 0.0;
        assert xs[1..][i - 1] > 0.0;
      }
    }
  }

  lemma {:induction false} RowsSumPositive(rows: seq<seq<real>>)
    requires forall row :: row in rows ==> PositiveRow(row)
    ensures NonNegative(Flatten(rows))
    ensures rows != [] ==> SumReal(Flatten(rows)) > 0.0
  {
    if rows != [] {
      var first, rest := rows[0], rows[1..];
      assert PositiveRow(first) && forall row :: row in rest ==> row in rows;
      RowsSumPositive(rest);
      SumNonNegative(first);
      SumNonNegative(Flatten(rest));
      SumRealAppend(first, Flatten(rest));
    }
  }

  lemma PartRows(batch: TensorBatch, size: nat, k: nat, part: TensorBatch)
    requires Aligned(batch) && IsMicrobatch(batch, size, k, part)
    ensures forall row :: row in part.weights ==> row in batch.weights
  {
    forall i | 0 <= i < |part.weights| ensures part.weights[i] in batch.weights {
      assert IsRow(batch, size, k, part, i);
    }
  }

  /** However trainable rows are split, every microbatch's weights are non-negative and add up to more than
      zero. */
  lemma SplitWeightsPositive(data: seq<Datum>, length: int, size: nat)
    requires data != [] && size > 0 && |data| % size == 0 && forall d :: d in data ==> Trainable(d, length)
    ensures forall d :: d in data ==> RowAccepted(d)
    ensures var parts := Microbatches(BatchOf(data), size);
      parts != [] && forall k :: 0 <= k < |parts| ==>
        && TokenWeight(parts[k].weights) > 0.0
        && SumReal(Mask(parts[k])) > 0.0 && NonNegative(Mask(parts[k]))
        && forall row :: row in parts[k].weights ==> NonNegative(row)
  {
    forall d | d in data ensures RowAccepted(d) { assert Trainable(d, length); }
    var batch := BatchOf(data);
    var parts := Microbatches(batch, size);
    assert |batch.inputIds| == |data| && parts != [];
    BatchConverts(data);
    MicrobatchesInOrder(batch, size);
    forall row | row in batch.weights ensures PositiveRow(row) {
      var i :| 0 <= i < |data| && row == batch.weights[i];
      assert Trainable(data[i], length);
    }
    forall k | 0 <= k < |parts|
      ensures TokenWeight(parts[k].weights) > 0.0
      ensures SumReal(Mask(parts[k])) > 0.0 && NonNegative(Mask(parts[k]))
      ensures forall row :: row in parts[k].weights ==> NonNegative(row)
    {
      assert IsMicrobatch(batch, size, k, parts[k]);
      PartRows(batch, size, k, parts[k]);
      PositivePart(parts[k]);
    }
  }

  lemma PositivePart(part: TensorBatch)
    requires part.weights != [] && forall row :: row in part.weights ==> PositiveRow(row)
    ensures TokenWeight(part.weights) > 0.0
    ensures SumReal(Mask(part)) > 0.0 && NonNegative(Mask(part))
  {
    RowsSumPositive(part.weights);
    FlatSums(part.weights, part.weights);
  }

  /** The tokens of a row that carry weight have losses between lo and hi. */
  ghost predicate RowBounded(d: Datum, losses: seq<real>, lo: real, hi: real) {
    && "weights" in d.lossFnInputs && |losses| == |d.lossFnInputs["weights"]|
    && forall j :: 0 <= j < |losses| && d.lossFnInputs["weights"][j] > 0.0 ==> lo <= losses[j] <= hi
  }

  /** So it is for the rows of microbatch k, whose token losses come row after row. */
  ghost predicate PartBounded(data: seq<Datum>, size: nat, k: nat, losses: seq<seq<real>>, lo: real, hi: real) {
    |losses| == size && forall i :: 0 <= i < size ==>
      size * k + i < |data| && RowBounded(data[size * k + i], losses[i], lo, hi)
  }

  lemma BoundedPart(data: seq<Datum>, batch: TensorBatch, size: nat, k: nat, part: TensorBatch,
                    losses: seq<seq<real>>, lo: real, hi: real)
    requires Converts(data, batch) && IsMicrobatch(batch, size, k, part)
    requires PartBounded(data, size, k, losses, lo, hi)
    requires forall row :: row in part.weights ==> NonNegative(row)
    ensures Matching(losses, part.weights)
    ensures forall i :: 0 <= i < |losses| ==> NonNegative(part.weights[i]) && Within(losses[i], part.weights[i], lo, hi)
  {
    forall i | 0 <= i < size
      ensures |losses[i]| == |part.weights[i]| && NonNegative(part.weights[i])
      ensures Within(losses[i], part.weights[i], lo, hi)
    {
      assert IsRow(batch, size, k, part, i) && part.weights[i] in part.weights;
      assert RowBounded(data[size * k + i], losses[i], lo, hi);
    }
  }

  lemma {:induction false} FlatWithin(losses: seq<seq<real>>, rows: seq<seq<real>>, lo: real, hi: real)
    requires Matching(losses, rows)
    requires forall i :: 0 <= i < |losses| ==> NonNegative(rows[i]) && Within(losses[i], rows[i], lo, hi)
    ensures |Flatten(losses)| == |Flatten(rows)|
    ensures NonNegative(Flatten(rows)) && Within(Flatten(losses), Flatten(rows), lo, hi)
  {
    if rows != [] {
      MatchingTail(losses, rows);
      assert |losses[0]| == |rows[0]|;
      FlatWithin(losses[1..], rows[1..], lo, hi);
    }
  }

  /** Every batch loaded from examples is accepted, and however it is split the loss reported for it is a
      finite number between any bounds on the losses of the tokens that carry weight. */
  lemma LoadedBatchesTrain(examples: seq<Example>, t: Tokenizer, config: DataConfig, batches: seq<seq<Datum>>,
                           batch: seq<Datum>, size: nat, model: TensorBatch -> seq<real>, lo: real, hi: real)
    requires Kept(examples, t, config) == Ok(Flatten(batches))
    requires batch in batches && batch != [] && size > 0 && |batch| % size == 0
    ensures Accepted(batch, "cross_entropy")
    ensures var parts := Microbatches(BatchOf(batch), size);
      ShapesFit(parts, model)
      && (forall k :: 0 <= k < |parts| ==>
            PartBounded(batch, size, k, ByRow(model(parts[k]), parts[k].weights), lo, hi)) ==>
      var r := StepResult(BatchOf(batch), size, model);
      r.Ok? && r.value.Some? && lo <= r.value.value <= hi
  {
    KeptAreTrainable(examples, t, config);
    forall d | d in batch ensures Trainable(d, config.sequenceLength) {
      FlattenMember(batches, d);
    }
    TrainableIsAccepted(batch, config.sequenceLength);
    SplitWeightsPositive(batch, config.sequenceLength, size);
    var parts := Microbatches(BatchOf(batch), size);
    if ShapesFit(parts, model) && forall k :: 0 <= k < |parts| ==>
         PartBounded(batch, size, k, ByRow(model(parts[k]), parts[k].weights), lo, hi)
    {
      BatchConverts(batch);
      MicrobatchesInOrder(BatchOf(batch), size);
      var losses, masks := Outputs(parts, model), Masks(parts);
      forall k | 0 <= k < |parts| ensures NonNegative(masks[k]) && Within(losses[k], masks[k], lo, hi) {
        var rows := ByRow(model(parts[k]), parts[k].weights);
        BoundedPart(batch, BatchOf(batch), size, k, parts[k], rows, lo, hi);
        FlatWithin(rows, parts[k].weights, lo, hi);
      }
      ReportedWithinBounds(losses, masks, lo, hi);
    }
  }

  lemma RowIsTaught(d: Datum, tokens: seq<int>, labels: seq<int>, weights: seq<real>, example: Example, t: Tokenizer,
                    length: int)
    requires RowTeaches(d, example, t, length) && tokens == d.tokenIds && weights == d.lossFnInputs["weights"]
    requires |labels| == |d.lossFnInputs["target_tokens"]|
    requires forall j :: 0 <= j < |labels| ==> CutsTowardZero(d.lossFnInputs["target_tokens"][j], labels[j])
    ensures Teaches(tokens, labels, weights, example, t, length)
  {
    var exact: seq<int> :| d.lossFnInputs["target_tokens"] == Reals(exact)
                        && Teaches(d.tokenIds, exact, d.lossFnInputs["weights"], example, t, length);
    forall j | 0 <= j < |labels| ensures labels[j] == exact[j] {
      assert CutsTowardZero(exact[j] as real, labels[j]);
    }
    assert labels == exact;
  }

  lemma MicrobatchRowOf(data: seq<Datum>, tensors: TensorBatch, size: nat, k: nat, part: TensorBatch, i: nat,
                        row: nat)
    requires Converts(data, tensors) && IsMicrobatch(tensors, size, k, part) && i < size && row == size * k + i
    ensures row < |data| && |part.inputIds| == |part.targetTokens| == |part.weights| == size
    ensures part.inputIds[i] == tensors.inputIds[row] && part.targetTokens[i] == tensors.targetTokens[row]
    ensures part.weights[i] == tensors.weights[row]
  {
    assert IsRow(tensors, size, k, part, i);
  }

  /** What the model is trained on: however a loaded batch is converted and split, every row of every
      microbatch is the row of one of the examples, its labels the tokens that follow, its weight on the
      completion and the end token. */
  lemma MicrobatchesTeach(examples: seq<Example>, t: Tokenizer, config: DataConfig, rows: seq<Datum>,
                          places: seq<nat>, start: nat, batch: seq<Datum>, tensors: TensorBatch, size: nat,
                          parts: seq<TensorBatch>, k: nat, i: nat, row: nat)
    requires RowsOf(rows, examples, t, config, places)
    requires start + |batch| <= |rows| && batch == rows[start..start + |batch|]
    requires Converts(batch, tensors) && AreMicrobatches(tensors, size, parts)
    requires k < |parts| && i < size && row == size * k + i
    ensures |parts[k].inputIds| == |parts[k].targetTokens| == |parts[k].weights| == size
    ensures start + row < |places| && places[start + row] < |examples|
    ensures Teaches(parts[k].inputIds[i], parts[k].targetTokens[i], parts[k].weights[i],
                    examples[places[start + row]], t, config.sequenceLength)
  {
    assert IsMicrobatch(tensors, size, k, parts[k]);
    MicrobatchRowOf(batch, tensors, size, k, parts[k], i, row);
    assert batch[row] == rows[start + row];
    RowIsTaught(rows[start + row], parts[k].inputIds[i], parts[k].targetTokens[i], parts[k].weights[i],
                examples[places[start + row]], t, config.sequenceLength);
  }
}
