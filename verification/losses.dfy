/** The loss a step reports: per microbatch the masked mean of the token losses, over the
    microbatches their plain mean. None stands for a value that is not a finite number. */
module Losses {
  import opened Wrappers
  import opened Seqs
  import opened TensorBatches

  function Dot(a: seq<real>, b: seq<real>): real
    requires |a| == |b|
  {
    if a == [] then 0.0 else a[0] * b[0] + Dot(a[1..], b[1..])
  }

  /** The masked mean of one microbatch; a mask that sums to zero divides by zero. */
  function LossFunc(losses: seq<real>, mask: seq<real>): Option<real>
    requires |losses| == |mask|
  {
    if SumReal(mask) == 0.0 then None else Some(Dot(losses, mask) / SumReal(mask))
  }

  predicate AllFinite(values: seq<Option<real>>) {
    forall i :: 0 <= i < |values| ==> values[i].Some?
  }

  function Finite(values: seq<Option<real>>): seq<real>
    requires AllFinite(values)
  {
    seq(|values|, i requires 0 <= i < |values| => values[i].value)
  }

  function Mean(values: seq<Option<real>>): Option<real> {
    if values == [] then Some(0.0)
    else if !AllFinite(values) then None
    else Some(SumReal(Finite(values)) / |values| as real)
  }

  /** The mean of the reported values; a stage that reports nothing has loss zero. */
  method ExtractLoss(lossesReduced: seq<Option<real>>) returns (loss: Option<real>)
    ensures loss == Mean(lossesReduced)
  {
    if lossesReduced == [] {
      return Some(0.0);
    }
    var total: Option<real> := Some(0.0);
    for i := 0 to |lossesReduced|
      invariant total.Some? <==> AllFinite(lossesReduced[..i])
      invariant total.Some? ==> total.value == SumReal(Finite(lossesReduced[..i]))
    {
      var item := lossesReduced[i];
      assert lossesReduced[..i + 1] == lossesReduced[..i] + [item];
      if AllFinite(lossesReduced[..i]) && item.Some? {
        assert Finite(lossesReduced[..i + 1]) == Finite(lossesReduced[..i]) + [item.value];
        SumRealAppend(Finite(lossesReduced[..i]), [item.value]);
      } else {
        assert !AllFinite(lossesReduced[..i + 1]) by {
          if item.Some? {
            var k :| 0 <= k < i && lossesReduced[..i][k].None?;
            assert lossesReduced[..i + 1][k].None?;
          } else {
            assert lossesReduced[..i + 1][i].None?;
          }
        }
      }
      total := if total.Some? && item.Some? then Some(total.value + item.value) else None;
    }
    assert lossesReduced[..|lossesReduced|] == lossesReduced;
    loss := if total.Some? then Some(total.value / |lossesReduced| as real) else None;
  }

  // ---------------------------------------------------------------- a whole step

  /** Token losses and masks, microbatch by microbatch. */
  ghost predicate Matching(losses: seq<seq<real>>, masks: seq<seq<real>>) {
    |losses| == |masks| && forall i :: 0 <= i < |masks| ==> |losses[i]| == |masks[i]|
  }

  ghost function MicrobatchLosses(losses: seq<seq<real>>, masks: seq<seq<real>>): (values: seq<Option<real>>)
    requires Matching(losses, masks)
    ensures |values| == |masks|
  {
    seq(|masks|, i requires 0 <= i < |masks| => LossFunc(losses[i], masks[i]))
  }

  /** The loss reported for a step. */
  ghost function Reported(losses: seq<seq<real>>, masks: seq<seq<real>>): Option<real>
    requires Matching(losses, masks)
  {
    Mean(MicrobatchLosses(losses, masks))
  }

  ghost predicate PositiveMasks(masks: seq<seq<real>>) {
    masks != [] && forall i :: 0 <= i < |masks| ==> SumReal(masks[i]) > 0.0
  }

  ghost predicate NonNegative(mask: seq<real>) {
    forall k :: 0 <= k < |mask| ==> mask[k] >= 0.0
  }

  /** Tokens that count have losses between lo and hi. */
  ghost predicate Within(losses: seq<real>, mask: seq<real>, lo: real, hi: real)
    requires |losses| == |mask|
  {
    forall k :: 0 <= k < |mask| && mask[k] > 0.0 ==> lo <= losses[k] <= hi
  }

  /** Raising the losses of tokens that count raises the weighted sum. */
  lemma {:induction false} DotMonotone(low: seq<real>, high: seq<real>, mask: seq<real>)
    requires |low| == |high| == |mask| && NonNegative(mask)
    requires forall k :: 0 <= k < |mask| && mask[k] > 0.0 ==> low[k] <= high[k]
    ensures Dot(low, mask) <= Dot(high, mask)
  {
    if mask != [] {
      forall k | 0 <= k < |mask[1..]|
        ensures mask[1..][k] >= 0.0 && (mask[1..][k] > 0.0 ==> low[1..][k] <= high[1..][k])
      {
        assert mask[1..][k] == mask[k + 1] && low[1..][k] == low[k + 1] && high[1..][k] == high[k + 1];
      }
      DotMonotone(low[1..], high[1..], mask[1..]);
      Scale(low[0], high[0], mask[0]);
    }
  }

  function Constant(x: real, n: nat): seq<real> {
    seq(n, _ => x)
  }

  lemma DotBounds(losses: seq<real>, mask: seq<real>, lo: real, hi: real)
    requires |losses| == |mask| && NonNegative(mask) && Within(losses, mask, lo, hi)
    ensures lo * SumReal(mask) <= Dot(losses, mask) <= hi * SumReal(mask)
  {
    DotMonotone(Constant(lo, |mask|), losses, mask);
    DotMonotone(losses, Constant(hi, |mask|), mask);
    DotConstant(Constant(lo, |mask|), mask, lo);
    DotConstant(Constant(hi, |mask|), mask, hi);
  }

  lemma Scale(low: real, high: real, m: real)
    requires m >= 0.0 && (m > 0.0 ==> low <= high)
    ensures low * m <= high * m
  {
    if m > 0.0 { assert (high - low) * m >= 0.0; }
  }

  lemma Distribute(a: real, b: real, c: real)
    ensures a * (b + c) == a * b + a * c
  {
  }

  lemma QuotientBounds(x: real, n: real, lo: real, hi: real)
    requires n > 0.0 && lo * n <= x <= hi * n
    ensures lo <= x / n <= hi
  {
    assert x == x / n * n;
  }

  lemma {:induction false} SumBounds(xs: seq<real>, lo: real, hi: real)
    requires forall i :: 0 <= i < |xs| ==> lo <= xs[i] <= hi
    ensures lo * |xs| as real <= SumReal(xs) <= hi * |xs| as real
  {
    if xs != [] {
      SumBounds(xs[1..], lo, hi);
      Distribute(lo, 1.0, |xs[1..]| as real);
      Distribute(hi, 1.0, |xs[1..]| as real);
    }
  }

  /** With non-negative masks that each count something, the reported loss is finite and lies between
      any bounds on the losses of the tokens that count. */
  lemma ReportedWithinBounds(losses: seq<seq<real>>, masks: seq<seq<real>>, lo: real, hi: real)
    requires Matching(losses, masks) && PositiveMasks(masks)
    requires forall i :: 0 <= i < |masks| ==> NonNegative(masks[i]) && Within(losses[i], masks[i], lo, hi)
    ensures Reported(losses, masks).Some?
    ensures lo <= Reported(losses, masks).value <= hi
  {
    var values := MicrobatchLosses(losses, masks);
    forall i | 0 <= i < |values| ensures values[i].Some? && lo <= values[i].value <= hi {
      MicrobatchWithin(losses[i], masks[i], lo, hi);
    }
    MeanWithin(values, lo, hi);
  }

  lemma MicrobatchWithin(losses: seq<real>, mask: seq<real>, lo: real, hi: real)
    requires |losses| == |mask| && NonNegative(mask) && Within(losses, mask, lo, hi) && SumReal(mask) > 0.0
    ensures LossFunc(losses, mask).Some? && lo <= LossFunc(losses, mask).value <= hi
  {
    DotBounds(losses, mask, lo, hi);
    QuotientBounds(Dot(losses, mask), SumReal(mask), lo, hi);
  }

  lemma MeanWithin(values: seq<Option<real>>, lo: real, hi: real)
    requires values != [] && forall i :: 0 <= i < |values| ==> values[i].Some? && lo <= values[i].value <= hi
    ensures Mean(values).Some? && lo <= Mean(values).value <= hi
  {
    SumBounds(Finite(values), lo, hi);
    QuotientBounds(SumReal(Finite(values)), |values| as real, lo, hi);
  }

  // ---------------------------------------------------------------- against the mean over the whole batch

  /** The masked mean over all tokens of the step at once. */
  ghost function GlobalMean(losses: seq<seq<real>>, masks: seq<seq<real>>): Option<real>
    requires Matching(losses, masks)
  {
    FlattenMatching(losses, masks);
    LossFunc(Flatten(losses), Flatten(masks))
  }

  lemma {:induction false} FlattenMatching(losses: seq<seq<real>>, masks: seq<seq<real>>)
    requires Matching(losses, masks)
    ensures |Flatten(losses)| == |Flatten(masks)|
  {
    if masks != [] {
      assert |losses[0]| == |masks[0]|;
      MatchingTail(losses, masks);
      FlattenMatching(losses[1..], masks[1..]);
    }
  }

  lemma MatchingTail(losses: seq<seq<real>>, masks: seq<seq<real>>)
    requires Matching(losses, masks) && masks != []
    ensures Matching(losses[1..], masks[1..])
  {
    forall i | 0 <= i < |masks[1..]| ensures |losses[1..][i]| == |masks[1..][i]| {
      assert losses[1..][i] == losses[i + 1] && masks[1..][i] == masks[i + 1];
    }
  }

  lemma {:induction false} DotAppend(a: seq<real>, b: seq<real>, a': seq<real>, b': seq<real>)
    requires |a| == |b| && |a'| == |b'|
    ensures Dot(a + a', b + b') == Dot(a, b) + Dot(a', b')
  {
    if a == [] {
      assert a + a' == a' && b + b' == b';
    } else {
      DotAppend(a[1..], b[1..], a', b');
      assert (a + a')[1..] == a[1..] + a' && (b + b')[1..] == b[1..] + b';
    }
  }

  ghost function Dots(losses: seq<seq<real>>, masks: seq<seq<real>>): (dots: seq<real>)
    requires Matching(losses, masks)
    ensures |dots| == |masks|
  {
    seq(|masks|, i requires 0 <= i < |masks| => Dot(losses[i], masks[i]))
  }

  function Sums(masks: seq<seq<real>>): (sums: seq<real>)
    ensures |sums| == |masks|
  {
    seq(|masks|, i requires 0 <= i < |masks| => SumReal(masks[i]))
  }

  lemma {:induction false} FlattenSums(losses: seq<seq<real>>, masks: seq<seq<real>>)
    requires Matching(losses, masks)
    ensures |Flatten(losses)| == |Flatten(masks)|
    ensures Dot(Flatten(losses), Flatten(masks)) == SumReal(Dots(losses, masks))
    ensures SumReal(Flatten(masks)) == SumReal(Sums(masks))
  {
    FlattenMatching(losses, masks);
    if masks != [] {
      MatchingTail(losses, masks);
      FlattenSums(losses[1..], masks[1..]);
      assert |losses[0]| == |masks[0]|;
      DotAppend(losses[0], masks[0], Flatten(losses[1..]), Flatten(masks[1..]));
      SumRealAppend(masks[0], Flatten(masks[1..]));
      assert Dots(losses, masks)[1..] == Dots(losses[1..], masks[1..]);
      assert Sums(masks)[1..] == Sums(masks[1..]);
    }
  }

  ghost predicate EqualSums(masks: seq<seq<real>>) {
    forall i, j :: 0 <= i < |masks| && 0 <= j < |masks| ==> SumReal(masks[i]) == SumReal(masks[j])
  }

  lemma {:induction false} SumOfConstant(xs: seq<real>, x: real)
    requires forall i :: 0 <= i < |xs| ==> xs[i] == x
    ensures SumReal(xs) == x * |xs| as real
  {
    if xs != [] {
      SumOfConstant(xs[1..], x);
      Distribute(x, 1.0, |xs[1..]| as real);
    }
  }

  ghost predicate Quotients(xs: seq<real>, ys: seq<real>, w: real) {
    |xs| == |ys| && forall i :: 0 <= i < |xs| ==> ys[i] * w == xs[i]
  }

  lemma {:induction false} SumOfQuotients(xs: seq<real>, ys: seq<real>, w: real)
    requires Quotients(xs, ys, w)
    ensures SumReal(ys) * w == SumReal(xs)
  {
    if xs != [] {
      assert ys[0] * w == xs[0];
      SumOfQuotients(xs[1..], ys[1..], w);
      Distribute(w, ys[0], SumReal(ys[1..]));
    }
  }

  lemma EqualSumsTotal(masks: seq<seq<real>>, w: real)
    requires masks != [] && EqualSums(masks) && SumReal(masks[0]) == w
    ensures SumReal(Sums(masks)) == w * |masks| as real
  {
    forall i | 0 <= i < |masks| ensures Sums(masks)[i] == w { assert SumReal(masks[i]) == SumReal(masks[0]); }
    SumOfConstant(Sums(masks), w);
  }

  lemma ReportedIsFinite(losses: seq<seq<real>>, masks: seq<seq<real>>)
    requires Matching(losses, masks) && PositiveMasks(masks)
    ensures AllFinite(MicrobatchLosses(losses, masks))
    ensures Reported(losses, masks) == Some(SumReal(Finite(MicrobatchLosses(losses, masks))) / |masks| as real)
  {
  }

  lemma MeanTimesSum(losses: seq<real>, mask: seq<real>, w: real)
    requires |losses| == |mask| && SumReal(mask) == w && w > 0.0
    ensures LossFunc(losses, mask).Some? && LossFunc(losses, mask).value * w == Dot(losses, mask)
  {
    QuotientTimes(LossFunc(losses, mask).value, Dot(losses, mask), w);
  }

  lemma QuotientTimes(q: real, x: real, w: real)
    requires w > 0.0 && q == x / w
    ensures q * w == x
  {
  }

  lemma MeansAreQuotients(losses: seq<seq<real>>, masks: seq<seq<real>>, w: real)
    requires Matching(losses, masks) && PositiveMasks(masks) && EqualSums(masks) && w == SumReal(masks[0])
    ensures w > 0.0 && AllFinite(MicrobatchLosses(losses, masks))
    ensures Quotients(Dots(losses, masks), Finite(MicrobatchLosses(losses, masks)), w)
  {
    forall i | 0 <= i < |masks|
      ensures MicrobatchLosses(losses, masks)[i].Some?
      ensures MicrobatchLosses(losses, masks)[i].value * w == Dots(losses, masks)[i]
    {
      assert SumReal(masks[i]) == w;
      MeanTimesSum(losses[i], masks[i], w);
    }
  }

  lemma MeanOfEqual(losses: seq<seq<real>>, masks: seq<seq<real>>)
    requires Matching(losses, masks) && PositiveMasks(masks) && EqualSums(masks)
    ensures Reported(losses, masks) == GlobalMean(losses, masks)
  {
    var w := SumReal(masks[0]);
    MeansAreQuotients(losses, masks, w);
    ReportedIsFinite(losses, masks);
    SumOfQuotients(Dots(losses, masks), Finite(MicrobatchLosses(losses, masks)), w);
    GlobalOfEqual(losses, masks, w, SumReal(Finite(MicrobatchLosses(losses, masks))));
  }

  lemma GlobalOfEqual(losses: seq<seq<real>>, masks: seq<seq<real>>, w: real, means: real)
    requires Matching(losses, masks) && masks != [] && EqualSums(masks) && w == SumReal(masks[0]) && w > 0.0
    requires means * w == SumReal(Dots(losses, masks))
    ensures GlobalMean(losses, masks) == Some(means / |masks| as real)
  {
    SameQuotient(means, |masks| as real, SumReal(Dots(losses, masks)), w);
    FlattenSums(losses, masks);
    EqualSumsTotal(masks, w);
  }

  lemma SameQuotient(s: real, k: real, d: real, w: real)
    requires k > 0.0 && w > 0.0 && s * w == d
    ensures w * k > 0.0 && s / k == d / (w * k)
  {
    var q := s / k;
    assert q * k == s;
    assert q * (w * k) == (q * k) * w;
  }

  /** Token losses that are one in microbatch j and zero elsewhere. */
  ghost function Indicator(masks: seq<seq<real>>, j: nat): (losses: seq<seq<real>>)
    ensures Matching(losses, masks)
  {
    seq(|masks|, i requires 0 <= i < |masks| => seq(|masks[i]|, _ => if i == j then 1.0 else 0.0))
  }

  lemma {:induction false} DotConstant(losses: seq<real>, mask: seq<real>, x: real)
    requires |losses| == |mask| && forall k :: 0 <= k < |losses| ==> losses[k] == x
    ensures Dot(losses, mask) == x * SumReal(mask)
  {
    if losses != [] {
      DotConstant(losses[1..], mask[1..], x);
      Distribute(x, mask[0], SumReal(mask[1..]));
    }
  }

  lemma IndicatorDots(masks: seq<seq<real>>, j: nat)
    requires j < |masks|
    ensures var dots := Dots(Indicator(masks, j), masks);
      forall i :: 0 <= i < |masks| ==> dots[i] == if i == j then SumReal(masks[i]) else 0.0
  {
    forall i | 0 <= i < |masks|
      ensures Dots(Indicator(masks, j), masks)[i] == if i == j then SumReal(masks[i]) else 0.0
    {
      DotConstant(Indicator(masks, j)[i], masks[i], if i == j then 1.0 else 0.0);
    }
  }

  lemma OwnShare(x: real)
    requires x > 0.0
    ensures x / x == 1.0 && 0.0 / x == 0.0
  {
  }

  /** On the indicator of microbatch j, the reported loss is 1/k ... */
  lemma IndicatorReported(masks: seq<seq<real>>, j: nat)
    requires PositiveMasks(masks) && j < |masks|
    ensures Reported(Indicator(masks, j), masks) == Some(1.0 / |masks| as real)
  {
    var losses := Indicator(masks, j);
    IndicatorDots(masks, j);
    ReportedIsFinite(losses, masks);
    var means := Finite(MicrobatchLosses(losses, masks));
    forall i | 0 <= i < |masks| ensures means[i] == if i == j then 1.0 else 0.0 {
      assert Dots(losses, masks)[i] == Dot(losses[i], masks[i]);
      OwnShare(SumReal(masks[i]));
    }
    SumOfOne(means, j);
  }

  /** ... and the global mean that microbatch's share of the mask. */
  lemma IndicatorGlobal(masks: seq<seq<real>>, j: nat)
    requires j < |masks| && SumReal(Sums(masks)) > 0.0
    ensures GlobalMean(Indicator(masks, j), masks) == Some(SumReal(masks[j]) / SumReal(Sums(masks)))
  {
    IndicatorDots(masks, j);
    SumOfOne(Dots(Indicator(masks, j), masks), j);
    FlattenSums(Indicator(masks, j), masks);
  }

  lemma {:induction false} SumPositive(xs: seq<real>)
    requires xs != [] && forall i :: 0 <= i < |xs| ==> xs[i] > 0.0
    ensures SumReal(xs) > 0.0
  {
    if |xs| > 1 { SumPositive(xs[1..]); }
  }

  lemma EqualShares(x: real, total: real, k: real)
    requires total > 0.0 && k > 0.0 && x / total == 1.0 / k
    ensures x == total / k
  {
    assert x == x / total * total;
    assert 1.0 / k * total == total / k by {
      assert 1.0 / k * k == 1.0;
      assert (1.0 / k * total) * k == total;
    }
  }

  ghost predicate AlwaysGlobalMean(masks: seq<seq<real>>) {
    forall losses :: Matching(losses, masks) ==> Reported(losses, masks) == GlobalMean(losses, masks)
  }

  /** The reported loss is the masked mean over the whole batch, whatever the token losses, exactly
      when all microbatches carry the same mask weight. */
  lemma GlobalMeanIffEqualSums(masks: seq<seq<real>>)
    requires PositiveMasks(masks)
    ensures AlwaysGlobalMean(masks) <==> EqualSums(masks)
  {
    if EqualSums(masks) {
      forall losses | Matching(losses, masks) ensures Reported(losses, masks) == GlobalMean(losses, masks) {
        MeanOfEqual(losses, masks);
      }
    }
    if AlwaysGlobalMean(masks) {
      SumPositive(Sums(masks));
      var total, k := SumReal(Sums(masks)), |masks| as real;
      forall j | 0 <= j < |masks| ensures SumReal(masks[j]) == total / k {
        IndicatorReported(masks, j);
        IndicatorGlobal(masks, j);
        assert Matching(Indicator(masks, j), masks);
        EqualShares(SumReal(masks[j]), total, k);
      }
    }
  }

  // ---------------------------------------------------------------- the runtime's forward_backward

  /** The loss mask of a microbatch, row after row. */
  function Mask(batch: TensorBatch): seq<real> {
    Flatten(batch.weights)
  }

  function Masks(parts: seq<TensorBatch>): (masks: seq<seq<real>>)
    ensures |masks| == |parts|
  {
    seq(|parts|, i requires 0 <= i < |parts| => Mask(parts[i]))
  }

  /** The masks of the microbatches, one after the other, are the mask of the logical batch. */
  lemma {:induction false} MasksCoverBatch(batch: TensorBatch, size: nat)
    requires Aligned(batch) && size > 0 && |batch.inputIds| % size == 0
    ensures Flatten(Masks(Microbatches(batch, size))) == Flatten(batch.weights)
    decreases |batch.inputIds|
  {
    if batch.inputIds != [] {
      DividedTail(|batch.inputIds|, size);
      var rest := Rows(batch, size, |batch.inputIds|);
      MasksCoverBatch(rest, size);
      var parts := Microbatches(batch, size);
      assert Masks(parts)[1..] == Masks(Microbatches(rest, size));
      assert batch.weights == batch.weights[0..size] + rest.weights;
      FlattenAppend(batch.weights[0..size], rest.weights);
    } else {
      assert batch.weights == [];
    }
  }

  /** The token losses the model computes for a microbatch; a wrong shape makes the product raise. */
  predicate ShapesFit(parts: seq<TensorBatch>, model: TensorBatch -> seq<real>) {
    forall i :: 0 <= i < |parts| ==> |model(parts[i])| == |Mask(parts[i])|
  }

  function Outputs(parts: seq<TensorBatch>, model: TensorBatch -> seq<real>): (losses: seq<seq<real>>)
    ensures |losses| == |parts|
  {
    seq(|parts|, i requires 0 <= i < |parts| => model(parts[i]))
  }

  /** What a step of the runtime makes of a batch. */
  ghost function StepResult(batch: TensorBatch, microBatchSize: int, model: TensorBatch -> seq<real>)
    : Result<Option<real>, Error>
    requires Aligned(batch)
  {
    if !Splits(batch, microBatchSize) then Err(InvalidRequest)
    else
      var parts := Microbatches(batch, microBatchSize);
      if !ShapesFit(parts, model) then Err(RuntimeRaised)
      else Ok(Reported(Outputs(parts, model), Masks(parts)))
  }

  // ---------------------------------------------------------------- the loss, token by token

  /** A microbatch's token losses, row by row. */
  ghost function ByRow(losses: seq<real>, rows: seq<seq<real>>): (shaped: seq<seq<real>>)
    requires |losses| == |Flatten(rows)|
    ensures Matching(shaped, rows) && Flatten(shaped) == losses
    decreases |rows|
  {
    if rows == [] then [] else [losses[..|rows[0]|]] + ByRow(losses[|rows[0]|..], rows[1..])
  }

  /** The sum of all weights in the rows. */
  ghost function TokenWeight(rows: seq<seq<real>>): real {
    SumReal(seq(|rows|, i requires 0 <= i < |rows| => SumReal(rows[i])))
  }

  /** Weight times loss, position by position. */
  ghost function Products(row: seq<real>, losses: seq<real>): (products: seq<real>)
    requires |losses| == |row|
    ensures |products| == |row|
  {
    seq(|row|, j requires 0 <= j < |row| => row[j] * losses[j])
  }

  /** The sum of weight times loss over all rows and positions. */
  ghost function WeightedLoss(rows: seq<seq<real>>, losses: seq<seq<real>>): real
    requires Matching(losses, rows)
  {
    SumReal(RowLosses(rows, losses))
  }

  ghost function RowLosses(rows: seq<seq<real>>, losses: seq<seq<real>>): (sums: seq<real>)
    requires Matching(losses, rows)
    ensures |sums| == |rows|
  {
    seq(|rows|, i requires 0 <= i < |rows| => SumReal(Products(rows[i], losses[i])))
  }

  lemma {:induction false} DotIsSum(losses: seq<real>, row: seq<real>)
    requires |losses| == |row|
    ensures Dot(losses, row) == SumReal(Products(row, losses))
  {
    if row != [] {
      DotIsSum(losses[1..], row[1..]);
      ProductsTail(row, losses);
    }
  }

  lemma ProductsTail(row: seq<real>, losses: seq<real>)
    requires |losses| == |row| && row != []
    ensures Products(row, losses)[1..] == Products(row[1..], losses[1..])
  {
    forall j | 0 <= j < |row[1..]| ensures Products(row, losses)[1..][j] == Products(row[1..], losses[1..])[j] {
      assert row[1..][j] == row[j + 1] && losses[1..][j] == losses[j + 1];
    }
  }

  lemma FlatSums(rows: seq<seq<real>>, losses: seq<seq<real>>)
    requires Matching(losses, rows)
    ensures |Flatten(losses)| == |Flatten(rows)|
    ensures SumReal(Flatten(rows)) == TokenWeight(rows)
    ensures Dot(Flatten(losses), Flatten(rows)) == WeightedLoss(rows, losses)
  {
    FlattenSums(losses, rows);
    assert Sums(rows) == seq(|rows|, i requires 0 <= i < |rows| => SumReal(rows[i]));
    forall i | 0 <= i < |rows| ensures Dots(losses, rows)[i] == RowLosses(rows, losses)[i] {
      DotIsSum(losses[i], rows[i]);
    }
    assert Dots(losses, rows) == RowLosses(rows, losses);
  }

  /** The value is the weighted mean of the microbatch's token losses: multiplied by the sum of the weights
      it is the sum of weight times loss. */
  ghost predicate IsWeightedMean(part: TensorBatch, model: TensorBatch -> seq<real>, value: real) {
    && |model(part)| == |Flatten(part.weights)|
    && value * TokenWeight(part.weights) == WeightedLoss(part.weights, ByRow(model(part), part.weights))
  }

  /** The loss reported for microbatches: finite exactly when no weights cancel out, and then the mean of
      the microbatches' weighted means. */
  ghost predicate IsStepLoss(parts: seq<TensorBatch>, model: TensorBatch -> seq<real>, loss: Option<real>) {
    && (loss.Some? <==> forall k :: 0 <= k < |parts| ==> TokenWeight(parts[k].weights) != 0.0)
    && (loss.Some? ==> exists values: seq<real> ::
          WeightedMeans(parts, model, values) && loss.value * |parts| as real == SumReal(values))
  }

  ghost predicate WeightedMeans(parts: seq<TensorBatch>, model: TensorBatch -> seq<real>, values: seq<real>) {
    |values| == |parts| && forall k :: 0 <= k < |parts| ==> IsWeightedMean(parts[k], model, values[k])
  }

  lemma MaskedMeans(part: TensorBatch, model: TensorBatch -> seq<real>)
    requires |model(part)| == |Mask(part)|
    ensures var value := LossFunc(model(part), Mask(part));
      && (value.Some? <==> TokenWeight(part.weights) != 0.0)
      && (value.Some? ==> IsWeightedMean(part, model, value.value))
  {
    FlatSums(part.weights, ByRow(model(part), part.weights));
    if SumReal(Mask(part)) != 0.0 {
      QuotientBack(Dot(model(part), Mask(part)), SumReal(Mask(part)));
    }
  }

  lemma QuotientBack(x: real, w: real)
    requires w != 0.0
    ensures x / w * w == x
  {
  }

  lemma ReportedIsStepLoss(parts: seq<TensorBatch>, model: TensorBatch -> seq<real>)
    requires parts != [] && ShapesFit(parts, model)
    ensures IsStepLoss(parts, model, Reported(Outputs(parts, model), Masks(parts)))
  {
    var values := MicrobatchLosses(Outputs(parts, model), Masks(parts));
    forall k | 0 <= k < |parts|
      ensures values[k].Some? <==> TokenWeight(parts[k].weights) != 0.0
      ensures values[k].Some? ==> IsWeightedMean(parts[k], model, values[k].value)
    {
      MaskedMeans(parts[k], model);
    }
    if AllFinite(values) {
      QuotientBack(SumReal(Finite(values)), |parts| as real);
      assert WeightedMeans(parts, model, Finite(values));
    }
  }

  /** Both models give every token of non-zero weight the same loss. */
  ghost predicate AgreeOnWeighted(part: TensorBatch, a: TensorBatch -> seq<real>, b: TensorBatch -> seq<real>) {
    && |a(part)| == |Flatten(part.weights)| == |b(part)|
    && forall i, j :: 0 <= i < |part.weights| && 0 <= j < |part.weights[i]| && part.weights[i][j] != 0.0 ==>
         ByRow(a(part), part.weights)[i][j] == ByRow(b(part), part.weights)[i][j]
  }

  lemma AgreeingMeans(part: TensorBatch, a: TensorBatch -> seq<real>, b: TensorBatch -> seq<real>)
    requires AgreeOnWeighted(part, a, b)
    ensures LossFunc(a(part), Mask(part)) == LossFunc(b(part), Mask(part))
  {
    var rows, left, right := part.weights, ByRow(a(part), part.weights), ByRow(b(part), part.weights);
    FlatSums(rows, left);
    FlatSums(rows, right);
    forall i | 0 <= i < |rows| ensures RowLosses(rows, left)[i] == RowLosses(rows, right)[i] {
      forall j | 0 <= j < |rows[i]| ensures Products(rows[i], left[i])[j] == Products(rows[i], right[i])[j] {
        if rows[i][j] != 0.0 { assert left[i][j] == right[i][j]; }
      }
      assert Products(rows[i], left[i]) == Products(rows[i], right[i]);
    }
    assert RowLosses(rows, left) == RowLosses(rows, right);
  }

  /** Tokens of weight zero do not matter: models that agree on all others report the same loss. */
  lemma OnlyWeightedTokensMatter(batch: TensorBatch, size: nat, a: TensorBatch -> seq<real>,
                                 b: TensorBatch -> seq<real>)
    requires Aligned(batch) && Splits(batch, size)
    requires forall part :: part in Microbatches(batch, size) ==> AgreeOnWeighted(part, a, b)
    ensures StepResult(batch, size, a) == StepResult(batch, size, b)
    ensures StepResult(batch, size, a).Ok?
  {
    var parts := Microbatches(batch, size);
    forall k | 0 <= k < |parts|
      ensures AgreeOnWeighted(parts[k], a, b)
      ensures LossFunc(a(parts[k]), Mask(parts[k])) == LossFunc(b(parts[k]), Mask(parts[k]))
    {
      assert parts[k] in parts;
      AgreeingMeans(parts[k], a, b);
    }
    assert MicrobatchLosses(Outputs(parts, a), Masks(parts)) == MicrobatchLosses(Outputs(parts, b), Masks(parts));
  }

  /** The runtime splits the batch, scores every microbatch and reports the mean. */
  method ForwardBackward(batch: TensorBatch, microBatchSize: int, model: TensorBatch -> seq<real>)
    returns (r: Result<Option<real>, Error>)
    requires Aligned(batch)
    ensures r.Ok? <==>
      && microBatchSize > 0 && batch.inputIds != [] && |batch.inputIds| % microBatchSize == 0
      && forall part :: part in Microbatches(batch, microBatchSize) ==> |model(part)| == |Flatten(part.weights)|
    ensures r.Ok? ==> IsStepLoss(Microbatches(batch, microBatchSize), model, r.value)
    ensures r.Ok? ==>
      var parts := Microbatches(batch, microBatchSize);
      && Matching(Outputs(parts, model), Masks(parts))
      && r.value == Reported(Outputs(parts, model), Masks(parts))
    ensures r == StepResult(batch, microBatchSize, model)
  {
    var split := SplitTensorBatch(batch, microBatchSize);
    if split.Err? {
      return Err(split.error);
    }
    var parts := split.value;
    var reduced: seq<Option<real>> := [];
    for i := 0 to |parts|
      invariant |reduced| == i
      invariant forall k :: 0 <= k < i ==> |model(parts[k])| == |Mask(parts[k])|
      invariant forall k :: 0 <= k < i ==> reduced[k] == LossFunc(model(parts[k]), Mask(parts[k]))
    {
      if |model(parts[i])| != |Mask(parts[i])| {
        assert parts[i] in parts;
        return Err(RuntimeRaised);
      }
      reduced := reduced + [LossFunc(model(parts[i]), Mask(parts[i]))];
    }
    assert reduced == MicrobatchLosses(Outputs(parts, model), Masks(parts));
    ReportedIsStepLoss(parts, model);
    var loss := ExtractLoss(reduced);
    r := Ok(loss);
  }
}
