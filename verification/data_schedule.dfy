/** Which microbatches each replica trains on: a cyclic walk over the list, dealt out across replicas
    one accumulation step at a time. */
module DataSchedule {
  import opened Wrappers
  import opened Seqs

  /** Where in the list replica rank finds its item of a round. */
  function Index(items: nat, step: nat, rank: nat, size: nat): (i: nat)
    requires items > 0
    ensures i < items
  {
    (step * size + rank) % items
  }

  function SelectDataParallelItem<T>(items: seq<T>, step: int, rank: int, size: int): Result<T, Error> {
    if items == [] || step < 0 || size <= 0 || rank < 0 || rank >= size then Err(ValueError)
    else Ok(items[Index(|items|, step, rank, size)])
  }

  /** One item per microstep of a logical step; the first failure ends the comprehension. */
  method SelectDataParallelItems<T>(items: seq<T>, step: int, rank: int, size: int, gradAccum: int)
    returns (r: Result<seq<T>, Error>)
    ensures r.Ok? <==> gradAccum > 0 && items != [] && step >= 0 && 0 <= rank < size
    ensures r.Err? ==> r.error == ValueError
    ensures r.Ok? ==> |r.value| == gradAccum && forall m :: 0 <= m < gradAccum ==>
      r.value[m] == items[((step * gradAccum + m) * size + rank) % |items|]
    ensures r == Selected(items, step, rank, size, gradAccum)
  {
    if gradAccum <= 0 {
      return Err(ValueError);
    }
    var chosen: seq<T> := [];
    for microstep := 0 to gradAccum
      invariant |chosen| == microstep
      invariant microstep > 0 ==> items != [] && step * gradAccum >= 0 && size > 0 && 0 <= rank < size
      invariant forall m :: 0 <= m < microstep ==>
        SelectDataParallelItem(items, step * gradAccum + m, rank, size) == Ok(chosen[m])
    {
      var item := SelectDataParallelItem(items, step * gradAccum + microstep, rank, size);
      if item.Err? {
        if microstep == 0 && step >= 0 { StepNotNegative(step, gradAccum); }
        return Err(item.error);
      }
      chosen := chosen + [item.value];
    }
    if step < 0 { StepNegative(step, gradAccum); }
    assert Selectable(items, step, rank, size, gradAccum);
    assert chosen == Selected(items, step, rank, size, gradAccum).value;
    r := Ok(chosen);
  }

  lemma StepNegative(step: int, gradAccum: nat)
    requires step < 0 && gradAccum > 0
    ensures step * gradAccum < 0
  {
    MulShrinks(gradAccum, step);
    assert step * gradAccum == gradAccum * step;
  }

  lemma StepNotNegative(step: nat, gradAccum: nat)
    ensures step * gradAccum >= 0
  {
  }

  predicate Selectable<T>(items: seq<T>, step: int, rank: int, size: int, gradAccum: int) {
    gradAccum > 0 && items != [] && step >= 0 && 0 <= rank < size
  }

  /** A replica's microbatches of a step: entry m is what round step * gradAccum + m deals it. */
  function Selected<T>(items: seq<T>, step: int, rank: int, size: int, gradAccum: int): (r: Result<seq<T>, Error>)
    ensures r.Ok? <==> Selectable(items, step, rank, size, gradAccum)
    ensures r.Ok? ==> |r.value| == gradAccum
  {
    if !Selectable(items, step, rank, size, gradAccum) then Err(ValueError)
    else Ok(seq(gradAccum, m requires 0 <= m < gradAccum =>
              (StepNotNegative(step, gradAccum); items[Index(|items|, step * gradAccum + m, rank, size)])))
  }

  // ---------------------------------------------------------------- exactly once

  /** What all replicas together consume in a run, round by round and within a round by rank. */
  function Consumed<T>(items: seq<T>, rounds: nat, size: nat): seq<T>
    requires items != []
  {
    if rounds == 0 then [] else Consumed(items, rounds - 1, size) + Dealt(items, rounds - 1, size)
  }

  function Dealt<T>(items: seq<T>, round: nat, size: nat): seq<T>
    requires items != []
  {
    seq(size, rank requires 0 <= rank < size => items[Index(|items|, round, rank, size)])
  }

  /** The list read cyclically from its start. */
  function Cyclic<T>(items: seq<T>, total: nat): seq<T>
    requires items != []
  {
    seq(total, p requires 0 <= p < total => items[p % |items|])
  }

  /** Dealing to the replicas round by round reads the list cyclically, each position once. */
  lemma {:induction false} ConsumedIsCyclic<T>(items: seq<T>, rounds: nat, size: nat)
    requires items != []
    ensures Consumed(items, rounds, size) == Cyclic(items, rounds * size)
  {
    if rounds > 0 {
      ConsumedIsCyclic(items, rounds - 1, size);
      var before, all := (rounds - 1) * size, rounds * size;
      assert all == before + size;
      assert Cyclic(items, all) == Cyclic(items, before) + Dealt(items, rounds - 1, size);
    }
  }

  /** The position, before it wraps around, that a replica's microstep of a step reads. */
  function Position(step: nat, microstep: nat, rank: nat, gradAccum: nat, size: nat): nat {
    (step * gradAccum + microstep) * size + rank
  }

  lemma Nested(a: nat, n: nat, b: nat, k: nat)
    requires a < n && b < k
    ensures a * k + b < n * k
    ensures (a * k + b) / k == a && (a * k + b) % k == b
  {
    assert n * k == a * k + (n - a) * k;
    MulGrows(k, n - a);
    DivModUnique(a * k + b, k, a, b);
  }

  /** Over steps, microsteps and ranks, every position below steps * gradAccum * size is read, once. */
  lemma PositionsAreExact(steps: nat, gradAccum: nat, size: nat, s: nat, m: nat, r: nat, p: nat)
    requires gradAccum > 0 && size > 0
    ensures s < steps && m < gradAccum && r < size && p < steps * gradAccum * size ==>
      (Position(s, m, r, gradAccum, size) == p <==>
         s == p / size / gradAccum && m == p / size % gradAccum && r == p % size)
    ensures s < steps && m < gradAccum && r < size ==> Position(s, m, r, gradAccum, size) < steps * gradAccum * size
    ensures p < steps * gradAccum * size ==>
      p / size / gradAccum < steps && p / size % gradAccum < gradAccum && p % size < size
  {
    if s < steps && m < gradAccum && r < size {
      Nested(s, steps, m, gradAccum);
      Nested(s * gradAccum + m, steps * gradAccum, r, size);
    }
    if p < steps * gradAccum * size {
      PositionBack(p, steps, gradAccum, size);
    }
  }

  lemma PositionBack(p: nat, steps: nat, gradAccum: nat, size: nat)
    requires gradAccum > 0 && size > 0 && p < steps * gradAccum * size
    ensures var s, m, r := p / size / gradAccum, p / size % gradAccum, p % size;
      0 <= s < steps && 0 <= m < gradAccum && 0 <= r < size && Position(s, m, r, gradAccum, size) == p
  {
    var round := p / size;
    assert p == size * round + p % size && round == gradAccum * (round / gradAccum) + round % gradAccum;
    Below(round, size, p % size, steps * gradAccum);
    Below(round / gradAccum, gradAccum, round % gradAccum, steps);
    assert size * round == round * size && gradAccum * (round / gradAccum) == (round / gradAccum) * gradAccum;
  }

  lemma Below(q: nat, n: nat, r: nat, k: nat)
    requires n * q + r < k * n && r < n
    ensures q < k
  {
    assert n * q == q * n;
  }

  /** The item a replica trains on at a microstep is the one at its position. */
  lemma SelectedReadsPosition<T>(items: seq<T>, step: nat, microstep: nat, rank: nat, size: nat, gradAccum: nat)
    requires Selectable(items, step, rank, size, gradAccum) && microstep < gradAccum
    ensures Selected(items, step, rank, size, gradAccum).value[microstep]
         == items[Position(step, microstep, rank, gradAccum, size) % |items|]
    ensures SelectDataParallelItem(items, step * gradAccum + microstep, rank, size)
         == Ok(Selected(items, step, rank, size, gradAccum).value[microstep])
  {
    StepNotNegative(step, gradAccum);
    var round := step * gradAccum + microstep;
    assert Selected(items, step, rank, size, gradAccum).value[microstep] == items[Index(|items|, round, rank, size)];
    assert Position(step, microstep, rank, gradAccum, size) == round * size + rank;
  }

  // ---------------------------------------------------------------- how often each item is used

  /** How many of the positions 0 .. total - 1 fall on an item. */
  function Uses(items: nat, item: nat, total: nat): nat
    requires item < items
  {
    if total == 0 then 0 else Uses(items, item, total - 1) + (if (total - 1) % items == item then 1 else 0)
  }

  lemma {:induction false} UsesClosedForm(items: nat, item: nat, total: nat)
    requires item < items
    ensures Uses(items, item, total) == total / items + (if item < total % items then 1 else 0)
  {
    if total == 0 {
      DivModUnique(0, items, 0, 0);
    } else {
      UsesClosedForm(items, item, total - 1);
      Successor(total - 1, items);
    }
  }

  /** The places of a list: what is dealt out, whatever the items are. */
  function Places(n: nat): (places: seq<int>)
    ensures |places| == n
  {
    seq(n, i => i)
  }

  /** Which item of the list every position of a run reads. */
  function ConsumedPlaces(items: nat, rounds: nat, size: nat): seq<int>
    requires items > 0
  {
    Consumed(Places(items), rounds, size)
  }

  lemma {:induction false} UsesCounts<T>(items: seq<T>, item: nat, total: nat)
    requires item < |items| && forall i, j :: 0 <= i < j < |items| ==> items[i] != items[j]
    ensures multiset(Cyclic(items, total))[items[item]] == Uses(|items|, item, total)
  {
    if total > 0 {
      UsesCounts(items, item, total - 1);
      assert Cyclic(items, total) == Cyclic(items, total - 1) + [items[(total - 1) % |items|]];
    }
  }

  /** A run consumes the items at its places, one after the other. */
  lemma ConsumesPlaces<T>(items: seq<T>, rounds: nat, size: nat)
    requires items != []
    ensures var places := ConsumedPlaces(|items|, rounds, size);
      && |Consumed(items, rounds, size)| == |places| == rounds * size
      && forall p :: 0 <= p < |places| ==>
           0 <= places[p] < |items| && Consumed(items, rounds, size)[p] == items[places[p]]
  {
    ConsumedIsCyclic(items, rounds, size);
    ConsumedIsCyclic(Places(|items|), rounds, size);
  }

  lemma PlaceUses(items: nat, item: nat, total: nat)
    requires item < items
    ensures multiset(Cyclic(Places(items), total))[item] == Uses(items, item, total)
  {
    UsesCounts(Places(items), item, total);
    assert Places(items)[item] == item;
  }

  lemma UsedInRounds(items: nat, rounds: nat, size: nat, item: nat, total: nat)
    requires item < items && total == rounds * size
    ensures multiset(ConsumedPlaces(items, rounds, size))[item] == Uses(items, item, total)
  {
    ConsumedIsCyclic(Places(items), rounds, size);
    PlaceUses(items, item, total);
  }

  /** Over any number of steps each item is used the same number of times, give or take one. */
  lemma UsedEvenly(items: nat, steps: nat, gradAccum: nat, size: nat, item: nat)
    requires item < items
    ensures var total := steps * gradAccum * size;
      multiset(ConsumedPlaces(items, steps * gradAccum, size))[item]
        == total / items + (if item < total % items then 1 else 0)
  {
    var total := steps * gradAccum * size;
    UsedInRounds(items, steps * gradAccum, size, item, total);
    UsesClosedForm(items, item, total);
  }

  lemma WrapsIff(items: nat, total: nat)
    requires items > 0
    ensures (forall p, q :: 0 <= p < q < total ==> Cyclic(Places(items), total)[p] != Cyclic(Places(items), total)[q])
       <==> total <= items
  {
    var all := Cyclic(Places(items), total);
    if total <= items {
      forall p, q | 0 <= p < q < total ensures all[p] != all[q] {
        DivModUnique(p, items, 0, p);
        DivModUnique(q, items, 0, q);
      }
    } else {
      FirstComesBack(items, total);
    }
  }

  lemma FirstComesBack(items: nat, total: nat)
    requires 0 < items < total
    ensures Cyclic(Places(items), total)[0] == Cyclic(Places(items), total)[items]
  {
    DivModUnique(0, items, 0, 0);
    DivModUnique(items, items, 1, 0);
  }

  /** No item is used twice exactly as long as the run consumes no more than there are. */
  lemma NoRepeatsIff(items: nat, rounds: nat, size: nat)
    requires items > 0
    ensures (forall p, q :: 0 <= p < q < |ConsumedPlaces(items, rounds, size)| ==>
               ConsumedPlaces(items, rounds, size)[p] != ConsumedPlaces(items, rounds, size)[q])
       <==> rounds * size <= items
  {
    ConsumedIsCyclic(Places(items), rounds, size);
    WrapsIff(items, rounds * size);
    assert ConsumedPlaces(items, rounds, size) == Cyclic(Places(items), rounds * size);
  }
}
