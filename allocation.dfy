/**
 * The allocation engine: conversion of each cost to BRL, the running total,
 * the cost per user in either calculation mode, and each cost's share of the
 * total. Amounts, the exchange rate and the percentage are exact reals.
 */
module Allocation {
  import opened Costs

  /** Which of the two allocation figures is shown. */
  datatype CalcMode = Users | Percentage

  /** The amount of `c` in BRL; `rate` is BRL per USD. */
  function Convert(c: CostItem, rate: real): (r: real)
    ensures c.currency == BRL ==> r == c.amount
    ensures c.currency == USD ==> r == c.amount * rate
    ensures c.amount >= 0.0 && rate >= 0.0 ==> r >= 0.0
  {
    if c.currency == USD then c.amount * rate else c.amount
  }

  /** Reference sum of the converted amounts, element by element from the front. */
  function Sum(costs: seq<CostItem>, rate: real): (r: real) {
    if costs == [] then 0.0 else Convert(costs[0], rate) + Sum(costs[1..], rate)
  }

  /** The fold behind the total: `acc` is the running accumulator of the reduce. */
  function TotalFrom(acc: real, costs: seq<CostItem>, rate: real): (r: real)
    ensures r == acc + Sum(costs, rate)
    decreases |costs|
  {
    if costs == [] then acc else TotalFrom(acc + Convert(costs[0], rate), costs[1..], rate)
  }

  /** Total monthly cost in BRL: the fold started at 0. */
  function Total(costs: seq<CostItem>, rate: real): (r: real)
    ensures r == Sum(costs, rate)
  {
    TotalFrom(0.0, costs, rate)
  }

  /** Cost per user: the total split over the user target, or a percentage of it. */
  function CostPerUser(mode: CalcMode, targetUsers: int, targetPercentage: real, total: real): (r: real)
    ensures mode == Users && targetUsers > 0 ==> r * (targetUsers as real) == total
    ensures mode == Users && targetUsers <= 0 ==> r == 0.0
    ensures mode == Percentage ==> 100.0 * r == total * targetPercentage
  {
    if mode == Users then
      (if targetUsers > 0 then total / (targetUsers as real) else 0.0)
    else
      total * (targetPercentage / 100.0)
  }

  /** Fraction of the total that one cost represents, 0 when the total is not positive. */
  function Share(c: CostItem, rate: real, total: real): (r: real)
    ensures total <= 0.0 ==> r == 0.0
    ensures total > 0.0 ==> r * total == Convert(c, rate)
  {
    if total > 0.0 then Convert(c, rate) / total else 0.0
  }

  /** The on-screen percentage of one cost: its share scaled to 100. */
  function SharePercent(c: CostItem, rate: real, total: real): (r: real)
    ensures r == 100.0 * Share(c, rate, total)
  {
    if total > 0.0 then (Convert(c, rate) / total) * 100.0 else 0.0
  }

  /** Sum of the shares of all costs against the same total. */
  function SumShares(costs: seq<CostItem>, rate: real, total: real): (r: real) {
    if costs == [] then 0.0 else Share(costs[0], rate, total) + SumShares(costs[1..], rate, total)
  }

  /** Every cost has a non-negative amount. */
  predicate NonNegative(costs: seq<CostItem>) {
    forall i :: 0 <= i < |costs| ==> costs[i].amount >= 0.0
  }

  // ---------------------------------------------------------------- conversion

  /** A BRL amount is kept whatever the rate; a USD amount scales with the rate. */
  lemma ConvertByCurrency(c: CostItem, rate: real, other: real)
    ensures c.currency == BRL ==> Convert(c, rate) == c.amount == Convert(c, other)
    ensures c.currency == USD ==> Convert(c, rate) == c.amount * rate
    ensures c.currency == USD ==> Convert(c, 1.0) == c.amount
    ensures c.amount >= 0.0 && rate >= 0.0 ==> Convert(c, rate) >= 0.0
  {
  }

  // --------------------------------------------------------------------- total

  /** The total of an empty list is 0. */
  lemma TotalEmpty(rate: real)
    ensures Total([], rate) == 0.0
  {
  }

  /** The sum over a concatenation is the sum of the sums. */
  lemma {:induction false} SumConcat(xs: seq<CostItem>, ys: seq<CostItem>, rate: real)
    ensures Sum(xs + ys, rate) == Sum(xs, rate) + Sum(ys, rate)
  {
    if xs == [] {
      assert xs + ys == ys;
    } else {
      assert (xs + ys)[1..] == xs[1..] + ys;
      SumConcat(xs[1..], ys, rate);
    }
  }

  /** Appending one cost adds exactly its converted amount to the total. */
  lemma TotalAppend(costs: seq<CostItem>, c: CostItem, rate: real)
    ensures Total(costs + [c], rate) == Total(costs, rate) + Convert(c, rate)
  {
    SumConcat(costs, [c], rate);
  }

  /** The total does not depend on the order of the costs. */
  lemma {:induction false} TotalPermutation(xs: seq<CostItem>, ys: seq<CostItem>, rate: real)
    requires multiset(xs) == multiset(ys)
    ensures Total(xs, rate) == Total(ys, rate)
  {
    if xs != [] {
      assert xs[0] in multiset(ys);
      var i :| 0 <= i < |ys| && ys[i] == xs[0];
      var rest := ys[..i] + ys[i + 1..];
      MultisetWithout(xs, ys, i);
      TotalPermutation(xs[1..], rest, rate);
      SumWithout(ys, i, rate);
    }
  }

  /** Taking the first item of `xs` out and the same item at `i` out of `ys` keeps equal multisets equal. */
  lemma MultisetWithout(xs: seq<CostItem>, ys: seq<CostItem>, i: nat)
    requires multiset(xs) == multiset(ys) && xs != [] && i < |ys| && ys[i] == xs[0]
    ensures multiset(xs[1..]) == multiset(ys[..i] + ys[i + 1..])
  {
    var x := xs[0];
    assert ys == ys[..i] + [x] + ys[i + 1..];
    assert multiset(ys) == multiset(ys[..i] + ys[i + 1..]) + multiset{x};
    assert xs == [x] + xs[1..];
    assert multiset(xs) == multiset(xs[1..]) + multiset{x};
    assert multiset(xs[1..]) == multiset(xs) - multiset{x};
  }

  /** The sum is the item at `i` plus the sum of the other items. */
  lemma SumWithout(ys: seq<CostItem>, i: nat, rate: real)
    requires i < |ys|
    ensures Sum(ys, rate) == Convert(ys[i], rate) + Sum(ys[..i] + ys[i + 1..], rate)
  {
    assert ys == (ys[..i] + [ys[i]]) + ys[i + 1..];
    SumConcat(ys[..i] + [ys[i]], ys[i + 1..], rate);
    SumConcat(ys[..i], [ys[i]], rate);
    SumConcat(ys[..i], ys[i + 1..], rate);
  }

  /** With non-negative amounts and rate, no single cost exceeds the total. */
  lemma {:induction false} ConvertAtMostSum(costs: seq<CostItem>, k: nat, rate: real)
    requires NonNegative(costs) && rate >= 0.0 && k < |costs|
    ensures 0.0 <= Convert(costs[k], rate) <= Sum(costs, rate)
  {
    SumNonNegative(costs[1..], rate);
    if k > 0 {
      ConvertAtMostSum(costs[1..], k - 1, rate);
    }
  }

  /** With non-negative amounts and rate, the sum is non-negative. */
  lemma {:induction false} SumNonNegative(costs: seq<CostItem>, rate: real)
    requires NonNegative(costs) && rate >= 0.0
    ensures Sum(costs, rate) >= 0.0
  {
    if costs != [] {
      SumNonNegative(costs[1..], rate);
    }
  }

  // ------------------------------------------------------- list operations

  /** Adding the placeholder item leaves the total unchanged. */
  lemma AddKeepsTotal(costs: seq<CostItem>, freshId: string, rate: real)
    ensures Total(AddCost(costs, freshId), rate) == Total(costs, rate)
  {
    TotalAppend(costs, DefaultItem(freshId), rate);
  }

  /** Adding then removing by the fresh id restores the total. */
  lemma AddRemoveKeepsTotal(costs: seq<CostItem>, freshId: string, rate: real)
    requires freshId !in Ids(costs)
    ensures Total(RemoveCost(AddCost(costs, freshId), freshId), rate) == Total(costs, rate)
  {
    RemoveUndoesAdd(costs, freshId);
  }

  /** Renaming costs never changes the total. */
  lemma {:induction false} RenameKeepsTotal(costs: seq<CostItem>, id: string, name: string, rate: real)
    ensures Total(UpdateCost(costs, id, SetName(name)), rate) == Total(costs, rate)
  {
    if costs != [] {
      var r := UpdateCost(costs, id, SetName(name));
      assert r[1..] == UpdateCost(costs[1..], id, SetName(name));
      RenameKeepsTotal(costs[1..], id, name, rate);
    }
  }

  /** The total after removing an id plus the converted amounts of the removed items is the old total. */
  lemma {:induction false} RemoveSplitsTotal(costs: seq<CostItem>, id: string, rate: real)
    ensures Total(RemoveCost(costs, id), rate) + RemovedSum(costs, id, rate) == Total(costs, rate)
  {
    if costs != [] {
      RemoveSplitsTotal(costs[1..], id, rate);
      if costs[0].id != id {
        assert RemoveCost(costs, id)[1..] == RemoveCost(costs[1..], id);
      }
    }
  }

  /** Sum of the converted amounts of the items carrying `id`. */
  function RemovedSum(costs: seq<CostItem>, id: string, rate: real): (r: real) {
    if costs == [] then 0.0
    else (if costs[0].id == id then Convert(costs[0], rate) else 0.0) + RemovedSum(costs[1..], id, rate)
  }

  // ------------------------------------------------------------ cost per user

  /** A percentage of 0 gives 0 and a percentage of 100 gives the whole total. */
  lemma PercentageEdges(total: real, targetUsers: int)
    ensures CostPerUser(Percentage, targetUsers, 0.0, total) == 0.0
    ensures CostPerUser(Percentage, targetUsers, 100.0, total) == total
  {
  }

  /** Each mode reads only its own target, so the other one may be kept while toggling. */
  lemma ModeReadsOwnTarget(total: real, u1: int, u2: int, p1: real, p2: real)
    ensures CostPerUser(Users, u1, p1, total) == CostPerUser(Users, u1, p2, total)
    ensures CostPerUser(Percentage, u1, p1, total) == CostPerUser(Percentage, u2, p1, total)
  {
  }

  /** In users mode, a single user bears the whole total. */
  lemma OneUserBearsTotal(total: real, pct: real)
    ensures CostPerUser(Users, 1, pct, total) == total
  {
  }

  // ------------------------------------------------------------------- shares

  /** When the total is not positive, every share and their sum are 0. */
  lemma {:induction false} SharesZeroWhenNoTotal(costs: seq<CostItem>, rate: real, total: real)
    requires total <= 0.0
    ensures forall i :: 0 <= i < |costs| ==> Share(costs[i], rate, total) == 0.0
    ensures SumShares(costs, rate, total) == 0.0
  {
    if costs != [] {
      SharesZeroWhenNoTotal(costs[1..], rate, total);
    }
  }

  /** Against a positive total, the shares add up to the sum over that total. */
  lemma {:induction false} SumSharesScaled(costs: seq<CostItem>, rate: real, total: real)
    requires total > 0.0
    ensures SumShares(costs, rate, total) * total == Sum(costs, rate)
  {
    if costs != [] {
      SumSharesScaled(costs[1..], rate, total);
      var s0 := Share(costs[0], rate, total);
      var rest := SumShares(costs[1..], rate, total);
      assert (s0 + rest) * total == s0 * total + rest * total;
    }
  }

  /** When the total is positive, the shares of all costs add up to exactly 1. */
  lemma SharesSumToOne(costs: seq<CostItem>, rate: real)
    requires Total(costs, rate) > 0.0
    ensures SumShares(costs, rate, Total(costs, rate)) == 1.0
  {
    var t := Total(costs, rate);
    SumSharesScaled(costs, rate, t);
    CancelPositive(SumShares(costs, rate, t), 1.0, t);
  }

  /** Multiplication by a positive factor is injective. */
  lemma CancelPositive(a: real, b: real, t: real)
    requires t > 0.0 && a * t == b * t
    ensures a == b
  {
  }

  /** With non-negative amounts and rate, each share lies between 0 and 1. */
  lemma ShareBounds(costs: seq<CostItem>, k: nat, rate: real)
    requires NonNegative(costs) && rate >= 0.0 && k < |costs|
    ensures 0.0 <= Share(costs[k], rate, Total(costs, rate)) <= 1.0
  {
    ConvertAtMostSum(costs, k, rate);
    var t := Total(costs, rate);
    if t > 0.0 {
      QuotientBounds(Convert(costs[k], rate), t);
    }
  }

  /** A quotient of a non-negative value by a positive value no smaller lies in [0, 1]. */
  lemma QuotientBounds(a: real, t: real)
    requires 0.0 <= a <= t && t > 0.0
    ensures 0.0 <= a / t <= 1.0
  {
  }
}
