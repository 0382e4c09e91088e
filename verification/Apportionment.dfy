/** Weighted apportionment with a stable remainder (src/quota_policy.rs). */
module Apportionment {
  import opened Arith
  import opened Words

  const U128_MAX: int := 0xFFFF_FFFF_FFFF_FFFF_FFFF_FFFF_FFFF_FFFF

  /** Sum of the first `n` numbers. */
  function Sum(ws: seq<nat>, n: nat): nat
    requires n <= |ws|
  {
    if n == 0 then 0 else Sum(ws, n - 1) + ws[n - 1]
  }

  function Total(ws: seq<nat>): nat {
    Sum(ws, |ws|)
  }

  /** The item weights, or one for each item when all are zero. */
  function EffectiveWeights<I>(items: seq<(I, U16)>): seq<nat> {
    var raw := seq(|items|, i requires 0 <= i < |items| => items[i].1);
    if Total(raw) == 0 then seq(|items|, i => 1) else raw
  }

  function Floor(total: nat, ws: seq<nat>, i: nat): nat
    requires i < |ws| && Total(ws) > 0
  {
    NonNegative(total, ws[i]);
    (total * ws[i]) / Total(ws)
  }

  lemma NonNegative(a: nat, b: nat)
    ensures a * b >= 0
  {
  }

  function FloorSum(total: nat, ws: seq<nat>, n: nat): nat
    requires n <= |ws| && Total(ws) > 0
  {
    if n == 0 then 0 else FloorSum(total, ws, n - 1) + Floor(total, ws, n - 1)
  }

  /** How many of the first `n` weights are positive. */
  function Rank(ws: seq<nat>, n: nat): (r: nat)
    requires n <= |ws|
    ensures r <= n
  {
    if n == 0 then 0 else Rank(ws, n - 1) + if ws[n - 1] > 0 then 1 else 0
  }

  function Remainder(total: nat, ws: seq<nat>): int
    requires Total(ws) > 0
  {
    total - FloorSum(total, ws, |ws|)
  }

  /** The floor, plus one for the first `Remainder` items of positive weight. */
  function Share(total: nat, ws: seq<nat>, i: nat): nat
    requires i < |ws| && Total(ws) > 0
  {
    Floor(total, ws, i) +
    if ws[i] > 0 && Rank(ws, i) < Remainder(total, ws) then 1 else 0
  }

  function ShareSum(total: nat, ws: seq<nat>, n: nat): nat
    requires n <= |ws| && Total(ws) > 0
  {
    if n == 0 then 0 else ShareSum(total, ws, n - 1) + Share(total, ws, n - 1)
  }

  // ----- the remainder is smaller than the number of positive weights

  /** What `n` items of `sum` weight lose when their exact shares are rounded down to `floors`. */
  predicate LossWithin(total: int, sum: int, floors: int, rank: int, w: int) {
    floors * w <= total * sum <= floors * w + rank * (w - 1)
  }

  /** One more item. */
  lemma LossStep(total: int, sum: int, x: int, floors: int, f: int, l: int, w: int, rank: int, bump: int)
    requires LossWithin(total, sum, floors, rank, w)
    requires total * x == f * w + l && 0 <= l <= bump * (w - 1)
    ensures LossWithin(total, sum + x, floors + f, rank + bump, w)
  {
    MulDistributes(floors, f, w);
    MulDistributes(rank, bump, w - 1);
    assert total * (sum + x) == total * sum + total * x;
  }

  /** One item loses the remainder of its division, nothing when its weight is zero. */
  lemma LossOfOne(total: nat, x: nat, w: int, bump: int)
    requires w > 0 && bump == (if x > 0 then 1 else 0)
    ensures total * x == ((total * x) / w) * w + (total * x) % w
    ensures 0 <= (total * x) % w <= bump * (w - 1)
  {
    DivModIdentity(total * x, w);
    if x == 0 {
      assert total * x == 0;
    }
  }

  /** What rounding down loses: non-negative, below one unit per positive weight. */
  lemma {:induction false} RoundingLoss(total: nat, ws: seq<nat>, n: nat, w: int)
    requires n <= |ws| && w == Total(ws) > 0
    ensures LossWithin(total, Sum(ws, n), FloorSum(total, ws, n), Rank(ws, n), w)
  {
    if n == 0 {
      assert Sum(ws, 0) == 0 && FloorSum(total, ws, 0) == 0 && Rank(ws, 0) == 0;
    } else {
      RoundingLoss(total, ws, n - 1, w);
      var x, bump := ws[n - 1], if ws[n - 1] > 0 then 1 else 0;
      LossOfOne(total, x, w, bump);
      LossStep(total, Sum(ws, n - 1), x, FloorSum(total, ws, n - 1), (total * x) / w, (total * x) % w, w,
               Rank(ws, n - 1), bump);
    }
  }

  lemma RankGrows(ws: seq<nat>, i: nat, j: nat)
    requires i <= j <= |ws|
    ensures Rank(ws, i) <= Rank(ws, j)
    ensures forall k :: i <= k < j && ws[k] > 0 ==> Rank(ws, i) < Rank(ws, j)
    decreases j
  {
    if i < j {
      RankGrows(ws, i, j - 1);
    }
  }

  lemma {:induction false} PositiveWeightExists(ws: seq<nat>, n: nat)
    requires n <= |ws|
    ensures Rank(ws, n) == 0 <==> Sum(ws, n) == 0
  {
    if n > 0 {
      PositiveWeightExists(ws, n - 1);
    }
  }

  /** A whole number of units lost, below one unit for each of `n` items. */
  lemma LossBelow(total: int, floors: int, w: int, n: int)
    requires w > 0 && n > 0
    requires floors * w <= total * w <= floors * w + n * (w - 1)
    ensures 0 <= total - floors < n
  {
    var rem := total - floors;
    MulDistributes(floors, rem, w);
    if rem < 0 { MulMonotone(rem, -1, w); }
    if rem >= n { MulMonotone(n, rem, w); }
  }

  /** So the source's "unexpectedly large remainder" branch is never taken. */
  lemma RemainderBelowEligible(total: nat, ws: seq<nat>)
    requires Total(ws) > 0
    ensures 0 <= Remainder(total, ws) < Rank(ws, |ws|)
    ensures Remainder(total, ws) / Rank(ws, |ws|) == 0
  {
    var n, rem := Rank(ws, |ws|), Remainder(total, ws);
    RoundingLoss(total, ws, |ws|, Total(ws));
    PositiveWeightExists(ws, |ws|);
    LossBelow(total, FloorSum(total, ws, |ws|), Total(ws), n);
    QuotientUnique(rem, n, 0, rem);
  }

  // ----- properties of the shares

  lemma {:induction false} SharesSoFar(total: nat, ws: seq<nat>, n: nat)
    requires n <= |ws| && Total(ws) > 0
    ensures ShareSum(total, ws, n) ==
            FloorSum(total, ws, n) + Max(0, Min(Rank(ws, n), Remainder(total, ws)))
  {
    if n > 0 {
      SharesSoFar(total, ws, n - 1);
    }
  }

  lemma {:induction false} ShareWithinSum(total: nat, ws: seq<nat>, i: nat, n: nat)
    requires i < n <= |ws| && Total(ws) > 0
    ensures Share(total, ws, i) <= ShareSum(total, ws, n)
  {
    if i < n - 1 {
      ShareWithinSum(total, ws, i, n - 1);
    }
  }

  lemma FloorMonotone(total: nat, ws: seq<nat>, i: nat, j: nat)
    requires i < |ws| && j < |ws| && Total(ws) > 0 && ws[j] <= ws[i]
    ensures Floor(total, ws, j) <= Floor(total, ws, i)
  {
    var w := Total(ws);
    MulMonotone(ws[j], ws[i], total);
    DivModIdentity(total * ws[i], w);
    DivModIdentity(total * ws[j], w);
    var a, b := Floor(total, ws, i), Floor(total, ws, j);
    if a < b {
      MulMonotone(a + 1, b, w);
      MulDistributes(a, 1, w);
    }
  }

  /** Exact apportionment, stated without the way it is computed. */
  lemma ExactApportionment(total: nat, ws: seq<nat>)
    requires Total(ws) > 0
    ensures ShareSum(total, ws, |ws|) == total
    ensures forall i {:trigger Share(total, ws, i)} :: 0 <= i < |ws| ==>
              && Share(total, ws, i) <= total
              && Floor(total, ws, i) <= Share(total, ws, i) <= Floor(total, ws, i) + 1
              && (ws[i] == 0 ==> Share(total, ws, i) == 0)
    ensures forall i, j {:trigger Share(total, ws, i), Share(total, ws, j)} ::
              0 <= i < j < |ws| && ws[j] <= ws[i] ==> Share(total, ws, j) <= Share(total, ws, i)
  {
    RemainderBelowEligible(total, ws);
    SharesSoFar(total, ws, |ws|);
    forall i | 0 <= i < |ws|
      ensures Share(total, ws, i) <= total
      ensures ws[i] == 0 ==> Share(total, ws, i) == 0
    {
      ShareWithinSum(total, ws, i, |ws|);
      if ws[i] == 0 {
        assert total * ws[i] == 0;
      }
    }
    forall i, j | 0 <= i < j < |ws| && ws[j] <= ws[i]
      ensures Share(total, ws, j) <= Share(total, ws, i)
    {
      FloorMonotone(total, ws, i, j);
      RankGrows(ws, i, j);
    }
  }

  lemma {:induction false} SumOfOnes(ws: seq<nat>, n: nat)
    requires n <= |ws| && forall i :: 0 <= i < |ws| ==> ws[i] == 1
    ensures Sum(ws, n) == n
  {
    if n > 0 {
      SumOfOnes(ws, n - 1);
    }
  }

  lemma EffectiveWeightsPositive<I>(items: seq<(I, U16)>)
    requires items != []
    ensures Total(EffectiveWeights(items)) > 0
  {
    var raw := seq(|items|, i requires 0 <= i < |items| => items[i].1);
    if Total(raw) == 0 {
      SumOfOnes(EffectiveWeights(items), |items|);
    }
  }

  // ----- the source's loops

  method SumOf(ws: seq<nat>) returns (sum: nat)
    ensures sum == Total(ws)
  {
    sum := 0;
    for i := 0 to |ws|
      invariant sum == Sum(ws, i)
    {
      sum := sum + ws[i];
    }
  }

  /** `as u64`. */
  function Narrow(x: nat): U64 {
    x % (U64_MAX + 1)
  }

  /** Indices of the positive weights among the first `n`, in order. */
  function Positives(ws: seq<nat>, n: nat): (e: seq<nat>)
    requires n <= |ws|
    ensures |e| == Rank(ws, n)
    ensures forall j :: 0 <= j < |e| ==> e[j] < n
  {
    if n == 0 then [] else Positives(ws, n - 1) + if ws[n - 1] > 0 then [n - 1] else []
  }

  predicate Increasing(e: seq<nat>) {
    forall i, j :: 0 <= i < j < |e| ==> e[i] < e[j]
  }

  lemma {:induction false} PositivesIncrease(ws: seq<nat>, n: nat)
    requires n <= |ws|
    ensures Increasing(Positives(ws, n))
  {
    if n > 0 {
      PositivesIncrease(ws, n - 1);
    }
  }

  lemma {:induction false} AmongFirst(ws: seq<nat>, n: nat, k: nat, count: nat)
    requires k < n <= |ws| && count <= Rank(ws, n)
    ensures k in Positives(ws, n)[..count] <==> ws[k] > 0 && Rank(ws, k) < count
  {
    var e, tail := Positives(ws, n - 1), if ws[n - 1] > 0 then [n - 1] else [];
    if count <= |e| {
      assert Positives(ws, n)[..count] == e[..count];
      if k < n - 1 { AmongFirst(ws, n - 1, k, count); }
    } else {
      assert Positives(ws, n)[..count] == e + tail;
      if k < n - 1 {
        AmongFirst(ws, n - 1, k, |e|);
        RankGrows(ws, k, n - 1);
        assert e[..|e|] == e;
      }
    }
  }

  method Eligible(ws: seq<nat>) returns (eligible: seq<nat>)
    ensures eligible == Positives(ws, |ws|)
  {
    eligible := [];
    for i := 0 to |ws|
      invariant eligible == Positives(ws, i)
    {
      if ws[i] > 0 {
        eligible := eligible + [i];
      }
    }
  }

  /** Adds `amount` to the shares at the first `count` eligible positions. */
  method AddToFirst<I>(eligible: seq<nat>, count: nat, amount: U64, shares: seq<(I, U64)>)
    returns (out: seq<(I, U64)>)
    requires count <= |eligible|
    requires forall j :: 0 <= j < |eligible| ==> eligible[j] < |shares|
    requires Increasing(eligible)
    ensures |out| == |shares|
    ensures forall k :: 0 <= k < |shares| ==>
              out[k] == if k in eligible[..count] then (shares[k].0, SatAdd(shares[k].1, amount))
                        else shares[k]
  {
    out := shares;
    for j := 0 to count
      invariant |out| == |shares|
      invariant forall k :: 0 <= k < |shares| ==>
                  out[k] == if k in eligible[..j] then (shares[k].0, SatAdd(shares[k].1, amount))
                            else shares[k]
    {
      var idx := eligible[j];
      assert eligible[..j + 1] == eligible[..j] + [idx];
      out := out[idx := (out[idx].0, SatAdd(out[idx].1, amount))];
    }
  }

  /** The rounded-down shares and their running total. */
  method FloorShares<I>(total: U64, items: seq<(I, U16)>, ws: seq<nat>, sumW: nat)
    returns (out: seq<(I, U64)>, granted: nat)
    requires |ws| == |items| && sumW == Total(ws) > 0
    ensures |out| == |items| && granted == FloorSum(total, ws, |ws|)
    ensures forall k :: 0 <= k < |out| ==> out[k] == (items[k].0, Floor(total, ws, k))
  {
    out, granted := [], 0;
    for i := 0 to |items|
      invariant |out| == i && granted == FloorSum(total, ws, i)
      invariant forall k :: 0 <= k < i ==> out[k] == (items[k].0, Floor(total, ws, k))
    {
      var v;
      v, granted := FloorShare(total, ws, i, granted);
      out := out + [(items[i].0, v)];
    }
  }

  /** One round: the floor fits in 64 bits and the sum of floors in 128. */
  method FloorShare(total: U64, ws: seq<nat>, i: nat, granted: nat) returns (v: U64, granted': nat)
    requires i < |ws| && Total(ws) > 0 && granted == FloorSum(total, ws, i)
    ensures v == Floor(total, ws, i) && granted' == FloorSum(total, ws, i + 1)
  {
    var share := Floor(total, ws, i);
    assert granted + share == FloorSum(total, ws, i + 1) <= total by {
      FloorsWithinTotal(total, ws, i);
    }
    v := Narrow(share);
    granted' := Min(granted + share, U128_MAX);
  }

  lemma CancelFactor(a: int, b: int, w: int)
    requires a * w <= b * w && w > 0
    ensures a <= b
  {
    if a > b {
      MulMonotone(b + 1, a, w);
      MulDistributes(b, 1, w);
    }
  }

  lemma FloorsWithinTotal(total: nat, ws: seq<nat>, i: nat)
    requires i < |ws| && Total(ws) > 0
    ensures FloorSum(total, ws, i + 1) <= total
  {
    var f, s, w := FloorSum(total, ws, i + 1), Sum(ws, i + 1), Total(ws);
    assert f * w <= total * s by { RoundingLoss(total, ws, i + 1, w); }
    assert s <= w by { SumWithinTotal(ws, i + 1, |ws|); }
    BoundedByTotal(f, total, s, w);
  }

  lemma BoundedByTotal(f: int, total: nat, s: int, w: int)
    requires f * w <= total * s && s <= w && w > 0
    ensures f <= total
  {
    MulMonotone(s, w, total);
    CancelFactor(f, total, w);
  }

  lemma {:induction false} SumWithinTotal(ws: seq<nat>, i: nat, n: nat)
    requires i <= n <= |ws|
    ensures Sum(ws, i) <= Sum(ws, n)
  {
    if i < n {
      SumWithinTotal(ws, i, n - 1);
    }
  }

  /** Hands the remainder out in stable order. */
  method DistributeRemainder<I>(total: U64, ws: seq<nat>, floors: seq<(I, U64)>, rem: U64)
    returns (out: seq<(I, U64)>)
    requires |floors| == |ws| && Total(ws) > 0 && rem == Remainder(total, ws)
    requires forall k :: 0 <= k < |ws| ==> floors[k].1 == Floor(total, ws, k)
    ensures |out| == |ws|
    ensures forall k :: 0 <= k < |ws| ==> out[k] == (floors[k].0, Share(total, ws, k))
  {
    out := floors;
    if rem > 0 {
      var eligible := Eligible(ws);
      PositivesIncrease(ws, |ws|);
      var n := |eligible|;
      if n != 0 {
        var per, extra := rem / n, rem % n;
        if per > 0 {
          out := AddToFirst(eligible, n, per, out);
        }
        out := AddToFirst(eligible, extra, 1, out);
        assert per == 0 && extra == rem by {
          RemainderBelowEligible(total, ws);
          QuotientUnique(rem, n, 0, rem);
        }
        forall k | 0 <= k < |ws|
          ensures out[k] == (floors[k].0, Share(total, ws, k))
        {
          AmongFirst(ws, |ws|, k, rem);
          ExactApportionment(total, ws);
        }
      } else {
        RemainderBelowEligible(total, ws);
        assert false;
      }
    }
  }

  method AllocateTotalByWeight<I>(total: U64, items: seq<(I, U16)>) returns (out: seq<(I, U64)>)
    requires Total(EffectiveWeights(items)) <= U64_MAX
    ensures |out| == |items|
    ensures items != [] ==> Total(EffectiveWeights(items)) > 0
    ensures forall k :: 0 <= k < |items| ==>
              out[k] == (items[k].0, Share(total, EffectiveWeights(items), k))
  {
    if items == [] {
      return [];
    }
    var ws: seq<nat> := seq(|items|, i requires 0 <= i < |items| => items[i].1);
    var sumW := SumOf(ws);
    if sumW == 0 {
      ws := seq(|items|, i => 1);
    }
    sumW := SumOf(ws);
    EffectiveWeightsPositive(items);
    var floors, granted := FloorShares(total, items, ws, sumW);
    RemainderBelowEligible(total, ws);
    out := DistributeRemainder(total, ws, floors, Max(total - granted, 0));
  }
}
