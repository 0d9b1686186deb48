/** backend/app/common/money/decimal.py `allocate`: largest-remainder split of a
    whole number of paise over non-negative weights. */
module Apportion {
  import opened Prelude
  import opened Money

  /** Weights the original accepts. */
  predicate ValidWeights(weights: seq<int>) {
    weights != [] && forall i :: 0 <= i < |weights| ==> 0 <= weights[i]
  }

  /** ROUND_DOWN of total * weight / weightSum: truncation toward zero. */
  function Truncated(total: int, weight: int, weightSum: int): int
    requires 0 < weightSum
  {
    if 0 <= total then total * weight / weightSum else -(-total * weight / weightSum)
  }

  /** weightSum times the distance from the truncated share to the exact one. */
  function Fraction(total: int, weight: int, weightSum: int): (f: int)
    requires 0 < weightSum
  {
    total * weight - Truncated(total, weight, weightSum) * weightSum
  }

  function Floors(total: int, weights: seq<int>, weightSum: int): (r: seq<int>)
    requires 0 < weightSum
  {
    seq(|weights|, i requires 0 <= i < |weights| => Truncated(total, weights[i], weightSum))
  }

  function Fractions(total: int, weights: seq<int>, weightSum: int): (r: seq<int>)
    requires 0 < weightSum
  {
    seq(|weights|, i requires 0 <= i < |weights| => Fraction(total, weights[i], weightSum))
  }

  // --- sorted(range(n), key=..., reverse=True) -------------------------------

  /** `i` is visited before `j`: larger key first, earlier index on a tie
      (a reversed Python sort is still stable). */
  ghost predicate Ahead(keys: seq<int>, i: nat, j: nat)
    requires i < |keys| && j < |keys|
  {
    keys[i] > keys[j] || (keys[i] == keys[j] && i < j)
  }

  ghost predicate IsDescending(keys: seq<int>, order: seq<nat>) {
    && (forall a :: 0 <= a < |order| ==> order[a] < |keys|)
    && (forall a, b :: 0 <= a < b < |order| ==> Ahead(keys, order[a], order[b]))
  }

  function InsertDescending(keys: seq<int>, order: seq<nat>, i: nat): (r: seq<nat>)
    requires i < |keys| && forall a :: 0 <= a < |order| ==> order[a] < |keys|
    ensures |r| == |order| + 1
    ensures forall a :: 0 <= a < |r| ==> r[a] == i || r[a] in order
  {
    if order == [] then [i]
    else if keys[order[|order| - 1]] < keys[i] then
      InsertDescending(keys, order[..|order| - 1], i) + [order[|order| - 1]]
    else order + [i]
  }

  lemma {:induction false} InsertDescendingSorts(keys: seq<int>, order: seq<nat>, i: nat)
    requires i < |keys| && IsDescending(keys, order)
    requires forall a :: 0 <= a < |order| ==> order[a] < i
    ensures IsDescending(keys, InsertDescending(keys, order, i))
  {
    if order != [] && keys[order[|order| - 1]] < keys[i] {
      var front, last := order[..|order| - 1], order[|order| - 1];
      InsertDescendingSorts(keys, front, i);
      var r := InsertDescending(keys, front, i);
      forall a | 0 <= a < |r| ensures Ahead(keys, r[a], last) {
        if r[a] != i {
          var k :| 0 <= k < |front| && front[k] == r[a];
          assert order[k] == r[a];
        }
      }
    } else if order != [] {
      LastStays(keys, order, i);
    }
  }

  lemma {:induction false} LastStays(keys: seq<int>, order: seq<nat>, i: nat)
    requires i < |keys| && IsDescending(keys, order) && order != [] && keys[i] <= keys[order[|order| - 1]]
    requires forall a :: 0 <= a < |order| ==> order[a] < i
    ensures IsDescending(keys, order + [i])
  {
    forall a | 0 <= a < |order| ensures Ahead(keys, order[a], i) {
      assert a == |order| - 1 || Ahead(keys, order[a], order[|order| - 1]);
    }
  }

  /** The first `n` indices, largest key first, ties in index order. */
  function Descending(keys: seq<int>, n: nat): (order: seq<nat>)
    requires n <= |keys|
    ensures |order| == n && forall a :: 0 <= a < n ==> order[a] < n
  {
    if n == 0 then [] else InsertDescending(keys, Descending(keys, n - 1), n - 1)
  }

  lemma {:induction false} InsertDescendingCovers(keys: seq<int>, order: seq<nat>, i: nat, j: nat)
    requires i < |keys| && forall a :: 0 <= a < |order| ==> order[a] < |keys|
    requires j == i || j in order
    ensures j in InsertDescending(keys, order, i)
  {
    if order != [] && keys[order[|order| - 1]] < keys[i] && j != order[|order| - 1] {
      InsertDescendingCovers(keys, order[..|order| - 1], i, j);
    }
  }

  lemma {:induction false} DescendingCovers(keys: seq<int>, n: nat, j: nat)
    requires j < n <= |keys|
    ensures j in Descending(keys, n)
  {
    if j < n - 1 {
      DescendingCovers(keys, n - 1, j);
    }
    InsertDescendingCovers(keys, Descending(keys, n - 1), n - 1, j);
  }

  lemma {:induction false} DescendingSorts(keys: seq<int>, n: nat)
    requires n <= |keys|
    ensures IsDescending(keys, Descending(keys, n))
  {
    if n != 0 {
      DescendingSorts(keys, n - 1);
      InsertDescendingSorts(keys, Descending(keys, n - 1), n - 1);
    }
  }

  // --- allocate ---------------------------------------------------------------

  /** Every share is its truncated value or one paisa more, and the extra paise
      go to the largest fractions, the earlier index winning a tie. */
  ghost predicate LargestFirst(floors: seq<int>, fractions: seq<int>, shares: seq<int>) {
    && |shares| == |floors| == |fractions|
    && (forall i :: 0 <= i < |shares| ==> floors[i] <= shares[i] <= floors[i] + 1)
    && (forall i, j :: 0 <= i < |shares| && 0 <= j < |shares| && floors[i] < shares[i] && shares[j] == floors[j]
          ==> Ahead(fractions, i, j))
  }

  ghost predicate IsLargestRemainder(total: int, weights: seq<int>, shares: seq<int>)
    requires 0 < Sum(weights)
  {
    && LargestFirst(Floors(total, weights, Sum(weights)), Fractions(total, weights, Sum(weights)), shares)
    && Sum(shares) == total
  }

  /** What `allocate` returns for accepted weights, total of either sign. */
  ghost predicate IsAllocation(total: int, weights: seq<int>, shares: seq<int>)
    requires ValidWeights(weights)
  {
    if Sum(weights) == 0 then
      shares == seq(|weights|, i => if i == 0 then total else 0)
    else
      SumNonNegative(weights);
      if 0 <= total then IsLargestRemainder(total, weights, shares)
      else shares == Floors(total, weights, Sum(weights))
  }

  function WithPennies(floors: seq<int>, chosen: seq<nat>): (r: seq<int>)
    ensures |r| == |floors|
  {
    seq(|floors|, i requires 0 <= i < |floors| => floors[i] + if i in chosen then 1 else 0)
  }

  method Allocate(total: int, weights: seq<int>) returns (r: Result<seq<int>, MoneyError>)
    ensures r == Err(NoWeights) <==> weights == []
    ensures r == Err(NegativeWeight) <==> weights != [] && !ValidWeights(weights)
    ensures ValidWeights(weights) ==> r.Ok? && IsAllocation(total, weights, r.value)
  {
    if weights == [] {
      return Err(NoWeights);
    }
    if exists i :: 0 <= i < |weights| && weights[i] < 0 {
      return Err(NegativeWeight);
    }
    SumNonNegative(weights);
    var weightSum := Sum(weights);
    if weightSum == 0 {
      return Ok(seq(|weights|, i => if i == 0 then total else 0));
    }
    var floors := Floors(total, weights, weightSum);
    var shares := new int[|weights|](i requires 0 <= i < |weights| => floors[i]);
    assert shares[..] == floors;
    var pennies := total - Sum(shares[..]);
    PennyCount(total, weights);
    var fractional := Descending(Fractions(total, weights, weightSum), |weights|);
    DescendingSorts(Fractions(total, weights, weightSum), |weights|);
    SpreadPennies(shares, fractional, pennies);
    assert shares[..] == WithPennies(floors, fractional[..Max(pennies, 0)]);
    if 0 <= total {
      PenniesToLargest(total, weights, fractional, pennies);
    } else {
      assert shares[..] == floors;
    }
    r := Ok(shares[..]);
  }

  /** The penny loop: one extra paisa to each of the first `pennies` indices. */
  method SpreadPennies(shares: array<int>, fractional: seq<nat>, pennies: int)
    requires 0 < shares.Length == |fractional| && pennies <= shares.Length
    requires forall a :: 0 <= a < |fractional| ==> fractional[a] < shares.Length
    requires forall a, b :: 0 <= a < b < |fractional| ==> fractional[a] != fractional[b]
    modifies shares
    ensures shares[..] == WithPennies(old(shares[..]), fractional[..Max(pennies, 0)])
  {
    var k := 0;
    while k < pennies
      invariant 0 <= k <= Max(pennies, 0)
      invariant forall i :: 0 <= i < shares.Length ==>
                  shares[i] == old(shares[i]) + if i in fractional[..k] then 1 else 0
    {
      SmallModulo(k, shares.Length);
      var i := fractional[k % shares.Length];
      assert i !in fractional[..k];
      assert fractional[..k + 1] == fractional[..k] + [i];
      shares[i] := shares[i] + 1;
      k := k + 1;
    }
  }

  lemma {:induction false} SmallModulo(k: nat, n: nat)
    requires k < n
    ensures k % n == k
  {
  }

  lemma {:induction false} SumWithPennies(floors: seq<int>, chosen: seq<nat>)
    requires forall a :: 0 <= a < |chosen| ==> chosen[a] < |floors|
    requires forall a, b :: 0 <= a < b < |chosen| ==> chosen[a] != chosen[b]
    ensures Sum(WithPennies(floors, chosen)) == Sum(floors) + |chosen|
  {
    if chosen == [] {
      assert WithPennies(floors, chosen) == floors;
    } else {
      var front, last := chosen[..|chosen| - 1], chosen[|chosen| - 1];
      assert chosen == front + [last];
      SumWithPennies(floors, front);
      var before := WithPennies(floors, front);
      SumUpdate(before, last, before[last] + 1);
      assert WithPennies(floors, chosen) == before[last := before[last] + 1];
    }
  }

  lemma {:induction false} PenniesToLargest(total: nat, weights: seq<int>, order: seq<nat>, pennies: nat)
    requires ValidWeights(weights) && 0 < Sum(weights)
    requires order == Descending(Fractions(total, weights, Sum(weights)), |weights|)
    requires pennies == total - Sum(Floors(total, weights, Sum(weights))) <= |order|
    ensures IsLargestRemainder(total, weights,
                               WithPennies(Floors(total, weights, Sum(weights)), order[..pennies]))
  {
    var fractions := Fractions(total, weights, Sum(weights));
    var floors := Floors(total, weights, Sum(weights));
    DescendingSorts(fractions, |weights|);
    SumWithPennies(floors, order[..pennies]);
    forall i, j | 0 <= i < |weights| && 0 <= j < |weights| && i in order[..pennies] && j !in order[..pennies]
      ensures Ahead(fractions, i, j)
    {
      ChosenAhead(fractions, pennies, i, j);
    }
  }

  lemma {:induction false} ChosenAhead(keys: seq<int>, n: nat, i: nat, j: nat)
    requires n <= |keys| && i < |keys| && j < |keys|
    requires i in Descending(keys, |keys|)[..n] && j !in Descending(keys, |keys|)[..n]
    ensures Ahead(keys, i, j)
  {
    var order := Descending(keys, |keys|);
    DescendingSorts(keys, |keys|);
    DescendingCovers(keys, |keys|, j);
    var a :| 0 <= a < n && order[..n][a] == i;
    var b :| 0 <= b < |order| && order[b] == j;
    if n <= b {
      assert Ahead(keys, order[a], order[b]);
    }
  }

  lemma {:induction false} FractionBounds(total: int, weight: nat, weightSum: int)
    requires 0 < weightSum
    ensures 0 <= total ==> 0 <= Fraction(total, weight, weightSum) < weightSum
    ensures total <= 0 ==> -weightSum < Fraction(total, weight, weightSum) <= 0
  {
    if 0 <= total {
      assert 0 <= total * weight;
      DivBounds(total * weight, weightSum);
    } else {
      assert 0 <= -total * weight;
      DivBounds(-total * weight, weightSum);
      var q := -total * weight / weightSum;
      assert -q * weightSum == -(q * weightSum);
      assert -total * weight == -(total * weight);
    }
  }

  lemma {:induction false} FractionTotal(total: int, weights: seq<int>, weightSum: int)
    requires 0 < weightSum
    ensures Sum(Floors(total, weights, weightSum)) * weightSum
            + Sum(Fractions(total, weights, weightSum)) == total * Sum(weights)
  {
    if weights != [] {
      hide Truncated, Fraction;
      var front, last := weights[..|weights| - 1], weights[|weights| - 1];
      FractionTotal(total, front, weightSum);
      assert Floors(total, weights, weightSum)[..|front|] == Floors(total, front, weightSum);
      assert Fractions(total, weights, weightSum)[..|front|] == Fractions(total, front, weightSum);
      LastFraction(total, last, weightSum, Sum(Floors(total, front, weightSum)), Sum(front));
    }
  }

  /** One more line: what its truncation leaves is its fraction. */
  lemma {:induction false} LastFraction(total: int, last: int, weightSum: int, floors: int, weights: int)
    requires 0 < weightSum
    ensures (floors + Truncated(total, last, weightSum)) * weightSum + Fraction(total, last, weightSum)
         == floors * weightSum + total * (weights + last) - total * weights
  {
    var f := Truncated(total, last, weightSum);
    hide Truncated;
    assert (floors + f) * weightSum == floors * weightSum + f * weightSum;
    assert total * (weights + last) == total * weights + total * last;
  }

  /** Fewer pennies are left than there are lines, and none for a negative total. */
  lemma {:induction false} PennyCount(total: int, weights: seq<int>)
    requires ValidWeights(weights) && 0 < Sum(weights)
    ensures var pennies := total - Sum(Floors(total, weights, Sum(weights)));
            && (0 <= total ==> 0 <= pennies < |weights|)
            && (total <= 0 ==> pennies <= 0)
            && pennies * Sum(weights) == Sum(Fractions(total, weights, Sum(weights)))
  {
    var w := Sum(weights);
    var fractions := Fractions(total, weights, w);
    FractionTotal(total, weights, w);
    FractionsBounds(total, weights, w);
    SumBound(fractions, w);
    if 0 <= total {
      SumNonNegative(fractions);
    }
    PennyRange(total, Sum(Floors(total, weights, w)), w, |weights|, Sum(fractions));
  }

  ghost predicate Bounded(fractions: seq<int>, w: int) {
    forall i :: 0 <= i < |fractions| ==> 0 <= fractions[i] < w
  }

  ghost predicate NonPositive(fractions: seq<int>) {
    forall i :: 0 <= i < |fractions| ==> fractions[i] <= 0
  }

  lemma {:induction false} FractionsBounds(total: int, weights: seq<int>, weightSum: int)
    requires ValidWeights(weights) && 0 < weightSum
    ensures 0 <= total ==> Bounded(Fractions(total, weights, weightSum), weightSum)
    ensures total <= 0 ==> NonPositive(Fractions(total, weights, weightSum))
  {
    forall i | 0 <= i < |weights|
      ensures 0 <= total ==> 0 <= Fractions(total, weights, weightSum)[i] < weightSum
      ensures total <= 0 ==> Fractions(total, weights, weightSum)[i] <= 0
    {
      FractionBounds(total, weights[i], weightSum);
    }
  }

  lemma {:induction false} PennyRange(total: int, floorSum: int, w: int, n: nat, f: int)
    requires 0 < w && floorSum * w + f == total * w
    ensures (total - floorSum) * w == f
    ensures 0 <= f < n * w ==> 0 <= total - floorSum < n
    ensures f <= 0 ==> total <= floorSum
  {
    var pennies := total - floorSum;
    assert pennies * w == total * w - floorSum * w;
    if n <= pennies {
      Scale(n, pennies, w);
    }
    if pennies < 0 {
      Scale(pennies, -1, w);
    } else if 0 < pennies {
      Scale(1, pennies, w);
    }
  }

  lemma {:induction false} SumBound(s: seq<int>, w: int)
    requires 0 < w
    ensures (forall i :: 0 <= i < |s| ==> s[i] < w) && s != [] ==> Sum(s) < |s| * w
    ensures (forall i :: 0 <= i < |s| ==> s[i] <= 0) ==> Sum(s) <= 0
  {
    if |s| > 1 {
      SumBound(s[..|s| - 1], w);
      assert (|s| - 1) * w + w == |s| * w;
    }
  }

  // --- What the split promises ------------------------------------------------

  /** The shares add up to the total exactly when the total is not negative, or
      all weights are zero, or no share needs rounding. For a negative total the
      penny loop runs over an empty range, so truncated paise are lost. */
  lemma {:induction false} SumsToTotal(total: int, weights: seq<int>, shares: seq<int>)
    requires ValidWeights(weights) && IsAllocation(total, weights, shares)
    ensures Sum(shares) == total <==>
            || 0 <= total
            || Sum(weights) <= 0
            || forall i :: 0 <= i < |weights| ==> Fraction(total, weights[i], Sum(weights)) == 0
  {
    if Sum(weights) == 0 {
      SumUpdate(seq(|weights|, i => 0), 0, total);
      SumZeros(seq(|weights|, i => 0));
      assert shares == seq(|weights|, i => 0)[0 := total];
    } else {
      SumNonNegative(weights);
      if total < 0 {
        NegativeTotal(total, weights);
      }
    }
  }

  lemma {:induction false} NegativeTotal(total: int, weights: seq<int>)
    requires ValidWeights(weights) && 0 < Sum(weights) && total < 0
    ensures Sum(Floors(total, weights, Sum(weights))) == total <==>
            forall i :: 0 <= i < |weights| ==> Fraction(total, weights[i], Sum(weights)) == 0
  {
    var w := Sum(weights);
    var fractions := Fractions(total, weights, w);
    PennyCount(total, weights);
    FractionsBounds(total, weights, w);
    NonPositiveSum(fractions);
    Cancel(total - Sum(Floors(total, weights, w)), w);
    assert |fractions| == |weights|
        && forall i :: 0 <= i < |weights| ==> fractions[i] == Fraction(total, weights[i], w);
  }

  lemma {:induction false} Cancel(p: int, w: int)
    requires 0 < w
    ensures p * w == 0 <==> p == 0
  {
  }

  lemma {:induction false} NonPositiveSum(s: seq<int>)
    requires NonPositive(s)
    ensures Sum(s) == 0 <==> forall i :: 0 <= i < |s| ==> s[i] == 0
  {
    var zeros := seq(|s|, i => 0);
    SumZeros(zeros);
    SumAtMost(s, zeros);
    if forall i :: 0 <= i < |s| ==> s[i] == 0 {
      assert s == zeros;
    }
  }

  lemma {:induction false} SumZeros(s: seq<int>)
    requires forall i :: 0 <= i < |s| ==> s[i] == 0
    ensures Sum(s) == 0
  {
    if s != [] {
      SumZeros(s[..|s| - 1]);
    }
  }

  /** The smallest loss: minus one paisa over two equal weights comes back as
      nothing. */
  lemma {:induction false} NegativeTotalLeaks()
    ensures ValidWeights([1, 1]) && IsAllocation(-1, [1, 1], [0, 0]) && Sum([0, 0]) != -1
  {
    assert Sum([1, 1]) == 2 by { SumSnoc([1], 1); SumSnoc([], 1); assert [1, 1] == [1] + [1]; }
    SumZeros([0, 0]);
    assert Floors(-1, [1, 1], 2) == [0, 0];
  }

  /** A line whose exact share is whole gets no penny: there are fewer pennies
      than lines with a fraction. */
  lemma {:induction false} NoFractionNoPenny(floors: seq<int>, fractions: seq<int>, shares: seq<int>, w: int, i: nat)
    requires LargestFirst(floors, fractions, shares) && Bounded(fractions, w)
    requires Sum(fractions) == (Sum(shares) - Sum(floors)) * w
    requires i < |shares| && fractions[i] == 0
    ensures shares[i] == floors[i]
  {
    if floors[i] < shares[i] {
      var extra := seq(|shares|, j requires 0 <= j < |shares| => if floors[j] < shares[j] then w else 0);
      assert extra[i] == w;
      forall j | 0 <= j < |shares| ensures fractions[j] <= extra[j] {
        if shares[j] == floors[j] {
          assert Ahead(fractions, i, j);
        }
      }
      SumAtMost(fractions, extra);
      SumExtra(floors, shares, w, extra);
    }
  }

  lemma {:induction false} SumExtra(floors: seq<int>, shares: seq<int>, w: int, extra: seq<int>)
    requires |floors| == |shares| == |extra|
    requires forall j :: 0 <= j < |shares| ==>
               floors[j] <= shares[j] <= floors[j] + 1 && extra[j] == if floors[j] < shares[j] then w else 0
    ensures Sum(extra) == (Sum(shares) - Sum(floors)) * w
  {
    if shares != [] {
      var n := |shares| - 1;
      SumExtra(floors[..n], shares[..n], w, extra[..n]);
      var p := Sum(shares[..n]) - Sum(floors[..n]);
      assert (p + 1) * w == p * w + w;
    }
  }

  /** The facts about pennies that the properties below rest on. */
  lemma {:induction false} Pennies(total: nat, weights: seq<int>, shares: seq<int>)
    requires ValidWeights(weights) && 0 < Sum(weights) && IsLargestRemainder(total, weights, shares)
    ensures Bounded(Fractions(total, weights, Sum(weights)), Sum(weights))
    ensures Sum(Fractions(total, weights, Sum(weights)))
         == (Sum(shares) - Sum(Floors(total, weights, Sum(weights)))) * Sum(weights)
  {
    FractionsBounds(total, weights, Sum(weights));
    PennyCount(total, weights);
  }

  lemma {:induction false} Line(total: nat, weights: seq<int>, shares: seq<int>, i: nat)
    requires ValidWeights(weights) && 0 < Sum(weights) && IsLargestRemainder(total, weights, shares)
    requires i < |weights|
    ensures var f, r := Truncated(total, weights[i], Sum(weights)), Fraction(total, weights[i], Sum(weights));
            && |shares| == |weights|
            && 0 <= r < Sum(weights)
            && f <= shares[i] <= f + 1
            && (r == 0 ==> shares[i] == f)
  {
    var w := Sum(weights);
    var floors, fractions := Floors(total, weights, w), Fractions(total, weights, w);
    Pennies(total, weights, shares);
    assert floors[i] == Truncated(total, weights[i], w) && fractions[i] == Fraction(total, weights[i], w);
    if fractions[i] == 0 {
      NoFractionNoPenny(floors, fractions, shares, w, i);
    }
  }

  /** Each share is within one paisa of the exact proportion, never negative,
      and a line of no weight gets nothing. */
  lemma {:induction false} WithinOnePaisa(total: nat, weights: seq<int>, shares: seq<int>, i: nat)
    requires ValidWeights(weights) && 0 < Sum(weights) && i < |weights|
    requires IsLargestRemainder(total, weights, shares)
    ensures |shares| == |weights|
    ensures -Sum(weights) < shares[i] * Sum(weights) - total * weights[i] < Sum(weights)
    ensures 0 <= shares[i]
    ensures weights[i] == 0 ==> shares[i] == 0
  {
    Line(total, weights, shares, i);
    ShareError(total, weights[i], Sum(weights), shares[i]);
  }

  lemma {:induction false} ShareError(total: nat, weight: nat, w: int, share: int)
    requires 0 < w
    requires var f, r := Truncated(total, weight, w), Fraction(total, weight, w);
             0 <= r < w && f <= share <= f + 1 && (r == 0 ==> share == f)
    ensures -w < share * w - total * weight < w
    ensures 0 <= share && (weight == 0 ==> share == 0)
  {
    var f := Truncated(total, weight, w);
    assert (f + 1) * w == f * w + w;
    assert 0 <= total * weight;
    if f < 0 {
      Scale(f, -1, w);
    }
  }

  /** A heavier line, or an equal one listed earlier, never gets less. */
  lemma {:induction false} HeavierNeverGetsLess(total: nat, weights: seq<int>, shares: seq<int>, i: nat, j: nat)
    requires ValidWeights(weights) && 0 < Sum(weights) && i < |weights| && j < |weights|
    requires IsLargestRemainder(total, weights, shares)
    requires weights[j] < weights[i] || (weights[i] == weights[j] && i < j)
    ensures |shares| == |weights| && shares[j] <= shares[i]
  {
    var w := Sum(weights);
    var floors, fractions := Floors(total, weights, w), Fractions(total, weights, w);
    Line(total, weights, shares, i);
    Line(total, weights, shares, j);
    FloorMonotone(total, weights[j], weights[i], w);
    assert floors[j] < shares[j] && shares[i] == floors[i] ==> Ahead(fractions, j, i);
  }

  lemma {:induction false} FloorMonotone(total: nat, lighter: nat, heavier: nat, w: int)
    requires lighter <= heavier && 0 < w
    ensures var f, g := Truncated(total, lighter, w), Truncated(total, heavier, w);
            && f <= g
            && (f == g ==>
                  var r, s := Fraction(total, lighter, w), Fraction(total, heavier, w);
                  r <= s && (lighter < heavier ==> r < s || (r == 0 && s == 0)))
  {
    Scale(lighter, heavier, total);
    var f, g := Truncated(total, lighter, w), Truncated(total, heavier, w);
    FractionBounds(total, lighter, w);
    FractionBounds(total, heavier, w);
    if g < f {
      Separate(g, f, w);
    }
    if lighter < heavier {
      Separate(lighter, heavier, total);
    }
  }

  // --- Optimality ---------------------------------------------------------------

  function Square(x: int): int { x * x }

  /** Squared distances from the exact shares, in units of (1 / w) paisa. */
  ghost function SquaredErrors(total: int, weights: seq<int>, w: int, split: seq<int>): (r: seq<int>)
    requires |split| == |weights|
    ensures |r| == |weights|
  {
    seq(|weights|, i requires 0 <= i < |weights| => Square(w * split[i] - total * weights[i]))
  }

  /** No other split of the total into whole paise is closer to the exact
      proportions. */
  lemma {:induction false} LeastSquares(total: nat, weights: seq<int>, shares: seq<int>, other: seq<int>)
    requires ValidWeights(weights) && 0 < Sum(weights)
    requires IsLargestRemainder(total, weights, shares)
    requires |other| == |weights| && Sum(other) == total
    ensures |shares| == |weights|
    ensures Sum(SquaredErrors(total, weights, Sum(weights), shares))
         <= Sum(SquaredErrors(total, weights, Sum(weights), other))
  {
    var w := Sum(weights);
    var floors, fractions := Floors(total, weights, w), Fractions(total, weights, w);
    Pennies(total, weights, shares);
    var theta := LargestUnpaid(floors, fractions, shares, |shares|);
    ThresholdSeparates(floors, fractions, shares, w, theta);
    var lambda := EveryMoveCosts(total, weights, w, theta, shares, other);
    SumExchange(SquaredErrors(total, weights, w, shares), SquaredErrors(total, weights, w, other),
                shares, other, lambda);
  }

  /** One price `lambda` per paisa bounds the cost of moving any line. */
  lemma {:induction false} EveryMoveCosts(total: int, weights: seq<int>, w: int, theta: int, shares: seq<int>,
                                          other: seq<int>)
    returns (lambda: int)
    requires 0 < w && 0 <= theta < w && |other| == |weights|
    requires Bounded(Fractions(total, weights, w), w)
    requires Threshold(Floors(total, weights, w), Fractions(total, weights, w), shares, theta)
    ensures Dearer(SquaredErrors(total, weights, w, shares), SquaredErrors(total, weights, w, other),
                   shares, other, lambda)
  {
    lambda := w * w - 2 * w * theta;
    var floors, fractions := Floors(total, weights, w), Fractions(total, weights, w);
    forall i | 0 <= i < |weights|
      ensures Square(w * other[i] - total * weights[i]) - Square(w * shares[i] - total * weights[i])
           >= (w * w - 2 * w * theta) * (other[i] - shares[i])
    {
      MoveOneLine(total, weights[i], w, theta, floors[i], fractions[i], shares[i], other[i]);
    }
  }

  ghost predicate Dearer(mine: seq<int>, theirs: seq<int>, s: seq<int>, o: seq<int>, lambda: int) {
    && |mine| == |theirs| == |s| == |o|
    && forall i :: 0 <= i < |s| ==> theirs[i] - mine[i] >= lambda * (o[i] - s[i])
  }

  lemma {:induction false} SumExchange(mine: seq<int>, theirs: seq<int>, s: seq<int>, o: seq<int>, lambda: int)
    requires Dearer(mine, theirs, s, o, lambda)
    ensures Sum(theirs) - Sum(mine) >= lambda * (Sum(o) - Sum(s))
    ensures Sum(o) == Sum(s) ==> Sum(mine) <= Sum(theirs)
  {
    if s != [] {
      var n := |s| - 1;
      SumExchange(mine[..n], theirs[..n], s[..n], o[..n], lambda);
      assert lambda * (Sum(o[..n]) - Sum(s[..n]) + (o[n] - s[n]))
          == lambda * (Sum(o[..n]) - Sum(s[..n])) + lambda * (o[n] - s[n]);
      assert lambda * 0 == 0;
    }
  }

  /** The largest fraction among the first `n` lines that got no penny. */
  ghost function LargestUnpaid(floors: seq<int>, fractions: seq<int>, shares: seq<int>, n: nat): (theta: int)
    requires n <= |shares| == |fractions| == |floors|
    ensures forall j :: 0 <= j < n && shares[j] == floors[j] ==> fractions[j] <= theta
    ensures theta == 0 || exists j :: 0 <= j < n && shares[j] == floors[j] && fractions[j] == theta
    ensures 0 <= theta
  {
    if n == 0 then 0
    else
      var rest := LargestUnpaid(floors, fractions, shares, n - 1);
      if shares[n - 1] == floors[n - 1] then Max(rest, fractions[n - 1]) else rest
  }

  /** `theta` lies between the fractions that got a penny and those that did not. */
  ghost predicate Threshold(floors: seq<int>, fractions: seq<int>, shares: seq<int>, theta: int) {
    && |shares| == |floors| == |fractions|
    && forall i :: 0 <= i < |shares| ==>
         || (shares[i] == floors[i] && fractions[i] <= theta)
         || (shares[i] == floors[i] + 1 && theta <= fractions[i])
  }

  lemma {:induction false} ThresholdSeparates(floors: seq<int>, fractions: seq<int>, shares: seq<int>, w: int,
                                              theta: int)
    requires LargestFirst(floors, fractions, shares) && Bounded(fractions, w) && 0 < w
    requires theta == LargestUnpaid(floors, fractions, shares, |shares|)
    ensures 0 <= theta < w
    ensures Threshold(floors, fractions, shares, theta)
  {
    forall i | 0 <= i < |shares| && floors[i] < shares[i] ensures theta <= fractions[i] {
      if theta != 0 {
        var j :| 0 <= j < |shares| && shares[j] == floors[j] && fractions[j] == theta;
        assert Ahead(fractions, i, j);
      }
    }
  }

  /** Moving one line from its share to any `x` costs at least `lambda` a paisa. */
  lemma {:induction false} MoveOneLine(total: int, weight: int, w: int, theta: int, f: int, r: int, share: int, x: int)
    requires 0 < w && 0 <= theta < w && 0 <= r < w
    requires f == Truncated(total, weight, w) && r == Fraction(total, weight, w)
    requires (share == f && r <= theta) || (share == f + 1 && theta <= r)
    ensures Square(w * x - total * weight) - Square(w * share - total * weight)
         >= (w * w - 2 * w * theta) * (x - share)
  {
    var exact := total * weight;
    assert exact == f * w + r;
    hide *;
    Rebase(w, f, r, exact, share);
    Rebase(w, f, r, exact, x);
    MovePennies(w, theta, r, share - f, x - share);
    Distribute(w, x, share);
    Distribute(w, share, f);
    Distribute(w, x, f);
    assert w * x - exact == w * (x - share) + (w * (share - f) - r);
  }

  lemma {:induction false} Rebase(w: int, f: int, r: int, exact: int, share: int)
    requires exact == f * w + r
    ensures w * share - exact == w * (share - f) - r
  {
  }

  lemma {:induction false} MovePennies(w: int, theta: int, r: int, b: int, d: int)
    requires 0 < w && 0 <= theta < w && 0 <= r < w
    requires (b == 0 && r <= theta) || (b == 1 && theta <= r)
    ensures Square(w * d + (w * b - r)) - Square(w * b - r) >= (w * w - 2 * w * theta) * d
  {
    var a, e := w * d, w * b - r;
    SquareStep(a, e);
    Lambda(w, theta, d);
    if 1 <= d { Scale(1, d, w); } else if d <= -1 { Scale(d, -1, w); }
    SignsAgree(a, a + 2 * e - w + 2 * theta);
    Distribute(a, a + 2 * e, w - 2 * theta);
  }

  lemma {:induction false} Lambda(w: int, theta: int, d: int)
    ensures (w * w - 2 * w * theta) * d == (w * d) * (w - 2 * theta)
  {
    assert w * w - 2 * w * theta == w * (w - 2 * theta);
  }

  lemma {:induction false} Distribute(a: int, b: int, c: int)
    ensures a * (b - c) == a * b - a * c
  {
  }

  lemma {:induction false} SquareStep(a: int, e: int)
    ensures Square(a + e) - Square(e) == a * (a + 2 * e)
  {
  }

  lemma {:induction false} SignsAgree(a: int, b: int)
    requires a == 0 || (0 < a && 0 <= b) || (a < 0 && b <= 0)
    ensures 0 <= a * b
  {
  }
}
