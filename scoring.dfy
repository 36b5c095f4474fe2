/**
 * Weight derivation from pairwise comparisons and the weighted-average item
 * score (src/lib/scoring.ts). Numbers are modelled as exact reals.
 */
module Scoring {
  import opened Wrappers
  import opened Types

  /** The amount one comparison moves from the losing criterion to the preferred one. */
  const Step: real := 0.1
  /** The least weight a criterion keeps before normalisation. */
  const Floor: real := 0.1

  function Max(a: real, b: real): real
  {
    if a >= b then a else b
  }

  lemma DivMono(a: real, b: real, t: real)
    requires t > 0.0 && a >= b
    ensures a / t >= b / t
  {
    assert a / t - b / t == (a - b) / t;
  }

  lemma DivAdd(a: real, b: real, t: real)
    requires t != 0.0
    ensures a / t + b / t == (a + b) / t
  {
  }

  lemma DivStrict(a: real, b: real, t: real)
    requires t > 0.0 && a > b
    ensures a / t > b / t
  {
    assert a / t - b / t == (a - b) / t;
  }

  /** The induction step of the score bounds: adding one criterion keeps the totals within 20 and 100 times the weight. */
  lemma BoundsStep(tw: real, ts: real, w: real, p: real)
    requires 20.0 * tw <= ts <= 100.0 * tw
    requires 20.0 <= p <= 100.0 && w >= 0.0
    ensures 20.0 * (tw + w) <= ts + p * w <= 100.0 * (tw + w)
  {
    MulMono(20.0, p, w);
    MulMono(p, 100.0, w);
  }

  /** The induction step of weight scaling: both totals scale with the added criterion. */
  lemma ScaleStep(tw: real, ts: real, w: real, p: real, f: real)
    ensures tw * f + w * f == (tw + w) * f
    ensures ts * f + p * (w * f) == (ts + p * w) * f
  {
  }

  lemma ScaledStep(a: real, b: real, x: real, y: real, p: real, w: real, v: real, f: real)
    requires a == b * f && v == w * f
    requires x == b + p * w && y == a + p * v
    ensures y == x * f
  {
    ScaleStep(0.0, b, w, p, f);
  }

  lemma MeanOfConstant(s: real, w: real, p: real, v: real)
    requires w > 0.0 && s == p * w && p == v / 5.0 * 100.0
    ensures s / w == v * 20.0
  {
  }

  lemma DivSelf(t: real)
    requires t != 0.0
    ensures t / t == 1.0
  {
  }

  lemma MulMono(a: real, b: real, w: real)
    requires a <= b && w >= 0.0
    ensures a * w <= b * w
  {
    assert b * w - a * w == (b - a) * w;
  }

  lemma DivBetween(s: real, w: real, lo: real, hi: real)
    requires w > 0.0 && lo * w <= s <= hi * w
    ensures lo <= s / w <= hi
  {
    var q := s / w;
    assert q * w == s;
    assert (q - lo) * w >= 0.0;
    assert (hi - q) * w >= 0.0;
  }

  lemma DivCancel(s: real, w: real, f: real)
    requires w != 0.0 && f != 0.0
    ensures (s * f) / (w * f) == s / w
  {
    var q := s / w;
    assert q * w == s;
    assert q * (w * f) == s * f;
  }

  // ---------------------------------------------------------------------
  // Weight derivation: the local `weights` record and the keys it was
  // given, in first-insertion order. `Object.keys` and `Object.values` list
  // integer-like keys first; the order does not matter here, because the
  // total is a sum of exact reals and each key is divided independently.
  // ---------------------------------------------------------------------

  predicate Distinct(keys: seq<string>)
  {
    forall i, j :: 0 <= i < j < |keys| ==> keys[i] != keys[j]
  }

  /** The distinct criterion ids of `cs`, in order of first occurrence. */
  function Ids(cs: seq<Criterion>): (ids: seq<string>)
    ensures Distinct(ids)
    ensures forall x :: x in ids <==> x in IdSet(cs)
  {
    if cs == [] then []
    else
      var prefix := Ids(cs[..|cs| - 1]);
      var id := cs[|cs| - 1].id;
      assert forall x :: x in IdSet(cs) <==> x in IdSet(cs[..|cs| - 1]) || x == id by {
        assert cs == cs[..|cs| - 1] + [cs[|cs| - 1]];
      }
      if id in prefix then prefix else prefix + [id]
  }

  /** The record after `criteria.forEach(c => weights[c.id] = 1)`. */
  function InitWeights(cs: seq<Criterion>): (w: map<string, real>)
    ensures w.Keys == IdSet(cs)
    ensures forall k :: k in w ==> w[k] == 1.0
  {
    if cs == [] then map[]
    else
      assert cs == cs[..|cs| - 1] + [cs[|cs| - 1]];
      InitWeights(cs[..|cs| - 1])[cs[|cs| - 1].id := 1.0]
  }

  /** Every comparison that moves weight names two keys of `w`. */
  predicate KnownIds(w: map<string, real>, comps: seq<CriterionComparison>)
  {
    forall i :: 0 <= i < |comps| && comps[i].preference != Equal ==>
      comps[i].criterionAId in w && comps[i].criterionBId in w
  }

  /** One comparison: the preferred side gains `Step`, the other loses it; `Equal` changes nothing. */
  function Adjust(w: map<string, real>, comp: CriterionComparison): (r: map<string, real>)
    requires comp.preference != Equal ==> comp.criterionAId in w && comp.criterionBId in w
    ensures r.Keys == w.Keys
  {
    var a, b := comp.criterionAId, comp.criterionBId;
    match comp.preference
    case A => var w1 := w[a := w[a] + Step]; w1[b := w1[b] - Step]
    case B => var w1 := w[b := w[b] + Step]; w1[a := w1[a] - Step]
    case Equal => w
  }

  /** The comparisons applied in input order. */
  function AdjustAll(w: map<string, real>, comps: seq<CriterionComparison>): (r: map<string, real>)
    requires KnownIds(w, comps)
    ensures r.Keys == w.Keys
  {
    if comps == [] then w
    else
      var prev := AdjustAll(w, comps[..|comps| - 1]);
      Adjust(prev, comps[|comps| - 1])
  }

  /** Every weight raised to at least `Floor` (`Math.max(0.1, w)`). */
  function Clamp(w: map<string, real>): (r: map<string, real>)
    ensures r.Keys == w.Keys
    ensures forall k :: k in r ==> r[k] >= Floor && r[k] >= w[k]
  {
    map k | k in w :: Max(Floor, w[k])
  }

  /** The sum of `w` over `keys`, added left to right. */
  function SumOver(keys: seq<string>, w: map<string, real>): real
    requires forall k :: k in keys ==> k in w
  {
    if keys == [] then 0.0 else SumOver(keys[..|keys| - 1], w) + w[keys[|keys| - 1]]
  }

  lemma {:induction false} SumAtLeastFloor(keys: seq<string>, w: map<string, real>)
    requires forall k :: k in keys ==> k in w && w[k] >= Floor
    ensures SumOver(keys, w) >= 0.0
    ensures keys != [] ==> SumOver(keys, w) >= Floor
  {
    if keys != [] {
      SumAtLeastFloor(keys[..|keys| - 1], w);
    }
  }

  /** The clamped weights divided by their total over `keys`: the normalised record. */
  function Normalize(w: map<string, real>, keys: seq<string>): (r: map<string, real>)
    requires forall k :: k in keys <==> k in w
    ensures r.Keys == w.Keys
    ensures w != map[] ==> SumOver(keys, Clamp(w)) >= Floor
    ensures forall k :: k in r ==> r[k] == Clamp(w)[k] / SumOver(keys, Clamp(w))
  {
    var c := Clamp(w);
    var total := SumOver(keys, c);
    SumAtLeastFloor(keys, c);
    assert w != map[] ==> |keys| >= 1 by {
      if w != map[] {
        var k :| k in w;
        assert k in keys;
      }
    }
    map k | k in w :: c[k] / total
  }

  /** `calculateWeightsFromComparisons(criteria, comparisons)` as a function. */
  function DeriveWeights(criteria: seq<Criterion>, comps: seq<CriterionComparison>): map<string, real>
    requires KnownIds(InitWeights(criteria), comps)
  {
    Normalize(AdjustAll(InitWeights(criteria), comps), Ids(criteria))
  }

  /** The total the normalisation divides by: the sum of the clamped adjusted weights. */
  function ClampedTotal(criteria: seq<Criterion>, comps: seq<CriterionComparison>): real
    requires KnownIds(InitWeights(criteria), comps)
  {
    SumOver(Ids(criteria), Clamp(AdjustAll(InitWeights(criteria), comps)))
  }

  /**
   * `calculateWeightsFromComparisons`: start every criterion at 1, let each
   * comparison move `Step` towards the preferred criterion, clamp at `Floor`
   * and divide by the clamped total.
   */
  method CalculateWeightsFromComparisons(criteria: seq<Criterion>, comparisons: seq<CriterionComparison>)
    returns (weights: map<string, real>)
    requires KnownIds(InitWeights(criteria), comparisons)
    ensures weights.Keys == IdSet(criteria)
    ensures weights == DeriveWeights(criteria, comparisons)
  {
    var keys;
    weights, keys := StartWeights(criteria);
    weights := ApplyComparisons(weights, comparisons);
    var total := ClampedSum(weights, keys);
    weights := DivideByTotal(weights, keys, total);
  }

  /** `criteria.forEach(c => weights[c.id] = 1)`, remembering the keys in insertion order. */
  method StartWeights(criteria: seq<Criterion>) returns (weights: map<string, real>, keys: seq<string>)
    ensures weights == InitWeights(criteria)
    ensures keys == Ids(criteria)
  {
    weights := map[];
    keys := [];
    for i := 0 to |criteria|
      invariant weights == InitWeights(criteria[..i])
      invariant keys == Ids(criteria[..i])
    {
      assert criteria[..i + 1][..i] == criteria[..i];
      var id := criteria[i].id;
      assert id in weights <==> id in keys;
      assert Ids(criteria[..i + 1]) == if id in keys then keys else keys + [id];
      if id !in weights {
        keys := keys + [id];
      }
      weights := weights[id := 1.0];
    }
    assert criteria[..|criteria|] == criteria;
  }

  /** `comparisons.forEach(...)`: each comparison in input order moves `Step` to its preferred side. */
  method ApplyComparisons(w: map<string, real>, comparisons: seq<CriterionComparison>)
    returns (weights: map<string, real>)
    requires KnownIds(w, comparisons)
    ensures weights == AdjustAll(w, comparisons)
  {
    weights := w;
    for j := 0 to |comparisons|
      invariant weights == AdjustAll(w, comparisons[..j])
    {
      assert comparisons[..j + 1][..j] == comparisons[..j];
      var comp := comparisons[j];
      if comp.preference == A {
        weights := weights[comp.criterionAId := weights[comp.criterionAId] + Step];
        weights := weights[comp.criterionBId := weights[comp.criterionBId] - Step];
      } else if comp.preference == B {
        weights := weights[comp.criterionBId := weights[comp.criterionBId] + Step];
        weights := weights[comp.criterionAId := weights[comp.criterionAId] - Step];
      }
    }
    assert comparisons[..|comparisons|] == comparisons;
  }

  /** `Object.values(weights).reduce((sum, w) => sum + Math.max(0.1, w), 0)`. */
  method ClampedSum(weights: map<string, real>, keys: seq<string>) returns (total: real)
    requires forall k :: k in keys <==> k in weights
    ensures total == SumOver(keys, Clamp(weights))
    ensures keys != [] ==> total >= Floor
  {
    total := 0.0;
    for k := 0 to |keys|
      invariant total == SumOver(keys[..k], Clamp(weights))
    {
      assert keys[..k + 1][..k] == keys[..k];
      total := total + Max(Floor, weights[keys[k]]);
    }
    assert keys[..|keys|] == keys;
    SumAtLeastFloor(keys, Clamp(weights));
  }

  /** `Object.keys(weights).forEach(id => weights[id] = Math.max(0.1, weights[id]) / total)`. */
  method DivideByTotal(w: map<string, real>, keys: seq<string>, total: real) returns (weights: map<string, real>)
    requires Distinct(keys) && forall k :: k in keys <==> k in w
    requires total == SumOver(keys, Clamp(w))
    ensures weights == Normalize(w, keys)
  {
    weights := w;
    ghost var target := Normalize(w, keys);
    for k := 0 to |keys|
      invariant weights.Keys == w.Keys
      invariant forall m :: 0 <= m < k ==> weights[keys[m]] == target[keys[m]]
      invariant forall m :: k <= m < |keys| ==> weights[keys[m]] == w[keys[m]]
    {
      var id := keys[k];
      assert target[id] == Max(Floor, w[id]) / total;
      weights := weights[id := Max(Floor, weights[id]) / total];
    }
    forall x | x in w ensures weights[x] == target[x] {
      var m :| 0 <= m < |keys| && keys[m] == x;
    }
  }

  // ---------------------------------------------------------------------
  // Properties of the derived weights.
  // ---------------------------------------------------------------------

  /** Overwriting one key that occurs once in `keys` changes the sum by the difference. */
  lemma {:induction false} SumUpdate(keys: seq<string>, w: map<string, real>, k: string, v: real)
    requires Distinct(keys) && k in keys
    requires forall x :: x in keys ==> x in w
    ensures SumOver(keys, w[k := v]) == SumOver(keys, w) - w[k] + v
  {
    var n := |keys|;
    var init := keys[..n - 1];
    assert forall x :: x in init ==> x in keys;
    if keys[n - 1] == k {
      assert k !in init;
      SumUnchanged(init, w, k, v);
    } else {
      assert k in init;
      SumUpdate(init, w, k, v);
    }
  }

  /** Overwriting a key outside `keys` leaves the sum alone. */
  lemma {:induction false} SumUnchanged(keys: seq<string>, w: map<string, real>, k: string, v: real)
    requires k !in keys
    requires forall x :: x in keys ==> x in w
    ensures SumOver(keys, w[k := v]) == SumOver(keys, w)
  {
    if keys != [] {
      SumUnchanged(keys[..|keys| - 1], w, k, v);
    }
  }

  /** A comparison moves weight between two entries and so keeps the sum over all keys. */
  lemma AdjustKeepsSum(keys: seq<string>, w: map<string, real>, comp: CriterionComparison)
    requires Distinct(keys) && forall k :: k in keys <==> k in w
    requires comp.preference != Equal ==> comp.criterionAId in w && comp.criterionBId in w
    ensures SumOver(keys, Adjust(w, comp)) == SumOver(keys, w)
  {
    var a, b := comp.criterionAId, comp.criterionBId;
    match comp.preference
    case A =>
      var w1 := w[a := w[a] + Step];
      SumUpdate(keys, w, a, w[a] + Step);
      SumUpdate(keys, w1, b, w1[b] - Step);
    case B =>
      var w1 := w[b := w[b] + Step];
      SumUpdate(keys, w, b, w[b] + Step);
      SumUpdate(keys, w1, a, w1[a] - Step);
    case Equal =>
  }

  lemma {:induction false} AdjustAllKeepsSum(keys: seq<string>, w: map<string, real>, comps: seq<CriterionComparison>)
    requires Distinct(keys) && forall k :: k in keys <==> k in w
    requires KnownIds(w, comps)
    ensures SumOver(keys, AdjustAll(w, comps)) == SumOver(keys, w)
  {
    if comps != [] {
      var init := comps[..|comps| - 1];
      assert KnownIds(w, init) by {
        forall i | 0 <= i < |init| ensures init[i] == comps[i] { }
      }
      AdjustAllKeepsSum(keys, w, init);
      AdjustKeepsSum(keys, AdjustAll(w, init), comps[|comps| - 1]);
    }
  }

  lemma {:induction false} SumOfOnes(keys: seq<string>, w: map<string, real>)
    requires forall k :: k in keys ==> k in w && w[k] == 1.0
    ensures SumOver(keys, w) == |keys| as real
  {
    if keys != [] {
      SumOfOnes(keys[..|keys| - 1], w);
    }
  }

  /**
   * Before clamping, the running weights always sum to the number of
   * distinct criteria: comparisons only move weight around.
   */
  lemma AdjustedWeightsSumToCount(criteria: seq<Criterion>, comps: seq<CriterionComparison>)
    requires KnownIds(InitWeights(criteria), comps)
    ensures SumOver(Ids(criteria), AdjustAll(InitWeights(criteria), comps)) == |Ids(criteria)| as real
  {
    SumOfOnes(Ids(criteria), InitWeights(criteria));
    AdjustAllKeepsSum(Ids(criteria), InitWeights(criteria), comps);
  }

  /** Dividing every term by `t` divides the sum by `t`. */
  lemma {:induction false} SumScaled(keys: seq<string>, w: map<string, real>, v: map<string, real>, t: real)
    requires t != 0.0
    requires forall k :: k in keys ==> k in w && k in v && v[k] == w[k] / t
    ensures SumOver(keys, v) == SumOver(keys, w) / t
  {
    if keys != [] {
      var init, last := keys[..|keys| - 1], keys[|keys| - 1];
      SumScaled(init, w, v, t);
      DivAdd(SumOver(init, w), w[last], t);
    }
  }

  /** Terms divided by their own positive total sum to 1. */
  lemma SharesSumToOne(keys: seq<string>, c: map<string, real>, r: map<string, real>, total: real)
    requires forall k :: k in keys <==> k in c
    requires r.Keys == c.Keys
    requires total == SumOver(keys, c) && total > 0.0
    requires forall k :: k in r ==> r[k] == c[k] / total
    ensures SumOver(keys, r) == 1.0
  {
    SumScaled(keys, c, r, total);
    DivSelf(total);
  }

  /** With at least one criterion the clamped total is positive: it is at least `Floor`. */
  lemma ClampedTotalPositive(criteria: seq<Criterion>, comps: seq<CriterionComparison>)
    requires KnownIds(InitWeights(criteria), comps)
    ensures criteria != [] ==> ClampedTotal(criteria, comps) >= Floor
    ensures criteria == [] ==> DeriveWeights(criteria, comps) == map[]
  {
    var ids := Ids(criteria);
    SumAtLeastFloor(ids, Clamp(AdjustAll(InitWeights(criteria), comps)));
    if criteria != [] {
      assert criteria[0].id in IdSet(criteria);
      assert |ids| >= 1;
    }
  }

  /**
   * The derived weights have exactly the criterion ids as keys and, when
   * there is a criterion, sum to 1.
   */
  lemma DerivedWeightsSumToOne(criteria: seq<Criterion>, comps: seq<CriterionComparison>)
    requires KnownIds(InitWeights(criteria), comps)
    ensures DeriveWeights(criteria, comps).Keys == IdSet(criteria)
    ensures criteria != [] ==> SumOver(Ids(criteria), DeriveWeights(criteria, comps)) == 1.0
  {
    if criteria != [] {
      var ids := Ids(criteria);
      var adj := AdjustAll(InitWeights(criteria), comps);
      ClampedTotalPositive(criteria, comps);
      var c := Clamp(adj);
      var r := Normalize(adj, ids);
      var total := SumOver(ids, c);
      assert A1: forall k :: k in ids <==> k in c;
      assert A2: r.Keys == c.Keys;
      assert A3: total > 0.0;
      assert A4: forall k :: k in r ==> r[k] == c[k] / total;
      SharesSumToOne(ids, c, r, total);
    }
  }

  /**
   * Every derived weight is at least `Floor` over the clamped total, so no
   * criterion reaches zero or negative influence.
   */
  lemma DerivedWeightsFloor(criteria: seq<Criterion>, comps: seq<CriterionComparison>)
    requires KnownIds(InitWeights(criteria), comps)
    ensures criteria != [] ==> forall k :: k in DeriveWeights(criteria, comps) ==>
              DeriveWeights(criteria, comps)[k] >= Floor / ClampedTotal(criteria, comps) > 0.0
  {
    var r := DeriveWeights(criteria, comps);
    var c := Clamp(AdjustAll(InitWeights(criteria), comps));
    var total := ClampedTotal(criteria, comps);
    if criteria != [] {
      ClampedTotalPositive(criteria, comps);
      forall k | k in r ensures r[k] >= Floor / total > 0.0 {
        DivMono(c[k], Floor, total);
      }
    } else {
      ClampedTotalPositive(criteria, comps);
    }
  }

  /** Distinct criterion ids are all kept: there are as many keys as criteria. */
  lemma {:induction false} IdsOfDistinct(cs: seq<Criterion>)
    requires DistinctIds(cs)
    ensures |Ids(cs)| == |cs|
  {
    if cs != [] {
      var init := cs[..|cs| - 1];
      assert DistinctIds(init);
      IdsOfDistinct(init);
      assert cs[|cs| - 1].id !in IdSet(init);
    }
  }

  /** With no comparisons every criterion gets the same weight, 1 over the number of distinct ids. */
  lemma NoComparisonsUniform(criteria: seq<Criterion>)
    ensures forall k :: k in DeriveWeights(criteria, []) ==>
              DeriveWeights(criteria, [])[k] == 1.0 / |Ids(criteria)| as real
    ensures DistinctIds(criteria) ==>
              forall k :: k in DeriveWeights(criteria, []) ==> DeriveWeights(criteria, [])[k] == 1.0 / |criteria| as real
  {
    var ids := Ids(criteria);
    var w := InitWeights(criteria);
    assert AdjustAll(w, []) == w;
    var c := Clamp(w);
    assert forall k :: k in c ==> c[k] == 1.0;
    SumOfOnes(ids, c);
    if DistinctIds(criteria) {
      IdsOfDistinct(criteria);
    }
  }

  /** One comparison preferring `a` over a different criterion `b` leaves `a` weighing more than `b`. */
  lemma SinglePreference(criteria: seq<Criterion>, a: string, b: string)
    requires a in IdSet(criteria) && b in IdSet(criteria) && a != b
    ensures KnownIds(InitWeights(criteria), [CriterionComparison(a, b, A)])
    ensures DeriveWeights(criteria, [CriterionComparison(a, b, A)])[a] >
            DeriveWeights(criteria, [CriterionComparison(a, b, A)])[b]
  {
    var comps := [CriterionComparison(a, b, A)];
    var w := InitWeights(criteria);
    assert comps[..0] == [];
    assert AdjustAll(w, comps) == Adjust(w, comps[0]);
    var adj := AdjustAll(w, comps);
    assert adj[a] == 1.1 && adj[b] == 0.9;
    var c := Clamp(adj);
    assert c[a] == 1.1 && c[b] == 0.9;
    var ids := Ids(criteria);
    assert a in ids;
    SumAtLeastFloor(ids, c);
    var total := SumOver(ids, c);
    DivStrict(c[a], c[b], total);
  }

  // ---------------------------------------------------------------------
  // Item scoring.
  // ---------------------------------------------------------------------

  /**
   * The 1-5 score `c` gives `item`: the table's score for the item's spec
   * value when that value is a non-empty string with an entry, otherwise
   * the criterion's default.
   */
  function RawScore(item: Item, c: Criterion): (r: real)
    ensures r == c.defaultScore || exists k :: k in c.values && r == c.values[k].score
  {
    match SpecOf(item, c.id)
    case Str(s) => if s != "" && s in c.values then c.values[s].score else c.defaultScore
    case _ => c.defaultScore
  }

  /** A 1-5 score as a percentage. */
  function Percent(score: real): real
  {
    score / 5.0 * 100.0
  }

  /** The sum of the criteria's weights. */
  function TotalWeight(cs: seq<Criterion>): real
  {
    if cs == [] then 0.0 else TotalWeight(cs[..|cs| - 1]) + cs[|cs| - 1].weight
  }

  /** The sum of each criterion's percentage times its weight. */
  function TotalScore(item: Item, cs: seq<Criterion>): real
  {
    if cs == [] then 0.0
    else TotalScore(item, cs[..|cs| - 1]) + Percent(RawScore(item, cs[|cs| - 1])) * cs[|cs| - 1].weight
  }

  /** The weighted mean percentage, or 0 when the total weight is not positive. */
  function ItemScore(item: Item, cs: seq<Criterion>): real
  {
    var w := TotalWeight(cs);
    if w > 0.0 then TotalScore(item, cs) / w else 0.0
  }

  /** `calculateItemScore(item, criteria)`: one pass accumulating the weighted percentages and the weights. */
  method CalculateItemScore(item: Item, criteria: seq<Criterion>) returns (score: real)
    ensures score == ItemScore(item, criteria)
    ensures criteria == [] ==> score == 0.0
  {
    var totalScore := 0.0;
    var totalWeight := 0.0;
    for i := 0 to |criteria|
      invariant totalScore == TotalScore(item, criteria[..i])
      invariant totalWeight == TotalWeight(criteria[..i])
    {
      assert criteria[..i + 1][..i] == criteria[..i];
      var criterion := criteria[i];
      var specValue := SpecOf(item, criterion.id);
      var criterionScore := criterion.defaultScore;
      if specValue.Str? && specValue.s != "" && specValue.s in criterion.values {
        criterionScore := criterion.values[specValue.s].score;
      }
      var normalizedScore := (criterionScore / 5.0) * 100.0;
      totalScore := totalScore + normalizedScore * criterion.weight;
      totalWeight := totalWeight + criterion.weight;
    }
    assert criteria[..|criteria|] == criteria;
    score := if totalWeight > 0.0 then totalScore / totalWeight else 0.0;
  }

  /** Scores within 1..5 everywhere: every table entry and the default. */
  predicate ScoresInRange(c: Criterion)
  {
    && 1.0 <= c.defaultScore <= 5.0
    && forall k :: k in c.values ==> 1.0 <= c.values[k].score <= 5.0
  }

  predicate WellScaled(cs: seq<Criterion>)
  {
    forall i :: 0 <= i < |cs| ==> cs[i].weight >= 0.0 && ScoresInRange(cs[i])
  }

  lemma {:induction false} TotalScoreBounds(item: Item, cs: seq<Criterion>)
    requires WellScaled(cs)
    ensures 20.0 * TotalWeight(cs) <= TotalScore(item, cs) <= 100.0 * TotalWeight(cs)
  {
    if cs != [] {
      var init, c := cs[..|cs| - 1], cs[|cs| - 1];
      assert WellScaled(init) by {
        forall i | 0 <= i < |init| ensures init[i] == cs[i] { }
      }
      TotalScoreBounds(item, init);
      var raw := RawScore(item, c);
      assert 1.0 <= raw <= 5.0;
      BoundsStep(TotalWeight(init), TotalScore(item, init), c.weight, Percent(raw));
    }
  }

  /**
   * With non-negative weights and all scores within 1..5, an item scores
   * either 0 (no weight) or between 20 and 100.
   */
  lemma ItemScoreRange(item: Item, cs: seq<Criterion>)
    requires WellScaled(cs)
    ensures ItemScore(item, cs) == 0.0 || 20.0 <= ItemScore(item, cs) <= 100.0
    ensures TotalWeight(cs) == 0.0 ==> ItemScore(item, cs) == 0.0
  {
    TotalScoreBounds(item, cs);
    var w := TotalWeight(cs);
    if w > 0.0 {
      DivBetween(TotalScore(item, cs), w, 20.0, 100.0);
    }
  }

  function ScaleWeights(cs: seq<Criterion>, f: real): (r: seq<Criterion>)
    ensures |r| == |cs|
    ensures forall i :: 0 <= i < |cs| ==> r[i] == cs[i].(weight := cs[i].weight * f)
  {
    seq(|cs|, i requires 0 <= i < |cs| => cs[i].(weight := cs[i].weight * f))
  }

  lemma ScalePrefix(cs: seq<Criterion>, f: real)
    requires cs != []
    ensures ScaleWeights(cs, f)[..|cs| - 1] == ScaleWeights(cs[..|cs| - 1], f)
  {
    var scaled, init := ScaleWeights(cs, f), cs[..|cs| - 1];
    forall i | 0 <= i < |init|
      ensures scaled[..|cs| - 1][i] == ScaleWeights(init, f)[i]
    {
      assert init[i] == cs[i];
    }
  }

  lemma {:induction false} WeightTotalScales(cs: seq<Criterion>, f: real)
    ensures TotalWeight(ScaleWeights(cs, f)) == TotalWeight(cs) * f
  {
    if cs != [] {
      var n, scaled := |cs|, ScaleWeights(cs, f);
      ScalePrefix(cs, f);
      WeightTotalScales(cs[..n - 1], f);
      assert TotalWeight(scaled) == TotalWeight(scaled[..n - 1]) + scaled[n - 1].weight;
      ScaleStep(TotalWeight(cs[..n - 1]), 0.0, cs[n - 1].weight, 0.0, f);
    }
  }

  /** Two criteria that differ only in weight rate an item the same. */
  lemma RawScoreIgnoresWeight(item: Item, c: Criterion, d: Criterion)
    requires c.id == d.id && c.values == d.values && c.defaultScore == d.defaultScore
    ensures RawScore(item, c) == RawScore(item, d)
  {
  }

  /** `ds` is `cs` with every weight multiplied by `f` and the same raw scores. */
  predicate ScaledBy(item: Item, cs: seq<Criterion>, ds: seq<Criterion>, f: real)
  {
    && |ds| == |cs|
    && forall i :: 0 <= i < |cs| ==> ds[i].weight == cs[i].weight * f && RawScore(item, ds[i]) == RawScore(item, cs[i])
  }

  lemma {:induction false} ScoreTotalOfScaled(item: Item, cs: seq<Criterion>, ds: seq<Criterion>, f: real)
    requires ScaledBy(item, cs, ds, f)
    ensures TotalScore(item, ds) == TotalScore(item, cs) * f
  {
    if cs != [] {
      var n := |cs|;
      assert ScaledBy(item, cs[..n - 1], ds[..n - 1], f);
      ScoreTotalOfScaled(item, cs[..n - 1], ds[..n - 1], f);
      var p := Percent(RawScore(item, cs[n - 1]));
      ScaledStep(TotalScore(item, ds[..n - 1]), TotalScore(item, cs[..n - 1]),
                 TotalScore(item, cs), TotalScore(item, ds), p, cs[n - 1].weight, ds[n - 1].weight, f);
    }
  }

  lemma ScoreTotalScales(item: Item, cs: seq<Criterion>, f: real)
    ensures TotalScore(item, ScaleWeights(cs, f)) == TotalScore(item, cs) * f
  {
    var scaled := ScaleWeights(cs, f);
    forall i | 0 <= i < |cs| ensures RawScore(item, scaled[i]) == RawScore(item, cs[i]) {
      RawScoreIgnoresWeight(item, scaled[i], cs[i]);
    }
    ScoreTotalOfScaled(item, cs, scaled, f);
  }

  /**
   * Weights need not be normalised at rest: multiplying every weight by the
   * same positive factor leaves every item's score unchanged.
   */
  lemma ScoreIgnoresWeightScale(item: Item, cs: seq<Criterion>, f: real)
    requires f > 0.0
    ensures ItemScore(item, ScaleWeights(cs, f)) == ItemScore(item, cs)
  {
    WeightTotalScales(cs, f);
    ScoreTotalScales(item, cs, f);
    var w, s := TotalWeight(cs), TotalScore(item, cs);
    if w > 0.0 {
      DivCancel(s, w, f);
    } else {
      MulMono(w, 0.0, f);
    }
  }

  lemma {:induction false} TotalScoreOfConstant(item: Item, cs: seq<Criterion>, v: real)
    requires forall i :: 0 <= i < |cs| ==> RawScore(item, cs[i]) == v
    ensures TotalScore(item, cs) == Percent(v) * TotalWeight(cs)
  {
    if cs != [] {
      TotalScoreOfConstant(item, cs[..|cs| - 1], v);
    }
  }

  /** A weighted mean of equal scores is that score: when every criterion rates the item `v`, it scores `v` as a percentage. */
  lemma UniformRawScore(item: Item, cs: seq<Criterion>, v: real)
    requires forall i :: 0 <= i < |cs| ==> RawScore(item, cs[i]) == v
    requires TotalWeight(cs) > 0.0
    ensures ItemScore(item, cs) == v * 20.0
  {
    TotalScoreOfConstant(item, cs, v);
    MeanOfConstant(TotalScore(item, cs), TotalWeight(cs), Percent(v), v);
  }

  /**
   * The nib-material example: weight 1, steel 3, 14k gold 4, default 3.
   * A 14k-gold nib scores 80; titanium, missing from this table, falls back to 60.
   */
  lemma NibMaterialExample()
    ensures var nib := Criterion("nib_material", "Nib Material", None, 1.0,
                                 map["steel" := CriterionValue("Steel", 3.0), "14k_gold" := CriterionValue("14k Gold", 4.0)], 3.0);
            var gold := Item("pilot_custom_74", "Pilot Custom 74", 160.0, None, None, map["nib_material" := Str("14k_gold")]);
            var titanium := Item("ti_pen", "Titanium Pen", 100.0, None, None, map["nib_material" := Str("titanium")]);
            ItemScore(gold, [nib]) == 80.0 && ItemScore(titanium, [nib]) == 60.0
  {
    var nib := Criterion("nib_material", "Nib Material", None, 1.0,
                         map["steel" := CriterionValue("Steel", 3.0), "14k_gold" := CriterionValue("14k Gold", 4.0)], 3.0);
    assert [nib][..0] == [];
  }
}
