/** The weighted outcome sampler: an inverse-CDF draw over a list of
    weighted options. The uniform draw (`Math.random() * total` in the
    program) is a parameter, so the selection rule itself is deterministic. */
module Sampler {

  /** A value together with its relative probability mass. */
  datatype WeightedOption<T> = WeightedOption(value: T, weight: real)

  /** `Math.max(0, weight)`: a negative weight carries no mass. */
  function Clamp(w: real): (c: real)
    ensures c >= 0.0 && c >= w
    ensures w >= 0.0 ==> c == w
    ensures w <= 0.0 ==> c == 0.0
  {
    if w < 0.0 then 0.0 else w
  }

  /** Sum of the clamped weights of the first k options, folded from the
      left exactly as the `reduce` that computes the total. */
  function Prefix<T>(options: seq<WeightedOption<T>>, k: nat): (p: real)
    requires k <= |options|
    ensures p >= 0.0
  {
    if k == 0 then 0.0 else Prefix(options, k - 1) + Clamp(options[k - 1].weight)
  }

  /** The total mass of all options. */
  function Total<T>(options: seq<WeightedOption<T>>): real {
    Prefix(options, |options|)
  }

  /** The first index k >= i whose cumulative mass covers the draw
      (draw <= Prefix(k + 1)), or |options| when none does. */
  function FirstCover<T>(options: seq<WeightedOption<T>>, draw: real, i: nat): (k: nat)
    requires i <= |options|
    ensures i <= k <= |options|
    ensures k < |options| ==> draw <= Prefix(options, k + 1)
    ensures forall j :: i < j <= k ==> Prefix(options, j) < draw
    decreases |options| - i
  {
    if i == |options| then i
    else if draw <= Prefix(options, i + 1) then i
    else FirstCover(options, draw, i + 1)
  }

  /** The index the sampler selects for a draw: the first option when there
      is no mass at all, otherwise the first covering option, and the last
      option when no option covers the draw. */
  function Pick<T>(options: seq<WeightedOption<T>>, draw: real): (i: nat)
    requires |options| > 0
    ensures i < |options|
  {
    if Total(options) <= 0.0 then 0
    else
      var k := FirstCover(options, draw, 0);
      if k < |options| then k else |options| - 1
  }

  /** The sampler. The running remainder `r` starts at the draw and loses
      each option's clamped weight in turn; the first option that brings it
      to zero or below wins. `viaFallback` is true exactly when the loop ran
      out and the trailing `return` of the last option was taken. */
  method WeightedRandom<T>(options: seq<WeightedOption<T>>, draw: real)
    returns (v: T, ghost viaFallback: bool)
    requires |options| > 0
    ensures v == options[Pick(options, draw)].value
    ensures Total(options) <= 0.0 ==> v == options[0].value
    ensures exists i :: 0 <= i < |options| && options[i].value == v
    ensures viaFallback <==> Total(options) > 0.0 && FirstCover(options, draw, 0) == |options|
  {
    viaFallback := false;
    var total := Total(options);
    if total <= 0.0 {
      return options[0].value, false;
    }
    var r := draw;
    for k := 0 to |options|
      invariant r == draw - Prefix(options, k)
      invariant FirstCover(options, draw, 0) == FirstCover(options, draw, k)
    {
      r := r - Clamp(options[k].weight);
      if r <= 0.0 {
        return options[k].value, false;
      }
    }
    return options[|options| - 1].value, true;
  }

  /** Cumulative mass never decreases along the list. */
  lemma {:induction false} PrefixMonotone<T>(options: seq<WeightedOption<T>>, i: nat, j: nat)
    requires i <= j <= |options|
    ensures Prefix(options, i) <= Prefix(options, j)
    decreases j - i
  {
    if i < j {
      PrefixMonotone(options, i, j - 1);
    }
  }

  /** With no mass, the first option is returned whatever the draw. */
  lemma NoMassPicksFirst<T>(options: seq<WeightedOption<T>>, d1: real, d2: real)
    requires |options| > 0
    requires forall i :: 0 <= i < |options| ==> options[i].weight <= 0.0
    ensures Total(options) == 0.0
    ensures Pick(options, d1) == 0 && Pick(options, d2) == 0
  {
    NoMassPrefix(options, |options|);
  }

  lemma {:induction false} NoMassPrefix<T>(options: seq<WeightedOption<T>>, k: nat)
    requires k <= |options|
    requires forall i :: 0 <= i < |options| ==> options[i].weight <= 0.0
    ensures Prefix(options, k) == 0.0
  {
    if k > 0 {
      NoMassPrefix(options, k - 1);
    }
  }

  /** A draw no larger than the total is always covered by some option, so
      the loop returns from inside and the trailing fallback is not taken. */
  lemma FallbackUnreachable<T>(options: seq<WeightedOption<T>>, draw: real)
    requires |options| > 0
    requires draw <= Total(options)
    ensures FirstCover(options, draw, 0) < |options|
  {
    var k, total := FirstCover(options, draw, 0), Prefix(options, |options|);
    assert k == |options| ==> total < draw;
  }

  /** Option i is selected for a draw in (0, total] exactly when the draw
      lies in (C_{i-1}, C_i], the cumulative masses before and after it. */
  lemma PickInterval<T>(options: seq<WeightedOption<T>>, draw: real, i: nat)
    requires 0.0 < draw <= Total(options)
    requires i < |options|
    ensures Pick(options, draw) == i <==> Prefix(options, i) < draw <= Prefix(options, i + 1)
  {
    FallbackUnreachable(options, draw);
    var k := FirstCover(options, draw, 0);
    assert Pick(options, draw) == k;
    if k == i {
      if i > 0 {
        assert Prefix(options, i) < draw;
      }
    } else if k < i {
      PrefixMonotone(options, k + 1, i);
    } else {
      assert Prefix(options, i + 1) < draw;
    }
  }

  /** The draws in (0, total] that select option i form an interval that
      starts at the mass before it and has length max(0, weight_i). */
  lemma SelectionInterval<T>(options: seq<WeightedOption<T>>, i: nat)
    requires i < |options|
    ensures forall d :: 0.0 < d <= Total(options) ==>
      (Pick(options, d) == i <==>
        Prefix(options, i) < d <= Prefix(options, i) + Clamp(options[i].weight))
  {
    forall d | 0.0 < d <= Total(options)
      ensures Pick(options, d) == i <==>
        Prefix(options, i) < d <= Prefix(options, i) + Clamp(options[i].weight)
    {
      PickInterval(options, d, i);
    }
  }

  /** An option with weight at most zero is never selected by a draw in
      (0, total]. */
  lemma NonPositiveNeverPicked<T>(options: seq<WeightedOption<T>>, draw: real, i: nat)
    requires 0.0 < draw <= Total(options)
    requires i < |options| && options[i].weight <= 0.0
    ensures Pick(options, draw) != i
  {
    PickInterval(options, draw, i);
  }

  /** Negative weights contribute nothing: changing one non-positive weight
      into another leaves every cumulative mass, and so the total, as it was. */
  lemma {:induction false} NonPositiveWeightIgnored<T>(options: seq<WeightedOption<T>>, i: nat, w: real, k: nat)
    requires i < |options| && options[i].weight <= 0.0 && w <= 0.0
    requires k <= |options|
    ensures Prefix(options[i := WeightedOption(options[i].value, w)], k) == Prefix(options, k)
  {
    if k > 0 {
      NonPositiveWeightIgnored(options, i, w, k - 1);
    }
  }

  /** A draw of exactly 0 selects the first option whatever its weight:
      the remainder is at most 0 after the first subtraction. This is the
      one draw at which an option of weight 0 can be returned. */
  lemma ZeroDrawPicksFirst<T>(options: seq<WeightedOption<T>>)
    requires |options| > 0
    ensures Pick(options, 0.0) == 0
  {
    assert Prefix(options, 1) >= 0.0;
  }

  /** The selection rule is monotone in the draw. */
  lemma PickMonotone<T>(options: seq<WeightedOption<T>>, d1: real, d2: real)
    requires |options| > 0
    requires d1 <= d2
    ensures Pick(options, d1) <= Pick(options, d2)
  {
    FirstCoverMonotone(options, d1, d2, 0);
  }

  lemma {:induction false} FirstCoverMonotone<T>(options: seq<WeightedOption<T>>, d1: real, d2: real, i: nat)
    requires i <= |options|
    requires d1 <= d2
    ensures FirstCover(options, d1, i) <= FirstCover(options, d2, i)
    decreases |options| - i
  {
    if i < |options| && d2 > Prefix(options, i + 1) {
      FirstCoverMonotone(options, d1, d2, i + 1);
    }
  }
}
