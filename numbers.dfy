/**
 * Aggregates over a list of amounts, as Python's built-in sum, min and max
 * compute them: a left-to-right scan. Amounts are exact reals; floating-point
 * rounding is not modelled.
 */
module Numbers {

  /** sum(xs): 0 plus every element, added from left to right. */
  function Sum(xs: seq<real>): real
  {
    if |xs| == 0 then 0.0 else Sum(xs[..|xs| - 1]) + xs[|xs| - 1]
  }

  /**
   * With exact reals the grouping of the additions does not matter: the first
   * element plus the sum of the rest is the same total.
   */
  lemma {:induction false} SumFront(xs: seq<real>)
    requires |xs| > 0
    ensures Sum(xs) == xs[0] + Sum(xs[1..])
  {
    if |xs| > 1 {
      var init := xs[..|xs| - 1];
      SumFront(init);
      assert init[1..] == xs[1..][..|xs[1..]| - 1];
    }
  }

  /** min(xs): the scan keeps the current value unless a strictly smaller one comes. */
  function Min(xs: seq<real>): (m: real)
    requires |xs| > 0
    ensures m in xs
    ensures forall i :: 0 <= i < |xs| ==> m <= xs[i]
  {
    if |xs| == 1 then xs[0]
    else
      var init := xs[..|xs| - 1];
      var m := Min(init);
      assert forall i :: 0 <= i < |xs| - 1 ==> xs[i] == init[i];
      if xs[|xs| - 1] < m then xs[|xs| - 1] else m
  }

  /** max(xs): the scan keeps the current value unless a strictly larger one comes. */
  function Max(xs: seq<real>): (m: real)
    requires |xs| > 0
    ensures m in xs
    ensures forall i :: 0 <= i < |xs| ==> xs[i] <= m
  {
    if |xs| == 1 then xs[0]
    else
      var init := xs[..|xs| - 1];
      var m := Max(init);
      assert forall i :: 0 <= i < |xs| - 1 ==> xs[i] == init[i];
      if xs[|xs| - 1] > m then xs[|xs| - 1] else m
  }
}
