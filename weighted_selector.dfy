// WeightedSelector: a composite that draws one child by weight, keeps it
// while it runs, and releases it once it returns Success or Failure. The
// weights array is normalised in place by the constructor; the draw,
// Random.value, is a parameter of Evaluate.

module BTWeighted {
  import opened BTNode

  /** The sum of a sequence of weights, added front to back. */
  function Sum(s: seq<real>): real
  {
    if s == [] then 0.0 else Sum(s[..|s| - 1]) + s[|s| - 1]
  }

  /** Each weight divided by `total`. */
  function Divided(s: seq<real>, total: real): (r: seq<real>)
    requires total != 0.0
    ensures |r| == |s| && forall i :: 0 <= i < |s| ==> r[i] == s[i] / total
  {
    seq(|s|, i requires 0 <= i < |s| => s[i] / total)
  }

  lemma {:induction false} SumDivided(s: seq<real>, total: real)
    requires total != 0.0
    ensures Sum(Divided(s, total)) == Sum(s) / total
    decreases |s|
  {
    if s != [] {
      var n := |s| - 1;
      assert Divided(s, total)[..n] == Divided(s[..n], total);
      SumDivided(s[..n], total);
    }
  }

  /** The normalised weights sum to 1 whenever their total is not zero; in
      particular for any non-empty list of positive weights. */
  lemma NormalisedSumToOne(s: seq<real>)
    requires Sum(s) != 0.0
    ensures Sum(Divided(s, Sum(s))) == 1.0
  {
    SumDivided(s, Sum(s));
    var t := Sum(s);
    assert t / t == 1.0;
  }

  lemma {:induction false} PositiveSum(s: seq<real>)
    requires |s| > 0 && forall i :: 0 <= i < |s| ==> s[i] > 0.0
    ensures Sum(s) > 0.0
    decreases |s|
  {
    if |s| > 1 {
      PositiveSum(s[..|s| - 1]);
    }
  }

  /** The cumulative walk of SelectWeightedIndex from position `i`, `cum`
      being the weight accumulated before it: the first position whose running
      total reaches the draw, or the last child when none does. */
  function PickFrom(w: seq<real>, n: nat, draw: real, i: nat, cum: real): (r: int)
    ensures -1 <= r < n
    ensures r == -1 <==> n == 0
    ensures r >= i || r == n - 1
    decreases |w| - i
  {
    if i < |w| && i < n then
      (if draw <= cum + w[i] then i else PickFrom(w, n, draw, i + 1, cum + w[i]))
    else n - 1
  }

  /** SelectWeightedIndex on weights `w` and `n` children: a child index,
      or -1 exactly when there are no children. */
  function Pick(w: seq<real>, n: nat, draw: real): (r: int)
    ensures -1 <= r < n
    ensures r == -1 <==> n == 0
  {
    PickFrom(w, n, draw, 0, 0.0)
  }

  /** The running total of SelectWeightedIndex after position `j`. */
  function Cumulative(w: seq<real>, j: nat): real
    requires j < |w|
  {
    Sum(w[..j + 1])
  }

  function Min(a: nat, b: nat): nat
  {
    if a <= b then a else b
  }

  lemma SumStep(w: seq<real>, i: nat)
    requires i < |w|
    ensures Sum(w[..i + 1]) == Sum(w[..i]) + w[i]
  {
    assert w[..i + 1][..i] == w[..i];
  }

  lemma {:induction false} PickFromSpec(w: seq<real>, n: nat, draw: real, i: nat)
    requires i <= Min(|w|, n)
    requires forall j :: 0 <= j < i ==> draw > Cumulative(w, j)
    ensures var k := PickFrom(w, n, draw, i, Sum(w[..i]));
            (i <= k < Min(|w|, n) && draw <= Cumulative(w, k)
              && forall j :: 0 <= j < k ==> draw > Cumulative(w, j))
            || (k == n - 1 && forall j :: 0 <= j < Min(|w|, n) ==> draw > Cumulative(w, j))
    decreases |w| - i
  {
    if i < |w| && i < n {
      SumStep(w, i);
      assert Cumulative(w, i) == Sum(w[..i]) + w[i];
      if draw > Sum(w[..i]) + w[i] {
        PickFromSpec(w, n, draw, i + 1);
      }
    }
  }

  /** The pick is the first index, among the children that have a weight,
      whose cumulative weight reaches the draw; when there is none it is the
      last child. */
  lemma PickIsFirstReaching(w: seq<real>, n: nat, draw: real)
    ensures var k := Pick(w, n, draw);
            (0 <= k < Min(|w|, n) && draw <= Cumulative(w, k)
              && forall j :: 0 <= j < k ==> draw > Cumulative(w, j))
            || (k == n - 1 && forall j :: 0 <= j < Min(|w|, n) ==> draw > Cumulative(w, j))
  {
    assert w[..0] == [];
    PickFromSpec(w, n, draw, 0);
  }

  /** Sums the array, front to back. */
  method Total(a: array<real>) returns (total: real)
    ensures total == Sum(a[..])
  {
    total := 0.0;
    var i := 0;
    while i < a.Length
      invariant 0 <= i <= a.Length
      invariant total == Sum(a[..i])
    {
      SumStep(a[..], i);
      assert a[..][..i] == a[..i] && a[..][..i + 1] == a[..i + 1];
      total := total + a[i];
      i := i + 1;
    }
    assert a[..a.Length] == a[..];
  }

  /** The constructor's normalisation: each weight divided by the total. */
  method Normalise(a: array<real>)
    requires Sum(a[..]) != 0.0
    modifies a
    ensures a[..] == Divided(old(a[..]), Sum(old(a[..])))
  {
    var total := Total(a);
    var i := 0;
    while i < a.Length
      invariant 0 <= i <= a.Length
      invariant forall j :: 0 <= j < i ==> a[j] == old(a[j]) / total
      invariant forall j :: i <= j < a.Length ==> a[j] == old(a[j])
    {
      a[i] := a[i] / total;
      i := i + 1;
    }
  }

  /** What one tick produced: the selected child's result, or the exception
      of indexing an empty child list. */
  datatype Outcome = Evaluated(state: NodeState) | IndexOutOfRange

  class WeightedSelector {
    const base: CompositeNode
    const weights: array<real>
    /** The latched child, or -1 when none is selected. */
    var selectedIndex: int

    constructor (children: seq<Node>, weights: array<real>)
      requires Sum(weights[..]) != 0.0
      modifies weights
      ensures base.children == children && this.weights == weights && fresh(base)
      ensures weights[..] == Divided(old(weights[..]), Sum(old(weights[..])))
      ensures selectedIndex == -1
    {
      base := new CompositeNode(children);
      this.weights := weights;
      selectedIndex := -1;
      Normalise(weights);
    }

    /** SelectWeightedIndex with the draw `draw`. */
    method SelectWeightedIndex(draw: real) returns (k: int)
      ensures k == Pick(weights[..], |base.children|, draw)
    {
      var n := |base.children|;
      var cum := 0.0;
      var i := 0;
      while i < weights.Length && i < n
        invariant 0 <= i <= weights.Length
        invariant PickFrom(weights[..], n, draw, i, cum) == Pick(weights[..], n, draw)
      {
        cum := cum + weights[i];
        if draw <= cum {
          return i;
        }
        i := i + 1;
      }
      k := n - 1;
    }

    /** One tick with the draw `draw`, `outcomes[i]` being what child i
        returns: draw a child unless one is latched, evaluate it, and keep
        it only while it is Running. */
    method Evaluate(draw: real, outcomes: seq<NodeState>) returns (r: Outcome)
      requires |outcomes| == |base.children|
      modifies this`selectedIndex, base.children
      ensures var k := if old(selectedIndex) == -1 then Pick(weights[..], |base.children|, draw)
                       else old(selectedIndex);
              if 0 <= k < |base.children| then
                r == Evaluated(outcomes[k]) && base.children[k].state == outcomes[k]
                && selectedIndex == (if outcomes[k] == Running then k else -1)
                && forall c :: c in base.children && c != base.children[k] ==> c.state == old(c.state)
              else
                r == IndexOutOfRange && selectedIndex == k
                && forall c :: c in base.children ==> c.state == old(c.state)
    {
      if selectedIndex == -1 {
        selectedIndex := SelectWeightedIndex(draw);
      }
      if !(0 <= selectedIndex < |base.children|) {
        return IndexOutOfRange;
      }
      var s := base.children[selectedIndex].Evaluate(outcomes[selectedIndex]);
      if s == Success || s == Failure {
        selectedIndex := -1;
      }
      r := Evaluated(s);
    }

    /** The inherited CompositeNode.Reset: the children are reset, the latch
        is not. */
    method Reset()
      modifies base`state, base.children
      ensures base.state == Running
      ensures forall c :: c in base.children ==> c.state == Running
    {
      base.Reset();
    }
  }
}
