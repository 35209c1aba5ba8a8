// RandomDecorator: evaluates its child only when a uniform draw falls at or
// below the clamped probability. The draw, Random.value in [0, 1], is a
// parameter of Evaluate.

module BTRandom {
  import opened BTNode

  /** Mathf.Clamp01. */
  function Clamp01(p: real): (r: real)
    ensures 0.0 <= r <= 1.0
    ensures 0.0 <= p <= 1.0 ==> r == p
    ensures p < 0.0 ==> r == 0.0
    ensures p > 1.0 ==> r == 1.0
  {
    if p < 0.0 then 0.0 else if p > 1.0 then 1.0 else p
  }

  /** Whether a draw lets the child run. */
  predicate Passes(probability: real, draw: real)
  {
    draw <= probability
  }

  /** A probability of 0 (or below) blocks every positive draw. */
  lemma NeverPassesAtZero(p: real, draw: real)
    requires p <= 0.0 && 0.0 < draw
    ensures !Passes(Clamp01(p), draw)
  {
  }

  /** A probability of 1 (or above) lets every draw of Random.value through. */
  lemma AlwaysPassesAtOne(p: real, draw: real)
    requires p >= 1.0 && draw <= 1.0
    ensures Passes(Clamp01(p), draw)
  {
  }

  class RandomDecorator {
    var state: NodeState
    const probability: real
    const child: Node

    constructor (probability: real, child: Node)
      ensures this.probability == Clamp01(probability) && this.child == child && state == Running
    {
      this.probability := Clamp01(probability);
      this.child := child;
      state := Running;
    }

    /** One tick with the draw `draw`, the child returning `childResult` when
        it runs: a passing draw gives the child's result, any other gives
        Failure without touching the child. */
    method Evaluate(draw: real, childResult: NodeState) returns (r: NodeState)
      modifies this`state, child
      ensures state == r
      ensures Passes(probability, draw) ==> r == childResult && child.state == childResult
      ensures !Passes(probability, draw) ==> r == Failure && child.state == old(child.state)
    {
      if draw <= probability {
        state := child.Evaluate(childResult);
      } else {
        state := Failure;
      }
      r := state;
    }

    /** Reset resets the child, then the node itself. */
    method Reset()
      modifies this`state, child
      ensures state == Running && child.state == Running
    {
      child.Reset();
      state := Running;
    }
  }
}
