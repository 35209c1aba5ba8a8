// SelectorNode: tries its children in order from the resume index until one
// does not fail; each failing child is reset before the next is tried.

module BTSelector {
  import opened BTNode

  /** What a selector tick computes from position `i` on, given each child's
      result for the tick: the node's result and the new resume index. */
  function SelectorScan(outcomes: seq<NodeState>, i: nat): (NodeState, nat)
    decreases |outcomes| - i
  {
    if i >= |outcomes| then (Failure, 0)
    else match outcomes[i]
      case Running => (Running, i)
      case Success => (Success, 0)
      case Failure => SelectorScan(outcomes, i + 1)
  }

  /** A Running tick records the position of the first Running child at or
      after the resume index, all children before it having failed; every
      other tick leaves the index at 0. */
  lemma {:induction false} SelectorScanIndex(outcomes: seq<NodeState>, i: nat)
    ensures SelectorScan(outcomes, i).0 != Running ==> SelectorScan(outcomes, i).1 == 0
    ensures SelectorScan(outcomes, i).0 == Running ==>
              var k := SelectorScan(outcomes, i).1;
              i <= k < |outcomes| && outcomes[k] == Running
              && forall j :: i <= j < k ==> outcomes[j] == Failure
    decreases |outcomes| - i
  {
    if i < |outcomes| && outcomes[i] == Failure {
      SelectorScanIndex(outcomes, i + 1);
    }
  }

  /** A selector fails exactly when every child from the resume index on
      fails; in particular an empty selector fails. */
  lemma {:induction false} SelectorFailsIff(outcomes: seq<NodeState>, i: nat)
    ensures SelectorScan(outcomes, i).0 == Failure <==>
            forall j :: i <= j < |outcomes| ==> outcomes[j] == Failure
    decreases |outcomes| - i
  {
    if i < |outcomes| && outcomes[i] == Failure {
      SelectorFailsIff(outcomes, i + 1);
    }
  }

  /** A selector succeeds exactly when some child succeeds after only failures. */
  lemma {:induction false} SelectorSucceedsIff(outcomes: seq<NodeState>, i: nat)
    ensures SelectorScan(outcomes, i).0 == Success <==>
            exists k :: i <= k < |outcomes| && outcomes[k] == Success
                        && forall j :: i <= j < k ==> outcomes[j] == Failure
    decreases |outcomes| - i
  {
    if i < |outcomes| && outcomes[i] == Failure {
      SelectorSucceedsIff(outcomes, i + 1);
      if SelectorScan(outcomes, i).0 == Success {
        var k :| i + 1 <= k < |outcomes| && outcomes[k] == Success
                 && forall j :: i + 1 <= j < k ==> outcomes[j] == Failure;
        assert forall j :: i <= j < k ==> outcomes[j] == Failure;
      }
    }
  }

  /** Resuming at `i` never consults the children before `i`. */
  lemma {:induction false} SelectorResume(o1: seq<NodeState>, o2: seq<NodeState>, i: nat)
    requires |o1| == |o2|
    requires forall j :: i <= j < |o1| ==> o1[j] == o2[j]
    ensures SelectorScan(o1, i) == SelectorScan(o2, i)
    decreases |o1| - i
  {
    if i < |o1| {
      SelectorResume(o1, o2, i + 1);
    }
  }

  class SelectorNode {
    const base: CompositeNode
    var currentChildIndex: nat

    constructor (children: seq<Node>)
      ensures base.children == children && base.state == Running
      ensures currentChildIndex == 0 && fresh(base)
    {
      base := new CompositeNode(children);
      currentChildIndex := 0;
    }

    /** One tick, `outcomes[i]` being what child i returns when evaluated.
        Every child that was evaluated ends Running: a failing child is reset
        on the spot, a Running child stays Running, and a Success resets all. */
    method Evaluate(outcomes: seq<NodeState>) returns (r: NodeState)
      requires |outcomes| == |base.children|
      modifies this, base`state, base.children
      ensures (r, currentChildIndex) == SelectorScan(outcomes, old(currentChildIndex))
      ensures base.state == r
      ensures r != Running ==> forall c :: c in base.children ==> c.state == Running
      ensures r == Running ==> old(currentChildIndex) <= currentChildIndex < |base.children|
      ensures r == Running ==>
                forall c :: c in Span(base.children, old(currentChildIndex), currentChildIndex + 1)
                            ==> c.state == Running
      ensures r == Running ==>
                forall c :: (c in base.children
                             && c !in Span(base.children, old(currentChildIndex), currentChildIndex + 1))
                            ==> c.state == old(c.state)
    {
      var children := base.children;
      ghost var start := currentChildIndex;
      var i := currentChildIndex;
      while i < |children|
        invariant start <= i
        invariant i > |children| ==> i == start
        invariant SelectorScan(outcomes, i) == SelectorScan(outcomes, start)
        invariant currentChildIndex == start
        invariant forall c :: c in Span(children, start, i) ==> c.state == Running
        invariant forall c :: c in children && c !in Span(children, start, i) ==> c.state == old(c.state)
      {
        var s := children[i].Evaluate(outcomes[i]);
        if s == Running {
          currentChildIndex := i;
          base.state := Running;
          r := Running;
          SelectorScanIndex(outcomes, start);
          assert Span(children, start, i + 1) == Span(children, start, i) + {children[i]};
          return;
        } else if s == Success {
          ResetEach(children);
          currentChildIndex := 0;
          base.state := Success;
          r := Success;
          return;
        }
        children[i].Reset();
        assert Span(children, start, i + 1) == Span(children, start, i) + {children[i]};
        i := i + 1;
      }
      ResetEach(children);
      currentChildIndex := 0;
      base.state := Failure;
      r := Failure;
    }

    /** Reset cascades to the children and rewinds the resume index. */
    method Reset()
      modifies this, base`state, base.children
      ensures currentChildIndex == 0 && base.state == Running
      ensures forall c :: c in base.children ==> c.state == Running
    {
      base.Reset();
      currentChildIndex := 0;
    }
  }
}
