// SequenceNode: evaluates its children in order from the resume index and
// stops at the first child that is not Success.

module BTSequence {
  import opened BTNode

  /** What a sequence tick computes from position `i` on, given each child's
      result for the tick: the node's result and the new resume index. */
  function SequenceScan(outcomes: seq<NodeState>, i: nat): (NodeState, nat)
    decreases |outcomes| - i
  {
    if i >= |outcomes| then (Success, 0)
    else match outcomes[i]
      case Running => (Running, i)
      case Failure => (Failure, 0)
      case Success => SequenceScan(outcomes, i + 1)
  }

  /** A Running tick records the position of the first Running child at or
      after the resume index, all children before it having succeeded; every
      other tick leaves the index at 0. */
  lemma {:induction false} SequenceScanIndex(outcomes: seq<NodeState>, i: nat)
    ensures SequenceScan(outcomes, i).0 != Running ==> SequenceScan(outcomes, i).1 == 0
    ensures SequenceScan(outcomes, i).0 == Running ==>
              var k := SequenceScan(outcomes, i).1;
              i <= k < |outcomes| && outcomes[k] == Running
              && forall j :: i <= j < k ==> outcomes[j] == Success
    decreases |outcomes| - i
  {
    if i < |outcomes| && outcomes[i] == Success {
      SequenceScanIndex(outcomes, i + 1);
    }
  }

  /** A sequence succeeds exactly when every child from the resume index on
      succeeds; in particular an empty sequence succeeds. */
  lemma {:induction false} SequenceSucceedsIff(outcomes: seq<NodeState>, i: nat)
    ensures SequenceScan(outcomes, i).0 == Success <==>
            forall j :: i <= j < |outcomes| ==> outcomes[j] == Success
    decreases |outcomes| - i
  {
    if i < |outcomes| && outcomes[i] == Success {
      SequenceSucceedsIff(outcomes, i + 1);
    }
  }

  /** A sequence fails exactly when some child fails after only successes. */
  lemma {:induction false} SequenceFailsIff(outcomes: seq<NodeState>, i: nat)
    ensures SequenceScan(outcomes, i).0 == Failure <==>
            exists k :: i <= k < |outcomes| && outcomes[k] == Failure
                        && forall j :: i <= j < k ==> outcomes[j] == Success
    decreases |outcomes| - i
  {
    if i < |outcomes| {
      if outcomes[i] == Success {
        SequenceFailsIff(outcomes, i + 1);
        if SequenceScan(outcomes, i).0 == Failure {
          var k :| i + 1 <= k < |outcomes| && outcomes[k] == Failure
                   && forall j :: i + 1 <= j < k ==> outcomes[j] == Success;
          assert forall j :: i <= j < k ==> outcomes[j] == Success;
        }
      }
    }
  }

  /** Resuming at `i` never consults the children before `i`. */
  lemma {:induction false} SequenceResume(o1: seq<NodeState>, o2: seq<NodeState>, i: nat)
    requires |o1| == |o2|
    requires forall j :: i <= j < |o1| ==> o1[j] == o2[j]
    ensures SequenceScan(o1, i) == SequenceScan(o2, i)
    decreases |o1| - i
  {
    if i < |o1| {
      SequenceResume(o1, o2, i + 1);
    }
  }

  class SequenceNode {
    const base: CompositeNode
    var currentChildIndex: nat

    constructor (children: seq<Node>)
      ensures base.children == children && base.state == Running
      ensures currentChildIndex == 0 && fresh(base)
    {
      base := new CompositeNode(children);
      currentChildIndex := 0;
    }

    /** One tick, `outcomes[i]` being what child i returns when evaluated. */
    method Evaluate(outcomes: seq<NodeState>) returns (r: NodeState)
      requires |outcomes| == |base.children|
      modifies this, base`state, base.children
      ensures (r, currentChildIndex) == SequenceScan(outcomes, old(currentChildIndex))
      ensures base.state == r
      ensures r != Running ==> forall c :: c in base.children ==> c.state == Running
      ensures r == Running ==> old(currentChildIndex) <= currentChildIndex < |base.children|
      ensures r == Running ==> base.children[currentChildIndex].state == Running
      ensures r == Running ==>
                forall c :: (c in Span(base.children, old(currentChildIndex), currentChildIndex)
                             && c != base.children[currentChildIndex]) ==> c.state == Success
      ensures r == Running ==>
                forall c :: (c in base.children
                             && c !in Span(base.children, old(currentChildIndex), currentChildIndex + 1))
                            ==> c.state == old(c.state)
    {
      var children := base.children;
      ghost var start := currentChildIndex;
      var i := currentChildIndex;
      while i < |children|
        invariant start <= i
        invariant i > |children| ==> i == start
        invariant SequenceScan(outcomes, i) == SequenceScan(outcomes, start)
        invariant currentChildIndex == start
        invariant forall c :: c in Span(children, start, i) ==> c.state == Success
        invariant forall c :: c in children && c !in Span(children, start, i) ==> c.state == old(c.state)
      {
        var s := children[i].Evaluate(outcomes[i]);
        if s == Running {
          currentChildIndex := i;
          base.state := Running;
          r := Running;
          SequenceScanIndex(outcomes, start);
          return;
        } else if s == Failure {
          ResetEach(children);
          currentChildIndex := 0;
          base.state := Failure;
          r := Failure;
          return;
        }
        assert Span(children, start, i + 1) == Span(children, start, i) + {children[i]};
        i := i + 1;
      }
      ResetEach(children);
      currentChildIndex := 0;
      base.state := Success;
      r := Success;
    }

    /** Reset cascades to the children and rewinds the resume index. */
    method Reset()
      modifies this, base`state, base.children
      ensures currentChildIndex == 0 && base.state == Running
      ensures forall c :: c in base.children ==> c.state == Running
    {
      base.Reset();
      currentChildIndex := 0;
    }
  }
}
