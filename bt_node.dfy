// The behaviour-tree base: the three-valued node state, the base reset, the
// composite node's child list and the decorator node's single child.
//
// A child sub-tree is represented by a `Node`: its own `state` field, an
// evaluation whose result for the current tick is supplied by the caller
// (what the sub-tree would compute), and the base reset.

module BTNode {

  datatype NodeState = Running | Success | Failure

  /** A tree node as its parent sees it. */
  class Node {
    var state: NodeState

    /** C# leaves the enum field at its first value, Running. */
    constructor ()
      ensures state == Running
    {
      state := Running;
    }

    /** Evaluate stores the tick's result in `state` and returns it. */
    method Evaluate(result: NodeState) returns (r: NodeState)
      modifies this
      ensures r == result && state == result
    {
      state := result;
      r := state;
    }

    /** The base reset: the node is Running again. */
    method Reset()
      modifies this
      ensures state == Running
    {
      state := Running;
    }
  }

  /** The nodes at positions lo .. hi-1 of `nodes`. */
  ghost function Span(nodes: seq<Node>, lo: int, hi: int): set<Node>
  {
    set j | lo <= j < hi && 0 <= j < |nodes| :: nodes[j]
  }

  /** Resets every node of `nodes`, in order; nothing else changes. */
  method ResetEach(nodes: seq<Node>)
    modifies nodes
    ensures forall c :: c in nodes ==> c.state == Running
  {
    var i := 0;
    while i < |nodes|
      invariant 0 <= i <= |nodes|
      invariant forall j :: 0 <= j < i ==> nodes[j].state == Running
    {
      nodes[i].Reset();
      i := i + 1;
    }
  }

  /** `s` with its first occurrence of `x` removed (List.Remove). */
  function RemoveFirst<T(==)>(s: seq<T>, x: T): seq<T>
  {
    if s == [] then []
    else if s[0] == x then s[1..]
    else [s[0]] + RemoveFirst(s[1..], x)
  }

  /** Removing an absent element changes nothing. */
  lemma {:induction false} RemoveFirstAbsent<T>(s: seq<T>, x: T)
    requires x !in s
    ensures RemoveFirst(s, x) == s
  {
    if s != [] {
      assert x !in s[1..];
      RemoveFirstAbsent(s[1..], x);
    }
  }

  /** When `k` is the first position of `x`, exactly that element goes and
      the others keep their order. */
  lemma {:induction false} RemoveFirstAt<T>(s: seq<T>, x: T, k: nat)
    requires k < |s| && s[k] == x && x !in s[..k]
    ensures RemoveFirst(s, x) == s[..k] + s[k + 1..]
  {
    if k > 0 {
      assert s[0] == s[..k][0];
      assert s[1..][..k - 1] == s[1..k];
      assert x !in s[1..][..k - 1];
      RemoveFirstAt(s[1..], x, k - 1);
      assert s[..k] == [s[0]] + s[1..][..k - 1];
      assert s[k + 1..] == s[1..][k..];
    }
  }

  /** The base part of every composite node: the state and the child list. */
  class CompositeNode {
    var state: NodeState
    var children: seq<Node>

    constructor (children: seq<Node>)
      ensures this.children == children && state == Running
    {
      this.children := children;
      state := Running;
    }

    /** AddChild appends; the existing children keep their order. */
    method AddChild(child: Node)
      modifies this`children
      ensures children == old(children) + [child]
    {
      children := children + [child];
    }

    /** RemoveChild drops the first occurrence of `child`, if any. */
    method RemoveChild(child: Node)
      modifies this`children
      ensures children == RemoveFirst(old(children), child)
    {
      children := RemoveFirst(children, child);
    }

    /** Reset resets every child, then the node itself. */
    method Reset()
      modifies this`state, children
      ensures state == Running
      ensures forall c :: c in children ==> c.state == Running
    {
      ResetEach(children);
      state := Running;
    }
  }

  /** The base part of every decorator: the state and the optional child. */
  class DecoratorNode {
    var state: NodeState
    var child: Node?

    constructor ()
      ensures child == null && state == Running
    {
      child := null;
      state := Running;
    }

    method SetChild(child: Node?)
      modifies this`child
      ensures this.child == child
    {
      this.child := child;
    }

    /** Reset resets the child if there is one, then the node itself. */
    method Reset()
      modifies this`state, child
      ensures state == Running
      ensures child != null ==> child.state == Running
    {
      if child != null {
        child.Reset();
      }
      state := Running;
    }
  }
}
