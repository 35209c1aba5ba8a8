// What the leaf nodes of both agents' trees share: the outcome of a condition
// node, the distance conditions, and the start-then-wait latch of the
// AttackAction and BlockAction nodes.

module LeafRules {
  import opened BTNode

  /** A blackboard entry that may be missing (a null controller or target). */
  datatype Option<T> = None | Some(value: T)

  /** A condition node's result: Success when the condition holds, otherwise
      Failure, never Running. */
  function Outcome(holds: bool): (r: NodeState)
    ensures r != Running
    ensures r == Success <==> holds
  {
    if holds then Success else Failure
  }

  /** IsInRange: `distance` is None when the target is missing. */
  function IsInRange(distance: Option<real>, range: real): (r: NodeState)
    ensures r != Running
    ensures distance.None? ==> r == Failure
    ensures distance.Some? ==> (r == Success <==> distance.value <= range)
  {
    Outcome(distance.Some? && distance.value <= range)
  }

  /** IsFarFromTarget: `distance` is None when the agent or the target is
      missing. */
  function IsFarFromTarget(distance: Option<real>, limit: real): (r: NodeState)
    ensures r != Running
    ensures distance.None? ==> r == Failure
    ensures distance.Some? ==> (r == Success <==> distance.value > limit)
  {
    Outcome(distance.Some? && distance.value > limit)
  }

  /** RandomChance with the draw `draw` of Random.value, which lies in
      [0, 1]: a probability of 1 or more always succeeds, a negative one
      never does. */
  function RandomChance(draw: real, probability: real): (r: NodeState)
    ensures r != Running
    ensures r == Success <==> draw <= probability
    ensures 0.0 <= draw <= 1.0 && probability >= 1.0 ==> r == Success
    ensures 0.0 <= draw <= 1.0 && probability < 0.0 ==> r == Failure
  {
    Outcome(draw <= probability)
  }

  /** With both ends present, IsFarFromTarget is the exact complement of
      IsInRange at the same distance; with one missing both fail. */
  lemma FarIsComplementOfInRange(distance: Option<real>, d: real)
    ensures distance.Some? ==> (IsFarFromTarget(distance, d) == Success <==> IsInRange(distance, d) == Failure)
    ensures distance.None? ==> IsFarFromTarget(distance, d) == Failure && IsInRange(distance, d) == Failure
  {
  }

  // ----- the action latch -----

  /** What an AttackAction or BlockAction tick does, from its latch, the
      controller's gate (CanAttack or CanBlock) and whether the controller
      is still busy with the action (IsAttacking or IsBlocking). */
  datatype Decision = Start | Refuse | Wait | Finish

  function Decide(started: bool, gate: bool, busy: bool): (r: Decision)
    ensures r == Start <==> !started && gate
    ensures r == Refuse <==> !started && !gate
    ensures r == Wait <==> started && busy
    ensures r == Finish <==> started && !busy
  {
    if !started then (if gate then Start else Refuse)
    else if busy then Wait else Finish
  }

  /** The node's result for each decision. */
  function LatchResult(d: Decision): NodeState
  {
    match d
    case Start => Running
    case Refuse => Failure
    case Wait => Running
    case Finish => Success
  }

  /** The latch after each decision. */
  function Latched(d: Decision): bool
  {
    d == Start || d == Wait
  }

  /** A started action never fails; a failing tick leaves the latch clear and
      only happens when the gate is closed. */
  lemma LatchFailsOnlyBeforeStart(started: bool, gate: bool, busy: bool)
    ensures started ==> LatchResult(Decide(started, gate, busy)) != Failure
    ensures LatchResult(Decide(started, gate, busy)) == Failure <==> !started && !gate
    ensures LatchResult(Decide(started, gate, busy)) == Failure ==> !Latched(Decide(started, gate, busy))
  {
  }

  /** The decisions of successive ticks, `obs[i]` giving the gate and the busy
      flag the i-th tick sees. */
  function Decisions(started: bool, obs: seq<(bool, bool)>): (ds: seq<Decision>)
    ensures |ds| == |obs|
    decreases |obs|
  {
    if obs == [] then []
    else
      var d := Decide(started, obs[0].0, obs[0].1);
      [d] + Decisions(Latched(d), obs[1..])
  }

  /** Tick `j` started the action and every tick up to `k` only waited. */
  predicate StartedAt(ds: seq<Decision>, j: int, k: int)
  {
    0 <= j < k <= |ds| && ds[j] == Start && forall i :: j < i < k ==> ds[i] == Wait
  }

  /** Every Success is reported after the tick that started the action, with
      only Running ticks in between, unless the latch was already set before
      the first tick. */
  lemma {:induction false} EverySuccessFollowsAStart(started: bool, obs: seq<(bool, bool)>, k: int)
    requires 0 <= k < |obs| && Decisions(started, obs)[k] == Finish
    ensures (exists j :: StartedAt(Decisions(started, obs), j, k))
            || (started && forall i :: 0 <= i < k ==> Decisions(started, obs)[i] == Wait)
    decreases |obs|
  {
    var ds := Decisions(started, obs);
    var d := Decide(started, obs[0].0, obs[0].1);
    var rest := Decisions(Latched(d), obs[1..]);
    assert ds == [d] + rest;
    if k > 0 {
      EverySuccessFollowsAStart(Latched(d), obs[1..], k - 1);
      var k' := k - 1;
      if exists j' :: StartedAt(rest, j', k') {
        var j' :| StartedAt(rest, j', k');
        assert StartedAt(ds, j' + 1, k);
      } else if d == Start {
        assert StartedAt(ds, 0, k);
      } else {
        assert d == Wait;
        assert forall i :: 0 <= i < k ==> ds[i] == Wait by {
          forall i | 0 <= i < k ensures ds[i] == Wait {
            if i > 0 {
              assert ds[i] == rest[i - 1];
            }
          }
        }
      }
    }
  }
}
