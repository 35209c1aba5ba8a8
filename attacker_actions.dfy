// The attacker tree's action nodes, over the same inputs as the defender's:
// the controller (null when the blackboard has none), whether a target is
// set, its distance (None when the agent or the target is missing), the
// heading toward it, and `facing`, the yaw the controller turns to before an
// attack.

module AttackerActions {
  import opened BTNode
  import opened LeafRules
  import opened Directions
  import R = AttackerRules
  import opened AttackerControllerModel

  /** Everything a controller method may change. */
  function Parts(c: AttackerController?): set<object>
  {
    if c == null then {} else {c, c.combatStats} + c.Boxes()
  }

  // ----- The dot-product quantiser -----

  /** The candidate directions in the order the quantiser scans them. */
  const Axes: seq<Vec2> := [Forward, Back, Left, Right]

  /** `r` is the first of the axes with the largest dot product with `v`:
      no axis scores higher, and every axis scanned before it scores less. */
  predicate IsFirstMaximal(v: Vec2, r: Vec2)
  {
    exists k :: 0 <= k < |Axes| && Axes[k] == r
      && (forall j :: 0 <= j < |Axes| ==> Dot(v, Axes[j]) <= Dot(v, r))
      && (forall j :: 0 <= j < k ==> Dot(v, Axes[j]) < Dot(v, r))
  }

  /** GetClosest4Direction of the attacker's DodgeAway: a scan keeping the
      first axis whose dot product beats the best so far. */
  method GetClosest4Direction(direction: Vec2) returns (closest: Vec2)
    ensures IsFirstMaximal(direction, closest)
  {
    var directions := new Vec2[4][Forward, Back, Left, Right];
    closest := directions[0];
    var maxDot := Dot(direction, closest);
    ghost var k := 0;
    for i := 0 to 4
      invariant directions[..] == Axes
      invariant 0 <= k < 4 && closest == Axes[k] && maxDot == Dot(direction, closest)
      invariant forall j :: 0 <= j < i ==> Dot(direction, Axes[j]) <= maxDot
      invariant forall j :: 0 <= j < k ==> Dot(direction, Axes[j]) < maxDot
    {
      var dot := Dot(direction, directions[i]);
      if dot > maxDot {
        maxDot := dot;
        closest := directions[i];
        k := i;
      }
    }
  }

  /** The scan picks the same axis as the sign-and-magnitude quantiser of the
      defender for every non-zero vector; for the zero vector every axis
      scores 0, so the scan keeps Forward where the other yields Back. */
  lemma FirstMaximalAgreesWithClosest4(v: Vec2, r: Vec2)
    requires IsFirstMaximal(v, r)
    ensures v != Zero ==> r == Closest4Direction(v)
    ensures v == Zero ==> r == Forward && Closest4Direction(v) == Back
  {
    ScanOutcome(v, r);
  }

  /** What the scan's choice says about the components of `v`, in the order
      the axes are tried. */
  lemma ScanOutcome(v: Vec2, r: Vec2)
    requires IsFirstMaximal(v, r)
    ensures || (r == Forward && v.z >= v.x && v.z >= -v.x && v.z >= 0.0)
            || (r == Back && -v.z >= v.x && -v.z >= -v.x && v.z < 0.0)
            || (r == Left && -v.x > v.z && -v.x > -v.z && v.x <= 0.0)
            || (r == Right && v.x > v.z && v.x > -v.z && v.x > 0.0)
  {
    var k :| 0 <= k < |Axes| && Axes[k] == r
      && (forall j :: 0 <= j < |Axes| ==> Dot(v, Axes[j]) <= Dot(v, r))
      && (forall j :: 0 <= j < k ==> Dot(v, Axes[j]) < Dot(v, r));
    assert Dot(v, Forward) == v.z && Dot(v, Back) == -v.z;
    assert Dot(v, Left) == -v.x && Dot(v, Right) == v.x;
    assert Dot(v, Axes[0]) <= Dot(v, r) && Dot(v, Axes[1]) <= Dot(v, r);
    assert Dot(v, Axes[2]) <= Dot(v, r) && Dot(v, Axes[3]) <= Dot(v, r);
  }

  /** Exactly one axis is first-maximal for each vector. */
  lemma FirstMaximalUnique(v: Vec2, r1: Vec2, r2: Vec2)
    requires IsFirstMaximal(v, r1) && IsFirstMaximal(v, r2)
    ensures r1 == r2
  {
    var k1 :| 0 <= k1 < |Axes| && Axes[k1] == r1
      && (forall j :: 0 <= j < |Axes| ==> Dot(v, Axes[j]) <= Dot(v, r1))
      && (forall j :: 0 <= j < k1 ==> Dot(v, Axes[j]) < Dot(v, r1));
    var k2 :| 0 <= k2 < |Axes| && Axes[k2] == r2
      && (forall j :: 0 <= j < |Axes| ==> Dot(v, Axes[j]) <= Dot(v, r2))
      && (forall j :: 0 <= j < k2 ==> Dot(v, Axes[j]) < Dot(v, r2));
    assert Dot(v, Axes[k1]) <= Dot(v, r2) && Dot(v, Axes[k2]) <= Dot(v, r1);
  }

  // ----- Latched actions -----

  class AttackAction {
    var state: NodeState
    var attackStarted: bool

    constructor ()
      ensures state == Running && !attackStarted
    {
      state, attackStarted := Running, false;
    }

    /** One tick at time `now`, following the action latch over CanAttack and
        IsAttacking. */
    method Evaluate(controller: AttackerController?, hasTarget: bool, now: real, facing: real)
        returns (r: NodeState)
      requires controller != null ==> controller.Valid()
      modifies this, Parts(controller)
      ensures state == r
      ensures controller == null || !hasTarget ==> r == Failure && attackStarted == old(attackStarted)
      ensures controller != null && !hasTarget ==> controller.View() == old(controller.View())
      ensures controller != null && hasTarget ==>
                var a := old(controller.View());
                var decision := Decide(old(attackStarted), R.CanAttack(a, now), a.flags.isAttacking);
                r == LatchResult(decision) && attackStarted == Latched(decision)
                && controller.View() == if decision == Start then R.Attack(a, now, facing).1 else a
    {
      if controller == null || !hasTarget {
        state := Failure;
        return state;
      }
      if !attackStarted {
        if R.CanAttack(controller.View(), now) {
          var _ := controller.Attack(now, facing);
          attackStarted := true;
          state := Running;
        } else {
          state := Failure;
        }
      } else if controller.isAttacking {
        state := Running;
      } else {
        attackStarted := false;
        state := Success;
      }
      r := state;
    }

    method Reset()
      modifies this
      ensures state == Running && !attackStarted
    {
      attackStarted := false;
      state := Running;
    }
  }

  class BlockAction {
    var state: NodeState
    var blockStarted: bool

    constructor ()
      ensures state == Running && !blockStarted
    {
      state, blockStarted := Running, false;
    }

    /** One tick at time `now`, following the action latch over CanBlock and
        IsBlocking. */
    method Evaluate(controller: AttackerController?, now: real) returns (r: NodeState)
      modifies this, Parts(controller)
      ensures state == r
      ensures controller == null ==> r == Failure && blockStarted == old(blockStarted)
      ensures controller != null ==>
                var a := old(controller.View());
                var decision := Decide(old(blockStarted), R.CanBlock(a, now), a.flags.isBlocking);
                r == LatchResult(decision) && blockStarted == Latched(decision)
                && controller.View() == if decision == Start then R.Block(a, now).1 else a
    {
      if controller == null {
        state := Failure;
        return state;
      }
      if !blockStarted {
        if R.CanBlock(controller.View(), now) {
          var _ := controller.Block(now);
          blockStarted := true;
          state := Running;
        } else {
          state := Failure;
        }
      } else if controller.isBlocking {
        state := Running;
      } else {
        blockStarted := false;
        state := Success;
      }
      r := state;
    }

    method Reset()
      modifies this
      ensures state == Running && !blockStarted
    {
      blockStarted := false;
      state := Running;
    }
  }

  /** A started block action waits exactly while the block coroutine runs on
      a coherent attacker, and reports Success once BlockEnds has run. */
  lemma BlockActionWaitsForGuard(a: R.AttackerData, gate: bool)
    requires R.Coherent(a)
    ensures Decide(true, gate, a.flags.isBlocking) == Wait <==> a.flags.isBlocking
    ensures a.coroutine.BlockWait? ==> Decide(true, gate, a.flags.isBlocking) == Wait
  {
  }

  /** The gate the latch tests is the one Attack and Block test, so a Start
      decision always starts the controller's action. */
  lemma StartStartsTheAction(a: R.AttackerData, started: bool, now: real, facing: real)
    ensures Decide(started, R.CanAttack(a, now), a.flags.isAttacking) == Start ==>
              R.Attack(a, now, facing).0 && R.Attack(a, now, facing).1.flags.isAttacking
    ensures Decide(started, R.CanBlock(a, now), a.flags.isBlocking) == Start ==>
              R.Block(a, now).0 && R.Block(a, now).1.flags.isBlocking
  {
  }

  /** DodgeAway at time `now` with frame time `dt`: Success exactly when the
      dodge starts. The direction handed to Dodge is the first maximal axis
      for the way away from the target; it only steers the dodge movement,
      which is not modelled, so it is returned rather than applied. */
  method DodgeAway(controller: AttackerController?, distance: Option<real>, heading: Vec2, now: real, dt: real)
      returns (r: NodeState, dodgeDirection: Vec2)
    modifies Parts(controller)
    ensures controller == null || distance.None? ==> r == Failure
    ensures controller != null && distance.None? ==> controller.View() == old(controller.View())
    ensures controller != null && distance.Some? ==>
              IsFirstMaximal(Scale(heading, -1.0), dodgeDirection)
              && controller.View() == R.Dodge(old(controller.View()), now, dt).1
              && r == Outcome(R.Dodge(old(controller.View()), now, dt).0)
  {
    dodgeDirection := Zero;
    if controller == null || distance.None? {
      return Failure, dodgeDirection;
    }
    dodgeDirection := GetClosest4Direction(Scale(heading, -1.0));
    var success := controller.Dodge(now, dt);
    r := if success then Success else Failure;
  }

  // ----- Movement -----

  class CircleTarget {
    var currentDirection: nat

    constructor ()
      ensures currentDirection == 0
    {
      currentDirection := 0;
    }

    /** One tick: move along the current direction and switch to the other. */
    method Evaluate(controller: AttackerController?) returns (r: NodeState)
      requires currentDirection < 2
      modifies this, Parts(controller)
      ensures currentDirection < 2
      ensures controller == null ==> r == Failure && currentDirection == old(currentDirection)
      ensures controller != null ==>
                r == Running && currentDirection == (old(currentDirection) + 1) % 2
                && controller.View() == R.Move(old(controller.View()), CircleDirection(old(currentDirection)))
    {
      if controller == null {
        return Failure;
      }
      var moveDir := CircleDirection(currentDirection);
      currentDirection := (currentDirection + 1) % 2;
      controller.Move(moveDir);
      r := Running;
    }
  }

  /** The attacker's MoveToTarget stops within one unit of the target. */
  const StopDistance: real := 1.0

  class MoveToTarget {
    var state: NodeState

    constructor ()
      ensures state == Running
    {
      state := Running;
    }

    /** One tick: stop and succeed within the stop distance, otherwise keep
        moving toward the target. */
    method Evaluate(controller: AttackerController?, distance: Option<real>, heading: Vec2)
        returns (r: NodeState)
      modifies Parts(controller)
      ensures controller == null || distance.None? ==> r == Failure
      ensures controller != null && distance.None? ==> controller.View() == old(controller.View())
      ensures controller != null && distance.Some? ==>
                if distance.value <= StopDistance
                then r == Success && controller.View() == R.Stop(old(controller.View()))
                else r == Running && controller.View() == R.Move(old(controller.View()), heading)
    {
      if controller == null || distance.None? {
        return Failure;
      }
      if distance.value <= StopDistance {
        controller.Stop();
        return Success;
      }
      controller.Move(heading);
      r := Running;
    }

    /** Reset stops the controller, if any, and the node is Running again. */
    method Reset(controller: AttackerController?)
      modifies this, Parts(controller)
      ensures state == Running
      ensures controller != null ==> controller.View() == R.Stop(old(controller.View()))
    {
      if controller != null {
        controller.Stop();
      }
      state := Running;
    }
  }

  /** Away from a target closer than the stop distance, a free attacker
      moving toward it ends up moving: MoveToTarget never reports Running
      while leaving the attacker standing, unless the heading is too short
      to normalise. */
  lemma ApproachMoves(a: R.AttackerData, heading: Vec2)
    requires !R.Busy(a) && Normalisable(heading, CombatCommon.NormaliseEpsilon)
    ensures R.IsMoving(R.Move(a, heading))
    ensures Dot(R.Move(a, heading).pose.velocity, heading) > 0.0
  {
    var axis := Closest4Direction(heading);
    Closest4IsClosest(heading, Forward);
    Closest4IsClosest(heading, Back);
    Closest4IsClosest(heading, Left);
    Closest4IsClosest(heading, Right);
    assert Dot(heading, axis) > 0.0 by {
      if Abs(heading.x) > Abs(heading.z) {
        assert Dot(heading, axis) == Abs(heading.x);
        assert heading.x != 0.0;
      } else {
        assert Dot(heading, axis) == Abs(heading.z);
        assert heading.z != 0.0 || heading.x == 0.0;
      }
    }
    assert Dot(Scale(axis, R.MoveSpeed), heading) == R.MoveSpeed * Dot(heading, axis);
  }

  // ----- CounterAttack -----

  /** CounterAttack, one tick: attack at once when the gate allows and
      report Success in the same tick; otherwise Failure. */
  method CounterAttack(controller: AttackerController?, hasTarget: bool, now: real, facing: real)
      returns (r: NodeState)
    requires controller != null ==> controller.Valid()
    modifies Parts(controller)
    ensures r != Running
    ensures controller == null || !hasTarget ==> r == Failure
    ensures controller != null && !hasTarget ==> controller.View() == old(controller.View())
    ensures controller != null && hasTarget ==>
              var a := old(controller.View());
              r == Outcome(R.CanAttack(a, now))
              && controller.View() == if R.CanAttack(a, now) then R.Attack(a, now, facing).1 else a
  {
    if controller == null || !hasTarget {
      return Failure;
    }
    if R.CanAttack(controller.View(), now) {
      var _ := controller.Attack(now, facing);
      return Success;
    }
    r := Failure;
  }

  /** A CounterAttack Success leaves the attack still swinging: unlike
      AttackAction it does not wait for the attack to end. */
  lemma CounterSucceedsMidSwing(a: R.AttackerData, now: real, facing: real)
    requires R.CanAttack(a, now)
    ensures Outcome(R.CanAttack(a, now)) == Success
    ensures R.Attack(a, now, facing).1.flags.isAttacking
    ensures R.Attack(a, now, facing).1.coroutine.AttackWait?
  {
  }
}
