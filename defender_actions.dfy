// The defender tree's action nodes. Each node reads the controller (null when
// the blackboard has none) and what it needs of the target: `hasTarget` when
// only its presence matters, otherwise `distance` (None when the agent or the
// target is missing) and `heading`, the normalised vector from the agent to
// the target as Vector3.normalized yields it. Every method is stated with the
// DefenderRules transition it makes the controller perform.

module DefenderActions {
  import opened BTNode
  import opened LeafRules
  import opened Directions
  import opened CombatCommon
  import R = DefenderRules
  import opened DefenderControllerModel

  /** Everything a controller method may change. */
  function Parts(c: DefenderController?): set<object>
  {
    if c == null then {}
    else {c, c.combatStats} + (if c.swordHitbox == null then {} else {c.swordHitbox})
  }

  class AttackAction {
    var state: NodeState
    var attackStarted: bool

    constructor ()
      ensures state == Running && !attackStarted
    {
      state, attackStarted := Running, false;
    }

    /** One tick at time `now`, following the action latch over CanAttack and
        IsAttacking; the turn toward the target is not modelled. */
    method Evaluate(controller: DefenderController?, hasTarget: bool, now: real) returns (r: NodeState)
      modifies this, Parts(controller)
      ensures state == r
      ensures controller == null || !hasTarget ==> r == Failure && attackStarted == old(attackStarted)
      ensures controller != null && !hasTarget ==> controller.View() == old(controller.View())
      ensures controller != null && hasTarget ==>
                var d := old(controller.View());
                var decision := Decide(old(attackStarted), R.CanAttack(d, now), d.flags.isAttacking);
                r == LatchResult(decision) && attackStarted == Latched(decision)
                && controller.View() == if decision == Start then R.Attack(d, now).1 else d
    {
      if controller == null || !hasTarget {
        state := Failure;
        return state;
      }
      if !attackStarted {
        if R.CanAttack(controller.View(), now) {
          var _ := controller.Attack(now);
          attackStarted := true;
          state := Running;
        } else {
          state := Failure;
        }
      } else if controller.isAttacking {
        state := Running;
      } else {
        attackStarted := false;
        state := Success;
      }
      r := state;
    }

    method Reset()
      modifies this
      ensures state == Running && !attackStarted
    {
      attackStarted := false;
      state := Running;
    }
  }

  class BlockAction {
    var state: NodeState
    var blockStarted: bool

    constructor ()
      ensures state == Running && !blockStarted
    {
      state, blockStarted := Running, false;
    }

    /** One tick at time `now`, following the action latch over CanBlock and
        IsBlocking. */
    method Evaluate(controller: DefenderController?, now: real) returns (r: NodeState)
      modifies this, Parts(controller)
      ensures state == r
      ensures controller == null ==> r == Failure && blockStarted == old(blockStarted)
      ensures controller != null ==>
                var d := old(controller.View());
                var decision := Decide(old(blockStarted), R.CanBlock(d, now), d.flags.isBlocking);
                r == LatchResult(decision) && blockStarted == Latched(decision)
                && controller.View() == if decision == Start then R.Block(d, now).1 else d
    {
      if controller == null {
        state := Failure;
        return state;
      }
      if !blockStarted {
        if R.CanBlock(controller.View(), now) {
          var _ := controller.Block(now);
          blockStarted := true;
          state := Running;
        } else {
          state := Failure;
        }
      } else if controller.isBlocking {
        state := Running;
      } else {
        blockStarted := false;
        state := Success;
      }
      r := state;
    }

    method Reset()
      modifies this
      ensures state == Running && !blockStarted
    {
      blockStarted := false;
      state := Running;
    }
  }

  /** A started attack action waits exactly while the attack coroutine runs,
      on a living coherent defender; a dead one that was cut short mid-swing
      keeps IsAttacking, so the node stays Running until ResetHP. */
  lemma AttackActionWaitsForSwing(d: R.DefenderData, gate: bool)
    requires R.Coherent(d)
    ensures !R.IsDead(d) ==> (Decide(true, gate, d.flags.isAttacking) == Wait <==> d.coroutine.AttackWait?)
    ensures R.IsDead(d) && d.flags.isAttacking ==> Decide(true, gate, d.flags.isAttacking) == Wait
  {
  }

  /** The gate the latch tests is the one Attack and Block test, so a Start
      decision always starts the controller's action. */
  lemma StartStartsTheAction(d: R.DefenderData, started: bool, now: real)
    ensures Decide(started, R.CanAttack(d, now), d.flags.isAttacking) == Start ==>
              R.Attack(d, now).0 && R.Attack(d, now).1.flags.isAttacking
    ensures Decide(started, R.CanBlock(d, now), d.flags.isBlocking) == Start ==>
              R.Block(d, now).0 && R.Block(d, now).1.flags.isBlocking
  {
  }

  /** DodgeAway at time `now` with frame time `dt`: Success exactly when the
      dodge starts. The dodge direction handed to Dodge is the axis closest
      to the way away from the target; it only steers the dodge movement,
      which is not modelled, so it is returned rather than applied. */
  method DodgeAway(controller: DefenderController?, distance: Option<real>, heading: Vec2, now: real, dt: real)
      returns (r: NodeState, dodgeDirection: Vec2)
    modifies Parts(controller)
    ensures controller == null || distance.None? ==> r == Failure
    ensures controller != null && distance.Some? ==> dodgeDirection == Closest4Direction(Scale(heading, -1.0))
    ensures controller != null && distance.None? ==> controller.View() == old(controller.View())
    ensures controller != null && distance.Some? ==>
              controller.View() == R.Dodge(old(controller.View()), now, dt).1
              && r == Outcome(R.Dodge(old(controller.View()), now, dt).0)
  {
    dodgeDirection := Zero;
    if controller == null || distance.None? {
      return Failure, dodgeDirection;
    }
    dodgeDirection := Closest4Direction(Scale(heading, -1.0));
    var success := controller.Dodge(now, dt);
    r := if success then Success else Failure;
  }

  class CircleTarget {
    var currentDirection: nat

    constructor ()
      ensures currentDirection == 0
    {
      currentDirection := 0;
    }

    /** One tick: move along the current direction and switch to the other. */
    method Evaluate(controller: DefenderController?) returns (r: NodeState)
      requires currentDirection < 2
      modifies this, Parts(controller)
      ensures currentDirection < 2
      ensures controller == null ==> r == Failure && currentDirection == old(currentDirection)
      ensures controller != null ==>
                r == Running && currentDirection == (old(currentDirection) + 1) % 2
                && controller.View() == R.Move(old(controller.View()), CircleDirection(old(currentDirection)))
    {
      if controller == null {
        return Failure;
      }
      var moveDir := CircleDirection(currentDirection);
      currentDirection := (currentDirection + 1) % 2;
      controller.Move(moveDir);
      r := Running;
    }
  }

  class MoveToTarget {
    var state: NodeState
    const stopDistance: real

    constructor (stopDistance: real)
      ensures this.stopDistance == stopDistance && state == Running
    {
      this.stopDistance := stopDistance;
      state := Running;
    }

    /** One tick: stop and succeed within the stop distance, otherwise keep
        moving toward the target. */
    method Evaluate(controller: DefenderController?, distance: Option<real>, heading: Vec2)
        returns (r: NodeState)
      modifies Parts(controller)
      ensures controller == null || distance.None? ==> r == Failure
      ensures controller != null && distance.None? ==> controller.View() == old(controller.View())
      ensures controller != null && distance.Some? ==>
                if distance.value <= stopDistance
                then r == Success && controller.View() == R.Stop(old(controller.View()))
                else r == Running && controller.View() == R.Move(old(controller.View()), heading)
    {
      if controller == null || distance.None? {
        return Failure;
      }
      if distance.value <= stopDistance {
        controller.Stop();
        return Success;
      }
      controller.Move(heading);
      r := Running;
    }

    /** Reset stops the controller, if any, and the node is Running again. */
    method Reset(controller: DefenderController?)
      modifies this, Parts(controller)
      ensures state == Running
      ensures controller != null ==> controller.View() == R.Stop(old(controller.View()))
    {
      if controller != null {
        controller.Stop();
      }
      state := Running;
    }
  }

  class PatrolOrWait {
    const idealDistance: real
    const deadZone: real
    const moveSpeed: real

    constructor (idealDistance: real, deadZone: real, moveSpeed: real)
      ensures this.idealDistance == idealDistance && this.deadZone == deadZone
      ensures this.moveSpeed == moveSpeed
    {
      this.idealDistance, this.deadZone, this.moveSpeed := idealDistance, deadZone, moveSpeed;
    }

    /** One tick: stop and succeed inside the dead zone around the ideal
        distance; otherwise approach when too far, back off when too close,
        passing the heading scaled by the patrol speed. */
    method Evaluate(controller: DefenderController?, distance: Option<real>, heading: Vec2)
        returns (r: NodeState)
      modifies Parts(controller)
      ensures controller == null || distance.None? ==> r == Failure
      ensures controller != null && distance.None? ==> controller.View() == old(controller.View())
      ensures controller != null && distance.Some? ==>
                var gap := distance.value - idealDistance;
                if Abs(gap) <= deadZone
                then r == Success && controller.View() == R.Stop(old(controller.View()))
                else r == Running && controller.View() ==
                       R.Move(old(controller.View()), Scale(heading, if gap > 0.0 then moveSpeed else -moveSpeed))
    {
      if controller == null || distance.None? {
        return Failure;
      }
      var gap := distance.value - idealDistance;
      if Abs(gap) <= deadZone {
        controller.Stop();
        return Success;
      }
      var direction := if gap > 0.0 then heading else Scale(heading, -1.0);
      assert Scale(direction, moveSpeed) == Scale(heading, if gap > 0.0 then moveSpeed else -moveSpeed);
      controller.Move(Scale(direction, moveSpeed));
      r := Running;
    }
  }

  /** The patrol speed has no effect: Move normalises what it is given, so
      a unit heading scaled by any speed above Unity's normalisation
      threshold moves the defender exactly as the unscaled heading would. */
  lemma PatrolSpeedIgnored(d: R.DefenderData, heading: Vec2, speed: real)
    requires heading.x * heading.x + heading.z * heading.z == 1.0
    requires speed > NormaliseEpsilon
    ensures R.Move(d, Scale(heading, speed)) == R.Move(d, heading)
  {
    Closest4ScaleInvariant(heading, speed);
    var s := Scale(heading, speed);
    assert s.x * s.x + s.z * s.z == speed * speed * (heading.x * heading.x + heading.z * heading.z);
    assert speed * speed > NormaliseEpsilon * NormaliseEpsilon;
  }

  class TacticalRetreatAction {
    var isRetreating: bool
    const retreatDistance: real

    constructor (retreatDistance: real)
      ensures this.retreatDistance == retreatDistance && !isRetreating
    {
      this.retreatDistance := retreatDistance;
      isRetreating := false;
    }

    /** One tick: stop and succeed once a full unit beyond the retreat
        distance, otherwise step along the axis closest to straight away. */
    method Evaluate(controller: DefenderController?, distance: Option<real>, heading: Vec2)
        returns (r: NodeState)
      modifies this, Parts(controller)
      ensures controller == null || distance.None? ==> r == Failure && isRetreating == old(isRetreating)
      ensures controller != null && distance.None? ==> controller.View() == old(controller.View())
      ensures controller != null && distance.Some? ==>
                if distance.value >= retreatDistance + 1.0
                then r == Success && !isRetreating && controller.View() == R.Stop(old(controller.View()))
                else r == Running && isRetreating
                     && controller.View() == R.Move(old(controller.View()), Closest4Direction(Scale(heading, -1.0)))
    {
      if controller == null || distance.None? {
        return Failure;
      }
      if distance.value >= retreatDistance + 1.0 {
        controller.Stop();
        isRetreating := false;
        return Success;
      }
      controller.Move(Closest4Direction(Scale(heading, -1.0)));
      isRetreating := true;
      r := Running;
    }

    method Reset()
      modifies this
      ensures !isRetreating
    {
      isRetreating := false;
    }
  }

  /** A retreating defender that is free to move never moves toward the
      target. */
  lemma RetreatMovesAway(d: R.DefenderData, heading: Vec2)
    requires !R.Busy(d)
    ensures Dot(R.Move(d, Closest4Direction(Scale(heading, -1.0))).velocity, heading) <= 0.0
  {
    var axis := Closest4Direction(Scale(heading, -1.0));
    AwayAxisNeverToward(heading);
    assert Normalisable(axis, NormaliseEpsilon);
    assert Dot(Scale(axis, R.MoveSpeed), heading) == R.MoveSpeed * Dot(axis, heading);
  }

  // ----- CounterAfterBlock -----

  /** The two latches of CounterAfterBlock. */
  datatype CounterLatch = CounterLatch(blockCompleted: bool, counterAttackStarted: bool)

  /** One CounterAfterBlock tick from what the controller shows: the result,
      the new latches, and whether the tick starts an attack. */
  function CounterStep(l: CounterLatch, justFinishedBlocking: bool, canAttack: bool, attacking: bool)
    : (NodeState, CounterLatch, bool)
  {
    var completed := l.blockCompleted || justFinishedBlocking;
    if completed && !l.counterAttackStarted then
      (if canAttack then (Running, CounterLatch(completed, true), true)
       else (Failure, CounterLatch(completed, false), false))
    else if l.counterAttackStarted then
      (if attacking then (Running, l.(blockCompleted := completed), false)
       else (Success, CounterLatch(false, false), false))
    else (Failure, l, false)
  }

  /** A counter-attack starts only once a block has finished, in this tick
      or an earlier one, and only when the attack gate is open. */
  lemma CounterNeedsAFinishedBlock(l: CounterLatch, jfb: bool, canAttack: bool, attacking: bool)
    ensures CounterStep(l, jfb, canAttack, attacking).2 ==>
              (l.blockCompleted || jfb) && canAttack && !l.counterAttackStarted
  {
  }

  /** A failed counter keeps the finished block on record, so a later tick
      counters as soon as the gate opens, without a new block. */
  lemma FinishedBlockOutlivesFailure(l: CounterLatch, jfb: bool, attacking: bool, later: bool)
    requires l.blockCompleted || jfb
    requires !l.counterAttackStarted
    ensures var (r, l1, _) := CounterStep(l, jfb, false, attacking);
            r == Failure && l1.blockCompleted
            && CounterStep(l1, later, true, attacking).2
  {
  }

  /** Success is reported only for a counter-attack that was started and has
      ended, and it clears both latches. */
  lemma CounterSucceedsAfterItsAttack(l: CounterLatch, jfb: bool, canAttack: bool, attacking: bool)
    ensures CounterStep(l, jfb, canAttack, attacking).0 == Success ==>
              l.counterAttackStarted && !attacking && CounterStep(l, jfb, canAttack, attacking).1 == CounterLatch(false, false)
  {
  }

  class CounterAfterBlock {
    var blockCompleted: bool
    var counterAttackStarted: bool

    constructor ()
      ensures !blockCompleted && !counterAttackStarted
    {
      blockCompleted, counterAttackStarted := false, false;
    }

    method Evaluate(controller: DefenderController?, hasTarget: bool, now: real) returns (r: NodeState)
      modifies this, Parts(controller)
      ensures controller == null || !hasTarget ==>
                r == Failure && blockCompleted == old(blockCompleted)
                && counterAttackStarted == old(counterAttackStarted)
      ensures controller != null && !hasTarget ==> controller.View() == old(controller.View())
      ensures controller != null && hasTarget ==>
                var d := old(controller.View());
                var (res, l, attack) := CounterStep(CounterLatch(old(blockCompleted), old(counterAttackStarted)),
                                                    d.justFinishedBlocking, R.CanAttack(d, now), d.flags.isAttacking);
                r == res && CounterLatch(blockCompleted, counterAttackStarted) == l
                && controller.View() == if attack then R.Attack(d, now).1 else d
    {
      if controller == null || !hasTarget {
        return Failure;
      }
      if controller.justFinishedBlocking && !blockCompleted {
        blockCompleted := true;
      }
      if blockCompleted && !counterAttackStarted {
        if R.CanAttack(controller.View(), now) {
          var _ := controller.Attack(now);
          counterAttackStarted := true;
          return Running;
        }
        return Failure;
      }
      if counterAttackStarted {
        if controller.isAttacking {
          return Running;
        }
        blockCompleted := false;
        counterAttackStarted := false;
        return Success;
      }
      r := Failure;
    }

    method Reset()
      modifies this
      ensures !blockCompleted && !counterAttackStarted
    {
      blockCompleted, counterAttackStarted := false, false;
    }
  }
}
