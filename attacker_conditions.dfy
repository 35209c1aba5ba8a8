// The attacker tree's condition nodes as functions of what they read: the
// attacker's data (None when the blackboard has no controller), and for the
// nodes that look at the opponent the defender component found on the
// target (None when there is no target or no such component).

module AttackerConditions {
  import opened BTNode
  import opened LeafRules
  import opened CombatCommon
  import R = AttackerRules
  import DR = DefenderRules

  /** IsLowHP: the HP percentage at most `threshold`, which is the HP at
      most `threshold` of MaxHP; no controller fails. */
  function IsLowHP(c: Option<R.AttackerData>, threshold: real): (r: NodeState)
    ensures r != Running
    ensures r == Success <==> c.Some? && c.value.hp <= threshold * R.MaxHP
  {
    if c.Some? then
      var f := HPFraction(c.value.hp, R.MaxHP);
      assert f * R.MaxHP == c.value.hp;
      Outcome(f <= threshold)
    else Failure
  }

  /** CanAttack: a living, idle controller whose remaining cooldown is zero. */
  function CanAttack(c: Option<R.AttackerData>, now: real): (r: NodeState)
    ensures r != Running
    ensures r == Success <==> c.Some? && !R.IsDead(c.value) && !R.Busy(c.value)
                              && CooldownRemaining(R.AttackCooldown, c.value.stamps.lastAttackTime, now) == 0.0
  {
    Outcome(c.Some? && R.CanAttack(c.value, now))
  }

  /** CanBlock: a living, idle controller whose remaining cooldown is zero. */
  function CanBlock(c: Option<R.AttackerData>, now: real): (r: NodeState)
    ensures r != Running
    ensures r == Success <==> c.Some? && !R.IsDead(c.value) && !R.Busy(c.value)
                              && CooldownRemaining(R.BlockCooldown, c.value.stamps.lastBlockTime, now) == 0.0
  {
    Outcome(c.Some? && R.CanBlock(c.value, now))
  }

  /** CanDodge: a living, idle controller whose remaining cooldown is zero. */
  function CanDodge(c: Option<R.AttackerData>, now: real): (r: NodeState)
    ensures r != Running
    ensures r == Success <==> c.Some? && !R.IsDead(c.value) && !R.Busy(c.value)
                              && CooldownRemaining(R.DodgeCooldown, c.value.stamps.lastDodgeTime, now) == 0.0
  {
    Outcome(c.Some? && R.CanDodge(c.value, now))
  }

  function IsTargetBlocking(opponent: Option<DR.DefenderData>): (r: NodeState)
    ensures r != Running
    ensures opponent.None? ==> r == Failure
    ensures opponent.Some? ==> (r == Success <==> opponent.value.flags.isBlocking)
  {
    Outcome(opponent.Some? && opponent.value.flags.isBlocking)
  }

  function IsTargetAttacking(opponent: Option<DR.DefenderData>): (r: NodeState)
    ensures r != Running
    ensures opponent.None? ==> r == Failure
    ensures opponent.Some? ==> (r == Success <==> opponent.value.flags.isAttacking)
  {
    Outcome(opponent.Some? && opponent.value.flags.isAttacking)
  }

  /** IsStunned reads the controller's IsStunned at time `now`. */
  function IsStunned(c: Option<R.AttackerData>, now: real): (r: NodeState)
    ensures r != Running
    ensures r == Success <==> c.Some? && c.value.stun.isStunned && now < c.value.stun.stunEndTime
  {
    Outcome(c.Some? && R.IsStunned(c.value, now))
  }

  function IsDead(c: Option<R.AttackerData>): (r: NodeState)
    ensures r != Running
    ensures r == Success <==> c.Some? && c.value.hp <= 0.0
  {
    Outcome(c.Some? && R.IsDead(c.value))
  }

  /** After a stun of `duration` at `t0`, IsStunned succeeds exactly before
      t0 + duration. */
  lemma IsStunnedAfterStun(a: R.AttackerData, t0: real, duration: real, now: real)
    ensures IsStunned(Some(R.Stun(a, t0, duration)), now) == Success <==> now < t0 + duration
  {
  }

  /** A dead attacker passes no action gate. */
  lemma DeadClosesEveryGate(c: Option<R.AttackerData>, now: real)
    ensures IsDead(c) == Success ==>
              CanAttack(c, now) == Failure && CanBlock(c, now) == Failure && CanDodge(c, now) == Failure
  {
  }

  /** The controller's gates do not test the stun: a stun leaves an open
      gate open, so only a tree that checks IsStunned first keeps a stunned
      attacker from acting. */
  lemma StunLeavesGatesOpen(a: R.AttackerData, now: real, duration: real)
    ensures CanAttack(Some(a), now) == Success ==> CanAttack(Some(R.Stun(a, now, duration)), now) == Success
    ensures CanBlock(Some(a), now) == Success ==> CanBlock(Some(R.Stun(a, now, duration)), now) == Success
    ensures CanDodge(Some(a), now) == Success ==> CanDodge(Some(R.Stun(a, now, duration)), now) == Success
  {
  }

  /** When IsTargetBlocking succeeds on a coherent, living defender, a sword
      (not a kick) that reaches it stuns the attacker instead of hurting the
      defender. */
  lemma BlockingTargetCounters(opponent: Option<DR.DefenderData>, damage: real)
    requires opponent.Some? && DR.Coherent(opponent.value) && !DR.IsDead(opponent.value)
    requires IsTargetBlocking(opponent) == Success
    ensures DR.TakeDamage(opponent.value, damage, false).1
    ensures DR.TakeDamage(opponent.value, damage, false).0.hp == opponent.value.hp
  {
    DR.BlockCounters(opponent.value, damage);
  }
}
