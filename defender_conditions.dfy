// The defender tree's condition nodes as functions of what they read: the
// defender's data (None when the blackboard has no controller), the distance
// to the target (None when the target is missing) and, for the nodes that
// look at the opponent, the attacker component found on the target.

module DefenderConditions {
  import opened BTNode
  import opened LeafRules
  import opened CombatCommon
  import R = DefenderRules
  import AR = AttackerRules

  const CloseBlockDistance: real := 2.5

  /** IsLowHP: the HP percentage at most `threshold`, which is the HP at
      most `threshold` of MaxHP; no controller fails. */
  function IsLowHP(c: Option<R.DefenderData>, threshold: real): (r: NodeState)
    ensures r != Running
    ensures r == Success <==> c.Some? && c.value.hp <= threshold * R.MaxHP
  {
    if c.Some? then
      var f := HPFraction(c.value.hp, R.MaxHP);
      assert f * R.MaxHP == c.value.hp;
      Outcome(f <= threshold)
    else Failure
  }

  /** CanAttack: a living, idle controller whose remaining cooldown is zero. */
  function CanAttack(c: Option<R.DefenderData>, now: real): (r: NodeState)
    ensures r != Running
    ensures r == Success <==> c.Some? && !R.IsDead(c.value) && !R.Busy(c.value)
                              && CooldownRemaining(R.AttackCooldown, c.value.stamps.lastAttackTime, now) == 0.0
  {
    Outcome(c.Some? && R.CanAttack(c.value, now))
  }

  /** CanBlock: a living, idle controller whose remaining cooldown is zero. */
  function CanBlock(c: Option<R.DefenderData>, now: real): (r: NodeState)
    ensures r != Running
    ensures r == Success <==> c.Some? && !R.IsDead(c.value) && !R.Busy(c.value)
                              && CooldownRemaining(R.BlockCooldown, c.value.stamps.lastBlockTime, now) == 0.0
  {
    Outcome(c.Some? && R.CanBlock(c.value, now))
  }

  /** CanDodge: a living, idle controller whose remaining cooldown is zero. */
  function CanDodge(c: Option<R.DefenderData>, now: real): (r: NodeState)
    ensures r != Running
    ensures r == Success <==> c.Some? && !R.IsDead(c.value) && !R.Busy(c.value)
                              && CooldownRemaining(R.DodgeCooldown, c.value.stamps.lastDodgeTime, now) == 0.0
  {
    Outcome(c.Some? && R.CanDodge(c.value, now))
  }

  /** PreemptiveBlock: nothing beyond the detection range; within it, an
      attacking opponent or a distance of at most 2.5. */
  function PreemptiveBlock(distance: Option<real>, opponent: Option<AR.AttackerData>,
                           detectionRange: real): (r: NodeState)
    ensures r != Running
    ensures r == Success <==> distance.Some? && distance.value <= detectionRange
                              && ((opponent.Some? && opponent.value.flags.isAttacking) || distance.value <= CloseBlockDistance)
  {
    if distance.None? || distance.value > detectionRange then Failure
    else if opponent.Some? && opponent.value.flags.isAttacking then Success
    else Outcome(distance.value <= CloseBlockDistance)
  }

  function TacticalRetreat(distance: Option<real>, c: Option<R.DefenderData>,
                           dangerRange: real, hpThreshold: real): (r: NodeState)
    ensures r != Running
    ensures r == Success <==> distance.Some? && c.Some? && distance.value <= dangerRange
                              && c.value.hp <= hpThreshold * R.MaxHP
  {
    if distance.None? || c.None? then Failure
    else
      var f := HPFraction(c.value.hp, R.MaxHP);
      assert f * R.MaxHP == c.value.hp;
      Outcome(distance.value <= dangerRange && f <= hpThreshold)
  }

  /** CounterOpportunity: `distance` only witnesses that the target exists. */
  function CounterOpportunity(distance: Option<real>, c: Option<R.DefenderData>,
                              opponent: Option<AR.AttackerData>, now: real): (r: NodeState)
    ensures r != Running
    ensures r == Success <==> distance.Some? && c.Some? && opponent.Some? && !opponent.value.flags.isAttacking
                              && !R.IsDead(c.value) && !R.Busy(c.value)
                              && CooldownRemaining(R.AttackCooldown, c.value.stamps.lastAttackTime, now) == 0.0
  {
    if distance.None? || c.None? || opponent.None? then Failure
    else Outcome(!opponent.value.flags.isAttacking && R.CanAttack(c.value, now))
  }

  function IsDead(c: Option<R.DefenderData>): (r: NodeState)
    ensures r != Running
    ensures r == Success <==> c.Some? && c.value.hp <= 0.0
  {
    Outcome(c.Some? && R.IsDead(c.value))
  }

  /** A tactical retreat is called for exactly when the target is within the
      danger range and the HP is low, each tested as its own node would. */
  lemma TacticalRetreatIsBoth(distance: Option<real>, c: Option<R.DefenderData>,
                              dangerRange: real, hpThreshold: real)
    ensures TacticalRetreat(distance, c, dangerRange, hpThreshold) == Success <==>
            IsInRange(distance, dangerRange) == Success && IsLowHP(c, hpThreshold) == Success
  {
  }

  /** PreemptiveBlock fires only inside the detection range, and always does
      within 2.5 when the detection range reaches that far. */
  lemma PreemptiveBlockRange(distance: Option<real>, opponent: Option<AR.AttackerData>,
                             detectionRange: real)
    ensures PreemptiveBlock(distance, opponent, detectionRange) == Success ==>
              IsInRange(distance, detectionRange) == Success
    ensures detectionRange >= CloseBlockDistance && IsInRange(distance, CloseBlockDistance) == Success ==>
              PreemptiveBlock(distance, opponent, detectionRange) == Success
    ensures IsInRange(distance, detectionRange) == Success && opponent.Some? && opponent.value.flags.isAttacking ==>
              PreemptiveBlock(distance, opponent, detectionRange) == Success
  {
  }

  /** A dead defender passes no action gate, and a counter opportunity is
      only reported when an attack could start. */
  lemma DeadClosesEveryGate(c: Option<R.DefenderData>, distance: Option<real>,
                            opponent: Option<AR.AttackerData>, now: real)
    ensures IsDead(c) == Success ==>
              CanAttack(c, now) == Failure && CanBlock(c, now) == Failure && CanDodge(c, now) == Failure
    ensures CounterOpportunity(distance, c, opponent, now) == Success ==> CanAttack(c, now) == Success
  {
  }
}
