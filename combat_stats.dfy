// CombatStats: per-agent combat counters, their reset, the statistics event
// handlers the two controllers share, and the derived rates.

module CombatStatsModel {

  /** float.MaxValue, returned by AttackToDefenseRatio when there is nothing
      to divide by. */
  const FloatMaxValue: real := 340282346638528859811704183484516925440.0

  datatype StatsData = StatsData(
    attackAttempts: int, attackHits: int, attackMisses: int, damageDealt: real,
    blockAttempts: int, blockSuccesses: int, blockFailures: int, stunsCausedByBlock: int,
    dodgeAttempts: int, dodgeSuccesses: int, damageTaken: real,
    kickAttempts: int, kickThroughDefense: int, stunsTaken: int,
    combatDuration: real, finalHP: real)

  const ZeroStats := StatsData(0, 0, 0, 0.0, 0, 0, 0, 0, 0, 0, 0.0, 0, 0, 0, 0.0, 0.0)

  /** Counters as the handlers keep them: none negative, every attack attempt
      either a hit or a miss, every block attempt a success or a failure, and
      no more dodge or kick successes than attempts. */
  predicate Consistent(s: StatsData)
  {
    0 <= s.attackHits && 0 <= s.attackMisses && s.attackHits + s.attackMisses == s.attackAttempts
    && 0 <= s.blockSuccesses && 0 <= s.blockFailures
    && s.blockSuccesses + s.blockFailures == s.blockAttempts
    && 0 <= s.dodgeSuccesses <= s.dodgeAttempts
    && 0 <= s.kickThroughDefense <= s.kickAttempts
    && 0 <= s.stunsCausedByBlock && 0 <= s.stunsTaken
  }

  /** A ratio of two counts lies in [0, 1] when 0 <= part <= whole. */
  lemma RatioBounds(part: int, whole: int)
    requires 0 <= part <= whole && whole > 0
    ensures 0.0 <= part as real / whole as real <= 1.0
    ensures part == whole ==> part as real / whole as real == 1.0
  {
    var q := part as real / whole as real;
    assert q * whole as real == part as real;
  }

  /** A percentage of successes, 0 when nothing was attempted. */
  function SuccessRate(successes: int, attempts: int): (r: real)
    ensures attempts <= 0 ==> r == 0.0
    ensures 0 <= successes <= attempts ==> 0.0 <= r <= 100.0
    ensures 0 < attempts && successes == attempts ==> r == 100.0
  {
    if attempts > 0 then
      var q := successes as real / attempts as real;
      assert 0 <= successes <= attempts ==> 0.0 <= q <= 1.0 && (successes == attempts ==> q == 1.0) by {
        if 0 <= successes <= attempts {
          RatioBounds(successes, attempts);
        }
      }
      q * 100.0
    else 0.0
  }

  /** A mean, 0 when there is nothing to average over. */
  function PerCount(total: real, count: int): (r: real)
    ensures count <= 0 ==> r == 0.0
    ensures count > 0 ==> r * count as real == total
  {
    if count > 0 then total / count as real else 0.0
  }

  function TotalDefensiveActions(s: StatsData): (r: int)
    ensures Consistent(s) ==> r >= 0
  {
    s.blockAttempts + s.dodgeAttempts
  }

  /** Attacks per defensive action; float.MaxValue when there were none. */
  function AttackToDefenseRatio(s: StatsData): (r: real)
    ensures TotalDefensiveActions(s) <= 0 ==> r == FloatMaxValue
    ensures TotalDefensiveActions(s) > 0 ==> r * TotalDefensiveActions(s) as real == s.attackAttempts as real
  {
    if TotalDefensiveActions(s) > 0 then s.attackAttempts as real / TotalDefensiveActions(s) as real
    else FloatMaxValue
  }

  // The statistics event handlers, for an event addressed to this agent.

  function RecordAttackAttempt(s: StatsData, success: bool, damage: real): StatsData
  {
    if success then s.(attackAttempts := s.attackAttempts + 1, attackHits := s.attackHits + 1,
                       damageDealt := s.damageDealt + damage)
    else s.(attackAttempts := s.attackAttempts + 1, attackMisses := s.attackMisses + 1)
  }

  function RecordBlockAttempt(s: StatsData, success: bool): StatsData
  {
    if success then s.(blockAttempts := s.blockAttempts + 1, blockSuccesses := s.blockSuccesses + 1)
    else s.(blockAttempts := s.blockAttempts + 1, blockFailures := s.blockFailures + 1)
  }

  function RecordStunCaused(s: StatsData, isStunner: bool, isStunned: bool): StatsData
  {
    var s1 := if isStunner then s.(stunsCausedByBlock := s.stunsCausedByBlock + 1) else s;
    if isStunned then s1.(stunsTaken := s1.stunsTaken + 1) else s1
  }

  function RecordDodgeAttempt(s: StatsData, success: bool): StatsData
  {
    if success then s.(dodgeAttempts := s.dodgeAttempts + 1, dodgeSuccesses := s.dodgeSuccesses + 1)
    else s.(dodgeAttempts := s.dodgeAttempts + 1)
  }

  function RecordDamageTaken(s: StatsData, damage: real): StatsData
  {
    s.(damageTaken := s.damageTaken + damage)
  }

  function RecordKickAttempt(s: StatsData, success: bool): StatsData
  {
    if success then s.(kickAttempts := s.kickAttempts + 1, kickThroughDefense := s.kickThroughDefense + 1)
    else s.(kickAttempts := s.kickAttempts + 1)
  }

  /** Every handler keeps the counters consistent, and each raises its
      attempts counter by exactly one. */
  lemma HandlersKeepConsistent(s: StatsData, success: bool, damage: real, stunner: bool, stunned: bool)
    requires Consistent(s)
    ensures Consistent(RecordAttackAttempt(s, success, damage))
    ensures RecordAttackAttempt(s, success, damage).attackAttempts == s.attackAttempts + 1
    ensures Consistent(RecordBlockAttempt(s, success))
    ensures RecordBlockAttempt(s, success).blockAttempts == s.blockAttempts + 1
    ensures Consistent(RecordStunCaused(s, stunner, stunned))
    ensures Consistent(RecordDodgeAttempt(s, success))
    ensures RecordDodgeAttempt(s, success).dodgeAttempts == s.dodgeAttempts + 1
    ensures Consistent(RecordDamageTaken(s, damage))
    ensures Consistent(RecordKickAttempt(s, success))
    ensures RecordKickAttempt(s, success).kickAttempts == s.kickAttempts + 1
  {
  }

  /** With consistent counters every success rate is a percentage. */
  lemma RatesArePercentages(s: StatsData)
    requires Consistent(s)
    ensures 0.0 <= SuccessRate(s.attackHits, s.attackAttempts) <= 100.0
    ensures 0.0 <= SuccessRate(s.blockSuccesses, s.blockAttempts) <= 100.0
    ensures 0.0 <= SuccessRate(s.dodgeSuccesses, s.dodgeAttempts) <= 100.0
    ensures 0.0 <= SuccessRate(s.kickThroughDefense, s.kickAttempts) <= 100.0
  {
  }

  class CombatStats {
    var attackAttempts: int
    var attackHits: int
    var attackMisses: int
    var damageDealt: real
    var blockAttempts: int
    var blockSuccesses: int
    var blockFailures: int
    var stunsCausedByBlock: int
    var dodgeAttempts: int
    var dodgeSuccesses: int
    var damageTaken: real
    var kickAttempts: int
    var kickThroughDefense: int
    var stunsTaken: int
    var combatDuration: real
    var finalHP: real

    function View(): StatsData
      reads this
    {
      StatsData(attackAttempts, attackHits, attackMisses, damageDealt,
                blockAttempts, blockSuccesses, blockFailures, stunsCausedByBlock,
                dodgeAttempts, dodgeSuccesses, damageTaken,
                kickAttempts, kickThroughDefense, stunsTaken, combatDuration, finalHP)
    }

    constructor ()
      ensures View() == ZeroStats
    {
      attackAttempts, attackHits, attackMisses, damageDealt := 0, 0, 0, 0.0;
      blockAttempts, blockSuccesses, blockFailures, stunsCausedByBlock := 0, 0, 0, 0;
      dodgeAttempts, dodgeSuccesses, damageTaken := 0, 0, 0.0;
      kickAttempts, kickThroughDefense, stunsTaken := 0, 0, 0;
      combatDuration, finalHP := 0.0, 0.0;
    }

    /** Reset zeroes every counter and total. */
    method Reset()
      modifies this
      ensures View() == ZeroStats
    {
      ResetAttackAndBlock();
      ResetDodgeKickAndTotals();
    }

    // Reset in two halves, each with a small frame.

    method ResetAttackAndBlock()
      modifies this`attackAttempts, this`attackHits, this`attackMisses, this`damageDealt,
               this`blockAttempts, this`blockSuccesses, this`blockFailures, this`stunsCausedByBlock
      ensures attackAttempts == 0 && attackHits == 0 && attackMisses == 0 && damageDealt == 0.0
      ensures blockAttempts == 0 && blockSuccesses == 0 && blockFailures == 0 && stunsCausedByBlock == 0
    {
      attackAttempts, attackHits, attackMisses, damageDealt := 0, 0, 0, 0.0;
      blockAttempts, blockSuccesses, blockFailures, stunsCausedByBlock := 0, 0, 0, 0;
    }

    method ResetDodgeKickAndTotals()
      modifies this`dodgeAttempts, this`dodgeSuccesses, this`damageTaken, this`kickAttempts,
               this`kickThroughDefense, this`stunsTaken, this`combatDuration, this`finalHP
      ensures dodgeAttempts == 0 && dodgeSuccesses == 0 && damageTaken == 0.0
      ensures kickAttempts == 0 && kickThroughDefense == 0 && stunsTaken == 0
      ensures combatDuration == 0.0 && finalHP == 0.0
    {
      dodgeAttempts, dodgeSuccesses, damageTaken := 0, 0, 0.0;
      kickAttempts, kickThroughDefense, stunsTaken := 0, 0, 0;
      combatDuration, finalHP := 0.0, 0.0;
    }

    // The derived figures, as percentages and averages over the counters.

    function AttackSuccessRate(): (r: real)
      reads this
      ensures attackAttempts <= 0 ==> r == 0.0
      ensures Consistent(View()) ==> 0.0 <= r <= 100.0
      ensures attackAttempts > 0 && attackHits == attackAttempts ==> r == 100.0
    {
      SuccessRate(attackHits, attackAttempts)
    }

    function BlockSuccessRate(): (r: real)
      reads this
      ensures blockAttempts <= 0 ==> r == 0.0
      ensures Consistent(View()) ==> 0.0 <= r <= 100.0
      ensures blockAttempts > 0 && blockSuccesses == blockAttempts ==> r == 100.0
    {
      SuccessRate(blockSuccesses, blockAttempts)
    }

    function DodgeSuccessRate(): (r: real)
      reads this
      ensures dodgeAttempts <= 0 ==> r == 0.0
      ensures Consistent(View()) ==> 0.0 <= r <= 100.0
      ensures dodgeAttempts > 0 && dodgeSuccesses == dodgeAttempts ==> r == 100.0
    {
      SuccessRate(dodgeSuccesses, dodgeAttempts)
    }

    function KickSuccessRate(): (r: real)
      reads this
      ensures kickAttempts <= 0 ==> r == 0.0
      ensures Consistent(View()) ==> 0.0 <= r <= 100.0
      ensures kickAttempts > 0 && kickThroughDefense == kickAttempts ==> r == 100.0
    {
      SuccessRate(kickThroughDefense, kickAttempts)
    }

    function AverageDamagePerHit(): (r: real)
      reads this
      ensures attackHits <= 0 ==> r == 0.0
      ensures attackHits > 0 ==> r * attackHits as real == damageDealt
    {
      PerCount(damageDealt, attackHits)
    }

    function EfficiencyScore(): (r: real)
      reads this
      ensures attackAttempts <= 0 ==> r == 0.0
      ensures attackAttempts > 0 ==> r * attackAttempts as real == damageDealt
    {
      PerCount(damageDealt, attackAttempts)
    }

    method OnAttackAttempt(success: bool, damage: real)
      modifies this
      ensures View() == RecordAttackAttempt(old(View()), success, damage)
    {
      attackAttempts := attackAttempts + 1;
      if success {
        attackHits := attackHits + 1;
        damageDealt := damageDealt + damage;
      } else {
        attackMisses := attackMisses + 1;
      }
    }

    method OnBlockAttempt(success: bool)
      modifies this
      ensures View() == RecordBlockAttempt(old(View()), success)
    {
      blockAttempts := blockAttempts + 1;
      if success {
        blockSuccesses := blockSuccesses + 1;
      } else {
        blockFailures := blockFailures + 1;
      }
    }

    method OnStunCaused(isStunner: bool, isStunned: bool)
      modifies this
      ensures View() == RecordStunCaused(old(View()), isStunner, isStunned)
    {
      if isStunner {
        stunsCausedByBlock := stunsCausedByBlock + 1;
      }
      if isStunned {
        stunsTaken := stunsTaken + 1;
      }
    }

    method OnDodgeAttempt(success: bool)
      modifies this
      ensures View() == RecordDodgeAttempt(old(View()), success)
    {
      dodgeAttempts := dodgeAttempts + 1;
      if success {
        dodgeSuccesses := dodgeSuccesses + 1;
      }
    }

    method OnDamageTaken(damage: real)
      modifies this
      ensures View() == RecordDamageTaken(old(View()), damage)
    {
      damageTaken := damageTaken + damage;
    }

    method OnKickAttempt(success: bool)
      modifies this
      ensures View() == RecordKickAttempt(old(View()), success)
    {
      kickAttempts := kickAttempts + 1;
      if success {
        kickThroughDefense := kickThroughDefense + 1;
      }
    }
  }
}
