// DefenderController: the defender agent's fields and the methods that change
// them, each proved to perform the transition of the same name in module
// DefenderRules on View(). A successful block stuns the target attacker
// through AttackerController.Stun.

module DefenderControllerModel {
  import opened Directions
  import opened SwordHitboxModel
  import opened CombatStatsModel
  import opened CombatCommon
  import R = DefenderRules
  import AR = AttackerRules
  import opened AttackerControllerModel

  class DefenderController {
    const swordHitbox: SwordHitbox?
    const combatStats: CombatStats
    const targetAttacker: AttackerController

    var currentHP: real
    var isAttacking: bool
    var isBlocking: bool
    var isDodging: bool
    var isInvincible: bool
    var justFinishedBlocking: bool
    /** The oldest pending justFinishedBlockingCoroutine. */
    var clear: R.FlagClear
    var lastAttackTime: real
    var lastBlockTime: real
    var lastDodgeTime: real
    var currentCombatState: R.CombatState
    var currentAttackType: R.AttackType
    var velocity: Vec2
    /** Where the running action coroutine is suspended. */
    var coroutine: R.Coroutine

    /** The two agents keep separate statistics. */
    predicate Valid()
      reads this, targetAttacker
    {
      combatStats != targetAttacker.combatStats
    }

    function View(): R.DefenderData
      reads this, combatStats, swordHitbox
    {
      R.DefenderData(currentHP, R.Flags(isAttacking, isBlocking, isDodging, isInvincible),
                     justFinishedBlocking, clear,
                     R.Stamps(lastAttackTime, lastBlockTime, lastDodgeTime),
                     currentCombatState, currentAttackType, velocity, coroutine,
                     MaybeView(swordHitbox), combatStats.View())
    }

    /** Start: the sword found among the children, the target attacker, full HP. */
    constructor (sword: SwordHitbox?, stats: CombatStats, target: AttackerController)
      requires stats != target.combatStats
      ensures swordHitbox == sword && combatStats == stats && targetAttacker == target
      ensures Valid()
      ensures View() == R.Initial(MaybeView(sword), stats.View())
    {
      swordHitbox, combatStats, targetAttacker := sword, stats, target;
      currentHP := R.MaxHP;
      isAttacking, isBlocking, isDodging, isInvincible := false, false, false, false;
      justFinishedBlocking, clear := false, R.NoClear;
      lastAttackTime, lastBlockTime, lastDodgeTime := R.NeverUsed, R.NeverUsed, R.NeverUsed;
      currentCombatState, currentAttackType := R.Idle, R.NoAttack;
      velocity := Zero;
      coroutine := R.NoCoroutine;
    }

    method Move(direction: Vec2)
      modifies this`velocity
      ensures View() == R.Move(old(View()), direction)
    {
      if isAttacking || isBlocking || isDodging {
        return;
      }
      if Normalisable(direction, NormaliseEpsilon) {
        velocity := Scale(Closest4Direction(direction), R.MoveSpeed);
      } else {
        velocity := Zero;
      }
    }

    method Stop()
      modifies this`velocity
      ensures View() == R.Stop(old(View()))
    {
      velocity := Zero;
    }

    /** Attack, then AttackCorutine up to its wait. */
    method Attack(now: real) returns (started: bool)
      modifies this, combatStats, swordHitbox
      ensures (started, View()) == R.Attack(old(View()), now)
    {
      started := !(currentHP <= 0.0) && !isAttacking && !isBlocking && !isDodging
                 && now - lastAttackTime >= R.AttackCooldown;
      if !started {
        return;
      }
      combatStats.OnAttackAttempt(false, 0.0);
      isAttacking := true;
      if swordHitbox != null {
        swordHitbox.EnableHitbox();
      }
      coroutine := R.AttackWait(0.0);
    }

    /** Block, then BlockCoroutine up to its wait. */
    method Block(now: real) returns (started: bool)
      modifies this, combatStats
      ensures (started, View()) == R.Block(old(View()), now)
    {
      started := !(currentHP <= 0.0) && !isAttacking && !isBlocking && !isDodging
                 && now - lastBlockTime >= R.BlockCooldown;
      if !started {
        return;
      }
      combatStats.OnBlockAttempt(true);
      isBlocking, velocity := true, Zero;
      Enter(R.Blocking, R.BlockWait(0.0));
    }

    /** Dodge, then DodgeCoroutine through its first movement step. */
    method Dodge(now: real, dt: real) returns (started: bool)
      modifies this, combatStats
      ensures (started, View()) == R.Dodge(old(View()), now, dt)
    {
      started := !(currentHP <= 0.0) && !isAttacking && !isBlocking && !isDodging
                 && now - lastDodgeTime >= R.DodgeCooldown;
      combatStats.OnDodgeAttempt(started);
      if !started {
        return;
      }
      isDodging, isInvincible := true, true;
      Enter(R.Dodging, R.DodgeMove(dt));
    }

    /** Sets the combat state and the running coroutine. */
    method Enter(state: R.CombatState, co: R.Coroutine)
      modifies this`currentCombatState, this`coroutine
      ensures View() == old(View()).(combatState := state, coroutine := co)
    {
      currentCombatState, coroutine := state, co;
    }

    /** One frame: Update, then the coroutines suspended in earlier frames. */
    method Tick(now: real, dt: real)
      modifies this, swordHitbox
      ensures View() == R.Tick(old(View()), now, dt)
    {
      var pending := clear;
      Update();
      ResumeClear(pending, dt);
      Resume(now, dt);
    }

    method Update()
      modifies this`clear
      ensures View() == R.Update(old(View()))
    {
      if justFinishedBlocking && clear == R.NoClear {
        clear := R.ClearAfter(0.0);
      }
    }

    method ResumeClear(pending: R.FlagClear, dt: real)
      modifies this`justFinishedBlocking, this`clear
      ensures View() == R.ResumeClear(old(View()), pending, dt)
    {
      match pending {
        case NoClear =>
        case ClearAfter(w) =>
          if w + dt >= R.FlagClearDelay {
            justFinishedBlocking := false;
            clear := R.NoClear;
          } else {
            clear := R.ClearAfter(w + dt);
          }
      }
    }

    method Resume(now: real, dt: real)
      modifies this`lastAttackTime, this`lastBlockTime, this`lastDodgeTime, this`isAttacking,
               this`isBlocking, this`isDodging, this`isInvincible, this`justFinishedBlocking,
               this`currentCombatState, this`coroutine, swordHitbox
      ensures View() == R.Resume(old(View()), now, dt)
    {
      match coroutine {
        case NoCoroutine =>
        case AttackWait(w) =>
          if w + dt >= R.AttackDuration {
            AttackEnds(now);
          } else {
            coroutine := R.AttackWait(w + dt);
          }
        case BlockWait(w) =>
          if w + dt >= R.BlockWaitTime {
            BlockEnds(now);
          } else {
            coroutine := R.BlockWait(w + dt);
          }
        case DodgeMove(e) =>
          if e < R.DodgeMoveTime {
            coroutine := R.DodgeMove(e + dt);
          } else {
            coroutine := R.DodgeGrace(0.0);
          }
        case DodgeGrace(w) =>
          if w + dt >= R.DodgeGraceTime {
            DodgeEnds(now);
          } else {
            coroutine := R.DodgeGrace(w + dt);
          }
      }
    }

    method AttackEnds(now: real)
      modifies this`lastAttackTime, this`isAttacking, this`currentCombatState, this`coroutine, swordHitbox
      ensures View() == R.AttackEnds(old(View()), now)
    {
      if swordHitbox != null {
        swordHitbox.DisableHitbox();
      }
      lastAttackTime, isAttacking := now, false;
      Enter(R.Idle, R.NoCoroutine);
    }

    method BlockEnds(now: real)
      modifies this`justFinishedBlocking, this`lastBlockTime, this`isBlocking,
               this`currentCombatState, this`coroutine
      ensures View() == R.BlockEnds(old(View()), now)
    {
      justFinishedBlocking, lastBlockTime, isBlocking := true, now, false;
      Enter(R.Idle, R.NoCoroutine);
    }

    method DodgeEnds(now: real)
      modifies this`lastDodgeTime, this`isDodging, this`isInvincible, this`currentCombatState,
               this`coroutine
      ensures View() == R.DodgeEnds(old(View()), now)
    {
      lastDodgeTime, isDodging, isInvincible := now, false, false;
      Enter(R.Idle, R.NoCoroutine);
    }

    /** TakeDamage at time `now`: a block against anything but a kick stuns
        the target attacker for StunDuration (AttackerStun). */
    method TakeDamage(now: real, damage: real)
      requires Valid()
      modifies this, combatStats, targetAttacker`isStunned, targetAttacker`stunEndTime
      ensures View() == R.TakeDamage(old(View()), damage, old(targetAttacker.isKickAttacking)).0
      ensures targetAttacker.View() ==
                if R.TakeDamage(old(View()), damage, old(targetAttacker.isKickAttacking)).1
                then AR.Stun(old(targetAttacker.View()), now, R.StunDuration)
                else old(targetAttacker.View())
    {
      if isInvincible || currentHP <= 0.0 {
        return;
      }
      if isBlocking && !targetAttacker.isKickAttacking {
        targetAttacker.Stun(now, R.StunDuration);
        combatStats.stunsCausedByBlock := combatStats.stunsCausedByBlock + 1;
        return;
      }
      currentHP := DamagedHP(currentHP, damage);
      if currentHP <= 0.0 {
        OnDeath();
      }
    }

    /** OnDeath; StopAllCoroutines also ends the flag-clearing coroutine. */
    method OnDeath()
      modifies this`coroutine, this`clear, this`currentCombatState, this`currentAttackType,
               this`isBlocking, this`isDodging, this`isInvincible
      ensures View() == R.OnDeath(old(View()))
    {
      StopCoroutines();
      ClearGuards();
    }

    /** StopAllCoroutines, with the combat state and attack type back to idle. */
    method StopCoroutines()
      modifies this`coroutine, this`clear, this`currentCombatState, this`currentAttackType
      ensures View() == old(View()).(coroutine := R.NoCoroutine, clear := R.NoClear,
                                     combatState := R.Idle, attackType := R.NoAttack)
    {
      clear, currentAttackType := R.NoClear, R.NoAttack;
      Enter(R.Idle, R.NoCoroutine);
    }

    method ClearGuards()
      modifies this`isBlocking, this`isDodging, this`isInvincible
      ensures View() == old(View()).(flags := old(View()).flags.(isBlocking := false, isDodging := false,
                                                                   isInvincible := false))
    {
      isBlocking, isDodging, isInvincible := false, false, false;
    }

    /** ResetHP, with the sword disarmed as well (see R.ResetHP). */
    method ResetHP()
      modifies this, swordHitbox
      ensures View() == R.ResetHP(old(View()))
    {
      ResetState();
      if swordHitbox != null {
        swordHitbox.DisableHitbox();
      }
    }

    method ResetState()
      modifies this
      ensures View() == R.ResetHPAsWritten(old(View()))
    {
      currentHP, isAttacking, justFinishedBlocking := R.MaxHP, false, false;
      ClearGuards();
      ResetTimers();
      StopCoroutines();
      Stop();
    }

    method ResetTimers()
      modifies this`lastAttackTime, this`lastBlockTime, this`lastDodgeTime
      ensures View() == old(View()).(stamps := R.NeverStamps)
    {
      lastAttackTime, lastBlockTime, lastDodgeTime := R.NeverUsed, R.NeverUsed, R.NeverUsed;
    }

    method ResetStats()
      modifies combatStats
      ensures View() == old(View()).(stats := ZeroStats)
    {
      combatStats.Reset();
    }
  }
}
