// AttackerController: the attacker agent's fields and the methods that change
// them. Every method is proved to perform the transition of the same name in
// module AttackerRules on the controller's View(), which gathers the fields,
// the two hitboxes and the statistics object.

module AttackerControllerModel {
  import opened Directions
  import opened SwordHitboxModel
  import opened CombatStatsModel
  import opened CombatCommon
  import R = AttackerRules

  class AttackerController {
    const swordHitbox: SwordHitbox?
    const swordHitboxKick: SwordHitbox?
    const combatStats: CombatStats

    var currentHP: real
    var isAttacking: bool
    var isKickAttacking: bool
    var isBlocking: bool
    var isDodging: bool
    var isInvincible: bool
    var isStunned: bool
    var stunEndTime: real
    var wasStunnedLastFrame: bool
    var lastAttackTime: real
    var lastBlockTime: real
    var lastDodgeTime: real
    var currentCombatState: R.CombatState
    var currentAttackType: R.AttackType
    var yaw: real
    var velocity: Vec2
    var currentMoveDirection: Vec2
    /** Where the running action coroutine is suspended. */
    var coroutine: R.Coroutine

    /** The two hitboxes, when both exist, are different objects. */
    predicate Valid()
    {
      swordHitbox != null && swordHitboxKick != null ==> swordHitbox != swordHitboxKick
    }

    function Boxes(): set<SwordHitbox>
    {
      (if swordHitbox == null then {} else {swordHitbox}) +
      (if swordHitboxKick == null then {} else {swordHitboxKick})
    }

    function View(): R.AttackerData
      reads this, combatStats, Boxes()
    {
      R.AttackerData(currentHP,
                     R.Flags(isAttacking, isKickAttacking, isBlocking, isDodging, isInvincible),
                     R.StunData(isStunned, stunEndTime, wasStunnedLastFrame),
                     R.Stamps(lastAttackTime, lastBlockTime, lastDodgeTime),
                     currentCombatState, currentAttackType,
                     R.Pose(yaw, velocity, currentMoveDirection), coroutine,
                     MaybeView(swordHitbox), MaybeView(swordHitboxKick), combatStats.View())
    }

    /** Start: the hitboxes found among the children, full HP. */
    constructor (sword: SwordHitbox?, kick: SwordHitbox?, stats: CombatStats, initialYaw: real)
      requires sword != null && kick != null ==> sword != kick
      ensures swordHitbox == sword && swordHitboxKick == kick && combatStats == stats
      ensures Valid()
      ensures View() == R.Initial(MaybeView(sword), MaybeView(kick), stats.View(), initialYaw)
    {
      swordHitbox, swordHitboxKick, combatStats := sword, kick, stats;
      currentHP := R.MaxHP;
      isAttacking, isKickAttacking, isBlocking, isDodging, isInvincible := false, false, false, false, false;
      isStunned, stunEndTime, wasStunnedLastFrame := false, 0.0, false;
      lastAttackTime, lastBlockTime, lastDodgeTime := R.NeverUsed, R.NeverUsed, R.NeverUsed;
      currentCombatState, currentAttackType := R.Idle, R.NoAttack;
      yaw, velocity, currentMoveDirection := initialYaw, Zero, Zero;
      coroutine := R.NoCoroutine;
    }

    method Move(direction: Vec2)
      modifies this`velocity, this`currentMoveDirection
      ensures View() == R.Move(old(View()), direction)
    {
      if isAttacking || isKickAttacking || isBlocking || isDodging {
        return;
      }
      if Normalisable(direction, NormaliseEpsilon) {
        currentMoveDirection := direction;
        velocity := Scale(Closest4Direction(direction), R.MoveSpeed);
      } else {
        currentMoveDirection, velocity := Zero, Zero;
      }
    }

    method Stop()
      modifies this`velocity, this`currentMoveDirection
      ensures View() == R.Stop(old(View()))
    {
      currentMoveDirection := Zero;
      velocity := Zero;
    }

    /** Attack, then AttackCorutine up to its first wait. */
    method Attack(now: real, facing: real) returns (started: bool)
      requires Valid()
      modifies this, combatStats, Boxes()
      ensures (started, View()) == R.Attack(old(View()), now, facing)
    {
      started := !(currentHP <= 0.0) && !isAttacking && !isKickAttacking && !isBlocking && !isDodging
                 && now - lastAttackTime >= R.AttackCooldown;
      if !started {
        return;
      }
      yaw := facing;
      combatStats.OnAttackAttempt(false, 0.0);
      ArmSword();
    }

    /** The swing begins: the sword is armed and AttackCorutine waits. */
    method ArmSword()
      requires Valid()
      modifies this`isAttacking, this`coroutine, Boxes()
      ensures View() == old(View()).(flags := old(View()).flags.(isAttacking := true),
                                     sword := EnableIfPresent(old(View()).sword), coroutine := R.AttackWait(0.0))
    {
      isAttacking := true;
      if swordHitbox != null {
        swordHitbox.EnableHitbox();
      }
      coroutine := R.AttackWait(0.0);
    }

    /** KickAttack, then KickAttackCorutine up to its first wait: the casting
        wait when the kick hitbox exists, otherwise the rest of the kick. */
    method KickAttack(now: real, facing: real) returns (started: bool)
      modifies this, combatStats
      ensures (started, View()) == R.KickAttack(old(View()), now, facing)
    {
      started := !(currentHP <= 0.0) && !isAttacking && !isKickAttacking && !isBlocking && !isDodging
                 && now - lastAttackTime >= R.AttackCooldown;
      if !started {
        return;
      }
      combatStats.OnKickAttempt(false);
      BeginKick(facing);
    }

    /** The kick begins: the body turns and KickAttackCorutine waits. */
    method BeginKick(facing: real)
      modifies this`isKickAttacking, this`yaw, this`coroutine
      ensures View() == old(View()).(flags := old(View()).flags.(isKickAttacking := true),
                                     pose := old(View()).pose.(yaw := facing + R.KickTurn),
                                     coroutine := if swordHitboxKick != null then R.KickCast(0.0) else R.KickFollow(0.0))
    {
      isKickAttacking := true;
      yaw := facing + R.KickTurn;
      if swordHitboxKick != null {
        coroutine := R.KickCast(0.0);
      } else {
        coroutine := R.KickFollow(0.0);
      }
    }

    /** Block, then BlockCoroutine up to its wait. */
    method Block(now: real) returns (started: bool)
      modifies this, combatStats
      ensures (started, View()) == R.Block(old(View()), now)
    {
      started := !(currentHP <= 0.0) && !isAttacking && !isKickAttacking && !isBlocking && !isDodging
                 && now - lastBlockTime >= R.BlockCooldown;
      if !started {
        return;
      }
      combatStats.OnBlockAttempt(true);
      isBlocking := true;
      Enter(R.Blocking, R.BlockWait(0.0));
    }

    /** Dodge, then DodgeCoroutine through its first movement step of this
        frame's `dt`. */
    method Dodge(now: real, dt: real) returns (started: bool)
      modifies this, combatStats
      ensures (started, View()) == R.Dodge(old(View()), now, dt)
    {
      started := !(currentHP <= 0.0) && !isAttacking && !isKickAttacking && !isBlocking && !isDodging
                 && now - lastDodgeTime >= R.DodgeCooldown;
      combatStats.OnDodgeAttempt(started);
      if !started {
        return;
      }
      isDodging, isInvincible := true, true;
      Enter(R.Dodging, R.DodgeMove(dt));
    }

    /** Sets the combat state and the running coroutine. */
    method Enter(state: R.CombatState, co: R.Coroutine)
      modifies this`currentCombatState, this`coroutine
      ensures View() == old(View()).(combatState := state, coroutine := co)
    {
      currentCombatState, coroutine := state, co;
    }

    /** One frame: Update, then the suspended coroutine resumes. */
    method Tick(now: real, dt: real)
      requires Valid()
      modifies this, combatStats, Boxes()
      ensures View() == R.Tick(old(View()), now, dt)
    {
      Update(now);
      Resume(now, dt);
    }

    method Update(now: real)
      modifies this`isStunned, this`wasStunnedLastFrame, combatStats
      ensures View() == R.Update(old(View()), now)
    {
      var stunnedNow := isStunned && now < stunEndTime;
      if stunnedNow && !wasStunnedLastFrame {
        combatStats.stunsTaken := combatStats.stunsTaken + 1;
      }
      wasStunnedLastFrame := stunnedNow;
      if isStunned && now >= stunEndTime {
        isStunned := false;
      }
    }

    method Resume(now: real, dt: real)
      requires Valid()
      modifies this`yaw, this`lastAttackTime, this`lastBlockTime, this`lastDodgeTime,
               this`isAttacking, this`isKickAttacking, this`isBlocking, this`isDodging,
               this`isInvincible, this`currentCombatState, this`coroutine, Boxes()
      ensures View() == R.Resume(old(View()), now, dt)
    {
      if coroutine.AttackWait? || coroutine.KickCast? || coroutine.KickFollow? {
        ResumeStrike(now, dt);
      } else {
        ResumeGuard(now, dt);
      }
    }

    /** Resumption of AttackCorutine or KickAttackCorutine. */
    method ResumeStrike(now: real, dt: real)
      requires Valid() && (coroutine.AttackWait? || coroutine.KickCast? || coroutine.KickFollow?)
      modifies this`yaw, this`lastAttackTime, this`isAttacking, this`isKickAttacking, this`currentCombatState, this`coroutine, Boxes()
      ensures View() == R.Resume(old(View()), now, dt)
    {
      match coroutine {
        case AttackWait(w) =>
          if w + dt >= R.AttackDuration {
            AttackEnds(now);
          } else {
            coroutine := R.AttackWait(w + dt);
          }
        case KickCast(w) =>
          if w + dt >= R.KickCasting {
            KickArms();
          } else {
            coroutine := R.KickCast(w + dt);
          }
        case KickFollow(w) =>
          if w + dt >= R.KickDuration - R.KickCasting {
            KickEnds(now);
          } else {
            coroutine := R.KickFollow(w + dt);
          }
      }
    }

    /** Resumption of BlockCoroutine or DodgeCoroutine, if one is running. */
    method ResumeGuard(now: real, dt: real)
      requires !(coroutine.AttackWait? || coroutine.KickCast? || coroutine.KickFollow?)
      modifies this`lastBlockTime, this`lastDodgeTime, this`isBlocking, this`isDodging,
               this`isInvincible, this`currentCombatState, this`coroutine
      ensures View() == R.Resume(old(View()), now, dt)
    {
      match coroutine {
        case NoCoroutine =>
        case BlockWait(w) =>
          if w + dt >= R.BlockDuration {
            BlockEnds(now);
          } else {
            coroutine := R.BlockWait(w + dt);
          }
        case DodgeMove(e) =>
          if e < R.DodgeDuration {
            coroutine := R.DodgeMove(e + dt);
          } else {
            coroutine := R.DodgeGrace(0.0);
          }
        case DodgeGrace(w) =>
          if w + dt >= R.DodgeGraceTime {
            InvincibilityEnds();
          } else {
            coroutine := R.DodgeGrace(w + dt);
          }
        case DodgeRecover(w) =>
          if w + dt >= R.DodgeDuration - R.DodgeGraceTime {
            DodgeEnds(now);
          } else {
            coroutine := R.DodgeRecover(w + dt);
          }
      }
    }

    method AttackEnds(now: real)
      requires Valid()
      modifies this`lastAttackTime, this`isAttacking, this`currentCombatState, this`coroutine, Boxes()
      ensures View() == R.AttackEnds(old(View()), now)
    {
      if swordHitbox != null {
        swordHitbox.DisableHitbox();
      }
      lastAttackTime, isAttacking := now, false;
      Enter(R.Idle, R.NoCoroutine);
    }

    method KickArms()
      requires Valid()
      modifies this`coroutine, Boxes()
      ensures View() == R.KickArms(old(View()))
    {
      if swordHitboxKick != null {
        swordHitboxKick.EnableHitbox();
      }
      coroutine := R.KickFollow(0.0);
    }

    method KickEnds(now: real)
      requires Valid()
      modifies this`yaw, this`lastAttackTime, this`isKickAttacking, this`currentCombatState,
               this`coroutine, Boxes()
      ensures View() == R.KickEnds(old(View()), now)
    {
      if swordHitboxKick != null {
        swordHitboxKick.DisableHitbox();
      }
      yaw := yaw - R.KickTurn;
      lastAttackTime, isKickAttacking := now, false;
      Enter(R.Idle, R.NoCoroutine);
    }

    method BlockEnds(now: real)
      modifies this`lastBlockTime, this`isBlocking, this`currentCombatState, this`coroutine
      ensures View() == R.BlockEnds(old(View()), now)
    {
      lastBlockTime, isBlocking := now, false;
      Enter(R.Idle, R.NoCoroutine);
    }

    method InvincibilityEnds()
      modifies this`isInvincible, this`coroutine
      ensures View() == R.InvincibilityEnds(old(View()))
    {
      isInvincible := false;
      coroutine := R.DodgeRecover(0.0);
    }

    method DodgeEnds(now: real)
      modifies this`lastDodgeTime, this`isDodging, this`coroutine
      ensures View() == R.DodgeEnds(old(View()), now)
    {
      lastDodgeTime := now;
      isDodging := false;
      coroutine := R.NoCoroutine;
    }

    method TakeDamage(damage: real)
      modifies this, combatStats
      ensures View() == R.TakeDamage(old(View()), damage)
    {
      if isInvincible || currentHP <= 0.0 {
        return;
      }
      if isBlocking {
        return;
      }
      currentHP := DamagedHP(currentHP, damage);
      combatStats.OnDamageTaken(damage);
      if currentHP <= 0.0 {
        OnDeath();
      }
    }

    method OnDeath()
      modifies this`coroutine, this`currentCombatState, this`currentAttackType,
               this`isBlocking, this`isDodging, this`isInvincible
      ensures View() == R.OnDeath(old(View()))
    {
      StopCoroutines();
      ClearGuards();
    }

    /** StopAllCoroutines, with the combat state and attack type back to idle. */
    method StopCoroutines()
      modifies this`coroutine, this`currentCombatState, this`currentAttackType
      ensures View() == old(View()).(coroutine := R.NoCoroutine, combatState := R.Idle, attackType := R.NoAttack)
    {
      coroutine, currentCombatState, currentAttackType := R.NoCoroutine, R.Idle, R.NoAttack;
    }

    method ClearGuards()
      modifies this`isBlocking, this`isDodging, this`isInvincible
      ensures View() == old(View()).(flags := old(View()).flags.(isBlocking := false, isDodging := false,
                                                                   isInvincible := false))
    {
      isBlocking, isDodging, isInvincible := false, false, false;
    }

    /** ResetHP, with the hitboxes disarmed as well (see R.ResetHP). */
    method ResetHP()
      requires Valid()
      modifies this, Boxes()
      ensures View() == R.ResetHP(old(View()))
    {
      ResetState();
      Disarm();
    }

    /** Everything ResetHP clears in the controller itself. */
    method ResetState()
      modifies this
      ensures View() == R.ResetHPAsWritten(old(View()))
    {
      RestoreHP();
      isAttacking, isKickAttacking := false, false;
      ClearGuards();
      ResetTimers();
      StopCoroutines();
      Stop();
    }

    method RestoreHP()
      modifies this`currentHP, this`isStunned, this`stunEndTime
      ensures View() == old(View()).(hp := R.MaxHP, stun := old(View()).stun.(isStunned := false, stunEndTime := 0.0))
    {
      currentHP, isStunned, stunEndTime := R.MaxHP, false, 0.0;
    }

    method ResetTimers()
      modifies this`lastAttackTime, this`lastBlockTime, this`lastDodgeTime
      ensures View() == old(View()).(stamps := R.NeverStamps)
    {
      lastAttackTime, lastBlockTime, lastDodgeTime := R.NeverUsed, R.NeverUsed, R.NeverUsed;
    }

    method Disarm()
      requires Valid()
      modifies Boxes()
      ensures View() == R.Disarm(old(View()))
    {
      if swordHitbox != null {
        swordHitbox.DisableHitbox();
      }
      if swordHitboxKick != null {
        swordHitboxKick.DisableHitbox();
      }
    }

    method Stun(now: real, duration: real)
      modifies this`isStunned, this`stunEndTime
      ensures View() == R.Stun(old(View()), now, duration)
    {
      isStunned := true;
      stunEndTime := now + duration;
    }

    method ResetStats()
      modifies combatStats
      ensures View() == old(View()).(stats := ZeroStats)
    {
      combatStats.Reset();
    }
  }
}
