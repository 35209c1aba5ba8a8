// The attacker agent's state machine as values: the action gates, the action
// starts, one frame of Update plus coroutine resumption, damage, death, reset
// and stun. Class AttackerController (attacker_controller.dfy) performs the
// same transitions on its fields.
//
// Each coroutine is a suspended position (Coroutine) with the time waited so
// far; a frame's `Time.deltaTime` is added on every resumption, and a
// `WaitForSeconds(d)` resumes on the first frame at which d has elapsed.

module AttackerRules {
  import opened Directions
  import opened SwordHitboxModel
  import opened CombatStatsModel
  import opened CombatCommon

  const MoveSpeed: real := 4.5
  const AttackCooldown: real := 2.5
  const BlockCooldown: real := 2.5
  const DodgeCooldown: real := 5.0
  const MaxHP: real := 100.0
  const KickCasting: real := 0.5
  const AttackDuration: real := 1.0
  const KickDuration: real := 1.5
  const BlockDuration: real := 1.0
  const DodgeDuration: real := 0.6
  /** The part of a dodge's tail during which the agent is still invincible. */
  const DodgeGraceTime: real := 0.1
  /** The body turn a kick applies at its start and undoes at its end. */
  const KickTurn: real := 80.0
  /** The "never used" time stamp every cooldown starts from. */
  const NeverUsed: real := -1000.0

  datatype CombatState = Idle | WindUp | Commit | Active | Recovery | Blocking | Dodging

  datatype AttackType = NoAttack | Strong

  /** Where the agent's action coroutine is suspended. */
  datatype Coroutine =
    | NoCoroutine
    | AttackWait(waited: real)     // AttackCorutine, waiting attackDuration
    | KickCast(waited: real)       // KickAttackCorutine, waiting the casting time
    | KickFollow(waited: real)     // KickAttackCorutine, waiting the rest of the kick
    | BlockWait(waited: real)      // BlockCoroutine, waiting blockDuration
    | DodgeMove(elapsed: real)     // DodgeCoroutine, in the movement loop
    | DodgeGrace(waited: real)     // DodgeCoroutine, the invincible 0.1 s after moving
    | DodgeRecover(waited: real)   // DodgeCoroutine, the vulnerable rest of the dodge

  /** The action flags the gates, movement and damage consult. */
  datatype Flags = Flags(isAttacking: bool, isKickAttacking: bool, isBlocking: bool,
                         isDodging: bool, isInvincible: bool)

  const NoFlags := Flags(false, false, false, false, false)

  /** isStunned, stunEndTime and the frame-to-frame memory Update keeps. */
  datatype StunData = StunData(isStunned: bool, stunEndTime: real, wasStunnedLastFrame: bool)

  /** The time each action last finished. */
  datatype Stamps = Stamps(lastAttackTime: real, lastBlockTime: real, lastDodgeTime: real)

  const NeverStamps := Stamps(NeverUsed, NeverUsed, NeverUsed)

  /** The body's yaw, its planar velocity and the last direction it moved in. */
  datatype Pose = Pose(yaw: real, velocity: Vec2, moveDirection: Vec2)

  datatype AttackerData = AttackerData(
    hp: real, flags: Flags, stun: StunData, stamps: Stamps,
    combatState: CombatState, attackType: AttackType, pose: Pose,
    coroutine: Coroutine, sword: MaybeHitbox, kick: MaybeHitbox, stats: StatsData)

  /** The state after Start: full HP, every cooldown ready, nothing running. */
  function Initial(sword: MaybeHitbox, kick: MaybeHitbox, stats: StatsData, yaw: real): AttackerData
  {
    AttackerData(MaxHP, NoFlags, StunData(false, 0.0, false), NeverStamps, Idle, NoAttack,
                 Pose(yaw, Zero, Zero), NoCoroutine, sword, kick, stats)
  }

  predicate Armed(m: MaybeHitbox)
  {
    m.Hitbox? && m.data.isActive
  }

  predicate IsDead(a: AttackerData) { a.hp <= 0.0 }

  predicate IsStunned(a: AttackerData, now: real) { a.stun.isStunned && now < a.stun.stunEndTime }

  predicate IsMoving(a: AttackerData) { Normalisable(a.pose.moveDirection, NormaliseEpsilon) }

  /** An action in progress blocks movement and every other action. */
  predicate Busy(a: AttackerData)
  {
    a.flags.isAttacking || a.flags.isKickAttacking || a.flags.isBlocking || a.flags.isDodging
  }

  predicate CanAttack(a: AttackerData, now: real)
  {
    !IsDead(a) && !Busy(a) && now - a.stamps.lastAttackTime >= AttackCooldown
  }

  predicate CanBlock(a: AttackerData, now: real)
  {
    !IsDead(a) && !Busy(a) && now - a.stamps.lastBlockTime >= BlockCooldown
  }

  predicate CanDodge(a: AttackerData, now: real)
  {
    !IsDead(a) && !Busy(a) && now - a.stamps.lastDodgeTime >= DodgeCooldown
  }

  /** Stop: no intended direction, no planar velocity. */
  function Stop(a: AttackerData): (r: AttackerData)
    ensures !IsMoving(r) && r.pose.velocity == Zero && r.pose.yaw == a.pose.yaw
  {
    a.(pose := a.pose.(moveDirection := Zero, velocity := Zero))
  }

  /** Move: ignored while busy; otherwise grid movement along the closest
      axis at the move speed, or a stop for a direction too short to
      normalise. */
  function Move(a: AttackerData, direction: Vec2): (r: AttackerData)
    ensures Busy(a) ==> r == a
    ensures !Busy(a) && Normalisable(direction, NormaliseEpsilon) ==>
              IsMoving(r) && r.pose.velocity == Scale(Closest4Direction(direction), MoveSpeed)
    ensures !Busy(a) && !Normalisable(direction, NormaliseEpsilon) ==> r == Stop(a)
  {
    if Busy(a) then a
    else if Normalisable(direction, NormaliseEpsilon) then
      a.(pose := a.pose.(moveDirection := direction,
                         velocity := Scale(Closest4Direction(direction), MoveSpeed)))
    else Stop(a)
  }

  /** Attack: when the gate allows, turn to `facing` (the yaw
      RotateTowardsTarget leaves), count a missed attempt, arm the sword and
      start AttackCorutine. */
  function Attack(a: AttackerData, now: real, facing: real): (r: (bool, AttackerData))
    ensures r.0 == CanAttack(a, now)
    ensures !r.0 ==> r.1 == a
    ensures r.0 ==> r.1.flags.isAttacking && r.1.coroutine == AttackWait(0.0)
                    && r.1.stats == RecordAttackAttempt(a.stats, false, 0.0)
                    && r.1.sword == EnableIfPresent(a.sword)
  {
    if !CanAttack(a, now) then (false, a)
    else (true, a.(pose := a.pose.(yaw := facing), stats := RecordAttackAttempt(a.stats, false, 0.0),
                   flags := a.flags.(isAttacking := true), sword := EnableIfPresent(a.sword),
                   coroutine := AttackWait(0.0)))
  }

  /** KickAttack: the same gate as Attack; turns the body by 80 degrees and
      waits the casting time only when a kick hitbox exists. */
  function KickAttack(a: AttackerData, now: real, facing: real): (r: (bool, AttackerData))
    ensures r.0 == CanAttack(a, now)
    ensures !r.0 ==> r.1 == a
    ensures r.0 ==> r.1.flags.isKickAttacking && r.1.pose.yaw == facing + KickTurn
                    && r.1.stats == RecordKickAttempt(a.stats, false)
                    && r.1.coroutine == (if a.kick.Hitbox? then KickCast(0.0) else KickFollow(0.0))
  {
    if !CanAttack(a, now) then (false, a)
    else (true, a.(pose := a.pose.(yaw := facing + KickTurn), stats := RecordKickAttempt(a.stats, false),
                   flags := a.flags.(isKickAttacking := true),
                   coroutine := if a.kick.Hitbox? then KickCast(0.0) else KickFollow(0.0)))
  }

  /** Block: when the gate allows, count a successful block attempt and start
      BlockCoroutine. */
  function Block(a: AttackerData, now: real): (r: (bool, AttackerData))
    ensures r.0 == CanBlock(a, now)
    ensures !r.0 ==> r.1 == a
    ensures r.0 ==> r.1.flags.isBlocking && r.1.combatState == Blocking && r.1.coroutine == BlockWait(0.0)
                    && r.1.stats == RecordBlockAttempt(a.stats, true)
  {
    if !CanBlock(a, now) then (false, a)
    else (true, a.(stats := RecordBlockAttempt(a.stats, true), flags := a.flags.(isBlocking := true),
                   combatState := Blocking, coroutine := BlockWait(0.0)))
  }

  /** Dodge: a refused dodge still counts as a failed attempt. An accepted one
      makes the agent invincible and runs the first movement step of
      DodgeCoroutine in the same frame, so the frame's `dt` is already
      elapsed when it suspends. */
  function Dodge(a: AttackerData, now: real, dt: real): (r: (bool, AttackerData))
    ensures r.0 == CanDodge(a, now)
    ensures r.1.stats == RecordDodgeAttempt(a.stats, r.0)
    ensures !r.0 ==> r.1 == a.(stats := r.1.stats)
    ensures r.0 ==> r.1.flags.isDodging && r.1.flags.isInvincible && r.1.coroutine == DodgeMove(dt)
  {
    if !CanDodge(a, now) then (false, a.(stats := RecordDodgeAttempt(a.stats, false)))
    else (true, a.(stats := RecordDodgeAttempt(a.stats, true),
                   flags := a.flags.(isDodging := true, isInvincible := true),
                   combatState := Dodging, coroutine := DodgeMove(dt)))
  }

  /** Update: count a stun on the frame it begins, remember this frame's stun
      state, and clear an expired stun. Nothing but the stun memory and the
      stun counter changes. */
  function Update(a: AttackerData, now: real): (r: AttackerData)
    ensures r.stats.stunsTaken == a.stats.stunsTaken + (if IsStunned(a, now) && !a.stun.wasStunnedLastFrame then 1 else 0)
    ensures r.stun.wasStunnedLastFrame == IsStunned(a, now)
    ensures r.stun.isStunned == IsStunned(a, now)
    ensures r == a.(stun := r.stun, stats := r.stats)
  {
    var stunnedNow := IsStunned(a, now);
    var stats := if stunnedNow && !a.stun.wasStunnedLastFrame
                 then a.stats.(stunsTaken := a.stats.stunsTaken + 1) else a.stats;
    var stun := a.stun.(wasStunnedLastFrame := stunnedNow);
    a.(stats := stats,
       stun := if stun.isStunned && now >= stun.stunEndTime then stun.(isStunned := false) else stun)
  }

  // What runs when a wait of each coroutine is over.

  /** AttackCorutine after its wait: disarm the sword, stamp the cooldown. */
  function AttackEnds(a: AttackerData, now: real): AttackerData
  {
    a.(sword := DisableIfPresent(a.sword), stamps := a.stamps.(lastAttackTime := now),
       flags := a.flags.(isAttacking := false), combatState := Idle, coroutine := NoCoroutine)
  }

  /** KickAttackCorutine after the casting wait: arm the kick hitbox. */
  function KickArms(a: AttackerData): AttackerData
  {
    a.(kick := EnableIfPresent(a.kick), coroutine := KickFollow(0.0))
  }

  /** KickAttackCorutine at its end: disarm, turn back, stamp the cooldown. */
  function KickEnds(a: AttackerData, now: real): AttackerData
  {
    a.(kick := DisableIfPresent(a.kick), pose := a.pose.(yaw := a.pose.yaw - KickTurn),
       stamps := a.stamps.(lastAttackTime := now), flags := a.flags.(isKickAttacking := false),
       combatState := Idle, coroutine := NoCoroutine)
  }

  function BlockEnds(a: AttackerData, now: real): AttackerData
  {
    a.(stamps := a.stamps.(lastBlockTime := now), flags := a.flags.(isBlocking := false),
       combatState := Idle, coroutine := NoCoroutine)
  }

  /** DodgeCoroutine after the 0.1 s tail: vulnerable again, still dodging. */
  function InvincibilityEnds(a: AttackerData): AttackerData
  {
    a.(flags := a.flags.(isInvincible := false), coroutine := DodgeRecover(0.0))
  }

  /** DodgeCoroutine at its end; the combat state is left at Dodging. */
  function DodgeEnds(a: AttackerData, now: real): AttackerData
  {
    a.(stamps := a.stamps.(lastDodgeTime := now), flags := a.flags.(isDodging := false),
       coroutine := NoCoroutine)
  }

  /** One resumption of the action coroutine at time `now`, `dt` after the
      previous frame. It leaves HP, statistics and stun alone; a coroutine
      ends only from its last wait, and the action it ends stamps its
      cooldown at `now`. */
  function Resume(a: AttackerData, now: real, dt: real): (r: AttackerData)
    ensures r.hp == a.hp && r.stats == a.stats && r.stun == a.stun
    ensures a.coroutine == NoCoroutine ==> r == a
    ensures r.coroutine != NoCoroutine ==> r.stamps == a.stamps
    ensures r.coroutine == NoCoroutine ==>
              a.coroutine.NoCoroutine? || a.coroutine.AttackWait? || a.coroutine.KickFollow?
              || a.coroutine.BlockWait? || a.coroutine.DodgeRecover?
    ensures a.coroutine.AttackWait? ==> (r.coroutine == NoCoroutine <==> a.coroutine.waited + dt >= AttackDuration)
    ensures a.coroutine.AttackWait? && r.coroutine == NoCoroutine ==>
              !r.flags.isAttacking && r.stamps.lastAttackTime == now && r.sword == DisableIfPresent(a.sword)
    ensures a.coroutine.KickFollow? && r.coroutine == NoCoroutine ==>
              !r.flags.isKickAttacking && r.stamps.lastAttackTime == now && r.kick == DisableIfPresent(a.kick)
    ensures a.coroutine.BlockWait? && r.coroutine == NoCoroutine ==>
              !r.flags.isBlocking && r.stamps.lastBlockTime == now
    ensures a.coroutine.DodgeRecover? && r.coroutine == NoCoroutine ==>
              !r.flags.isDodging && r.stamps.lastDodgeTime == now
  {
    match a.coroutine
    case NoCoroutine => a
    case AttackWait(w) =>
      if w + dt >= AttackDuration then AttackEnds(a, now) else a.(coroutine := AttackWait(w + dt))
    case KickCast(w) =>
      if w + dt >= KickCasting then KickArms(a) else a.(coroutine := KickCast(w + dt))
    case KickFollow(w) =>
      if w + dt >= KickDuration - KickCasting then KickEnds(a, now) else a.(coroutine := KickFollow(w + dt))
    case BlockWait(w) =>
      if w + dt >= BlockDuration then BlockEnds(a, now) else a.(coroutine := BlockWait(w + dt))
    case DodgeMove(e) =>
      if e < DodgeDuration then a.(coroutine := DodgeMove(e + dt)) else a.(coroutine := DodgeGrace(0.0))
    case DodgeGrace(w) =>
      if w + dt >= DodgeGraceTime then InvincibilityEnds(a) else a.(coroutine := DodgeGrace(w + dt))
    case DodgeRecover(w) =>
      if w + dt >= DodgeDuration - DodgeGraceTime then DodgeEnds(a, now)
      else a.(coroutine := DodgeRecover(w + dt))
  }

  /** One frame: Update runs first, then the suspended coroutine resumes.
      The HP is untouched and a stun beginning this frame is counted once. */
  function Tick(a: AttackerData, now: real, dt: real): (r: AttackerData)
    ensures r.hp == a.hp
    ensures r.stats.stunsTaken == a.stats.stunsTaken + (if IsStunned(a, now) && !a.stun.wasStunnedLastFrame then 1 else 0)
    ensures r.stun.wasStunnedLastFrame == IsStunned(a, now)
    ensures a.coroutine == NoCoroutine ==> r == Update(a, now)
  {
    Resume(Update(a, now), now, dt)
  }

  /** OnDeath: stop the coroutines and clear the defensive flags. The attack
      flags and the hitboxes are left as they are. */
  function OnDeath(a: AttackerData): (r: AttackerData)
    ensures r.coroutine == NoCoroutine && !r.flags.isBlocking && !r.flags.isDodging && !r.flags.isInvincible
    ensures r.flags.isAttacking == a.flags.isAttacking && r.sword == a.sword && r.kick == a.kick
  {
    a.(coroutine := NoCoroutine, combatState := Idle, attackType := NoAttack,
       flags := a.flags.(isBlocking := false, isDodging := false, isInvincible := false))
  }

  /** Whether a hit is absorbed before it reaches the HP. */
  predicate Shielded(a: AttackerData)
  {
    a.flags.isInvincible || IsDead(a) || a.flags.isBlocking
  }

  /** TakeDamage: nothing while invincible, dead or blocking; otherwise the
      clamped HP loss is recorded, and reaching zero HP runs OnDeath. */
  function TakeDamage(a: AttackerData, damage: real): (r: AttackerData)
    ensures Shielded(a) ==> r == a
    ensures !Shielded(a) ==> r.hp == DamagedHP(a.hp, damage) && r.stats == RecordDamageTaken(a.stats, damage)
    ensures !Shielded(a) && IsDead(r) ==> r.coroutine == NoCoroutine && !r.flags.isInvincible
    ensures !Shielded(a) && !IsDead(r) ==> r.coroutine == a.coroutine && r.flags == a.flags
  {
    if Shielded(a) then a
    else
      var a1 := a.(hp := DamagedHP(a.hp, damage), stats := RecordDamageTaken(a.stats, damage));
      if IsDead(a1) then OnDeath(a1) else a1
  }

  /** AttackerController.ResetHP: every flag, stamp and state is reset
      and the coroutines are stopped, but the hitboxes are left armed if a
      swing was cut short. */
  function ResetHPAsWritten(a: AttackerData): (r: AttackerData)
    ensures r.hp == MaxHP && r.flags == NoFlags && r.stamps == NeverStamps && r.coroutine == NoCoroutine
    ensures !IsStunned(r, r.stun.stunEndTime) && !IsMoving(r)
    ensures r.sword == a.sword && r.kick == a.kick
  {
    Stop(a.(hp := MaxHP, stun := a.stun.(isStunned := false, stunEndTime := 0.0),
            flags := NoFlags, stamps := NeverStamps,
            combatState := Idle, attackType := NoAttack, coroutine := NoCoroutine))
  }

  /** ResetHP as intended: the same reset, with both hitboxes disarmed. */
  function ResetHP(a: AttackerData): (r: AttackerData)
    ensures r.hp == MaxHP && r.flags == NoFlags && r.stamps == NeverStamps && r.coroutine == NoCoroutine
    ensures !Armed(r.sword) && !Armed(r.kick)
    ensures r == ResetHPAsWritten(a).(sword := r.sword, kick := r.kick)
  {
    Disarm(ResetHPAsWritten(a))
  }

  function Disarm(a: AttackerData): AttackerData
  {
    a.(sword := DisableIfPresent(a.sword), kick := DisableIfPresent(a.kick))
  }

  /** Stun: stunned until `now + duration`. */
  function Stun(a: AttackerData, now: real, duration: real): (r: AttackerData)
    ensures forall t :: IsStunned(r, t) <==> t < now + duration
    ensures r == a.(stun := r.stun)
  {
    a.(stun := a.stun.(isStunned := true, stunEndTime := now + duration))
  }

  // ----- invariant -----

  /** Flags, hitboxes and coroutine agree: each coroutine position has
      exactly its action's flags, a hitbox is armed only during the swing
      that armed it (or on an agent that died mid-swing), and HP lies in
      [0, MaxHP]. */
  predicate Coherent(a: AttackerData)
  {
    0.0 <= a.hp <= MaxHP &&
    match a.coroutine
    case NoCoroutine =>
      !a.flags.isBlocking && !a.flags.isDodging && !a.flags.isInvincible &&
      (a.flags.isAttacking || a.flags.isKickAttacking || Armed(a.sword) || Armed(a.kick) ==> IsDead(a))
    case AttackWait(_) =>
      a.flags == NoFlags.(isAttacking := true) && (a.sword.Hitbox? ==> a.sword.data.isActive) && !Armed(a.kick)
    case KickCast(_) =>
      a.flags == NoFlags.(isKickAttacking := true) && a.kick.Hitbox? && !Armed(a.kick) && !Armed(a.sword)
    case KickFollow(_) =>
      a.flags == NoFlags.(isKickAttacking := true) && (a.kick.Hitbox? ==> a.kick.data.isActive) && !Armed(a.sword)
    case BlockWait(_) =>
      a.flags == NoFlags.(isBlocking := true) && !Armed(a.sword) && !Armed(a.kick)
    case DodgeMove(_) =>
      a.flags == NoFlags.(isDodging := true, isInvincible := true) && !Armed(a.sword) && !Armed(a.kick)
    case DodgeGrace(_) =>
      a.flags == NoFlags.(isDodging := true, isInvincible := true) && !Armed(a.sword) && !Armed(a.kick)
    case DodgeRecover(_) =>
      a.flags == NoFlags.(isDodging := true) && !Armed(a.sword) && !Armed(a.kick)
  }

  lemma InitialCoherent(stats: StatsData, yaw: real, sword: bool, kick: bool)
    ensures Coherent(Initial(if sword then Hitbox(HitboxData(false, false)) else NoHitbox,
                             if kick then Hitbox(HitboxData(false, false)) else NoHitbox, stats, yaw))
  {
  }

  /** A frame keeps the invariant. */
  lemma CoherentUnderTick(a: AttackerData, now: real, dt: real)
    requires Coherent(a)
    ensures Coherent(Tick(a, now, dt))
  {
    assert Coherent(Update(a, now));
  }

  /** Starting an action keeps the invariant, whether or not the gate opens. */
  lemma CoherentUnderActions(a: AttackerData, now: real, dt: real, facing: real)
    requires Coherent(a)
    ensures Coherent(Attack(a, now, facing).1)
    ensures Coherent(KickAttack(a, now, facing).1)
    ensures Coherent(Block(a, now).1)
    ensures Coherent(Dodge(a, now, dt).1)
  {
  }

  /** Damage (never negative), reset, stun and movement keep the invariant. */
  lemma CoherentUnderHits(a: AttackerData, now: real, damage: real, duration: real, direction: Vec2)
    requires Coherent(a) && damage >= 0.0
    ensures Coherent(TakeDamage(a, damage))
    ensures Coherent(ResetHP(a))
    ensures Coherent(Stun(a, now, duration))
    ensures Coherent(Move(a, direction))
  {
  }

  /** A living agent's hitbox is armed only while it swings. */
  lemma ArmedOnlyWhileSwinging(a: AttackerData)
    requires Coherent(a) && !IsDead(a)
    ensures Armed(a.sword) ==> a.flags.isAttacking
    ensures Armed(a.kick) ==> a.flags.isKickAttacking
  {
  }

  /** Finding: a lethal hit in the middle of a swing followed by
      AttackerController.ResetHP leaves the sword armed on an idle agent, and its next contact
      with the defender is a strike. */
  lemma StaleSwordAfterResetAsWritten()
    ensures var a := Initial(Hitbox(HitboxData(false, false)), NoHitbox, ZeroStats, 0.0);
            var swinging := Attack(a, 0.0, 0.0).1.(hp := 20.0);
            var reset := ResetHPAsWritten(TakeDamage(swinging, 30.0));
            !Busy(reset) && Armed(reset.sword) &&
            Trigger(reset.sword.data, 1, Collider(2, false, true)).1 == StrikeDefender
  {
  }

  /** With the intended ResetHP a reset agent cannot strike with any hitbox
      until it attacks again. */
  lemma ResetDisarms(a: AttackerData, root: int, contacts: seq<Collider>)
    ensures ResetHP(a).sword.Hitbox? ==> Strikes(ResetHP(a).sword.data, root, contacts) == 0
    ensures ResetHP(a).kick.Hitbox? ==> Strikes(ResetHP(a).kick.data, root, contacts) == 0
  {
    if ResetHP(a).sword.Hitbox? {
      InactiveNeverStrikes(ResetHP(a).sword.data, root, contacts);
    }
    if ResetHP(a).kick.Hitbox? {
      InactiveNeverStrikes(ResetHP(a).kick.data, root, contacts);
    }
  }

  // ----- gates -----

  /** Every gate is closed while an action runs or the agent is dead, and a
      refused Attack, KickAttack or Block changes nothing. */
  lemma GatesClosedWhileBusy(a: AttackerData, now: real, facing: real)
    requires Busy(a) || IsDead(a)
    ensures !CanAttack(a, now) && !CanBlock(a, now) && !CanDodge(a, now)
    ensures Attack(a, now, facing) == (false, a) && KickAttack(a, now, facing) == (false, a)
    ensures Block(a, now) == (false, a)
  {
  }

  /** The cooldown shown to the UI is zero exactly when the gate's time
      condition holds. */
  lemma CooldownMatchesGate(a: AttackerData, now: real)
    ensures CooldownRemaining(AttackCooldown, a.stamps.lastAttackTime, now) == 0.0 <==> now - a.stamps.lastAttackTime >= AttackCooldown
    ensures CooldownRemaining(BlockCooldown, a.stamps.lastBlockTime, now) == 0.0 <==> now - a.stamps.lastBlockTime >= BlockCooldown
    ensures CooldownRemaining(DodgeCooldown, a.stamps.lastDodgeTime, now) == 0.0 <==> now - a.stamps.lastDodgeTime >= DodgeCooldown
    ensures !IsDead(a) && !Busy(a) ==>
              (CanAttack(a, now) <==> CooldownRemaining(AttackCooldown, a.stamps.lastAttackTime, now) == 0.0)
  {
  }

  /** After ResetHP every action is available at any non-negative time. */
  lemma ResetMakesReady(a: AttackerData, now: real)
    requires now >= 0.0
    ensures CanAttack(ResetHP(a), now) && CanBlock(ResetHP(a), now) && CanDodge(ResetHP(a), now)
  {
  }

  /** A dead agent ignores damage. */
  lemma DeathIsFinal(a: AttackerData, damage: real)
    requires IsDead(a)
    ensures TakeDamage(a, damage) == a
  {
  }

  // ----- frames over time -----

  predicate NonNegative(dts: seq<real>)
  {
    forall i :: 0 <= i < |dts| ==> dts[i] >= 0.0
  }

  /** Frames at `now + dts[0]`, `now + dts[0] + dts[1]`, ...: the final state
      and the final time. */
  function TickRun(a: AttackerData, now: real, dts: seq<real>): (AttackerData, real)
    decreases |dts|
  {
    if dts == [] then (a, now)
    else TickRun(Tick(a, now + dts[0], dts[0]), now + dts[0], dts[1..])
  }

  /** Between a sword attack started at `t0` and the next one: either still
      swinging with the elapsed time waited, or finished no earlier than
      AttackDuration after the start. */
  predicate AttackSpacing(a: AttackerData, now: real, t0: real)
  {
    (a.coroutine == AttackWait(now - t0) && a.flags.isAttacking)
    || (a.coroutine == NoCoroutine && a.stamps.lastAttackTime >= t0 + AttackDuration)
  }

  lemma AttackSpacingStep(a: AttackerData, now: real, t0: real, dt: real)
    requires AttackSpacing(a, now, t0) && dt >= 0.0
    ensures AttackSpacing(Tick(a, now + dt, dt), now + dt, t0)
  {
  }

  /** Without other actions in between, no attack or kick can start sooner
      than AttackDuration + AttackCooldown after a sword attack began. */
  lemma {:induction false} NextAttackNotBefore(a: AttackerData, now: real, t0: real, dts: seq<real>)
    requires AttackSpacing(a, now, t0) && NonNegative(dts)
    ensures CanAttack(TickRun(a, now, dts).0, TickRun(a, now, dts).1) ==>
              TickRun(a, now, dts).1 >= t0 + AttackDuration + AttackCooldown
    ensures AttackSpacing(TickRun(a, now, dts).0, TickRun(a, now, dts).1, t0)
    decreases |dts|
  {
    if dts != [] {
      AttackSpacingStep(a, now, t0, dts[0]);
      var b := Tick(a, now + dts[0], dts[0]);
      assert NonNegative(dts[1..]) by {
        forall i | 0 <= i < |dts[1..]| ensures dts[1..][i] >= 0.0 {
          assert dts[1..][i] == dts[i + 1];
        }
      }
      NextAttackNotBefore(b, now + dts[0], t0, dts[1..]);
    }
  }

  /** During a kick the body stays turned by KickTurn from where it faced;
      once the kick is over it faces that way again. */
  predicate KickFacing(a: AttackerData, y0: real)
  {
    ((a.coroutine.KickCast? || a.coroutine.KickFollow?) && a.pose.yaw == y0 + KickTurn)
    || (a.coroutine == NoCoroutine && a.pose.yaw == y0 && !a.flags.isKickAttacking)
  }

  lemma KickFacingStep(a: AttackerData, y0: real, now: real, dt: real)
    requires KickFacing(a, y0)
    ensures KickFacing(Tick(a, now, dt), y0)
  {
    var u := Update(a, now);
    assert u.coroutine == a.coroutine && u.pose == a.pose && u.flags == a.flags;
  }

  lemma {:induction false} KickRestoresFacing(a: AttackerData, y0: real, now: real, dts: seq<real>)
    requires KickFacing(a, y0)
    ensures KickFacing(TickRun(a, now, dts).0, y0)
    ensures TickRun(a, now, dts).0.coroutine == NoCoroutine ==> TickRun(a, now, dts).0.pose.yaw == y0
    decreases |dts|
  {
    if dts != [] {
      KickFacingStep(a, y0, now + dts[0], dts[0]);
      KickRestoresFacing(Tick(a, now + dts[0], dts[0]), y0, now + dts[0], dts[1..]);
    }
  }

  /** A kick started at `facing` is in KickFacing with y0 == facing. */
  lemma KickStartsTurned(a: AttackerData, now: real, facing: real)
    requires CanAttack(a, now)
    ensures KickFacing(KickAttack(a, now, facing).1, facing)
  {
  }

  /** Invincibility during a dodge started at `t0` in a frame of length
      `dt0`: still moving with the elapsed time counted, in the invincible
      tail with the movement finished, or past the protected window. */
  predicate DodgeCover(a: AttackerData, now: real, t0: real, dt0: real)
  {
    (a.coroutine == DodgeMove(now - t0 + dt0) && a.flags.isInvincible)
    || (a.coroutine.DodgeGrace? && a.flags.isInvincible && now - a.coroutine.waited - t0 + dt0 >= DodgeDuration)
    || (!a.coroutine.DodgeMove? && !a.coroutine.DodgeGrace? && now >= t0 - dt0 + DodgeDuration + DodgeGraceTime)
  }

  lemma DodgeCoverStep(a: AttackerData, now: real, t0: real, dt0: real, dt: real)
    requires DodgeCover(a, now, t0, dt0) && dt >= 0.0
    ensures DodgeCover(Tick(a, now + dt, dt), now + dt, t0, dt0)
  {
    assert Update(a, now + dt).coroutine == a.coroutine;
  }

  /** A dodge keeps the agent invincible for DodgeDuration + DodgeGraceTime
      after it began, less the length of the frame that started it. */
  lemma {:induction false} DodgeProtects(a: AttackerData, now: real, t0: real, dt0: real, dts: seq<real>)
    requires DodgeCover(a, now, t0, dt0) && NonNegative(dts)
    ensures DodgeCover(TickRun(a, now, dts).0, TickRun(a, now, dts).1, t0, dt0)
    ensures TickRun(a, now, dts).1 < t0 - dt0 + DodgeDuration + DodgeGraceTime ==>
              TickRun(a, now, dts).0.flags.isInvincible
    decreases |dts|
  {
    if dts != [] {
      DodgeCoverStep(a, now, t0, dt0, dts[0]);
      assert NonNegative(dts[1..]) by {
        forall i | 0 <= i < |dts[1..]| ensures dts[1..][i] >= 0.0 {
          assert dts[1..][i] == dts[i + 1];
        }
      }
      DodgeProtects(Tick(a, now + dts[0], dts[0]), now + dts[0], t0, dt0, dts[1..]);
    }
  }

  /** An accepted dodge at `now` in a frame of length `dt` starts covered. */
  lemma DodgeStartsCovered(a: AttackerData, now: real, dt: real)
    requires CanDodge(a, now)
    ensures DodgeCover(Dodge(a, now, dt).1, now, now, dt)
  {
  }
}
