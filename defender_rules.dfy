// The defender agent's state machine as values, in the same form as module
// AttackerRules: gates, action starts, one frame of Update plus coroutine
// resumption, damage with the block counter-stun, death and reset. Class
// DefenderController (defender_controller.dfy) performs the same transitions
// on its fields.

module DefenderRules {
  import opened Directions
  import opened SwordHitboxModel
  import opened CombatStatsModel
  import opened CombatCommon

  const MoveSpeed: real := 3.5
  const AttackCooldown: real := 2.5
  const BlockCooldown: real := 2.0
  const DodgeCooldown: real := 4.0
  const AttackDuration: real := 1.2
  /** BlockCoroutine waits a fixed 1.5 s (the blockDuration field only scales
      the animation). */
  const BlockWaitTime: real := 1.5
  /** DodgeCoroutine's movement loop runs a fixed 0.8 s. */
  const DodgeMoveTime: real := 0.8
  const DodgeGraceTime: real := 0.1
  const MaxHP: real := 100.0
  /** How long a successful block stuns the attacker. */
  const StunDuration: real := 2.0
  /** The wait of the coroutine that clears justFinishedBlocking. */
  const FlagClearDelay: real := 0.01
  const NeverUsed: real := -1000.0

  datatype CombatState = Idle | WindUp | Commit | Active | Recovery | Blocking | Dodging

  datatype AttackType = NoAttack | Weak

  /** Where the defender's action coroutine is suspended. */
  datatype Coroutine =
    | NoCoroutine
    | AttackWait(waited: real)     // AttackCorutine, waiting attackDuration
    | BlockWait(waited: real)      // BlockCoroutine, waiting 1.5 s
    | DodgeMove(elapsed: real)     // DodgeCoroutine, in the movement loop
    | DodgeGrace(waited: real)     // DodgeCoroutine, the final 0.1 s wait

  /** The oldest pending coroutine that clears justFinishedBlocking. */
  datatype FlagClear = NoClear | ClearAfter(waited: real)

  datatype Flags = Flags(isAttacking: bool, isBlocking: bool, isDodging: bool, isInvincible: bool)

  const NoFlags := Flags(false, false, false, false)

  datatype Stamps = Stamps(lastAttackTime: real, lastBlockTime: real, lastDodgeTime: real)

  const NeverStamps := Stamps(NeverUsed, NeverUsed, NeverUsed)

  datatype DefenderData = DefenderData(
    hp: real, flags: Flags, justFinishedBlocking: bool, clear: FlagClear, stamps: Stamps,
    combatState: CombatState, attackType: AttackType, velocity: Vec2,
    coroutine: Coroutine, sword: MaybeHitbox, stats: StatsData)

  function Initial(sword: MaybeHitbox, stats: StatsData): DefenderData
  {
    DefenderData(MaxHP, NoFlags, false, NoClear, NeverStamps, Idle, NoAttack, Zero,
                 NoCoroutine, sword, stats)
  }

  predicate IsDead(d: DefenderData) { d.hp <= 0.0 }

  predicate Busy(d: DefenderData)
  {
    d.flags.isAttacking || d.flags.isBlocking || d.flags.isDodging
  }

  predicate CanAttack(d: DefenderData, now: real)
  {
    !IsDead(d) && !Busy(d) && now - d.stamps.lastAttackTime >= AttackCooldown
  }

  predicate CanBlock(d: DefenderData, now: real)
  {
    !IsDead(d) && !Busy(d) && now - d.stamps.lastBlockTime >= BlockCooldown
  }

  predicate CanDodge(d: DefenderData, now: real)
  {
    !IsDead(d) && !Busy(d) && now - d.stamps.lastDodgeTime >= DodgeCooldown
  }

  function Stop(d: DefenderData): (r: DefenderData)
    ensures r.velocity == Zero
  {
    d.(velocity := Zero)
  }

  /** Move: ignored while busy; otherwise grid movement at the move speed. */
  function Move(d: DefenderData, direction: Vec2): (r: DefenderData)
    ensures Busy(d) ==> r == d
    ensures !Busy(d) && Normalisable(direction, NormaliseEpsilon) ==>
              r.velocity == Scale(Closest4Direction(direction), MoveSpeed)
    ensures !Busy(d) && !Normalisable(direction, NormaliseEpsilon) ==> r == Stop(d)
  {
    if Busy(d) then d
    else if Normalisable(direction, NormaliseEpsilon) then
      d.(velocity := Scale(Closest4Direction(direction), MoveSpeed))
    else Stop(d)
  }

  function Attack(d: DefenderData, now: real): (r: (bool, DefenderData))
    ensures r.0 == CanAttack(d, now)
    ensures !r.0 ==> r.1 == d
    ensures r.0 ==> r.1.flags.isAttacking && r.1.coroutine == AttackWait(0.0)
                    && r.1.stats == RecordAttackAttempt(d.stats, false, 0.0)
                    && r.1.sword == EnableIfPresent(d.sword)
  {
    if !CanAttack(d, now) then (false, d)
    else (true, d.(stats := RecordAttackAttempt(d.stats, false, 0.0),
                   flags := d.flags.(isAttacking := true), sword := EnableIfPresent(d.sword),
                   coroutine := AttackWait(0.0)))
  }

  /** Block: BlockCoroutine also stops the agent before it waits. */
  function Block(d: DefenderData, now: real): (r: (bool, DefenderData))
    ensures r.0 == CanBlock(d, now)
    ensures !r.0 ==> r.1 == d
    ensures r.0 ==> r.1.flags.isBlocking && r.1.coroutine == BlockWait(0.0) && r.1.velocity == Zero
                    && r.1.stats == RecordBlockAttempt(d.stats, true)
  {
    if !CanBlock(d, now) then (false, d)
    else (true, Stop(d.(stats := RecordBlockAttempt(d.stats, true), flags := d.flags.(isBlocking := true),
                        combatState := Blocking, coroutine := BlockWait(0.0))))
  }

  /** Dodge: as the attacker's, with the first movement step in this frame. */
  function Dodge(d: DefenderData, now: real, dt: real): (r: (bool, DefenderData))
    ensures r.0 == CanDodge(d, now)
    ensures r.1.stats == RecordDodgeAttempt(d.stats, r.0)
    ensures !r.0 ==> r.1 == d.(stats := r.1.stats)
    ensures r.0 ==> r.1.flags.isDodging && r.1.flags.isInvincible && r.1.coroutine == DodgeMove(dt)
  {
    if !CanDodge(d, now) then (false, d.(stats := RecordDodgeAttempt(d.stats, false)))
    else (true, d.(stats := RecordDodgeAttempt(d.stats, true),
                   flags := d.flags.(isDodging := true, isInvincible := true),
                   combatState := Dodging, coroutine := DodgeMove(dt)))
  }

  // What runs when a wait of each coroutine is over.

  function AttackEnds(d: DefenderData, now: real): DefenderData
  {
    d.(sword := DisableIfPresent(d.sword), stamps := d.stamps.(lastAttackTime := now),
       flags := d.flags.(isAttacking := false), combatState := Idle, coroutine := NoCoroutine)
  }

  /** BlockCoroutine at its end: raise justFinishedBlocking for the counter. */
  function BlockEnds(d: DefenderData, now: real): DefenderData
  {
    d.(justFinishedBlocking := true, stamps := d.stamps.(lastBlockTime := now),
       flags := d.flags.(isBlocking := false), combatState := Idle, coroutine := NoCoroutine)
  }

  /** DodgeCoroutine at its end: dodging and invincibility end together. */
  function DodgeEnds(d: DefenderData, now: real): DefenderData
  {
    d.(stamps := d.stamps.(lastDodgeTime := now),
       flags := d.flags.(isDodging := false, isInvincible := false),
       combatState := Idle, coroutine := NoCoroutine)
  }

  /** One resumption of the action coroutine: HP, statistics and the
      clearing coroutine are left alone; a coroutine ends only from its last
      wait, and the action it ends stamps its cooldown at `now`. */
  function Resume(d: DefenderData, now: real, dt: real): (r: DefenderData)
    ensures r.hp == d.hp && r.stats == d.stats && r.clear == d.clear
    ensures d.coroutine == NoCoroutine ==> r == d
    ensures r.coroutine != NoCoroutine ==> r.stamps == d.stamps && r.justFinishedBlocking == d.justFinishedBlocking
    ensures r.coroutine == NoCoroutine ==>
              d.coroutine.NoCoroutine? || d.coroutine.AttackWait? || d.coroutine.BlockWait? || d.coroutine.DodgeGrace?
    ensures d.coroutine.AttackWait? && r.coroutine == NoCoroutine ==>
              !r.flags.isAttacking && r.stamps.lastAttackTime == now && r.sword == DisableIfPresent(d.sword)
    ensures d.coroutine.BlockWait? && r.coroutine == NoCoroutine ==>
              r.justFinishedBlocking && !r.flags.isBlocking && r.stamps.lastBlockTime == now
    ensures d.coroutine.DodgeGrace? && r.coroutine == NoCoroutine ==>
              !r.flags.isDodging && !r.flags.isInvincible && r.stamps.lastDodgeTime == now
  {
    match d.coroutine
    case NoCoroutine => d
    case AttackWait(w) =>
      if w + dt >= AttackDuration then AttackEnds(d, now) else d.(coroutine := AttackWait(w + dt))
    case BlockWait(w) =>
      if w + dt >= BlockWaitTime then BlockEnds(d, now) else d.(coroutine := BlockWait(w + dt))
    case DodgeMove(e) =>
      if e < DodgeMoveTime then d.(coroutine := DodgeMove(e + dt)) else d.(coroutine := DodgeGrace(0.0))
    case DodgeGrace(w) =>
      if w + dt >= DodgeGraceTime then DodgeEnds(d, now) else d.(coroutine := DodgeGrace(w + dt))
  }

  /** Update: while justFinishedBlocking is raised a clearing coroutine is
      started; only the oldest one matters, and it waits from this frame. */
  function Update(d: DefenderData): (r: DefenderData)
    ensures r == d.(clear := r.clear)
    ensures r.clear == if d.justFinishedBlocking && d.clear == NoClear then ClearAfter(0.0) else d.clear
  {
    if d.justFinishedBlocking && d.clear == NoClear then d.(clear := ClearAfter(0.0)) else d
  }

  /** The clearing coroutine started in an earlier frame resumes. */
  function ResumeClear(d: DefenderData, pending: FlagClear, dt: real): (r: DefenderData)
    ensures r == d.(justFinishedBlocking := r.justFinishedBlocking, clear := r.clear)
    ensures pending == NoClear ==> r == d
    ensures pending.ClearAfter? ==> (r.clear == NoClear <==> pending.waited + dt >= FlagClearDelay)
    ensures pending.ClearAfter? && r.clear == NoClear ==> !r.justFinishedBlocking
    ensures pending.ClearAfter? && r.clear != NoClear ==>
              r.clear == ClearAfter(pending.waited + dt) && r.justFinishedBlocking == d.justFinishedBlocking
  {
    match pending
    case NoClear => d
    case ClearAfter(w) =>
      if w + dt >= FlagClearDelay then d.(justFinishedBlocking := false, clear := NoClear)
      else d.(clear := ClearAfter(w + dt))
  }

  /** One frame: Update, then the coroutines suspended in earlier frames.
      The HP and statistics are untouched, and a clearing coroutine started
      this frame first resumes on the next one. */
  function Tick(d: DefenderData, now: real, dt: real): (r: DefenderData)
    ensures r.hp == d.hp && r.stats == d.stats
    ensures d.justFinishedBlocking && d.clear == NoClear ==> r.clear == ClearAfter(0.0)
    ensures d.clear == NoClear && d.coroutine == NoCoroutine ==> r == Update(d)
  {
    Resume(ResumeClear(Update(d), d.clear, dt), now, dt)
  }

  function OnDeath(d: DefenderData): (r: DefenderData)
    ensures r.coroutine == NoCoroutine && r.clear == NoClear && !r.flags.isBlocking && !r.flags.isDodging
    ensures r.flags.isAttacking == d.flags.isAttacking && r.sword == d.sword
  {
    d.(coroutine := NoCoroutine, clear := NoClear, combatState := Idle, attackType := NoAttack,
       flags := d.flags.(isBlocking := false, isDodging := false, isInvincible := false))
  }

  /** What a hit does: nothing while invincible or dead; a block against
      anything but a kick stuns the attacker (the returned flag) and counts a
      stun caused; otherwise the clamped HP loss, and OnDeath at zero HP. */
  function TakeDamage(d: DefenderData, damage: real, attackerKicking: bool): (r: (DefenderData, bool))
    ensures d.flags.isInvincible || IsDead(d) ==> r == (d, false)
    ensures r.1 <==> !d.flags.isInvincible && !IsDead(d) && d.flags.isBlocking && !attackerKicking
    ensures r.1 ==> r.0 == d.(stats := d.stats.(stunsCausedByBlock := d.stats.stunsCausedByBlock + 1))
    ensures !d.flags.isInvincible && !IsDead(d) && !r.1 ==> r.0.hp == DamagedHP(d.hp, damage)
    ensures r.0.stats.damageTaken == d.stats.damageTaken
  {
    if d.flags.isInvincible || IsDead(d) then (d, false)
    else if d.flags.isBlocking && !attackerKicking then
      (d.(stats := d.stats.(stunsCausedByBlock := d.stats.stunsCausedByBlock + 1)), true)
    else
      var d1 := d.(hp := DamagedHP(d.hp, damage));
      (if IsDead(d1) then OnDeath(d1) else d1, false)
  }

  /** DefenderController.ResetHP: the sword is left armed if a swing was
      cut short. */
  function ResetHPAsWritten(d: DefenderData): (r: DefenderData)
    ensures r.hp == MaxHP && r.flags == NoFlags && !r.justFinishedBlocking && r.stamps == NeverStamps
    ensures r.coroutine == NoCoroutine && r.clear == NoClear && r.sword == d.sword
  {
    Stop(d.(hp := MaxHP, flags := NoFlags, justFinishedBlocking := false, stamps := NeverStamps,
            combatState := Idle, attackType := NoAttack, coroutine := NoCoroutine, clear := NoClear))
  }

  /** ResetHP as intended: the same reset, with the sword disarmed. */
  function ResetHP(d: DefenderData): (r: DefenderData)
    ensures r == ResetHPAsWritten(d).(sword := DisableIfPresent(d.sword))
    ensures r.sword.Hitbox? ==> !r.sword.data.isActive
  {
    ResetHPAsWritten(d).(sword := DisableIfPresent(d.sword))
  }

  // ----- invariant -----

  predicate Armed(m: MaybeHitbox)
  {
    m.Hitbox? && m.data.isActive
  }

  /** Each coroutine position has exactly its action's flags, the sword is
      armed only during the swing (or on a defender that died mid-swing), a
      clearing coroutine is pending only for a raised flag and has waited a
      non-negative time, and HP lies in
      [0, MaxHP]. */
  predicate Coherent(d: DefenderData)
  {
    0.0 <= d.hp <= MaxHP &&
    (d.clear.ClearAfter? ==> d.justFinishedBlocking && d.clear.waited >= 0.0) &&
    match d.coroutine
    case NoCoroutine =>
      !d.flags.isBlocking && !d.flags.isDodging && !d.flags.isInvincible &&
      (d.flags.isAttacking || Armed(d.sword) ==> IsDead(d))
    case AttackWait(_) =>
      d.flags == NoFlags.(isAttacking := true) && (d.sword.Hitbox? ==> d.sword.data.isActive)
    case BlockWait(_) =>
      d.flags == NoFlags.(isBlocking := true) && !Armed(d.sword)
    case DodgeMove(_) =>
      d.flags == NoFlags.(isDodging := true, isInvincible := true) && !Armed(d.sword)
    case DodgeGrace(_) =>
      d.flags == NoFlags.(isDodging := true, isInvincible := true) && !Armed(d.sword)
  }

  lemma InitialCoherent(stats: StatsData, sword: bool)
    ensures Coherent(Initial(if sword then Hitbox(HitboxData(false, false)) else NoHitbox, stats))
  {
  }

  lemma CoherentUnderTick(d: DefenderData, now: real, dt: real)
    requires Coherent(d) && dt >= 0.0
    ensures Coherent(Tick(d, now, dt))
  {
    assert Coherent(Update(d));
  }

  lemma CoherentUnderActions(d: DefenderData, now: real, dt: real)
    requires Coherent(d)
    ensures Coherent(Attack(d, now).1)
    ensures Coherent(Block(d, now).1)
    ensures Coherent(Dodge(d, now, dt).1)
  {
  }

  lemma CoherentUnderHits(d: DefenderData, damage: real, kicking: bool, direction: Vec2)
    requires Coherent(d) && damage >= 0.0
    ensures Coherent(TakeDamage(d, damage, kicking).0)
    ensures Coherent(ResetHP(d))
    ensures Coherent(Move(d, direction))
  {
  }

  /** The whole of a dodge is invincible, so no hit lands during one. */
  lemma DodgeAbsorbsEveryHit(d: DefenderData, damage: real, kicking: bool)
    requires Coherent(d) && d.flags.isDodging
    ensures TakeDamage(d, damage, kicking) == (d, false)
  {
  }

  /** A block converts every hit but a kick into a stun of the attacker and
      costs no HP; a kick goes through the block. */
  lemma BlockCounters(d: DefenderData, damage: real)
    requires Coherent(d) && d.flags.isBlocking && !IsDead(d)
    ensures TakeDamage(d, damage, false).1 && TakeDamage(d, damage, false).0.hp == d.hp
    ensures !TakeDamage(d, damage, true).1 && TakeDamage(d, damage, true).0.hp == DamagedHP(d.hp, damage)
  {
  }

  /** The sword finding for the defender: a lethal hit mid-swing and
      DefenderController.ResetHP leave the sword armed on an idle defender. */
  lemma StaleSwordAfterResetAsWritten()
    ensures var d := Initial(Hitbox(HitboxData(false, false)), ZeroStats);
            var swinging := Attack(d, 0.0).1.(hp := 20.0);
            var reset := ResetHPAsWritten(TakeDamage(swinging, 30.0, false).0);
            !Busy(reset) && Armed(reset.sword) &&
            Trigger(reset.sword.data, 2, Collider(1, true, false)).1 == StrikeAttacker
  {
  }

  /** The intended ResetHP leaves no armed sword, so no contact strikes. */
  lemma ResetDisarms(d: DefenderData, root: int, contacts: seq<Collider>)
    ensures ResetHP(d).sword.Hitbox? ==> Strikes(ResetHP(d).sword.data, root, contacts) == 0
  {
    if ResetHP(d).sword.Hitbox? {
      InactiveNeverStrikes(ResetHP(d).sword.data, root, contacts);
    }
  }

  /** The block-finished flag is raised by the frame that ends the block and
      is gone two frames later once the second lasts FlagClearDelay. */
  lemma JustFinishedBlockingIsBrief(d: DefenderData, now: real, dt0: real, dt1: real, dt2: real)
    requires Coherent(d) && d.coroutine.BlockWait? && d.coroutine.waited + dt0 >= BlockWaitTime
    requires dt0 >= 0.0 && dt1 >= 0.0 && dt2 >= FlagClearDelay
    ensures Tick(d, now, dt0).justFinishedBlocking
    ensures !Tick(Tick(Tick(d, now, dt0), now + dt1, dt1), now + dt1 + dt2, dt2).justFinishedBlocking
  {
    var d0 := Tick(d, now, dt0);
    assert d0.coroutine == NoCoroutine;
    var d1 := Tick(d0, now + dt1, dt1);
    assert (d1.clear.ClearAfter? && d1.clear.waited >= 0.0) || !d1.justFinishedBlocking;
  }

  lemma GatesClosedWhileBusy(d: DefenderData, now: real)
    requires Busy(d) || IsDead(d)
    ensures !CanAttack(d, now) && !CanBlock(d, now) && !CanDodge(d, now)
    ensures Attack(d, now) == (false, d) && Block(d, now) == (false, d)
  {
  }

  lemma ResetMakesReady(d: DefenderData, now: real)
    requires now >= 0.0
    ensures CanAttack(ResetHP(d), now) && CanBlock(ResetHP(d), now) && CanDodge(ResetHP(d), now)
  {
  }

  // ----- frames over time -----

  predicate NonNegative(dts: seq<real>)
  {
    forall i :: 0 <= i < |dts| ==> dts[i] >= 0.0
  }

  function TickRun(d: DefenderData, now: real, dts: seq<real>): (DefenderData, real)
    decreases |dts|
  {
    if dts == [] then (d, now)
    else TickRun(Tick(d, now + dts[0], dts[0]), now + dts[0], dts[1..])
  }

  /** Between a block started at `t0` and the next: still blocking with the
      elapsed time waited, or finished no earlier than the 1.5 s wait. */
  predicate BlockSpacing(d: DefenderData, now: real, t0: real)
  {
    (d.coroutine == BlockWait(now - t0) && d.flags.isBlocking)
    || (d.coroutine == NoCoroutine && d.stamps.lastBlockTime >= t0 + BlockWaitTime)
  }

  lemma BlockSpacingStep(d: DefenderData, now: real, t0: real, dt: real)
    requires BlockSpacing(d, now, t0) && dt >= 0.0
    ensures BlockSpacing(Tick(d, now + dt, dt), now + dt, t0)
  {
    assert ResumeClear(Update(d), d.clear, dt).coroutine == d.coroutine;
  }

  /** Without other actions in between, no block can start sooner than
      BlockWaitTime + BlockCooldown after a block began. */
  lemma {:induction false} NextBlockNotBefore(d: DefenderData, now: real, t0: real, dts: seq<real>)
    requires BlockSpacing(d, now, t0) && NonNegative(dts)
    ensures BlockSpacing(TickRun(d, now, dts).0, TickRun(d, now, dts).1, t0)
    ensures CanBlock(TickRun(d, now, dts).0, TickRun(d, now, dts).1) ==>
              TickRun(d, now, dts).1 >= t0 + BlockWaitTime + BlockCooldown
    decreases |dts|
  {
    if dts != [] {
      BlockSpacingStep(d, now, t0, dts[0]);
      assert NonNegative(dts[1..]) by {
        forall i | 0 <= i < |dts[1..]| ensures dts[1..][i] >= 0.0 {
          assert dts[1..][i] == dts[i + 1];
        }
      }
      NextBlockNotBefore(Tick(d, now + dts[0], dts[0]), now + dts[0], t0, dts[1..]);
    }
  }
}
