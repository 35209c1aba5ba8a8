// CombatManager: a single interactive match started and reset from the UI.
// While a combat runs, each frame advances the timer and checks, in order,
// the attacker's death, the defender's death and the time limit, where the
// higher HP fraction wins.

module ManagerRules {
  import opened LeafRules
  import opened CombatCommon
  import AR = AttackerRules
  import DR = DefenderRules

  const DefaultCombatTimeLimit: real := 120.0

  /** The five result texts EndCombat can show. */
  datatype MatchResult = DefenderByDeath | AttackerByDeath | AttackerByHP | DefenderByHP | DrawByHP

  datatype ManagerData = ManagerData(combatInProgress: bool, combatEnded: bool, combatTimer: real)

  const Idle := ManagerData(false, false, 0.0)

  /** `agent != null && agent.IsDead`. */
  predicate Dead(hp: Option<real>) { hp.Some? && hp.value <= 0.0 }

  /** `agent != null ? agent.HPPercentage : 0f` for an agent of maximum HP
      `maxHP`. */
  function Percentage(hp: Option<real>, maxHP: real): real
    requires maxHP > 0.0
  {
    if hp.Some? then HPFraction(hp.value, maxHP) else 0.0
  }

  /** UpdateCombat's decision at timer value `timer`. */
  function Judge(timer: real, limit: real, attackerHP: Option<real>, defenderHP: Option<real>): (r: Option<MatchResult>)
    ensures Dead(attackerHP) ==> r == Some(DefenderByDeath)
    ensures !Dead(attackerHP) && Dead(defenderHP) ==> r == Some(AttackerByDeath)
    ensures r.None? <==> !Dead(attackerHP) && !Dead(defenderHP) && timer < limit
  {
    if Dead(attackerHP) then Some(DefenderByDeath)
    else if Dead(defenderHP) then Some(AttackerByDeath)
    else if timer >= limit then
      var pa := Percentage(attackerHP, AR.MaxHP);
      var pd := Percentage(defenderHP, DR.MaxHP);
      Some(if pa > pd then AttackerByHP else if pd > pa then DefenderByHP else DrawByHP)
    else None
  }

  /** Whether a combat is running: Update only works then. */
  predicate Running(d: ManagerData) { d.combatInProgress && !d.combatEnded }

  /** Update: while running, the timer advances by `dt` and the combat ends
      on a result. Yields the state and the result shown, if any. */
  function Update(d: ManagerData, limit: real, dt: real, attackerHP: Option<real>, defenderHP: Option<real>)
    : (r: (ManagerData, Option<MatchResult>))
    ensures !Running(d) ==> r == (d, None)
    ensures Running(d) ==> r.0.combatInProgress && r.0.combatTimer == d.combatTimer + dt
                           && (r.0.combatEnded <==> r.1.Some?)
  {
    if !Running(d) then (d, None)
    else
      var timer := d.combatTimer + dt;
      var result := Judge(timer, limit, attackerHP, defenderHP);
      (d.(combatTimer := timer, combatEnded := result.Some?), result)
  }

  /** StartCombat as written: ignored whenever combatInProgress is set, and
      EndCombat never clears it. Yields the state and whether the agents are
      reset. */
  function StartCombatAsWritten(d: ManagerData): (r: (ManagerData, bool))
    ensures r.1 <==> !d.combatInProgress
    ensures r.1 ==> r.0 == ManagerData(true, false, 0.0)
    ensures !r.1 ==> r.0 == d
  {
    if d.combatInProgress then (d, false) else (ManagerData(true, false, 0.0), true)
  }

  /** StartCombat as intended: ignored only while a combat is running, so
      the start button EndCombat re-enables starts a new combat. */
  function StartCombat(d: ManagerData): (r: (ManagerData, bool))
    ensures r.1 <==> !Running(d)
    ensures r.1 ==> r.0 == ManagerData(true, false, 0.0)
    ensures !r.1 ==> r.0 == d
  {
    if Running(d) then (d, false) else (ManagerData(true, false, 0.0), true)
  }

  /** ResetCombat: nothing running, timer cleared, agents reset. */
  function ResetCombat(d: ManagerData): ManagerData
  {
    Idle
  }

  // ----- properties -----

  /** The attacker's death is checked first: it decides the combat whatever
      the defender's state and the timer, so two deaths in one frame go to
      the defender. */
  lemma AttackerDeathFirst(timer: real, limit: real, ah: Option<real>, dh: Option<real>)
    requires Dead(ah)
    ensures Judge(timer, limit, ah, dh) == Some(DefenderByDeath)
  {
  }

  /** With both alive, the combat is decided only once the timer reaches
      the limit, by the HP fractions: the larger one wins and equal ones
      draw. */
  lemma TimeoutByHP(timer: real, limit: real, ah: Option<real>, dh: Option<real>)
    requires !Dead(ah) && !Dead(dh)
    ensures timer < limit <==> Judge(timer, limit, ah, dh).None?
    ensures timer >= limit ==>
              (Judge(timer, limit, ah, dh) == Some(AttackerByHP) <==> Percentage(ah, AR.MaxHP) > Percentage(dh, DR.MaxHP))
              && (Judge(timer, limit, ah, dh) == Some(DefenderByHP) <==> Percentage(dh, DR.MaxHP) > Percentage(ah, AR.MaxHP))
              && (Judge(timer, limit, ah, dh) == Some(DrawByHP) <==> Percentage(ah, AR.MaxHP) == Percentage(dh, DR.MaxHP))
  {
  }

  /** Both agents have the same maximum HP, so comparing fractions is
      comparing HP; a missing agent counts as empty. */
  lemma PercentageOrdersHP(ah: real, dh: real)
    ensures Percentage(Some(ah), AR.MaxHP) > Percentage(Some(dh), DR.MaxHP) <==> ah > dh
    ensures Percentage(Some(ah), AR.MaxHP) == Percentage(Some(dh), DR.MaxHP) <==> ah == dh
    ensures Percentage(None, AR.MaxHP) == 0.0 && Percentage(None, DR.MaxHP) == 0.0
  {
    assert Percentage(Some(ah), AR.MaxHP) * AR.MaxHP == ah;
    assert Percentage(Some(dh), DR.MaxHP) * DR.MaxHP == dh;
  }

  /** Update changes nothing unless a combat is running; while running the
      timer grows by exactly `dt` and the combat ends exactly when a result
      is shown. */
  lemma UpdateRunsOnlyWhileRunning(d: ManagerData, limit: real, dt: real, ah: Option<real>, dh: Option<real>)
    ensures !Running(d) ==> Update(d, limit, dt, ah, dh) == (d, None)
    ensures Running(d) ==>
              var (d1, r) := Update(d, limit, dt, ah, dh);
              d1.combatTimer == d.combatTimer + dt && d1.combatInProgress
              && (d1.combatEnded <==> r.Some?) && r == Judge(d1.combatTimer, limit, ah, dh)
  {
  }

  /** Once a combat has ended, the state stands still until a start or a
      reset: an ended combat shows at most one result. */
  lemma EndedStandsStill(d: ManagerData, limit: real, dt: real, ah: Option<real>, dh: Option<real>)
    requires Running(d)
    ensures var (d1, r) := Update(d, limit, dt, ah, dh);
            r.Some? ==> Update(d1, limit, dt, ah, dh) == (d1, None)
  {
  }

  /** StartCombat is ignored while a combat is running, and otherwise begins
      one from a zero timer with the agents reset. */
  lemma StartCombatSpec(d: ManagerData)
    ensures Running(d) ==> StartCombat(d) == (d, false)
    ensures !Running(d) ==> StartCombat(d) == (ManagerData(true, false, 0.0), true) && Running(StartCombat(d).0)
  {
  }

  /** ResetCombat clears both flags and the timer from any state, after
      which StartCombat begins a combat. */
  lemma ResetThenStart(d: ManagerData)
    ensures ResetCombat(d) == ManagerData(false, false, 0.0)
    ensures StartCombat(ResetCombat(d)).1 && StartCombatAsWritten(ResetCombat(d)).1
  {
  }

  /** As written, a finished combat cannot be restarted: after the attacker
      dies, EndCombat re-enables the start button, yet StartCombat does
      nothing until ResetCombat. */
  lemma StartIgnoredAfterEndAsWritten()
    ensures var (started, _) := StartCombatAsWritten(Idle);
            var (ended, r) := Update(started, DefaultCombatTimeLimit, 0.02, Some(0.0), Some(DR.MaxHP));
            r == Some(DefenderByDeath) && !Running(ended)
            && StartCombatAsWritten(ended) == (ended, false)
            && StartCombat(ended) == (ManagerData(true, false, 0.0), true)
  {
  }

  /** The two versions differ only in that case. */
  lemma StartVersionsAgreeUnlessEnded(d: ManagerData)
    ensures StartCombat(d) != StartCombatAsWritten(d) <==> d.combatInProgress && d.combatEnded
  {
  }
}

module CombatManagerModel {
  import opened LeafRules
  import opened ManagerRules
  import opened AttackerControllerModel
  import opened DefenderControllerModel
  import opened AgentPair
  import AR = AttackerRules
  import DR = DefenderRules

  class CombatManager {
    const attacker: AttackerController?
    const defender: DefenderController?
    const combatTimeLimit: real

    var combatInProgress: bool
    var combatEnded: bool
    var combatTimer: real

    function View(): ManagerData
      reads this
    {
      ManagerData(combatInProgress, combatEnded, combatTimer)
    }

    predicate Valid() { Separate(attacker, defender) }

    constructor (attacker: AttackerController?, defender: DefenderController?, combatTimeLimit: real)
      requires Separate(attacker, defender)
      ensures this.attacker == attacker && this.defender == defender
      ensures this.combatTimeLimit == combatTimeLimit
      ensures Valid() && View() == Idle
    {
      this.attacker, this.defender, this.combatTimeLimit := attacker, defender, combatTimeLimit;
      combatInProgress, combatEnded, combatTimer := false, false, 0.0;
    }

    /** The start button, with its guard as written: ignored whenever
        combatInProgress is set, which EndCombat leaves set. */
    method StartCombat()
      requires Valid()
      modifies this, Footprint(attacker, defender)
      ensures View() == StartCombatAsWritten(old(View())).0
      ensures Views(attacker, defender) == ResetViews(old(Views(attacker, defender)), StartCombatAsWritten(old(View())).1)
    {
      if combatInProgress {
        return;
      }
      ResetAgents(attacker, defender);
      Begin();
    }

    method Begin()
      modifies this`combatInProgress, this`combatEnded, this`combatTimer
      ensures View() == ManagerData(true, false, 0.0)
    {
      combatInProgress, combatEnded, combatTimer := true, false, 0.0;
    }

    /** The reset button. */
    method ResetCombat()
      requires Valid()
      modifies this, Footprint(attacker, defender)
      ensures View() == ManagerRules.ResetCombat(old(View()))
      ensures Views(attacker, defender) == ResetViews(old(Views(attacker, defender)), true)
    {
      ResetAgents(attacker, defender);
      Clear();
    }

    method Clear()
      modifies this`combatInProgress, this`combatEnded, this`combatTimer
      ensures View() == Idle
    {
      combatInProgress, combatEnded, combatTimer := false, false, 0.0;
    }

    /** One frame with frame time `dt`: UpdateCombat while a combat runs;
        the result EndCombat shows is returned. */
    method Update(dt: real) returns (result: Option<MatchResult>)
      modifies this
      ensures (View(), result) == ManagerRules.Update(old(View()), combatTimeLimit, dt, AttackerHP(attacker), DefenderHP(defender))
    {
      result := None;
      if combatInProgress && !combatEnded {
        result := UpdateCombat(dt);
      }
    }

    method UpdateCombat(dt: real) returns (result: Option<MatchResult>)
      modifies this
      ensures View() == old(View()).(combatTimer := old(combatTimer) + dt, combatEnded := old(combatEnded) || result.Some?)
      ensures result == Judge(old(combatTimer) + dt, combatTimeLimit, AttackerHP(attacker), DefenderHP(defender))
    {
      combatTimer := combatTimer + dt;
      var ah, dh := AttackerHP(attacker), DefenderHP(defender);
      if attacker != null && Dead(ah) {
        result := Some(DefenderByDeath);
      } else if defender != null && Dead(dh) {
        result := Some(AttackerByDeath);
      } else if combatTimer >= combatTimeLimit {
        var attackerPct := Percentage(ah, AR.MaxHP);
        var defenderPct := Percentage(dh, DR.MaxHP);
        if attackerPct > defenderPct {
          result := Some(AttackerByHP);
        } else if defenderPct > attackerPct {
          result := Some(DefenderByHP);
        } else {
          result := Some(DrawByHP);
        }
      } else {
        return None;
      }
      combatEnded := true;
    }
  }
}
