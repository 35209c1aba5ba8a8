// CombatSimulationManager: a batch of combats between one attacker and one
// defender. Each combat ends on the time limit or on a death; the manager
// tallies the winner, stores a result record and, after a reset delay, starts
// the next combat until the configured number has been fought.

module SimulationRules {
  import opened LeafRules

  const DefaultTotalCombats: int := 100
  const DefaultCombatTimeLimit: real := 120.0
  const DefaultResetDelay: real := 2.0

  datatype DrawReason = TimeLimit | BothDead

  /** The winner label EndCombat receives: "Attacker", "Defender", or one of
      the two draw labels, which fall to the default branch of its switch. */
  datatype Winner = AttackerWon | DefenderWon | Draw(reason: DrawReason)

  datatype CombatResult = CombatResult(combatNumber: int, winner: Winner, duration: real,
                                       attackerFinalHP: real, defenderFinalHP: real)

  /** The inspector settings. */
  datatype Settings = Settings(totalCombats: int, combatTimeLimit: real, resetDelay: real)

  /** The manager's own state; `preparing` holds the time each pending
      PrepareNextCombat coroutine has waited so far; `lastWinner` is None
      for the empty label. */
  datatype SimData = SimData(currentCombatNumber: int, attackerWins: int, defenderWins: int, draws: int,
                             inProgress: bool, startTime: real, lastWinner: Option<Winner>,
                             results: seq<CombatResult>, preparing: seq<real>)

  const Fresh := SimData(0, 0, 0, 0, false, 0.0, None, [], [])

  /** `agent?.IsDead ?? false`, from the agent's HP (None for a missing agent). */
  predicate AgentDead(hp: Option<real>) { hp.Some? && hp.value <= 0.0 }

  /** `agent?.CurrentHP ?? 0f`. */
  function FinalHP(hp: Option<real>): real { if hp.Some? then hp.value else 0.0 }

  /** CheckCombatEnd's decision: the time limit first, then the deaths. */
  function Verdict(elapsed: real, limit: real, attackerDead: bool, defenderDead: bool): (r: Option<Winner>)
    ensures elapsed >= limit ==> r == Some(Draw(TimeLimit))
    ensures elapsed < limit ==> (r.None? <==> !attackerDead && !defenderDead)
    ensures elapsed < limit && attackerDead && defenderDead ==> r == Some(Draw(BothDead))
    ensures elapsed < limit && attackerDead && !defenderDead ==> r == Some(DefenderWon)
    ensures elapsed < limit && !attackerDead && defenderDead ==> r == Some(AttackerWon)
  {
    if elapsed >= limit then Some(Draw(TimeLimit))
    else if attackerDead && defenderDead then Some(Draw(BothDead))
    else if attackerDead then Some(DefenderWon)
    else if defenderDead then Some(AttackerWon)
    else None
  }

  /** The three counters the winner can fall into. */
  datatype Side = AttackerSide | DefenderSide | DrawSide

  function SideOf(w: Winner): Side
  {
    match w
    case AttackerWon => AttackerSide
    case DefenderWon => DefenderSide
    case Draw(_) => DrawSide
  }

  /** The counter for `side`. */
  function Counter(s: SimData, side: Side): int
  {
    match side
    case AttackerSide => s.attackerWins
    case DefenderSide => s.defenderWins
    case DrawSide => s.draws
  }

  /** How many of `rs` fall to `side`. */
  function Count(rs: seq<CombatResult>, side: Side): nat
  {
    if |rs| == 0 then 0
    else Count(rs[..|rs| - 1], side) + (if SideOf(rs[|rs| - 1].winner) == side then 1 else 0)
  }

  /** Whether StartNextCombat starts a combat rather than ending the run. */
  predicate Starts(s: SimData, settings: Settings)
  {
    s.currentCombatNumber < settings.totalCombats
  }

  /** StartNextCombat at time `now`: past the configured total, only the
      closing log; otherwise the next combat number, in progress from `now`
      with the winner label cleared. The agents' ResetHP is the controllers'
      business and is stated beside the method. */
  function StartNext(s: SimData, settings: Settings, now: real): (r: SimData)
    ensures !Starts(s, settings) ==> r == s
    ensures Starts(s, settings) ==> r.currentCombatNumber == s.currentCombatNumber + 1 && r.inProgress
                                    && r.startTime == now && r.lastWinner.None?
    ensures r.attackerWins == s.attackerWins && r.defenderWins == s.defenderWins && r.draws == s.draws
    ensures r.results == s.results && r.preparing == s.preparing
  {
    if !Starts(s, settings) then s
    else s.(currentCombatNumber := s.currentCombatNumber + 1, inProgress := true,
            startTime := now, lastWinner := None)
  }

  /** EndCombat: the combat stops, one counter goes up, one result record is
      kept and a PrepareNextCombat coroutine starts waiting. */
  function EndCombat(s: SimData, w: Winner, now: real, attackerHP: Option<real>, defenderHP: Option<real>): (r: SimData)
    ensures r.preparing == s.preparing + [0.0]
    ensures |r.results| == |s.results| + 1 && r.results[..|s.results|] == s.results
    ensures !r.inProgress && r.lastWinner == Some(w)
  {
    var tallied :=
      match SideOf(w)
      case AttackerSide => s.(attackerWins := s.attackerWins + 1)
      case DefenderSide => s.(defenderWins := s.defenderWins + 1)
      case DrawSide => s.(draws := s.draws + 1);
    tallied.(inProgress := false, lastWinner := Some(w),
             results := s.results + [CombatResult(s.currentCombatNumber, w, now - s.startTime,
                                                  FinalHP(attackerHP), FinalHP(defenderHP))],
             preparing := s.preparing + [0.0])
  }

  function CheckCombatEnd(s: SimData, settings: Settings, now: real,
                          attackerHP: Option<real>, defenderHP: Option<real>): (r: SimData)
    ensures |s.results| <= |r.results| <= |s.results| + 1 && r.results[..|s.results|] == s.results
    ensures r.preparing == s.preparing + (if |r.results| > |s.results| then [0.0] else [])
    ensures |r.results| > |s.results| <==> r != s
  {
    match Verdict(now - s.startTime, settings.combatTimeLimit, AgentDead(attackerHP), AgentDead(defenderHP))
    case None => s
    case Some(w) => EndCombat(s, w, now, attackerHP, defenderHP)
  }

  /** Whether one of the waits `due` is over after a further `dt`. */
  predicate AnyOver(due: seq<real>, dt: real, delay: real)
  {
    exists i :: 0 <= i < |due| && due[i] + dt >= delay
  }

  /** The waits of `due` still pending after a further `dt`, each advanced
      by `dt`, in their order. */
  function Kept(due: seq<real>, dt: real, delay: real): (r: seq<real>)
    ensures |r| <= |due|
    ensures forall j :: 0 <= j < |r| ==> r[j] < delay
    ensures |r| == |due| <==> !AnyOver(due, dt, delay)
    decreases |due|
  {
    if |due| == 0 then []
    else
      var front := due[..|due| - 1];
      var w := due[|due| - 1];
      assert forall i :: 0 <= i < |front| ==> front[i] == due[i];
      if w + dt >= delay then Kept(front, dt, delay) else Kept(front, dt, delay) + [w + dt]
  }

  /** The pending coroutines `due` resume in order, each after this frame's
      `dt`: one whose wait is over starts the next combat, the others keep
      waiting. Yields the state, the waits still pending and whether any of
      them started a combat (and so reset the agents). */
  function ResumePrepare(s: SimData, settings: Settings, due: seq<real>, now: real, dt: real)
    : (r: (SimData, seq<real>, bool))
    ensures r.0.preparing == s.preparing
    ensures r.1 == Kept(due, dt, settings.resetDelay)
    ensures !AnyOver(due, dt, settings.resetDelay) ==> r.0 == s && !r.2
    ensures Starts(s, settings) ==> (r.2 <==> AnyOver(due, dt, settings.resetDelay))
    ensures r.2 ==> r.0.inProgress
    ensures r.0.attackerWins == s.attackerWins && r.0.defenderWins == s.defenderWins && r.0.draws == s.draws
    ensures r.0.results == s.results
    decreases |due|
  {
    if |due| == 0 then (s, [], false)
    else
      var (s1, kept, fired) := ResumePrepare(s, settings, due[..|due| - 1], now, dt);
      var w := due[|due| - 1];
      if w + dt >= settings.resetDelay then (StartNext(s1, settings, now), kept, fired || Starts(s1, settings))
      else (s1, kept + [w + dt], fired)
  }

  /** One frame: Update checks for the end of a combat in progress, then the
      coroutines that were pending before this frame resume; one EndCombat
      started in this frame waits from the next. */
  function Tick(s: SimData, settings: Settings, now: real, dt: real,
                attackerHP: Option<real>, defenderHP: Option<real>): (r: (SimData, bool))
    ensures r.1 ==> r.0.inProgress
    ensures |s.results| <= |r.0.results| <= |s.results| + 1 && r.0.results[..|s.results|] == s.results
    ensures !s.inProgress ==> r.0.results == s.results
    ensures r.0.preparing == Kept(s.preparing, dt, settings.resetDelay)
                             + (if |r.0.results| > |s.results| then [0.0] else [])
  {
    var s1 := if s.inProgress then CheckCombatEnd(s, settings, now, attackerHP, defenderHP) else s;
    var (s2, kept, fired) := ResumePrepare(s1, settings, s.preparing, now, dt);
    (s2.(preparing := kept + s1.preparing[|s.preparing|..]), fired)
  }

  /** ResetSimulation: counters and records cleared, nothing in progress.
      Coroutines already pending are not stopped. */
  function ResetSimulation(s: SimData): (r: SimData)
    ensures r.currentCombatNumber == 0 && r.attackerWins == 0 && r.defenderWins == 0 && r.draws == 0
    ensures r.results == [] && !r.inProgress
    ensures r.preparing == s.preparing
  {
    s.(currentCombatNumber := 0, attackerWins := 0, defenderWins := 0, draws := 0,
       results := [], inProgress := false)
  }

  /** StartNextCombatDebug: a new combat only when none is in progress. */
  function StartNextDebug(s: SimData, settings: Settings, now: real): (r: SimData)
    ensures s.inProgress ==> r == s
    ensures !s.inProgress ==> r == StartNext(s, settings, now)
    ensures r.inProgress <==> s.inProgress || Starts(s, settings)
  {
    if s.inProgress then s else StartNext(s, settings, now)
  }

  // ----- invariant -----

  /** Each counter is the number of results of its side; the results are
      numbered in increasing order up to the current combat, and a combat
      in progress has no result yet. */
  /** Results are recorded in the order their combats were numbered. */
  predicate Increasing(rs: seq<CombatResult>)
  {
    forall i, j :: 0 <= i < j < |rs| ==> rs[i].combatNumber < rs[j].combatNumber
  }

  /** Every recorded combat number lies in [1, hi]. */
  predicate NumberedUpTo(rs: seq<CombatResult>, hi: int)
  {
    forall i :: 0 <= i < |rs| ==> 1 <= rs[i].combatNumber <= hi
  }

  /** Every recorded combat number is below n. */
  predicate NumberedBelow(rs: seq<CombatResult>, n: int)
  {
    forall i :: 0 <= i < |rs| ==> rs[i].combatNumber < n
  }

  /** Recording combat n after combats numbered below it keeps the order. */
  lemma AppendResult(rs: seq<CombatResult>, r: CombatResult)
    requires Increasing(rs) && NumberedUpTo(rs, r.combatNumber) && NumberedBelow(rs, r.combatNumber)
    requires r.combatNumber >= 1
    ensures Increasing(rs + [r]) && NumberedUpTo(rs + [r], r.combatNumber)
  {
    var ext := rs + [r];
    assert forall i :: 0 <= i < |rs| ==> ext[i] == rs[i];
  }

  predicate Coherent(s: SimData, settings: Settings)
  {
    && s.currentCombatNumber >= 0
    && (s.currentCombatNumber <= settings.totalCombats || s.currentCombatNumber == 0)
    && s.attackerWins == Count(s.results, AttackerSide)
    && s.defenderWins == Count(s.results, DefenderSide)
    && s.draws == Count(s.results, DrawSide)
    && Increasing(s.results)
    && NumberedUpTo(s.results, s.currentCombatNumber)
    && (s.inProgress ==> NumberedBelow(s.results, s.currentCombatNumber) && s.currentCombatNumber >= 1)
  }

  lemma {:induction false} CountAppend(rs: seq<CombatResult>, r: CombatResult, side: Side)
    ensures Count(rs + [r], side) == Count(rs, side) + if SideOf(r.winner) == side then 1 else 0
  {
    assert (rs + [r])[..|rs|] == rs;
  }

  /** The three counts add up to the number of results. */
  lemma {:induction false} CountsSum(rs: seq<CombatResult>)
    ensures Count(rs, AttackerSide) + Count(rs, DefenderSide) + Count(rs, DrawSide) == |rs|
  {
    if |rs| > 0 {
      CountsSum(rs[..|rs| - 1]);
    }
  }

  lemma FreshCoherent(settings: Settings)
    ensures Coherent(Fresh, settings)
  {
  }

  /** EndCombat raises exactly the winner's counter by one and appends exactly
      one result, numbered with the current combat. */
  lemma EndCombatTallies(s: SimData, w: Winner, now: real, ah: Option<real>, dh: Option<real>, side: Side)
    ensures var e := EndCombat(s, w, now, ah, dh);
            Counter(e, side) == Counter(s, side) + (if SideOf(w) == side then 1 else 0)
            && |e.results| == |s.results| + 1 && e.results[..|s.results|] == s.results
            && e.results[|s.results|].winner == w
            && e.results[|s.results|].combatNumber == s.currentCombatNumber
            && !e.inProgress && e.currentCombatNumber == s.currentCombatNumber
  {
    var e := EndCombat(s, w, now, ah, dh);
    assert e.results[..|s.results|] == s.results;
  }

  lemma EndCombatCoherent(s: SimData, settings: Settings, w: Winner, now: real, ah: Option<real>, dh: Option<real>)
    requires Coherent(s, settings) && s.inProgress
    ensures Coherent(EndCombat(s, w, now, ah, dh), settings)
  {
    var e := EndCombat(s, w, now, ah, dh);
    var r := e.results[|s.results|];
    assert e.results == s.results + [r];
    AppendResult(s.results, r);
    CountAppend(s.results, r, AttackerSide);
    CountAppend(s.results, r, DefenderSide);
    CountAppend(s.results, r, DrawSide);
  }

  lemma StartNextCoherent(s: SimData, settings: Settings, now: real)
    requires Coherent(s, settings)
    ensures Coherent(StartNext(s, settings, now), settings)
  {
  }

  lemma {:induction false} ResumePrepareCoherent(s: SimData, settings: Settings, due: seq<real>, now: real, dt: real)
    requires Coherent(s, settings)
    ensures Coherent(ResumePrepare(s, settings, due, now, dt).0, settings)
    ensures ResumePrepare(s, settings, due, now, dt).0.preparing == s.preparing
  {
    if |due| > 0 {
      ResumePrepareCoherent(s, settings, due[..|due| - 1], now, dt);
      var (s1, _, _) := ResumePrepare(s, settings, due[..|due| - 1], now, dt);
      StartNextCoherent(s1, settings, now);
    }
  }

  /** A frame keeps the invariant. */
  lemma CoherentUnderTick(s: SimData, settings: Settings, now: real, dt: real,
                          ah: Option<real>, dh: Option<real>)
    requires Coherent(s, settings)
    ensures Coherent(Tick(s, settings, now, dt, ah, dh).0, settings)
  {
    var s1 := if s.inProgress then CheckCombatEnd(s, settings, now, ah, dh) else s;
    if s.inProgress {
      match Verdict(now - s.startTime, settings.combatTimeLimit, AgentDead(ah), AgentDead(dh))
      case None =>
      case Some(w) => EndCombatCoherent(s, settings, w, now, ah, dh);
    }
    ResumePrepareCoherent(s1, settings, s.preparing, now, dt);
  }

  /** So do the start and reset commands. */
  lemma CoherentUnderCommands(s: SimData, settings: Settings, now: real)
    requires Coherent(s, settings)
    ensures Coherent(StartNext(s, settings, now), settings)
    ensures Coherent(StartNextDebug(s, settings, now), settings)
    ensures Coherent(ResetSimulation(s), settings)
  {
    StartNextCoherent(s, settings, now);
  }

  /** No combat starts once the configured number has been reached: the
      counter never passes the total, and StartNext then changes nothing. */
  lemma NoCombatPastTotal(s: SimData, settings: Settings, now: real)
    requires Coherent(s, settings) && s.currentCombatNumber >= settings.totalCombats
    ensures StartNext(s, settings, now) == s
    ensures s.currentCombatNumber == settings.totalCombats || s.currentCombatNumber == 0
  {
  }

  /** At most `totalCombats` results exist in a coherent run. */
  lemma {:induction false} ResultsBounded(s: SimData, settings: Settings)
    requires Coherent(s, settings)
    ensures |s.results| <= s.currentCombatNumber
  {
    ResultsBelow(s.results, s.currentCombatNumber);
  }

  lemma {:induction false} ResultsBelow(rs: seq<CombatResult>, n: int)
    requires Increasing(rs) && NumberedUpTo(rs, n)
    requires n >= 0
    ensures |rs| <= n
  {
    if |rs| > 0 {
      var m := rs[|rs| - 1].combatNumber;
      var front := rs[..|rs| - 1];
      assert forall i :: 0 <= i < |front| ==> front[i] == rs[i];
      ResultsBelow(front, m - 1);
    }
  }

  /** A combat past its time limit is a draw whoever has died. */
  lemma TimeLimitWinsOverDeath(s: SimData, settings: Settings, now: real, ah: Option<real>, dh: Option<real>)
    requires s.inProgress && now - s.startTime >= settings.combatTimeLimit
    ensures CheckCombatEnd(s, settings, now, ah, dh).lastWinner == Some(Draw(TimeLimit))
    ensures CheckCombatEnd(s, settings, now, ah, dh).draws == s.draws + 1
  {
  }

  /** A missing agent never counts as dead, so a run with no defender only
      ends on a dead attacker or the time limit. */
  lemma MissingAgentNeverDies(elapsed: real, limit: real, attackerDead: bool)
    requires elapsed < limit
    ensures Verdict(elapsed, limit, attackerDead, AgentDead(None)) == if attackerDead then Some(DefenderWon) else None
  {
  }

  /** ResetSimulation leaves a fresh tally. */
  lemma ResetClearsTally(s: SimData, settings: Settings)
    ensures var r := ResetSimulation(s);
            Coherent(r, settings) && r.results == [] && !r.inProgress
            && Counter(r, AttackerSide) == 0 && Counter(r, DefenderSide) == 0 && Counter(r, DrawSide) == 0
  {
  }
}

module CombatSimulationModel {
  import opened LeafRules
  import opened SimulationRules
  import AR = AttackerRules
  import DR = DefenderRules
  import opened AttackerControllerModel
  import opened DefenderControllerModel
  import opened AgentPair

  class CombatSimulationManager {
    const totalCombats: int
    const combatTimeLimit: real
    const resetDelay: real
    const attacker: AttackerController?
    const defender: DefenderController?

    var currentCombatNumber: int
    var attackerWins: int
    var defenderWins: int
    var draws: int
    var combatInProgress: bool
    var combatStartTime: real
    var lastWinner: Option<Winner>
    var combatResults: seq<CombatResult>
    var preparing: seq<real>

    function Config(): Settings { Settings(totalCombats, combatTimeLimit, resetDelay) }

    function View(): SimData
      reads this
    {
      SimData(currentCombatNumber, attackerWins, defenderWins, draws, combatInProgress,
              combatStartTime, lastWinner, combatResults, preparing)
    }

    predicate Valid() { Separate(attacker, defender) }

    constructor (attacker: AttackerController?, defender: DefenderController?, settings: Settings)
      requires Separate(attacker, defender)
      ensures this.attacker == attacker && this.defender == defender && Config() == settings
      ensures Valid() && View() == Fresh
    {
      this.attacker, this.defender := attacker, defender;
      totalCombats, combatTimeLimit, resetDelay := settings.totalCombats, settings.combatTimeLimit, settings.resetDelay;
      currentCombatNumber, attackerWins, defenderWins, draws := 0, 0, 0, 0;
      combatInProgress, combatStartTime, lastWinner := false, 0.0, None;
      combatResults, preparing := [], [];
    }

    /** StartNextCombat at time `now` (also what Start does first). */
    method StartNextCombat(now: real)
      requires Valid()
      modifies this, Footprint(attacker, defender)
      ensures View() == StartNext(old(View()), Config(), now)
      ensures Views(attacker, defender) == ResetViews(old(Views(attacker, defender)), Starts(old(View()), Config()))
    {
      if currentCombatNumber >= totalCombats {
        return;
      }
      BeginCombat(now);
    }

    /** The part of StartNextCombat past its guard. */
    method BeginCombat(now: real)
      requires Valid()
      modifies this, Footprint(attacker, defender)
      ensures View() == old(View()).(currentCombatNumber := old(currentCombatNumber) + 1, inProgress := true,
                                     startTime := now, lastWinner := None)
      ensures Views(attacker, defender) == ResetViews(old(Views(attacker, defender)), true)
    {
      MarkStarted(now);
      ResetAgents(attacker, defender);
    }

    method MarkStarted(now: real)
      modifies this`currentCombatNumber, this`combatInProgress, this`combatStartTime, this`lastWinner
      ensures View() == old(View()).(currentCombatNumber := old(currentCombatNumber) + 1, inProgress := true,
                                     startTime := now, lastWinner := None)
    {
      currentCombatNumber, combatInProgress, combatStartTime, lastWinner := currentCombatNumber + 1, true, now, None;
    }

    /** EndCombat with the given winner at time `now`. */
    method EndCombat(winner: Winner, now: real)
      modifies this
      ensures View() == SimulationRules.EndCombat(old(View()), winner, now, AttackerHP(attacker), DefenderHP(defender))
    {
      combatInProgress := false;
      lastWinner := Some(winner);
      match winner {
        case AttackerWon => attackerWins := attackerWins + 1;
        case DefenderWon => defenderWins := defenderWins + 1;
        case Draw(_) => draws := draws + 1;
      }
      var result := CombatResult(currentCombatNumber, winner, now - combatStartTime,
                                 FinalHP(AttackerHP(attacker)), FinalHP(DefenderHP(defender)));
      combatResults := combatResults + [result];
      preparing := preparing + [0.0];
    }

    method CheckCombatEnd(now: real)
      modifies this
      ensures View() == SimulationRules.CheckCombatEnd(old(View()), Config(), now, AttackerHP(attacker), DefenderHP(defender))
    {
      if now - combatStartTime >= combatTimeLimit {
        EndCombat(Draw(TimeLimit), now);
        return;
      }
      var attackerDead := AgentDead(AttackerHP(attacker));
      var defenderDead := AgentDead(DefenderHP(defender));
      if attackerDead && defenderDead {
        EndCombat(Draw(BothDead), now);
      } else if attackerDead {
        EndCombat(DefenderWon, now);
      } else if defenderDead {
        EndCombat(AttackerWon, now);
      }
    }

    /** One frame at time `now` with frame time `dt`: Update, then the
        PrepareNextCombat coroutines pending from earlier frames resume. */
    method Tick(now: real, dt: real)
      requires Valid()
      modifies this, Footprint(attacker, defender)
      ensures View() == SimulationRules.Tick(old(View()), Config(), now, dt, old(AttackerHP(attacker)), old(DefenderHP(defender))).0
      ensures Views(attacker, defender) == ResetViews(old(Views(attacker, defender)), SimulationRules.Tick(old(View()), Config(), now, dt, old(AttackerHP(attacker)), old(DefenderHP(defender))).1)
    {
      var due := preparing;
      Update(now);
      var kept;
      ghost var fired;
      kept, fired := ResumePending(due, now, dt);
      KeepPreparing(kept + preparing[|due|..]);
    }

    method KeepPreparing(p: seq<real>)
      modifies this`preparing
      ensures View() == old(View()).(preparing := p)
      ensures Views(attacker, defender) == old(Views(attacker, defender))
    {
      preparing := p;
    }

    /** Update: CheckCombatEnd while a combat is in progress. */
    method Update(now: real)
      modifies this
      ensures View() == if old(combatInProgress)
                        then SimulationRules.CheckCombatEnd(old(View()), Config(), now, AttackerHP(attacker), DefenderHP(defender))
                        else old(View())
      ensures Views(attacker, defender) == old(Views(attacker, defender))
    {
      if combatInProgress {
        CheckCombatEnd(now);
      }
    }

    /** The coroutines waiting `due` resume in order. */
    method ResumePending(due: seq<real>, now: real, dt: real) returns (kept: seq<real>, ghost fired: bool)
      requires Valid()
      modifies this, Footprint(attacker, defender)
      ensures (View(), kept, fired) == ResumePrepare(old(View()), Config(), due, now, dt)
      ensures Views(attacker, defender) == ResetViews(old(Views(attacker, defender)), fired)
    {
      kept, fired := [], false;
      for i := 0 to |due|
        invariant (View(), kept, fired) == ResumePrepare(old(View()), Config(), due[..i], now, dt)
        invariant Views(attacker, defender) == ResetViews(old(Views(attacker, defender)), fired)
      {
        assert due[..i + 1][..i] == due[..i];
        var before := View();
        if due[i] + dt >= resetDelay {
          StartNextCombat(now);
          ResetViewsIdempotent(old(Views(attacker, defender)), fired, Starts(before, Config()));
          fired := fired || Starts(before, Config());
        } else {
          kept := kept + [due[i] + dt];
        }
      }
      assert due[..|due|] == due;
    }

    method ResetSimulation()
      modifies this
      ensures View() == SimulationRules.ResetSimulation(old(View()))
    {
      currentCombatNumber := 0;
      attackerWins, defenderWins, draws := 0, 0, 0;
      combatResults := [];
      combatInProgress := false;
    }

    method StartNextCombatDebug(now: real)
      requires Valid()
      modifies this, Footprint(attacker, defender)
      ensures View() == StartNextDebug(old(View()), Config(), now)
      ensures Views(attacker, defender) ==
                ResetViews(old(Views(attacker, defender)), !old(combatInProgress) && Starts(old(View()), Config()))
    {
      if !combatInProgress {
        StartNextCombat(now);
      }
    }
  }
}
