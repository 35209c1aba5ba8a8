// The two agents a match manager holds, either of which may be missing: what
// the manager reads of them (their HP), and its ResetAgents, which puts both
// through the controllers' ResetHP as written (AttackerRules.ResetHPAsWritten,
// DefenderRules.ResetHPAsWritten), hitboxes untouched.

module AgentPair {
  import opened LeafRules
  import AR = AttackerRules
  import DR = DefenderRules
  import opened SwordHitboxModel
  import opened AttackerControllerModel
  import opened DefenderControllerModel

  /** The controllers' views, None for a missing agent. */
  datatype AgentViews = AgentViews(attacker: Option<AR.AttackerData>, defender: Option<DR.DefenderData>)

  /** ResetAgents on the views when `reset`, otherwise nothing. The hitboxes
      keep their state, so a sword armed when its agent died stays armed. */
  function ResetViews(v: AgentViews, reset: bool): (r: AgentViews)
    ensures r.attacker.Some? == v.attacker.Some? && r.defender.Some? == v.defender.Some?
    ensures !reset ==> r == v
    ensures reset && r.attacker.Some? ==> r.attacker.value.hp == AR.MaxHP && !AR.Busy(r.attacker.value)
    ensures reset && r.defender.Some? ==> r.defender.value.hp == DR.MaxHP && !DR.Busy(r.defender.value)
    ensures r.attacker.Some? ==> r.attacker.value.sword == v.attacker.value.sword && r.attacker.value.kick == v.attacker.value.kick
    ensures r.defender.Some? ==> r.defender.value.sword == v.defender.value.sword
  {
    if !reset then v
    else AgentViews(if v.attacker.Some? then Some(AR.ResetHPAsWritten(v.attacker.value)) else None,
                    if v.defender.Some? then Some(DR.ResetHPAsWritten(v.defender.value)) else None)
  }

  /** Both resets are idempotent, so several combat starts in one frame reset
      the agents exactly as one does. */
  lemma ResetViewsIdempotent(v: AgentViews, first: bool, second: bool)
    ensures ResetViews(ResetViews(v, first), second) == ResetViews(v, first || second)
  {
  }

  function SwordOf(d: DefenderController?): set<object>
  {
    if d == null || d.swordHitbox == null then {} else {d.swordHitbox}
  }

  /** The agents' hitboxes are their own, so resetting one agent leaves the
      other untouched. */
  predicate Separate(a: AttackerController?, d: DefenderController?)
  {
    && (a != null ==> a.Valid())
    && (a != null && d != null && d.swordHitbox != null ==> d.swordHitbox !in a.Boxes())
  }

  /** What ResetAgents may change: the controllers, not their hitboxes. */
  function Footprint(a: AttackerController?, d: DefenderController?): set<object>
  {
    (if a == null then {} else {a}) + (if d == null then {} else {d})
  }

  /** Everything the agents' views read. */
  function Watched(a: AttackerController?, d: DefenderController?): set<object>
  {
    (if a == null then {} else {a, a.combatStats} + a.Boxes()) +
    (if d == null then {} else {d, d.combatStats} + SwordOf(d))
  }

  function Views(a: AttackerController?, d: DefenderController?): AgentViews
    reads Watched(a, d)
  {
    AgentViews(if a == null then None else Some(a.View()), if d == null then None else Some(d.View()))
  }

  /** `attacker?.CurrentHP`: None for a missing agent. */
  function AttackerHP(a: AttackerController?): (r: Option<real>)
    reads if a == null then {} else {a}
  {
    if a == null then None else Some(a.currentHP)
  }

  function DefenderHP(d: DefenderController?): (r: Option<real>)
    reads if d == null then {} else {d}
  {
    if d == null then None else Some(d.currentHP)
  }

  /** The HP the views record is the HP the manager reads. */
  lemma HPOfViews(a: AttackerController?, d: DefenderController?)
    ensures Views(a, d).attacker.Some? ==> AttackerHP(a) == Some(Views(a, d).attacker.value.hp)
    ensures Views(a, d).defender.Some? ==> DefenderHP(d) == Some(Views(a, d).defender.value.hp)
    ensures Views(a, d).attacker.None? <==> AttackerHP(a).None?
    ensures Views(a, d).defender.None? <==> DefenderHP(d).None?
  {
  }

  /** ResetHP on each agent that exists; positions are not modelled. */
  method ResetAgents(a: AttackerController?, d: DefenderController?)
    requires Separate(a, d)
    modifies Footprint(a, d)
    ensures Views(a, d) == ResetViews(old(Views(a, d)), true)
  {
    ResetAttacker(a, d);
    ResetDefender(a, d);
  }

  method ResetAttacker(a: AttackerController?, d: DefenderController?)
    requires Separate(a, d)
    modifies if a == null then {} else {a}
    ensures a != null ==> a.View() == AR.ResetHPAsWritten(old(a.View()))
    ensures d != null ==> d.View() == old(d.View())
  {
    if a != null {
      a.ResetState();
    }
  }

  method ResetDefender(a: AttackerController?, d: DefenderController?)
    modifies if d == null then {} else {d}
    ensures d != null ==> d.View() == DR.ResetHPAsWritten(old(d.View()))
    ensures a != null && Separate(a, d) ==> a.View() == old(a.View())
  {
    if d != null {
      d.ResetState();
    }
  }
}
