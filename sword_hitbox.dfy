// SwordHitbox: a weapon trigger volume with a once-per-activation hit latch.
// The damage dispatch to the struck controller lives in module SwordStrike
// (sword_strike.dfy), which sees both controllers.

module SwordHitboxModel {

  /** The latch state of a hitbox. */
  datatype HitboxData = HitboxData(isActive: bool, hasHit: bool)

  /** A hitbox an agent may or may not have found among its children. */
  datatype MaybeHitbox = NoHitbox | Hitbox(data: HitboxData)

  /** The collider a hitbox touched: the id of its transform root and the
      controller component found on it or on a parent, if any. */
  datatype Collider = Collider(root: int, hasAttacker: bool, hasDefender: bool)

  /** Whom a trigger contact damages. */
  datatype Strike = NoStrike | StrikeAttacker | StrikeDefender

  /** EnableHitbox arms an inactive box (active, no hit yet). */
  function Enable(h: HitboxData): (r: HitboxData)
    ensures r.isActive
    ensures !h.isActive ==> !r.hasHit
    ensures h.isActive ==> r == h
  {
    if !h.isActive then HitboxData(true, false) else h
  }

  /** DisableHitbox clears the active flag and keeps the latch. */
  function Disable(h: HitboxData): (r: HitboxData)
    ensures !r.isActive && r.hasHit == h.hasHit
  {
    if h.isActive then h.(isActive := false) else h
  }

  function EnableIfPresent(m: MaybeHitbox): MaybeHitbox
  {
    match m
    case NoHitbox => NoHitbox
    case Hitbox(h) => Hitbox(Enable(h))
  }

  function DisableIfPresent(m: MaybeHitbox): MaybeHitbox
  {
    match m
    case NoHitbox => NoHitbox
    case Hitbox(h) => Hitbox(Disable(h))
  }

  /** OnTriggerEnter: the new latch state and whom to damage. A contact is
      ignored when the box is inactive, has already hit, or touches its own
      agent; an attacker controller is looked for before a defender one. */
  function Trigger(h: HitboxData, ownRoot: int, other: Collider): (r: (HitboxData, Strike))
    ensures r.1 != NoStrike <==>
              h.isActive && !h.hasHit && other.root != ownRoot && (other.hasAttacker || other.hasDefender)
    ensures r.1 == StrikeDefender ==> !other.hasAttacker
    ensures r.0.isActive == h.isActive
    ensures r.0.hasHit == (h.hasHit || r.1 != NoStrike)
  {
    if !h.isActive || h.hasHit || other.root == ownRoot then (h, NoStrike)
    else if other.hasAttacker then (h.(hasHit := true), StrikeAttacker)
    else if other.hasDefender then (h.(hasHit := true), StrikeDefender)
    else (h, NoStrike)
  }

  /** The number of strikes a sequence of contacts produces. */
  function Strikes(h: HitboxData, ownRoot: int, contacts: seq<Collider>): nat
    decreases |contacts|
  {
    if contacts == [] then 0
    else
      var (h1, s) := Trigger(h, ownRoot, contacts[0]);
      (if s == NoStrike then 0 else 1) + Strikes(h1, ownRoot, contacts[1..])
  }

  /** One activation damages at most once: a freshly armed box strikes at most
      once for any sequence of contacts, and a box that has hit never again
      until it is re-armed. */
  lemma {:induction false} AtMostOneStrikePerActivation(h: HitboxData, ownRoot: int, contacts: seq<Collider>)
    ensures Strikes(h, ownRoot, contacts) <= if h.hasHit then 0 else 1
    decreases |contacts|
  {
    if contacts != [] {
      var (h1, s) := Trigger(h, ownRoot, contacts[0]);
      AtMostOneStrikePerActivation(h1, ownRoot, contacts[1..]);
    }
  }

  /** A disarmed box never strikes, whatever it touches. */
  lemma {:induction false} InactiveNeverStrikes(h: HitboxData, ownRoot: int, contacts: seq<Collider>)
    requires !h.isActive
    ensures Strikes(h, ownRoot, contacts) == 0
    decreases |contacts|
  {
    if contacts != [] {
      InactiveNeverStrikes(Trigger(h, ownRoot, contacts[0]).0, ownRoot, contacts[1..]);
    }
  }

  /** Re-arming only happens from an inactive box: enabling an active box
      that has already hit leaves it unable to strike. */
  lemma EnableActiveKeepsLatch(h: HitboxData, ownRoot: int, contacts: seq<Collider>)
    requires h.isActive && h.hasHit
    ensures Strikes(Enable(h), ownRoot, contacts) == 0
  {
    AtMostOneStrikePerActivation(Enable(h), ownRoot, contacts);
  }

  class SwordHitbox {
    /** The identity of this box's transform root (its agent). */
    const root: int
    var damage: real
    var isActive: bool
    var hasHit: bool

    function View(): HitboxData
      reads this
    {
      HitboxData(isActive, hasHit)
    }

    /** Awake disables the box; the damage starts at 30. */
    constructor (root: int)
      ensures this.root == root && damage == 30.0 && View() == HitboxData(false, false)
    {
      this.root := root;
      damage := 30.0;
      isActive := false;
      hasHit := false;
    }

    method EnableHitbox()
      modifies this`isActive, this`hasHit
      ensures View() == Enable(old(View()))
    {
      if !isActive {
        isActive := true;
        hasHit := false;
      }
    }

    method DisableHitbox()
      modifies this`isActive
      ensures View() == Disable(old(View()))
    {
      if isActive {
        isActive := false;
      }
    }

    method SetDamage(newDamage: real)
      modifies this`damage
      ensures damage == newDamage
    {
      damage := newDamage;
    }

    /** The latch part of OnTriggerEnter: decides whom to damage and marks the
        activation as spent. */
    method Latch(other: Collider) returns (s: Strike)
      modifies this`hasHit
      ensures (View(), s) == Trigger(old(View()), root, other)
    {
      if !isActive || hasHit || other.root == root {
        return NoStrike;
      }
      if other.hasAttacker {
        s := StrikeAttacker;
      } else if other.hasDefender {
        s := StrikeDefender;
      } else {
        return NoStrike;
      }
      hasHit := true;
    }
  }

  /** The latch state of a hitbox an agent may not have. */
  function MaybeView(b: SwordHitbox?): MaybeHitbox
    reads b
  {
    if b == null then NoHitbox else Hitbox(b.View())
  }
}
