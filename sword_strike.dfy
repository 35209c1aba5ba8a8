// SwordHitbox.OnTriggerEnter with its dispatch: the latch decides whether the
// contact is a strike, and a strike hands the box's damage to the struck
// agent's TakeDamage. A contact carries the root of the other collider;
// HitAttacker is a contact with an attacker agent's collider, HitDefender one
// with a defender agent's.

module SwordStrike {
  import opened SwordHitboxModel
  import AR = AttackerRules
  import DR = DefenderRules
  import opened AttackerControllerModel
  import opened DefenderControllerModel

  /** A contact with an attacker agent whose root is `victimRoot`. */
  method HitAttacker(box: SwordHitbox, victim: AttackerController, victimRoot: int) returns (struck: bool)
    modifies box`hasHit, victim, victim.combatStats
    ensures var (h, s) := Trigger(old(box.View()), box.root, Collider(victimRoot, true, false));
            box.View() == h && struck == (s == StrikeAttacker)
    ensures struck ==> victim.View() == AR.TakeDamage(old(victim.View()), box.damage)
                                           .(sword := victim.View().sword, kick := victim.View().kick)
    ensures !struck ==> victim.View() == old(victim.View()).(sword := victim.View().sword, kick := victim.View().kick)
    ensures box !in victim.Boxes() ==>
              victim.View() == if struck then AR.TakeDamage(old(victim.View()), box.damage) else old(victim.View())
  {
    var s := box.Latch(Collider(victimRoot, true, false));
    struck := s == StrikeAttacker;
    if struck {
      victim.TakeDamage(box.damage);
    }
  }

  /** A contact with a defender agent whose root is `victimRoot`, at time
      `now`: when the defender blocks anything but a kick, the defender's
      target attacker is stunned instead. */
  method HitDefender(box: SwordHitbox, victim: DefenderController, victimRoot: int, now: real)
      returns (struck: bool)
    requires victim.Valid()
    modifies box`hasHit, victim, victim.combatStats,
             victim.targetAttacker`isStunned, victim.targetAttacker`stunEndTime
    ensures var (h, s) := Trigger(old(box.View()), box.root, Collider(victimRoot, false, true));
            box.View() == h && struck == (s == StrikeDefender)
    ensures var (d, stun) := DR.TakeDamage(old(victim.View()), box.damage,
                                           old(victim.targetAttacker.isKickAttacking));
            var a, a0 := victim.targetAttacker.View(), old(victim.targetAttacker.View());
            if struck then
              victim.View() == d.(sword := victim.View().sword) &&
              a == (if stun then AR.Stun(a0, now, DR.StunDuration) else a0).(sword := a.sword, kick := a.kick)
            else
              victim.View() == old(victim.View()).(sword := victim.View().sword) &&
              a == a0.(sword := a.sword, kick := a.kick)
    ensures box != victim.swordHitbox && box !in victim.targetAttacker.Boxes() ==>
              var (d, stun) := DR.TakeDamage(old(victim.View()), box.damage,
                                             old(victim.targetAttacker.isKickAttacking));
              victim.View() == (if struck then d else old(victim.View())) &&
              victim.targetAttacker.View() ==
                (if struck && stun then AR.Stun(old(victim.targetAttacker.View()), now, DR.StunDuration)
                 else old(victim.targetAttacker.View()))
  {
    var s := box.Latch(Collider(victimRoot, false, true));
    struck := s == StrikeDefender;
    if struck {
      victim.TakeDamage(now, box.damage);
    }
  }
}
