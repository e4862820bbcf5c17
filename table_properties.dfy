/** Properties of the brain's transition table (Player/Brain.cs:102-177) under the step rule of
    module Transitions: exclusivity of competing edges, which edge wins where several are
    enabled, and the resource gates of the combat edges. */
module TableProperties {
  import opened Wrappers
  import opened Transitions

  /** Unfolds the first-match search one edge at a time. */
  lemma FirstEnabledCons(t: Transition, rest: seq<Transition>, s: Snapshot)
    ensures FirstEnabled([t] + rest, s) == if t.condition(s) then Some(t.to) else FirstEnabled(rest, s)
  {
    assert ([t] + rest)[1..] == rest;
  }

  /** First match wins: if edge `i` is the first enabled one, its target is chosen, whatever
      later edges are also enabled. */
  lemma {:induction false} FirstMatchWins(edges: seq<Transition>, s: Snapshot, i: int)
    requires IsFirstEnabled(edges, s, i)
    ensures FirstEnabled(edges, s) == Some(edges[i].to)
    decreases |edges|
  {
    if i > 0 {
      assert edges == [edges[0]] + edges[1..];
      FirstEnabledCons(edges[0], edges[1..], s);
      assert IsFirstEnabled(edges[1..], s, i - 1);
      FirstMatchWins(edges[1..], s, i - 1);
    } else {
      assert edges == [edges[0]] + edges[1..];
      FirstEnabledCons(edges[0], edges[1..], s);
    }
  }

  /** The two any-state conditions are never both true, and they resolve as: died wins, then
      damage taken; with neither, no any-state edge fires. */
  lemma AnyTransitionChoice(s: Snapshot)
    ensures !(GetsHit(s) && Dies(s))
    ensures FirstEnabled(AnyTransitions(), s)
            == if s.hasDied then Some(Die) else if s.hasTakenDamage then Some(GetHit) else None
  {
    FirstEnabledCons(Transition(GetHit, GetsHit), [Transition(Die, Dies)], s);
    FirstEnabledCons(Transition(Die, Dies), [], s);
  }

  /** Any-state precedence: damage or death preempts every state, whatever its own edges say;
      without either, the state's own edges decide. */
  lemma InterruptPrecedence(st: StateId, s: Snapshot)
    ensures Interrupted(s) ==> BrainNext(st, s) == Some(if s.hasDied then Die else GetHit)
    ensures !Interrupted(s) ==> BrainNext(st, s) == FirstEnabled(TransitionsFrom(st), s)
  {
    AnyTransitionChoice(s);
  }

  /** The get-hit any-edge stays enabled as long as the damage flag is up, so it is taken again
      from getHit itself (a self-edge, which re-enters) and getHit's own edge is never reached,
      even once its segment has ended. */
  lemma GetHitRepeatsWhileDamaged(s: Snapshot)
    requires s.hasTakenDamage && !s.hasDied
    ensures BrainNext(GetHit, s) == Some(GetHit)
    ensures s.getHitEnded ==> BrainNext(GetHit, s) != Some(GroundedLocomotion)
  {
    AnyTransitionChoice(s);
  }

  /** The three ground predicates partition every snapshot: in particular the falling and the
      sliding edges out of grounded locomotion are never both enabled. */
  lemma GroundPartition(s: Snapshot)
    ensures IsAirborne(s) || OnSteepGround(s) || OnWalkableGround(s)
    ensures !(IsAirborne(s) && OnSteepGround(s))
    ensures !(IsAirborne(s) && OnWalkableGround(s))
    ensures !(OnSteepGround(s) && OnWalkableGround(s))
  {
  }

  /** Grounded locomotion, the hub: its seven edges are tried in registration order. */
  lemma LocomotionStep(s: Snapshot)
    requires !Interrupted(s)
    ensures BrainNext(GroundedLocomotion, s)
            == if IsAirborne(s) then Some(Falling)
               else if OnSteepGround(s) then Some(Sliding)
               else if StartsDodge(s) then Some(Dodging)
               else if OpensWeaponMenu(s) then Some(WeaponMenu)
               else if StartsUltimate(s) then Some(AttackUltimate)
               else if StartsLightAttack(s) then Some(LightAttack)
               else if StartsHeavyAttack(s) then Some(HeavyAttack)
               else None
  {
    InterruptPrecedence(GroundedLocomotion, s);
    var e := TransitionsFrom(GroundedLocomotion);
    FirstEnabledCons(e[0], e[1..], s);
    FirstEnabledCons(e[1], e[2..], s);
    FirstEnabledCons(e[2], e[3..], s);
    assert e == [e[0]] + e[1..];
    assert e[1..] == [e[1]] + e[2..];
    assert e[2..] == [e[2]] + e[3..];
    LocomotionActions(s);
  }

  /** The last four edges of the hub, tried once the ground and the dodge have not fired. */
  lemma LocomotionActions(s: Snapshot)
    ensures FirstEnabled(TransitionsFrom(GroundedLocomotion)[3..], s)
            == if OpensWeaponMenu(s) then Some(WeaponMenu)
               else if StartsUltimate(s) then Some(AttackUltimate)
               else if StartsLightAttack(s) then Some(LightAttack)
               else if StartsHeavyAttack(s) then Some(HeavyAttack)
               else None
  {
    var e := TransitionsFrom(GroundedLocomotion)[3..];
    FirstEnabledCons(e[0], e[1..], s);
    FirstEnabledCons(e[1], e[2..], s);
    FirstEnabledCons(e[2], e[3..], s);
    FirstEnabledCons(e[3], e[4..], s);
    assert e == [e[0]] + e[1..];
    assert e[1..] == [e[1]] + e[2..];
    assert e[2..] == [e[2]] + e[3..];
    assert e[3..] == [e[3]] + e[4..];
  }

  /** Grounded locomotion enters the ultimate only with the ultimate key held, enough ultimate
      for the selected weapon's finisher, no animator transition on layer 0 and a possible warp,
      which needs a warp-target provider. */
  lemma UltimateEntryGate(s: Snapshot)
    ensures BrainNext(GroundedLocomotion, s) == Some(AttackUltimate) ==>
              && s.ultimateKeyPressed
              && HasEnough(s.ultimate, s.selectedWeapon.finisherData.attributeData.ultimate)
              && !s.inTransitionOnBaseLayer
              && IsWarpPossible(s)
              && s.hasWarpTargetProvider
    ensures BrainNext(GroundedLocomotion, s) == Some(AttackUltimate) <==>
              && !Interrupted(s) && OnWalkableGround(s) && !StartsDodge(s)
              && !OpensWeaponMenu(s) && StartsUltimate(s)
  {
    InterruptPrecedence(GroundedLocomotion, s);
    if !Interrupted(s) {
      LocomotionStep(s);
    }
  }

  /** A light or heavy attack starts from locomotion only with its key held, its stamina cost,
      read from the weapon selected at that moment, affordable (e.g. stamina 10 against cost 15
      blocks it), and the animator not mid-transition on layer 0. */
  lemma AttackEntryGate(s: Snapshot)
    ensures BrainNext(GroundedLocomotion, s) == Some(LightAttack) ==>
              && s.attackKeyPressed
              && HasEnough(s.stamina, s.selectedWeapon.lightAttack.attributeData.stamina)
              && !s.inTransitionOnBaseLayer
    ensures BrainNext(GroundedLocomotion, s) == Some(HeavyAttack) ==>
              && s.secondAttackKeyPressed
              && HasEnough(s.stamina, s.selectedWeapon.heavyAttack.attributeData.stamina)
              && !s.inTransitionOnBaseLayer
  {
    InterruptPrecedence(GroundedLocomotion, s);
    if !Interrupted(s) {
      LocomotionStep(s);
    }
  }

  /** Out of a dodge: nothing happens until the dodge has ended; then exactly one of the two
      edges is enabled, chosen by the ground. */
  lemma DodgeEndDecides(s: Snapshot)
    requires !Interrupted(s)
    ensures !s.dodgeEnded ==> BrainNext(Dodging, s) == None
    ensures s.dodgeEnded ==> DodgeEndsOnWalkableGround(s) != DodgeEndsOffWalkableGround(s)
    ensures s.dodgeEnded ==>
              BrainNext(Dodging, s) == Some(if OnWalkableGround(s) then GroundedLocomotion else Falling)
  {
    InterruptPrecedence(Dodging, s);
    var e := TransitionsFrom(Dodging);
    assert e == [e[0]] + [e[1]];
    FirstEnabledCons(e[0], [e[1]], s);
    FirstEnabledCons(e[1], [], s);
  }

  /** Out of the weapon menu: nothing happens while the middle key is held; once released,
      exactly one edge is enabled, chosen by whether a new weapon was selected. */
  lemma WeaponMenuReleaseDecides(s: Snapshot)
    requires !Interrupted(s)
    ensures s.middleKeyPressed ==> BrainNext(WeaponMenu, s) == None
    ensures !s.middleKeyPressed ==> MenuClosedKeepingWeapon(s) != MenuClosedWithNewWeapon(s)
    ensures !s.middleKeyPressed ==>
              BrainNext(WeaponMenu, s) == Some(if s.hasSelectedNewWeapon then WeaponUnEquip else GroundedLocomotion)
  {
    InterruptPrecedence(WeaponMenu, s);
    var e := TransitionsFrom(WeaponMenu);
    assert e == [e[0]] + [e[1]];
    FirstEnabledCons(e[0], [e[1]], s);
    FirstEnabledCons(e[1], [], s);
  }

  /** The edges out of an attack state, `repeat` being the state's own kind and `other` the
      other kind, in the order Brain.cs registers them. */
  lemma AttackEdgesStep(e: seq<Transition>, repeat: Transition, other: Transition, s: Snapshot)
    requires e == [Transition(GroundedLocomotion, AttackFinishedWithoutKeys), repeat, other]
    ensures FirstEnabled(e, s)
            == if AttackFinishedWithoutKeys(s) then Some(GroundedLocomotion)
               else if repeat.condition(s) then Some(repeat.to)
               else if other.condition(s) then Some(other.to)
               else None
  {
    assert e == [e[0]] + ([repeat] + [other]);
    FirstEnabledCons(e[0], [repeat] + [other], s);
    FirstEnabledCons(repeat, [other], s);
    FirstEnabledCons(other, [], s);
  }

  /** Light-attack combo at a segment end: back to locomotion when no attack key is held
      (never together with the repeat, which needs the key), else repeat when the light cost is
      affordable, else switch when the heavy key is held and the heavy cost is affordable, else
      stay. Before the segment ends nothing happens. */
  lemma LightAttackCombo(s: Snapshot)
    requires !Interrupted(s)
    ensures !(AttackFinishedWithoutKeys(s) && ChainsLightAttack(s))
    ensures BrainNext(LightAttack, s)
            == if !s.attackEnded then None
               else if NoAttackKeyPressed(s) then Some(GroundedLocomotion)
               else if s.attackKeyPressed && HasEnough(s.stamina, LightAttackStaminaCost(s)) then Some(LightAttack)
               else if s.secondAttackKeyPressed && HasEnough(s.stamina, HeavyAttackStaminaCost(s)) then Some(HeavyAttack)
               else None
  {
    InterruptPrecedence(LightAttack, s);
    AttackEdgesStep(TransitionsFrom(LightAttack), Transition(LightAttack, ChainsLightAttack),
                    Transition(HeavyAttack, ChainsHeavyAttack), s);
  }

  /** Heavy-attack combo, symmetric to LightAttackCombo. */
  lemma HeavyAttackCombo(s: Snapshot)
    requires !Interrupted(s)
    ensures !(AttackFinishedWithoutKeys(s) && ChainsHeavyAttack(s))
    ensures BrainNext(HeavyAttack, s)
            == if !s.attackEnded then None
               else if NoAttackKeyPressed(s) then Some(GroundedLocomotion)
               else if s.secondAttackKeyPressed && HasEnough(s.stamina, HeavyAttackStaminaCost(s)) then Some(HeavyAttack)
               else if s.attackKeyPressed && HasEnough(s.stamina, LightAttackStaminaCost(s)) then Some(LightAttack)
               else None
  {
    InterruptPrecedence(HeavyAttack, s);
    AttackEdgesStep(TransitionsFrom(HeavyAttack), Transition(HeavyAttack, ChainsHeavyAttack),
                    Transition(LightAttack, ChainsLightAttack), s);
  }

  /** Combo cost gating: from either attack state, chaining into an attack happens only if the
      stamina covers that attack's cost in the weapon selected in this very snapshot. */
  lemma ComboCostGate(from: StateId, s: Snapshot)
    requires from == LightAttack || from == HeavyAttack
    ensures BrainNext(from, s) == Some(LightAttack) ==>
              s.attackEnded && s.attackKeyPressed
              && HasEnough(s.stamina, s.selectedWeapon.lightAttack.attributeData.stamina)
    ensures BrainNext(from, s) == Some(HeavyAttack) ==>
              s.attackEnded && s.secondAttackKeyPressed
              && HasEnough(s.stamina, s.selectedWeapon.heavyAttack.attributeData.stamina)
  {
    InterruptPrecedence(from, s);
    if !Interrupted(s) {
      if from == LightAttack { LightAttackCombo(s); } else { HeavyAttackCombo(s); }
    }
  }

  /** An attack whose segment ended with a key held that cannot be paid for persists: no edge
      of its own is enabled. */
  lemma UnaffordableComboPersists(from: StateId, s: Snapshot)
    requires from == LightAttack || from == HeavyAttack
    requires !Interrupted(s) && s.attackEnded && !NoAttackKeyPressed(s)
    requires s.attackKeyPressed ==> !HasEnough(s.stamina, LightAttackStaminaCost(s))
    requires s.secondAttackKeyPressed ==> !HasEnough(s.stamina, HeavyAttackStaminaCost(s))
    ensures BrainNext(from, s) == None && Successor(from, s) == from
  {
    if from == LightAttack { LightAttackCombo(s); } else { HeavyAttackCombo(s); }
  }

  /** The die state registers no edge of its own; every state, die included, moves to die as
      soon as the character has died. */
  lemma DeathReachesDie(st: StateId, s: Snapshot)
    ensures TransitionsFrom(Die) == []
    ensures s.hasDied ==> Successor(st, s) == Die
  {
    InterruptPrecedence(st, s);
  }
}
