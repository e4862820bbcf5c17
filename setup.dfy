/** The registration calls of SetupStateMachine (Player/Brain.cs), in the source's order. Each
    call appends one edge to its source state's list in the engine; these methods show that the
    calls, taken together, leave exactly the brain's table (`BrainTable`) in the engine. */
module BrainSetup {
  import opened Transitions
  import opened Fsm

  /** Appending the edges of a state one registration at a time builds its row of the table. */
  lemma RegistrationRows()
    ensures [] + [Transition(Falling, IsAirborne)] + [Transition(Sliding, OnSteepGround)]
            + [Transition(Dodging, StartsDodge)] + [Transition(WeaponMenu, OpensWeaponMenu)]
            + [Transition(AttackUltimate, StartsUltimate)] + [Transition(LightAttack, StartsLightAttack)]
            + [Transition(HeavyAttack, StartsHeavyAttack)]
            == TransitionsFrom(GroundedLocomotion)
    ensures [] + [Transition(GroundedLocomotion, DodgeEndsOnWalkableGround)] + [Transition(Falling, DodgeEndsOffWalkableGround)]
            == TransitionsFrom(Dodging)
    ensures [] + [Transition(Landing, OnWalkableGround)] + [Transition(Sliding, OnSteepGround)]
            == TransitionsFrom(Falling)
    ensures [] + [Transition(Landing, OnWalkableGround)] + [Transition(Falling, IsAirborne)]
            == TransitionsFrom(Sliding)
    ensures [] + [Transition(GroundedLocomotion, MenuClosedKeepingWeapon)] + [Transition(WeaponUnEquip, MenuClosedWithNewWeapon)]
            == TransitionsFrom(WeaponMenu)
    ensures [] + [Transition(GroundedLocomotion, AttackFinishedWithoutKeys)] + [Transition(LightAttack, ChainsLightAttack)]
            + [Transition(HeavyAttack, ChainsHeavyAttack)]
            == TransitionsFrom(LightAttack)
    ensures [] + [Transition(GroundedLocomotion, AttackFinishedWithoutKeys)] + [Transition(HeavyAttack, ChainsHeavyAttack)]
            + [Transition(LightAttack, ChainsLightAttack)]
            == TransitionsFrom(HeavyAttack)
  {
  }

  /** The whole table, into a machine that has none yet. */
  method RegisterTable(m: StateMachine)
    requires m.transitions == map[] && m.anyTransitions == []
    modifies m`transitions, m`anyTransitions
    ensures forall st :: m.TransitionsOf(st) == TransitionsFrom(st)
    ensures m.anyTransitions == AnyTransitions()
  {
    RegisterMovement(m);
    RegisterWeaponAndCombat(m);
    assert m.transitions == BrainTable();
    forall st
      ensures m.TransitionsOf(st) == TransitionsFrom(st)
    {
      BrainTableLookup(st);
    }
  }

  /** Locomotion, dodging, falling, sliding and landing. */
  method RegisterMovement(m: StateMachine)
    requires m.transitions.Keys !! {GroundedLocomotion, Dodging, Falling, Sliding, Landing}
    modifies m`transitions
    ensures m.transitions == old(m.transitions)
              [GroundedLocomotion := TransitionsFrom(GroundedLocomotion)]
              [Dodging := TransitionsFrom(Dodging)]
              [Falling := TransitionsFrom(Falling)]
              [Sliding := TransitionsFrom(Sliding)]
              [Landing := TransitionsFrom(Landing)]
  {
    RegisterGroundedLocomotion(m);
    RegisterDodging(m);
    RegisterFalling(m);
    RegisterSliding(m);
    RegisterSingle(m, Landing, GroundedLocomotion, LandingFinished);
  }

  /** The weapon switch, the attacks and the health edges. */
  method RegisterWeaponAndCombat(m: StateMachine)
    requires m.transitions.Keys !! {WeaponMenu, WeaponUnEquip, IdleEquipTransition, WeaponEquip,
                                    AttackUltimate, LightAttack, HeavyAttack, GetHit}
    requires m.anyTransitions == []
    modifies m`transitions, m`anyTransitions
    ensures m.transitions == old(m.transitions)
              [WeaponMenu := TransitionsFrom(WeaponMenu)]
              [WeaponUnEquip := TransitionsFrom(WeaponUnEquip)]
              [IdleEquipTransition := TransitionsFrom(IdleEquipTransition)]
              [WeaponEquip := TransitionsFrom(WeaponEquip)]
              [AttackUltimate := TransitionsFrom(AttackUltimate)]
              [LightAttack := TransitionsFrom(LightAttack)]
              [HeavyAttack := TransitionsFrom(HeavyAttack)]
              [GetHit := TransitionsFrom(GetHit)]
    ensures m.anyTransitions == AnyTransitions()
  {
    RegisterWeaponSwitch(m);
    RegisterAttacks(m);
    RegisterHealth(m);
  }

  /** Weapon menu, un-equip, the idle pause and equip. */
  method RegisterWeaponSwitch(m: StateMachine)
    requires m.transitions.Keys !! {WeaponMenu, WeaponUnEquip, IdleEquipTransition, WeaponEquip}
    modifies m`transitions
    ensures m.transitions == old(m.transitions)
              [WeaponMenu := TransitionsFrom(WeaponMenu)]
              [WeaponUnEquip := TransitionsFrom(WeaponUnEquip)]
              [IdleEquipTransition := TransitionsFrom(IdleEquipTransition)]
              [WeaponEquip := TransitionsFrom(WeaponEquip)]
  {
    RegisterWeaponMenu(m);
    RegisterSingle(m, WeaponUnEquip, IdleEquipTransition, UnEquipFinished);
    RegisterSingle(m, IdleEquipTransition, WeaponEquip, IdleTransitionOver);
    RegisterSingle(m, WeaponEquip, GroundedLocomotion, EquipFinished);
  }

  /** The end of the ultimate and the light/heavy combo pair. */
  method RegisterAttacks(m: StateMachine)
    requires m.transitions.Keys !! {AttackUltimate, LightAttack, HeavyAttack}
    modifies m`transitions
    ensures m.transitions == old(m.transitions)
              [AttackUltimate := TransitionsFrom(AttackUltimate)]
              [LightAttack := TransitionsFrom(LightAttack)]
              [HeavyAttack := TransitionsFrom(HeavyAttack)]
  {
    RegisterSingle(m, AttackUltimate, GroundedLocomotion, ExecutionFinished);
    RegisterLightAttack(m);
    RegisterHeavyAttack(m);
  }

  /** Damage and death interrupt any state; the get-hit state returns to locomotion. */
  method RegisterHealth(m: StateMachine)
    requires GetHit !in m.transitions && m.anyTransitions == []
    modifies m`transitions, m`anyTransitions
    ensures m.transitions == old(m.transitions)[GetHit := TransitionsFrom(GetHit)]
    ensures m.anyTransitions == AnyTransitions()
  {
    m.AddAnyTransition(GetHit, GetsHit);
    m.AddAnyTransition(Die, Dies);
    RegisterSingle(m, GetHit, GroundedLocomotion, GetHitFinished);
  }

  /** A state with exactly one edge. */
  method RegisterSingle(m: StateMachine, from: StateId, to: StateId, condition: Snapshot -> bool)
    requires from !in m.transitions
    modifies m`transitions
    ensures m.transitions == old(m.transitions)[from := [Transition(to, condition)]]
  {
    m.AddTransition(from, to, condition);
    assert [] + [Transition(to, condition)] == [Transition(to, condition)];
  }

  method RegisterGroundedLocomotion(m: StateMachine)
    requires GroundedLocomotion !in m.transitions
    modifies m`transitions
    ensures m.transitions == old(m.transitions)[GroundedLocomotion := TransitionsFrom(GroundedLocomotion)]
  {
    m.AddTransition(GroundedLocomotion, Falling, IsAirborne);
    m.AddTransition(GroundedLocomotion, Sliding, OnSteepGround);
    m.AddTransition(GroundedLocomotion, Dodging, StartsDodge);
    m.AddTransition(GroundedLocomotion, WeaponMenu, OpensWeaponMenu);
    m.AddTransition(GroundedLocomotion, AttackUltimate, StartsUltimate);
    m.AddTransition(GroundedLocomotion, LightAttack, StartsLightAttack);
    m.AddTransition(GroundedLocomotion, HeavyAttack, StartsHeavyAttack);
    RegistrationRows();
  }

  method RegisterDodging(m: StateMachine)
    requires Dodging !in m.transitions
    modifies m`transitions
    ensures m.transitions == old(m.transitions)[Dodging := TransitionsFrom(Dodging)]
  {
    m.AddTransition(Dodging, GroundedLocomotion, DodgeEndsOnWalkableGround);
    m.AddTransition(Dodging, Falling, DodgeEndsOffWalkableGround);
    RegistrationRows();
  }

  method RegisterFalling(m: StateMachine)
    requires Falling !in m.transitions
    modifies m`transitions
    ensures m.transitions == old(m.transitions)[Falling := TransitionsFrom(Falling)]
  {
    m.AddTransition(Falling, Landing, OnWalkableGround);
    m.AddTransition(Falling, Sliding, OnSteepGround);
    RegistrationRows();
  }

  method RegisterSliding(m: StateMachine)
    requires Sliding !in m.transitions
    modifies m`transitions
    ensures m.transitions == old(m.transitions)[Sliding := TransitionsFrom(Sliding)]
  {
    m.AddTransition(Sliding, Landing, OnWalkableGround);
    m.AddTransition(Sliding, Falling, IsAirborne);
    RegistrationRows();
  }

  method RegisterWeaponMenu(m: StateMachine)
    requires WeaponMenu !in m.transitions
    modifies m`transitions
    ensures m.transitions == old(m.transitions)[WeaponMenu := TransitionsFrom(WeaponMenu)]
  {
    m.AddTransition(WeaponMenu, GroundedLocomotion, MenuClosedKeepingWeapon);
    m.AddTransition(WeaponMenu, WeaponUnEquip, MenuClosedWithNewWeapon);
    RegistrationRows();
  }

  method RegisterLightAttack(m: StateMachine)
    requires LightAttack !in m.transitions
    modifies m`transitions
    ensures m.transitions == old(m.transitions)[LightAttack := TransitionsFrom(LightAttack)]
  {
    m.AddTransition(LightAttack, GroundedLocomotion, AttackFinishedWithoutKeys);
    m.AddTransition(LightAttack, LightAttack, ChainsLightAttack);
    m.AddTransition(LightAttack, HeavyAttack, ChainsHeavyAttack);
    RegistrationRows();
  }

  method RegisterHeavyAttack(m: StateMachine)
    requires HeavyAttack !in m.transitions
    modifies m`transitions
    ensures m.transitions == old(m.transitions)[HeavyAttack := TransitionsFrom(HeavyAttack)]
  {
    m.AddTransition(HeavyAttack, GroundedLocomotion, AttackFinishedWithoutKeys);
    m.AddTransition(HeavyAttack, HeavyAttack, ChainsHeavyAttack);
    m.AddTransition(HeavyAttack, LightAttack, ChainsLightAttack);
    RegistrationRows();
  }
}
