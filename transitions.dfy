/** The transition table of the player's state machine (Player/Brain.cs, SetupStateMachine).

    Every condition the brain registers is a side-effect-free boolean expression over what the
    brain can see in one frame: input flags, ground queries, animation "segment ended" flags,
    resource pools, the animator's transition status and the warp feasibility query. That frame
    is the `Snapshot` record; each condition is a named predicate over it, stored in the table as
    a function value, as the source stores closures.

    The engine that evaluates the table (Extensions.FSM) is not part of this model. Its step rule
    is stated here as an assumption: the any-state edges are evaluated first, then the current
    state's own edges, each list in registration order, and the first edge whose condition holds
    is taken (`NextState`). */
module Transitions {
  import opened Wrappers
  import opened Weapon

  /** The fourteen states built by SetupStateMachine. */
  datatype StateId =
    | GroundedLocomotion | Falling | Sliding | Landing | Dodging
    | WeaponMenu | WeaponUnEquip | IdleEquipTransition | WeaponEquip
    | AttackUltimate | LightAttack | HeavyAttack
    | GetHit | Die

  /** Everything a transition condition reads, as it stands when the machine ticks. */
  datatype Snapshot = Snapshot(
    // input flags kept on References
    dodgeKeyPressed: bool,
    middleKeyPressed: bool,
    ultimateKeyPressed: bool,
    attackKeyPressed: bool,
    secondAttackKeyPressed: bool,
    // mover ground queries
    isGrounded: bool,
    isGroundTooSteep: bool,
    // animation "segment ended" flags kept on References
    dodgeEnded: bool,
    landEnded: bool,
    unEquipEnded: bool,
    equipEnded: bool,
    executionEnded: bool,
    attackEnded: bool,
    getHitEnded: bool,
    // resource attributes
    stamina: real,
    ultimate: real,
    hasTakenDamage: bool,
    hasDied: bool,
    // AnimationController.IsInTransition(0)
    inTransitionOnBaseLayer: bool,
    // weapon manager and radial menu
    selectedWeapon: WeaponData,
    hasSelectedNewWeapon: bool,
    dodgeStaminaCost: real,
    // warp: whether a warp-target provider exists, and the warping controller's answer for
    // the target it provides
    hasWarpTargetProvider: bool,
    warpFeasibleForTarget: bool,
    // IdleTransitionState.IsTransitionTimeOver()
    idleTransitionTimeOver: bool)

  /** An edge: the state it leads to and the condition that enables it. */
  datatype Transition = Transition(to: StateId, condition: Snapshot -> bool)

  // ---------------------------------------------------------------------------------------
  // Resource queries and cost helpers

  /** `HasEnough(cost)` of a resource attribute whose current magnitude is `pool`. The
      attribute's own code is not part of this model; this reading (enough means the cost does
      not exceed the pool) is an assumption. */
  predicate HasEnough(pool: real, cost: real)
  {
    cost <= pool
  }

  /** The costs are looked up in the weapon selected at the moment of evaluation. */
  function LightAttackStaminaCost(s: Snapshot): (r: real)
  {
    s.selectedWeapon.lightAttack.attributeData.stamina
  }

  function HeavyAttackStaminaCost(s: Snapshot): (r: real)
  {
    s.selectedWeapon.heavyAttack.attributeData.stamina
  }

  function DodgeStaminaCost(s: Snapshot): (r: real)
  {
    s.dodgeStaminaCost
  }

  function UltimateAttributeCost(s: Snapshot): (r: real)
  {
    s.selectedWeapon.finisherData.attributeData.ultimate
  }

  /** A warp toward the target is possible only if there is a warp-target provider and the
      warping controller accepts the target it provides. */
  predicate IsWarpPossible(s: Snapshot)
    ensures IsWarpPossible(s) <==> s.hasWarpTargetProvider && s.warpFeasibleForTarget
    ensures !s.hasWarpTargetProvider ==> !IsWarpPossible(s)
  {
    if !s.hasWarpTargetProvider then false
    else s.warpFeasibleForTarget
  }

  predicate NoAttackKeyPressed(s: Snapshot)
  {
    !s.attackKeyPressed && !s.secondAttackKeyPressed
  }

  // ---------------------------------------------------------------------------------------
  // The registered conditions

  /** Ground predicates shared by the locomotion edges. */
  predicate IsAirborne(s: Snapshot) { !s.isGrounded }

  predicate OnSteepGround(s: Snapshot) { s.isGrounded && s.isGroundTooSteep }

  predicate OnWalkableGround(s: Snapshot) { s.isGrounded && !s.isGroundTooSteep }

  predicate StartsDodge(s: Snapshot)
  {
    s.dodgeKeyPressed && HasEnough(s.stamina, DodgeStaminaCost(s))
  }

  predicate OpensWeaponMenu(s: Snapshot) { s.middleKeyPressed }

  predicate StartsUltimate(s: Snapshot)
  {
    && s.ultimateKeyPressed
    && HasEnough(s.ultimate, UltimateAttributeCost(s))
    && !s.inTransitionOnBaseLayer
    && IsWarpPossible(s)
  }

  predicate StartsLightAttack(s: Snapshot)
  {
    && s.attackKeyPressed
    && HasEnough(s.stamina, LightAttackStaminaCost(s))
    && !s.inTransitionOnBaseLayer
  }

  predicate StartsHeavyAttack(s: Snapshot)
  {
    && s.secondAttackKeyPressed
    && HasEnough(s.stamina, HeavyAttackStaminaCost(s))
    && !s.inTransitionOnBaseLayer
  }

  predicate DodgeEndsOnWalkableGround(s: Snapshot)
  {
    s.dodgeEnded && s.isGrounded && !s.isGroundTooSteep
  }

  predicate DodgeEndsOffWalkableGround(s: Snapshot)
  {
    s.dodgeEnded && (!s.isGrounded || s.isGroundTooSteep)
  }

  predicate LandingFinished(s: Snapshot) { s.landEnded }

  predicate MenuClosedKeepingWeapon(s: Snapshot)
  {
    !s.middleKeyPressed && !s.hasSelectedNewWeapon
  }

  predicate MenuClosedWithNewWeapon(s: Snapshot)
  {
    !s.middleKeyPressed && s.hasSelectedNewWeapon
  }

  predicate UnEquipFinished(s: Snapshot) { s.unEquipEnded }

  predicate IdleTransitionOver(s: Snapshot) { s.idleTransitionTimeOver }

  predicate EquipFinished(s: Snapshot) { s.equipEnded }

  predicate ExecutionFinished(s: Snapshot) { s.executionEnded }

  predicate AttackFinishedWithoutKeys(s: Snapshot)
  {
    s.attackEnded && NoAttackKeyPressed(s)
  }

  /** Light attack chained at a segment end: from a light attack (repeat) or a heavy one (switch). */
  predicate ChainsLightAttack(s: Snapshot)
  {
    s.attackEnded && HasEnough(s.stamina, LightAttackStaminaCost(s)) && s.attackKeyPressed
  }

  /** Heavy attack chained at a segment end: from a heavy attack (repeat) or a light one (switch). */
  predicate ChainsHeavyAttack(s: Snapshot)
  {
    s.attackEnded && HasEnough(s.stamina, HeavyAttackStaminaCost(s)) && s.secondAttackKeyPressed
  }

  predicate GetsHit(s: Snapshot) { s.hasTakenDamage && !s.hasDied }

  predicate Dies(s: Snapshot) { s.hasDied }

  predicate GetHitFinished(s: Snapshot) { s.getHitEnded }

  // ---------------------------------------------------------------------------------------
  // The table

  /** The any-state edges, in registration order. */
  function AnyTransitions(): (r: seq<Transition>)
  {
    [Transition(GetHit, GetsHit), Transition(Die, Dies)]
  }

  /** Each state's own edges, in registration order. */
  function TransitionsFrom(st: StateId): (r: seq<Transition>)
  {
    match st
    case GroundedLocomotion =>
      [ Transition(Falling, IsAirborne),
        Transition(Sliding, OnSteepGround),
        Transition(Dodging, StartsDodge),
        Transition(WeaponMenu, OpensWeaponMenu),
        Transition(AttackUltimate, StartsUltimate),
        Transition(LightAttack, StartsLightAttack),
        Transition(HeavyAttack, StartsHeavyAttack) ]
    case Dodging =>
      [ Transition(GroundedLocomotion, DodgeEndsOnWalkableGround),
        Transition(Falling, DodgeEndsOffWalkableGround) ]
    case Falling =>
      [ Transition(Landing, OnWalkableGround),
        Transition(Sliding, OnSteepGround) ]
    case Sliding =>
      [ Transition(Landing, OnWalkableGround),
        Transition(Falling, IsAirborne) ]
    case Landing =>
      [ Transition(GroundedLocomotion, LandingFinished) ]
    case WeaponMenu =>
      [ Transition(GroundedLocomotion, MenuClosedKeepingWeapon),
        Transition(WeaponUnEquip, MenuClosedWithNewWeapon) ]
    case WeaponUnEquip =>
      [ Transition(IdleEquipTransition, UnEquipFinished) ]
    case IdleEquipTransition =>
      [ Transition(WeaponEquip, IdleTransitionOver) ]
    case WeaponEquip =>
      [ Transition(GroundedLocomotion, EquipFinished) ]
    case AttackUltimate =>
      [ Transition(GroundedLocomotion, ExecutionFinished) ]
    case LightAttack =>
      [ Transition(GroundedLocomotion, AttackFinishedWithoutKeys),
        Transition(LightAttack, ChainsLightAttack),
        Transition(HeavyAttack, ChainsHeavyAttack) ]
    case HeavyAttack =>
      [ Transition(GroundedLocomotion, AttackFinishedWithoutKeys),
        Transition(HeavyAttack, ChainsHeavyAttack),
        Transition(LightAttack, ChainsLightAttack) ]
    case GetHit =>
      [ Transition(GroundedLocomotion, GetHitFinished) ]
    case Die => []
  }

  /** The table keyed by source state, as the registrations leave it in the engine: a key for
      every state that has at least one edge, in the order the keys are first registered. */
  function BrainTable(): (r: map<StateId, seq<Transition>>)
  {
    map[
      GroundedLocomotion := TransitionsFrom(GroundedLocomotion),
      Dodging := TransitionsFrom(Dodging),
      Falling := TransitionsFrom(Falling),
      Sliding := TransitionsFrom(Sliding),
      Landing := TransitionsFrom(Landing),
      WeaponMenu := TransitionsFrom(WeaponMenu),
      WeaponUnEquip := TransitionsFrom(WeaponUnEquip),
      IdleEquipTransition := TransitionsFrom(IdleEquipTransition),
      WeaponEquip := TransitionsFrom(WeaponEquip),
      AttackUltimate := TransitionsFrom(AttackUltimate),
      LightAttack := TransitionsFrom(LightAttack),
      HeavyAttack := TransitionsFrom(HeavyAttack),
      GetHit := TransitionsFrom(GetHit)
    ]
  }

  /** Looking a state up in the keyed table (no key: no edges) gives its edges; only Die,
      which has none, is left without a key. */
  lemma BrainTableLookup(st: StateId)
    ensures (if st in BrainTable() then BrainTable()[st] else []) == TransitionsFrom(st)
    ensures st in BrainTable() <==> st != Die
  {
    match st
    case GroundedLocomotion =>
    case Dodging =>
    case Falling =>
    case Sliding =>
    case Landing =>
    case WeaponMenu =>
    case WeaponUnEquip =>
    case IdleEquipTransition =>
    case WeaponEquip =>
    case AttackUltimate =>
    case LightAttack =>
    case HeavyAttack =>
    case GetHit =>
    case Die =>
  }

  /** Only Die has no edges of its own, and only the any-state edges lead to getHit and die. */
  lemma TableTargets(st: StateId)
    ensures TransitionsFrom(st) == [] <==> st == Die
    ensures forall t | t in TransitionsFrom(st) :: t.to != GetHit && t.to != Die
    ensures forall t | t in AnyTransitions() :: t.to == GetHit || t.to == Die
  {
  }

  /** The state the machine starts in. */
  const InitialState: StateId := WeaponEquip

  // ---------------------------------------------------------------------------------------
  // Step semantics (assumed engine rule)

  /** Edge `i` is the first edge of `edges` whose condition holds. */
  ghost predicate IsFirstEnabled(edges: seq<Transition>, s: Snapshot, i: int)
  {
    && 0 <= i < |edges|
    && edges[i].condition(s)
    && forall j :: 0 <= j < i ==> !edges[j].condition(s)
  }

  /** The target of the first enabled edge, or None when no condition holds. */
  function FirstEnabled(edges: seq<Transition>, s: Snapshot): (r: Option<StateId>)
    ensures r.None? <==> forall i :: 0 <= i < |edges| ==> !edges[i].condition(s)
  {
    if edges == [] then None
    else if edges[0].condition(s) then Some(edges[0].to)
    else
      assert forall i :: 1 <= i < |edges| ==> edges[i] == edges[1..][i - 1];
      FirstEnabled(edges[1..], s)
  }

  /** A found target belongs to the first enabled edge. */
  lemma {:induction false} FirstEnabledIsFirst(edges: seq<Transition>, s: Snapshot)
    ensures FirstEnabled(edges, s).Some? ==>
              exists i :: IsFirstEnabled(edges, s, i) && edges[i].to == FirstEnabled(edges, s).value
    decreases |edges|
  {
    if edges != [] {
      if edges[0].condition(s) {
        assert IsFirstEnabled(edges, s, 0);
      } else {
        var rest := edges[1..];
        FirstEnabledIsFirst(rest, s);
        if FirstEnabled(rest, s).Some? {
          var i :| IsFirstEnabled(rest, s, i) && rest[i].to == FirstEnabled(rest, s).value;
          assert IsFirstEnabled(edges, s, i + 1);
        }
      }
    }
  }

  /** One evaluation of the table: the any-state edges win over the current state's own. */
  function NextState(anyEdges: seq<Transition>, ownEdges: seq<Transition>, s: Snapshot): (r: Option<StateId>)
  {
    match FirstEnabled(anyEdges, s)
    case Some(to) => Some(to)
    case None => FirstEnabled(ownEdges, s)
  }

  /** The switch the brain's table asks for from state `st`, if any. */
  function BrainNext(st: StateId, s: Snapshot): (r: Option<StateId>)
  {
    NextState(AnyTransitions(), TransitionsFrom(st), s)
  }

  /** The state after one evaluation of the brain's table. */
  function Successor(st: StateId, s: Snapshot): (r: StateId)
  {
    match BrainNext(st, s)
    case Some(to) => to
    case None => st
  }

  /** An any-state edge is enabled: the character was damaged or died. */
  predicate Interrupted(s: Snapshot)
  {
    s.hasTakenDamage || s.hasDied
  }
}
