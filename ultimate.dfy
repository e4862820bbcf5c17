/** The ultimate (finisher) attack state (Player/States/AttackUltimateState.cs).

    Its enter hook plays the finisher, pays for it, makes the body kinematic, hands the warp
    target to the root-motion warping controller, wires the weapon's hit sensor and subscribes
    its particle and sound handlers. Its exit hook switches the sensor's collider off, releases
    the body, clears the warp, advances the attack index, lowers ExecutionEnded and unsubscribes
    the handlers; the costs stay paid and the remembered weapon, finisher and sensor stay.

    The collaborators (weapon manager, animator, attributes, mover, warping controller, hit
    sensor, audio) are not part of this model. What they are asked is an input record
    (`Collaborators`); what they are told to do is recorded: the attribute decreases as logs
    (whether `Decrease` clamps is not visible), the animator calls and the effects as logs, the
    attack-index increase as a counter, and the kinematic flag, warp setup and each sensor's
    collider state as plain values. `Shared` is everything the two hooks touch, as one record;
    the pure functions `Enter` and `Exit` specify the hooks and the class's methods are proved
    against them. */
module Ultimate {
  import opened Wrappers
  import opened Weapon
  import opened Blackboard

  /** A weapon's hit sensor, by identity; `isMelee` says whether it is a melee weapon sensor
      that deals damage on collision. */
  datatype Sensor = Sensor(id: nat, isMelee: bool)

  /** `WeaponPositionData` of the equipped weapon. */
  datatype WeaponPositionData = WeaponPositionData(usesHitSensor: bool, hitDetectionSensor: Sensor)

  /** What the enter hook reads from its collaborators. `warpTarget` is the transform of the
      target the warp-target provider gives; None when there is no provider. */
  datatype Collaborators = Collaborators(
    currentFinisher: WarpAnimation,
    selectedWeapon: WeaponData,
    positionData: WeaponPositionData,
    warpTarget: Option<TransformId>,
    playerPosition: Position)

  /** The root-motion warping controller's conditions. */
  datatype WarpSetup = NoWarp | WarpTo(target: TransformId, animation: WarpAnimation, origin: Position)

  /** `InitializeSensor(damage, isPlayer, ultimateGain, ultimateAttribute)` on a melee sensor. */
  datatype SensorInit = SensorInit(sensor: nat, damage: real, isPlayer: bool, ultimateGain: real)

  datatype AnimatorCall = ReplaceFinisher(clip: ClipId) | PlayAttackFinisher

  datatype Effect = ParticleSpawned(particleSystem: nat) | SoundPlayed(sound: nat)

  datatype Shared = Shared(
    // the state's dynamic references
    currentWeapon: Option<WeaponData>,
    weaponExecution: Option<WarpAnimation>,
    weaponHitSensor: Option<Sensor>,
    // what the collaborators were told
    animatorCalls: seq<AnimatorCall>,
    staminaDecreases: seq<real>,
    ultimateDecreases: seq<real>,
    kinematic: bool,
    warp: WarpSetup,
    colliderEnabled: map<nat, bool>,
    sensorInits: seq<SensorInit>,
    attackIndexIncreases: nat,
    effects: seq<Effect>,
    // the blackboard
    executionEnded: bool,
    spawnParticles: seq<Handler>,
    enableHitDetection: seq<Handler>,
    disableHitDetection: seq<Handler>)

  // ---------------------------------------------------------------------------------------
  // Specification of the hooks

  /** Remembers the selected weapon, swaps the finisher clip into the override controller and
      starts the finisher animation. */
  function PlayAnimationStep(v: Shared, c: Collaborators): (r: Shared)
    requires v.weaponExecution.Some?
  {
    v.(currentWeapon := Some(c.selectedWeapon),
       animatorCalls := v.animatorCalls + [ReplaceFinisher(v.weaponExecution.value.clip), PlayAttackFinisher])
  }

  /** Pays the remembered weapon's finisher costs, stamina first. */
  function ConsumeAttributesStep(v: Shared): (r: Shared)
    requires v.currentWeapon.Some?
  {
    var cost := v.currentWeapon.value.finisherData.attributeData;
    v.(staminaDecreases := v.staminaDecreases + [cost.stamina],
       ultimateDecreases := v.ultimateDecreases + [cost.ultimate])
  }

  /** With a hit sensor: remember it, initialise it if it is a melee sensor, and subscribe the
      hit-detection handlers. Without one: nothing at all. */
  function SetupWeaponCollisionStep(v: Shared, d: WeaponPositionData): (r: Shared)
    requires v.currentWeapon.Some?
  {
    if !d.usesHitSensor then v
    else
      var sensor := d.hitDetectionSensor;
      var cost := v.currentWeapon.value.finisherData.attributeData;
      v.(weaponHitSensor := Some(sensor),
         sensorInits := v.sensorInits + (if sensor.isMelee then [SensorInit(sensor.id, cost.damage, true, cost.ultimate)] else []),
         enableHitDetection := v.enableHitDetection + [UltimateEnableHitDetection],
         disableHitDetection := v.disableHitDetection + [UltimateDisableHitDetection])
  }

  /** The enter hook. The warp-target provider is dereferenced unchecked, so there must be one;
      the transition into this state requires a possible warp, which requires a provider. */
  function Enter(v: Shared, c: Collaborators): (r: Shared)
    requires c.warpTarget.Some?
  {
    var v1 := v.(weaponExecution := Some(c.currentFinisher));
    var v2 := PlayAnimationStep(v1, c);
    var v3 := ConsumeAttributesStep(v2);
    var v4 := StartWarpStep(v3, c);
    var v5 := SetupWeaponCollisionStep(v4, c.positionData);
    SubscribeEffectsStep(v5)
  }

  /** Makes the body kinematic and hands the target, the finisher and the start position to
      the warping controller. */
  function StartWarpStep(v: Shared, c: Collaborators): (r: Shared)
    requires c.warpTarget.Some?
  {
    v.(kinematic := true, warp := WarpTo(c.warpTarget.value, c.currentFinisher, c.playerPosition))
  }

  /** Subscribes the particle handler, then the sound handler, to the particle event. */
  function SubscribeEffectsStep(v: Shared): (r: Shared)
  {
    v.(spawnParticles := v.spawnParticles + [UltimateSpawnParticles] + [UltimatePlaySound])
  }

  /** The collider of the remembered sensor switched off. */
  function DisableHitDetectionStep(v: Shared): (r: Shared)
    requires v.weaponHitSensor.Some?
  {
    v.(colliderEnabled := v.colliderEnabled[v.weaponHitSensor.value.id := false])
  }

  /** Releases the body, clears the warp, advances the attack index and lowers the
      execution-ended flag. */
  function ReleaseStep(v: Shared): (r: Shared)
  {
    v.(kinematic := false,
       warp := NoWarp,
       attackIndexIncreases := v.attackIndexIncreases + 1,
       executionEnded := false)
  }

  /** Unsubscribes the particle, hit-detection and sound handlers, in that order. */
  function UnsubscribeStep(v: Shared): (r: Shared)
  {
    v.(spawnParticles := RemoveLast(RemoveLast(v.spawnParticles, UltimateSpawnParticles), UltimatePlaySound),
       enableHitDetection := RemoveLast(v.enableHitDetection, UltimateEnableHitDetection),
       disableHitDetection := RemoveLast(v.disableHitDetection, UltimateDisableHitDetection))
  }

  /** Everything the exit hook does after switching the collider off. */
  function ResetAndUnsubscribe(v: Shared): (r: Shared)
  {
    UnsubscribeStep(ReleaseStep(v))
  }

  /** The exit hook as written: its first statement switches the remembered sensor's collider
      off, and when no sensor was ever remembered that is a null dereference, which aborts the
      hook before anything else happens (None). */
  function ExitAsWritten(v: Shared): (r: Option<Shared>)
    ensures r.None? <==> v.weaponHitSensor.None?
  {
    if v.weaponHitSensor.None? then None
    else Some(ResetAndUnsubscribe(DisableHitDetectionStep(v)))
  }

  /** The exit hook as intended: switch the collider off if there is a sensor, then reset and
      unsubscribe. */
  function Exit(v: Shared): (r: Shared)
  {
    ResetAndUnsubscribe(if v.weaponHitSensor.Some? then DisableHitDetectionStep(v) else v)
  }

  // ---------------------------------------------------------------------------------------
  // Properties of the hooks

  /** Entering pays the selected weapon's finisher costs exactly once each and touches no other
      attribute entry. */
  lemma EnterConsumesOnce(v: Shared, c: Collaborators)
    requires c.warpTarget.Some?
    ensures Enter(v, c).staminaDecreases == v.staminaDecreases + [c.selectedWeapon.finisherData.attributeData.stamina]
    ensures Enter(v, c).ultimateDecreases == v.ultimateDecreases + [c.selectedWeapon.finisherData.attributeData.ultimate]
    ensures Enter(v, c).currentWeapon == Some(c.selectedWeapon)
  {
  }

  /** Entering plays the current finisher's clip, makes the body kinematic and sets the warp
      toward the provided target from the player's position. */
  lemma EnterStartsWarp(v: Shared, c: Collaborators)
    requires c.warpTarget.Some?
    ensures Enter(v, c).kinematic
    ensures Enter(v, c).warp == WarpTo(c.warpTarget.value, c.currentFinisher, c.playerPosition)
    ensures Enter(v, c).weaponExecution == Some(c.currentFinisher)
    ensures Enter(v, c).animatorCalls == v.animatorCalls + [ReplaceFinisher(c.currentFinisher.clip), PlayAttackFinisher]
    ensures Enter(v, c).spawnParticles == v.spawnParticles + [UltimateSpawnParticles, UltimatePlaySound]
  {
  }

  /** Hit detection is wired only for a weapon that uses a hit sensor, and the sensor is
      initialised with the finisher's damage and ultimate gain only if it is a melee sensor. */
  lemma EnterWiresSensor(v: Shared, c: Collaborators)
    requires c.warpTarget.Some?
    ensures var d := c.positionData;
            var after := Enter(v, c);
            && (!d.usesHitSensor ==>
                  && after.weaponHitSensor == v.weaponHitSensor
                  && after.sensorInits == v.sensorInits
                  && after.enableHitDetection == v.enableHitDetection
                  && after.disableHitDetection == v.disableHitDetection)
            && (d.usesHitSensor ==>
                  && after.weaponHitSensor == Some(d.hitDetectionSensor)
                  && after.enableHitDetection == v.enableHitDetection + [UltimateEnableHitDetection]
                  && after.disableHitDetection == v.disableHitDetection + [UltimateDisableHitDetection])
            && (after.sensorInits != v.sensorInits <==> d.usesHitSensor && d.hitDetectionSensor.isMelee)
            && (d.usesHitSensor && d.hitDetectionSensor.isMelee ==>
                  after.sensorInits == v.sensorInits
                    + [SensorInit(d.hitDetectionSensor.id, c.selectedWeapon.finisherData.attributeData.damage,
                                  true, c.selectedWeapon.finisherData.attributeData.ultimate)])
  {
  }

  /** Leaving always switches the remembered sensor's collider off, releases the body, clears
      the warp, advances the attack index once and lowers the execution-ended flag. */
  lemma ExitResets(v: Shared)
    ensures var after := Exit(v);
            && !after.kinematic
            && after.warp == NoWarp
            && after.attackIndexIncreases == v.attackIndexIncreases + 1
            && !after.executionEnded
            && (v.weaponHitSensor.Some? ==>
                  after.colliderEnabled == v.colliderEnabled[v.weaponHitSensor.value.id := false])
            && (v.weaponHitSensor.None? ==> after.colliderEnabled == v.colliderEnabled)
            && after.staminaDecreases == v.staminaDecreases
            && after.ultimateDecreases == v.ultimateDecreases
  {
  }

  /** Enter, let the animation run (it may raise the execution-ended flag, switch the collider
      and spawn effects), then exit: the handler lists are back as they were before entry, and
      the rest is reset, with exactly one payment and one attack-index increase in between.
      For a weapon without a hit sensor this needs the hit-detection handlers not to be
      subscribed before entry, since exit unsubscribes them anyway. */
  lemma EnterThenExitRestores(v: Shared, c: Collaborators, ended: bool, colliders: map<nat, bool>, effects: seq<Effect>)
    requires c.warpTarget.Some?
    requires !c.positionData.usesHitSensor ==>
               && UltimateEnableHitDetection !in v.enableHitDetection
               && UltimateDisableHitDetection !in v.disableHitDetection
    ensures var during := Enter(v, c).(executionEnded := ended, colliderEnabled := colliders, effects := effects);
            var after := Exit(during);
            && after.spawnParticles == v.spawnParticles
            && after.enableHitDetection == v.enableHitDetection
            && after.disableHitDetection == v.disableHitDetection
            && !after.kinematic && after.warp == NoWarp && !after.executionEnded
            && after.attackIndexIncreases == v.attackIndexIncreases + 1
            && |after.staminaDecreases| == |v.staminaDecreases| + 1
            && |after.ultimateDecreases| == |v.ultimateDecreases| + 1
  {
    var during := Enter(v, c).(executionEnded := ended, colliderEnabled := colliders, effects := effects);
    RemoveLastAfterAppend(v.spawnParticles, UltimateSpawnParticles, [UltimatePlaySound]);
    assert during.spawnParticles == v.spawnParticles + [UltimateSpawnParticles] + [UltimatePlaySound];
    RemoveLastAfterAppend(v.spawnParticles, UltimatePlaySound, []);
    assert v.spawnParticles + [] == v.spawnParticles;
    assert v.spawnParticles + [UltimatePlaySound] + [] == v.spawnParticles + [UltimatePlaySound];
    if c.positionData.usesHitSensor {
      RemoveLastAfterAppend(v.enableHitDetection, UltimateEnableHitDetection, []);
      RemoveLastAfterAppend(v.disableHitDetection, UltimateDisableHitDetection, []);
      assert v.enableHitDetection + [UltimateEnableHitDetection] + [] == v.enableHitDetection + [UltimateEnableHitDetection];
      assert v.disableHitDetection + [UltimateDisableHitDetection] + [] == v.disableHitDetection + [UltimateDisableHitDetection];
      assert v.enableHitDetection + [] == v.enableHitDetection;
      assert v.disableHitDetection + [] == v.disableHitDetection;
    }
  }

  /** The defect, exhibited: a first entry with a weapon that uses no hit sensor leaves no
      sensor remembered, and the exit hook as written then dereferences null and aborts, so
      the body stays kinematic and both handlers stay subscribed. */
  lemma ExitWithoutSensorThrows(v: Shared, c: Collaborators)
    requires c.warpTarget.Some?
    requires v.weaponHitSensor.None? && !c.positionData.usesHitSensor
    ensures ExitAsWritten(Enter(v, c)).None?
    ensures Enter(v, c).kinematic && UltimateSpawnParticles in Enter(v, c).spawnParticles
  {
  }

  /** The correction changes nothing where a sensor is remembered. */
  lemma ExitAgreesWithSensor(v: Shared)
    requires v.weaponHitSensor.Some?
    ensures ExitAsWritten(v) == Some(Exit(v))
  {
  }

  // ---------------------------------------------------------------------------------------
  // Delivery of the blackboard events to this state

  /** Whether a subscribed delegate can run: the particle and sound handlers read the
      remembered finisher, the hit-detection handlers the remembered sensor (either would be a
      null dereference otherwise). Other subscribers are outside this model. */
  predicate CanRun(v: Shared, h: Handler)
  {
    match h
    case UltimateSpawnParticles => v.weaponExecution.Some?
    case UltimatePlaySound => v.weaponExecution.Some?
    case UltimateEnableHitDetection => v.weaponHitSensor.Some?
    case UltimateDisableHitDetection => v.weaponHitSensor.Some?
    case OtherHandler(_) => true
  }

  predicate CanRunAll(v: Shared, hs: seq<Handler>)
  {
    forall h :: h in hs ==> CanRun(v, h)
  }

  /** Every delegate subscribed to the three events can run. */
  predicate HandlersCanRun(v: Shared)
  {
    CanRunAll(v, v.spawnParticles) && CanRunAll(v, v.enableHitDetection) && CanRunAll(v, v.disableHitDetection)
  }

  /** No delegate of this state is subscribed to `hs`. */
  predicate NoUltimateHandler(hs: seq<Handler>)
  {
    forall h :: h in hs ==> h.OtherHandler?
  }

  /** The state is subscribed to none of the three events. */
  predicate Unsubscribed(v: Shared)
  {
    NoUltimateHandler(v.spawnParticles) && NoUltimateHandler(v.enableHitDetection) && NoUltimateHandler(v.disableHitDetection)
  }

  /** One delegate run on this state; another subscriber's delegate does nothing here. */
  function RunHandler(v: Shared, h: Handler): (r: Shared)
    requires CanRun(v, h)
    ensures r == v.(effects := r.effects, colliderEnabled := r.colliderEnabled)
    ensures h.OtherHandler? ==> r == v
  {
    match h
    case UltimateSpawnParticles =>
      v.(effects := v.effects + [ParticleSpawned(v.weaponExecution.value.effectInstance.particleSystem)])
    case UltimatePlaySound =>
      v.(effects := v.effects + [SoundPlayed(v.weaponExecution.value.effectInstance.spawnSound)])
    case UltimateEnableHitDetection =>
      v.(colliderEnabled := v.colliderEnabled[v.weaponHitSensor.value.id := true])
    case UltimateDisableHitDetection =>
      DisableHitDetectionStep(v)
    case OtherHandler(_) => v
  }

  /** Invoking an event: its delegates run in subscription order. Only the effects and the
      colliders change; in particular the subscriptions and what the handlers read do not. */
  function Dispatch(v: Shared, hs: seq<Handler>): (r: Shared)
    requires CanRunAll(v, hs)
    ensures r == v.(effects := r.effects, colliderEnabled := r.colliderEnabled)
    decreases |hs|
  {
    if hs == [] then v
    else
      assert forall h :: h in hs[1..] ==> h in hs;
      Dispatch(RunHandler(v, hs[0]), hs[1..])
  }

  /** A delegate subscribed last runs after all the others. */
  lemma {:induction false} DispatchAppend(v: Shared, hs: seq<Handler>, h: Handler)
    requires CanRunAll(v, hs + [h])
    ensures CanRunAll(v, hs) && CanRun(Dispatch(v, hs), h)
    ensures Dispatch(v, hs + [h]) == RunHandler(Dispatch(v, hs), h)
    decreases |hs|
  {
    assert forall x :: x in hs ==> x in hs + [h];
    if hs == [] {
      assert [] + [h] == [h];
    } else {
      assert (hs + [h])[1..] == hs[1..] + [h];
      assert forall x :: x in hs[1..] + [h] ==> x in hs + [h];
      DispatchAppend(RunHandler(v, hs[0]), hs[1..], h);
    }
  }

  /** An event with none of this state's delegates leaves the state alone. */
  lemma {:induction false} DispatchOthers(v: Shared, hs: seq<Handler>)
    requires NoUltimateHandler(hs)
    ensures CanRunAll(v, hs) && Dispatch(v, hs) == v
    decreases |hs|
  {
    if hs != [] {
      assert hs[0] in hs;
      assert RunHandler(v, hs[0]) == v;
      assert forall h :: h in hs[1..] ==> h in hs;
      DispatchOthers(v, hs[1..]);
    }
  }

  /** Entry and exit keep every subscribed delegate runnable: entry remembers the finisher
      before subscribing the particle handlers and the sensor before subscribing the
      hit-detection handlers, and exit only removes delegates. */
  lemma EnterExitKeepHandlersRunnable(v: Shared, c: Collaborators)
    requires c.warpTarget.Some? && HandlersCanRun(v)
    ensures HandlersCanRun(Enter(v, c))
    ensures HandlersCanRun(Exit(v))
  {
  }

  /** Entering a state that was subscribed to nothing subscribes each particle handler exactly
      once, and each hit-detection handler exactly once if the weapon uses a hit sensor and
      not at all otherwise. */
  lemma EnterSubscribesOnce(v: Shared, c: Collaborators)
    requires c.warpTarget.Some? && Unsubscribed(v)
    ensures var e := Enter(v, c);
            var n := if c.positionData.usesHitSensor then 1 else 0;
            && multiset(e.spawnParticles)[UltimateSpawnParticles] == 1
            && multiset(e.spawnParticles)[UltimatePlaySound] == 1
            && multiset(e.enableHitDetection)[UltimateEnableHitDetection] == n
            && multiset(e.disableHitDetection)[UltimateDisableHitDetection] == n
  {
    AbsentCountsZero(v.spawnParticles, UltimateSpawnParticles);
    AbsentCountsZero(v.spawnParticles, UltimatePlaySound);
    AbsentCountsZero(v.enableHitDetection, UltimateEnableHitDetection);
    AbsentCountsZero(v.disableHitDetection, UltimateDisableHitDetection);
  }

  lemma AbsentCountsZero(hs: seq<Handler>, h: Handler)
    requires NoUltimateHandler(hs) && !h.OtherHandler?
    ensures multiset(hs)[h] == 0
  {
    assert h !in hs;
  }

  /** While the state is active (after entry, whatever the events did meanwhile), the
      particle event spawns the current finisher's particles and then plays its sound, once
      each, and changes nothing else. */
  lemma ParticleEventWhileActive(v: Shared, c: Collaborators, colliders: map<nat, bool>, effects: seq<Effect>)
    requires c.warpTarget.Some? && Unsubscribed(v)
    ensures var during := Enter(v, c).(colliderEnabled := colliders, effects := effects);
            && CanRunAll(during, during.spawnParticles)
            && Dispatch(during, during.spawnParticles)
               == during.(effects := effects + [ParticleSpawned(c.currentFinisher.effectInstance.particleSystem),
                                                SoundPlayed(c.currentFinisher.effectInstance.spawnSound)])
  {
    var during := Enter(v, c).(colliderEnabled := colliders, effects := effects);
    assert during.spawnParticles == v.spawnParticles + [UltimateSpawnParticles] + [UltimatePlaySound];
    DispatchAppend(during, v.spawnParticles + [UltimateSpawnParticles], UltimatePlaySound);
    DispatchAppend(during, v.spawnParticles, UltimateSpawnParticles);
    DispatchOthers(during, v.spawnParticles);
  }

  /** While the state is active, the hit-window events switch exactly the remembered sensor's
      collider on and off if the weapon uses a hit sensor, and do nothing to the state if it
      does not. */
  lemma HitWindowWhileActive(v: Shared, c: Collaborators, colliders: map<nat, bool>, effects: seq<Effect>)
    requires c.warpTarget.Some? && Unsubscribed(v)
    ensures var during := Enter(v, c).(colliderEnabled := colliders, effects := effects);
            var id := c.positionData.hitDetectionSensor.id;
            && CanRunAll(during, during.enableHitDetection)
            && CanRunAll(during, during.disableHitDetection)
            && (c.positionData.usesHitSensor ==>
                  && Dispatch(during, during.enableHitDetection) == during.(colliderEnabled := colliders[id := true])
                  && Dispatch(during, during.disableHitDetection) == during.(colliderEnabled := colliders[id := false]))
            && (!c.positionData.usesHitSensor ==>
                  && Dispatch(during, during.enableHitDetection) == during
                  && Dispatch(during, during.disableHitDetection) == during)
  {
    var during := Enter(v, c).(colliderEnabled := colliders, effects := effects);
    if c.positionData.usesHitSensor {
      DispatchAppend(during, v.enableHitDetection, UltimateEnableHitDetection);
      DispatchAppend(during, v.disableHitDetection, UltimateDisableHitDetection);
    }
    DispatchOthers(during, v.enableHitDetection);
    DispatchOthers(during, v.disableHitDetection);
  }

  /** A state never receives a callback after it has exited: if it was subscribed to none of
      the events before entry, it is subscribed to none after exit, so invoking any of them
      leaves it alone. */
  lemma NoCallbackAfterExit(v: Shared, c: Collaborators, ended: bool, colliders: map<nat, bool>, effects: seq<Effect>)
    requires c.warpTarget.Some? && Unsubscribed(v)
    ensures var after := Exit(Enter(v, c).(executionEnded := ended, colliderEnabled := colliders, effects := effects));
            && Unsubscribed(after)
            && CanRunAll(after, after.spawnParticles) && Dispatch(after, after.spawnParticles) == after
            && CanRunAll(after, after.enableHitDetection) && Dispatch(after, after.enableHitDetection) == after
            && CanRunAll(after, after.disableHitDetection) && Dispatch(after, after.disableHitDetection) == after
  {
    var after := Exit(Enter(v, c).(executionEnded := ended, colliderEnabled := colliders, effects := effects));
    EnterThenExitRestores(v, c, ended, colliders, effects);
    DispatchOthers(after, after.spawnParticles);
    DispatchOthers(after, after.enableHitDetection);
    DispatchOthers(after, after.disableHitDetection);
  }

  // ---------------------------------------------------------------------------------------
  // The state

  class AttackUltimateState {
    const references: References

    var currentWeapon: Option<WeaponData>
    var weaponExecution: Option<WarpAnimation>
    var weaponHitSensor: Option<Sensor>

    var animatorCalls: seq<AnimatorCall>
    var staminaDecreases: seq<real>
    var ultimateDecreases: seq<real>
    var kinematic: bool
    var warp: WarpSetup
    var colliderEnabled: map<nat, bool>
    var sensorInits: seq<SensorInit>
    var attackIndexIncreases: nat
    var effects: seq<Effect>

    /** Everything the hooks touch, as a value. */
    function View(): (r: Shared)
      reads this, references`executionEnded, references`spawnParticles,
            references`enableHitDetection, references`disableHitDetection
    {
      Shared(currentWeapon, weaponExecution, weaponHitSensor,
             animatorCalls, staminaDecreases, ultimateDecreases, kinematic, warp,
             colliderEnabled, sensorInits, attackIndexIncreases, effects,
             references.executionEnded, references.spawnParticles,
             references.enableHitDetection, references.disableHitDetection)
    }

    /** Caches the blackboard; no weapon, finisher or sensor is remembered yet. */
    constructor (references: References)
      ensures this.references == references
      ensures currentWeapon.None? && weaponExecution.None? && weaponHitSensor.None?
      ensures animatorCalls == [] && staminaDecreases == ultimateDecreases == [] && effects == []
      ensures !kinematic && warp == NoWarp && colliderEnabled == map[] && sensorInits == []
      ensures attackIndexIncreases == 0
    {
      this.references := references;
      currentWeapon, weaponExecution, weaponHitSensor := None, None, None;
      animatorCalls, staminaDecreases, ultimateDecreases := [], [], [];
      kinematic, warp, colliderEnabled, sensorInits := false, NoWarp, map[], [];
      attackIndexIncreases, effects := 0, [];
    }

    method OnEnter(c: Collaborators)
      requires c.warpTarget.Some?
      modifies this, references`spawnParticles, references`enableHitDetection, references`disableHitDetection
      ensures View() == Enter(old(View()), c)
    {
      weaponExecution := Some(c.currentFinisher);
      PlayAnimation(c);
      ConsumeAttributes();
      StartWarp(c);
      SetupWeaponCollision(c.positionData);
      SubscribeEffects();
    }

    method StartWarp(c: Collaborators)
      requires c.warpTarget.Some?
      modifies this`kinematic, this`warp
      ensures View() == StartWarpStep(old(View()), c)
    {
      kinematic := true;
      warp := WarpTo(c.warpTarget.value, c.currentFinisher, c.playerPosition);
    }

    method SubscribeEffects()
      modifies references`spawnParticles
      ensures View() == SubscribeEffectsStep(old(View()))
    {
      references.spawnParticles := references.spawnParticles + [UltimateSpawnParticles];
      references.spawnParticles := references.spawnParticles + [UltimatePlaySound];
    }

    method PlayAnimation(c: Collaborators)
      requires weaponExecution.Some?
      modifies this`currentWeapon, this`animatorCalls
      ensures View() == PlayAnimationStep(old(View()), c)
    {
      currentWeapon := Some(c.selectedWeapon);
      animatorCalls := animatorCalls + [ReplaceFinisher(weaponExecution.value.clip)];
      animatorCalls := animatorCalls + [PlayAttackFinisher];
    }

    method ConsumeAttributes()
      requires currentWeapon.Some?
      modifies this`staminaDecreases, this`ultimateDecreases
      ensures View() == ConsumeAttributesStep(old(View()))
    {
      var staminaCost := currentWeapon.value.finisherData.attributeData.stamina;
      staminaDecreases := staminaDecreases + [staminaCost];
      var ultimateCost := currentWeapon.value.finisherData.attributeData.ultimate;
      ultimateDecreases := ultimateDecreases + [ultimateCost];
    }

    method SetupWeaponCollision(d: WeaponPositionData)
      requires currentWeapon.Some?
      modifies this`weaponHitSensor, this`sensorInits, references`enableHitDetection, references`disableHitDetection
      ensures View() == SetupWeaponCollisionStep(old(View()), d)
    {
      if d.usesHitSensor {
        weaponHitSensor := Some(d.hitDetectionSensor);
        if d.hitDetectionSensor.isMelee {
          var attackDamage := currentWeapon.value.finisherData.attributeData.damage;
          var ultAttributeGain := currentWeapon.value.finisherData.attributeData.ultimate;
          sensorInits := sensorInits + [SensorInit(d.hitDetectionSensor.id, attackDamage, true, ultAttributeGain)];
        }
        references.enableHitDetection := references.enableHitDetection + [UltimateEnableHitDetection];
        references.disableHitDetection := references.disableHitDetection + [UltimateDisableHitDetection];
      }
    }

    /** Particle handler: spawns the finisher's particle system (placement not modelled). */
    method SpawnParticles()
      requires weaponExecution.Some?
      modifies this`effects
      ensures effects == old(effects) + [ParticleSpawned(weaponExecution.value.effectInstance.particleSystem)]
    {
      effects := effects + [ParticleSpawned(weaponExecution.value.effectInstance.particleSystem)];
    }

    /** Sound handler: plays the finisher's spawn sound once. */
    method PlaySound()
      requires weaponExecution.Some?
      modifies this`effects
      ensures effects == old(effects) + [SoundPlayed(weaponExecution.value.effectInstance.spawnSound)]
    {
      effects := effects + [SoundPlayed(weaponExecution.value.effectInstance.spawnSound)];
    }

    /** Hit-window open: switches the remembered sensor's collider on. */
    method EnableHitDetection()
      requires weaponHitSensor.Some?
      modifies this`colliderEnabled
      ensures colliderEnabled == old(colliderEnabled)[weaponHitSensor.value.id := true]
    {
      colliderEnabled := colliderEnabled[weaponHitSensor.value.id := true];
    }

    /** Hit-window close: switches the remembered sensor's collider off. */
    method DisableHitDetection()
      requires weaponHitSensor.Some?
      modifies this`colliderEnabled
      ensures View() == DisableHitDetectionStep(old(View()))
    {
      colliderEnabled := colliderEnabled[weaponHitSensor.value.id := false];
    }

    /** One delegate of an invocation list, run on this state. */
    method Run(h: Handler)
      requires CanRun(View(), h)
      modifies this`effects, this`colliderEnabled
      ensures View() == RunHandler(old(View()), h)
    {
      match h
      case UltimateSpawnParticles => SpawnParticles();
      case UltimatePlaySound => PlaySound();
      case UltimateEnableHitDetection => EnableHitDetection();
      case UltimateDisableHitDetection => DisableHitDetection();
      case OtherHandler(_) =>
    }

    /** Invoking a delegate list: each delegate runs once, in subscription order (the loop a
        multicast delegate's `Invoke` performs). */
    method Invoke(hs: seq<Handler>)
      requires CanRunAll(View(), hs)
      modifies this`effects, this`colliderEnabled
      ensures View() == Dispatch(old(View()), hs)
    {
      for i := 0 to |hs|
        invariant CanRunAll(old(View()), hs[..i])
        invariant View() == Dispatch(old(View()), hs[..i])
      {
        assert hs[..i + 1] == hs[..i] + [hs[i]];
        assert forall x :: x in hs[..i + 1] ==> x in hs;
        DispatchAppend(old(View()), hs[..i], hs[i]);
        Run(hs[i]);
      }
      assert hs[..|hs|] == hs;
    }

    method Tick()
      ensures View() == old(View())
    {
    }

    method FixedTick()
      ensures View() == old(View())
    {
    }

    /** The exit hook, with the collider switched off only when a sensor is remembered (the
        source switches it off unconditionally; see ExitAsWritten). */
    method OnExit()
      modifies this`colliderEnabled, this`kinematic, this`warp, this`attackIndexIncreases
      modifies references`executionEnded, references`spawnParticles,
               references`enableHitDetection, references`disableHitDetection
      ensures View() == Exit(old(View()))
    {
      if weaponHitSensor.Some? {
        DisableHitDetection();
      }
      Release();
      Unsubscribe();
    }

    method Release()
      modifies this`kinematic, this`warp, this`attackIndexIncreases, references`executionEnded
      ensures View() == ReleaseStep(old(View()))
    {
      kinematic := false;
      warp := NoWarp;
      attackIndexIncreases := attackIndexIncreases + 1;
      references.executionEnded := false;
    }

    method Unsubscribe()
      modifies references`spawnParticles, references`enableHitDetection, references`disableHitDetection
      ensures View() == UnsubscribeStep(old(View()))
    {
      references.spawnParticles := RemoveLast(references.spawnParticles, UltimateSpawnParticles);
      references.enableHitDetection := RemoveLast(references.enableHitDetection, UltimateEnableHitDetection);
      references.disableHitDetection := RemoveLast(references.disableHitDetection, UltimateDisableHitDetection);
      references.spawnParticles := RemoveLast(references.spawnParticles, UltimatePlaySound);
    }
  }
}
