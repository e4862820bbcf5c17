# Player controller state machine — a Dafny model

This project models the behavioural core of a third-person action game's player controller.
The player is driven by a finite-state machine with 14 states: locomotion, falling, sliding,
landing, dodging, the weapon menu, weapon un-equip / idle / equip, the ultimate finisher, light
and heavy attacks, get-hit and die.

- **The brain** (`Player/Brain.cs`) registers the transition table once. Each edge has a
  condition over one frame's view of the world: input flags, ground queries, animation
  "segment ended" flags, resource pools, the animator's transition status and warp
  feasibility. The brain then ticks the machine every frame and every physics step, and stops
  for good once the die state's teardown has dropped the machine.
- **The ultimate attack state** (`Player/States/AttackUltimateState.cs`) does the following:
  - On entry it plays the weapon's finisher, pays its stamina and ultimate costs, makes the
    body kinematic and sets up a root-motion warp toward a target.
  - Also on entry, it wires the weapon's hit sensor and subscribes its particle and sound
    handlers to the blackboard's events.
  - On exit it switches the remembered sensor's collider off, releases the body, clears the
    warp, advances the attack index, lowers `ExecutionEnded` and unsubscribes its handlers. The
    costs stay paid, a melee sensor stays initialised, and the remembered weapon, finisher and
    sensor are kept. As written, the first exit after an entry without a hit sensor aborts
    before any of this (see Findings).
- **The event forwarder** (`Player/Animation/EventForward.cs`) turns animation events into
  blackboard flags and event invocations. The dodge and get-hit ends count only when their
  clip is the heaviest one playing on layer 0.

Files and modules:

| file | module | contents |
|---|---|---|
| wrappers.dfy | `Wrappers` | `Option`, the stand-in for a nullable reference |
| weapon.dfy | `Weapon` | the weapon asset's cost and damage fields, the finisher clip and effects |
| transitions.dfy | `Transitions` | the frame snapshot, the named conditions, the cost helpers, `IsWarpPossible`, the table, and the engine's first-match step rule |
| table_properties.dfy | `TableProperties` | exclusivity, precedence and gating lemmas about the table |
| fsm.dfy | `Fsm` | the `StateMachine` engine class, with its hook log and the enter/exit pairing invariant |
| setup.dfy | `BrainSetup` | the registrations of `SetupStateMachine`, edge by edge in source order |
| brain.dfy | `PlayerBrain` | the `Brain` class: setup, teardown, and the null-guarded `Update`/`FixedUpdate` |
| blackboard.dfy | `Blackboard` | the `References` flags and handler lists, and the C# `-=` on an invocation list |
| event_forward.dfy | `Animation` | the `EventForward` class: the argmax loop, the `*End` setters, the trigger forwarders (delivered to the ultimate state) and the warp flags |
| ultimate.dfy | `Ultimate` | the `Enter`/`Exit` specifications, the delivery of blackboard events to the state (`Dispatch`), and the `AttackUltimateState` class proved against them |

How each kind of source code is modelled:

- **Transition conditions.** Each condition is a named predicate over a `Snapshot` record. The
  table stores them as function values, the way the source stores closures.
- **The engine.** `Extensions.FSM` is not part of this model. Its behaviour is stated as the
  contract of `Fsm.StateMachine`:
  - any-state edges are tried first, then the current state's edges, each list in
    registration order;
  - the first edge whose condition holds wins;
  - on a switch, the old state's exit hook runs, then the new state's enter hook, then the
    current state's tick hook.
- **State-changing code.** It is written as classes with `modifies` frames. Most methods'
  `ensures` tie the new state to a specification function of the old state, and the
  properties are proved as lemmas about those functions. The exceptions state their new state
  directly: the `*End` and warp setters of `EventForward`; the ultimate state's
  `SpawnParticles`, `PlaySound` and `EnableHitDetection`; the `Fsm.StateMachine` methods
  `AddTransition`, `AddAnyTransition`, `AttachDebugObserver`, `DetachDebugObserver` and
  `SetInitialState`; and the `Brain` methods.

## Model

| member | source | states |
|---|---|---|
| Transitions.IsWarpPossible | Player/Brain.cs:194-201 | A warp is possible exactly when a warp-target provider exists and the warping controller accepts its target. It is false whenever there is no provider. |
| Transitions.LightAttackStaminaCost | Player/Brain.cs:187 | Defined as the light attack's stamina cost of the weapon selected at evaluation time (no contract of its own; `TableProperties.AttackEntryGate` and `ComboCostGate` use it). |
| Transitions.HeavyAttackStaminaCost | Player/Brain.cs:188 | Defined as the heavy attack's stamina cost of the weapon selected at evaluation time (no contract of its own). |
| Transitions.DodgeStaminaCost | Player/Brain.cs:189 | Defined as the blackboard's dodge stamina cost (no contract of its own). |
| Transitions.UltimateAttributeCost | Player/Brain.cs:192 | Defined as the selected weapon's finisher ultimate cost (no contract of its own; `TableProperties.UltimateEntryGate` uses it). |
| Transitions.NoAttackKeyPressed | Player/Brain.cs:184 | Defined as neither attack key being held (no contract of its own). |
| Transitions.AnyTransitions | Player/Brain.cs:169-170 | Defined as the any-state edges, getHit then die, with their conditions (no contract of its own; see `TableProperties.AnyTransitionChoice`). |
| Transitions.TransitionsFrom | Player/Brain.cs:103-171 | Defined as each state's own edges, in registration order: the transition table itself (no contract of its own; see `Transitions.TableTargets` and `BrainSetup.RegisterTable`). |
| Transitions.TableTargets | Player/Brain.cs:103-171 | Only die has no edges of its own. No state's own edge leads to getHit or die; only the any-state edges do. |
| Transitions.FirstEnabled | Player/Brain.cs:181-182 | For edges registered through `At`/`Any`, the search finds nothing exactly when no condition holds. |
| Transitions.FirstEnabledIsFirst | Player/Brain.cs:181-182 | A found target is the target of the first enabled edge. FirstMatchWins gives the converse. |
| Transitions.BrainTableLookup | Player/Brain.cs:103-171 | The keyed table left by the registrations gives each state its edges in registration order. Every state except die has a key. |
| TableProperties.FirstMatchWins | Player/Brain.cs:181-182 | If edge i is the first enabled edge, its target is chosen, whatever later edges are enabled. |
| TableProperties.AnyTransitionChoice | Player/Brain.cs:169-170 | The get-hit and die conditions are never both true. Death gives die; damage without death gives get-hit; otherwise no any-state edge fires. |
| TableProperties.GetHitRepeatsWhileDamaged | Player/Brain.cs:169-171 | While damaged and alive, getHit's next state is getHit again through the any-state edge, so its own exit edge is not taken even after `GetHitEnded`. |
| TableProperties.InterruptPrecedence | Player/Brain.cs:169-170 | Damage or death pre-empts every state's own edges. Without either, the state's own edges decide. |
| TableProperties.GroundPartition | Player/Brain.cs:103-104 | Airborne, steep ground and walkable ground partition every frame. So the falling and sliding edges out of locomotion are never both enabled. |
| TableProperties.LocomotionStep | Player/Brain.cs:103-117 | From grounded locomotion, without an interrupt, the next state is decided by the cascade falling > sliding > dodge > weapon menu > ultimate > light > heavy > stay. |
| TableProperties.LocomotionActions | Player/Brain.cs:107-117 | The last four locomotion edges resolve as weapon menu > ultimate > light > heavy > none. |
| TableProperties.UltimateEntryGate | Player/Brain.cs:108-111 | Locomotion enters the ultimate only with all of: the ultimate key, enough ultimate for the selected weapon's finisher, no layer-0 transition, a possible warp, and hence a provider. It is also stated as an if-and-only-if in terms of the earlier edges. |
| TableProperties.AttackEntryGate | Player/Brain.cs:112-117 | A light or heavy attack starts from locomotion only with: its key held; its stamina cost affordable, read from the weapon selected in that frame; and no layer-0 animator transition. |
| TableProperties.DodgeEndDecides | Player/Brain.cs:121-125 | Before the dodge ends, nothing happens. After it ends, exactly one edge is enabled: locomotion on walkable ground, otherwise falling. |
| TableProperties.WeaponMenuReleaseDecides | Player/Brain.cs:138-141 | While the middle key is held, nothing happens. Once it is released, exactly one edge is enabled, chosen by whether a new weapon was selected. |
| TableProperties.AttackEdgesStep | Player/Brain.cs:152-167 | The three edges out of an attack state resolve as back to locomotion > repeat > switch > stay. |
| TableProperties.LightAttackCombo | Player/Brain.cs:152-158 | Returning to locomotion excludes the repeat edge. The light attack's next state is: nothing before the segment ends; then locomotion without keys; then repeat if affordable; then switch to heavy if affordable; else stay. |
| TableProperties.HeavyAttackCombo | Player/Brain.cs:161-167 | The same as the light combo, with repeat and switch swapped. |
| TableProperties.ComboCostGate | Player/Brain.cs:153-167 | A repeat or switch into an attack happens only if that attack's stamina cost, read from the weapon selected in that frame, is affordable. |
| TableProperties.UnaffordableComboPersists | Player/Brain.cs:152-167 | A segment end with at least one attack key held, where every held key's attack is unaffordable, leaves the attack state where it is. |
| TableProperties.DeathReachesDie | Player/Brain.cs:169-170 | Die has no edges of its own, and every state moves to die once the character has died. |
| Fsm.AppendKeepsPaired | Player/Brain.cs:207-217 | Appending a hook that follows the enter/exit rules keeps the whole hook log paired. Under those rules, enters and exits strictly alternate and nothing runs between an exit and the next enter. |
| Fsm.PairingIsStrict | Player/Brain.cs:207-217 | The pairing rejects a second exit without an enter in between, and a tick between an exit and the next enter. |
| Fsm.StateMachine.AddTransition | Player/Brain.cs:182 | Appends the edge after the edges already registered from that state. Other states are unchanged. |
| Fsm.StateMachine.AddAnyTransition | Player/Brain.cs:181 | Appends the edge to the any-state list. |
| Fsm.StateMachine.AttachDebugObserver | Player/Brain.cs:173-175 | The debug observer is subscribed to state changes afterwards. |
| Fsm.StateMachine.DetachDebugObserver | Player/Brain.cs:95-97 | The debug observer is unsubscribed afterwards. |
| Fsm.StateMachine.SetInitialState | Player/Brain.cs:177 | Makes the state current and runs exactly its enter hook. The log stays paired. |
| Fsm.StateMachine.Evaluate | Player/Brain.cs:210 | Switches to the first-match successor, running exit then enter on a switch. The log stays paired. |
| Fsm.StateMachine.Tick | Player/Brain.cs:210 | Evaluates, then ticks the resulting current state. |
| Fsm.StateMachine.FixedTick | Player/Brain.cs:216 | Evaluates, then fixed-ticks the resulting current state. |
| BrainSetup.RegisterTable | Player/Brain.cs:103-171 | After all registrations, each state holds exactly the table's edges in source order, and the any-state list is getHit then die. |
| BrainSetup.RegisterMovement | Player/Brain.cs:103-135 | Registers the locomotion, dodge, fall, slide and land edges. |
| BrainSetup.RegisterWeaponAndCombat | Player/Brain.cs:138-171 | Registers the weapon-switch, attack and health edges, including the two any-state edges. |
| BrainSetup.RegisterWeaponSwitch | Player/Brain.cs:138-147 | Registers the weapon-menu, un-equip, idle-transition and equip edges. |
| BrainSetup.RegisterAttacks | Player/Brain.cs:149-167 | Registers the ultimate, light and heavy attack edges. |
| BrainSetup.RegisterHealth | Player/Brain.cs:169-171 | Registers the any-state edges to getHit and die, in that order, and the getHit exit edge. |
| BrainSetup.RegisterSingle | Player/Brain.cs:182 | A state's first and only edge is registered. |
| BrainSetup.RegisterGroundedLocomotion | Player/Brain.cs:103-117 | The seven locomotion edges are registered in source order. |
| BrainSetup.RegisterDodging | Player/Brain.cs:121-125 | The two dodge edges are registered in source order. |
| BrainSetup.RegisterFalling | Player/Brain.cs:128-129 | The two falling edges are registered in source order. |
| BrainSetup.RegisterSliding | Player/Brain.cs:132-133 | The two sliding edges are registered in source order. |
| BrainSetup.RegisterWeaponMenu | Player/Brain.cs:138-141 | The two weapon-menu edges are registered in source order. |
| BrainSetup.RegisterLightAttack | Player/Brain.cs:152-158 | The three light-attack edges are registered in source order. |
| BrainSetup.RegisterHeavyAttack | Player/Brain.cs:161-167 | The three heavy-attack edges are registered in source order. |
| PlayerBrain.Brain.constructor | Player/Brain.cs:60 | The machine is set up and weaponEquip has been entered. |
| PlayerBrain.Brain.SetupStateMachine | Player/Brain.cs:63-177 | The fresh machine holds exactly the table. The debug observer is attached iff there is a debug text. The initial state weaponEquip is current and entered once. |
| PlayerBrain.Brain.DiscardStateMachine | Player/Brain.cs:94-99 | The brain is terminated. The debug observer is detached when there is a debug text. |
| PlayerBrain.Brain.Update | Player/Brain.cs:207-212 | Once terminated, nothing changes. Otherwise the machine takes the table's step and ticks the resulting state; it terminates exactly when that state is die. The debug observer stays as it was, except that the tick that enters die detaches it when there is a debug text. |
| PlayerBrain.Brain.FixedUpdate | Player/Brain.cs:213-217 | The same guard as Update, then a fixed tick, with the same rule for the debug observer. |
| PlayerBrain.Brain.DiscardIfDead | Player/Brain.cs:91-99 | After a tick, the die state's teardown runs exactly when the current state is die. The observer is then detached if there is a debug text, and otherwise left as it was. |
| Blackboard.RemoveLast | Player/States/AttackUltimateState.cs:146-149 | `-=` leaves a list without the handler unchanged, shortens a list containing it by one, and adds nothing. |
| Blackboard.RemoveLastAt | Player/States/AttackUltimateState.cs:146-149 | `-=` removes the last occurrence of the handler. |
| Blackboard.RemoveLastAfterAppend | Player/States/AttackUltimateState.cs:63-64 | `+=` and then `-=` of the same handler restore the list, whatever other handlers were added in between. |
| Blackboard.RemoveLastMultiset | Player/States/AttackUltimateState.cs:146-149 | `-=` takes out one copy of the handler and nothing else. |
| Animation.SelectedIsUnique | Player/Animation/EventForward.cs:33-38 | At most one clip entry is the argmax: positive, maximal, and strictly heavier than all earlier entries. |
| Animation.SelectionExists | Player/Animation/EventForward.cs:29-41 | An entry is selected exactly when some weight is positive. |
| Animation.HeaviestFirst | Player/Animation/EventForward.cs:33-38 | Every non-empty list has an earliest entry of maximal weight. |
| Animation.Heaviest | Player/Animation/EventForward.cs:33-38 | With a positive weight present, an entry is selected. |
| Animation.EventForward.IsCurrentPerformedAnimation | Player/Animation/EventForward.cs:27-42 | True exactly when the argmax entry (ties go to the earliest) exists and its clip is the argument. False when no weight is positive. |
| Animation.EventForward.DodgeEnd | Player/Animation/EventForward.cs:45-49 | Raises DodgeEnded only if the event's clip is the performed one. It writes no other field. |
| Animation.EventForward.GetHitEnd | Player/Animation/EventForward.cs:55-59 | Raises GetHitEnded only if the event's clip is the performed one. It writes no other field. |
| Animation.EventForward.LandEnd | Player/Animation/EventForward.cs:50 | Sets LandEnded and writes nothing else. |
| Animation.EventForward.UnEquipEnd | Player/Animation/EventForward.cs:51 | Sets UnEquipEnded and writes nothing else. |
| Animation.EventForward.EquipEnd | Player/Animation/EventForward.cs:52 | Sets EquipEnded and writes nothing else. |
| Animation.EventForward.ExecutionEnd | Player/Animation/EventForward.cs:53 | Sets ExecutionEnded and writes nothing else. |
| Animation.EventForward.AttackEnd | Player/Animation/EventForward.cs:54 | Sets AttackEnded and writes nothing else. |
| Animation.EventForward.SpawnParticle | Player/Animation/EventForward.cs:62 | The ultimate state ends up as `Dispatch` of the SpawnParticles list: each subscribed delegate runs once, in subscription order, and only effects and colliders change. ParticleEventWhileActive and NoCallbackAfterExit say what that means while the state is active and after it has exited. |
| Animation.EventForward.EnableHitDetection | Player/Animation/EventForward.cs:63 | The ultimate state ends up as `Dispatch` of the EnableHitDetection list. HitWindowWhileActive says this switches on exactly the remembered sensor's collider. |
| Animation.EventForward.DisableHitDetection | Player/Animation/EventForward.cs:64 | The ultimate state ends up as `Dispatch` of the DisableHitDetection list. HitWindowWhileActive says this switches off exactly the remembered sensor's collider. |
| Animation.EventForward.OnWarpStart | Player/Animation/EventForward.cs:71 | InAnimationWarpFrames is true afterwards, whatever it was before, so the event is idempotent. |
| Animation.EventForward.OnWarpEnd | Player/Animation/EventForward.cs:72 | InAnimationWarpFrames is false afterwards, whatever it was before, so the event is idempotent. |
| Ultimate.EnterConsumesOnce | Player/States/AttackUltimateState.cs:46-51 | Entry charges the selected weapon's finisher stamina cost and ultimate cost, exactly once each, and remembers that weapon. |
| Ultimate.EnterStartsWarp | Player/States/AttackUltimateState.cs:48-64 | Entry does the following: the current finisher's clip is swapped in and the finisher plays; the body becomes kinematic; the warp is set toward the provided target from the player's position; the particle list gains exactly the spawn-particles handler and then the play-sound handler. |
| Ultimate.EnterWiresSensor | Player/States/AttackUltimateState.cs:86-100 | Without a hit sensor, nothing about sensors changes. With one, it is remembered and both hit-detection handlers are subscribed. A sensor init happens iff the sensor is a melee one, and then with the finisher's damage and ultimate gain. |
| Ultimate.ExitResets | Player/States/AttackUltimateState.cs:131-143 | Exit does the following: switches the remembered sensor's collider off even if the close-window event never fired; releases the body; clears the warp; advances the attack index exactly once; lowers ExecutionEnded. It charges nothing. |
| Ultimate.EnterThenExitRestores | Player/States/AttackUltimateState.cs:46-150 | Enter, any animation events, then exit: the three handler lists are back as before entry (for a sensor-less weapon, given the handlers were not subscribed). Body, warp and flag are reset, with one charge and one index advance in between. |
| Ultimate.ExitWithoutSensorThrows | Player/States/AttackUltimateState.cs:88-89 | A first entry with a weapon without a hit sensor leaves the body kinematic and the handlers subscribed, and the exit as written then aborts. |
| Ultimate.ExitAgreesWithSensor | Player/States/AttackUltimateState.cs:131-150 | Where a sensor is remembered, the corrected exit equals the exit as written. |
| Ultimate.Enter | Player/States/AttackUltimateState.cs:46-65 | Defined as the enter hook's steps in source order: remember the finisher, play, pay, start the warp, wire the sensor, subscribe the effects (no contract of its own; `EnterConsumesOnce`, `EnterStartsWarp`, `EnterWiresSensor` and `EnterSubscribesOnce` state what it does). |
| Ultimate.ExitAsWritten | Player/States/AttackUltimateState.cs:131-150 | The exit hook as the source writes it aborts exactly when no sensor was ever remembered; otherwise it switches the collider off, then resets and unsubscribes. |
| Ultimate.Exit | Player/States/AttackUltimateState.cs:131-150 | Defined as the exit with the collider switch guarded by a remembered sensor (no contract of its own; `ExitResets`, `ExitAgreesWithSensor` and `EnterThenExitRestores` state what it does). |
| Ultimate.Dispatch | Player/Animation/EventForward.cs:62-64 | Invoking an event runs its delegates on the ultimate state in subscription order. Only the state's effects and colliders change; its subscriptions and its remembered finisher and sensor do not. |
| Ultimate.RunHandler | Player/States/AttackUltimateState.cs:105-123 | One delegate changes only the effects and the colliders, and another subscriber's delegate changes nothing here. |
| Ultimate.DispatchAppend | Player/Animation/EventForward.cs:62-64 | The delegate subscribed last runs after all the others. |
| Ultimate.DispatchOthers | Player/Animation/EventForward.cs:62-64 | An event carrying none of the ultimate's delegates leaves the state alone. |
| Ultimate.EnterExitKeepHandlersRunnable | Player/States/AttackUltimateState.cs:46-150 | Entry and exit keep every subscribed ultimate delegate runnable. The finisher is remembered before the particle handlers are subscribed, and the sensor before the hit-detection handlers; exit only removes delegates. |
| Ultimate.EnterSubscribesOnce | Player/States/AttackUltimateState.cs:60-98 | After entry from an unsubscribed state, the particle and sound handlers are subscribed exactly once each. The two hit-detection handlers are subscribed exactly once if the weapon uses a hit sensor, and otherwise not at all. |
| Ultimate.ParticleEventWhileActive | Player/States/AttackUltimateState.cs:105-116 | While the state is active, the particle event spawns the current finisher's particles and then plays its spawn sound, once each, and changes nothing else. |
| Ultimate.HitWindowWhileActive | Player/States/AttackUltimateState.cs:117-123 | While the state is active, the hit-window events switch exactly the remembered sensor's collider on or off. Without a hit sensor they leave the state alone. |
| Ultimate.NoCallbackAfterExit | Player/States/AttackUltimateState.cs:145-149 | After entry and then exit from an unsubscribed state, nothing is subscribed, so none of the three events reaches the state. |
| Ultimate.AttackUltimateState.Run | Player/States/AttackUltimateState.cs:105-123 | Running one delegate does exactly what `RunHandler` says: a particle spawn, a sound, or the collider switched on or off. |
| Ultimate.AttackUltimateState.Invoke | Player/Animation/EventForward.cs:62-64 | Running an invocation list on the state leaves it at `Dispatch` of the list. |
| Ultimate.AttackUltimateState.constructor | Player/States/AttackUltimateState.cs:36-45 | Caches the blackboard. No weapon, finisher or sensor is remembered. |
| Ultimate.AttackUltimateState.OnEnter | Player/States/AttackUltimateState.cs:46-65 | The new shared state is `Enter` of the old one. |
| Ultimate.AttackUltimateState.PlayAnimation | Player/States/AttackUltimateState.cs:66-76 | Remembers the selected weapon, then logs the finisher clip replacement and the finisher animation. |
| Ultimate.AttackUltimateState.ConsumeAttributes | Player/States/AttackUltimateState.cs:77-85 | Logs one stamina decrease and one ultimate decrease of the remembered weapon's finisher costs. |
| Ultimate.AttackUltimateState.StartWarp | Player/States/AttackUltimateState.cs:54-58 | Sets the body kinematic and the warp conditions. |
| Ultimate.AttackUltimateState.SetupWeaponCollision | Player/States/AttackUltimateState.cs:86-100 | Does exactly `SetupWeaponCollisionStep`: sensor, melee init and subscriptions only with a hit sensor. |
| Ultimate.AttackUltimateState.SubscribeEffects | Player/States/AttackUltimateState.cs:63-64 | Subscribes SpawnParticles and then PlaySound. |
| Ultimate.AttackUltimateState.SpawnParticles | Player/States/AttackUltimateState.cs:105-113 | Spawns the finisher's particle system once. |
| Ultimate.AttackUltimateState.PlaySound | Player/States/AttackUltimateState.cs:114-116 | Plays the finisher's spawn sound once. |
| Ultimate.AttackUltimateState.EnableHitDetection | Player/States/AttackUltimateState.cs:118-120 | Switches on the collider of the remembered sensor and of no other sensor. |
| Ultimate.AttackUltimateState.DisableHitDetection | Player/States/AttackUltimateState.cs:121-123 | Switches off the collider of the remembered sensor and of no other sensor. |
| Ultimate.AttackUltimateState.Tick | Player/States/AttackUltimateState.cs:127 | Changes nothing. |
| Ultimate.AttackUltimateState.FixedTick | Player/States/AttackUltimateState.cs:129 | Changes nothing. |
| Ultimate.AttackUltimateState.OnExit | Player/States/AttackUltimateState.cs:131-150 | The new shared state is the corrected `Exit` of the old one. |
| Ultimate.AttackUltimateState.Release | Player/States/AttackUltimateState.cs:136-143 | Releases the body, clears the warp, advances the attack index and lowers ExecutionEnded. |
| Ultimate.AttackUltimateState.Unsubscribe | Player/States/AttackUltimateState.cs:146-149 | Removes SpawnParticles, EnableHitDetection, DisableHitDetection and PlaySound, in that order, each as its last occurrence. |

## Left out

- **The `Extensions.FSM` engine.** It is not part of this model. Its step rule is an assumption, stated as the contract of `Fsm.StateMachine`:
  - any-state edges come first, then the current state's edges, in registration order; the first match wins;
  - exit runs before enter, and a self-edge re-enters. Any-state edges count too: while the damage flag is up and the character is alive, getHit takes its own any-edge on every tick, exiting and re-entering, and its `GetHitEnded` edge cannot fire (`TableProperties.GetHitRepeatsWhileDamaged`). Whether `HasTakenDamage` is cleared is not visible;
  - the fixed tick evaluates transitions like the frame tick.
- **HasEnough.** The attribute classes are not part of this model. `HasEnough(cost)` is read as "the cost does not exceed the current pool".
- **DieState.** It is not part of this model. The brain assumes the teardown delegate it hands to DieState runs when die is entered, so `Brain.Update` discards the machine in the tick that enters die.
- **IdleTransitionState and the other state classes.** They are not part of this model. Their `IsTransitionTimeOver` answer is a snapshot field.
- **`References`.** It is not part of this model. It appears only as the fields the core reads and writes.
- Blackboard.References.constructor: the starting values are assumed to be C# defaults: every flag false and every event with no delegates. The class's own code is not part of this model.
- **The holster and weapon triggers.** The `GrabHolster`, `ReleaseHolster`, `GrabWeapon` and `ReleaseWeapon` forwarders (Player/Animation/EventForward.cs:65-68) are not modelled. They only invoke events, and no modelled code subscribes to those events.
- Animation.EventForward.SpawnParticle, Animation.EventForward.EnableHitDetection, Animation.EventForward.DisableHitDetection: require every subscribed ultimate delegate to be runnable, because otherwise the source would dereference null. `Ultimate.EnterExitKeepHandlersRunnable` shows that entry and exit keep this true.
- **Other subscribers.** Delegates that other classes subscribe to the three trigger events are not part of this model; only the ultimate state's delegates run.
- **Empty invocation lists.** Invoking one is assumed to do nothing. Whether the delegates are initialised to a no-op, rather than being null and throwing, is not visible.
- **Animator queries.** `GetCurrentAnimatorClipInfo(0)` is passed in as a parameter. The event's clip is passed in the same way.
- Root motion forwarding (`OnAnimatorMove`) is left out: it is vector geometry passed straight through.
- **Particle and sound effects.** Particle instantiation, its placement and rotation, and `PlayOneShot` are recorded as effects only.
- **The animator call.** The duration and layer arguments of `ChangeAnimationState` are not modelled.
- **Collaborator internals.** This covers the mover, the warping controller, the target provider, the attributes and the hit sensor.
  - Their calls are recorded: attribute decreases as logs, because whether `Decrease` clamps is not visible; the attack index as a count of increases; the warp conditions and each sensor's collider state as values.
  - The transform the provider gives is an input. So is the player's position.
- **Debug and UI code.** The debug text is not modelled beyond whether its observer is attached. The FPS string is not modelled.
- **Other files.** The following are UI, configuration, behaviour-graph glue, audio I/O or asset data: `Game/FpsManager.cs`, `Effects/Audio/PlayAudio.cs`, `Behavior/Actions/Transform/SetLocationAroundTargetRelativeToSelfAction.cs` and `Player/Weapon/WeaponSO.cs`. Only the weapon's cost and damage fields are used.
- **Floats.** Single-precision floats are modelled as `real`. Only comparisons, and costs passed through unchanged, matter here.
- Ultimate.Enter: requires a warp-target provider (`warpTarget.Some?`), because entry dereferences the provider without a check. The only edge into the state requires `IsWarpPossible`, which implies a provider (see `TableProperties.UltimateEntryGate`).
- Ultimate.AttackUltimateState.OnExit: follows the corrected exit. The exit as written is modelled by `Ultimate.ExitAsWritten` (see Findings).

## Findings

| source | as written | input that shows it | evidently intended | confidence | as-written member | corrected member |
|---|---|---|---|---|---|---|
| Player/States/AttackUltimateState.cs:88-89, 119-122, 131-133 | `OnExit` first calls `DisableHitDetection`, which dereferences `_weaponHitSensor`. That field is assigned only when the weapon `usesHitSensor`. | The first entry into the ultimate with a weapon whose `usesHitSensor` is false. The following exit throws before releasing the body, clearing the warp, advancing the attack index, resetting `ExecutionEnded` and unsubscribing the handlers. | Switch the collider off only when a sensor is remembered. Then enter followed by exit restores the handler lists and resets the rest. | not executed | Ultimate.ExitWithoutSensorThrows | Ultimate.EnterThenExitRestores |
