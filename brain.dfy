/** The player's brain (Player/Brain.cs): it builds the state machine once, forwards the
    per-frame and per-physics-step ticks into it, and stops ticking for good once the die
    state's teardown has discarded the machine.

    `terminated` stands for `_stateMachine == null`. The die state's code is not part of this
    model; it receives DiscardStateMachine as its teardown delegate, and this model assumes the
    delegate runs when the die state is entered, so the tick that enters Die discards the
    machine. */
module PlayerBrain {
  import opened Wrappers
  import opened Transitions
  import opened Fsm
  import opened BrainSetup

  class Brain {
    var machine: StateMachine
    /** The machine reference has been set to null by the teardown. */
    var terminated: bool
    /** Whether a debug text field is configured (`debugText != null`). */
    const hasDebugText: bool

    /** The machine holds exactly the brain's table, has a current state, and the brain has
        stopped exactly when the machine reached Die. */
    ghost predicate Valid()
      reads this, machine
    {
      && machine.Valid()
      && machine.current.Some?
      && machine.anyTransitions == AnyTransitions()
      && (forall st :: machine.TransitionsOf(st) == TransitionsFrom(st))
      && (terminated <==> machine.current == Some(Die))
    }

    /** Start: the collaborators are wired (not modelled) and the machine is set up. */
    constructor (hasDebugText: bool)
      ensures Valid() && !terminated && this.hasDebugText == hasDebugText
      ensures machine.current == Some(InitialState) && machine.hooks == [Entered(InitialState)]
      ensures machine.debugObserverAttached == hasDebugText
    {
      this.hasDebugText := hasDebugText;
      machine := new StateMachine();
      terminated := false;
      new;
      SetupStateMachine();
    }

    /** Registers the table edge by edge, in the order Player/Brain.cs does, then subscribes the
        debug observer if there is a debug text and enters weaponEquip. */
    method SetupStateMachine()
      modifies this
      ensures fresh(machine) && Valid() && !terminated
      ensures machine.current == Some(InitialState) && machine.hooks == [Entered(InitialState)]
      ensures machine.debugObserverAttached == hasDebugText
    {
      var m := new StateMachine();
      RegisterTable(m);
      if hasDebugText {
        m.AttachDebugObserver();
      }
      m.SetInitialState(InitialState);
      machine := m;
      terminated := false;
    }

    /** The die state's teardown: unsubscribes the debug observer (when there is a debug text)
        and drops the machine. With a debug text, a second call would dereference the dropped
        machine; without one it would only drop it again. Only the first call is modelled. */
    method DiscardStateMachine()
      requires !terminated
      modifies this`terminated, machine`debugObserverAttached
      ensures terminated
      ensures machine.debugObserverAttached == (old(machine.debugObserverAttached) && !hasDebugText)
    {
      if hasDebugText {
        machine.DetachDebugObserver();
      }
      terminated := true;
    }

    /** After a tick: the die state's teardown runs exactly when the tick entered Die. */
    method DiscardIfDead()
      requires !terminated
      modifies this`terminated, machine`debugObserverAttached
      ensures terminated == (machine.current == Some(Die))
      ensures machine.debugObserverAttached == (old(machine.debugObserverAttached) && !(terminated && hasDebugText))
    {
      if machine.current == Some(Die) {
        DiscardStateMachine();
      }
    }

    /** Per frame: nothing at all once the machine is gone; otherwise one machine tick, which
        takes the step the table prescribes and ticks the resulting state. */
    method Update(s: Snapshot)
      requires Valid()
      modifies this`terminated, machine
      ensures Valid()
      ensures old(terminated) ==> terminated && unchanged(machine)
      ensures !old(terminated) ==>
                var from := old(machine.current).value;
                && machine.current == Some(Successor(from, s))
                && machine.hooks == old(machine.hooks) + SwitchHooks(from, BrainNext(from, s)) + [Ticked(Successor(from, s))]
      ensures machine.debugObserverAttached
              == (old(machine.debugObserverAttached) && !(terminated && !old(terminated) && hasDebugText))
    {
      if terminated {
        return;
      }
      machine.Tick(s);
      DiscardIfDead();
    }

    /** Per physics step: the same guard, then one fixed tick. */
    method FixedUpdate(s: Snapshot)
      requires Valid()
      modifies this`terminated, machine
      ensures Valid()
      ensures old(terminated) ==> terminated && unchanged(machine)
      ensures !old(terminated) ==>
                var from := old(machine.current).value;
                && machine.current == Some(Successor(from, s))
                && machine.hooks == old(machine.hooks) + SwitchHooks(from, BrainNext(from, s)) + [FixedTicked(Successor(from, s))]
      ensures machine.debugObserverAttached
              == (old(machine.debugObserverAttached) && !(terminated && !old(terminated) && hasDebugText))
    {
      if terminated {
        return;
      }
      machine.FixedTick(s);
      DiscardIfDead();
    }
  }
}
