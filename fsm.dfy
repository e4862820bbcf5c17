/** The state-machine engine the brain drives (Extensions.FSM.StateMachine).

    Its source is not part of this model, so its behaviour is an assumption, written down as
    the contracts of this class: transitions are kept per source state in registration order,
    any-state transitions in one list; `Tick` and `FixedTick` evaluate the any-state list first,
    then the current state's list (`NextState`), switch on the first enabled edge by running
    the old state's exit hook and then the new state's enter hook (a self-edge re-enters), and
    finally run the (possibly new) current state's tick hook.

    The hooks themselves belong to the state classes; the machine records which hook ran on
    which state, in order, in `hooks`. */
module Fsm {
  import opened Wrappers
  import opened Transitions

  /** One call of a state's lifecycle hook. */
  datatype Hook = Entered(state: StateId) | Exited(state: StateId) | Ticked(state: StateId) | FixedTicked(state: StateId)

  /** The state most recently entered, if any. */
  function LastEntered(hooks: seq<Hook>): (r: Option<StateId>)
  {
    if hooks == [] then None
    else if hooks[|hooks| - 1].Entered? then Some(hooks[|hooks| - 1].state)
    else LastEntered(hooks[..|hooks| - 1])
  }

  /** Enter/exit pairing: every enter hook but the first directly follows an exit hook, and
      every exit hook but a final one is directly followed by an enter hook, so enters and exits
      strictly alternate and nothing runs between an exit and the next enter; and every exit or
      tick hook goes to the state entered last, so no state is ticked or exited without a prior
      enter. */
  ghost predicate HooksPaired(hooks: seq<Hook>)
  {
    && (forall i :: 0 < i < |hooks| ==> (hooks[i].Entered? <==> hooks[i - 1].Exited?))
    && (forall i :: 0 <= i < |hooks| && !hooks[i].Entered? ==> LastEntered(hooks[..i]) == Some(hooks[i].state))
  }

  /** The pairing rules out a second exit without an enter in between, and a tick between an
      exit and the next enter. */
  lemma PairingIsStrict(a: StateId, b: StateId)
    ensures !HooksPaired([Entered(a), Exited(a), Exited(a)])
    ensures !HooksPaired([Entered(a), Exited(a), Ticked(a), Entered(b)])
  {
    assert [Entered(a), Exited(a), Exited(a)][2].Exited?;
    assert [Entered(a), Exited(a), Ticked(a), Entered(b)][2].Ticked?;
  }

  /** The hooks a switch runs: exit on the old state, then enter on the new one. */
  function SwitchHooks(from: StateId, next: Option<StateId>): (r: seq<Hook>)
  {
    match next
    case None => []
    case Some(to) => [Exited(from), Entered(to)]
  }

  /** The state that is current after an evaluation asking for `next`. */
  function Advance(from: StateId, next: Option<StateId>): (r: StateId)
  {
    match next
    case None => from
    case Some(to) => to
  }

  lemma LastEnteredAppend(hooks: seq<Hook>, k: Hook)
    ensures LastEntered(hooks + [k]) == if k.Entered? then Some(k.state) else LastEntered(hooks)
  {
    assert (hooks + [k])[..|hooks|] == hooks;
  }

  /** Appending a hook that respects the pairing rules keeps the whole log paired. */
  lemma {:induction false} AppendKeepsPaired(hooks: seq<Hook>, k: Hook)
    requires HooksPaired(hooks)
    requires k.Entered? ==> hooks == [] || hooks[|hooks| - 1].Exited?
    requires !k.Entered? ==> LastEntered(hooks) == Some(k.state)
    requires hooks != [] && hooks[|hooks| - 1].Exited? ==> k.Entered?
    ensures HooksPaired(hooks + [k])
  {
    var h := hooks + [k];
    forall i | 0 <= i < |h| && !h[i].Entered?
      ensures LastEntered(h[..i]) == Some(h[i].state)
    {
      if i < |hooks| {
        assert h[..i] == hooks[..i];
      } else {
        assert h[..i] == hooks;
      }
    }
  }

  /** A paired log that has entered no state is empty: its first hook would have to be an enter. */
  lemma PairedWithoutEntryIsEmpty(hooks: seq<Hook>)
    requires HooksPaired(hooks)
    ensures LastEntered(hooks) == None ==> hooks == []
  {
    if hooks != [] {
      assert hooks[..0] == [];
      LastEnteredHasEntry(hooks, 0);
    }
  }

  lemma {:induction false} LastEnteredHasEntry(hooks: seq<Hook>, i: int)
    requires 0 <= i < |hooks| && hooks[i].Entered?
    ensures LastEntered(hooks).Some?
    decreases |hooks|
  {
    if i < |hooks| - 1 && !hooks[|hooks| - 1].Entered? {
      LastEnteredHasEntry(hooks[..|hooks| - 1], i);
    }
  }

  class StateMachine {
    var current: Option<StateId>
    var transitions: map<StateId, seq<Transition>>
    var anyTransitions: seq<Transition>
    var hooks: seq<Hook>
    /** Whether the brain's debug-text observer is subscribed to state changes. */
    var debugObserverAttached: bool

    ghost predicate Valid()
      reads this`hooks, this`current
    {
      && HooksPaired(hooks)
      && LastEntered(hooks) == current
      && (hooks == [] || !hooks[|hooks| - 1].Exited?)
    }

    /** The edges registered from `st`, in registration order. */
    function TransitionsOf(st: StateId): (r: seq<Transition>)
      reads this`transitions
    {
      if st in transitions then transitions[st] else []
    }

    constructor ()
      ensures Valid() && current == None && hooks == []
      ensures transitions == map[] && anyTransitions == [] && !debugObserverAttached
    {
      current := None;
      transitions := map[];
      anyTransitions := [];
      hooks := [];
      debugObserverAttached := false;
    }

    /** Registers an edge after those already registered from `from`; duplicates are allowed. */
    method AddTransition(from: StateId, to: StateId, condition: Snapshot -> bool)
      modifies this`transitions
      ensures transitions == old(transitions)[from := old(TransitionsOf(from)) + [Transition(to, condition)]]
    {
      transitions := transitions[from := TransitionsOf(from) + [Transition(to, condition)]];
    }

    /** Registers an any-state edge after those already registered. */
    method AddAnyTransition(to: StateId, condition: Snapshot -> bool)
      modifies this`anyTransitions
      ensures anyTransitions == old(anyTransitions) + [Transition(to, condition)]
    {
      anyTransitions := anyTransitions + [Transition(to, condition)];
    }

    method AttachDebugObserver()
      modifies this`debugObserverAttached
      ensures debugObserverAttached
    {
      debugObserverAttached := true;
    }

    method DetachDebugObserver()
      modifies this`debugObserverAttached
      ensures !debugObserverAttached
    {
      debugObserverAttached := false;
    }

    /** Sets the first state and runs its enter hook; called once, before any tick. */
    method SetInitialState(st: StateId)
      requires Valid() && current.None?
      modifies this`current, this`hooks
      ensures Valid()
      ensures current == Some(st) && hooks == old(hooks) + [Entered(st)]
    {
      PairedWithoutEntryIsEmpty(hooks);
      AppendKeepsPaired(hooks, Entered(st));
      LastEnteredAppend(hooks, Entered(st));
      hooks := hooks + [Entered(st)];
      current := Some(st);
    }

    /** Evaluates the any-state edges, then the current state's, and switches on the first
        enabled one. */
    method Evaluate(s: Snapshot)
      requires Valid() && current.Some?
      modifies this`current, this`hooks
      ensures Valid()
      ensures var next := NextState(anyTransitions, TransitionsOf(old(current).value), s);
              && current == Some(Advance(old(current).value, next))
              && hooks == old(hooks) + SwitchHooks(old(current).value, next)
    {
      var from := current.value;
      var next := NextState(anyTransitions, TransitionsOf(from), s);
      if next.Some? {
        var to := next.value;
        AppendKeepsPaired(hooks, Exited(from));
        LastEnteredAppend(hooks, Exited(from));
        hooks := hooks + [Exited(from)];
        AppendKeepsPaired(hooks, Entered(to));
        LastEnteredAppend(hooks, Entered(to));
        hooks := hooks + [Entered(to)];
        current := Some(to);
      }
    }

    /** The per-frame tick: evaluate, switch, then tick the current state. */
    method Tick(s: Snapshot)
      requires Valid() && current.Some?
      modifies this`current, this`hooks
      ensures Valid()
      ensures var next := NextState(anyTransitions, TransitionsOf(old(current).value), s);
              && current == Some(Advance(old(current).value, next))
              && hooks == old(hooks) + SwitchHooks(old(current).value, next) + [Ticked(current.value)]
    {
      Evaluate(s);
      AppendKeepsPaired(hooks, Ticked(current.value));
      LastEnteredAppend(hooks, Ticked(current.value));
      hooks := hooks + [Ticked(current.value)];
    }

    /** The physics-step tick: evaluate, switch, then fixed-tick the current state. */
    method FixedTick(s: Snapshot)
      requires Valid() && current.Some?
      modifies this`current, this`hooks
      ensures Valid()
      ensures var next := NextState(anyTransitions, TransitionsOf(old(current).value), s);
              && current == Some(Advance(old(current).value, next))
              && hooks == old(hooks) + SwitchHooks(old(current).value, next) + [FixedTicked(current.value)]
    {
      Evaluate(s);
      AppendKeepsPaired(hooks, FixedTicked(current.value));
      LastEnteredAppend(hooks, FixedTicked(current.value));
      hooks := hooks + [FixedTicked(current.value)];
    }
  }
}
