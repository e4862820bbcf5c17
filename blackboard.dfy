/** The player's shared blackboard (`References`), reduced to what the modelled core reads and
    writes: the animation "segment ended" flags, the warp-frames flag and the multicast events
    that animation triggers are forwarded to. The class's own source is not part of this model;
    its fields are plain fields here.

    A C# event is an invocation list of delegates. `+=` appends a delegate; `-=` removes the
    last occurrence of it and leaves the list alone when it is absent (`RemoveLast`). A delegate
    is identified here by a `Handler` id. */
module Blackboard {

  /** The delegates AttackUltimateState subscribes, and any other subscriber by number. */
  datatype Handler =
    | UltimateSpawnParticles
    | UltimatePlaySound
    | UltimateEnableHitDetection
    | UltimateDisableHitDetection
    | OtherHandler(id: nat)

  /** `list - h` on an invocation list: drop the last occurrence of `h`, if any. */
  function RemoveLast(list: seq<Handler>, h: Handler): (r: seq<Handler>)
    ensures h !in list ==> r == list
    ensures |r| == if h in list then |list| - 1 else |list|
    ensures forall x :: x in r ==> x in list
    decreases |list|
  {
    if list == [] then []
    else if list[|list| - 1] == h then list[..|list| - 1]
    else
      assert list == list[..|list| - 1] + [list[|list| - 1]];
      RemoveLast(list[..|list| - 1], h) + [list[|list| - 1]]
  }

  /** The occurrence removed is the last one: if `h` sits at `i` and not after it, the result
      is the list without position `i`. */
  lemma {:induction false} RemoveLastAt(list: seq<Handler>, h: Handler, i: int)
    requires 0 <= i < |list| && list[i] == h && h !in list[i + 1..]
    ensures RemoveLast(list, h) == list[..i] + list[i + 1..]
    decreases |list|
  {
    var n := |list|;
    if i < n - 1 {
      var init := list[..n - 1];
      assert list[n - 1] in list[i + 1..];
      assert init[i + 1..] == list[i + 1..n - 1];
      RemoveLastAt(init, h, i);
      assert list[i + 1..] == init[i + 1..] + [list[n - 1]];
      assert init[..i] == list[..i];
    }
  }

  /** `+=` then `-=` of the same delegate gives the list back, whatever was subscribed in
      between as long as `h` itself was not subscribed again. */
  lemma RemoveLastAfterAppend(list: seq<Handler>, h: Handler, later: seq<Handler>)
    requires h !in later
    ensures RemoveLast(list + [h] + later, h) == list + later
  {
    var all := list + [h] + later;
    assert all[|list| + 1..] == later;
    RemoveLastAt(all, h, |list|);
    assert all[..|list|] == list;
  }

  /** Removal takes out one copy of `h` and nothing else. */
  lemma {:induction false} RemoveLastMultiset(list: seq<Handler>, h: Handler)
    ensures multiset(RemoveLast(list, h)) == multiset(list) - multiset{h}
    decreases |list|
  {
    if list != [] {
      var init := list[..|list| - 1];
      assert list == init + [list[|list| - 1]];
      if list[|list| - 1] != h {
        RemoveLastMultiset(init, h);
      }
    }
  }

  class References {
    var dodgeEnded: bool
    var landEnded: bool
    var unEquipEnded: bool
    var equipEnded: bool
    var executionEnded: bool
    var attackEnded: bool
    var getHitEnded: bool
    /** Set between the warp-start and warp-end events of the finisher animation. */
    var inAnimationWarpFrames: bool

    var spawnParticles: seq<Handler>
    var enableHitDetection: seq<Handler>
    var disableHitDetection: seq<Handler>

    /** All flags down, nothing subscribed. */
    constructor ()
      ensures !dodgeEnded && !landEnded && !unEquipEnded && !equipEnded
      ensures !executionEnded && !attackEnded && !getHitEnded
      ensures !inAnimationWarpFrames
      ensures spawnParticles == enableHitDetection == disableHitDetection == []
    {
      dodgeEnded, landEnded, unEquipEnded, equipEnded := false, false, false, false;
      executionEnded, attackEnded, getHitEnded := false, false, false;
      inAnimationWarpFrames := false;
      spawnParticles, enableHitDetection, disableHitDetection := [], [], [];
    }
  }
}
