/** The bridge from animation events to the blackboard (Player/Animation/EventForward.cs).

    The animator's answer to "which clips play on layer 0, with which blend weights" is a
    parameter (`clipInfos`), as is the clip an event was fired from. Root motion forwarding is
    not part of this model. */
module Animation {
  import opened Wrappers
  import opened Weapon
  import opened Blackboard
  import opened Ultimate

  /** One entry of the animator's current clip info on layer 0. */
  datatype ClipInfo = ClipInfo(clip: ClipId, weight: real)

  /** Entry `k` is the one the argmax picks: its weight is positive, no entry outweighs it, and
      every earlier entry weighs strictly less (ties go to the earliest entry). */
  ghost predicate IsSelected(infos: seq<ClipInfo>, k: int)
  {
    && 0 <= k < |infos|
    && infos[k].weight > 0.0
    && (forall j :: 0 <= j < |infos| ==> infos[j].weight <= infos[k].weight)
    && (forall j :: 0 <= j < k ==> infos[j].weight < infos[k].weight)
  }

  /** `clip` is the current performed animation: it is the clip of the selected entry. */
  ghost predicate IsPerformed(infos: seq<ClipInfo>, clip: ClipId)
  {
    exists k :: IsSelected(infos, k) && infos[k].clip == clip
  }

  /** At most one entry is selected. */
  lemma SelectedIsUnique(infos: seq<ClipInfo>, k1: int, k2: int)
    requires IsSelected(infos, k1) && IsSelected(infos, k2)
    ensures k1 == k2
  {
  }

  /** An entry is selected exactly when some weight is positive. */
  lemma {:induction false} SelectionExists(infos: seq<ClipInfo>)
    ensures (exists k :: IsSelected(infos, k)) <==> exists j :: 0 <= j < |infos| && infos[j].weight > 0.0
    decreases |infos|
  {
    if exists j :: 0 <= j < |infos| && infos[j].weight > 0.0 {
      var j :| 0 <= j < |infos| && infos[j].weight > 0.0;
      var k := Heaviest(infos);
      assert IsSelected(infos, k);
    }
  }

  /** The earliest entry of the largest weight. */
  lemma {:induction false} HeaviestFirst(infos: seq<ClipInfo>) returns (k: int)
    requires |infos| > 0
    ensures 0 <= k < |infos|
    ensures forall j :: 0 <= j < |infos| ==> infos[j].weight <= infos[k].weight
    ensures forall j :: 0 <= j < k ==> infos[j].weight < infos[k].weight
    decreases |infos|
  {
    if |infos| == 1 {
      k := 0;
    } else {
      var init := infos[..|infos| - 1];
      var m := HeaviestFirst(init);
      assert forall j :: 0 <= j < |init| ==> init[j] == infos[j];
      if infos[|infos| - 1].weight > infos[m].weight {
        k := |infos| - 1;
      } else {
        k := m;
      }
    }
  }

  lemma Heaviest(infos: seq<ClipInfo>) returns (k: int)
    requires exists j :: 0 <= j < |infos| && infos[j].weight > 0.0
    ensures IsSelected(infos, k)
  {
    var j :| 0 <= j < |infos| && infos[j].weight > 0.0;
    k := HeaviestFirst(infos);
    assert infos[j].weight <= infos[k].weight;
  }

  class EventForward {
    const references: References

    constructor (references: References)
      ensures this.references == references
    {
      this.references := references;
    }

    /** Scans the layer-0 clip infos once, keeping the first entry of strictly greater weight
        than any before it (starting from weight 0), and answers whether `currentClip` is the
        clip it kept. */
    static method IsCurrentPerformedAnimation(clipInfos: seq<ClipInfo>, currentClip: ClipId) returns (r: bool)
      ensures r <==> IsPerformed(clipInfos, currentClip)
      ensures (forall j :: 0 <= j < |clipInfos| ==> clipInfos[j].weight <= 0.0) ==> !r
    {
      var highestWeight := 0.0;
      var highestWeightClip: Option<ClipId> := None;
      ghost var kept := -1;
      for i := 0 to |clipInfos|
        invariant -1 <= kept < i
        invariant kept == -1 ==> highestWeightClip == None && highestWeight == 0.0
        invariant kept == -1 ==> forall j :: 0 <= j < i ==> clipInfos[j].weight <= 0.0
        invariant kept != -1 ==> IsSelected(clipInfos[..i], kept)
        invariant kept != -1 ==> highestWeightClip == Some(clipInfos[kept].clip)
        invariant kept != -1 ==> highestWeight == clipInfos[kept].weight
      {
        if clipInfos[i].weight > highestWeight {
          highestWeight := clipInfos[i].weight;
          highestWeightClip := Some(clipInfos[i].clip);
          kept := i;
        }
      }
      assert clipInfos[..|clipInfos|] == clipInfos;
      r := highestWeightClip.Some? && currentClip == highestWeightClip.value;
      if kept == -1 {
        assert forall k :: !IsSelected(clipInfos, k);
      } else {
        forall k | IsSelected(clipInfos, k)
          ensures k == kept
        {
          SelectedIsUnique(clipInfos, k, kept);
        }
      }
    }

    /** Dodge animation end: raises the flag only if the event's clip is the one performed. */
    method DodgeEnd(clipInfos: seq<ClipInfo>, eventClip: ClipId)
      modifies references`dodgeEnded
      ensures references.dodgeEnded == (old(references.dodgeEnded) || IsPerformed(clipInfos, eventClip))
    {
      var performed := IsCurrentPerformedAnimation(clipInfos, eventClip);
      if performed {
        references.dodgeEnded := true;
      }
    }

    method LandEnd()
      modifies references`landEnded
      ensures references.landEnded
    {
      references.landEnded := true;
    }

    method UnEquipEnd()
      modifies references`unEquipEnded
      ensures references.unEquipEnded
    {
      references.unEquipEnded := true;
    }

    method EquipEnd()
      modifies references`equipEnded
      ensures references.equipEnded
    {
      references.equipEnded := true;
    }

    method ExecutionEnd()
      modifies references`executionEnded
      ensures references.executionEnded
    {
      references.executionEnded := true;
    }

    method AttackEnd()
      modifies references`attackEnded
      ensures references.attackEnded
    {
      references.attackEnded := true;
    }

    /** Get-hit animation end: raises the flag only if the event's clip is the one performed. */
    method GetHitEnd(clipInfos: seq<ClipInfo>, eventClip: ClipId)
      modifies references`getHitEnded
      ensures references.getHitEnded == (old(references.getHitEnded) || IsPerformed(clipInfos, eventClip))
    {
      var performed := IsCurrentPerformedAnimation(clipInfos, eventClip);
      if performed {
        references.getHitEnded := true;
      }
    }

    // The trigger forwarders invoke the event's current invocation list. The delegates the
    // ultimate attack state subscribes are bound to that state object, which is therefore
    // passed in; the delegates of other subscribers are outside this model.

    /** Particle trigger: runs the delegates subscribed to SpawnParticles, in order. */
    method SpawnParticle(ultimate: AttackUltimateState)
      requires ultimate.references == references
      requires CanRunAll(ultimate.View(), references.spawnParticles)
      modifies ultimate`effects, ultimate`colliderEnabled
      ensures ultimate.View() == Dispatch(old(ultimate.View()), references.spawnParticles)
    {
      ultimate.Invoke(references.spawnParticles);
    }

    /** Hit-window open trigger: runs the delegates subscribed to EnableHitDetection. */
    method EnableHitDetection(ultimate: AttackUltimateState)
      requires ultimate.references == references
      requires CanRunAll(ultimate.View(), references.enableHitDetection)
      modifies ultimate`effects, ultimate`colliderEnabled
      ensures ultimate.View() == Dispatch(old(ultimate.View()), references.enableHitDetection)
    {
      ultimate.Invoke(references.enableHitDetection);
    }

    /** Hit-window close trigger: runs the delegates subscribed to DisableHitDetection. */
    method DisableHitDetection(ultimate: AttackUltimateState)
      requires ultimate.references == references
      requires CanRunAll(ultimate.View(), references.disableHitDetection)
      modifies ultimate`effects, ultimate`colliderEnabled
      ensures ultimate.View() == Dispatch(old(ultimate.View()), references.disableHitDetection)
    {
      ultimate.Invoke(references.disableHitDetection);
    }

    method OnWarpStart()
      modifies references`inAnimationWarpFrames
      ensures references.inAnimationWarpFrames
    {
      references.inAnimationWarpFrames := true;
    }

    method OnWarpEnd()
      modifies references`inAnimationWarpFrames
      ensures !references.inAnimationWarpFrames
    {
      references.inAnimationWarpFrames := false;
    }
  }
}
