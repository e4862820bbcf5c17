/** Weapon data read by the player's state machine: the cost and damage fields of a
    weapon asset, and the finisher animation that the weapon manager hands out. */
module Weapon {

  /** Cost and damage of one attack: `attributeData` in the weapon asset. */
  datatype AttributeData = AttributeData(stamina: real, ultimate: real, damage: real)

  datatype AttackData = AttackData(attributeData: AttributeData)

  /** The finisher (ultimate) data of a weapon. */
  datatype WarpData = WarpData(attributeData: AttributeData)

  /** A weapon asset, reduced to the fields the controller reads. */
  datatype WeaponData = WeaponData(lightAttack: AttackData, heavyAttack: AttackData, finisherData: WarpData)

  /** Animation clips, particle systems, sounds and transforms are engine objects; they are
      modelled by identity only. */
  type ClipId = nat
  type TransformId = nat

  datatype Position = Position(x: real, y: real, z: real)

  /** The visual and audio effect played by a finisher. */
  datatype EffectInstance = EffectInstance(particleSystem: nat, spawnSound: nat)

  /** What `GetCurrentFinisher()` returns: the warp animation clip and its effect. */
  datatype WarpAnimation = WarpAnimation(clip: ClipId, effectInstance: EffectInstance)
}
