/**
 * The speed controller's effect on one entity's FLYING_SPEED attribute,
 * as functions of the attribute before the event: what setMountSpeed and
 * onDismount leave behind and which log records they emit.
 */
module SpeedController {
  import opened Wrappers
  import opened Uuids
  import opened Logging

  /** `ghastSpeeds.getOrDefault(id, globalSpeed)`: the speed a ridden ghast should have. */
  function TargetSpeed(overrides: map<Uuid, real>, global: real, id: Uuid): real {
    if id in overrides then overrides[id] else global
  }

  /**
   * Whether setMountSpeed writes the attribute: the mount is a Happy Ghast,
   * it has a FLYING_SPEED attribute, and the target differs from its value.
   */
  predicate MountWrites(isHappyGhast: bool, attribute: Option<real>, target: real) {
    isHappyGhast && attribute.Some? && attribute.value != target
  }

  /** The attribute after setMountSpeed. */
  function AfterMount(isHappyGhast: bool, attribute: Option<real>, target: real): Option<real> {
    if MountWrites(isHappyGhast, attribute, target) then Some(target) else attribute
  }

  /** The records setMountSpeed logs: one, with the old and new value, exactly when it writes. */
  function MountRecords(rider: string, mount: string, isHappyGhast: bool, attribute: Option<real>, target: real): seq<LogRecord> {
    if MountWrites(isHappyGhast, attribute, target) then [SpeedChanged(rider, mount, attribute.value, target)] else []
  }

  /** The attribute after onDismount: the default speed on any Happy Ghast that has the attribute. */
  function AfterDismount(isHappyGhast: bool, attribute: Option<real>, original: real): Option<real> {
    if isHappyGhast && attribute.Some? then Some(original) else attribute
  }

  /** The records onDismount logs: one on every Happy Ghast that has the attribute. */
  function DismountRecords(rider: string, mount: string, isHappyGhast: bool, attribute: Option<real>, original: real): seq<LogRecord> {
    if isHappyGhast && attribute.Some? then [SpeedRestored(rider, mount, original)] else []
  }

  /** After mounting, a Happy Ghast with the attribute flies at its override if it has one, else the global speed. */
  lemma MountAppliesTarget(overrides: map<Uuid, real>, global: real, id: Uuid, attribute: Option<real>)
    requires attribute.Some?
    ensures AfterMount(true, attribute, TargetSpeed(overrides, global, id))
         == Some(if id in overrides then overrides[id] else global)
  {
  }

  /** A mount that is not a Happy Ghast, or lacks the attribute, is neither written nor logged. */
  lemma MountIgnores(rider: string, mount: string, isHappyGhast: bool, attribute: Option<real>, target: real)
    requires !isHappyGhast || attribute.None?
    ensures AfterMount(isHappyGhast, attribute, target) == attribute
    ensures MountRecords(rider, mount, isHappyGhast, attribute, target) == []
  {
  }

  /** When the attribute already holds the target, setMountSpeed writes nothing and logs nothing. */
  lemma MountUnchangedIsNoOp(rider: string, mount: string, isHappyGhast: bool, target: real)
    ensures !MountWrites(isHappyGhast, Some(target), target)
    ensures AfterMount(isHappyGhast, Some(target), target) == Some(target)
    ensures MountRecords(rider, mount, isHappyGhast, Some(target), target) == []
  {
  }

  /** Applying setMountSpeed twice with the same target is the same as once, and the second call logs nothing. */
  lemma MountIdempotent(rider: string, mount: string, isHappyGhast: bool, attribute: Option<real>, target: real)
    ensures AfterMount(isHappyGhast, AfterMount(isHappyGhast, attribute, target), target)
         == AfterMount(isHappyGhast, attribute, target)
    ensures MountRecords(rider, mount, isHappyGhast, AfterMount(isHappyGhast, attribute, target), target) == []
  {
  }

  /** Dismounting restores the default whatever the prior value, and logs even when nothing changes. */
  lemma DismountRestores(rider: string, mount: string, attribute: Option<real>, original: real)
    requires attribute.Some?
    ensures AfterDismount(true, attribute, original) == Some(original)
    ensures DismountRecords(rider, mount, true, attribute, original) == [SpeedRestored(rider, mount, original)]
  {
  }

  /** A dismounted entity that is not a Happy Ghast, or lacks the attribute, is neither written nor logged. */
  lemma DismountIgnores(rider: string, mount: string, isHappyGhast: bool, attribute: Option<real>, original: real)
    requires !isHappyGhast || attribute.None?
    ensures AfterDismount(isHappyGhast, attribute, original) == attribute
    ensures DismountRecords(rider, mount, isHappyGhast, attribute, original) == []
  {
  }

  /** A mount followed by a dismount leaves a Happy Ghast at the default speed. */
  lemma MountThenDismount(attribute: Option<real>, target: real, original: real)
    requires attribute.Some?
    ensures AfterDismount(true, AfterMount(true, attribute, target), original) == Some(original)
  {
  }

  /** An override of 0.3 takes precedence over a global speed of 0.5. */
  lemma OverrideWinsScenario(overrides: map<Uuid, real>, id: Uuid)
    requires id in overrides && overrides[id] == 0.3
    ensures AfterMount(true, Some(0.5), TargetSpeed(overrides, 0.5, id)) == Some(0.3)
  {
  }

}
