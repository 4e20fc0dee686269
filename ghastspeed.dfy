/**
 * The plugin object: its fields, its configuration round trip, the mount
 * and dismount handlers and the /ghastspeed command.
 */
module GhastSpeed {
  import opened Wrappers
  import opened Uuids
  import opened JavaLang
  import opened Logging
  import opened OverrideStore
  import opened SpeedController
  import opened Commands

  /** The speed onEnable falls back to when discovery gave 0.0 or nothing. */
  const FallbackSpeed := 0.05

  /** A server entity as the plugin sees it. */
  class Entity {
    const name: string
    const uniqueId: Uuid
    const isHappyGhast: bool
    /** The base value of the entity's FLYING_SPEED attribute; None when it has no such attribute. */
    var flyingSpeed: Option<real>

    constructor (name: string, uniqueId: Uuid, isHappyGhast: bool, flyingSpeed: Option<real>)
      ensures this.name == name && this.uniqueId == uniqueId
      ensures this.isHappyGhast == isHappyGhast && this.flyingSpeed == flyingSpeed
    {
      this.name := name;
      this.uniqueId := uniqueId;
      this.isHappyGhast := isHappyGhast;
      this.flyingSpeed := flyingSpeed;
    }
  }

  /** Whoever runs a command: a player (possibly riding something) or another sender such as the console. */
  class Sender {
    const name: string
    const isPlayer: bool
    const permissions: set<string>
    const vehicle: Option<Entity>

    constructor (name: string, isPlayer: bool, permissions: set<string>, vehicle: Option<Entity>)
      ensures this.name == name && this.isPlayer == isPlayer
      ensures this.permissions == permissions && this.vehicle == vehicle
    {
      this.name := name;
      this.isPlayer := isPlayer;
      this.permissions := permissions;
      this.vehicle := vehicle;
    }

    predicate HasPermission(node: string) {
      node in permissions
    }
  }

  /** The Happy Ghast a player sender is riding, if any. */
  function RiddenGhast(sender: Sender): Option<Entity> {
    if sender.isPlayer && sender.vehicle.Some? && sender.vehicle.value.isHappyGhast then sender.vehicle else None
  }

  /** The entities a command of `sender` may write: the ghast it rides. */
  function Ridden(sender: Sender): set<Entity> {
    if RiddenGhast(sender).Some? then {RiddenGhast(sender).value} else {}
  }

  class Plugin {
    /** The Happy Ghast's unridden flying speed, restored on dismount. */
    var originalSpeed: real
    /** The speed of a ridden ghast without an override. */
    var globalSpeed: real
    /** Per-ghast overrides. */
    var ghastSpeeds: map<Uuid, real>
    /** config.yml; every change to it is saved at once, so memory and disk agree. */
    var config: Config
    /** How many times saveConfig has run. */
    var saveCount: nat
    var log: seq<LogRecord>

    /** The plugin as the server creates it, before onEnable, with config.yml as found on disk. */
    constructor (onDisk: Config)
      ensures originalSpeed == 0.0 && globalSpeed == 0.0 && ghastSpeeds == map[]
      ensures config == onDisk && saveCount == 0 && log == []
    {
      originalSpeed := 0.0;
      globalSpeed := 0.0;
      ghastSpeeds := map[];
      config := onDisk;
      saveCount := 0;
      log := [];
    }

    /**
     * onEnable. `discovered` is the base speed discoverDefaults read from a
     * freshly spawned Happy Ghast, None when it could not spawn one.
     */
    method OnEnable(discovered: Option<real>)
      modifies this
      ensures originalSpeed == if discovered.Some? && discovered.value != 0.0 then discovered.value else FallbackSpeed
      ensures originalSpeed != 0.0
      ensures config == old(config) && saveCount == old(saveCount)
      ensures var found := if discovered.Some? then [DefaultSpeedDiscovered(discovered.value)] else [];
        var fallback := if discovered.Some? && discovered.value != 0.0 then [] else [DefaultSpeedFallback(FallbackSpeed)];
        var prefix := old(log) + found + fallback;
        |log| >= |prefix| && log[..|prefix|] == prefix &&
        Loaded(config, globalSpeed, ghastSpeeds, log[|prefix|..])
    {
      originalSpeed := 0.0;
      if discovered.Some? {
        originalSpeed := discovered.value;
        log := log + [DefaultSpeedDiscovered(originalSpeed)];
      }
      if originalSpeed == 0.0 {
        originalSpeed := FallbackSpeed;
        log := log + [DefaultSpeedFallback(originalSpeed)];
      }
      ReadConfig();
    }

    /** readConfig: load the global speed and the overrides, skipping keys that are not UUIDs. */
    method ReadConfig()
      modifies this`globalSpeed, this`ghastSpeeds, this`log
      ensures |log| >= |old(log)| && log[..|old(log)|] == old(log)
      ensures Loaded(config, globalSpeed, ghastSpeeds, log[|old(log)|..])
    {
      globalSpeed := GetDouble(config.globalSpeed);
      log := log + [GlobalSpeedLoaded(globalSpeed)];
      ghost var start := |log|;
      ghastSpeeds := map[];
      if config.ghastSpeeds.Some? {
        var section := config.ghastSpeeds.value;
        var pending := section.Keys;
        ghost var visited: set<string> := {};
        while pending != {}
          invariant globalSpeed == GetDouble(config.globalSpeed)
          invariant pending + visited == section.Keys && pending !! visited
          invariant LoadedFrom(section, visited, ghastSpeeds)
          invariant start <= |log| && log[..start] == old(log) + [GlobalSpeedLoaded(globalSpeed)]
          invariant WarnedAbout(visited, log[start..])
          decreases pending
        {
          var key :| key in pending;
          ghost var warnings := log[start..];
          LoadStep(section, visited, ghastSpeeds, key);
          WarnStep(visited, log[start..], key);
          var id := FromString(key);
          if id.Some? {
            ghastSpeeds := ghastSpeeds[id.value := GetDouble(Some(section[key]))];
          } else {
            log := log + [InvalidUuidKey(key)];
            assert log[start..] == warnings + [InvalidUuidKey(key)];
          }
          pending := pending - {key};
          visited := visited + {key};
        }
      }
    }

    /** writeConfig: store both keys and save; what it writes reads back as the current state. */
    method WriteConfig()
      modifies this`config, this`saveCount
      ensures config == Written(globalSpeed, ghastSpeeds)
      ensures ReadsBackAs(config, globalSpeed, ghastSpeeds)
      ensures saveCount == old(saveCount) + 1
    {
      var saveMap := BuildSaveMap(ghastSpeeds);
      config := config.(ghastSpeeds := Some(saveMap));
      config := config.(globalSpeed := Some(Number(globalSpeed)));
      saveCount := saveCount + 1;
      WrittenReadsBack(globalSpeed, ghastSpeeds);
    }

    /** writeConfig's loop: each override goes into the string-keyed map under its UUID's text. */
    method BuildSaveMap(overrides: map<Uuid, real>) returns (saveMap: map<string, Value>)
      ensures saveMap == SaveMap(overrides)
    {
      saveMap := map[];
      var pending := overrides.Keys;
      while pending != {}
        invariant pending <= overrides.Keys
        invariant saveMap == SaveMap(overrides - pending)
        decreases pending
      {
        var id :| id in pending;
        SaveMapStep(overrides, pending, id);
        saveMap := saveMap[ToString(id) := Number(overrides[id])];
        pending := pending - {id};
      }
      assert overrides - pending == overrides;
    }

    /** setMountSpeed: give a ridden Happy Ghast its override, or the global speed, unless it already has it. */
    method SetMountSpeed(rider: string, mount: Entity)
      modifies mount, this`log
      ensures mount.flyingSpeed
           == AfterMount(mount.isHappyGhast, old(mount.flyingSpeed), TargetSpeed(ghastSpeeds, globalSpeed, mount.uniqueId))
      ensures log == old(log) + MountRecords(rider, mount.name, mount.isHappyGhast, old(mount.flyingSpeed),
                                             TargetSpeed(ghastSpeeds, globalSpeed, mount.uniqueId))
    {
      if !mount.isHappyGhast {
        return;
      }
      if mount.flyingSpeed.None? {
        return;
      }
      var currentSpeed := mount.flyingSpeed.value;
      var speed := if mount.uniqueId in ghastSpeeds then ghastSpeeds[mount.uniqueId] else globalSpeed;
      if speed == currentSpeed {
        return;
      }
      mount.flyingSpeed := Some(speed);
      log := log + [SpeedChanged(rider, mount.name, currentSpeed, speed)];
    }

    /** onMount: a rider got on `mount`. */
    method OnMount(rider: Entity, mount: Entity)
      modifies mount, this`log
      ensures mount.flyingSpeed
           == AfterMount(mount.isHappyGhast, old(mount.flyingSpeed), TargetSpeed(ghastSpeeds, globalSpeed, mount.uniqueId))
      ensures log == old(log) + MountRecords(rider.name, mount.name, mount.isHappyGhast, old(mount.flyingSpeed),
                                             TargetSpeed(ghastSpeeds, globalSpeed, mount.uniqueId))
    {
      if !mount.isHappyGhast {
        return;
      }
      SetMountSpeed(rider.name, mount);
    }

    /** onDismount: a rider got off `dismounted`; a Happy Ghast goes back to the default speed. */
    method OnDismount(rider: Entity, dismounted: Entity)
      modifies dismounted, this`log
      ensures dismounted.flyingSpeed == AfterDismount(dismounted.isHappyGhast, old(dismounted.flyingSpeed), originalSpeed)
      ensures log == old(log) + DismountRecords(rider.name, dismounted.name, dismounted.isHappyGhast,
                                                old(dismounted.flyingSpeed), originalSpeed)
    {
      if !dismounted.isHappyGhast {
        return;
      }
      if dismounted.flyingSpeed.None? {
        return;
      }
      dismounted.flyingSpeed := Some(originalSpeed);
      log := log + [SpeedRestored(rider.name, dismounted.name, originalSpeed)];
    }

    /**
     * onCommand. `handled` is its return value; `parseDouble` stands for
     * Double.parseDouble, None where it throws.
     */
    method OnCommand(sender: Sender, commandName: string, args: seq<string>, parseDouble: string -> Option<Double>)
      returns (handled: bool, replies: seq<Reply>)
      modifies this, Ridden(sender)
      ensures handled <==> EqualsIgnoreCase(commandName, CommandName)
      ensures originalSpeed == old(originalSpeed)
      // Not this plugin's command: nothing happens.
      ensures !handled ==> replies == [] && unchanged(this) && unchanged(Ridden(sender))
      // No arguments: report the speeds, change nothing.
      ensures handled && Classify(args).Report? ==>
        unchanged(this) && unchanged(Ridden(sender)) &&
        replies == [DefaultSpeedReport(originalSpeed), GlobalSpeedReport(globalSpeed)] +
          (if RiddenGhast(sender).Some? && RiddenGhast(sender).value.flyingSpeed.Some?
           then [CurrentSpeedReport(RiddenGhast(sender).value.flyingSpeed.value)] else [])
      // "help", wrong arity: usage only.
      ensures handled && Classify(args).Unrecognised? ==>
        unchanged(this) && unchanged(Ridden(sender)) && replies == [Usage]
      // global <value>
      ensures handled && Classify(args).SetGlobal? ==>
        unchanged(Ridden(sender)) && ghastSpeeds == old(ghastSpeeds) && log == old(log) &&
        var speed := ParseSaneSpeed(parseDouble(Classify(args).valueText));
        if !sender.HasPermission(GlobalPermission) then
          unchanged(this) && replies == [NoGlobalPermission]
        else if speed.None? then
          unchanged(this) && replies == [InvalidSpeed, Usage]
        else
          globalSpeed == speed.value && replies == [GlobalSpeedSet(speed.value)] &&
          config == Written(globalSpeed, ghastSpeeds) && ReadsBackAs(config, globalSpeed, ghastSpeeds) &&
          saveCount == old(saveCount) + 1
      // <value>: the override of the ridden ghast
      ensures handled && Classify(args).SetRidden? ==>
        var speed := ParseSaneSpeed(parseDouble(Classify(args).valueText));
        if !sender.HasPermission(SetPermission) then
          unchanged(this) && unchanged(Ridden(sender)) && replies == [NoSetPermission]
        else if !sender.isPlayer then
          unchanged(this) && unchanged(Ridden(sender)) && replies == [PlayersOnly]
        else if RiddenGhast(sender).None? then
          unchanged(this) && unchanged(Ridden(sender)) && replies == [MustRideGhast]
        else if speed.None? then
          unchanged(this) && unchanged(Ridden(sender)) && replies == [InvalidSpeed, Usage]
        else
          var mount := RiddenGhast(sender).value;
          ghastSpeeds == old(ghastSpeeds)[mount.uniqueId := speed.value] &&
          globalSpeed == old(globalSpeed) &&
          mount.flyingSpeed == (if old(mount.flyingSpeed).Some? then Some(speed.value) else None) &&
          log == old(log) + MountRecords(sender.name, mount.name, true, old(mount.flyingSpeed), speed.value) &&
          replies == [GhastSpeedSet(speed.value)] &&
          config == Written(globalSpeed, ghastSpeeds) && ReadsBackAs(config, globalSpeed, ghastSpeeds) &&
          saveCount == old(saveCount) + 1
    {
      if !EqualsIgnoreCase(commandName, CommandName) {
        return false, [];
      }
      handled := true;

      if |args| == 0 {
        replies := [DefaultSpeedReport(originalSpeed), GlobalSpeedReport(globalSpeed)];
        if !sender.isPlayer {
          return;
        }
        if sender.vehicle.None? || !sender.vehicle.value.isHappyGhast {
          return;
        }
        var mount := sender.vehicle.value;
        if mount.flyingSpeed.None? {
          return;
        }
        replies := replies + [CurrentSpeedReport(mount.flyingSpeed.value)];
        return;
      }

      var success := false;
      replies := [];
      if |args| == 2 && EqualsIgnoreCase(args[0], "global") {
        if !sender.HasPermission(GlobalPermission) {
          replies := [NoGlobalPermission];
          return;
        }
        var speed := ParseSaneSpeed(parseDouble(args[1]));
        if speed.None? {
          replies := [InvalidSpeed];
        } else {
          globalSpeed := speed.value;
          replies := [GlobalSpeedSet(globalSpeed)];
          success := true;
        }
      } else if |args| == 1 && !EqualsIgnoreCase(args[0], "help") {
        if !sender.HasPermission(SetPermission) {
          replies := [NoSetPermission];
          return;
        }
        if !sender.isPlayer {
          replies := [PlayersOnly];
          return;
        }
        if sender.vehicle.None? || !sender.vehicle.value.isHappyGhast {
          replies := [MustRideGhast];
          return;
        }
        var mount := sender.vehicle.value;
        var speed := ParseSaneSpeed(parseDouble(args[0]));
        if speed.None? {
          replies := [InvalidSpeed];
        } else {
          ghastSpeeds := ghastSpeeds[mount.uniqueId := speed.value];
          SetMountSpeed(sender.name, mount);
          replies := [GhastSpeedSet(speed.value)];
          success := true;
        }
      }

      if success {
        WriteConfig();
      } else {
        replies := replies + [Usage];
      }
    }
  }

}
