# GhastSpeed, modelled in Dafny

GhastSpeed is a Bukkit server plugin that changes the flying speed of a
Happy Ghast while a player rides it. When a player mounts a Happy Ghast, the
ghast's FLYING_SPEED attribute is set to that ghast's own override if it has
one, else to the global ridden speed. When the rider dismounts, the attribute
goes back to the Happy Ghast's default speed. The `/ghastspeed` command
reports the speeds, sets the global speed (`global <value>`) or sets the
override of the ghast the player is riding (`<value>`). Every successful
change is written to config.yml.

The model follows the one source file,
`src/main/java/net/outflux/mc/ghastspeed/GhastSpeed.java`:

- `wrappers.dfy` (`Wrappers`): `Option`, for Java's nulls and failing parses.
- `javalang.dfy` (`JavaLang`): a Java `double` with NaN and the infinities,
  Java's `<`, `>` and `<=` on it, and `String.equalsIgnoreCase` for ASCII.
- `uuids.dfy` (`Uuids`): `java.util.UUID` as 32 hexadecimal digits, its
  canonical text (`toString`) and the parse of that text (`fromString`), with
  the round trip proved rather than assumed.
- `logging.dfy` (`Logging`): the log records the plugin emits, as data.
- `store.dfy` (`OverrideStore`): config.yml's two keys, the string-keyed map
  `writeConfig` builds, and what `readConfig` can load from a section. Keys
  are visited in no fixed order, so loading is stated as a relation
  (`LoadedFrom`).
- `controller.dfy` (`SpeedController`): what `setMountSpeed` and `onDismount`
  do to one entity's attribute and log, as functions, with the lemmas about
  them.
- `commands.dfy` (`Commands`): the argument shapes of `/ghastspeed`, the
  permission nodes, the replies, and `parseSaneSpeed`.
- `ghastspeed.dfy` (`GhastSpeed`): the classes `Entity`, `Sender` and
  `Plugin`. `Plugin` holds the source's fields `originalSpeed`,
  `globalSpeed` and `ghastSpeeds`, plus config.yml, a save counter and the
  log. Its methods are the source's methods, and each one's `ensures` gives
  the whole new state.

Inputs the plugin gets from the server are parameters. `OnEnable` takes the
speed `discoverDefaults` read (None when it could not spawn a ghast).
`OnCommand` takes the command name, the arguments, and `Double.parseDouble`
as a function (None where it throws). A sender's permissions are a set of
granted nodes. An entity's FLYING_SPEED attribute is `Option<real>`, with
None meaning the attribute is missing. Saving config.yml is modelled as
assigning the document to the plugin's `config` field and counting the save.

Two behaviours of the code worth knowing:

- An invalid speed gets the "invalid speed" reply and then the usage reply.
  The code does this because `success` stays false.
- The as-written check, `Commands.SaneSpeedAsWritten`, lets NaN through; the plugin uses the corrected one (see Findings).

## Model

| member | source | states |
|---|---|---|
| JavaLang.Less | src/main/java/net/outflux/mc/ghastspeed/GhastSpeed.java:155 | Java's `<` on doubles, false whenever either side is NaN; SaneSpeedAsWritten uses it (with `Greater`, its mirror) for the range test |
| JavaLang.AtMost | src/main/java/net/outflux/mc/ghastspeed/GhastSpeed.java:152-156 | Java's `<=` on doubles, false whenever either side is NaN; the corrected ParseSaneSpeed uses it, and ParseSaneSpeed's ensures give its meaning on the parse result |
| JavaLang.EqualsIgnoreCaseCharwise | src/main/java/net/outflux/mc/ghastspeed/GhastSpeed.java:163 | `String.equalsIgnoreCase`, ASCII letters only: true exactly when the lengths agree and at every position the characters are equal or the same letter in another case. It is used for the command name and for "global" and "help" |
| Uuids.ToString | src/main/java/net/outflux/mc/ghastspeed/GhastSpeed.java:76 | `UUID.toString`: the 36-character lower-case 8-4-4-4-12 text; FromStringToString and ToStringInjective prove it is read back and never repeats |
| Uuids.FromString | src/main/java/net/outflux/mc/ghastspeed/GhastSpeed.java:63 | `UUID.fromString` on the canonical shape, hex digits of either case, None where Java throws; FromStringToString and ToStringFromString are its round trips |
| OverrideStore.GetDouble | src/main/java/net/outflux/mc/ghastspeed/GhastSpeed.java:54 | `getDouble`: the stored number, 0.0 when the value is missing or not a number |
| OverrideStore.SaveMap | src/main/java/net/outflux/mc/ghastspeed/GhastSpeed.java:73-77 | the string-keyed map writeConfig's loop builds; SaveMapAt, SaveMapKey and SaveMapPut state its contents |
| OverrideStore.Written | src/main/java/net/outflux/mc/ghastspeed/GhastSpeed.java:78-80 | the document after both `set` calls; WrittenReadsBack proves it reads back as the state that wrote it |
| OverrideStore.Loaded | src/main/java/net/outflux/mc/ghastspeed/GhastSpeed.java:49-71 | what readConfig may leave behind from a document: the global speed and its log record, an empty map without a section, else a map loaded in some key order with one warning per bad key |
| OverrideStore.LoadedFrom | src/main/java/net/outflux/mc/ghastspeed/GhastSpeed.java:61-69 | the put-or-skip outcome of readConfig's loop over some of the keys: each visited key that parses contributes its UUID, and each loaded UUID comes from a visited key with that key's value; LoadStep, SaveLoadRoundTrip and ValidKeysLoad rest on it |
| OverrideStore.WarnedAbout | src/main/java/net/outflux/mc/ghastspeed/GhastSpeed.java:66-68 | the warnings of readConfig's loop: only for visited keys that are not UUIDs, one for each such key, and no warning repeated; WarnStep and MalformedKeyScenario state it |
| Commands.Classify | src/main/java/net/outflux/mc/ghastspeed/GhastSpeed.java:166-202 | the argument-shape dispatch: no arguments report, "global" plus a value sets the global speed, one word other than "help" sets the ridden ghast's speed, the rest is usage; UnrecognisedShapes states the last case |
| SpeedController.TargetSpeed | src/main/java/net/outflux/mc/ghastspeed/GhastSpeed.java:117 | `getOrDefault`: the ghast's override if it has one, else the global speed; MountAppliesTarget and OverrideWinsScenario use it |
| SpeedController.AfterMount | src/main/java/net/outflux/mc/ghastspeed/GhastSpeed.java:109-122 | the attribute setMountSpeed leaves; MountAppliesTarget, MountIgnores, MountUnchangedIsNoOp and MountIdempotent state its meaning |
| SpeedController.MountRecords | src/main/java/net/outflux/mc/ghastspeed/GhastSpeed.java:119-123 | the one "speed changed" record setMountSpeed logs, only when it writes; MountIgnores, MountUnchangedIsNoOp and MountIdempotent state when |
| SpeedController.AfterDismount | src/main/java/net/outflux/mc/ghastspeed/GhastSpeed.java:138-148 | the attribute onDismount leaves: the default speed on a Happy Ghast that has the attribute; DismountRestores and DismountIgnores state it |
| SpeedController.DismountRecords | src/main/java/net/outflux/mc/ghastspeed/GhastSpeed.java:145-149 | the one "speed restored" record onDismount logs, on every Happy Ghast that has the attribute; DismountRestores and DismountIgnores state it |
| Uuids.FromStringToString | src/main/java/net/outflux/mc/ghastspeed/GhastSpeed.java:63-76 | `UUID.fromString` gives back the UUID from the text `toString` produced |
| Uuids.ToStringInjective | src/main/java/net/outflux/mc/ghastspeed/GhastSpeed.java:74-77 | each UUID reads back from its text, so two overrides never share a key in the saved map |
| Uuids.ToStringFromString | src/main/java/net/outflux/mc/ghastspeed/GhastSpeed.java:63 | a key `fromString` accepts is the canonical text of the UUID it yields, ignoring letter case |
| OverrideStore.SaveMapAt | src/main/java/net/outflux/mc/ghastspeed/GhastSpeed.java:75-77 | every override is saved under its UUID's text, with its speed |
| OverrideStore.SaveMapKey | src/main/java/net/outflux/mc/ghastspeed/GhastSpeed.java:75-77 | every saved key parses as a UUID that has an override, and holds that override's speed |
| OverrideStore.SaveMapPut | src/main/java/net/outflux/mc/ghastspeed/GhastSpeed.java:76 | one more `put` into the saved map adds exactly that override's entry |
| OverrideStore.SaveMapStep | src/main/java/net/outflux/mc/ghastspeed/GhastSpeed.java:75-77 | one pass of writeConfig's loop extends the saved map by the override it visits |
| OverrideStore.LoadStep | src/main/java/net/outflux/mc/ghastspeed/GhastSpeed.java:61-69 | one pass of readConfig's loop adds the entry of a key that parses, keeps the rest, and skips a key that does not parse |
| OverrideStore.WarnStep | src/main/java/net/outflux/mc/ghastspeed/GhastSpeed.java:66-68 | one pass of readConfig's loop logs one warning for a key that is not a UUID, and none for any other key |
| OverrideStore.LoadedFromSaved | src/main/java/net/outflux/mc/ghastspeed/GhastSpeed.java:58-79 | an entry read back from a saved map is an original override, with the same speed |
| OverrideStore.SavedIsLoaded | src/main/java/net/outflux/mc/ghastspeed/GhastSpeed.java:58-79 | every saved override is read back |
| OverrideStore.SaveLoadRoundTrip | src/main/java/net/outflux/mc/ghastspeed/GhastSpeed.java:58-79 | in whatever order readConfig visits the keys of a saved map, it rebuilds exactly the overrides that were saved |
| OverrideStore.ValidKeysLoad | src/main/java/net/outflux/mc/ghastspeed/GhastSpeed.java:59-70 | the loaded UUIDs are exactly those parsed from valid keys; when no two keys name the same UUID, each valid key loads its own value |
| OverrideStore.WrittenReadsBack | src/main/java/net/outflux/mc/ghastspeed/GhastSpeed.java:49-81 | reading back the document writeConfig wrote gives the same global speed and the same overrides |
| OverrideStore.MalformedKeyScenario | src/main/java/net/outflux/mc/ghastspeed/GhastSpeed.java:62-68 | a section holding `"not-a-uuid": 0.2` and one real UUID with 0.3 loads only that UUID, with 0.3, and logs exactly one warning, for "not-a-uuid" |
| SpeedController.MountAppliesTarget | src/main/java/net/outflux/mc/ghastspeed/GhastSpeed.java:116-122 | after mounting, a Happy Ghast with the attribute flies at its override if present, else at the global speed |
| SpeedController.MountIgnores | src/main/java/net/outflux/mc/ghastspeed/GhastSpeed.java:109-114 | a mount that is not a Happy Ghast, or that lacks the attribute, is neither written nor logged |
| SpeedController.MountUnchangedIsNoOp | src/main/java/net/outflux/mc/ghastspeed/GhastSpeed.java:119-120 | when the attribute already holds the target, nothing is written and nothing is logged |
| SpeedController.MountIdempotent | src/main/java/net/outflux/mc/ghastspeed/GhastSpeed.java:116-122 | mount handling twice equals once, and the second time logs nothing |
| SpeedController.DismountRestores | src/main/java/net/outflux/mc/ghastspeed/GhastSpeed.java:143-149 | dismounting sets the default speed whatever the previous value, and logs every time, even when the value was already the default |
| SpeedController.DismountIgnores | src/main/java/net/outflux/mc/ghastspeed/GhastSpeed.java:138-145 | dismounting from something that is not a Happy Ghast, or that lacks the attribute, changes and logs nothing |
| SpeedController.MountThenDismount | src/main/java/net/outflux/mc/ghastspeed/GhastSpeed.java:116-149 | a mount followed by a dismount leaves the ghast at the default speed |
| SpeedController.OverrideWinsScenario | src/main/java/net/outflux/mc/ghastspeed/GhastSpeed.java:117 | with an override of 0.3 and a global speed of 0.5, mounting gives 0.3 |
| Commands.UnrecognisedShapes | src/main/java/net/outflux/mc/ghastspeed/GhastSpeed.java:189-202 | only "help", a two-word form not starting with "global", and three or more words fall through to usage |
| Commands.SaneSpeedAsWritten | src/main/java/net/outflux/mc/ghastspeed/GhastSpeed.java:153-159 | the written check accepts a parsed value exactly when it lies in [0.0, 1.0] or is NaN, and returns it unchanged |
| Commands.SaneSpeedAsWrittenAcceptsNaN | src/main/java/net/outflux/mc/ghastspeed/GhastSpeed.java:154-156 | NaN gets past the written range check |
| Commands.ParseSaneSpeed | src/main/java/net/outflux/mc/ghastspeed/GhastSpeed.java:153-159 | the intended check succeeds exactly when the text parses to a finite v with 0.0 <= v <= 1.0, and then returns v |
| Commands.ParseSaneSpeedAgreesBesideNaN | src/main/java/net/outflux/mc/ghastspeed/GhastSpeed.java:155 | the intended and the written check agree on every parse result except NaN |
| Commands.RangeBoundaries | src/main/java/net/outflux/mc/ghastspeed/GhastSpeed.java:155 | 0.0 and 1.0 are accepted; -0.0001, 1.0001, the infinities and unparsable text are refused |
| GhastSpeed.RiddenGhast | src/main/java/net/outflux/mc/ghastspeed/GhastSpeed.java:210-220 | the test `sender instanceof Player` and `getVehicle() instanceof HappyGhast` (also at lines 170-174): the Happy Ghast a player is riding, or None; OnCommand's ensures are stated through it |
| GhastSpeed.Plugin.constructor | src/main/java/net/outflux/mc/ghastspeed/GhastSpeed.java:29-31 | a new plugin has speeds 0.0, no overrides, and config.yml as it was found on disk |
| GhastSpeed.Plugin.OnEnable | src/main/java/net/outflux/mc/ghastspeed/GhastSpeed.java:92-101 | the discovered speed is logged. The default speed is the discovered one, or 0.05 (logged) when discovery gave 0.0 or nothing. Then the configuration is loaded. saveConfig is not called |
| GhastSpeed.Plugin.ReadConfig | src/main/java/net/outflux/mc/ghastspeed/GhastSpeed.java:49-71 | the global speed is the document's (0.0 when missing), the map is cleared and refilled from the keys that parse, and each bad key is warned about once |
| GhastSpeed.Plugin.WriteConfig | src/main/java/net/outflux/mc/ghastspeed/GhastSpeed.java:73-81 | both keys are replaced by the current state and saved once, and the saved document reads back as that state |
| GhastSpeed.Plugin.BuildSaveMap | src/main/java/net/outflux/mc/ghastspeed/GhastSpeed.java:74-77 | the loop puts every override under its UUID's text, and nothing else |
| GhastSpeed.Plugin.SetMountSpeed | src/main/java/net/outflux/mc/ghastspeed/GhastSpeed.java:107-124 | the mount's attribute and the log become what SpeedController's functions give for the mount's override or the global speed |
| GhastSpeed.Plugin.OnMount | src/main/java/net/outflux/mc/ghastspeed/GhastSpeed.java:126-134 | a mount event has the same effect as setMountSpeed, and none on anything that is not a Happy Ghast |
| GhastSpeed.Plugin.OnDismount | src/main/java/net/outflux/mc/ghastspeed/GhastSpeed.java:136-150 | a dismount event restores the default speed on a Happy Ghast with the attribute and logs it; anything else is untouched |
| GhastSpeed.Plugin.OnCommand | src/main/java/net/outflux/mc/ghastspeed/GhastSpeed.java:161-243 | for each argument shape: the replies, the permission and "must be riding" refusals, the upsert and immediate re-apply, and a save exactly when a change succeeded; every other path changes nothing; a NaN speed is refused (see Left out) |

## Left out

- `discoverDefaults` (spawning and removing a ghast in the nether): it is server calls with side effects. Its result is the parameter of `OnEnable`, which logs the discovered speed as line 46 does.
- `blocksPerSecondString`, all message and log text, and `ChatColor`: these are display only. Replies and log records are datatypes carrying the values shown.
- Event registration, `saveDefaultConfig`, the YAML file format and `saveConfig` as I/O. A save is an assignment to `config` plus a counter.
- OverrideStore.GetDouble: answers 0.0 for a missing or non-numeric value. In the plugin, `getConfig()` uses the bundled config.yml from the plugin jar as defaults, and `getDouble` returns the default for a missing key. That bundled file is not part of this model.
- Config keys other than "global-speed" and "ghast-speeds", and non-finite numbers (`.nan`, `.inf`) stored in config.yml, are not modelled.
- `Double.parseDouble` is a parameter. Its rounding of decimal text to the nearest double is not modelled, and finite doubles are exact reals.
- Uuids.FromString: accepts only the 36-character canonical shape, with hex digits of either case. Java's fallback path also accepts digit groups of other lengths, signs and non-ASCII digits; because of this, the model skips some keys Java would load.
- JavaLang.EqualsIgnoreCase: folds the case of ASCII letters only. Java also folds other characters, for example the long s that upper-cases to 'S'.
- GhastSpeed.Plugin.OnCommand: refuses a NaN speed with the invalid-speed and usage replies and saves nothing, because it uses the corrected `Commands.ParseSaneSpeed`. The code stores NaN as the global or the ghast's speed, applies it, replies and calls writeConfig (see Findings).
- The server's clamping of an attribute's base value to the attribute's range is not modelled.
- Permission lookup is membership in a set of granted nodes. Inheritance and operator status are not modelled.

## Findings

| source | as written | input that shows it | evidently intended | confidence | as-written member | corrected member |
|---|---|---|---|---|---|---|
| src/main/java/net/outflux/mc/ghastspeed/GhastSpeed.java:155 | `speed < 0.0 \|\| speed > 1.0` is false for NaN, so `parseSaneSpeed` returns NaN as a sane speed, which is then stored and saved | `/ghastspeed global NaN` (Double.parseDouble reads "NaN" as NaN) | accept only 0.0 <= speed <= 1.0, as the comment at line 152 and the exception text say | high; not executed | Commands.SaneSpeedAsWritten | Commands.ParseSaneSpeed |

The plugin in this model uses `Commands.ParseSaneSpeed`.
`Commands.SaneSpeedAsWrittenAcceptsNaN` shows that the as-written check
accepts NaN.
