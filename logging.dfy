/**
 * What the plugin writes to the server log, kept as data: which record was
 * emitted and with which values, not the message text.
 */
module Logging {

  datatype LogRecord =
    /** readConfig: the global ridden speed it loaded. */
    | GlobalSpeedLoaded(speed: real)
    /** readConfig: a key of the override section that is not a UUID. */
    | InvalidUuidKey(key: string)
    /** discoverDefaults: the base speed read from a freshly spawned Happy Ghast. */
    | DefaultSpeedDiscovered(speed: real)
    /** onEnable: discovery gave nothing, the hard-coded default is used. */
    | DefaultSpeedFallback(speed: real)
    /** setMountSpeed: a rider mounted a ghast and its speed changed. */
    | SpeedChanged(rider: string, mount: string, from: real, to: real)
    /** onDismount: a rider left a ghast and its speed was restored. */
    | SpeedRestored(rider: string, mount: string, to: real)

}
