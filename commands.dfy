/**
 * The command interpreter's pure parts: the shape of the arguments of
 * /ghastspeed, the permission nodes, the replies, and the speed validator.
 */
module Commands {
  import opened Wrappers
  import opened JavaLang

  const CommandName := "ghastspeed"
  const GlobalPermission := "ghastspeed.set.global"
  const SetPermission := "ghastspeed.set"

  /** What the plugin sends back to the command's sender (the message text is not modelled). */
  datatype Reply =
    | DefaultSpeedReport(speed: real)
    | GlobalSpeedReport(speed: real)
    | CurrentSpeedReport(speed: real)
    | NoGlobalPermission
    | NoSetPermission
    | PlayersOnly
    | MustRideGhast
    | GlobalSpeedSet(speed: real)
    | GhastSpeedSet(speed: real)
    | InvalidSpeed
    | Usage

  /** The argument shapes onCommand tells apart. */
  datatype Invocation =
    | Report
    | SetGlobal(valueText: string)
    | SetRidden(valueText: string)
    | Unrecognised

  function Classify(args: seq<string>): Invocation {
    if |args| == 0 then Report
    else if |args| == 2 && EqualsIgnoreCase(args[0], "global") then SetGlobal(args[1])
    else if |args| == 1 && !EqualsIgnoreCase(args[0], "help") then SetRidden(args[0])
    else Unrecognised
  }

  /** Only "help", a two-word form not starting with "global", and three or more words fall through to usage. */
  lemma UnrecognisedShapes(args: seq<string>)
    ensures Classify(args).Unrecognised? <==>
      (|args| == 1 && EqualsIgnoreCase(args[0], "help")) ||
      (|args| == 2 && !EqualsIgnoreCase(args[0], "global")) ||
      |args| > 2
  {
  }

  /**
   * parseSaneSpeed as written: the parsed double is refused when it is
   * `< 0.0` or `> 1.0`. NaN is neither, so it passes.
   */
  function SaneSpeedAsWritten(parsed: Option<Double>): (r: Option<Double>)
    ensures r.Some? <==> parsed.Some? && (parsed.value.NaN? || (parsed.value.Finite? && 0.0 <= parsed.value.value <= 1.0))
    ensures r.Some? ==> r == parsed
  {
    match parsed
    case None => None
    case Some(speed) =>
      if Less(speed, Finite(0.0)) || Greater(speed, Finite(1.0)) then None else Some(speed)
  }

  /** The text "NaN", which Double.parseDouble reads as NaN, gets through the range check. */
  lemma SaneSpeedAsWrittenAcceptsNaN()
    ensures SaneSpeedAsWritten(Some(NaN)) == Some(NaN)
  {
  }

  /**
   * parseSaneSpeed with the range check the comment above it intends: the
   * parsed double must satisfy `0.0 <= speed && speed <= 1.0`, which NaN
   * does not. `parsed` is the result of Double.parseDouble, None when it
   * throws.
   */
  function ParseSaneSpeed(parsed: Option<Double>): (r: Option<real>)
    ensures r.Some? <==> parsed.Some? && parsed.value.Finite? && 0.0 <= parsed.value.value <= 1.0
    ensures r.Some? ==> r.value == parsed.value.value
  {
    match parsed
    case None => None
    case Some(speed) =>
      if !(AtMost(Finite(0.0), speed) && AtMost(speed, Finite(1.0))) then None else Some(speed.value)
  }

  /** The corrected check differs from the written one only on NaN. */
  lemma ParseSaneSpeedAgreesBesideNaN(parsed: Option<Double>)
    requires !(parsed.Some? && parsed.value.NaN?)
    ensures ParseSaneSpeed(parsed).Some? <==> SaneSpeedAsWritten(parsed).Some?
    ensures ParseSaneSpeed(parsed).Some? ==> SaneSpeedAsWritten(parsed) == Some(Finite(ParseSaneSpeed(parsed).value))
  {
  }

  /** 0.0 and 1.0 are accepted; -0.0001, 1.0001, infinities and unparsable text are refused. */
  lemma RangeBoundaries()
    ensures ParseSaneSpeed(Some(Finite(0.0))) == Some(0.0)
    ensures ParseSaneSpeed(Some(Finite(1.0))) == Some(1.0)
    ensures ParseSaneSpeed(Some(Finite(-0.0001))) == None
    ensures ParseSaneSpeed(Some(Finite(1.0001))) == None
    ensures ParseSaneSpeed(Some(PositiveInfinity)) == None
    ensures ParseSaneSpeed(Some(NegativeInfinity)) == None
    ensures ParseSaneSpeed(None) == None
  {
  }

}
