/**
 * The level filter and the line format of `src/lib/edge-logger.ts`.
 *
 * The configured level comes from the `LOG_LEVEL` environment variable,
 * passed in as an optional string. Arguments arrive already rendered
 * (`String(arg)`, or `JSON.stringify(arg)` for objects); the timestamp is
 * the ISO rendering of the clock, passed in.
 */
module EdgeLogger {
  import opened Wrappers
  import opened Text

  datatype LogLevel = Error | Warn | Info | Http | Debug

  /** `LOG_LEVELS`: lower is more severe. */
  function Rank(level: LogLevel): (r: nat)
    ensures r <= 4
  {
    match level
    case Error => 0
    case Warn => 1
    case Info => 2
    case Http => 3
    case Debug => 4
  }

  function LevelName(level: LogLevel): (r: string)
    ensures ' ' !in r
  {
    match level
    case Error => "error"
    case Warn => "warn"
    case Info => "info"
    case Http => "http"
    case Debug => "debug"
  }

  /** Looking a name up in `LOG_LEVELS`: only the five level names have a rank. */
  function LevelOf(name: string): (r: Option<LogLevel>)
    ensures r.Some? ==> LevelName(r.value) == name
    ensures r.None? ==> forall level :: LevelName(level) != name
  {
    if name == "error" then Some(Error)
    else if name == "warn" then Some(Warn)
    else if name == "info" then Some(Info)
    else if name == "http" then Some(Http)
    else if name == "debug" then Some(Debug)
    else None
  }

  /** `currentLogLevel`: `LOG_LEVEL` when set and non-empty, else `info`. */
  function CurrentLogLevel(env: Option<string>): (r: string)
    ensures r != ""
    ensures env.Some? && env.value != "" ==> r == env.value
    ensures env.None? || env.value == "" ==> r == LevelName(Info)
  {
    if env.Some? && env.value != "" then env.value else "info"
  }

  /**
   * `shouldLog`: the level's rank is at most the configured level's rank.
   * A configured name outside the table has no rank, so the comparison is
   * false and nothing is logged.
   */
  predicate ShouldLog(level: LogLevel, env: Option<string>): (r: bool)
    ensures r <==> exists c :: LevelName(c) == CurrentLogLevel(env) && Rank(level) <= Rank(c)
  {
    LevelNamesDistinct();
    var configured := LevelOf(CurrentLogLevel(env));
    configured.Some? && Rank(level) <= Rank(configured.value)
  }

  /** Ranks tell the levels apart. */
  lemma RankInjective(a: LogLevel, b: LogLevel)
    ensures Rank(a) == Rank(b) <==> a == b
  {
  }

  /** Each level name looks up its own level. */
  lemma LevelNameLooksUp(level: LogLevel)
    ensures LevelOf(LevelName(level)) == Some(level)
  {
    var name := LevelName(level);
    assert |LevelName(Error)| == 5 && |LevelName(Warn)| == 4 && |LevelName(Info)| == 4
           && |LevelName(Http)| == 4 && |LevelName(Debug)| == 5;
    assert LevelName(Warn)[0] != LevelName(Info)[0] && LevelName(Info)[0] != LevelName(Http)[0];
    assert LevelName(Error)[0] != LevelName(Debug)[0];
  }

  /** Different levels have different names. */
  lemma LevelNamesDistinct()
    ensures forall a, b :: LevelName(a) == LevelName(b) ==> a == b
  {
    forall a, b | LevelName(a) == LevelName(b)
      ensures a == b
    {
      LevelNameLooksUp(a);
      LevelNameLooksUp(b);
    }
  }

  /** A logged level lets every more severe level through as well. */
  lemma ShouldLogMonotone(level: LogLevel, severer: LogLevel, env: Option<string>)
    requires ShouldLog(level, env) && Rank(severer) <= Rank(level)
    ensures ShouldLog(severer, env)
  {
  }

  /** Under a configured level named in the table, `error` is always logged. */
  lemma ErrorAlwaysLogged(env: Option<string>)
    requires LevelOf(CurrentLogLevel(env)).Some?
    ensures ShouldLog(Error, env)
  {
  }

  /** With `LOG_LEVEL` absent or empty, exactly error, warn and info are logged. */
  lemma DefaultIsInfo(level: LogLevel, env: Option<string>)
    requires env.None? || env == Some("")
    ensures ShouldLog(level, env) <==> Rank(level) <= Rank(Info)
  {
    LevelNameLooksUp(Info);
  }

  /** Configuring level `c` logs a level exactly when it is at least as severe as `c`. */
  lemma ConfiguredLevel(level: LogLevel, c: LogLevel)
    ensures ShouldLog(level, Some(LevelName(c))) <==> Rank(level) <= Rank(c)
  {
    LevelNameLooksUp(c);
  }

  /** An unrecognised `LOG_LEVEL` logs nothing, not even errors. */
  lemma UnknownLevelLogsNothing(level: LogLevel, name: string)
    requires name != "" && forall l :: LevelName(l) != name
    ensures !ShouldLog(level, Some(name))
  {
  }

  /** The tag of a line: the level name in upper case (`level.toUpperCase()`), in brackets, then a colon. */
  function Tag(level: LogLevel): (r: string)
    ensures ' ' !in r
    ensures |r| == |LevelName(level)| + 3 && r[0] == '[' && r[|r| - 2..] == "]:"
    ensures r[1..|r| - 2] == ToUpper(LevelName(level))
  {
    UpperHasNoSpace(LevelName(level));
    "[" + ToUpper(LevelName(level)) + "]:"
  }

  /** Upper-casing puts no space into a text that has none. */
  lemma UpperHasNoSpace(name: string)
    requires ' ' !in name
    ensures ' ' !in ToUpper(name)
  {
    forall i | 0 <= i < |name|
      ensures ToUpper(name)[i] != ' '
    {
      assert name[i] != ' ';
    }
  }

  /**
   * `formatMessage`: timestamp, tag and message separated by single spaces,
   * then a space and the arguments joined by single spaces when there are any.
   */
  function FormatMessage(timestamp: string, level: LogLevel, message: string, args: seq<string>): (r: string)
    ensures var head := timestamp + " [" + ToUpper(LevelName(level)) + "]: " + message;
            |head| <= |r| && r[..|head|] == head
            && (|args| == 0 <==> r == head)
            && (|args| > 0 ==> r[|head|..] == " " + Join(args, ' '))
  {
    var formattedArgs := if |args| > 0 then " " + Join(args, ' ') else "";
    var head := timestamp + " " + Tag(level) + " " + message;
    LineHead(timestamp, ToUpper(LevelName(level)), message);
    assert head + formattedArgs == timestamp + " " + Tag(level) + " " + message + formattedArgs;
    head + formattedArgs
  }

  /** The tag spelled out inside the line. */
  lemma LineHead(timestamp: string, upper: string, message: string)
    ensures timestamp + " " + ("[" + upper + "]:") + " " + message == timestamp + " [" + upper + "]: " + message
  {
  }

  /**
   * Reading a line back: split on spaces, it is the timestamp, the tag, the
   * words of the message and the arguments, when the timestamp and the
   * arguments hold no space.
   */
  lemma FormatMessageFields(timestamp: string, level: LogLevel, message: string, args: seq<string>)
    requires ' ' !in timestamp
    requires forall i :: 0 <= i < |args| ==> ' ' !in args[i]
    ensures Split(FormatMessage(timestamp, level, message, args), ' ')
            == [timestamp, Tag(level)] + Split(message, ' ') + args
  {
    LineFields(timestamp, Tag(level), message, args);
  }

  /** The fields of a line, for any tag without a space. */
  lemma LineFields(timestamp: string, tag: string, message: string, args: seq<string>)
    requires ' ' !in timestamp && ' ' !in tag
    requires forall i :: 0 <= i < |args| ==> ' ' !in args[i]
    ensures Split(timestamp + " " + tag + " " + message + (if |args| > 0 then " " + Join(args, ' ') else ""), ' ')
            == [timestamp, tag] + Split(message, ' ') + args
  {
    var tail := if |args| > 0 then " " + Join(args, ' ') else "";
    var rest := message + tail;
    LineShape(timestamp, tag, message, tail);
    SplitHeader(timestamp, tag, rest);
    if |args| > 0 {
      var joined := Join(args, ' ');
      AppendAssoc(message, [' '], joined);
      SplitJoin(args, ' ');
      SplitConcat(message, joined, ' ');
      AppendAssoc([timestamp, tag], Split(message, ' '), args);
    } else {
      assert rest == message;
    }
  }

  lemma LineShape(timestamp: string, tag: string, message: string, tail: string)
    ensures timestamp + " " + tag + " " + message + tail == timestamp + [' '] + (tag + [' '] + (message + tail))
  {
    var head := timestamp + " " + tag + " ";
    assert head == timestamp + [' '] + (tag + [' ']);
    assert head + message + tail == head + (message + tail);
  }

  lemma SplitHeader(timestamp: string, tag: string, rest: string)
    requires ' ' !in timestamp && ' ' !in tag
    ensures Split(timestamp + [' '] + (tag + [' '] + rest), ' ') == [timestamp, tag] + Split(rest, ' ')
  {
    SplitFirst(timestamp, tag + [' '] + rest, ' ');
    SplitFirst(tag, rest, ' ');
  }

  /** Tags tell the levels apart, so the level of a line can be read back from its tag. */
  lemma TagInjective(a: LogLevel, b: LogLevel)
    requires Tag(a) == Tag(b)
    ensures a == b
  {
    assert Tag(a)[1] == UpperChar(LevelName(a)[0]) && Tag(b)[1] == UpperChar(LevelName(b)[0]);
  }

  /**
   * `EdgeLogger.error` ... `EdgeLogger.debug`: the line written to the
   * console, or nothing when the level is filtered out.
   */
  function Emit(level: LogLevel, env: Option<string>, timestamp: string, message: string, args: seq<string>): (r: Option<string>)
    ensures r.Some? <==> ShouldLog(level, env)
    ensures r.Some? ==> r.value == FormatMessage(timestamp, level, message, args)
  {
    if ShouldLog(level, env) then Some(FormatMessage(timestamp, level, message, args)) else None
  }
}
