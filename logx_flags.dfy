/**
 * The zap logging flags: four flag values (encoder, log level, stacktrace
 * level, time encoding). Each Set validates its input against a fixed,
 * case-insensitive table (the log level also takes a positive integer). On
 * success it hands the chosen setting to its setFunc and remembers the
 * original text. On failure it returns an error and changes nothing.
 *
 * setFunc is the callback that writes the choice into the logger options.
 * Each flag records the argument of every setFunc call, oldest first, in
 * `applied`. zap's encoders, time encoders and levels are enums or int8
 * values here.
 */
module Logx {
  import opened Wrappers
  import opened Strconv

  // ---------------------------------------------------------------------
  // Case folding

  /**
   * unicode.ToLower as far as it can reach an ASCII letter: A-Z, and the two
   * non-ASCII letters whose simple lower case is ASCII, U+0130 (capital I with
   * dot above) to 'i' and U+212A (Kelvin sign) to 'k'. Every other character
   * is kept as it is.
   */
  function LowerChar(c: char): char
  {
    if 'A' <= c <= 'Z' then (c as int + 32) as char
    else if c == '\U{0130}' then 'i'
    else if c == '\U{212A}' then 'k'
    else c
  }

  /** strings.ToLower, up to the non-ASCII results no table name contains. */
  function ToLower(s: string): (r: string)
    ensures |r| == |s|
    ensures forall i :: 0 <= i < |s| ==> r[i] == LowerChar(s[i])
  {
    if s == [] then [] else [LowerChar(s[0])] + ToLower(s[1..])
  }

  lemma ToLowerIdempotent(s: string)
    ensures ToLower(ToLower(s)) == ToLower(s)
  {
  }

  /** Case does not matter to Atoi: a letter that folds is rejected before and after folding. */
  lemma AtoiIgnoresCase(s: string)
    ensures Atoi(ToLower(s)) == Atoi(s)
  {
    if exists i :: 0 <= i < |s| && LowerChar(s[i]) != s[i] {
      var i :| 0 <= i < |s| && LowerChar(s[i]) != s[i];
      AtoiRejectsNonNumeric(s, i);
      AtoiRejectsNonNumeric(ToLower(s), i);
    } else {
      assert ToLower(s) == s;
    }
  }

  // ---------------------------------------------------------------------
  // Settings

  datatype Encoder = JSON | Console

  datatype TimeEncoding = RFC3339Nano | RFC3339 | ISO8601 | EpochMillis | EpochNanos | Epoch

  /** zapcore.Level is an int8. */
  newtype int8 = x: int | -128 <= x < 128

  const DebugLevel: int8 := -1
  const InfoLevel: int8 := 0
  const ErrorLevel: int8 := 2
  const PanicLevel: int8 := 4

  /** The names accepted for the log level. */
  const LevelStrings: map<string, int8> :=
    map["debug" := DebugLevel, "info" := InfoLevel, "error" := ErrorLevel, "panic" := PanicLevel]

  /** The names accepted for the stacktrace level. */
  const StackLevelStrings: map<string, int8> :=
    map["info" := InfoLevel, "error" := ErrorLevel, "panic" := PanicLevel]

  /** Go's int8(x) conversion: keep the low 8 bits, two's complement. */
  function ToInt8(x: int): (r: int8)
    ensures (r as int - x) % 256 == 0
    ensures -128 <= x < 128 ==> r as int == x
  {
    ((x + 128) % 256 - 128) as int8
  }

  function EncoderName(e: Encoder): string
  {
    match e
    case JSON => "json"
    case Console => "console"
  }

  function TimeEncodingName(t: TimeEncoding): string
  {
    match t
    case RFC3339Nano => "rfc3339nano"
    case RFC3339 => "rfc3339"
    case ISO8601 => "iso8601"
    case EpochMillis => "millis"
    case EpochNanos => "nanos"
    case Epoch => "epoch"
  }

  // ---------------------------------------------------------------------
  // What each Set accepts, as functions of the input

  /** The encoder the encoder flag selects for `s`. */
  function ParseEncoder(s: string): (r: Option<Encoder>)
    ensures forall e :: r == Some(e) <==> ToLower(s) == EncoderName(e)
  {
    var val := ToLower(s);
    if val == "json" then Some(JSON)
    else if val == "console" then Some(Console)
    else None
  }

  /** The time encoder the time-encoding flag selects for `s`. */
  function ParseTimeEncoding(s: string): (r: Option<TimeEncoding>)
    ensures forall t :: r == Some(t) <==> ToLower(s) == TimeEncodingName(t)
  {
    var val := ToLower(s);
    if val == "rfc3339nano" then Some(RFC3339Nano)
    else if val == "rfc3339" then Some(RFC3339)
    else if val == "iso8601" then Some(ISO8601)
    else if val == "millis" then Some(EpochMillis)
    else if val == "nanos" then Some(EpochNanos)
    else if val == "epoch" then Some(Epoch)
    else None
  }

  /** The level the log-level flag selects for `s`: a named level, or -n for a positive integer n, cut to int8. */
  function ParseLevel(s: string): (r: Option<int8>)
    ensures ToLower(s) in LevelStrings ==> r == Some(LevelStrings[ToLower(s)])
    ensures ToLower(s) !in LevelStrings ==> (r.Some? <==> Atoi(s).Some? && Atoi(s).value > 0)
    ensures ToLower(s) !in LevelStrings && r.Some? ==> (r.value as int + Atoi(s).value) % 256 == 0
  {
    var lower := ToLower(s);
    if lower in LevelStrings then Some(LevelStrings[lower])
    else
      match Atoi(s)
      case None => None
      case Some(n) => if n > 0 then Some(ToInt8(-n)) else None
  }

  /** The level the stacktrace flag selects for `s`: the log-level names other than "debug". */
  function ParseStackLevel(s: string): (r: Option<int8>)
    ensures r.Some? <==> ToLower(s) in LevelStrings && ToLower(s) != "debug"
    ensures r.Some? ==> r.value == LevelStrings[ToLower(s)] && r.value != DebugLevel
  {
    var lower := ToLower(s);
    if lower in StackLevelStrings then Some(StackLevelStrings[lower]) else None
  }

  // ---------------------------------------------------------------------
  // Properties of the tables

  /** The table flags decide on the lower-cased input alone. */
  lemma TablesIgnoreCase(s: string)
    ensures ParseEncoder(ToLower(s)) == ParseEncoder(s)
    ensures ParseTimeEncoding(ToLower(s)) == ParseTimeEncoding(s)
    ensures ParseStackLevel(ToLower(s)) == ParseStackLevel(s)
  {
    ToLowerIdempotent(s);
  }

  /** The log level too: a name is folded, and a number has no letters to fold. */
  lemma LevelIgnoresCase(s: string)
    ensures ParseLevel(ToLower(s)) == ParseLevel(s)
  {
    ToLowerIdempotent(s);
    AtoiIgnoresCase(s);
  }

  /** A decimal string is never a level name, so it is read as a number. */
  lemma NumberIsNotLevelName(n: int)
    requires InInt64(n)
    ensures ToLower(FormatInt(n)) !in LevelStrings
  {
    assert IsDigit(FormatInt(n)[0]) || FormatInt(n)[0] == '-';
    NumericTextIsNotLevelName(FormatInt(n));
  }

  /** Positive integers up to 128 select increasingly verbose levels -1 ... -128. */
  lemma VerbosityLevel(n: int)
    requires 1 <= n <= 128
    ensures ParseLevel(FormatInt(n)) == Some((-n) as int8)
  {
    NumberIsNotLevelName(n);
    AtoiFormatInt(n);
  }

  /** Text that starts with a digit or a sign is never a level name. */
  lemma NumericTextIsNotLevelName(s: string)
    requires |s| > 0 && (IsDigit(s[0]) || s[0] == '+' || s[0] == '-')
    ensures ToLower(s) !in LevelStrings
  {
    assert ToLower(s)[0] == s[0];
  }

  /** A positive number up to 128 that Atoi reads selects its negation. */
  lemma NumericLevel(s: string, n: int)
    requires 1 <= n <= 128 && Atoi(s) == Some(n)
    ensures ParseLevel(s) == Some((-n) as int8)
  {
    NumericTextIsNotLevelName(s);
  }

  /** Leading zeros and an explicit '+' keep the verbosity: "+005" selects -5. */
  lemma PaddedVerbosityLevel(k: nat, n: int)
    requires 1 <= n <= 128
    ensures ParseLevel(Zeros(k) + Digits(n)) == Some((-n) as int8)
    ensures ParseLevel("+" + Zeros(k) + Digits(n)) == Some((-n) as int8)
  {
    AtoiLeadingZeros(k, n);
    NumericLevel(Zeros(k) + Digits(n), n);
    NumericLevel("+" + Zeros(k) + Digits(n), n);
  }

  lemma PaddedLevelExample()
    ensures ParseLevel("+005") == Some(-5)
  {
    PaddedVerbosityLevel(2, 5);
    assert "+" + Zeros(2) + Digits(5) == "+005";
  }

  /** Beyond 128 the int8 conversion wraps: the selected level is no longer -n. */
  lemma VerbosityWraps(n: int)
    requires 128 < n <= MaxInt64
    ensures ParseLevel(FormatInt(n)) == Some(ToInt8(-n))
    ensures ToInt8(-n) as int != -n
  {
    NumberIsNotLevelName(n);
    AtoiFormatInt(n);
  }

  /** Zero and negative integers are rejected. */
  lemma NonPositiveLevelRejected(n: int)
    requires MinInt64 <= n <= 0
    ensures ParseLevel(FormatInt(n)) == None
  {
    NumberIsNotLevelName(n);
    AtoiFormatInt(n);
  }

  /** Instances of the wrap: "129" selects 127 ... */
  lemma WrapTo127()
    ensures ParseLevel("129") == Some(127)
  {
    assert FormatInt(129) == "129";
    VerbosityWraps(129);
  }

  /** ... "256" selects Info ... */
  lemma WrapToInfo()
    ensures ParseLevel("256") == Some(InfoLevel)
  {
    assert FormatInt(256) == "256";
    VerbosityWraps(256);
  }

  /** ... and "257" selects Debug. */
  lemma WrapToDebug()
    ensures ParseLevel("257") == Some(DebugLevel)
  {
    assert FormatInt(257) == "257";
    VerbosityWraps(257);
  }

  /** Every stacktrace level is also a log level, with the same value; "debug" is only a log level. */
  lemma StackLevelsAreLogLevels(s: string)
    ensures ParseStackLevel(s).Some? ==> ParseLevel(s) == ParseStackLevel(s)
    ensures ToLower(s) == "debug" ==> ParseStackLevel(s) == None && ParseLevel(s) == Some(DebugLevel)
  {
  }

  /** Capital I with dot above folds to 'i', so it stands for 'i' in the level names ... */
  lemma DottedCapitalIFolds()
    ensures ParseLevel("\U{0130}NFO") == Some(InfoLevel)
    ensures ParseStackLevel("PAN\U{0130}C") == Some(PanicLevel)
  {
    assert ToLower("\U{0130}NFO") == "info";
    assert ToLower("PAN\U{0130}C") == "panic";
  }

  /** ... and in the time encoding names. */
  lemma DottedCapitalIFoldsInTimeEncodings()
    ensures ParseTimeEncoding("\U{0130}SO8601") == Some(ISO8601)
    ensures ParseTimeEncoding("M\U{0130}LL\U{0130}S") == Some(EpochMillis)
  {
    assert ToLower("\U{0130}SO8601") == "iso8601";
    assert ToLower("M\U{0130}LL\U{0130}S") == "millis";
  }

  /** The help text's "nano" is not an accepted time encoding; "nanos" is. */
  lemma NanoIsRejected()
    ensures ParseTimeEncoding("nano") == None
    ensures ParseTimeEncoding("NANOS") == Some(EpochNanos)
  {
    assert ToLower("nano") == "nano";
    assert ToLower("NANOS") == "nanos";
  }

  // ---------------------------------------------------------------------
  // The flag values

  /** The errors Set returns; each carries the rejected input. */
  datatype FlagError =
    | InvalidEncoderValue(input: string)
    | InvalidLogLevel(input: string)
    | InvalidStacktraceLevel(input: string)
    | InvalidTimeEncodingValue(input: string)
  {
    /** The error text, as fmt.Errorf formats it: a fixed prefix, then the rejected input in double quotes. */
    function Message(): (m: string)
      ensures |m| >= |input| + 10 && m[..8] == "invalid "
      ensures m[|m| - |input| - 2] == '"' && m[|m| - |input| - 1..|m| - 1] == input && m[|m| - 1] == '"'
    {
      match this
      case InvalidEncoderValue(v) => "invalid encoder value \"" + v + "\""
      case InvalidLogLevel(v) => "invalid log level \"" + v + "\""
      case InvalidStacktraceLevel(v) => "invalid stacktrace level \"" + v + "\""
      case InvalidTimeEncodingValue(v) => "invalid time-encoding value \"" + v + "\""
    }
  }

  /** encoderFlag */
  class EncoderFlag {
    var value: string
    var applied: seq<Encoder>

    constructor ()
      ensures value == "" && applied == []
    {
      value := "";
      applied := [];
    }

    /** The text of the last accepted Set, or "" before any. */
    function String(): (text: string)
      reads this
      ensures text == value
    {
      value
    }

    function Type(): (name: string)
      ensures name == "encoder"
    {
      "encoder"
    }

    method Set(flagValue: string) returns (err: Option<FlagError>)
      modifies this
      ensures err.None? <==> ParseEncoder(flagValue).Some?
      ensures err.Some? ==> err.value == InvalidEncoderValue(flagValue)
                            && value == old(value) && applied == old(applied)
      ensures err.None? ==> value == flagValue && String() == flagValue
                            && applied == old(applied) + [ParseEncoder(flagValue).value]
    {
      var val := ToLower(flagValue);
      if val == "json" {
        applied := applied + [JSON];
      } else if val == "console" {
        applied := applied + [Console];
      } else {
        return Some(InvalidEncoderValue(flagValue));
      }
      value := flagValue;
      return None;
    }
  }

  /** levelFlag */
  class LevelFlag {
    var value: string
    var applied: seq<int8>

    constructor ()
      ensures value == "" && applied == []
    {
      value := "";
      applied := [];
    }

    /** The text of the last accepted Set, or "" before any. */
    function String(): (text: string)
      reads this
      ensures text == value
    {
      value
    }

    function Type(): (name: string)
      ensures name == "level"
    {
      "level"
    }

    method Set(flagValue: string) returns (err: Option<FlagError>)
      modifies this
      ensures err.None? <==> ParseLevel(flagValue).Some?
      ensures err.Some? ==> err.value == InvalidLogLevel(flagValue)
                            && value == old(value) && applied == old(applied)
      ensures err.None? ==> value == flagValue && String() == flagValue
                            && applied == old(applied) + [ParseLevel(flagValue).value]
    {
      var lower := ToLower(flagValue);
      if lower !in LevelStrings {
        var logLevel := Atoi(flagValue);
        if logLevel.None? {
          return Some(InvalidLogLevel(flagValue));
        }
        if logLevel.value > 0 {
          var intLevel := -1 * logLevel.value;
          applied := applied + [ToInt8(intLevel)];
        } else {
          return Some(InvalidLogLevel(flagValue));
        }
      } else {
        applied := applied + [LevelStrings[lower]];
      }
      value := flagValue;
      return None;
    }
  }

  /** stackTraceFlag */
  class StackTraceFlag {
    var value: string
    var applied: seq<int8>

    constructor ()
      ensures value == "" && applied == []
    {
      value := "";
      applied := [];
    }

    /** The text of the last accepted Set, or "" before any. */
    function String(): (text: string)
      reads this
      ensures text == value
    {
      value
    }

    function Type(): (name: string)
      ensures name == "level"
    {
      "level"
    }

    method Set(flagValue: string) returns (err: Option<FlagError>)
      modifies this
      ensures err.None? <==> ParseStackLevel(flagValue).Some?
      ensures err.Some? ==> err.value == InvalidStacktraceLevel(flagValue)
                            && value == old(value) && applied == old(applied)
      ensures err.None? ==> value == flagValue && String() == flagValue
                            && applied == old(applied) + [ParseStackLevel(flagValue).value]
    {
      var lower := ToLower(flagValue);
      if lower !in StackLevelStrings {
        return Some(InvalidStacktraceLevel(flagValue));
      }
      applied := applied + [StackLevelStrings[lower]];
      value := flagValue;
      return None;
    }
  }

  /** timeEncodingFlag */
  class TimeEncodingFlag {
    var value: string
    var applied: seq<TimeEncoding>

    constructor ()
      ensures value == "" && applied == []
    {
      value := "";
      applied := [];
    }

    /** The text of the last accepted Set, or "" before any. */
    function String(): (text: string)
      reads this
      ensures text == value
    {
      value
    }

    function Type(): (name: string)
      ensures name == "time-encoding"
    {
      "time-encoding"
    }

    method Set(flagValue: string) returns (err: Option<FlagError>)
      modifies this
      ensures err.None? <==> ParseTimeEncoding(flagValue).Some?
      ensures err.Some? ==> err.value == InvalidTimeEncodingValue(flagValue)
                            && value == old(value) && applied == old(applied)
      ensures err.None? ==> value == flagValue && String() == flagValue
                            && applied == old(applied) + [ParseTimeEncoding(flagValue).value]
    {
      var val := ToLower(flagValue);
      if val == "rfc3339nano" {
        applied := applied + [RFC3339Nano];
      } else if val == "rfc3339" {
        applied := applied + [RFC3339];
      } else if val == "iso8601" {
        applied := applied + [ISO8601];
      } else if val == "millis" {
        applied := applied + [EpochMillis];
      } else if val == "nanos" {
        applied := applied + [EpochNanos];
      } else if val == "epoch" {
        applied := applied + [Epoch];
      } else {
        return Some(InvalidTimeEncodingValue(flagValue));
      }
      value := flagValue;
      return None;
    }
  }
}
