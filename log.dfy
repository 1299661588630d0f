/** The node's logger: a level filter over four named levels, a fixed line
    format, and two append-only files in one logs folder, `vfunctions.log`
    for every line written and `error.log` for errors and warnings. */
module Logging {
  import opened Runtime

  /** The rank of each level; a higher rank is more verbose. */
  const LEVELS: map<string, nat> := map["error" := 0, "warn" := 1, "info" := 2, "debug" := 3]

  /** Width every printed level is padded to: the length of "DEBUG". */
  const LEVEL_WIDTH: nat := 5

  /** The options object a Logger may be built with; `debug` and `quiet`
      stand for the truthiness of those fields. */
  datatype Options = Options(eol: JsValue, labelValue: JsValue, level: JsValue, debug: bool, quiet: bool)

  /** `LEVELS[v]`: a number for a listed level, `undefined` for any other
      key. Keys inherited from the object prototype (`toString`, ...) give
      non-numbers whose comparisons are all false, exactly as `undefined`. */
  function Rank(v: JsValue): (r: Option<nat>)
    ensures r.Some? <==> v.Str? && v.s in LEVELS
    ensures r.Some? ==> r.value <= LEVELS["debug"]
    ensures v == Str("error") ==> r == Some(0)
    ensures v == Str("debug") ==> r == Some(3)
  {
    if v.Str? && v.s in LEVELS then Some(LEVELS[v.s]) else None
  }

  // ---------------------------------------------------------------------
  // Resolution of the constructor's options

  /** `_EOL`: the options' EOL unless it is nullish, "\n" without options. */
  function ResolveEol(opts: Option<Options>): (eol: string)
    ensures opts.Some? && opts.value.eol.Str? ==> eol == opts.value.eol.s
    ensures !(opts.Some? && opts.value.eol.Str?) ==> eol == "\n"
  {
    if opts.Some? && opts.value.eol.Str? then opts.value.eol.s else "\n"
  }

  /** `_label`: the options' label as given (possibly `undefined`), `null`
      without options. */
  function ResolveLabel(opts: Option<Options>): (labelValue: JsValue)
    ensures labelValue == Null <==> opts.None? || opts.value.labelValue == Null
    ensures opts.Some? ==> labelValue == opts.value.labelValue
  {
    if opts.Some? then opts.value.labelValue else Null
  }

  /** `_level` after the constructor: the options' level unless it is
      strictly `null`, in which case `debug`, then `quiet`, decide it;
      `null` without options. */
  function ResolveLevel(opts: Option<Options>): (level: JsValue)
    ensures level == Null <==> opts.None?
    ensures opts.Some? && opts.value.level != Null ==> level == opts.value.level
    ensures opts.Some? && opts.value.level == Null ==>
              level == Str(if opts.value.debug then "debug" else if opts.value.quiet then "error" else "info")
  {
    if opts.None? then Null
    else if opts.value.level == Null then
      Str(if opts.value.debug then "debug" else if opts.value.quiet then "error" else "info")
    else opts.value.level
  }

  /** What `label()` returns for a stored label. */
  function EffectiveLabel(labelValue: JsValue): (r: JsValue)
    ensures r != Null
    ensures labelValue != Null ==> r == labelValue
    ensures labelValue == Null ==> Render(r) == "default"
  {
    if labelValue == Null then Str("default") else labelValue
  }

  /** What `level()` returns for a stored level. */
  function EffectiveLevel(level: JsValue): (r: JsValue)
    ensures r != Null
    ensures level != Null ==> r == level
    ensures level == Null ==> r == Str("info")
  {
    if level == Null then Str("info") else level
  }

  // ---------------------------------------------------------------------
  // Filter and routing

  /** `print` returns early: the level is listed and its rank is greater
      than the rank of the current level (a comparison with `undefined` is
      false). */
  function Dropped(level: string, current: JsValue): (dropped: bool)
    ensures dropped ==> level in LEVELS && level != "error"
    ensures dropped ==> current.Str? && current.s in LEVELS && current.s != "debug"
  {
    Rank(Str(level)).Some? && Rank(current).Some? && Rank(Str(level)).value > Rank(current).value
  }

  /** The line also goes to `error.log`: `LEVELS[level] <= LEVELS['warn']`. */
  function ToErrorLog(level: string): (r: bool)
    ensures r <==> level == "error" || level == "warn"
  {
    Rank(Str(level)).Some? && Rank(Str(level)).value <= LEVELS["warn"]
  }

  // ---------------------------------------------------------------------
  // Line format

  function UpperChar(c: char): char
  {
    if 'a' <= c <= 'z' then (c as int - 32) as char else c
  }

  /** `toUpperCase` on ASCII text. */
  function Upper(s: string): (r: string)
    ensures |r| == |s|
    ensures forall i :: 0 <= i < |s| ==> r[i] == UpperChar(s[i])
  {
    if s == [] then [] else [UpperChar(s[0])] + Upper(s[1..])
  }

  function Spaces(n: nat): (r: string)
    ensures |r| == n
    ensures forall i :: 0 <= i < n ==> r[i] == ' '
  {
    if n == 0 then "" else " " + Spaces(n - 1)
  }

  /** `level.toUpperCase().padStart(5, ' ')`. */
  function PadLevel(level: string): (r: string)
    ensures |r| == if |level| < LEVEL_WIDTH then LEVEL_WIDTH else |level|
    ensures r[|r| - |level|..] == Upper(level)
    ensures forall i :: 0 <= i < |r| - |level| ==> r[i] == ' '
  {
    var u := Upper(level);
    if |u| < LEVEL_WIDTH then Spaces(LEVEL_WIDTH - |u|) + u else u
  }

  /** `${timestamp} [${label}] ${padLevel}: ${message}`. */
  function Line(timestamp: string, labelValue: JsValue, level: string, message: string): (r: string)
    ensures |r| == |timestamp| + |Render(labelValue)| + |PadLevel(level)| + |message| + 6
    ensures r[..|timestamp|] == timestamp
    ensures r[|timestamp|..|timestamp| + 2] == " ["
    ensures r[|timestamp| + 2..|timestamp| + 2 + |Render(labelValue)|] == Render(labelValue)
    ensures r[|timestamp| + 2 + |Render(labelValue)|..|r| - |message|] == "] " + PadLevel(level) + ": "
    ensures r[|r| - |message|..] == message
  {
    timestamp + " [" + Render(labelValue) + "] " + PadLevel(level) + ": " + message
  }

  // ---------------------------------------------------------------------
  // Properties of the filter

  /** Levels that are not keys of LEVELS always pass the filter. */
  lemma UnlistedLevelsNeverDropped(level: string, current: JsValue)
    requires level !in LEVELS
    ensures !Dropped(level, current)
  {
  }

  /** A current level that is not a key of LEVELS (`undefined`, say) lets
      every message through. */
  lemma UnlistedCurrentDropsNothing(level: string, current: JsValue)
    requires !(current.Str? && current.s in LEVELS)
    ensures !Dropped(level, current)
  {
  }

  /** With a listed current level, a listed message level is dropped
      exactly when it is more verbose. */
  lemma DroppedIffMoreVerbose(level: string, current: string)
    requires level in LEVELS && current in LEVELS
    ensures Dropped(level, Str(current)) <==> LEVELS[level] > LEVELS[current]
  {
  }

  /** A more verbose current level keeps everything a less verbose one keeps. */
  lemma KeptMonotone(level: string, current: string, wider: string)
    requires current in LEVELS && wider in LEVELS && LEVELS[current] <= LEVELS[wider]
    requires !Dropped(level, Str(current))
    ensures !Dropped(level, Str(wider))
  {
  }

  /** The default `info` current level drops only `debug` among the listed levels. */
  lemma DefaultDropsOnlyDebug(level: string)
    ensures Dropped(level, EffectiveLevel(Null)) <==> level == "debug"
  {
  }

  /** Resolution never yields `null` once options are given, and the
      fallback only ever picks a listed level. */
  lemma FallbackPicksListedLevel(opts: Options)
    requires opts.level == Null
    ensures ResolveLevel(Some(opts)).Str? && ResolveLevel(Some(opts)).s in LEVELS
  {
  }

  /** An options object without a level (`undefined`, which is not `null`)
      skips the debug/quiet fallback entirely, so the logger never filters. */
  lemma UndefinedLevelDisablesFilter(opts: Options, level: string)
    requires opts.level == Undefined
    ensures ResolveLevel(Some(opts)) == Undefined
    ensures !Dropped(level, EffectiveLevel(ResolveLevel(Some(opts))))
  {
  }

  /** Every listed level is at most as wide as the padded column. */
  lemma ListedLevelsFit(level: string)
    requires level in LEVELS
    ensures |level| <= LEVEL_WIDTH
  {
    if level != "error" && level != "warn" && level != "info" {
      assert level == "debug";
    }
  }

  /** A level no wider than the column is right-aligned in it, so the
      listed levels line up: "ERROR", " WARN", " INFO", "DEBUG". */
  lemma PadFillsWidth(level: string)
    requires |level| <= LEVEL_WIDTH
    ensures |PadLevel(level)| == LEVEL_WIDTH
    ensures PadLevel(level) == Spaces(LEVEL_WIDTH - |level|) + Upper(level)
  {
    if |level| == LEVEL_WIDTH {
      assert Spaces(0) + Upper(level) == Upper(level);
    }
  }

  // ---------------------------------------------------------------------
  // The logs folder and its two files, shared by every Logger.

  class LogFiles {
    const path: string
    var present: bool
    /** Every string appended to `<path>/vfunctions.log`, in order. */
    var vfunctions: seq<string>
    /** Every string appended to `<path>/error.log`, in order. */
    var errors: seq<string>

    constructor (path: string, present: bool)
      ensures this.path == path && this.present == present
      ensures vfunctions == [] && errors == []
    {
      this.path := path;
      this.present := present;
      vfunctions := [];
      errors := [];
    }
  }

  class Logger {
    const files: LogFiles
    const eol: string
    const labelValue: JsValue
    const level: JsValue

    /** `label()`. */
    function Label(): (r: JsValue)
      ensures r != Null
      ensures labelValue != Null ==> r == labelValue
      ensures labelValue == Null ==> r == Str("default")
    {
      EffectiveLabel(labelValue)
    }

    /** `level()`. */
    function Level(): (r: JsValue)
      ensures r != Null
      ensures level != Null ==> r == level
      ensures level == Null ==> r == Str("info")
    {
      EffectiveLevel(level)
    }

    /** The entries one `print(level, message)` appends to `vfunctions.log`. */
    function Emit(level: string, message: string, timestamp: string): (r: seq<string>)
      ensures |r| <= 1
      ensures r == [] <==> Dropped(level, Level())
      ensures r != [] ==> |r[0]| >= |timestamp| + |message| + |eol| + 6
      ensures r != [] ==> r[0][..|timestamp|] == timestamp
      ensures r != [] ==> r[0][|r[0]| - |eol|..] == eol
      ensures r != [] ==> r[0][|r[0]| - |eol| - |message|..|r[0]| - |eol|] == message
    {
      if Dropped(level, Level()) then [] else [Line(timestamp, Label(), level, message) + eol]
    }

    /** The entries one `print(level, message)` appends to `error.log`. */
    function EmitError(level: string, message: string, timestamp: string): (r: seq<string>)
      ensures level == "error" || level == "warn" ==> r == Emit(level, message, timestamp)
      ensures level != "error" && level != "warn" ==> r == []
      ensures level == "error" ==> |r| == 1
    {
      if ToErrorLog(level) then Emit(level, message, timestamp) else []
    }

    constructor (opts: Option<Options>, files: LogFiles, timestamp: string)
      modifies files
      ensures this.files == files
      ensures eol == ResolveEol(opts) && labelValue == ResolveLabel(opts) && level == ResolveLevel(opts)
      ensures files.present
      ensures files.vfunctions == old(files.vfunctions) +
                (if old(files.present) then [] else Emit("debug", "Created logs folder at " + files.path, timestamp))
      ensures files.errors == old(files.errors)
    {
      this.files := files;
      eol := if opts.Some? && opts.value.eol.Str? then opts.value.eol.s else "\n";
      labelValue := if opts.Some? then opts.value.labelValue else Null;
      var resolved := if opts.Some? then opts.value.level else Null;
      if opts.Some? && resolved == Null {
        resolved := if opts.value.debug then Str("debug") else if opts.value.quiet then Str("error") else Str("info");
      }
      level := resolved;
      new;
      if !files.present {
        files.present := true;
        Debug("Created logs folder at " + files.path, timestamp);
      }
    }

    /** `print(level, message)`: nothing when the filter drops the level;
        otherwise the formatted line and EOL go to `vfunctions.log`, and to
        `error.log` as well for errors and warnings. */
    method Print(level: string, message: string, timestamp: string)
      modifies files
      ensures files.present == old(files.present)
      ensures Dropped(level, Level()) ==> files.vfunctions == old(files.vfunctions) && files.errors == old(files.errors)
      ensures !Dropped(level, Level()) ==>
                files.vfunctions == old(files.vfunctions) + [Line(timestamp, Label(), level, message) + eol]
      ensures !Dropped(level, Level()) ==>
                files.errors == old(files.errors) + (if level == "error" || level == "warn" then [Line(timestamp, Label(), level, message) + eol] else [])
    {
      if Dropped(level, Level()) {
        return;
      }
      var line := Line(timestamp, Label(), level, message) + eol;
      files.vfunctions := files.vfunctions + [line];
      if ToErrorLog(level) {
        files.errors := files.errors + [line];
      }
    }

    method Log(message: string, timestamp: string)
      modifies files
      ensures files.present == old(files.present)
      ensures files.vfunctions == old(files.vfunctions) + Emit("info", message, timestamp)
      ensures files.errors == old(files.errors)
    {
      Print("info", message, timestamp);
    }

    method Info(message: string, timestamp: string)
      modifies files
      ensures files.present == old(files.present)
      ensures files.vfunctions == old(files.vfunctions) + Emit("info", message, timestamp)
      ensures files.errors == old(files.errors)
    {
      Print("info", message, timestamp);
    }

    method Warn(message: string, timestamp: string)
      modifies files
      ensures files.present == old(files.present)
      ensures files.vfunctions == old(files.vfunctions) + Emit("warn", message, timestamp)
      ensures files.errors == old(files.errors) + Emit("warn", message, timestamp)
    {
      Print("warn", message, timestamp);
    }

    method Error(message: string, timestamp: string)
      modifies files
      ensures files.present == old(files.present)
      ensures files.vfunctions == old(files.vfunctions) + Emit("error", message, timestamp)
      ensures files.errors == old(files.errors) + Emit("error", message, timestamp)
    {
      Print("error", message, timestamp);
    }

    method Debug(message: string, timestamp: string)
      modifies files
      ensures files.present == old(files.present)
      ensures files.vfunctions == old(files.vfunctions) + Emit("debug", message, timestamp)
      ensures files.errors == old(files.errors)
    {
      Print("debug", message, timestamp);
    }
  }

  /** A logger built without a level writes every line it is given. */
  lemma UnfilteredEmit(logger: Logger, level: string, message: string, timestamp: string)
    requires logger.level == Undefined
    ensures logger.Emit(level, message, timestamp) == [Line(timestamp, logger.Label(), level, message) + logger.eol]
  {
    UnlistedCurrentDropsNothing(level, logger.Level());
  }

  /** An error is never filtered out, whatever the logger's level. */
  lemma ErrorsAlwaysWritten(logger: Logger, message: string, timestamp: string)
    ensures |logger.Emit("error", message, timestamp)| == 1
    ensures logger.EmitError("error", message, timestamp) == logger.Emit("error", message, timestamp)
  {
  }
}
