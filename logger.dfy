/**
 The process-wide structured logger's configuration: the table of canonical level labels and
 the `formatters.level` function built on it, the minimum level and the pretty transport chosen
 from the environment, and pino's rule that a record is written only at or above that minimum.
 */
module Logger {
  import opened Wrappers
  import opened JsText
  import opened EnvConfig

  /** pino's six default levels, least severe first. */
  datatype Level = Trace | Debug | Info | Warn | Error | Fatal

  /** The position of a level in the order trace < debug < info < warn < error < fatal. */
  function Severity(l: Level): nat
  {
    match l
    case Trace => 0
    case Debug => 1
    case Info => 2
    case Warn => 3
    case Error => 4
    case Fatal => 5
  }

  /** A level's label, as pino passes it to `formatters.level`. */
  function LevelName(l: Level): string
  {
    match l
    case Trace => "trace"
    case Debug => "debug"
    case Info => "info"
    case Warn => "warn"
    case Error => "error"
    case Fatal => "fatal"
  }

  /** The own properties of `LOG_LEVELS`: each label mapped to its canonical upper-case name. */
  const LOG_LEVELS: map<string, string> :=
    map["trace" := "TRACE", "debug" := "DEBUG", "info" := "INFO",
        "warn" := "WARN", "error" := "ERROR", "fatal" := "FATAL"]

  /** The table's keys are exactly the six level labels. */
  lemma LogLevelsKeys()
    ensures forall l: Level :: LevelName(l) in LOG_LEVELS
    ensures forall k :: k in LOG_LEVELS ==> exists l: Level :: LevelName(l) == k
  {
    forall k | k in LOG_LEVELS
      ensures exists l: Level :: LevelName(l) == k
    {
      var l :=
        if k == "trace" then Trace else if k == "debug" then Debug else if k == "info" then Info
        else if k == "warn" then Warn else if k == "error" then Error else Fatal;
      assert LevelName(l) == k;
    }
  }

  /** Every entry of `LOG_LEVELS` is its key upper-cased, so the table agrees with the fallback. */
  lemma LogLevelsAreUpperCase()
    ensures forall k :: k in LOG_LEVELS ==> LOG_LEVELS[k] == ToUpperCase(k)
  {
  }

  /** No inherited member of Object.prototype shares its name with a table entry. */
  lemma PrototypeKeysOutsideTable()
    ensures forall k :: k in OBJECT_PROTOTYPE_KEYS ==> k !in LOG_LEVELS
  {
  }

  /** The object `formatters.level` returns: the raw label and its canonical name. */
  datatype LevelFields = LevelFields(level: string, levelLabel: string)

  /**
   `formatters.level` with the table consulted for its own properties only: a known label gets
   its table entry, any other label its upper-cased self.
   */
  function FormatLevel(name: string): (r: LevelFields)
    ensures r.level == name
    ensures name in LOG_LEVELS ==> r.levelLabel == LOG_LEVELS[name]
    ensures r.levelLabel == ToUpperCase(name)
  {
    LogLevelsAreUpperCase();
    LevelFields(name, if name in LOG_LEVELS && LOG_LEVELS[name] != "" then LOG_LEVELS[name]
                       else ToUpperCase(name))
  }

  /** Each of the six levels is labelled with its canonical upper-case name. */
  lemma FormatKnownLevel(l: Level)
    ensures FormatLevel(LevelName(l)).levelLabel ==
            match l
            case Trace => "TRACE"
            case Debug => "DEBUG"
            case Info => "INFO"
            case Warn => "WARN"
            case Error => "ERROR"
            case Fatal => "FATAL"
  {
    LogLevelsAreUpperCase();
  }

  /**
   The names every plain JavaScript object inherits from Object.prototype
   (ECMAScript 2024, section 20.1.3 and Annex B.2.2).
   */
  const OBJECT_PROTOTYPE_KEYS: set<string> :=
    {"constructor", "hasOwnProperty", "isPrototypeOf", "propertyIsEnumerable",
     "toLocaleString", "toString", "valueOf", "__proto__",
     "__defineGetter__", "__defineSetter__", "__lookupGetter__", "__lookupSetter__"}

  /** A JavaScript value that a property lookup on `LOG_LEVELS` can produce. */
  datatype JsValue = JsString(s: string) | JsInherited(name: string)

  /** `LOG_LEVELS[level]`: an own property, else an inherited member, else undefined. */
  function LookupLogLevels(name: string): (r: Option<JsValue>)
    ensures r.Some? <==> name in LOG_LEVELS || name in OBJECT_PROTOTYPE_KEYS
    ensures name in LOG_LEVELS ==> r == Some(JsString(LOG_LEVELS[name]))
    ensures name !in LOG_LEVELS && name in OBJECT_PROTOTYPE_KEYS ==> r == Some(JsInherited(name))
  {
    if name in LOG_LEVELS then Some(JsString(LOG_LEVELS[name]))
    else if name in OBJECT_PROTOTYPE_KEYS then Some(JsInherited(name))
    else None
  }

  /** JavaScript truthiness; every inherited member of Object.prototype is a function or an object. */
  predicate Truthy(v: Option<JsValue>)
  {
    match v
    case None => false
    case Some(JsString(s)) => s != ""
    case Some(JsInherited(_)) => true
  }

  /** What `formatters.level` returns as written. */
  datatype RawLevelFields = RawLevelFields(level: string, levelLabel: JsValue)

  /** `formatters.level` as written: `LOG_LEVELS[level] || label.toUpperCase()`. */
  function FormatLevelAsWritten(name: string): (r: RawLevelFields)
    ensures r.level == name
    ensures name !in OBJECT_PROTOTYPE_KEYS ==> r.levelLabel == JsString(ToUpperCase(name))
    ensures name in OBJECT_PROTOTYPE_KEYS ==> r.levelLabel == JsInherited(name)
  {
    LogLevelsAreUpperCase();
    PrototypeKeysOutsideTable();
    var hit := LookupLogLevels(name);
    RawLevelFields(name, if Truthy(hit) then hit.value else JsString(ToUpperCase(name)))
  }

  /** Off the prototype's names, the code as written agrees with FormatLevel. */
  lemma AsWrittenAgreesWithFormatLevel(name: string)
    requires name !in OBJECT_PROTOTYPE_KEYS
    ensures FormatLevelAsWritten(name).levelLabel == JsString(FormatLevel(name).levelLabel)
  {
  }

  /** The label "constructor" is not upper-cased: the lookup finds Object's constructor. */
  lemma ConstructorLabelNotUpperCased()
    ensures FormatLevelAsWritten("constructor").levelLabel != JsString("CONSTRUCTOR")
    ensures FormatLevel("constructor").levelLabel == "CONSTRUCTOR"
  {
  }

  /** The minimum level: "info" in production, "debug" otherwise. */
  function MinLevel(env: Env): (l: Level)
    ensures l == Info <==> env.IsProduction()
    ensures l == Debug <==> !env.IsProduction()
  {
    if env.IsProduction() then Info else Debug
  }

  /** The pino-pretty transport's settings. */
  datatype PrettyTransport = PrettyTransport(
    target: string, colorize: bool, translateTime: string, ignore: string,
    messageFormat: string, levelFirst: bool)

  const PRETTY: PrettyTransport := PrettyTransport(
    "pino-pretty", true, "SYS:standard", "pid,hostname",
    "{if msg === \"request completed\"}{req.method} {req.url} {res.statusCode} {responseTime}ms{else}{msg}{end}",
    true)

  /** The transport: pino-pretty outside production, pino's default destination in production. */
  function Transport(env: Env): (t: Option<PrettyTransport>)
    ensures t.Some? <==> !env.IsProduction()
    ensures t.Some? ==> t.value.target == "pino-pretty" && t.value.ignore == "pid,hostname"
  {
    if env.IsProduction() then None else Some(PRETTY)
  }

  /** Pretty, human-readable output goes together with debug verbosity. */
  lemma PrettyExactlyWhenDebug(env: Env)
    ensures Transport(env).Some? <==> MinLevel(env) == Debug
  {
  }

  /** pino writes a record only when its level is at or above the minimum. */
  predicate Enabled(min: Level, l: Level)
  {
    Severity(l) >= Severity(min)
  }

  /** In production debug records are dropped and info records kept; elsewhere debug is kept too. */
  lemma EnabledByEnvironment(env: Env, l: Level)
    ensures Enabled(MinLevel(env), l) <==> Severity(l) >= (if env.IsProduction() then 2 else 1)
  {
  }

  /** The value of one field of a record's merging object. */
  datatype FieldValue = Number(n: int) | Text(s: string)

  /** One call of `logger.<level>(fields, msg)`. */
  datatype LogRecord = LogRecord(level: Level, fields: map<string, FieldValue>, msg: string)

  /** The records of a sequence of logger calls that pino writes out, in order. */
  function Emitted(min: Level, log: seq<LogRecord>): (r: seq<LogRecord>)
    ensures |r| <= |log|
    ensures forall x :: x in r <==> x in log && Enabled(min, x.level)
  {
    if log == [] then []
    else (if Enabled(min, log[0].level) then [log[0]] else []) + Emitted(min, log[1..])
  }

  /**
   Filtering keeps the order of the calls: the records written for two runs of calls, one
   after the other, are those of the first run followed by those of the second.
   */
  lemma {:induction false} EmittedConcat(min: Level, a: seq<LogRecord>, b: seq<LogRecord>)
    ensures Emitted(min, a + b) == Emitted(min, a) + Emitted(min, b)
  {
    if a != [] {
      assert (a + b)[1..] == a[1..] + b;
      EmittedConcat(min, a[1..], b);
    } else {
      assert a + b == b;
    }
  }

  /** A single call is written exactly when its level is enabled, and then once. */
  lemma EmittedSingle(min: Level, x: LogRecord)
    ensures Emitted(min, [x]) == if Enabled(min, x.level) then [x] else []
  {
  }
}
