/** The centralised `Logger` utility: level gating, delivery to the logging service
    with a fall-back to local log files, and the local timestamp format.
    The environment, the clock, the HTTP outcome and the file-system faults are inputs;
    the file system, the console and the logging service are recorded in a `World`. */
module LogUtil {
  import opened Wrappers
  import opened Text
  import opened Metadata
  import Json

  // ---- Configuration (the constructor's field initialisers) ----

  function Env(env: map<string, string>, name: string): Option<string> {
    if name in env then Some(env[name]) else None
  }

  /** `a || b` on a possibly-undefined string: the empty string is falsy too. */
  function Or(a: Option<string>, b: string): string {
    if a.Some? && a.value != "" then a.value else b
  }

  /** The constructor's `options` argument; absent properties are `None`. */
  datatype LoggerOptions = LoggerOptions(
    serviceName: Option<string>,
    enableLocalLogging: Option<bool>,
    logDir: Option<string>)

  datatype LoggerConfig = LoggerConfig(
    loggingServiceUrl: string,
    logLevel: string,
    timestampFormat: string,
    serviceName: string,
    enableLocalLogging: bool,
    logDir: string,
    currentLevel: nat)

  /** `this.levels[name]`: the priority of a level name. */
  function LevelPriority(name: string): (p: Option<nat>)
    ensures p.Some? ==> p.value <= 3
  {
    if name == "error" then Some(0)
    else if name == "warn" then Some(1)
    else if name == "info" then Some(2)
    else if name == "debug" then Some(3)
    else None
  }

  const InfoPriority: nat := 2

  /** `this.levels[level] ?? this.levels.info`: the priority of a message's level;
      an unknown name counts as info. */
  function MessagePriority(level: string): (p: nat)
    ensures p <= 3
    ensures LevelPriority(level).None? ==> p == InfoPriority
    ensures LevelPriority(level).Some? ==> p == LevelPriority(level).value
  {
    LevelPriority(level).GetOr(InfoPriority)
  }

  /** `this.levels[this.logLevel] || this.levels.info`: since `||` also discards the
      priority 0, the threshold is never below 1. */
  function CurrentLevel(logLevel: string): (p: nat)
    ensures 1 <= p <= 3
  {
    match LevelPriority(logLevel)
    case Some(q) => if q != 0 then q else InfoPriority
    case None => InfoPriority
  }

  /** The threshold for every configured level name: warn 1, debug 3, and info for
      everything else, `"error"` included. */
  lemma CurrentLevelCases(logLevel: string)
    ensures CurrentLevel(logLevel)
            == if logLevel == "warn" then 1 else if logLevel == "debug" then 3 else InfoPriority
  {
  }

  /** Configuring `LOG_LEVEL=error` gives the info threshold, as written. */
  lemma ErrorLogLevelMeansInfo()
    ensures LevelPriority("error") == Some(0)
    ensures CurrentLevel("error") == InfoPriority
  {
  }

  function Configure(env: map<string, string>, options: LoggerOptions, cwd: string): (c: LoggerConfig)
    ensures c.enableLocalLogging <==> options.enableLocalLogging != Some(false)
    ensures c.currentLevel == CurrentLevel(c.logLevel)
    ensures c.serviceName != "" && c.logDir != ""
  {
    var level := Or(Env(env, "LOG_LEVEL"), "info");
    LoggerConfig(
      Or(Env(env, "LOGGING_SERVICE_URL"), "http://logging-microservice:3009"),
      level,
      Or(Env(env, "LOG_TIMESTAMP_FORMAT"), "YYYY-MM-DD HH:mm:ss"),
      Or(options.serviceName, Or(Env(env, "SERVICE_NAME"), "e-commerce")),
      options.enableLocalLogging != Some(false),
      Or(options.logDir, cwd + "/logs"),
      CurrentLevel(level))
  }

  /** With nothing configured: the logging service at its container address, info
      threshold, service `e-commerce`, local logging on under `<cwd>/logs`. */
  lemma ConfigureDefaults(cwd: string)
    ensures Configure(map[], LoggerOptions(None, None, None), cwd)
            == LoggerConfig("http://logging-microservice:3009", "info", "YYYY-MM-DD HH:mm:ss",
                            "e-commerce", true, cwd + "/logs", 2)
  {
  }

  /** The service name comes from the options before the environment. */
  lemma ServiceNamePrecedence(env: map<string, string>, options: LoggerOptions, cwd: string)
    ensures options.serviceName.Some? && options.serviceName.value != ""
            ==> Configure(env, options, cwd).serviceName == options.serviceName.value
    ensures (options.serviceName.None? || options.serviceName == Some(""))
            && "SERVICE_NAME" in env && env["SERVICE_NAME"] != ""
            ==> Configure(env, options, cwd).serviceName == env["SERVICE_NAME"]
  {
  }

  // ---- Level gating ----

  /** `log` goes on exactly when the message's priority does not exceed the threshold. */
  predicate Emits(cfg: LoggerConfig, level: string) {
    MessagePriority(level) <= cfg.currentLevel
  }

  /** Whatever is configured, error and warn messages are always emitted; info (and
      any unknown level) is dropped only under `LOG_LEVEL=warn`; debug passes only
      under `LOG_LEVEL=debug`. */
  lemma EmitsByLevel(env: map<string, string>, options: LoggerOptions, cwd: string, level: string)
    ensures var cfg := Configure(env, options, cwd);
      && Emits(cfg, "error") && Emits(cfg, "warn")
      && (Emits(cfg, "debug") <==> Env(env, "LOG_LEVEL") == Some("debug"))
      && (LevelPriority(level).None? || level == "info"
          ==> (Emits(cfg, level) <==> Env(env, "LOG_LEVEL") != Some("warn")))
  {
    var cfg := Configure(env, options, cwd);
    CurrentLevelCases(cfg.logLevel);
  }

  // ---- Timestamps ----

  /** The local calendar fields of `new Date()`; `month` is zero-based as
      `getMonth()` returns it. */
  datatype LocalTime = LocalTime(year: nat, month: nat, day: nat, hours: nat, minutes: nat, seconds: nat)

  predicate ValidTime(t: LocalTime) {
    t.month < 12 && 1 <= t.day <= 31 && t.hours < 24 && t.minutes < 60 && t.seconds < 60
  }

  /** `YYYY-MM-DD HH:mm:ss`: the year as `String` prints it, the others padded to two
      digits, the month shifted by one. */
  function FormatTimestamp(t: LocalTime): string {
    var y := NatToString(t.year);
    var mo, d, h, mi, se := Pad2(t.month + 1), Pad2(t.day), Pad2(t.hours), Pad2(t.minutes), Pad2(t.seconds);
    y + "-" + mo + "-" + d + " " + h + ":" + mi + ":" + se
  }

  /** For a valid time with a four-digit year the text is 19 characters with the
      separators of `YYYY-MM-DD HH:mm:ss` in place. */
  lemma TimestampShape(t: LocalTime)
    requires ValidTime(t) && 1000 <= t.year <= 9999
    ensures var r := FormatTimestamp(t);
      |r| == 19 && r[4] == '-' && r[7] == '-' && r[10] == ' ' && r[13] == ':' && r[16] == ':'
  {
    FourDigitYear(t.year);
    TimestampLayout(NatToString(t.year), Pad2(t.month + 1), Pad2(t.day), Pad2(t.hours), Pad2(t.minutes),
                    Pad2(t.seconds));
  }

  lemma FourDigitYear(year: nat)
    requires 1000 <= year <= 9999
    ensures |NatToString(year)| == 4
  {
    assert |NatToString(year / 1000)| == 1;
    assert |NatToString(year / 100)| == 2 by { assert (year / 100) / 10 == year / 1000; }
    assert |NatToString(year / 10)| == 3 by { assert (year / 10) / 10 == year / 100; }
  }

  /** Where each field and separator of a `YYYY-MM-DD HH:mm:ss` text sits. */
  lemma TimestampLayout(y: string, mo: string, d: string, h: string, mi: string, se: string)
    requires |y| == 4 && |mo| == 2 && |d| == 2 && |h| == 2 && |mi| == 2 && |se| == 2
    ensures var s := y + "-" + mo + "-" + d + " " + h + ":" + mi + ":" + se;
      && |s| == 19 && s[4] == '-' && s[7] == '-' && s[10] == ' ' && s[13] == ':' && s[16] == ':'
      && s[0..4] == y && s[5..7] == mo && s[8..10] == d
      && s[11..13] == h && s[14..16] == mi && s[17..19] == se
  {
    var s := y + "-" + mo + "-" + d + " " + h + ":" + mi + ":" + se;
    assert s[0..4] == y && s[5..7] == mo && s[8..10] == d;
    assert s[11..13] == h && s[14..16] == mi && s[17..19] == se;
  }

  /** Reading a `YYYY-MM-DD HH:mm:ss` timestamp back into its fields. */
  function ParseTimestamp(s: string): Option<LocalTime> {
    if |s| == 19 && s[4] == '-' && s[7] == '-' && s[10] == ' ' && s[13] == ':' && s[16] == ':'
       && AllDigits(s[0..4]) && AllDigits(s[5..7]) && AllDigits(s[8..10])
       && AllDigits(s[11..13]) && AllDigits(s[14..16]) && AllDigits(s[17..19])
       && DigitsValue(s[5..7]) >= 1
    then Some(LocalTime(DigitsValue(s[0..4]), DigitsValue(s[5..7]) - 1, DigitsValue(s[8..10]),
                        DigitsValue(s[11..13]), DigitsValue(s[14..16]), DigitsValue(s[17..19])))
    else None
  }

  /** A timestamp of a four-digit year determines every field it was made from. */
  lemma TimestampRoundTrip(t: LocalTime)
    requires ValidTime(t) && 1000 <= t.year <= 9999
    ensures ParseTimestamp(FormatTimestamp(t)) == Some(t)
  {
    var y := NatToString(t.year);
    var mo, d, h, mi, se := Pad2(t.month + 1), Pad2(t.day), Pad2(t.hours), Pad2(t.minutes), Pad2(t.seconds);
    NatToStringRoundTrip(t.year);
    Pad2RoundTrip(t.month + 1);
    Pad2RoundTrip(t.day);
    Pad2RoundTrip(t.hours);
    Pad2RoundTrip(t.minutes);
    Pad2RoundTrip(t.seconds);
    FourDigitYear(t.year);
    TimestampLayout(y, mo, d, h, mi, se);
  }

  // ---- Delivery to the logging service ----

  /** What the POST to `<loggingServiceUrl>/api/logs` did: a response with a status
      code, a request error, the 5-second timeout, or a URL that does not parse. */
  datatype SendOutcome = Responded(statusCode: int) | RequestError(message: string) | TimedOut | BadUrl(message: string)

  /** The settlement of `sendToLoggingService`. */
  function SendResult(o: SendOutcome): (r: Result<(), string>)
    ensures r.Success? <==> o.Responded? && 200 <= o.statusCode < 300
  {
    match o
    case Responded(code) =>
      if 200 <= code < 300 then Success(()) else Failure("Logging service returned " + IntToString(code))
    case RequestError(m) => Failure(m)
    case TimedOut => Failure("Request timeout")
    case BadUrl(m) => Failure(m)
  }

  predicate Delivered(o: SendOutcome) { SendResult(o).Success? }

  /** The process facts that go into every payload. */
  datatype HostInfo = HostInfo(pid: nat, hostname: string)

  datatype LogData = LogData(level: string, message: string, service: string, timestamp: string, metadata: Entries)

  /** The body of the POST: the caller's metadata with `pid` and `hostname` set. */
  function Payload(cfg: LoggerConfig, host: HostInfo, level: string, message: string,
                   metadata: Entries, now: LocalTime): (d: LogData)
    ensures Lookup(d.metadata, "pid") == Some(NatToString(host.pid))
    ensures Lookup(d.metadata, "hostname") == Some(host.hostname)
    ensures forall k :: k != "pid" && k != "hostname" ==> Lookup(d.metadata, k) == Lookup(metadata, k)
    ensures d.service == cfg.serviceName && d.level == level && d.message == message
  {
    LogData(level, message, cfg.serviceName, FormatTimestamp(now),
            Put(Put(metadata, "pid", NatToString(host.pid)), "hostname", host.hostname))
  }

  // ---- The world the logger acts on ----

  /** One call of `console.log` or `console.error`, with its two arguments; an empty
      `extra` is the `''` the development line passes for empty metadata. */
  datatype ConsoleCall = ConsoleLog(text: string, extra: Entries) | ConsoleError(text: string, detail: string)

  /** Which `appendFileSync` throws, with the error's description. */
  datatype FsFault = NoFault | FirstAppendFails(error: string) | SecondAppendFails(error: string)

  datatype World = World(
    dirs: set<string>,
    files: map<string, string>,
    console: seq<ConsoleCall>,
    posted: seq<LogData>)

  function Content(files: map<string, string>, path: string): string {
    if path in files then files[path] else ""
  }

  /** `fs.appendFileSync(path, line)`. */
  function AppendTo(files: map<string, string>, path: string, line: string): (r: map<string, string>)
    ensures Content(r, path) == Content(files, path) + line
    ensures forall p :: p != path ==> (p in r <==> p in files) && Content(r, p) == Content(files, p)
  {
    files[path := Content(files, path) + line]
  }

  function LevelFile(cfg: LoggerConfig, level: string): string { cfg.logDir + "/" + level + ".log" }

  function AllFile(cfg: LoggerConfig): string { cfg.logDir + "/all.log" }

  /** The level file and the combined file coincide only for the level name `all`. */
  lemma LevelFileIsAllFileIff(cfg: LoggerConfig, level: string)
    ensures LevelFile(cfg, level) == AllFile(cfg) <==> level == "all"
  {
    var a := cfg.logDir + "/";
    assert AllFile(cfg) == a + "all" + ".log";
    if LevelFile(cfg, level) == AllFile(cfg) {
      assert |level| == 3;
      assert level == LevelFile(cfg, level)[|a|..|a| + 3];
      assert "all" == AllFile(cfg)[|a|..|a| + 3];
    }
  }

  /** `JSON.stringify(logEntry)`: keys in the order timestamp, level, service,
      message, metadata; no line feed inside. */
  function EntryJson(timestamp: string, level: string, service: string, message: string, metadata: Entries): (r: string)
    ensures '\n' !in r
  {
    Json.NestedObject([("timestamp", Json.Str(timestamp)), ("level", Json.Str(level)), ("service", Json.Str(service)),
                       ("message", Json.Str(message)), ("metadata", Json.Flat(metadata))])
  }

  /** One line of a local log file: the JSON entry and a line feed. */
  function LogLine(cfg: LoggerConfig, level: string, message: string, metadata: Entries, now: LocalTime): (r: string)
    ensures |r| >= 1 && r[|r| - 1] == '\n' && '\n' !in r[..|r| - 1]
  {
    var entry := EntryJson(FormatTimestamp(now), level, cfg.serviceName, message, metadata);
    assert (entry + "\n")[..|entry|] == entry;
    entry + "\n"
  }

  /** The console output that replaces a failed file write. */
  function Fallback(error: string, line: string): seq<ConsoleCall> {
    [ConsoleError("Failed to write log to file:", error), ConsoleLog(line, [])]
  }

  /** The effect of `writeToLocalFile` once its line has been rendered. */
  function LocalWrite(cfg: LoggerConfig, w: World, level: string, line: string, fault: FsFault): World {
    if !cfg.enableLocalLogging then w
    else
      match fault
      case NoFault => w.(files := AppendTo(AppendTo(w.files, LevelFile(cfg, level), line), AllFile(cfg), line))
      case FirstAppendFails(e) => w.(console := w.console + Fallback(e, line))
      case SecondAppendFails(e) =>
        w.(files := AppendTo(w.files, LevelFile(cfg, level), line), console := w.console + Fallback(e, line))
  }

  /** `level.toUpperCase()` on ASCII letters. */
  function UpperAscii(s: string): (r: string)
    ensures |r| == |s|
    ensures forall k :: 0 <= k < |r| ==> !('a' <= r[k] <= 'z')
    ensures forall k :: 0 <= k < |s| && !('a' <= s[k] <= 'z') ==> r[k] == s[k]
  {
    if |s| == 0 then ""
    else [if 'a' <= s[0] <= 'z' then (s[0] as int - 32) as char else s[0]] + UpperAscii(s[1..])
  }

  /** The development console line. */
  function DevLine(cfg: LoggerConfig, level: string, message: string, metadata: Entries, now: LocalTime): ConsoleCall {
    ConsoleLog("[" + FormatTimestamp(now) + "] [" + UpperAscii(level) + "] [" + cfg.serviceName + "] " + message,
               metadata)
  }

  /** What one `log` call renders: the payload it posts, the line it writes to the
      files when delivery fails, and its development console line. */
  datatype Rendered = Rendered(payload: LogData, line: string, echo: ConsoleCall)

  function Render(cfg: LoggerConfig, host: HostInfo, level: string, message: string, metadata: Entries,
                  now: LocalTime): Rendered
  {
    Rendered(Payload(cfg, host, level, message, metadata, now), LogLine(cfg, level, message, metadata, now),
             DevLine(cfg, level, message, metadata, now))
  }

  /** The effect of `log` with what it renders: gate, attempt delivery, fall back to the
      local files when delivery fails, and echo to the console in development. */
  function AfterLog(cfg: LoggerConfig, w: World, level: string, out: Rendered, send: SendOutcome, fault: FsFault,
                    nodeEnv: Option<string>): World
  {
    if !Emits(cfg, level) then w
    else Echoed(Recorded(cfg, Posted(w, out.payload, send), level, out.line, send, fault), out.echo, nodeEnv)
  }

  /** The POST is made unless the URL does not parse. */
  function Posted(w: World, payload: LogData, send: SendOutcome): World {
    if send.BadUrl? then w else w.(posted := w.posted + [payload])
  }

  /** The local files are the fallback when delivery fails. */
  function Recorded(cfg: LoggerConfig, w: World, level: string, line: string, send: SendOutcome, fault: FsFault): World {
    if Delivered(send) then w else LocalWrite(cfg, w, level, line, fault)
  }

  /** The development echo. */
  function Echoed(w: World, echo: ConsoleCall, nodeEnv: Option<string>): World {
    if nodeEnv == Some("development") then w.(console := w.console + [echo]) else w
  }

  // ---- Properties of the effects ----

  /** A message above the threshold leaves everything as it was. */
  lemma GatedMessageChangesNothing(cfg: LoggerConfig, w: World, level: string, out: Rendered, send: SendOutcome,
                                   fault: FsFault, nodeEnv: Option<string>)
    ensures AfterLog(cfg, w, level, out, send, fault, nodeEnv) == w <== MessagePriority(level) > cfg.currentLevel
  {
  }

  /** The local files change only when delivery failed, and then only when local
      logging is on; the directories never change. */
  lemma LocalFilesOnlyOnFailure(cfg: LoggerConfig, w: World, level: string, out: Rendered, send: SendOutcome,
                                fault: FsFault, nodeEnv: Option<string>)
    ensures var r := AfterLog(cfg, w, level, out, send, fault, nodeEnv);
      r.files != w.files ==> Emits(cfg, level) && !Delivered(send) && cfg.enableLocalLogging
    ensures AfterLog(cfg, w, level, out, send, fault, nodeEnv).dirs == w.dirs
  {
    if Emits(cfg, level) {
      var w1 := if send.BadUrl? then w else w.(posted := w.posted + [out.payload]);
      LocalWriteFrame(cfg, w1, level, out.line, fault);
    }
  }

  /** The local write touches only the files and the console, and the files only with
      local logging on. */
  lemma LocalWriteFrame(cfg: LoggerConfig, w: World, level: string, line: string, fault: FsFault)
    ensures var r := LocalWrite(cfg, w, level, line, fault);
      && r.posted == w.posted && r.dirs == w.dirs
      && (r.files != w.files ==> cfg.enableLocalLogging)
  {
  }

  /** Each emitted message is posted at most once; nothing is posted for a URL that
      does not parse. */
  lemma PostedOnce(cfg: LoggerConfig, w: World, level: string, out: Rendered, send: SendOutcome, fault: FsFault,
                   nodeEnv: Option<string>)
    ensures var r := AfterLog(cfg, w, level, out, send, fault, nodeEnv);
      if Emits(cfg, level) && !send.BadUrl? then r.posted == w.posted + [out.payload] else r.posted == w.posted
  {
    if Emits(cfg, level) {
      var w1 := if send.BadUrl? then w else w.(posted := w.posted + [out.payload]);
      LocalWriteFrame(cfg, w1, level, out.line, fault);
    }
  }

  /** When both appends succeed, the level file and `all.log` each end with the same
      line, and no other file changes. */
  lemma BothFilesGetTheLine(cfg: LoggerConfig, w: World, level: string, line: string)
    requires cfg.enableLocalLogging && level != "all"
    ensures var r := LocalWrite(cfg, w, level, line, NoFault);
      && Content(r.files, LevelFile(cfg, level)) == Content(w.files, LevelFile(cfg, level)) + line
      && Content(r.files, AllFile(cfg)) == Content(w.files, AllFile(cfg)) + line
      && (forall p :: p != LevelFile(cfg, level) && p != AllFile(cfg) ==> Content(r.files, p) == Content(w.files, p))
      && r.console == w.console
  {
    LevelFileIsAllFileIff(cfg, level);
  }

  /** For the level name `all`, both appends go to `all.log`, so the line is written twice. */
  lemma AllLevelWritesTwice(cfg: LoggerConfig, w: World, line: string)
    requires cfg.enableLocalLogging
    ensures var r := LocalWrite(cfg, w, "all", line, NoFault);
      Content(r.files, AllFile(cfg)) == Content(w.files, AllFile(cfg)) + line + line
  {
    LevelFileIsAllFileIff(cfg, "all");
  }

  /** A failed append prints the error and the line on the console instead; the
      combined file is never written after a failure. */
  lemma FailedAppendGoesToConsole(cfg: LoggerConfig, w: World, level: string, line: string, fault: FsFault)
    requires cfg.enableLocalLogging && !fault.NoFault? && level != "all"
    ensures var r := LocalWrite(cfg, w, level, line, fault);
      && r.console == w.console + Fallback(fault.error, line)
      && Content(r.files, AllFile(cfg)) == Content(w.files, AllFile(cfg))
  {
    LevelFileIsAllFileIff(cfg, level);
  }

  /** With local logging off, `writeToLocalFile` does nothing. */
  lemma DisabledLocalLoggingWritesNothing(cfg: LoggerConfig, w: World, level: string, line: string, fault: FsFault)
    requires !cfg.enableLocalLogging
    ensures LocalWrite(cfg, w, level, line, fault) == w
  {
  }

  // ---- The logger object ----

  class Logger {
    const config: LoggerConfig
    const host: HostInfo
    var world: World

    /** Reads the configuration and, with local logging on, creates the log directory
        unless it exists. */
    constructor(env: map<string, string>, options: LoggerOptions, cwd: string, host: HostInfo, initial: World)
      ensures config == Configure(env, options, cwd) && this.host == host
      ensures world == if config.enableLocalLogging then initial.(dirs := initial.dirs + {config.logDir}) else initial
    {
      config := Configure(env, options, cwd);
      this.host := host;
      world := initial;
      new;
      if config.enableLocalLogging && config.logDir !in world.dirs {
        world := world.(dirs := world.dirs + {config.logDir});
      }
    }

    method WriteToLocalFile(level: string, message: string, metadata: Entries, now: LocalTime, fault: FsFault)
      modifies this
      ensures world == LocalWrite(config, old(world), level, LogLine(config, level, message, metadata, now), fault)
    {
      if !config.enableLocalLogging {
        return;
      }
      var line := LogLine(config, level, message, metadata, now);
      var logFile := LevelFile(config, level);
      var allLogFile := AllFile(config);
      if fault.FirstAppendFails? {
        world := world.(console := world.console + Fallback(fault.error, line));
        return;
      }
      world := world.(files := AppendTo(world.files, logFile, line));
      if fault.SecondAppendFails? {
        world := world.(console := world.console + Fallback(fault.error, line));
        return;
      }
      world := world.(files := AppendTo(world.files, allLogFile, line));
    }

    method Log(level: string, message: string, metadata: Entries, now: LocalTime, send: SendOutcome,
               fault: FsFault, nodeEnv: Option<string>)
      modifies this
      ensures world == AfterLog(config, old(world), level, Render(config, host, level, message, metadata, now),
                                send, fault, nodeEnv)
    {
      ghost var out := Render(config, host, level, message, metadata, now);
      ghost var w0 := world;
      var levelPriority := MessagePriority(level);
      if levelPriority > config.currentLevel {
        return;
      }
      if !send.BadUrl? {
        world := world.(posted := world.posted + [Payload(config, host, level, message, metadata, now)]);
      }
      ghost var w1 := world;
      assert w1 == Posted(w0, out.payload, send);
      if SendResult(send).Failure? {
        WriteToLocalFile(level, message, metadata, now, fault);
      }
      ghost var w2 := world;
      assert w2 == Recorded(config, w1, level, out.line, send, fault);
      if nodeEnv == Some("development") {
        world := world.(console := world.console + [DevLine(config, level, message, metadata, now)]);
      }
      assert world == Echoed(w2, out.echo, nodeEnv);
    }

    method Error(message: string, metadata: Entries, now: LocalTime, send: SendOutcome, fault: FsFault,
                 nodeEnv: Option<string>)
      modifies this
      ensures world == AfterLog(config, old(world), "error", Render(config, host, "error", message, metadata, now),
                                send, fault, nodeEnv)
    {
      Log("error", message, metadata, now, send, fault, nodeEnv);
    }

    method Warn(message: string, metadata: Entries, now: LocalTime, send: SendOutcome, fault: FsFault,
                nodeEnv: Option<string>)
      modifies this
      ensures world == AfterLog(config, old(world), "warn", Render(config, host, "warn", message, metadata, now),
                                send, fault, nodeEnv)
    {
      Log("warn", message, metadata, now, send, fault, nodeEnv);
    }

    method Info(message: string, metadata: Entries, now: LocalTime, send: SendOutcome, fault: FsFault,
                nodeEnv: Option<string>)
      modifies this
      ensures world == AfterLog(config, old(world), "info", Render(config, host, "info", message, metadata, now),
                                send, fault, nodeEnv)
    {
      Log("info", message, metadata, now, send, fault, nodeEnv);
    }

    method Debug(message: string, metadata: Entries, now: LocalTime, send: SendOutcome, fault: FsFault,
                 nodeEnv: Option<string>)
      modifies this
      ensures world == AfterLog(config, old(world), "debug", Render(config, host, "debug", message, metadata, now),
                                send, fault, nodeEnv)
    {
      Log("debug", message, metadata, now, send, fault, nodeEnv);
    }
  }
}
