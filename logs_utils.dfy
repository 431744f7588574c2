/**
 * The logger of backend/utils/logsUtils.js: a level threshold deciding which
 * messages are written, and the elapsed time since the previous debug
 * message. The console is the sequence `written` the methods append to; the
 * clock and the formatted date are parameters. Colours are off.
 */
module LogsUtils {
  import opened Wrappers

  /** The levels in increasing severity. */
  const LEVELS: seq<string> := ["debug", "info", "warn", "error"]

  const DEFAULT_APP_NAME := "MiroTalkAdmin"
  const DEFAULT_LEVEL := "debug"

  /** `levels.indexOf(level)`: the position of the level, or -1 for a text that is not a level. */
  function LevelIndex(level: string): (r: int)
    ensures -1 <= r < |LEVELS|
    ensures r == -1 <==> level !in LEVELS
    ensures r >= 0 ==> LEVELS[r] == level
  {
    if level == "debug" then 0
    else if level == "info" then 1
    else if level == "warn" then 2
    else if level == "error" then 3
    else -1
  }

  /** `shouldLog`: a message is written when its level is at least the threshold. */
  predicate Admits(threshold: string, level: string) {
    LevelIndex(level) >= LevelIndex(threshold)
  }

  /** An error message is written whatever the threshold. */
  lemma ErrorsAlwaysWritten(threshold: string)
    ensures Admits(threshold, "error")
  {
  }

  /** A threshold that is not a level (a misspelt one) lets every message through. */
  lemma UnknownThresholdAdmitsAll(threshold: string, level: string)
    requires threshold !in LEVELS
    ensures Admits(threshold, level)
  {
  }

  /** The default threshold writes every level, and a known threshold drops exactly the levels below it. */
  lemma ThresholdOrder(threshold: string, i: nat)
    requires i < |LEVELS|
    ensures Admits(DEFAULT_LEVEL, LEVELS[i])
    ensures threshold in LEVELS ==> (Admits(threshold, LEVELS[i]) <==> i >= LevelIndex(threshold))
  {
  }

  /** A more severe level is written whenever a less severe one is. */
  lemma AdmitsUpward(threshold: string, level: string, higher: string)
    requires Admits(threshold, level) && LevelIndex(higher) >= LevelIndex(level)
    ensures Admits(threshold, higher)
  {
  }

  /** The unit `_getElapsed` shows a duration in. */
  datatype TimeUnit = Hours | Minutes | Seconds | Millis

  function Divisor(u: TimeUnit): nat {
    match u
    case Hours => 3600000
    case Minutes => 60000
    case Seconds => 1000
    case Millis => 1
  }

  /** A duration in milliseconds and the unit it is shown in (as `ms / divisor` to two decimals). */
  datatype Elapsed = Elapsed(ms: int, unit: TimeUnit)

  /** The unit chosen for a duration: the largest unit the duration reaches, milliseconds below one second. */
  function ElapsedOf(ms: int): (e: Elapsed)
    ensures e.ms == ms
    ensures e.unit == Hours <==> ms >= 3600000
    ensures e.unit == Minutes <==> 60000 <= ms < 3600000
    ensures e.unit == Seconds <==> 1000 <= ms < 60000
    ensures e.unit == Millis <==> ms < 1000
  {
    if ms >= 3600000 then Elapsed(ms, Hours)
    else if ms >= 60000 then Elapsed(ms, Minutes)
    else if ms >= 1000 then Elapsed(ms, Seconds)
    else Elapsed(ms, Millis)
  }

  /** A duration shown in minutes or seconds is at least one and below sixty of that unit. */
  lemma ShownValueInRange(ms: int)
    ensures var e := ElapsedOf(ms);
      e.unit != Millis ==> Divisor(e.unit) <= ms
    ensures var e := ElapsedOf(ms);
      e.unit == Minutes || e.unit == Seconds ==> ms < 60 * Divisor(e.unit)
  {
  }

  /** The console method a message is written with. */
  datatype Channel = DebugOut | LogOut | InfoOut | WarnOut | ErrorOut | TraceOut

  /** A written message: its channel, its prefixed text, and for debug messages the elapsed time. */
  datatype Entry = Entry(channel: Channel, text: string, elapsed: Option<Elapsed>)

  /** `[<date>] [<app name>] <message>`. */
  function Line(dateTime: string, appName: string, msg: string): (line: string)
    ensures |line| == |dateTime| + |appName| + |msg| + 6
    ensures line[0] == '[' && line[1..|dateTime| + 1] == dateTime
    ensures line[|line| - |msg|..] == msg
  {
    var tail := "] " + msg;
    var mid := appName + tail;
    var rest := "] [" + mid;
    var line := "[" + (dateTime + rest);
    assert line[1..] == dateTime + rest;
    assert line[1..|dateTime| + 1] == (dateTime + rest)[..|dateTime|];
    assert line[|dateTime| + 4..] == mid;
    assert line[|line| - |msg|..] == tail[2..];
    line
  }

  /** The level a channel's messages carry. */
  function ChannelLevel(c: Channel): string {
    match c
    case DebugOut => "debug"
    case LogOut => "debug"
    case InfoOut => "info"
    case WarnOut => "warn"
    case ErrorOut => "error"
    case TraceOut => "debug"
  }

  class Logs {
    var appName: string
    var debugOn: bool
    var timeStart: int
    var level: string
    var written: seq<Entry>

    /** The logger starts with nothing written and the clock reading of its creation. */
    constructor(appName: string, level: string, logsDebug: bool, now: int)
      ensures this.appName == appName && this.level == level && debugOn == logsDebug
      ensures timeStart == now && written == []
    {
      this.appName := appName;
      this.level := level;
      debugOn := logsDebug;
      timeStart := now;
      written := [];
    }

    predicate ShouldLog(l: string)
      reads this
    {
      Admits(level, l)
    }

    /** `_getElapsed`: the time since the previous reading, which becomes `now`. */
    method GetElapsed(now: int) returns (e: Elapsed)
      modifies this
      ensures e == ElapsedOf(now - old(timeStart))
      ensures timeStart == now
      ensures appName == old(appName) && debugOn == old(debugOn) && level == old(level) && written == old(written)
    {
      var ms := now - timeStart;
      timeStart := now;
      if ms >= 3600000 {
        e := Elapsed(ms, Hours);
      } else if ms >= 60000 {
        e := Elapsed(ms, Minutes);
      } else if ms >= 1000 {
        e := Elapsed(ms, Seconds);
      } else {
        e := Elapsed(ms, Millis);
      }
    }

    /** `debug`: written only with debugging on and the threshold at debug; only then is the clock read. */
    method Debug(msg: string, dateTime: string, now: int)
      modifies this
      ensures appName == old(appName) && debugOn == old(debugOn) && level == old(level)
      ensures debugOn && ShouldLog("debug") ==> (
        && timeStart == now
        && written == old(written) + [Entry(DebugOut, Line(dateTime, appName, msg), Some(ElapsedOf(now - old(timeStart))))])
      ensures !(debugOn && ShouldLog("debug")) ==> timeStart == old(timeStart) && written == old(written)
    {
      if debugOn && ShouldLog("debug") {
        var e := GetElapsed(now);
        written := written + [Entry(DebugOut, Line(dateTime, appName, msg), Some(e))];
      }
    }

    /** `log`, `info`, `warn`, `error` and `trace`: written when the channel's level passes the threshold. */
    method Write(channel: Channel, msg: string, dateTime: string)
      requires channel != DebugOut
      modifies this
      ensures appName == old(appName) && debugOn == old(debugOn) && level == old(level) && timeStart == old(timeStart)
      ensures written == old(written) + if ShouldLog(ChannelLevel(channel))
                                        then [Entry(channel, Line(dateTime, appName, msg), None)] else []
    {
      if ShouldLog(ChannelLevel(channel)) {
        written := written + [Entry(channel, Line(dateTime, appName, msg), None)];
      }
    }
  }

  /** With the default threshold every channel but debug writes; debug writes exactly when debugging is on. */
  method DefaultLoggerWrites(logsDebug: bool, channel: Channel, now: int) returns (count: nat)
    ensures count == (if channel != DebugOut || logsDebug then 1 else 0)
  {
    var logs := new Logs(DEFAULT_APP_NAME, DEFAULT_LEVEL, logsDebug, now);
    if channel == DebugOut {
      logs.Debug("message", "date", now + 1);
    } else {
      logs.Write(channel, "message", "date");
    }
    count := |logs.written|;
  }
}
