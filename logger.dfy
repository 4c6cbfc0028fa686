/** The console logger (src/utils/logger.js): six numbered levels, a single
    mutable current level, a level filter in front of every output, the
    choice of console method by level, the header banner and the progress
    bar. Colours are the ANSI escape strings of the source; prefix glyphs are
    written as the characters they stand for. */
module Logger {
  import opened Prelude

  // LOG_LEVELS, in declaration order: a level's number is its index here.
  const LevelNames: seq<string> := ["ERROR", "WARN", "INFO", "SUCCESS", "NORMAL", "DEBUG"]
  const ERROR: nat := 0
  const WARN: nat := 1
  const INFO: nat := 2
  const SUCCESS: nat := 3
  const NORMAL: nat := 4
  const DEBUG: nat := 5

  const RESET: string := "\U{1b}[0m"
  const BRIGHT: string := "\U{1b}[1m"
  const RED: string := "\U{1b}[31m"
  const GREEN: string := "\U{1b}[32m"
  const YELLOW: string := "\U{1b}[33m"
  const BLUE: string := "\U{1b}[34m"
  const MAGENTA: string := "\U{1b}[35m"
  const CYAN: string := "\U{1b}[36m"

  const INFO_GLYPH: string := "\U{2139}"
  const SUCCESS_GLYPH: string := "\U{2705}"
  const WARN_GLYPH: string := "\U{26A0}"
  const ERROR_GLYPH: string := "\U{274C}"
  const DEBUG_GLYPH: string := "\U{1F41B}"
  const PROGRESS_GLYPH: string := "\U{1F504}"

  const FULL_CELL: string := "\U{2588}"
  const EMPTY_CELL: string := "\U{2591}"

  /** The three console methods the logger writes through. */
  datatype Channel = ConsoleLog | ConsoleWarn | ConsoleError

  datatype ConsoleLine = Line(channel: Channel, text: string)

  /** One call into the logger's public interface. */
  datatype LogCall =
    | Normal(message: string)
    | Info(message: string)
    | Success(message: string)
    | Warn(message: string)
    | Error(message: string)
    | Debug(message: string)
    | Header(title: string)
    | Progress(message: string, current: int, total: int)

  /** What a call does to the console: lines written, or a thrown error. */
  datatype Printed = Printed(lines: seq<ConsoleLine>) | Threw(error: string)

  /** Position of the first occurrence of `x` in `s`. */
  function IndexOf(s: seq<string>, x: string): (r: Option<nat>)
    ensures r.Some? ==> r.value < |s| && s[r.value] == x
    ensures r.Some? ==> forall j :: 0 <= j < r.value ==> s[j] != x
    ensures r.None? <==> x !in s
  {
    if s == [] then None
    else if s[0] == x then Some(0)
    else match IndexOf(s[1..], x)
      case None => None
      case Some(k) => Some(k + 1)
  }

  /** `LOG_LEVELS[name]`: the number of a level name, if it is one. */
  function LevelNumber(name: string): (r: Option<nat>)
    ensures r.Some? <==> name in LevelNames
    ensures r.Some? ==> r.value < |LevelNames| && LevelNames[r.value] == name
  {
    IndexOf(LevelNames, name)
  }

  /** The level names are already upper case. */
  lemma LevelNamesUpper(k: nat)
    requires k < |LevelNames|
    ensures ToUpper(LevelNames[k]) == LevelNames[k]
  {
    ToUpperFixed(LevelNames[k]);
  }

  /** The level names are distinct, so every name's number is its position. */
  lemma LevelNumberOfName(n: nat)
    requires n < |LevelNames|
    ensures LevelNumber(LevelNames[n]) == Some(n)
  {
    var r := LevelNumber(LevelNames[n]);
    assert LevelNames[n] in LevelNames;
    LevelNamesDistinct(r.value, n);
  }

  /** The six names start with six different letters. */
  lemma LevelNamesDistinct(i: nat, j: nat)
    requires i < |LevelNames| && j < |LevelNames| && LevelNames[i] == LevelNames[j]
    ensures i == j
  {
    assert LevelNames[i][0] == LevelNames[j][0];
  }

  /** `Object.keys(LOG_LEVELS).find(key => LOG_LEVELS[key] === n)` over `keys`. */
  function FindLevelName(keys: seq<string>, n: nat): (r: Option<string>)
    ensures r.Some? ==> r.value in keys && LevelNumber(r.value) == Some(n)
    ensures r.None? ==> forall k :: k in keys ==> LevelNumber(k) != Some(n)
  {
    if keys == [] then None
    else if LevelNumber(keys[0]) == Some(n) then Some(keys[0])
    else FindLevelName(keys[1..], n)
  }

  /** The name `getLevel` reports for level number `n`. */
  function LevelName(n: nat): Option<string> {
    FindLevelName(LevelNames, n)
  }

  /** Level names and numbers are mutually inverse on the six levels. */
  lemma {:induction false} LevelNameInverse(n: nat)
    ensures n < |LevelNames| ==> LevelName(n) == Some(LevelNames[n])
    ensures n >= |LevelNames| ==> LevelName(n) == None
  {
    var r := LevelName(n);
    if n < |LevelNames| {
      LevelNumberOfName(n);
      assert LevelNames[n] in LevelNames;
      assert r.Some?;
      assert LevelNames[n] == r.value;
    }
  }

  /** `isLevelEnabled(name)` at level `current`: the upper-cased name is a
      level whose number is at most `current`; an unknown name compares as
      NaN and gives false. */
  function LevelEnabled(current: nat, name: string): (r: bool)
    ensures r <==> exists i :: 0 <= i <= current && i < |LevelNames| && LevelNames[i] == ToUpper(name)
  {
    var n := LevelNumber(ToUpper(name));
    if n.Some? then
      assert LevelNames[n.value] == ToUpper(name);
      if n.value <= current then true
      else
        assert forall i :: 0 <= i < n.value ==> LevelNames[i] != ToUpper(name);
        assert forall i :: n.value < i < |LevelNames| ==> LevelNames[i] != LevelNames[n.value];
        false
    else false
  }

  /** The line `log` writes: colour, then the prefix and a space when there is
      a prefix, then the message, then the reset code. */
  function Format(color: string, prefix: string, message: string): (r: string)
    ensures |r| == |color| + (if prefix == "" then 0 else |prefix| + 1) + |message| + |RESET|
    ensures r[..|color|] == color
    ensures prefix != "" ==> r[|color|..|color| + |prefix| + 1] == prefix + " "
    ensures r[|r| - |RESET|..] == RESET
    ensures var start := |color| + (if prefix == "" then 0 else |prefix| + 1);
      start <= |r| - |RESET| && r[start..|r| - |RESET|] == message
  {
    var head := color + (if prefix != "" then prefix + " " else "");
    var r := head + message + RESET;
    assert r[..|color|] == color;
    assert r[|head|..|r| - |RESET|] == message;
    r
  }

  /** `log(level, color, prefix, message)` while the current level is `current`. */
  function Emit(current: nat, level: nat, color: string, prefix: string, message: string): (r: seq<ConsoleLine>)
    ensures |r| == (if level <= current then 1 else 0)
    ensures |r| == 1 ==> r[0].text == Format(color, prefix, message)
    ensures |r| == 1 ==> (r[0].channel == ConsoleError <==> level == ERROR)
    ensures |r| == 1 ==> (r[0].channel == ConsoleWarn <==> level == WARN)
  {
    if level > current then []
    else
      var channel := if level == ERROR then ConsoleError else if level == WARN then ConsoleWarn else ConsoleLog;
      [Line(channel, Format(color, prefix, message))]
  }

  /** `Math.round(n / d)`, that is floor(n / d + 1/2), computed exactly. */
  function RoundDiv(n: int, d: int): int
    requires d != 0
  {
    if d > 0 then (2 * n + d) / (2 * d) else (-(2 * n + d)) / (-(2 * d))
  }

  /** `RoundDiv(n, d)` is the integer nearest to n / d, halves rounded up:
      n / d - 1/2 <= r < n / d + 1/2, written without fractions. */
  lemma RoundDivNearest(n: int, d: int)
    requires d != 0
    ensures var r := RoundDiv(n, d);
      d > 0 ==> (2 * d) * r - d <= 2 * n < (2 * d) * r + d
    ensures var r := RoundDiv(n, d);
      d < 0 ==> (2 * -d) * r + d <= -2 * n < (2 * -d) * r - d
  {
    var m, e := if d > 0 then 2 * n + d else -(2 * n + d), if d > 0 then 2 * d else -(2 * d);
    var r := RoundDiv(n, d);
    assert r == m / e;
    assert m == e * r + m % e && 0 <= m % e < e;
  }

  /** Number of filled cells of a bar of `width` cells at `current` of `total`. */
  function FilledCells(current: int, total: int, width: int): int
    requires total != 0
  {
    RoundDiv(width * current, total)
  }

  /** `createProgressBar(current, total, width)`; `None` is the RangeError that
      `repeat` throws for a negative count. */
  function ProgressBar(current: int, total: int, width: int): (r: Option<string>)
    ensures total == 0 ==> r == Some("[]")
    ensures total != 0 ==> (r.Some? <==> 0 <= FilledCells(current, total, width) <= width)
    ensures total != 0 && r.Some? ==>
      var k := FilledCells(current, total, width);
      && |r.value| == width + 2
      && r.value[0] == '[' && r.value[width + 1] == ']'
      && (forall i :: 1 <= i <= k ==> r.value[i] == FULL_CELL[0])
      && (forall i :: k < i <= width ==> r.value[i] == EMPTY_CELL[0])
  {
    if total == 0 then Some("[]")
    else
      var completed := FilledCells(current, total, width);
      var remaining := width - completed;
      if completed < 0 || remaining < 0 then None
      else
        var bar := "[" + Repeat(FULL_CELL, completed) + Repeat(EMPTY_CELL, remaining) + "]";
        assert forall i :: 1 <= i <= completed ==> bar[i] == Repeat(FULL_CELL, completed)[i - 1];
        assert forall i :: completed < i <= width ==> bar[i] == Repeat(EMPTY_CELL, remaining)[i - 1 - completed];
        Some(bar)
  }

  lemma MulNonNegative(a: int, b: int)
    requires 0 <= a && 0 <= b
    ensures 0 <= a * b
  {
  }

  lemma DivBelow(n: int, d: int, q: int)
    requires d > 0 && 0 <= n < d * (q + 1)
    ensures 0 <= n / d <= q
  {
    var k, r := n / d, n % d;
    assert n == d * k + r && 0 <= r < d;
    if k > q {
      MulNonNegative(d, k - q - 1);
      assert false;
    }
  }

  lemma DivAbove(n: int, d: int, q: int)
    requires d > 0 && d * q <= n
    ensures q <= n / d
  {
    var k, r := n / d, n % d;
    assert n == d * k + r && 0 <= r < d;
    if k < q {
      MulNonNegative(d, q - k - 1);
      assert false;
    }
  }

  lemma DivMonotone(a: int, b: int, d: int)
    requires d > 0 && a <= b
    ensures a / d <= b / d
  {
    var qa, ra, qb, rb := a / d, a % d, b / d, b % d;
    assert a == d * qa + ra && 0 <= ra < d;
    assert b == d * qb + rb && 0 <= rb < d;
    if qa > qb {
      MulNonNegative(d, qa - qb - 1);
      assert false;
    }
  }

  /** Between 0 and the total, the filled cells stay between 0 and the
      width, are none at the start and all at the end. */
  lemma FilledCellsInRange(current: int, total: int, width: int)
    requires 0 < total && 0 <= current <= total && 0 <= width
    ensures 0 <= FilledCells(current, total, width) <= width
    ensures current == 0 ==> FilledCells(current, total, width) == 0
    ensures current == total ==> FilledCells(current, total, width) == width
  {
    var m := width * current;
    assert 0 <= m <= width * total by {
      MulNonNegative(width, current);
      MulNonNegative(width, total - current);
      assert width * total - m == width * (total - current);
    }
    var n := 2 * m + total;
    assert n < (2 * total) * (width + 1) by {
      assert (2 * total) * (width + 1) == 2 * (width * total) + 2 * total;
    }
    DivBelow(n, 2 * total, width);
    assert FilledCells(current, total, width) == n / (2 * total);
    if current == 0 {
      assert n == total;
      DivBelow(total, 2 * total, 0);
    }
    if current == total {
      assert n == (2 * total) * width + total;
      DivAbove(n, 2 * total, width);
    }
  }

  /** For progress between 0 and the total the bar never throws, is `width + 2`
      characters long and fills at most `width` cells, all of them at the end
      and none at the start. */
  lemma ProgressBarInRange(current: int, total: int, width: int)
    requires 0 < total && 0 <= current <= total && 0 <= width
    ensures 0 <= FilledCells(current, total, width) <= width
    ensures ProgressBar(current, total, width).Some?
    ensures |ProgressBar(current, total, width).value| == width + 2
    ensures current == 0 ==> FilledCells(current, total, width) == 0
    ensures current == total ==> FilledCells(current, total, width) == width
  {
    FilledCellsInRange(current, total, width);
  }

  /** More progress never fills fewer cells. */
  lemma ProgressBarMonotone(c1: int, c2: int, total: int, width: int)
    requires 0 < total && c1 <= c2 && 0 <= width
    ensures FilledCells(c1, total, width) <= FilledCells(c2, total, width)
  {
    assert width * c1 <= width * c2 by {
      assert width * (c2 - c1) >= 0;
    }
    DivMonotone(2 * (width * c1) + total, 2 * (width * c2) + total, 2 * total);
  }

  /** The percentage `progress` prints: for a positive total the integer
      nearest to 100 * current / total, halves rounded up; otherwise 0. */
  function Percentage(current: int, total: int): (r: int)
    ensures total > 0 ==> (2 * total) * r - total <= 200 * current < (2 * total) * r + total
    ensures total <= 0 ==> r == 0
  {
    if total > 0 then
      RoundDivNearest(current * 100, total);
      RoundDiv(current * 100, total)
    else 0
  }

  /** The three lines `header(title, symbol)` prints; the rule is the symbol
      repeated max(20, |title| + 4) times. */
  function HeaderLines(title: string, symbol: string): (r: seq<ConsoleLine>)
    ensures |r| == 3 && forall i :: 0 <= i < 3 ==> r[i].channel == ConsoleLog
    ensures Contains(r[1].text, "  " + title)
    ensures r[1].text == BRIGHT + BLUE + "  " + title + RESET
    ensures var rule := Repeat(symbol, Max(20, |title| + 4));
      && r[0].text == "\n" + BRIGHT + BLUE + rule + RESET
      && r[2].text == BRIGHT + BLUE + rule + RESET + "\n"
  {
    var rule := Repeat(symbol, Max(20, |title| + 4));
    var middle := BRIGHT + BLUE + "  " + title + RESET;
    assert middle == BRIGHT + BLUE + ("  " + title) + RESET;
    ContainsMiddle(BRIGHT + BLUE, "  " + title, RESET);
    [ Line(ConsoleLog, "\n" + BRIGHT + BLUE + rule + RESET),
      Line(ConsoleLog, middle),
      Line(ConsoleLog, BRIGHT + BLUE + rule + RESET + "\n") ]
  }

  /** The rule line of a header with a one-character symbol is
      max(20, |title| + 4) characters wide. */
  lemma HeaderRuleWidth(title: string, symbol: string)
    requires |symbol| == 1
    ensures var t := HeaderLines(title, symbol)[2].text;
      |t| == |BRIGHT + BLUE| + Max(20, |title| + 4) + |RESET| + 1
      && |t| - |BRIGHT + BLUE| - |RESET| - 1 >= 20
  {
  }

  /** The level a call is filtered at. */
  function CallLevel(call: LogCall): nat {
    match call
    case Normal(_) => NORMAL
    case Info(_) => INFO
    case Success(_) => SUCCESS
    case Warn(_) => WARN
    case Error(_) => ERROR
    case Debug(_) => DEBUG
    case Header(_) => NORMAL
    case Progress(_, _, _) => INFO
  }

  /** What a logger call writes while the current level is `current`. */
  function Output(current: nat, call: LogCall): (r: Printed)
    ensures r == Printed([]) <==> current < CallLevel(call)
    ensures r.Threw? ==> call.Progress?
  {
    match call
    case Normal(m) => Printed(Emit(current, NORMAL, RESET, "", m))
    case Info(m) => Printed(Emit(current, INFO, CYAN, INFO_GLYPH, m))
    case Success(m) => Printed(Emit(current, SUCCESS, GREEN, SUCCESS_GLYPH, m))
    case Warn(m) => Printed(Emit(current, WARN, YELLOW, WARN_GLYPH, m))
    case Error(m) => Printed(Emit(current, ERROR, RED, ERROR_GLYPH, m))
    case Debug(m) => Printed(Emit(current, DEBUG, MAGENTA, DEBUG_GLYPH, m))
    case Header(t) => Printed(if NORMAL > current then [] else HeaderLines(t, "="))
    case Progress(m, c, t) =>
      if INFO > current then Printed([])
      else match ProgressBar(c, t, 20)
        case None => Threw("RangeError")
        case Some(bar) =>
          Printed(Emit(current, INFO, BLUE, PROGRESS_GLYPH,
                       m + " " + bar + " (" + IntToString(Percentage(c, t)) + "%)"))
  }

  /** `isLevelEnabled` on the name of a call's level says exactly whether that
      call writes anything. */
  lemma IsLevelEnabledPredictsOutput(current: nat, call: LogCall)
    ensures LevelEnabled(current, LevelNames[CallLevel(call)]) <==> Output(current, call) != Printed([])
  {
    var k := CallLevel(call);
    var name := LevelNames[k];
    LevelNamesUpper(k);
    LevelNumberOfName(k);
    assert LevelNumber(ToUpper(name)) == Some(k);
    assert LevelEnabled(current, name) <==> k <= current;
    assert Output(current, call) != Printed([]) <==> k <= current;
  }

  /** Errors go to `console.error`, warnings to `console.warn`, every other
      single-line message to `console.log`. */
  lemma ChannelByLevel(current: nat, call: LogCall)
    requires !call.Header? && !call.Progress?
    requires CallLevel(call) <= current
    ensures |Output(current, call).lines| == 1
    ensures Output(current, call).lines[0].channel ==
      (if call.Error? then ConsoleError else if call.Warn? then ConsoleWarn else ConsoleLog)
  {
  }

  /** The logger: the current level (`currentLogLevel`) and what has been
      written to the console so far. */
  class Logger {
    var level: nat
    var console: seq<ConsoleLine>

    ghost predicate Valid()
      reads this
    {
      level < |LevelNames|
    }

    /** The module starts at NORMAL with nothing written. */
    constructor ()
      ensures Valid() && level == NORMAL && console == []
    {
      level := NORMAL;
      console := [];
    }

    /** `log(level, color, prefix, ...messages)`. */
    method Log(lvl: nat, color: string, prefix: string, message: string)
      modifies this`console
      ensures console == old(console) + Emit(level, lvl, color, prefix, message)
    {
      if lvl > level {
        return;
      }
      var output := color + (if prefix != "" then prefix + " " else "") + message + RESET;
      var channel := if lvl == ERROR then ConsoleError else if lvl == WARN then ConsoleWarn else ConsoleLog;
      console := console + [Line(channel, output)];
    }

    method Normal(message: string)
      modifies this`console
      ensures console == old(console) + Output(level, LogCall.Normal(message)).lines
    {
      Log(NORMAL, RESET, "", message);
    }

    method Info(message: string)
      modifies this`console
      ensures console == old(console) + Output(level, LogCall.Info(message)).lines
    {
      Log(INFO, CYAN, INFO_GLYPH, message);
    }

    method Success(message: string)
      modifies this`console
      ensures console == old(console) + Output(level, LogCall.Success(message)).lines
    {
      Log(SUCCESS, GREEN, SUCCESS_GLYPH, message);
    }

    method Warn(message: string)
      modifies this`console
      ensures console == old(console) + Output(level, LogCall.Warn(message)).lines
    {
      Log(WARN, YELLOW, WARN_GLYPH, message);
    }

    method Error(message: string)
      modifies this`console
      ensures console == old(console) + Output(level, LogCall.Error(message)).lines
    {
      Log(ERROR, RED, ERROR_GLYPH, message);
    }

    method Debug(message: string)
      modifies this`console
      ensures console == old(console) + Output(level, LogCall.Debug(message)).lines
    {
      Log(DEBUG, MAGENTA, DEBUG_GLYPH, message);
    }

    /** `header(title, symbol)`: three lines, only at NORMAL or above. */
    method Header(title: string, symbol: string)
      modifies this`console
      ensures console == old(console) + (if NORMAL <= level then HeaderLines(title, symbol) else [])
      ensures symbol == "=" ==> console == old(console) + Output(level, LogCall.Header(title)).lines
    {
      if NORMAL > level {
        return;
      }
      var line := Repeat(symbol, Max(20, |title| + 4));
      console := console + [Line(ConsoleLog, "\n" + BRIGHT + BLUE + line + RESET)];
      console := console + [Line(ConsoleLog, BRIGHT + BLUE + "  " + title + RESET)];
      console := console + [Line(ConsoleLog, BRIGHT + BLUE + line + RESET + "\n")];
    }

    /** `progress(message, current, total)`; `threw` reports the RangeError
        that a bar with a negative cell count raises. */
    method Progress(message: string, current: int, total: int) returns (threw: bool)
      modifies this`console
      ensures match Output(level, LogCall.Progress(message, current, total))
        case Printed(lines) => !threw && console == old(console) + lines
        case Threw(_) => threw && console == old(console)
    {
      threw := false;
      if INFO > level {
        return;
      }
      var percentage := if total > 0 then RoundDiv(current * 100, total) else 0;
      var bar := ProgressBar(current, total, 20);
      if bar.None? {
        threw := true;
        return;
      }
      Log(INFO, BLUE, PROGRESS_GLYPH, message + " " + bar.value + " (" + IntToString(percentage) + "%)");
    }

    /** `setLevel(name)`: a known upper-cased name becomes the level and is
        confirmed at DEBUG; an unknown one leaves the level alone and is
        reported at WARN. */
    method SetLevel(name: string)
      requires Valid()
      modifies this
      ensures Valid()
      ensures ToUpper(name) in LevelNames ==>
        level == LevelNumber(ToUpper(name)).value && GetLevel() == Some(ToUpper(name))
      ensures ToUpper(name) in LevelNames ==>
        console == old(console) + Output(level, LogCall.Debug("Log level set to: " + ToUpper(name))).lines
      ensures ToUpper(name) !in LevelNames ==>
        level == old(level)
        && console == old(console) + Output(level, LogCall.Warn("Invalid log level: " + name + ". Using default: NORMAL")).lines
    {
      var upper := ToUpper(name);
      var n := LevelNumber(upper);
      if n.Some? {
        level := n.value;
        LevelNameInverse(level);
        Debug("Log level set to: " + upper);
      } else {
        Warn("Invalid log level: " + name + ". Using default: NORMAL");
      }
    }

    /** `getLevel()`: the name whose number is the current level. */
    function GetLevel(): (r: Option<string>)
      requires Valid()
      reads this
      ensures r.Some? && LevelNumber(r.value) == Some(level)
    {
      LevelNameInverse(level);
      LevelNumberOfName(level);
      LevelName(level)
    }

    /** `isLevelEnabled(name)`. */
    function IsLevelEnabled(name: string): (r: bool)
      reads this
      ensures r <==> exists i :: 0 <= i <= level && i < |LevelNames| && LevelNames[i] == ToUpper(name)
    {
      LevelEnabled(level, name)
    }
  }
}
